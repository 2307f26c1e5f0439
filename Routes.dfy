/** The server routes built on the store: the token lookup of the auth
    middleware, the masked settings read, order creation with one immediate
    push upstream, the batch push of unsynced orders, the paginated catalog
    syncs, the cache-miss fallback of the listings, and the stock
    write-back. The upstream platform is a parameter: the outcome
    of each call is given, not computed. */
module Routes {
  import opened Wrappers
  import opened Text
  import opened Money
  import opened Collections
  import opened Schema
  import opened ServerStorage

  // Upstream records, as the platform returns them

  datatype WcProduct = WcProduct(
    id: int, name: string, slug: Option<string>, sku: Option<string>, price: Option<string>,
    regularPrice: Option<string>, salePrice: Option<string>, onSale: Option<bool>, status: string,
    stockStatus: Option<string>, stockQuantity: Option<int>, manageStock: Option<bool>,
    categories: Option<seq<Category>>, images: Option<seq<Image>>, weight: Option<string>,
    dimensions: Option<Dimensions>, shortDescription: Option<string>, description: Option<string>)

  datatype WcCustomer = WcCustomer(
    id: int, email: string, firstName: Option<string>, lastName: Option<string>,
    username: Option<string>, billing: Option<Address>, shipping: Option<Address>,
    avatarUrl: Option<string>, totalSpent: Option<string>, ordersCount: Option<int>)

  /** What a cached product keeps of the upstream record it was made from. */
  function UpstreamFields(p: CachedProduct): WcProduct {
    WcProduct(p.id, p.name, p.slug, p.sku, p.price, p.regularPrice, p.salePrice, p.onSale, p.status,
      p.stockStatus, p.stockQuantity, p.manageStock, p.categories, p.images, p.weight, p.dimensions,
      p.shortDescription, p.description)
  }

  /** The upstream → cache field mapping of the product routes: every
      upstream field is kept, and the three time stamps are the sync time. */
  function ToCachedProduct(w: WcProduct, now: Millis): (r: CachedProduct)
    ensures UpstreamFields(r) == w
    ensures r.lastSyncAt == Some(now) && r.createdAt == Some(now) && r.updatedAt == Some(now)
  {
    CachedProduct(w.id, w.name, w.slug, w.sku, w.price, w.regularPrice, w.salePrice, w.onSale,
      w.status, w.stockStatus, w.stockQuantity, w.manageStock, w.categories, w.images, w.weight,
      w.dimensions, w.shortDescription, w.description, Some(now), Some(now), Some(now))
  }

  /** The upstream → cache field mapping of the customer routes. It copies no
      display name and no creation date. */
  function ToCachedCustomer(w: WcCustomer, now: Millis): (r: CachedCustomer)
    ensures r.id == w.id && r.email == w.email && r.firstName == w.firstName && r.lastName == w.lastName
    ensures r.displayName.None? && r.dateCreated.None?
  {
    CachedCustomer(w.id, w.email, w.firstName, w.lastName, None, w.username, w.billing, w.shipping,
      w.avatarUrl, None, w.ordersCount, w.totalSpent, Some(now), Some(now), Some(now))
  }

  function ToCachedProducts(ws: seq<WcProduct>, now: Millis): (r: seq<CachedProduct>)
    ensures |r| == |ws|
    ensures forall i :: 0 <= i < |ws| ==> r[i] == ToCachedProduct(ws[i], now)
  {
    seq(|ws|, i requires 0 <= i < |ws| => ToCachedProduct(ws[i], now))
  }

  function ToCachedCustomers(ws: seq<WcCustomer>, now: Millis): (r: seq<CachedCustomer>)
    ensures |r| == |ws|
    ensures forall i :: 0 <= i < |ws| ==> r[i] == ToCachedCustomer(ws[i], now)
  {
    seq(|ws|, i requires 0 <= i < |ws| => ToCachedCustomer(ws[i], now))
  }

  // The auth middleware's token lookup

  const BearerPrefix: string := "Bearer "

  /** `requireAuth`: a missing or non-Bearer header and an unknown or
      expired token are refused; otherwise the session is the request's user. */
  method RequireAuth(st: MemStorage, header: Option<string>, now: Millis) returns (r: Result<UserSession>)
    requires st.Valid()
    modifies st`sessions
    ensures st.Valid()
    ensures (header.None? || !StartsWith(header.value, BearerPrefix)) ==>
      r == Err("Authentication required") && st.sessions == old(st.sessions)
    ensures header.Some? && StartsWith(header.value, BearerPrefix) ==>
      var token := header.value[|BearerPrefix|..];
      && (r.Ok? <==> token in old(st.sessions.entries) && now <= old(st.sessions.entries[token]).expiresAt)
      && (r.Ok? ==> r.value == old(st.sessions.entries[token]))
      && (r.Err? ==> r.message == "Invalid or expired session")
      && st.sessions == if token in old(st.sessions.entries) && now > old(st.sessions.entries[token]).expiresAt
                        then old(st.sessions).Delete(token) else old(st.sessions)
  {
    if header.None? || !StartsWith(header.value, BearerPrefix) {
      return Err("Authentication required");
    }
    var token := header.value[|BearerPrefix|..];
    var session := st.GetUserSession(token, now);
    if session.None? {
      return Err("Invalid or expired session");
    }
    r := Ok(session.value);
  }

  // Settings read

  /** Twelve bullets, the mask the settings read shows. */
  const Mask: string := "••••••••••••"

  /** `consumerKey ? mask + consumerKey.slice(-4) : ''` */
  function MaskKey(key: string): (r: string)
    ensures key == "" ==> r == ""
    ensures key != "" ==> r == Mask + key[|key| - (if |key| < 4 then |key| else 4)..]
  {
    if key == "" then "" else Mask + key[|key| - (if |key| < 4 then |key| else 4)..]
  }

  /** The masked key gives away no more than the key's last four characters:
      keys that agree there are shown the same way. */
  lemma MaskKeyRevealsOnlyLastFour(a: string, b: string)
    requires |a| >= 4 && |b| >= 4 && a[|a| - 4..] == b[|b| - 4..]
    ensures MaskKey(a) == MaskKey(b)
    ensures |MaskKey(a)| == |Mask| + 4
  {
  }

  /** The record the settings read returns: the secret replaced by the mask,
      the key by the mask and its last four characters. */
  function PublicSettings(s: PosSettings): (r: PosSettings)
    ensures r.consumerSecret == Mask && r.consumerKey == MaskKey(s.consumerKey)
    ensures r.(consumerKey := s.consumerKey, consumerSecret := s.consumerSecret) == s
  {
    s.(consumerKey := MaskKey(s.consumerKey), consumerSecret := Mask)
  }

  /** `GET /api/settings`: "Settings not found" without settings. */
  method GetSettings(st: MemStorage) returns (r: Result<PosSettings>)
    requires st.Valid()
    ensures st.settings.keys == [] <==> r.Err?
    ensures r.Err? ==> r.message == "Settings not found"
    ensures r.Ok? ==> r.value == PublicSettings(st.settings.entries[st.settings.keys[0]])
  {
    var s := st.GetPosSettings();
    if s.None? {
      return Err("Settings not found");
    }
    r := Ok(PublicSettings(s.value));
  }

  // Orders pushed upstream

  /** What one upstream order creation answered: its id, or a failure. */
  datatype PushOutcome = Pushed(wcId: int) | PushFailed(message: string)

  datatype LineItem = LineItem(productId: int, quantity: int, total: string)
  datatype MetaEntry = MetaEntry(key: string, value: string)
  datatype Billing = EmptyBilling | Billing(email: string, firstName: string, lastName: string)

  /** The upstream order-creation body. `billing` is absent in the batch push. */
  datatype WcOrderPayload = WcOrderPayload(
    status: string, customerId: int, billing: Option<Billing>,
    lineItems: seq<LineItem>, metaData: seq<MetaEntry>)

  const PosOrderIdKey: string := "_pos_order_id"
  const PosCashierKey: string := "_pos_cashier"

  /** `order.items?.map(...) || []`: one line per item, its total the
      item's subtotal as text. */
  function LineItems(o: PosOrder): (r: seq<LineItem>)
    ensures |r| == |o.items.GetOr([])|
    ensures forall i :: 0 <= i < |r| ==>
      r[i].productId == o.items.GetOr([])[i].id && r[i].quantity == o.items.GetOr([])[i].quantity
  {
    var items := o.items.GetOr([]);
    seq(|items|, i requires 0 <= i < |items| => LineItem(items[i].id, items[i].quantity, FormatCents(items[i].subtotal)))
  }

  /** Each line's total reads back as the item's subtotal. */
  lemma LineItemTotalsRoundTrip(o: PosOrder)
    ensures forall i :: 0 <= i < |LineItems(o)| ==>
      ParseCents(LineItems(o)[i].total) == Some(o.items.GetOr([])[i].subtotal)
  {
    forall i | 0 <= i < |LineItems(o)|
      ensures ParseCents(LineItems(o)[i].total) == Some(o.items.GetOr([])[i].subtotal)
    {
      FormatParseRoundTrip(o.items.GetOr([])[i].subtotal);
    }
  }

  /** `order.customerId || 0` */
  function UpstreamCustomerId(o: PosOrder): (r: int)
    ensures o.customerId.Some? && o.customerId.value != 0 ==> r == o.customerId.value
    ensures o.customerId.None? ==> r == 0
  {
    if o.customerId.Some? then o.customerId.value else 0
  }

  /** The billing block of the immediate push: present only with a
      non-empty e-mail; the name split at its first space. */
  function BillingOf(o: PosOrder): (r: Billing)
    ensures r.Billing? <==> o.customerEmail.Some? && o.customerEmail.value != ""
    ensures r.Billing? ==> r.email == o.customerEmail.value && ' ' !in r.firstName
    ensures r.Billing? && o.customerName.Some? && ' ' in o.customerName.value ==>
      r.firstName + " " + r.lastName == o.customerName.value
    ensures r.Billing? && (o.customerName.None? || ' ' !in o.customerName.value) ==>
      r.firstName == o.customerName.GetOr("") && r.lastName == ""
    ensures r.Billing? ==>
      r.firstName == FirstWord(o.customerName.GetOr("")) && r.lastName == AfterFirstWord(o.customerName.GetOr(""))
  {
    if o.customerEmail.Some? && o.customerEmail.value != "" then
      var name := o.customerName.GetOr("");
      SplitNameRoundTrip(name);
      Billing(o.customerEmail.value, FirstWord(name), AfterFirstWord(name))
    else EmptyBilling
  }

  /** The body the order route sends right after creating the order. */
  function CreatePayload(o: PosOrder): (r: WcOrderPayload)
    ensures r.status == "processing" && r.billing == Some(BillingOf(o))
    ensures r.lineItems == LineItems(o) && r.customerId == UpstreamCustomerId(o)
    ensures r.metaData == [MetaEntry(PosOrderIdKey, o.orderId), MetaEntry(PosCashierKey, o.cashierName)]
  {
    WcOrderPayload("processing", UpstreamCustomerId(o), Some(BillingOf(o)), LineItems(o),
      [MetaEntry(PosOrderIdKey, o.orderId), MetaEntry(PosCashierKey, o.cashierName)])
  }

  /** The body the batch push sends: no billing, only the local order id as metadata. */
  function SyncPayload(o: PosOrder): (r: WcOrderPayload)
    ensures r.status == "processing"
    ensures r.lineItems == LineItems(o) && r.customerId == UpstreamCustomerId(o) && r.billing.None?
    ensures r.metaData == [MetaEntry(PosOrderIdKey, o.orderId)]
  {
    WcOrderPayload("processing", UpstreamCustomerId(o), None, LineItems(o), [MetaEntry(PosOrderIdKey, o.orderId)])
  }

  /** The update a successful push makes: the upstream id, and synced. */
  function SyncedPatch(wcId: int): OrderPatch {
    OrderPatch(Some(Some(wcId)), Some(true), None, None)
  }

  /** The local order number: "POS-" and the current millisecond. */
  function OrderIdFor(now: nat): (r: string)
    ensures StartsWith(r, "POS-") && |r| > 4
    ensures AllDigits(r[4..]) && DecimalValue(r[4..]) == now
  {
    NatToStringRoundTrip(now);
    assert ("POS-" + NatToString(now))[4..] == NatToString(now);
    "POS-" + NatToString(now)
  }

  /** Orders created in different milliseconds get different order numbers
      (orders created in the same millisecond get the same one). */
  lemma OrderIdsDifferAcrossMilliseconds(m: nat, n: nat)
    requires m != n
    ensures OrderIdFor(m) != OrderIdFor(n)
  {
    assert OrderIdFor(m)[4..] == NatToString(m);
    assert OrderIdFor(n)[4..] == NatToString(n);
    NatToStringInjective(m, n);
  }

  /** `POST /api/orders`: the order is stored first, unsynced, under the
      fresh id; then, when settings exist, one push is tried and only its
      success marks the order synced; a failed push is swallowed. The
      response is the record as first created. */
  method CreateOrder(st: MemStorage, body: InsertPosOrder, user: UserSession, id: string, now: nat,
                     push: PushOutcome) returns (resp: PosOrder, sent: Option<WcOrderPayload>)
    requires st.Valid()
    modifies st`orders
    ensures st.Valid()
    ensures resp == NewOrder(body.(cashierId := user.userId, cashierName := user.displayName,
                                   orderId := OrderIdFor(now)), id, now)
    ensures !resp.syncedToWoocommerce && resp.orderId == OrderIdFor(now)
    ensures sent.Some? <==> st.settings.keys != []
    ensures sent.Some? ==> sent.value == CreatePayload(resp)
    ensures sent.Some? && push.Pushed? ==>
      st.orders == old(st.orders).Set(id, resp).Set(id, PatchOrder(resp, SyncedPatch(push.wcId), now))
    ensures sent.None? || push.PushFailed? ==> st.orders == old(st.orders).Set(id, resp)
  {
    var orderData := body.(cashierId := user.userId, cashierName := user.displayName);
    resp := st.CreatePosOrder(orderData.(orderId := OrderIdFor(now)), id, now);
    var settings := st.GetPosSettings();
    sent := None;
    if settings.Some? {
      sent := Some(CreatePayload(resp));
      if push.Pushed? {
        var _ := st.UpdatePosOrder(resp.id, SyncedPatch(push.wcId), now);
      }
    }
  }

  /** One entry of the batch push's answer: the upstream id on success, the
      failure's message otherwise. */
  datatype SyncResult = SyncResult(orderId: string, success: bool, woocommerceId: Option<int>, error: Option<string>)

  /** The bodies the batch push sends for `os`, in turn. */
  function SyncPayloads(os: seq<PosOrder>): (r: seq<WcOrderPayload>)
    ensures |r| == |os| && forall j :: 0 <= j < |os| ==> r[j] == SyncPayload(os[j])
  {
    if os == [] then [] else SyncPayloads(os[..|os| - 1]) + [SyncPayload(os[|os| - 1])]
  }

  /** The batch push's answers for `os` in turn. */
  function ResultsFor(os: seq<PosOrder>, outs: seq<PushOutcome>): (r: seq<SyncResult>)
    requires |os| <= |outs|
    ensures |r| == |os| && forall j :: 0 <= j < |os| ==> r[j] == ResultFor(os[j], outs[j])
    decreases |os|
  {
    if os == [] then [] else ResultsFor(os[..|os| - 1], outs) + [ResultFor(os[|os| - 1], outs[|os| - 1])]
  }

  /** The record a push leaves behind: synced under the upstream id on
      success, untouched on failure. */
  function PushedRecord(o: PosOrder, outcome: PushOutcome, now: Millis): (r: PosOrder)
    ensures outcome.Pushed? ==>
      r.syncedToWoocommerce && r.woocommerceOrderId == Some(outcome.wcId) && r.orderId == o.orderId && r.items == o.items
    ensures outcome.PushFailed? ==> r == o
  {
    match outcome
    case Pushed(wcId) => PatchOrder(o, SyncedPatch(wcId), now)
    case PushFailed(_) => o
  }

  /** The store after one push: a success rewrites the order's record. */
  function ApplyPush(m: JsMap<string, PosOrder>, o: PosOrder, outcome: PushOutcome, now: Millis): (r: JsMap<string, PosOrder>)
    requires m.Valid()
    ensures r.Valid() && r.keys == m.keys
    ensures forall k :: k in r.entries <==> k in m.entries
    ensures forall k :: k in m.entries && k != o.id ==> r.entries[k] == m.entries[k]
    ensures o.id in m.entries ==> r.entries[o.id] == PushedRecord(m.entries[o.id], outcome, now)
  {
    if outcome.Pushed? && o.id in m.entries then m.Set(o.id, PushedRecord(m.entries[o.id], outcome, now)) else m
  }

  /** The store after the batch push has handled `os` in turn, the push of
      `os[i]` answering `outs[i]`. */
  function AfterPushes(m: JsMap<string, PosOrder>, os: seq<PosOrder>, outs: seq<PushOutcome>,
                       now: Millis): (r: JsMap<string, PosOrder>)
    requires m.Valid() && |os| <= |outs|
    ensures r.Valid() && r.keys == m.keys
    decreases |os|
  {
    if os == [] then m
    else ApplyPush(AfterPushes(m, os[..|os| - 1], outs, now), os[|os| - 1], outs[|os| - 1], now)
  }

  /** Handling one more order applies that order's outcome to the store;
      an order of the original store is still present. */
  lemma AfterPushesStep(m: JsMap<string, PosOrder>, os: seq<PosOrder>, i: nat, outs: seq<PushOutcome>, now: Millis)
    requires m.Valid() && i < |os| <= |outs| && os[i].id in m.entries
    ensures os[i].id in AfterPushes(m, os[..i], outs, now).entries
    ensures AfterPushes(m, os[..i + 1], outs, now) ==
      ApplyPush(AfterPushes(m, os[..i], outs, now), os[i], outs[i], now)
    ensures ResultsFor(os[..i + 1], outs) == ResultsFor(os[..i], outs) + [ResultFor(os[i], outs[i])]
    ensures SyncPayloads(os[..i + 1]) == SyncPayloads(os[..i]) + [SyncPayload(os[i])]
  {
    assert os[..i + 1][..i] == os[..i];
  }

  /** The batch push's answer for the order at position `i`. */
  function ResultFor(o: PosOrder, outcome: PushOutcome): (r: SyncResult)
    ensures r.orderId == o.orderId && (r.success <==> outcome.Pushed?)
    ensures r.success ==> r.woocommerceId == Some(outcome.wcId) && r.error.None?
    ensures !r.success ==> r.woocommerceId.None? && r.error == Some(outcome.message)
  {
    match outcome
    case Pushed(wcId) => SyncResult(o.orderId, true, Some(wcId), None)
    case PushFailed(message) => SyncResult(o.orderId, false, None, Some(message))
  }

  function Ids(os: seq<PosOrder>): (r: seq<string>)
    ensures |r| == |os| && forall i :: 0 <= i < |os| ==> r[i] == os[i].id
  {
    seq(|os|, i requires 0 <= i < |os| => os[i].id)
  }

  /** What the batch push does to each order: an order it handled holds the
      outcome of its own push, every other order is untouched, and no order
      appears or disappears. */
  lemma AfterPushesAt(m: JsMap<string, PosOrder>, os: seq<PosOrder>, outs: seq<PushOutcome>, now: Millis)
    requires m.Valid() && |os| <= |outs| && Distinct(Ids(os))
    ensures var r := AfterPushes(m, os, outs, now);
      && (forall k :: k in r.entries <==> k in m.entries)
      && (forall j :: 0 <= j < |os| && os[j].id in m.entries ==>
            r.entries[os[j].id] == PushedRecord(m.entries[os[j].id], outs[j], now))
      && (forall k :: k in m.entries && k !in Ids(os) ==> r.entries[k] == m.entries[k])
  {
    AfterPushesHandled(m, os, outs, now);
    AfterPushesOthers(m, os, outs, now);
  }

  lemma {:induction false} AfterPushesHandled(m: JsMap<string, PosOrder>, os: seq<PosOrder>, outs: seq<PushOutcome>, now: Millis)
    requires m.Valid() && |os| <= |outs| && Distinct(Ids(os))
    ensures forall j :: 0 <= j < |os| && os[j].id in m.entries ==>
      AfterPushes(m, os, outs, now).entries[os[j].id] == PushedRecord(m.entries[os[j].id], outs[j], now)
    decreases |os|
  {
    if os != [] {
      var n := |os| - 1;
      var init := os[..n];
      assert Ids(init) == Ids(os)[..n];
      AfterPushesHandled(m, init, outs, now);
      AfterPushesOthers(m, init, outs, now);
      var prev := AfterPushes(m, init, outs, now);
      var r := AfterPushes(m, os, outs, now);
      assert r == ApplyPush(prev, os[n], outs[n], now);
      assert os[n].id !in Ids(init) by {
        forall i | 0 <= i < n ensures Ids(init)[i] != os[n].id {
          assert Ids(os)[i] != Ids(os)[n];
        }
      }
      forall j | 0 <= j < |os| && os[j].id in m.entries
        ensures r.entries[os[j].id] == PushedRecord(m.entries[os[j].id], outs[j], now)
      {
        if j < n {
          assert Ids(os)[j] != Ids(os)[n];
          assert os[j] == init[j];
        }
      }
    }
  }

  lemma {:induction false} AfterPushesOthers(m: JsMap<string, PosOrder>, os: seq<PosOrder>, outs: seq<PushOutcome>, now: Millis)
    requires m.Valid() && |os| <= |outs|
    ensures forall k :: k in m.entries && k !in Ids(os) ==> AfterPushes(m, os, outs, now).entries[k] == m.entries[k]
    decreases |os|
  {
    if os != [] {
      var n := |os| - 1;
      var init := os[..n];
      assert Ids(init) == Ids(os)[..n];
      AfterPushesOthers(m, init, outs, now);
      var prev := AfterPushes(m, init, outs, now);
      var r := AfterPushes(m, os, outs, now);
      assert r == ApplyPush(prev, os[n], outs[n], now);
      forall k | k in m.entries && k !in Ids(os) ensures r.entries[k] == m.entries[k] {
        assert k != Ids(os)[n];
        assert k !in Ids(init);
      }
    }
  }

  /** The orders the batch push handles have distinct ids, since they are
      values of the store, each under its own id. */
  lemma UnsyncedIdsDistinct(m: JsMap<string, PosOrder>)
    requires m.Valid() && KeyedBy(m, OrderKey)
    ensures Distinct(Ids(Filter(m.Values(), IsUnsynced)))
  {
    var vs := m.Values();
    assert Distinct(vs) by {
      forall i, j | 0 <= i < j < |vs| ensures vs[i] != vs[j] {
        assert OrderKey(vs[i]) == m.keys[i] && OrderKey(vs[j]) == m.keys[j];
      }
    }
    FilterKeepsDistinct(vs, IsUnsynced);
    ValuesKeyedBy(m, OrderKey);
    var u := Filter(vs, IsUnsynced);
    forall i, j | 0 <= i < j < |u| ensures Ids(u)[i] != Ids(u)[j] {
      assert u[i] in vs && u[j] in vs;
    }
  }

  /** Every order the batch push handles is stored under its own id. */
  lemma UnsyncedAreStored(m: JsMap<string, PosOrder>)
    requires m.Valid() && KeyedBy(m, OrderKey)
    ensures var u := Filter(m.Values(), IsUnsynced);
      forall j :: 0 <= j < |u| ==> u[j].id in m.entries
  {
    var u := Filter(m.Values(), IsUnsynced);
    ValuesKeyedBy(m, OrderKey);
    forall j | 0 <= j < |u| ensures u[j].id in m.entries {
      assert u[j] in u;
      assert OrderKey(u[j]) == u[j].id;
    }
  }

  lemma IdsMembership(os: seq<PosOrder>, o: PosOrder)
    ensures o in os ==> o.id in Ids(os)
  {
    if o in os {
      var j :| 0 <= j < |os| && os[j] == o;
      assert Ids(os)[j] == o.id;
    }
  }

  /** After the batch push an order it handled is still unsynced exactly
      when its push failed, so a second run retries those orders. */
  lemma BatchLeavesFailuresUnsynced(m: JsMap<string, PosOrder>, outs: seq<PushOutcome>, now: Millis)
    requires m.Valid() && KeyedBy(m, OrderKey)
    requires |Filter(m.Values(), IsUnsynced)| <= |outs|
    ensures var u := Filter(m.Values(), IsUnsynced);
      var r := AfterPushes(m, u, outs, now);
      forall j :: 0 <= j < |u| ==> u[j].id in r.entries && (!r.entries[u[j].id].syncedToWoocommerce <==> outs[j].PushFailed?)
  {
    var u := Filter(m.Values(), IsUnsynced);
    var r := AfterPushes(m, u, outs, now);
    UnsyncedIdsDistinct(m);
    AfterPushesAt(m, u, outs, now);
    ValuesKeyedBy(m, OrderKey);
    forall j | 0 <= j < |u|
      ensures u[j].id in r.entries && (!r.entries[u[j].id].syncedToWoocommerce <==> outs[j].PushFailed?)
    {
      assert u[j] in u;
      assert OrderKey(u[j]) == u[j].id;
      assert m.entries[u[j].id] == u[j] && IsUnsynced(u[j]);
      assert r.entries[u[j].id] == PushedRecord(u[j], outs[j], now);
    }
  }

  /** Every order the batch push did not handle was synced before it and
      stays synced. */
  lemma BatchKeepsOthersSynced(m: JsMap<string, PosOrder>, outs: seq<PushOutcome>, now: Millis)
    requires m.Valid() && KeyedBy(m, OrderKey)
    requires |Filter(m.Values(), IsUnsynced)| <= |outs|
    ensures var u := Filter(m.Values(), IsUnsynced);
      var r := AfterPushes(m, u, outs, now);
      forall k :: k in m.entries && k !in Ids(u) ==> k in r.entries && r.entries[k].syncedToWoocommerce
  {
    var u := Filter(m.Values(), IsUnsynced);
    UnsyncedIdsDistinct(m);
    AfterPushesAt(m, u, outs, now);
    ValuesKeyedBy(m, OrderKey);
    forall k | k in m.entries && k !in Ids(u) ensures m.entries[k].syncedToWoocommerce {
      var o := m.entries[k];
      assert o in m.Values();
      assert IsUnsynced(o) ==> o in u;
      IdsMembership(u, o);
    }
  }

  /** One turn of the batch push: send the order (`sent`); on success mark
      it synced under the upstream id, which cannot fail for a stored order. */
  method PushOne(st: MemStorage, o: PosOrder, outcome: PushOutcome, now: Millis)
    returns (res: SyncResult, sent: WcOrderPayload)
    requires st.Valid() && o.id in st.orders.entries
    modifies st`orders
    ensures st.Valid()
    ensures sent == SyncPayload(o)
    ensures res == ResultFor(o, outcome)
    ensures st.orders == ApplyPush(old(st.orders), o, outcome, now)
  {
    sent := SyncPayload(o);
    var success := false;
    var wcId: Option<int> := None;
    var error: Option<string> := None;
    if outcome.Pushed? {
      var updated := st.UpdatePosOrder(o.id, SyncedPatch(outcome.wcId), now);
      success := updated.Ok?;
      wcId := if success then Some(outcome.wcId) else None;
      error := if success then None else Some("Order not found");
    } else {
      error := Some(outcome.message);
    }
    res := SyncResult(o.orderId, success, wcId, error);
  }

  /** The loop of the batch push: each order in turn, one result each. */
  method PushAll(st: MemStorage, unsynced: seq<PosOrder>, outs: seq<PushOutcome>, now: Millis)
    returns (results: seq<SyncResult>, sent: seq<WcOrderPayload>)
    requires st.Valid() && |unsynced| <= |outs|
    requires forall j :: 0 <= j < |unsynced| ==> unsynced[j].id in st.orders.entries
    modifies st`orders
    ensures st.Valid()
    ensures results == ResultsFor(unsynced, outs)
    ensures sent == SyncPayloads(unsynced)
    ensures st.orders == AfterPushes(old(st.orders), unsynced, outs, now)
  {
    results := [];
    sent := [];
    for i := 0 to |unsynced|
      invariant st.Valid()
      invariant results == ResultsFor(unsynced[..i], outs)
      invariant sent == SyncPayloads(unsynced[..i])
      invariant st.orders == AfterPushes(old(st.orders), unsynced[..i], outs, now)
    {
      AfterPushesStep(old(st.orders), unsynced, i, outs, now);
      var res, body := PushOne(st, unsynced[i], outs[i], now);
      results := results + [res];
      sent := sent + [body];
    }
    assert unsynced[..|unsynced|] == unsynced;
  }

  /** The answers of the first `n` pushes. */
  function Outcomes(respond: nat -> PushOutcome, n: nat): (r: seq<PushOutcome>)
    ensures |r| == n && forall i :: 0 <= i < n ==> r[i] == respond(i)
  {
    seq(n, i requires 0 <= i < n => respond(i))
  }

  /** `POST /api/orders/sync`: without settings nothing is pushed; otherwise
      every unsynced order is pushed in turn, each gets one result in that
      order, a failure is recorded and the loop goes on, and only a success
      marks its order synced. */
  method SyncOrders(st: MemStorage, respond: nat -> PushOutcome, now: Millis)
    returns (r: Result<seq<SyncResult>>, sent: seq<WcOrderPayload>)
    requires st.Valid()
    modifies st`orders
    ensures st.Valid()
    ensures old(st.settings.keys) == [] ==>
      r == Err("WooCommerce settings not configured") && sent == [] && st.orders == old(st.orders)
    ensures old(st.settings.keys) != [] ==>
      var unsynced := Filter(old(st.orders.Values()), IsUnsynced);
      && r.Ok? && |r.value| == |unsynced|
      && sent == SyncPayloads(unsynced)
      && (forall i :: 0 <= i < |unsynced| ==> r.value[i] == ResultFor(unsynced[i], respond(i)))
      && st.orders == AfterPushes(old(st.orders), unsynced, Outcomes(respond, |unsynced|), now)
  {
    var unsynced := st.GetUnsyncedOrders();
    var settings := st.GetPosSettings();
    if settings.None? {
      return Err("WooCommerce settings not configured"), [];
    }
    UnsyncedAreStored(st.orders);
    var outs := Outcomes(respond, |unsynced|);
    var results;
    results, sent := PushAll(st, unsynced, outs, now);
    r := Ok(results);
  }

  // Paginated catalog syncs

  /** What the upstream answered to one page request. */
  datatype PageResponse<T> = Page(items: seq<T>) | PageFailed(message: string)

  /** Records asked for per page by the sync loops. */
  const PageSize: nat := 100

  /** The answer to the request for page `p` (counting from 1); the
      platform answers every page past the given ones with an empty page. */
  function PageAt<T>(pages: seq<PageResponse<T>>, p: nat): (r: PageResponse<T>)
    ensures p > |pages| ==> r == Page([])
  {
    if 1 <= p <= |pages| then pages[p - 1] else Page([])
  }

  /** What the sync loop collects when it starts at page `p`: a page's
      records, then the next page's, until an empty or short page; the
      first failure ends the whole sync. */
  function CollectFrom<T>(pages: seq<PageResponse<T>>, p: nat): Result<seq<T>>
    decreases |pages| + 1 - p
  {
    match PageAt(pages, p)
    case PageFailed(message) => Err(message)
    case Page(items) =>
      if |items| == 0 then Ok([])
      else if |items| < PageSize then Ok(items)
      else
        match CollectFrom(pages, p + 1)
        case Ok(rest) => Ok(items + rest)
        case Err(message) => Err(message)
  }

  /** `all` followed by what is still to be collected. */
  function Prepend<T>(all: seq<T>, r: Result<seq<T>>): Result<seq<T>> {
    match r
    case Ok(rest) => Ok(all + rest)
    case Err(message) => Err(message)
  }

  /** The `while (hasMore)` loop of the catalog syncs. */
  method FetchAllPages<T>(pages: seq<PageResponse<T>>) returns (r: Result<seq<T>>)
    ensures r == CollectFrom(pages, 1)
  {
    var all: seq<T> := [];
    var page: nat := 1;
    var hasMore := true;
    assert CollectFrom(pages, 1).Ok? ==> [] + CollectFrom(pages, 1).value == CollectFrom(pages, 1).value;
    while hasMore
      invariant hasMore ==> page <= |pages| + 1
      invariant hasMore ==> CollectFrom(pages, 1) == Prepend(all, CollectFrom(pages, page))
      invariant !hasMore ==> CollectFrom(pages, 1) == Ok(all)
      decreases if hasMore then |pages| + 2 - page else 0
    {
      var response := PageAt(pages, page);
      if response.PageFailed? {
        return Err(response.message);
      }
      var items := response.items;
      ghost var before := all;
      if |items| == 0 {
        assert before + [] == before;
        hasMore := false;
      } else {
        ghost var rest := CollectFrom(pages, page + 1);
        all := all + items;
        page := page + 1;
        if |items| < PageSize {
          hasMore := false;
        } else if rest.Ok? {
          assert (before + items) + rest.value == before + (items + rest.value);
        }
      }
    }
    r := Ok(all);
  }

  /** Every page a full page of `PageSize` records. */
  ghost predicate FullPages<T>(full: seq<seq<T>>) {
    forall i :: 0 <= i < |full| ==> |full[i]| == PageSize
  }

  function AsPages<T>(full: seq<seq<T>>): (r: seq<PageResponse<T>>)
    ensures |r| == |full| && forall i :: 0 <= i < |full| ==> r[i] == Page(full[i])
  {
    seq(|full|, i requires 0 <= i < |full| => Page(full[i]))
  }

  function Flatten<T>(ss: seq<seq<T>>): seq<T> {
    if ss == [] then [] else ss[0] + Flatten(ss[1..])
  }

  /** Moving the first full page into the pages already seen. */
  lemma ShiftFirstPage<T>(before: seq<PageResponse<T>>, full: seq<seq<T>>, stop: PageResponse<T>,
                          after: seq<PageResponse<T>>)
    requires full != []
    ensures var pages := before + AsPages(full) + [stop] + after;
      && pages == (before + [Page(full[0])]) + AsPages(full[1..]) + [stop] + after
      && pages[|before|] == Page(full[0])
  {
    assert AsPages(full) == [Page(full[0])] + AsPages(full[1..]);
  }

  /** Full pages followed by a short one: the sync collects them all, in
      page order, and never looks at what comes after the short page. */
  lemma {:induction false} CollectsUpToShortPage<T>(before: seq<PageResponse<T>>, full: seq<seq<T>>, last: seq<T>,
                                                     after: seq<PageResponse<T>>)
    requires FullPages(full) && |last| < PageSize
    ensures CollectFrom(before + AsPages(full) + [Page(last)] + after, |before| + 1) == Ok(Flatten(full) + last)
    decreases |full|
  {
    var pages := before + AsPages(full) + [Page(last)] + after;
    if full == [] {
      assert pages[|before|] == Page(last);
      assert Flatten(full) + last == last;
    } else {
      var before' := before + [Page(full[0])];
      ShiftFirstPage(before, full, Page(last), after);
      CollectsUpToShortPage(before', full[1..], last, after);
      assert full[0] + (Flatten(full[1..]) + last) == Flatten(full) + last;
    }
  }

  /** A page request that fails before a short page ends the whole sync in failure. */
  lemma {:induction false} FailureEndsSync<T>(before: seq<PageResponse<T>>, full: seq<seq<T>>, message: string,
                                              after: seq<PageResponse<T>>)
    requires FullPages(full)
    ensures CollectFrom(before + AsPages(full) + [PageFailed(message)] + after, |before| + 1) == Err(message)
    decreases |full|
  {
    var pages := before + AsPages(full) + [PageFailed(message)] + after;
    if full == [] {
      assert pages[|before|] == PageFailed(message);
    } else {
      var before' := before + [Page(full[0])];
      ShiftFirstPage(before, full, PageFailed(message), after);
      FailureEndsSync(before', full[1..], message, after);
    }
  }

  /** `POST /api/products/sync`: every published upstream product, fetched
      page by page, replaces the product cache; a failed page leaves the
      cache as it was. The answer is the number of products synced. */
  method SyncProducts(st: MemStorage, pages: seq<PageResponse<WcProduct>>, now: Millis) returns (r: Result<nat>)
    requires st.Valid()
    modifies st`products
    ensures st.Valid()
    ensures old(st.settings.keys) == [] ==>
      r == Err("WooCommerce settings not configured") && st.products == old(st.products)
    ensures old(st.settings.keys) != [] && CollectFrom(pages, 1).Err? ==>
      r == Err("Failed to sync products") && st.products == old(st.products)
    ensures old(st.settings.keys) != [] && CollectFrom(pages, 1).Ok? ==>
      var synced := ToCachedProducts(CollectFrom(pages, 1).value, now);
      r == Ok(|synced|) && st.products == SetEach(EmptyMap(), synced, ProductKey)
  {
    var settings := st.GetPosSettings();
    if settings.None? {
      return Err("WooCommerce settings not configured");
    }
    var fetched := FetchAllPages(pages);
    if fetched.Err? {
      return Err("Failed to sync products");
    }
    var cached := ToCachedProducts(fetched.value, now);
    st.SetCachedProducts(cached);
    r := Ok(|cached|);
  }

  /** `POST /api/customers/sync`: the customer counterpart of `SyncProducts`. */
  method SyncCustomers(st: MemStorage, pages: seq<PageResponse<WcCustomer>>, now: Millis) returns (r: Result<nat>)
    requires st.Valid()
    modifies st`customers
    ensures st.Valid()
    ensures old(st.settings.keys) == [] ==>
      r == Err("WooCommerce settings not configured") && st.customers == old(st.customers)
    ensures old(st.settings.keys) != [] && CollectFrom(pages, 1).Err? ==>
      r == Err("Failed to sync customers") && st.customers == old(st.customers)
    ensures old(st.settings.keys) != [] && CollectFrom(pages, 1).Ok? ==>
      var synced := ToCachedCustomers(CollectFrom(pages, 1).value, now);
      r == Ok(|synced|) && st.customers == SetEach(EmptyMap(), synced, CustomerKey)
  {
    var settings := st.GetPosSettings();
    if settings.None? {
      return Err("WooCommerce settings not configured");
    }
    var fetched := FetchAllPages(pages);
    if fetched.Err? {
      return Err("Failed to sync customers");
    }
    var cached := ToCachedCustomers(fetched.value, now);
    st.SetCachedCustomers(cached);
    r := Ok(|cached|);
  }

  // Listings with the cache-miss fallback

  /** The `per_page` query value after `parseInt`: absent (the route's
      default 20), a number, or NaN. */
  datatype PerPage = Absent | Parsed(n: int) | NotANumber

  /** The limit the listing hands to the cache: `slice(0, NaN)` keeps nothing. */
  function CacheLimit(perPage: PerPage): (n: int)
    ensures perPage.Absent? ==> n == 20
    ensures perPage.NotANumber? ==> n == 0
  {
    match perPage
    case Absent => 20
    case Parsed(n) => n
    case NotANumber => 0
  }

  /** A non-empty search text searches; no text or "" lists. */
  predicate Searching(search: Option<string>) {
    search.Some? && search.value != ""
  }

  /** The listing's answer from the product cache alone. */
  function CachedProductListing(m: JsMap<int, CachedProduct>, search: Option<string>, perPage: PerPage): seq<CachedProduct>
    requires m.Valid()
  {
    if Searching(search) then MatchingProducts(m, search.value) else SliceTo(m.Values(), CacheLimit(perPage))
  }

  /** The listing's answer from the customer cache alone. */
  function CachedCustomerListing(m: JsMap<int, CachedCustomer>, search: Option<string>, perPage: PerPage): seq<CachedCustomer>
    requires m.Valid()
  {
    if Searching(search) then MatchingCustomers(m, search.value) else SliceTo(m.Values(), CacheLimit(perPage))
  }

  /** `GET /api/products`: the cache answers; only when its answer is empty
      and settings exist is upstream asked (`consulted`), and its products
      then replace the cache and are the answer. An upstream failure leaves
      the empty answer and the cache as they were. */
  method ListProducts(st: MemStorage, search: Option<string>, perPage: PerPage,
                      upstream: Result<seq<WcProduct>>, now: Millis) returns (r: seq<CachedProduct>, consulted: bool)
    requires st.Valid()
    modifies st`products
    ensures st.Valid()
    ensures var fromCache := CachedProductListing(old(st.products), search, perPage);
      && (consulted <==> |fromCache| == 0 && st.settings.keys != [])
      && (!consulted ==> r == fromCache && st.products == old(st.products))
    ensures consulted && upstream.Ok? ==>
      r == ToCachedProducts(upstream.value, now) && st.products == SetEach(EmptyMap(), r, ProductKey)
    ensures consulted && upstream.Err? ==> r == [] && st.products == old(st.products)
  {
    if Searching(search) {
      r := st.SearchCachedProducts(search.value);
    } else {
      r := st.GetCachedProducts(Some(CacheLimit(perPage)));
    }
    consulted := false;
    if |r| == 0 {
      var settings := st.GetPosSettings();
      if settings.Some? {
        consulted := true;
        if upstream.Ok? {
          var cached := ToCachedProducts(upstream.value, now);
          st.SetCachedProducts(cached);
          r := cached;
        }
      }
    }
  }

  /** `GET /api/customers`: the customer counterpart of `ListProducts`. */
  method ListCustomers(st: MemStorage, search: Option<string>, perPage: PerPage,
                       upstream: Result<seq<WcCustomer>>, now: Millis) returns (r: seq<CachedCustomer>, consulted: bool)
    requires st.Valid()
    modifies st`customers
    ensures st.Valid()
    ensures var fromCache := CachedCustomerListing(old(st.customers), search, perPage);
      && (consulted <==> |fromCache| == 0 && st.settings.keys != [])
      && (!consulted ==> r == fromCache && st.customers == old(st.customers))
    ensures consulted && upstream.Ok? ==>
      r == ToCachedCustomers(upstream.value, now) && st.customers == SetEach(EmptyMap(), r, CustomerKey)
    ensures consulted && upstream.Err? ==> r == [] && st.customers == old(st.customers)
  {
    if Searching(search) {
      r := st.SearchCachedCustomers(search.value);
    } else {
      r := st.GetCachedCustomers(Some(CacheLimit(perPage)));
    }
    consulted := false;
    if |r| == 0 {
      var settings := st.GetPosSettings();
      if settings.Some? {
        consulted := true;
        if upstream.Ok? {
          var cached := ToCachedCustomers(upstream.value, now);
          st.SetCachedCustomers(cached);
          r := cached;
        }
      }
    }
  }

  // Stock write-back

  /** The cache update after an upstream stock change: quantity, status, time. */
  function StockPatch(w: WcProduct, now: Millis): (p: ProductPatch)
    ensures p.stockQuantity == Some(w.stockQuantity) && p.stockStatus == Some(w.stockStatus)
    ensures p.updatedAt == Some(Some(now))
    ensures p.name.None? && p.sku.None? && p.price.None?
  {
    ProductPatch(None, None, None, Some(w.stockStatus), Some(w.stockQuantity), Some(Some(now)))
  }

  /** `PUT /api/products/:id/stock`: the new quantity is sent upstream
      (`sent`); the cached product, when there is one, takes the stock the
      upstream answered; a failure leaves the cache as it was. */
  method UpdateStock(st: MemStorage, id: int, quantity: int, upstream: Result<WcProduct>, now: Millis)
    returns (r: Result<WcProduct>, sent: Option<int>)
    requires st.Valid()
    modifies st`products
    ensures st.Valid()
    ensures sent.Some? <==> st.settings.keys != []
    ensures sent.Some? ==> sent.value == quantity
    ensures sent.None? ==> r == Err("WooCommerce settings not configured") && st.products == old(st.products)
    ensures sent.Some? && upstream.Err? ==> r == Err("Failed to update product stock") && st.products == old(st.products)
    ensures sent.Some? && upstream.Ok? ==> (r == upstream &&
      st.products == if id in old(st.products.entries)
        then old(st.products).Set(id, PatchProduct(old(st.products.entries[id]), StockPatch(upstream.value, now)))
        else old(st.products))
  {
    var settings := st.GetPosSettings();
    if settings.None? {
      return Err("WooCommerce settings not configured"), None;
    }
    sent := Some(quantity);
    if upstream.Err? {
      return Err("Failed to update product stock"), sent;
    }
    st.UpdateCachedProduct(id, StockPatch(upstream.value, now));
    r := upstream;
  }
}
