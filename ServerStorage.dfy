/** The server's in-memory store (`MemStorage`): settings, the local order
    ledger, the product and customer caches keyed by upstream id, sessions
    keyed by token, and the stock-adjustment log. Each table is a JavaScript
    `Map`, whose insertion order shows in `find`, `filter` and `slice`. Fresh
    ids and the clock are parameters. */
module ServerStorage {
  import opened Wrappers
  import opened Text
  import opened Collections
  import opened Schema

  const DefaultOrderLimit: int := 50
  const DefaultCacheLimit: int := 100
  const DefaultAdjustmentLimit: int := 50

  // Records as the store builds them

  /** `createPosOrder`'s record: the input spread over a fresh id, never
      synced and without an upstream id whatever the input was. Unlike the
      table, the store applies no column defaults. */
  function NewOrder(o: InsertPosOrder, id: string, now: Millis): (r: PosOrder)
    ensures OrderInput(r) == o
    ensures r.id == id && !r.syncedToWoocommerce && r.woocommerceOrderId.None?
    ensures r.createdAt == Some(now) && r.updatedAt == Some(now)
  {
    PosOrder(id, o.orderId, None, o.customerId, o.customerName, o.customerEmail,
      o.status, o.items, o.subtotal, o.discount, o.tax, o.total,
      o.paymentMethod, o.amountPaid, o.change, o.cashierId, o.cashierName,
      o.receiptPrinted, false, Some(now), Some(now))
  }

  /** Where the table would fill in "pending", "0" and "0", the store keeps
      the missing status, discount and tax missing. */
  lemma NewOrderIgnoresColumnDefaults(o: InsertPosOrder, id: string, now: Millis)
    requires o.status.None? && o.discount.None? && o.tax.None?
    ensures NewOrder(o, id, now).status.None? && OrderRow(o, id, now).status == Some(DefaultOrderStatus)
    ensures NewOrder(o, id, now).discount.None? && OrderRow(o, id, now).discount == Some(DefaultOrderDiscount)
    ensures NewOrder(o, id, now).tax.None? && OrderRow(o, id, now).tax == Some(DefaultOrderTax)
  {
  }

  /** `{ ...existing, ...updates, updatedAt: now }` for an order: the given
      fields are overwritten, `updatedAt` is stamped, all else is kept. */
  function PatchOrder(o: PosOrder, p: OrderPatch, now: Millis): (r: PosOrder)
    ensures r.(woocommerceOrderId := o.woocommerceOrderId, syncedToWoocommerce := o.syncedToWoocommerce,
               status := o.status, receiptPrinted := o.receiptPrinted, updatedAt := o.updatedAt) == o
    ensures r.woocommerceOrderId == p.woocommerceOrderId.GetOr(o.woocommerceOrderId)
    ensures r.syncedToWoocommerce == p.syncedToWoocommerce.GetOr(o.syncedToWoocommerce)
    ensures r.status == p.status.GetOr(o.status)
    ensures r.receiptPrinted == p.receiptPrinted.GetOr(o.receiptPrinted)
    ensures r.updatedAt == Some(now)
  {
    o.(woocommerceOrderId := p.woocommerceOrderId.GetOr(o.woocommerceOrderId),
       syncedToWoocommerce := p.syncedToWoocommerce.GetOr(o.syncedToWoocommerce),
       status := p.status.GetOr(o.status),
       receiptPrinted := p.receiptPrinted.GetOr(o.receiptPrinted),
       updatedAt := Some(now))
  }

  /** `{ ...existing, ...updates }` for a cached product. */
  function PatchProduct(c: CachedProduct, p: ProductPatch): (r: CachedProduct)
    ensures r.(name := c.name, sku := c.sku, price := c.price, stockStatus := c.stockStatus,
               stockQuantity := c.stockQuantity, updatedAt := c.updatedAt) == c
    ensures r.name == p.name.GetOr(c.name) && r.sku == p.sku.GetOr(c.sku)
    ensures r.price == p.price.GetOr(c.price) && r.stockStatus == p.stockStatus.GetOr(c.stockStatus)
    ensures r.stockQuantity == p.stockQuantity.GetOr(c.stockQuantity)
    ensures r.updatedAt == p.updatedAt.GetOr(c.updatedAt)
  {
    c.(name := p.name.GetOr(c.name), sku := p.sku.GetOr(c.sku), price := p.price.GetOr(c.price),
       stockStatus := p.stockStatus.GetOr(c.stockStatus),
       stockQuantity := p.stockQuantity.GetOr(c.stockQuantity),
       updatedAt := p.updatedAt.GetOr(c.updatedAt))
  }

  /** `createPosSettings`'s record: the input spread over a fresh id, both
      timestamps set to now. */
  function NewSettings(s: InsertPosSettings, id: string, now: Millis): (r: PosSettings)
    ensures SettingsInput(r) == s
    ensures r.id == id && r.createdAt == Some(now) && r.updatedAt == Some(now)
  {
    PosSettings(id, s.storeUrl, s.consumerKey, s.consumerSecret, s.cacheDuration, s.autoRefresh,
      s.permissions, Some(now), Some(now))
  }

  /** `{ ...existing, ...updates, updatedAt: now }` for the settings. */
  function PatchSettings(s: PosSettings, p: SettingsPatch, now: Millis): (r: PosSettings)
    ensures r.(storeUrl := s.storeUrl, consumerKey := s.consumerKey, consumerSecret := s.consumerSecret,
               cacheDuration := s.cacheDuration, autoRefresh := s.autoRefresh,
               permissions := s.permissions, updatedAt := s.updatedAt) == s
    ensures r.storeUrl == p.storeUrl.GetOr(s.storeUrl)
    ensures r.consumerKey == p.consumerKey.GetOr(s.consumerKey)
    ensures r.consumerSecret == p.consumerSecret.GetOr(s.consumerSecret)
    ensures r.cacheDuration == p.cacheDuration.GetOr(s.cacheDuration)
    ensures r.autoRefresh == p.autoRefresh.GetOr(s.autoRefresh)
    ensures r.permissions == p.permissions.GetOr(s.permissions)
    ensures r.updatedAt == Some(now)
  {
    s.(storeUrl := p.storeUrl.GetOr(s.storeUrl), consumerKey := p.consumerKey.GetOr(s.consumerKey),
       consumerSecret := p.consumerSecret.GetOr(s.consumerSecret),
       cacheDuration := p.cacheDuration.GetOr(s.cacheDuration),
       autoRefresh := p.autoRefresh.GetOr(s.autoRefresh),
       permissions := p.permissions.GetOr(s.permissions), updatedAt := Some(now))
  }

  /** `createUserSession`'s record: a missing or empty role becomes "cashier". */
  function NewSession(s: InsertUserSession, id: string, now: Millis): (r: UserSession)
    ensures SessionInput(r) == s.(role := Some(r.role))
    ensures r.id == id && r.createdAt == Some(now)
    ensures r.role != ""
    ensures s.role.Some? && s.role.value != "" ==> r.role == s.role.value
    ensures s.role.None? || s.role.value == "" ==> r.role == DefaultSessionRole
  {
    UserSession(id, s.userId, s.username, s.displayName, s.email,
      if s.role.Some? && s.role.value != "" then s.role.value else DefaultSessionRole,
      s.permissions, s.sessionToken, s.expiresAt, Some(now))
  }

  /** `{ ...existing, ...updates }` for a session. */
  function PatchSession(s: UserSession, p: SessionPatch): (r: UserSession)
    ensures r.(role := s.role, sessionToken := s.sessionToken, expiresAt := s.expiresAt) == s
    ensures r.sessionToken == p.sessionToken.GetOr(s.sessionToken)
    ensures r.expiresAt == p.expiresAt.GetOr(s.expiresAt) && r.role == p.role.GetOr(s.role)
  {
    s.(role := p.role.GetOr(s.role), sessionToken := p.sessionToken.GetOr(s.sessionToken),
       expiresAt := p.expiresAt.GetOr(s.expiresAt))
  }

  /** `recordStockAdjustment`'s record: stored as given, with no check that
      `quantityAfter` is `quantityBefore + quantityChange`. */
  function NewAdjustment(a: InsertStockAdjustment, id: string, now: Millis): (r: StockAdjustment)
    ensures AdjustmentInput(r) == a
    ensures r.id == id && r.createdAt == Some(now)
  {
    StockAdjustment(id, a.productId, a.sessionId, a.username, a.adjustmentType,
      a.quantityChange, a.quantityBefore, a.quantityAfter, a.notes, Some(now))
  }

  // Keys, sort keys and filters

  function SettingsKey(s: PosSettings): string { s.id }
  function OrderKey(o: PosOrder): string { o.id }
  function ProductKey(p: CachedProduct): int { p.id }
  function CustomerKey(c: CachedCustomer): int { c.id }
  function SessionKey(s: UserSession): string { s.sessionToken }
  function AdjustmentKey(a: StockAdjustment): string { a.id }

  /** The adjustments recorded for one product, in log order. */
  function OfProduct(vs: seq<StockAdjustment>, productId: int): (r: seq<StockAdjustment>)
    ensures |r| <= |vs|
    ensures forall a :: a in r <==> a in vs && a.productId == productId
  {
    if vs == [] then []
    else (if vs[0].productId == productId then [vs[0]] else []) + OfProduct(vs[1..], productId)
  }

  /** The sort key of the order and adjustment queries: a missing date counts as 0. */
  function OrderTime(o: PosOrder): int { o.createdAt.GetOr(0) }
  function AdjustmentTime(a: StockAdjustment): int { a.createdAt.GetOr(0) }

  /** The cached products matching `query`, lower-cased, in insertion order. */
  function MatchingProducts(m: JsMap<int, CachedProduct>, query: string): (r: seq<CachedProduct>)
    requires m.Valid()
    ensures forall p :: p in r <==> p in m.Values() && ProductMatches(p, ToLower(query))
    ensures IsSubsequence(r, m.Values())
  {
    var term := ToLower(query);
    var keep := (p: CachedProduct) => ProductMatches(p, term);
    FilterIsSubsequence(m.Values(), keep);
    Filter(m.Values(), keep)
  }

  /** The cached customers matching `query`, lower-cased, in insertion order. */
  function MatchingCustomers(m: JsMap<int, CachedCustomer>, query: string): (r: seq<CachedCustomer>)
    requires m.Valid()
    ensures forall c :: c in r <==> c in m.Values() && CustomerMatches(c, ToLower(query))
    ensures IsSubsequence(r, m.Values())
  {
    var term := ToLower(query);
    var keep := (c: CachedCustomer) => CustomerMatches(c, term);
    FilterIsSubsequence(m.Values(), keep);
    Filter(m.Values(), keep)
  }

  predicate IsUnsynced(o: PosOrder) { !o.syncedToWoocommerce }

  /** `searchCachedProducts`' test: the lower-cased name, or a non-empty
      lower-cased SKU, contains the lower-cased query `term`. */
  predicate ProductMatches(p: CachedProduct, term: string) {
    Contains(ToLower(p.name), term)
    || (p.sku.Some? && p.sku.value != "" && Contains(ToLower(p.sku.value), term))
  }

  predicate OptionalFieldMatches(f: Option<string>, term: string) {
    f.Some? && f.value != "" && Contains(ToLower(f.value), term)
  }

  /** `searchCachedCustomers`' test over e-mail, first, last and display name. */
  predicate CustomerMatches(c: CachedCustomer, term: string) {
    Contains(ToLower(c.email), term)
    || OptionalFieldMatches(c.firstName, term)
    || OptionalFieldMatches(c.lastName, term)
    || OptionalFieldMatches(c.displayName, term)
  }

  /** The first order (in insertion order) with the given `orderId`. */
  function FirstWithOrderId(os: seq<PosOrder>, orderId: string): (r: Option<PosOrder>)
    ensures r.Some? ==> r.value.orderId == orderId
    ensures r.Some? ==> exists k ::
        0 <= k < |os| && os[k] == r.value
        && forall j :: 0 <= j < k ==> os[j].orderId != orderId
    ensures r.None? ==> forall o :: o in os ==> o.orderId != orderId
  {
    Find(os, (o: PosOrder) => o.orderId == orderId)
  }

  /** The first product (in insertion order) whose SKU is exactly `sku`. */
  function FirstWithSku(ps: seq<CachedProduct>, sku: string): (r: Option<CachedProduct>)
    ensures r.Some? ==> r.value.sku == Some(sku)
    ensures r.Some? ==> exists k ::
        0 <= k < |ps| && ps[k] == r.value
        && forall j :: 0 <= j < k ==> ps[j].sku != Some(sku)
    ensures r.None? ==> forall p :: p in ps ==> p.sku != Some(sku)
  {
    Find(ps, (p: CachedProduct) => p.sku == Some(sku))
  }

  /** The first session (in insertion order) with the given record id. */
  function FirstWithSessionId(ss: seq<UserSession>, id: string): (r: Option<UserSession>)
    ensures r.Some? ==> r.value.id == id
    ensures r.Some? ==> exists k ::
        0 <= k < |ss| && ss[k] == r.value
        && forall j :: 0 <= j < k ==> ss[j].id != id
    ensures r.None? ==> forall s :: s in ss ==> s.id != id
  {
    Find(ss, (s: UserSession) => s.id == id)
  }

  class MemStorage {
    var settings: JsMap<string, PosSettings>
    var orders: JsMap<string, PosOrder>
    var products: JsMap<int, CachedProduct>
    var customers: JsMap<int, CachedCustomer>
    var sessions: JsMap<string, UserSession>
    var stockAdjustments: JsMap<string, StockAdjustment>

    /** Every table is a well-formed map, and every record sits under its
        own key: its id, its upstream id, or its session token. */
    ghost predicate Valid()
      reads this
    {
      && settings.Valid() && orders.Valid() && products.Valid()
      && customers.Valid() && sessions.Valid() && stockAdjustments.Valid()
      && KeyedBy(settings, SettingsKey) && KeyedBy(orders, OrderKey)
      && KeyedBy(products, ProductKey) && KeyedBy(customers, CustomerKey)
      && KeyedBy(sessions, SessionKey) && KeyedBy(stockAdjustments, AdjustmentKey)
    }

    constructor ()
      ensures Valid()
      ensures settings.keys == [] && orders.keys == [] && products.keys == []
      ensures customers.keys == [] && sessions.keys == [] && stockAdjustments.keys == []
    {
      settings := EmptyMap();
      orders := EmptyMap();
      products := EmptyMap();
      customers := EmptyMap();
      sessions := EmptyMap();
      stockAdjustments := EmptyMap();
    }

    // Settings

    /** `getPosSettings`: the first settings record ever stored, if any. */
    method GetPosSettings() returns (r: Option<PosSettings>)
      requires Valid()
      ensures settings.keys == [] <==> r.None?
      ensures r.Some? ==> r.value == settings.entries[settings.keys[0]]
    {
      var vs := settings.Values();
      r := if vs == [] then None else Some(vs[0]);
    }

    method CreatePosSettings(s: InsertPosSettings, id: string, now: Millis) returns (r: PosSettings)
      requires Valid()
      modifies this`settings
      ensures Valid()
      ensures r == NewSettings(s, id, now) && settings == old(settings).Set(id, r)
    {
      r := NewSettings(s, id, now);
      settings := settings.Set(id, r);
    }

    /** `updatePosSettings`: "Settings not found" for an unknown id. */
    method UpdatePosSettings(id: string, p: SettingsPatch, now: Millis) returns (r: Result<PosSettings>)
      requires Valid()
      modifies this`settings
      ensures Valid()
      ensures id !in old(settings.entries) ==> r == Err("Settings not found") && settings == old(settings)
      ensures id in old(settings.entries) ==>
        && r == Ok(PatchSettings(old(settings.entries[id]), p, now))
        && settings == old(settings).Set(id, r.value)
    {
      var existing := settings.Get(id);
      if existing.None? {
        return Err("Settings not found");
      }
      var updated := PatchSettings(existing.value, p, now);
      settings := settings.Set(id, updated);
      r := Ok(updated);
    }

    // Orders

    /** `createPosOrder`: stores the new record under the fresh id. */
    method CreatePosOrder(o: InsertPosOrder, id: string, now: Millis) returns (r: PosOrder)
      requires Valid()
      modifies this`orders
      ensures Valid()
      ensures r == NewOrder(o, id, now) && orders == old(orders).Set(id, r)
    {
      r := NewOrder(o, id, now);
      orders := orders.Set(id, r);
    }

    method GetPosOrder(id: string) returns (r: Option<PosOrder>)
      requires Valid()
      ensures r.Some? <==> id in orders.entries
      ensures r.Some? ==> r.value == orders.entries[id] && r.value.id == id
    {
      r := orders.Get(id);
    }

    /** `getPosOrderByOrderId`: the first stored order with that `orderId`. */
    method GetPosOrderByOrderId(orderId: string) returns (r: Option<PosOrder>)
      requires Valid()
      ensures r.Some? ==> (r.value.orderId == orderId && r.value.id in orders.entries
        && orders.entries[r.value.id] == r.value)
      ensures r.Some? ==> exists k ::
          0 <= k < |orders.keys| && orders.entries[orders.keys[k]] == r.value
          && forall j :: 0 <= j < k ==> orders.entries[orders.keys[j]].orderId != orderId
      ensures r.None? <==> forall k :: k in orders.entries ==> orders.entries[k].orderId != orderId
    {
      var vs := orders.Values();
      r := FirstWithOrderId(vs, orderId);
      ValuesKeyedBy(orders, OrderKey);
    }

    /** `getAllPosOrders(limit = 50)`: newest first, at most `limit`. */
    method GetAllPosOrders(limit: Option<int>) returns (r: seq<PosOrder>)
      requires Valid()
      ensures var n := limit.GetOr(DefaultOrderLimit);
        0 <= n ==> |r| == if n < |orders.keys| then n else |orders.keys|
      ensures SortedDesc(r, OrderTime)
      ensures forall o :: o in r ==> o.id in orders.entries && orders.entries[o.id] == o
      ensures r == SliceTo(SortNewestFirst(orders.Values(), OrderTime), limit.GetOr(DefaultOrderLimit))
    {
      var vs := orders.Values();
      var sorted := SortNewestFirst(vs, OrderTime);
      r := SliceTo(sorted, limit.GetOr(DefaultOrderLimit));
      SortedSliceFacts(vs, sorted, r);
      ValuesKeyedBy(orders, OrderKey);
    }

    /** `updatePosOrder`: "Order not found" for an unknown id; otherwise only
        the patched fields of that one order change. */
    method UpdatePosOrder(id: string, p: OrderPatch, now: Millis) returns (r: Result<PosOrder>)
      requires Valid()
      modifies this`orders
      ensures Valid()
      ensures id !in old(orders.entries) ==> r == Err("Order not found") && orders == old(orders)
      ensures id in old(orders.entries) ==>
        && r == Ok(PatchOrder(old(orders.entries[id]), p, now))
        && orders == old(orders).Set(id, r.value)
    {
      var existing := orders.Get(id);
      if existing.None? {
        return Err("Order not found");
      }
      var updated := PatchOrder(existing.value, p, now);
      orders := orders.Set(id, updated);
      r := Ok(updated);
    }

    /** `getUnsyncedOrders`: exactly the stored orders not yet synced, in
        insertion order. */
    method GetUnsyncedOrders() returns (r: seq<PosOrder>)
      requires Valid()
      ensures forall o :: o in r <==> o.id in orders.entries && orders.entries[o.id] == o && !o.syncedToWoocommerce
      ensures IsSubsequence(r, orders.Values())
      ensures r == Filter(orders.Values(), IsUnsynced)
    {
      var vs := orders.Values();
      r := Filter(vs, IsUnsynced);
      FilterIsSubsequence(vs, IsUnsynced);
      ValuesKeyedBy(orders, OrderKey);
    }

    // Cached products

    /** `getCachedProducts(limit = 100)`: the first `limit` in insertion order. */
    method GetCachedProducts(limit: Option<int>) returns (r: seq<CachedProduct>)
      requires Valid()
      ensures var n := limit.GetOr(DefaultCacheLimit);
        0 <= n ==> |r| == if n < |products.keys| then n else |products.keys|
      ensures |r| <= |products.keys| && r == products.Values()[..|r|]
      ensures r == SliceTo(products.Values(), limit.GetOr(DefaultCacheLimit))
    {
      r := SliceTo(products.Values(), limit.GetOr(DefaultCacheLimit));
    }

    method GetCachedProduct(id: int) returns (r: Option<CachedProduct>)
      requires Valid()
      ensures r.Some? <==> id in products.entries
      ensures r.Some? ==> r.value == products.entries[id] && r.value.id == id
    {
      r := products.Get(id);
    }

    /** `setCachedProducts`: clear, then set each product under its id. */
    method SetCachedProducts(ps: seq<CachedProduct>)
      requires Valid()
      modifies this`products
      ensures Valid()
      ensures products == SetEach(EmptyMap(), ps, ProductKey)
    {
      products := EmptyMap();
      for i := 0 to |ps|
        invariant products == SetEach(EmptyMap(), ps[..i], ProductKey)
      {
        assert ps[..i + 1][..i] == ps[..i];
        products := products.Set(ps[i].id, ps[i]);
      }
      assert ps[..|ps|] == ps;
      SetEachKeyedBy(ps, ProductKey);
    }

    /** `searchCachedProducts`: exactly the cached products matching the
        lower-cased query, in insertion order. */
    method SearchCachedProducts(query: string) returns (r: seq<CachedProduct>)
      requires Valid()
      ensures forall p :: p in r <==> (p.id in products.entries && products.entries[p.id] == p
        && ProductMatches(p, ToLower(query)))
      ensures IsSubsequence(r, products.Values())
      ensures r == MatchingProducts(products, query)
    {
      r := MatchingProducts(products, query);
      ValuesKeyedBy(products, ProductKey);
    }

    /** `getCachedProductBySku`: the first cached product whose SKU equals `sku`. */
    method GetCachedProductBySku(sku: string) returns (r: Option<CachedProduct>)
      requires Valid()
      ensures r.Some? ==> (r.value.sku == Some(sku) && r.value.id in products.entries
        && products.entries[r.value.id] == r.value)
      ensures r.Some? ==> exists k ::
          0 <= k < |products.keys| && products.entries[products.keys[k]] == r.value
          && forall j :: 0 <= j < k ==> products.entries[products.keys[j]].sku != Some(sku)
      ensures r.None? <==> forall k :: k in products.entries ==> products.entries[k].sku != Some(sku)
    {
      r := FirstWithSku(products.Values(), sku);
      ValuesKeyedBy(products, ProductKey);
    }

    method SetCachedProduct(p: CachedProduct)
      requires Valid()
      modifies this`products
      ensures Valid()
      ensures products == old(products).Set(p.id, p)
    {
      products := products.Set(p.id, p);
    }

    /** `updateCachedProduct`: nothing happens for an unknown id; otherwise the
        updates are merged into that one product, which keeps its place. */
    method UpdateCachedProduct(id: int, p: ProductPatch)
      requires Valid()
      modifies this`products
      ensures Valid()
      ensures id !in old(products.entries) ==> products == old(products)
      ensures id in old(products.entries) ==>
        products == old(products).Set(id, PatchProduct(old(products.entries[id]), p))
    {
      var existing := products.Get(id);
      if existing.Some? {
        products := products.Set(id, PatchProduct(existing.value, p));
      }
    }

    method DeleteCachedProduct(id: int)
      requires Valid()
      modifies this`products
      ensures Valid()
      ensures products == old(products).Delete(id)
    {
      products := products.Delete(id);
    }

    // Cached customers

    method GetCachedCustomers(limit: Option<int>) returns (r: seq<CachedCustomer>)
      requires Valid()
      ensures var n := limit.GetOr(DefaultCacheLimit);
        0 <= n ==> |r| == if n < |customers.keys| then n else |customers.keys|
      ensures |r| <= |customers.keys| && r == customers.Values()[..|r|]
      ensures r == SliceTo(customers.Values(), limit.GetOr(DefaultCacheLimit))
    {
      r := SliceTo(customers.Values(), limit.GetOr(DefaultCacheLimit));
    }

    method GetCachedCustomer(id: int) returns (r: Option<CachedCustomer>)
      requires Valid()
      ensures r.Some? <==> id in customers.entries
      ensures r.Some? ==> r.value == customers.entries[id] && r.value.id == id
    {
      r := customers.Get(id);
    }

    /** `setCachedCustomers`: clear, then set each customer under its id. */
    method SetCachedCustomers(cs: seq<CachedCustomer>)
      requires Valid()
      modifies this`customers
      ensures Valid()
      ensures customers == SetEach(EmptyMap(), cs, CustomerKey)
    {
      customers := EmptyMap();
      for i := 0 to |cs|
        invariant customers == SetEach(EmptyMap(), cs[..i], CustomerKey)
      {
        assert cs[..i + 1][..i] == cs[..i];
        customers := customers.Set(cs[i].id, cs[i]);
      }
      assert cs[..|cs|] == cs;
      SetEachKeyedBy(cs, CustomerKey);
    }

    /** `searchCachedCustomers`: exactly the cached customers matching the
        lower-cased query, in insertion order. */
    method SearchCachedCustomers(query: string) returns (r: seq<CachedCustomer>)
      requires Valid()
      ensures forall c :: c in r <==> (c.id in customers.entries && customers.entries[c.id] == c
        && CustomerMatches(c, ToLower(query)))
      ensures IsSubsequence(r, customers.Values())
      ensures r == MatchingCustomers(customers, query)
    {
      r := MatchingCustomers(customers, query);
      ValuesKeyedBy(customers, CustomerKey);
    }

    method SetCachedCustomer(c: CachedCustomer)
      requires Valid()
      modifies this`customers
      ensures Valid()
      ensures customers == old(customers).Set(c.id, c)
    {
      customers := customers.Set(c.id, c);
    }

    // Sessions

    /** `createUserSession`: stored under its token. */
    method CreateUserSession(s: InsertUserSession, id: string, now: Millis) returns (r: UserSession)
      requires Valid()
      modifies this`sessions
      ensures Valid()
      ensures r == NewSession(s, id, now) && sessions == old(sessions).Set(s.sessionToken, r)
    {
      r := NewSession(s, id, now);
      sessions := sessions.Set(r.sessionToken, r);
    }

    /** `getUserSession`: a session read after its expiry is deleted and not
        returned; before that it is returned unchanged. */
    method GetUserSession(token: string, now: Millis) returns (r: Option<UserSession>)
      requires Valid()
      modifies this`sessions
      ensures Valid()
      ensures token !in old(sessions.entries) ==> r.None? && sessions == old(sessions)
      ensures token in old(sessions.entries) && now > old(sessions.entries[token]).expiresAt ==>
        r.None? && sessions == old(sessions).Delete(token)
      ensures token in old(sessions.entries) && now <= old(sessions.entries[token]).expiresAt ==>
        r == Some(old(sessions.entries[token])) && sessions == old(sessions)
    {
      r := sessions.Get(token);
      if r.Some? && now > r.value.expiresAt {
        sessions := sessions.Delete(token);
        r := None;
      }
    }

    /** `updateUserSession`: "Session not found" when no session has that
        record id; otherwise the first such session is re-stored under its
        (possibly new) token. */
    method UpdateUserSession(id: string, p: SessionPatch) returns (r: Result<UserSession>)
      requires Valid()
      modifies this`sessions
      ensures Valid()
      ensures FirstWithSessionId(old(sessions.Values()), id).None? ==>
        r == Err("Session not found") && sessions == old(sessions)
      ensures FirstWithSessionId(old(sessions.Values()), id).Some? ==>
        var existing := FirstWithSessionId(old(sessions.Values()), id).value;
        && r == Ok(PatchSession(existing, p))
        && sessions == old(sessions).Delete(existing.sessionToken).Set(r.value.sessionToken, r.value)
    {
      var table := sessions;
      var found := FirstWithSessionId(table.Values(), id);
      if found.None? {
        return Err("Session not found");
      }
      var updated := PatchSession(found.value, p);
      var rest := table.Delete(found.value.sessionToken);
      DeleteKeyedBy(table, found.value.sessionToken, SessionKey);
      SetKeyedBy(rest, updated, SessionKey);
      sessions := rest.Set(updated.sessionToken, updated);
      r := Ok(updated);
    }

    method DeleteUserSession(token: string)
      requires Valid()
      modifies this`sessions
      ensures Valid()
      ensures sessions == old(sessions).Delete(token)
    {
      sessions := sessions.Delete(token);
    }

    // Stock adjustments

    /** `recordStockAdjustment`: appended under a fresh id. */
    method RecordStockAdjustment(a: InsertStockAdjustment, id: string, now: Millis) returns (r: StockAdjustment)
      requires Valid()
      modifies this`stockAdjustments
      ensures Valid()
      ensures r == NewAdjustment(a, id, now) && stockAdjustments == old(stockAdjustments).Set(id, r)
    {
      r := NewAdjustment(a, id, now);
      stockAdjustments := stockAdjustments.Set(id, r);
    }

    /** `getStockAdjustmentsByProduct(productId, limit = 50)`: that product's
        adjustments only, newest first, at most `limit`; with a limit at
        least the log's size, all of them. */
    method GetStockAdjustmentsByProduct(productId: int, limit: Option<int>) returns (r: seq<StockAdjustment>)
      requires Valid()
      ensures var n := limit.GetOr(DefaultAdjustmentLimit); 0 <= n ==> |r| <= n
      ensures SortedDesc(r, AdjustmentTime)
      ensures forall a :: a in r ==> (a.productId == productId && a.id in stockAdjustments.entries
        && stockAdjustments.entries[a.id] == a)
      ensures limit.GetOr(DefaultAdjustmentLimit) >= |stockAdjustments.keys| ==>
        forall k :: k in stockAdjustments.entries && stockAdjustments.entries[k].productId == productId ==>
          stockAdjustments.entries[k] in r
      ensures r == SliceTo(SortNewestFirst(OfProduct(stockAdjustments.Values(), productId), AdjustmentTime),
                           limit.GetOr(DefaultAdjustmentLimit))
    {
      var vs := stockAdjustments.Values();
      var mine := OfProduct(vs, productId);
      var sorted := SortNewestFirst(mine, AdjustmentTime);
      r := SliceTo(sorted, limit.GetOr(DefaultAdjustmentLimit));
      SortedSliceFacts(mine, sorted, r);
      ValuesKeyedBy(stockAdjustments, AdjustmentKey);
      if limit.GetOr(DefaultAdjustmentLimit) >= |stockAdjustments.keys| {
        assert r == sorted;
      }
    }
  }

  /** What `sort` then `slice` keeps: elements of the input, all of them when
      nothing is cut. */
  lemma SortedSliceFacts<T>(s: seq<T>, sorted: seq<T>, r: seq<T>)
    requires multiset(sorted) == multiset(s)
    requires |r| <= |sorted| && r == sorted[..|r|]
    ensures |sorted| == |s|
    ensures forall x :: x in r ==> x in s
    ensures r == sorted ==> forall x :: x in s ==> x in r
  {
    assert |multiset(sorted)| == |multiset(s)|;
    forall x | x in r ensures x in s {
      assert x in multiset(sorted);
    }
    if r == sorted {
      forall x | x in s ensures x in r {
        assert x in multiset(s);
      }
    }
  }
}
