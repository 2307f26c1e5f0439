/** The record shapes of the point-of-sale tables: settings, local orders,
    cached upstream products and customers, user sessions and the
    stock-adjustment log. A nullable column is an `Option`; a decimal column
    is the text the driver stores; a timestamp is milliseconds since the
    epoch. The insert shapes leave out exactly the columns their insert
    schemas omit, so a caller cannot supply them. */
module Schema {
  import opened Wrappers

  /** Milliseconds since the epoch, as `Date.prototype.getTime` returns. */
  type Millis = int

  datatype StorePermissions = StorePermissions(products: bool, orders: bool, customers: bool, inventory: bool)

  datatype PosSettings = PosSettings(
    id: string,
    storeUrl: string,
    consumerKey: string,
    consumerSecret: string,
    cacheDuration: Option<int>,
    autoRefresh: Option<bool>,
    permissions: Option<StorePermissions>,
    createdAt: Option<Millis>,
    updatedAt: Option<Millis>)

  /** The settings insert schema: no `id`, `createdAt` or `updatedAt`. */
  datatype InsertPosSettings = InsertPosSettings(
    storeUrl: string,
    consumerKey: string,
    consumerSecret: string,
    cacheDuration: Option<int>,
    autoRefresh: Option<bool>,
    permissions: Option<StorePermissions>)

  /** `Partial<InsertPosSettings>`: `None` is a key the update leaves out. */
  datatype SettingsPatch = SettingsPatch(
    storeUrl: Option<string>,
    consumerKey: Option<string>,
    consumerSecret: Option<string>,
    cacheDuration: Option<Option<int>>,
    autoRefresh: Option<Option<bool>>,
    permissions: Option<Option<StorePermissions>>)

  /** One line of an order: a copy of the cart line, prices in cents. */
  datatype OrderItem = OrderItem(id: int, name: string, sku: string, price: int, quantity: int, subtotal: int)

  datatype PosOrder = PosOrder(
    id: string,
    orderId: string,
    woocommerceOrderId: Option<int>,
    customerId: Option<int>,
    customerName: Option<string>,
    customerEmail: Option<string>,
    status: Option<string>,
    items: Option<seq<OrderItem>>,
    subtotal: string,
    discount: Option<string>,
    tax: Option<string>,
    total: string,
    paymentMethod: string,
    amountPaid: Option<string>,
    change: Option<string>,
    cashierId: string,
    cashierName: string,
    receiptPrinted: Option<bool>,
    syncedToWoocommerce: bool,
    createdAt: Option<Millis>,
    updatedAt: Option<Millis>)

  /** The order insert schema: no `id`, `woocommerceOrderId`,
      `syncedToWoocommerce`, `createdAt` or `updatedAt`. Columns with a
      default (`status`, `discount`, `tax`, `receiptPrinted`) are optional. */
  datatype InsertPosOrder = InsertPosOrder(
    orderId: string,
    customerId: Option<int>,
    customerName: Option<string>,
    customerEmail: Option<string>,
    status: Option<string>,
    items: Option<seq<OrderItem>>,
    subtotal: string,
    discount: Option<string>,
    tax: Option<string>,
    total: string,
    paymentMethod: string,
    amountPaid: Option<string>,
    change: Option<string>,
    cashierId: string,
    cashierName: string,
    receiptPrinted: Option<bool>)

  /** The `Partial<PosOrder>` updates the order routes pass: `None` is a key
      the update leaves out, `Some(v)` overwrites. */
  datatype OrderPatch = OrderPatch(
    woocommerceOrderId: Option<Option<int>>,
    syncedToWoocommerce: Option<bool>,
    status: Option<Option<string>>,
    receiptPrinted: Option<Option<bool>>)

  datatype Category = Category(id: int, name: string, slug: string)
  datatype Image = Image(id: int, src: string, name: string, alt: string)
  datatype Dimensions = Dimensions(length: string, width: string, height: string)

  /** A cached upstream product; its key is the upstream product id. */
  datatype CachedProduct = CachedProduct(
    id: int,
    name: string,
    slug: Option<string>,
    sku: Option<string>,
    price: Option<string>,
    regularPrice: Option<string>,
    salePrice: Option<string>,
    onSale: Option<bool>,
    status: string,
    stockStatus: Option<string>,
    stockQuantity: Option<int>,
    manageStock: Option<bool>,
    categories: Option<seq<Category>>,
    images: Option<seq<Image>>,
    weight: Option<string>,
    dimensions: Option<Dimensions>,
    shortDescription: Option<string>,
    description: Option<string>,
    lastSyncAt: Option<Millis>,
    createdAt: Option<Millis>,
    updatedAt: Option<Millis>)

  /** The `Partial<CachedProduct>` updates: `None` leaves a column as it is.
      The product id is not among them, so a product keeps its key. */
  datatype ProductPatch = ProductPatch(
    name: Option<string>,
    sku: Option<Option<string>>,
    price: Option<Option<string>>,
    stockStatus: Option<Option<string>>,
    stockQuantity: Option<Option<int>>,
    updatedAt: Option<Option<Millis>>)

  datatype Address = Address(
    firstName: string, lastName: string, company: string, address1: string, address2: string,
    city: string, state: string, postcode: string, country: string,
    email: Option<string>, phone: Option<string>)

  /** A cached upstream customer; its key is the upstream customer id. */
  datatype CachedCustomer = CachedCustomer(
    id: int,
    email: string,
    firstName: Option<string>,
    lastName: Option<string>,
    displayName: Option<string>,
    username: Option<string>,
    billing: Option<Address>,
    shipping: Option<Address>,
    avatarUrl: Option<string>,
    dateCreated: Option<Millis>,
    ordersCount: Option<int>,
    totalSpent: Option<string>,
    lastSyncAt: Option<Millis>,
    createdAt: Option<Millis>,
    updatedAt: Option<Millis>)

  datatype SessionPermissions = SessionPermissions(
    canViewReports: bool, canManageProducts: bool, canManageCustomers: bool,
    canProcessRefunds: bool, canAccessSettings: bool)

  datatype UserSession = UserSession(
    id: string,
    userId: string,
    username: string,
    displayName: string,
    email: string,
    role: string,
    permissions: Option<SessionPermissions>,
    sessionToken: string,
    expiresAt: Millis,
    createdAt: Option<Millis>)

  /** The session insert schema: no `id` or `createdAt`; `role` is optional. */
  datatype InsertUserSession = InsertUserSession(
    userId: string,
    username: string,
    displayName: string,
    email: string,
    role: Option<string>,
    permissions: Option<SessionPermissions>,
    sessionToken: string,
    expiresAt: Millis)

  /** The `Partial<UserSession>` updates: `None` leaves a column as it is. */
  datatype SessionPatch = SessionPatch(
    role: Option<string>,
    sessionToken: Option<string>,
    expiresAt: Option<Millis>)

  datatype StockAdjustment = StockAdjustment(
    id: string,
    productId: int,
    sessionId: Option<string>,
    username: string,
    adjustmentType: string,
    quantityChange: int,
    quantityBefore: int,
    quantityAfter: int,
    notes: Option<string>,
    createdAt: Option<Millis>)

  /** The stock-adjustment insert schema: no `id` or `createdAt`. */
  datatype InsertStockAdjustment = InsertStockAdjustment(
    productId: int,
    sessionId: Option<string>,
    username: string,
    adjustmentType: string,
    quantityChange: int,
    quantityBefore: int,
    quantityAfter: int,
    notes: Option<string>)

  // Column defaults the tables declare. The in-memory store does not apply
  // them (see `ServerStorage.NewOrderIgnoresColumnDefaults`).

  const DefaultOrderStatus: string := "pending"
  const DefaultOrderDiscount: string := "0"
  const DefaultOrderTax: string := "0"
  const DefaultSessionRole: string := "cashier"

  /** The row the `pos_orders` table itself would hold for an insert: the
      declared defaults fill the optional columns and the sync state starts
      unsynced. */
  function OrderRow(o: InsertPosOrder, id: string, now: Millis): (r: PosOrder)
    ensures !r.syncedToWoocommerce && r.woocommerceOrderId.None?
    ensures r.status == Some(if o.status.Some? then o.status.value else DefaultOrderStatus)
    ensures r.discount.Some? && r.tax.Some? && r.receiptPrinted.Some?
    ensures o.discount.None? ==> r.discount == Some(DefaultOrderDiscount)
    ensures o.tax.None? ==> r.tax == Some(DefaultOrderTax)
  {
    PosOrder(id, o.orderId, None, o.customerId, o.customerName, o.customerEmail,
      Some(o.status.GetOr(DefaultOrderStatus)), o.items, o.subtotal,
      Some(o.discount.GetOr(DefaultOrderDiscount)), Some(o.tax.GetOr(DefaultOrderTax)), o.total,
      o.paymentMethod, o.amountPaid, o.change, o.cashierId, o.cashierName,
      Some(o.receiptPrinted.GetOr(false)), false, Some(now), Some(now))
  }

  // What a stored record keeps of its insert: the columns the insert schema
  // lets a caller supply, read back off the record.

  function OrderInput(o: PosOrder): InsertPosOrder {
    InsertPosOrder(o.orderId, o.customerId, o.customerName, o.customerEmail, o.status, o.items,
      o.subtotal, o.discount, o.tax, o.total, o.paymentMethod, o.amountPaid, o.change,
      o.cashierId, o.cashierName, o.receiptPrinted)
  }

  function SettingsInput(s: PosSettings): InsertPosSettings {
    InsertPosSettings(s.storeUrl, s.consumerKey, s.consumerSecret, s.cacheDuration, s.autoRefresh,
      s.permissions)
  }

  function SessionInput(s: UserSession): InsertUserSession {
    InsertUserSession(s.userId, s.username, s.displayName, s.email, Some(s.role), s.permissions,
      s.sessionToken, s.expiresAt)
  }

  function AdjustmentInput(a: StockAdjustment): InsertStockAdjustment {
    InsertStockAdjustment(a.productId, a.sessionId, a.username, a.adjustmentType, a.quantityChange,
      a.quantityBefore, a.quantityAfter, a.notes)
  }
}
