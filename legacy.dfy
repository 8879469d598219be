/**
 * The older event dispatcher `WC_SGTM_Webhook` (includes/class-wc-sgtm-webhook.php): six
 * WooCommerce hooks build an event array, POST it without waiting for the reply to the endpoint
 * option (with a bearer token when one is set), and log each attempt into the
 * `wc_sgtm_webhook_logs` table as a success unless the transport itself failed.
 */
module Legacy {
  import opened Wrappers
  import opened Php
  import opened Orders
  import opened Delivery

  /** One `items` entry. */
  datatype ItemData = ItemData(id: int, name: string, quantity: int, price: real, total: real)

  datatype CustomerData = CustomerData(id: int, email: string, firstName: string, lastName: string)

  /** The `order` entry of an order event. */
  datatype OrderData = OrderData(
    id: int,
    number: string,
    status: string,
    currency: string,
    total: real,
    subtotal: real,
    shippingTotal: real,
    taxTotal: real,
    discountTotal: real,
    paymentMethod: string,
    paymentMethodTitle: string,
    customer: CustomerData,
    items: seq<ItemData>)

  /** The `product` entry of an add-to-cart event. */
  datatype ProductData = ProductData(id: int, name: string, price: real, quantity: int, variationId: int)

  /**
   * The event array; an absent key is None. The handlers always set `event`; the logger does
   * not rely on it.
   */
  datatype EventData = EventData(
    event: Option<string>,
    timestamp: int,
    clientId: string,
    userId: Option<int>,
    order: Option<OrderData>,
    statusFrom: Option<string>,
    statusTo: Option<string>,
    product: Option<ProductData>,
    cartItemKey: Option<string>)

  /** One `items` entry: the item's product id, name, quantity and total, and its product's price or 0 without one. */
  function ItemEntry(item: LineItem): (r: ItemData)
    ensures r.id == item.productId && r.name == item.name && r.quantity == item.quantity && r.total == item.total
    ensures item.product.Some? ==> r.price == item.product.value.price
    ensures item.product.None? ==> r.price == 0.0
  {
    ItemData(item.productId, item.name, item.quantity, if item.product.Some? then item.product.value.price else 0.0, item.total)
  }

  /** The `items` list: one entry per line item, in order, deleted products included. */
  function ItemEntries(items: seq<LineItem>): (r: seq<ItemData>)
    ensures |r| == |items|
    ensures forall i :: 0 <= i < |items| ==> r[i] == ItemEntry(items[i])
  {
    seq(|items|, i requires 0 <= i < |items| => ItemEntry(items[i]))
  }

  /** The `order` entry `prepare_order_data` builds. */
  function OrderEntry(order: Order): OrderData {
    OrderData(order.id, order.orderNumber, order.status, order.currency, order.total, order.subtotal,
      order.shippingTotal, order.totalTax, order.discountTotal, order.paymentMethod, order.paymentMethodTitle,
      CustomerData(order.customerId, order.billing.email, order.billing.firstName, order.billing.lastName),
      ItemEntries(order.items))
  }

  /** `prepare_order_data($order, $event_type)` at time `now` with client id `clientId`. */
  function OrderEvent(order: Order, event: string, clientId: string, now: int): (r: EventData)
    ensures r.event == Some(event) && r.timestamp == now && r.clientId == clientId
    ensures r.order == Some(OrderEntry(order)) && |r.order.value.items| == |order.items|
    ensures r.statusFrom.None? && r.statusTo.None? && r.product.None? && r.cartItemKey.None? && r.userId.None?
  {
    EventData(Some(event), now, clientId, None, Some(OrderEntry(order)), None, None, None, None)
  }

  /** The hook that fired, with the arguments the handler uses. */
  datatype Hook =
      /** `woocommerce_new_order`: the order object may be passed along or looked up. */
    | NewOrder(orderId: int, given: Option<Order>)
    | StatusChanged(orderId: int, statusFrom: string, statusTo: string, order: Order)
    | PaymentComplete(orderId: int)
    | AddToCart(cartItemKey: string, productId: int, quantity: int, variationId: int)
    | RemoveFromCart(cartItemKey: string)
    | CheckoutUpdate(orderId: int)

  /**
   * What the handlers read besides their arguments: the orders and products by id, the client
   * id (`_ga` cookie or session id), the current user, `time()` and the site's UTC offset.
   */
  datatype Ctx = Ctx(orders: OrderStore, products: map<int, Product>, clientId: string, userId: int, now: int, tzOffset: int)

  /**
   * The event a hook sends, or None when its handler returns early: the new-order, payment and
   * checkout handlers need the order to exist, the add-to-cart handler the product. The
   * status-change event is the order event with the two statuses added.
   */
  function HookEvent(h: Hook, ctx: Ctx): (r: Option<EventData>)
    ensures r.None? <==>
      || (h.NewOrder? && h.given.None? && h.orderId !in ctx.orders)
      || (h.PaymentComplete? && h.orderId !in ctx.orders)
      || (h.CheckoutUpdate? && h.orderId !in ctx.orders)
      || (h.AddToCart? && h.productId !in ctx.products)
    ensures h.StatusChanged? ==> r == Some(OrderEvent(h.order, "order_status_changed", ctx.clientId, ctx.now)
      .(statusFrom := Some(h.statusFrom), statusTo := Some(h.statusTo)))
    ensures r.Some? && (h.NewOrder? || h.PaymentComplete? || h.CheckoutUpdate?) ==>
      r.value.order.Some? && r.value.statusFrom.None?
    ensures r.Some? && h.AddToCart? ==>
      var p := ctx.products[h.productId];
      r.value.product == Some(ProductData(h.productId, p.name, p.price, h.quantity, h.variationId))
      && r.value.cartItemKey == Some(h.cartItemKey) && r.value.order.None?
    ensures r.Some? && h.RemoveFromCart? ==> r.value.cartItemKey == Some(h.cartItemKey) && r.value.order.None?
    ensures r.Some? ==> r.value.event.Some? && r.value.timestamp == ctx.now && r.value.clientId == ctx.clientId
  {
    match h
    case NewOrder(id, given) =>
      var order := if given.Some? then given else if id in ctx.orders then Some(ctx.orders[id]) else None;
      if order.None? then None else Some(OrderEvent(order.value, "new_order", ctx.clientId, ctx.now))
    case StatusChanged(_, from, to, order) =>
      Some(OrderEvent(order, "order_status_changed", ctx.clientId, ctx.now).(statusFrom := Some(from), statusTo := Some(to)))
    case PaymentComplete(id) =>
      if id !in ctx.orders then None else Some(OrderEvent(ctx.orders[id], "payment_complete", ctx.clientId, ctx.now))
    case AddToCart(key, pid, qty, variation) =>
      if pid !in ctx.products then None
      else
        var p := ctx.products[pid];
        Some(EventData(Some("add_to_cart"), ctx.now, ctx.clientId, Some(ctx.userId), None, None, None,
          Some(ProductData(pid, p.name, p.price, qty, variation)), Some(key)))
    case RemoveFromCart(key) =>
      Some(EventData(Some("remove_from_cart"), ctx.now, ctx.clientId, Some(ctx.userId), None, None, None, None, Some(key)))
    case CheckoutUpdate(id) =>
      if id !in ctx.orders then None else Some(OrderEvent(ctx.orders[id], "checkout_update", ctx.clientId, ctx.now))
  }

  /** The request headers: the JSON content type, and the bearer token exactly when the key is not empty. */
  function Headers(authKey: string): (h: map<string, string>)
    ensures "Content-Type" in h && h["Content-Type"] == "application/json"
    ensures "Authorization" in h <==> !IsEmptyString(authKey)
    ensures "Authorization" in h ==> h["Authorization"] == "Bearer " + authKey
    ensures |h| <= 2
  {
    var base := map["Content-Type" := "application/json"];
    if IsEmptyString(authKey) then base else base["Authorization" := "Bearer " + authKey]
  }

  /** The POST: non-blocking, 45 s timeout, the event as its body. */
  datatype LegacyRequest = LegacyRequest(url: string, headers: map<string, string>, timeout: int, blocking: bool, body: EventData)

  /** A row of `wc_sgtm_webhook_logs`; the `%d`/`%f` columns are None when stored as NULL. */
  datatype LogRow = LogRow(eventType: string, orderId: Option<int>, orderTotal: Option<real>, status: string, dateCreated: int)

  /**
   * `log_webhook_event($data, $status)`: the event type, 'unknown' when the array has none;
   * the order's id and total, null when the array has no order; stamped with the site-local time.
   */
  function LogEntry(data: EventData, status: string, at: int): (r: LogRow)
    ensures r.status == status && r.dateCreated == at
    ensures data.event.None? ==> r.eventType == "unknown"
    ensures data.event.Some? ==> r.eventType == data.event.value
    ensures r.orderId.Some? <==> data.order.Some?
    ensures r.orderTotal.Some? <==> data.order.Some?
    ensures data.order.Some? ==> r.orderId == Some(data.order.value.id) && r.orderTotal == Some(data.order.value.total)
  {
    LogRow(data.event.GetOr("unknown"),
      if data.order.Some? then Some(data.order.value.id) else None,
      if data.order.Some? then Some(data.order.value.total) else None,
      status, at)
  }

  /** What one `send_webhook` did: the POST it made, its return value and the row it logged. */
  datatype Sent = Sent(request: Option<LegacyRequest>, ok: bool, logged: Option<LogRow>)

  /**
   * `send_webhook($data)` with the transport's answer `reply`: nothing at all with an empty
   * endpoint; otherwise one POST, and a 'success' row and true unless the transport failed,
   * whose 'error' row comes with false.
   */
  function SendSpec(endpoint: string, authKey: string, data: EventData, reply: HttpResult, at: int): (r: Sent)
    ensures r.request.None? <==> IsEmptyString(endpoint)
    ensures r.request.None? ==> !r.ok && r.logged.None?
    ensures r.request.Some? ==>
      && r.request.value == LegacyRequest(endpoint, Headers(authKey), 45, false, data)
      && (r.ok <==> reply.Http?)
      && r.logged == Some(LogEntry(data, if r.ok then "success" else "error", at))
  {
    if IsEmptyString(endpoint) then Sent(None, false, None)
    else
      var request := LegacyRequest(endpoint, Headers(authKey), 45, false, data);
      if reply.ConnErr? then Sent(Some(request), false, Some(LogEntry(data, "error", at)))
      else Sent(Some(request), true, Some(LogEntry(data, "success", at)))
  }

  /** The status code and body of a reply are never looked at: any two replies act alike. */
  lemma SendIgnoresReply(endpoint: string, authKey: string, data: EventData, c1: PhpInt, b1: string, c2: PhpInt, b2: string, at: int)
    ensures SendSpec(endpoint, authKey, data, Http(c1, b1), at) == SendSpec(endpoint, authKey, data, Http(c2, b2), at)
    ensures !IsEmptyString(endpoint) ==> SendSpec(endpoint, authKey, data, Http(500, b1), at).ok
  {
  }

  /**
   * The rows a call appends to the log table: none when the table does not exist, since the
   * insert then fails without a word.
   */
  function LoggedRows(s: Sent, tablePresent: bool): seq<LogRow> {
    if tablePresent && s.logged.Some? then [s.logged.value] else []
  }

  /**
   * The dispatcher: its two settings, read once when it is built, and the log table
   * `wc_sgtm_webhook_logs` it writes, which no code of the plugin creates: `tablePresent` says
   * whether the site has it.
   */
  class LegacyWebhook {
    const endpoint: string
    const authKey: string
    const tablePresent: bool
    var logRows: seq<LogRow>

    /** `load_settings`: the endpoint and auth key options, '' when unset. */
    constructor (options: map<string, string>, tablePresent: bool, logRows: seq<LogRow>)
      ensures endpoint == (if "wc_sgtm_webhook_endpoint" in options then options["wc_sgtm_webhook_endpoint"] else "")
      ensures authKey == (if "wc_sgtm_webhook_auth_key" in options then options["wc_sgtm_webhook_auth_key"] else "")
      ensures this.tablePresent == tablePresent
      ensures this.logRows == (if tablePresent then logRows else [])
    {
      endpoint := if "wc_sgtm_webhook_endpoint" in options then options["wc_sgtm_webhook_endpoint"] else "";
      authKey := if "wc_sgtm_webhook_auth_key" in options then options["wc_sgtm_webhook_auth_key"] else "";
      this.tablePresent := tablePresent;
      this.logRows := if tablePresent then logRows else [];
    }

    /** The `items` loop of `prepare_order_data`. */
    static method PrepareItems(items: seq<LineItem>) returns (entries: seq<ItemData>)
      ensures entries == ItemEntries(items)
    {
      entries := [];
      var i := 0;
      while i < |items|
        invariant 0 <= i <= |items|
        invariant entries == ItemEntries(items[..i])
      {
        assert ItemEntries(items[..i + 1]) == entries + [ItemEntry(items[i])];
        entries := entries + [ItemEntry(items[i])];
        i := i + 1;
      }
      assert items[..i] == items;
    }

    /** `prepare_order_data($order, $event_type)`. */
    static method PrepareOrderData(order: Order, event: string, clientId: string, now: int) returns (data: EventData)
      ensures data == OrderEvent(order, event, clientId, now)
    {
      var items := PrepareItems(order.items);
      var customer := CustomerData(order.customerId, order.billing.email, order.billing.firstName, order.billing.lastName);
      var entry := OrderData(order.id, order.orderNumber, order.status, order.currency, order.total, order.subtotal,
        order.shippingTotal, order.totalTax, order.discountTotal, order.paymentMethod, order.paymentMethodTitle,
        customer, items);
      data := EventData(Some(event), now, clientId, None, Some(entry), None, None, None, None);
    }

    /** `send_webhook($data)`: the log table, when it exists, gets the row of the attempt, if one was made. */
    method SendWebhook(data: EventData, reply: HttpResult, at: int) returns (request: Option<LegacyRequest>, ok: bool)
      modifies this
      ensures var s := SendSpec(endpoint, authKey, data, reply, at);
        request == s.request && ok == s.ok && logRows == old(logRows) + LoggedRows(s, tablePresent)
    {
      if IsEmptyString(endpoint) {
        return None, false;
      }
      request := Some(LegacyRequest(endpoint, Headers(authKey), 45, false, data));
      ok := !reply.ConnErr?;
      if tablePresent {
        logRows := logRows + [LogEntry(data, if ok then "success" else "error", at)];
      }
    }

    /** A hook firing: its handler builds the event, if it gets that far, and sends it. */
    method Handle(h: Hook, ctx: Ctx, reply: HttpResult) returns (request: Option<LegacyRequest>)
      modifies this
      ensures var e := HookEvent(h, ctx);
        && (e.None? ==> request.None? && logRows == old(logRows))
        && (e.Some? ==>
             var s := SendSpec(endpoint, authKey, e.value, reply, ctx.now + ctx.tzOffset);
             request == s.request && logRows == old(logRows) + LoggedRows(s, tablePresent))
    {
      var data: EventData;
      match h {
        case NewOrder(id, given) =>
          var order := if given.Some? then given else if id in ctx.orders then Some(ctx.orders[id]) else None;
          if order.None? {
            return None;
          }
          data := PrepareOrderData(order.value, "new_order", ctx.clientId, ctx.now);
        case StatusChanged(_, from, to, order) =>
          data := PrepareOrderData(order, "order_status_changed", ctx.clientId, ctx.now);
          data := data.(statusFrom := Some(from), statusTo := Some(to));
        case PaymentComplete(id) =>
          if id !in ctx.orders {
            return None;
          }
          data := PrepareOrderData(ctx.orders[id], "payment_complete", ctx.clientId, ctx.now);
        case AddToCart(key, pid, qty, variation) =>
          if pid !in ctx.products {
            return None;
          }
          var p := ctx.products[pid];
          data := EventData(Some("add_to_cart"), ctx.now, ctx.clientId, Some(ctx.userId), None, None, None,
            Some(ProductData(pid, p.name, p.price, qty, variation)), Some(key));
        case RemoveFromCart(key) =>
          data := EventData(Some("remove_from_cart"), ctx.now, ctx.clientId, Some(ctx.userId), None, None, None, None, Some(key));
        case CheckoutUpdate(id) =>
          if id !in ctx.orders {
            return None;
          }
          data := PrepareOrderData(ctx.orders[id], "checkout_update", ctx.clientId, ctx.now);
      }
      var ok;
      request, ok := SendWebhook(data, reply, ctx.now + ctx.tzOffset);
    }
  }
}
