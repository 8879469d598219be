/**
 * The WooCommerce entities the pipelines read: an order with its billing address, its line
 * items and their products, and the WordPress user who placed it. Only the getters the plugin
 * calls are represented; money amounts are kept as opaque reals.
 */
module Orders {
  import opened Wrappers
  import opened Php

  /** A product as `WC_Product` exposes it to the plugin. */
  datatype Product = Product(
    id: PhpInt,
    name: string,
    sku: string,
    price: real,
    /** `get_attribute($name)`: the attribute's value, '' when the product has none. */
    attributes: map<string, string>,
    /** `wp_get_post_terms($id, $taxonomy, ['fields' => 'names'])`: term names per taxonomy. */
    terms: map<string, seq<string>>)
  {
    function Attribute(name: string): string {
      if name in attributes then attributes[name] else ""
    }

    function Terms(taxonomy: string): seq<string> {
      if taxonomy in terms then terms[taxonomy] else []
    }
  }

  /** A line item; `product` is None when `get_product()` finds no product (it was deleted). */
  datatype LineItem = LineItem(
    product: Option<Product>,
    productId: int,
    name: string,
    quantity: int,
    /** `$order->get_item_subtotal($item, false, false)`. */
    unitSubtotal: real,
    total: real)

  datatype Billing = Billing(
    email: string,
    phone: string,
    firstName: string,
    lastName: string,
    city: string,
    state: string,
    postcode: string,
    country: string,
    company: string)

  /** The WordPress user `get_user_by('ID', ...)` finds. */
  datatype WpUser = WpUser(login: string, registered: string)

  /** `get_date_created()`, when the order has one: as a timestamp and as the ISO 8601 text `format('c')` gives. */
  datatype DateCreated = DateCreated(timestamp: int, iso: string)

  datatype Order = Order(
    id: PhpInt,
    status: string,
    /** `is_paid()`: the status is one of WooCommerce's paid statuses. */
    paid: bool,
    currency: string,
    total: real,
    subtotal: real,
    totalTax: real,
    shippingTotal: real,
    discountTotal: real,
    itemCount: int,
    orderKey: string,
    couponCodes: seq<string>,
    /** `get_date_created()`: None when the order has no creation date and the getter returns null. */
    created: Option<DateCreated>,
    checkoutUrl: string,
    paymentMethod: string,
    paymentMethodTitle: string,
    billing: Billing,
    /** `get_user_id()`: 0 for a guest checkout. */
    userId: int,
    /** The account of `userId`, when one exists. */
    user: Option<WpUser>,
    items: seq<LineItem>,
    orderNumber: string,
    customerId: int)

  /** `wc_get_order($id)`: orders by id; an id absent from the map is not found. */
  type OrderStore = map<int, Order>
}
