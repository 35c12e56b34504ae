/**
 * The rows of the hosted database that the order logic reads and writes:
 * `order`, `order_item`, `product` and `profile`. Only the columns the
 * modelled code touches or carries along are kept. Prices and balances are
 * integers (cents), so all sums are exact.
 */
module Rows {
  import opened Wrappers

  /** A row of the `product` table. */
  datatype Product = Product(
    id: int,
    title: string,
    category: int,
    price: int,
    isOutOfStock: bool)

  /** A row of the `order_item` table, joined with its product. */
  datatype OrderItem = OrderItem(
    id: int,
    order: int,
    product: Product,
    quantity: int,
    status: Option<string>)

  /** A row of the `order` table. */
  datatype OrderRow = OrderRow(
    id: int,
    createdAt: string,
    description: Option<string>,
    refundedAmount: Option<int>,
    slug: string,
    status: string,
    totalPrice: int,
    user: string)

  /** A row of the `profile` table (the table is looked up by its `user_id` column). */
  datatype Profile = Profile(
    id: int,
    firstName: Option<string>,
    walletBalance: Option<int>)
}
