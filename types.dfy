/** The records the front end exchanges with its backend and keeps in its stores.

  Field names follow the JavaScript objects. Money is an integer number of minor
  units, quantities are integers, timestamps are integer milliseconds since the
  epoch. A field that a record may lack is an `Option`.
*/
module Types {
  import opened Common

  /** A catalog entry as the products endpoint returns it. */
  datatype Product = Product(
    id: int,
    name: string,
    sku: string,
    category: string,
    barcode: string,
    price: int,
    cost: int,
    quantity: int,
    reorder_point: int,
    icon: Option<string>)

  /** One line of a recorded sale. */
  datatype SaleItem = SaleItem(
    id: int,
    product_id: int,
    product_name: string,
    price: Option<int>,
    product_price: Option<int>,
    product_cost: Option<int>,
    quantity: Option<int>,
    sale_id: int)

  /** A recorded sale; `id` is assigned by the backend, `items` may be absent. */
  datatype Sale = Sale(
    id: Option<int>,
    cashier_id: int,
    items: Option<seq<SaleItem>>,
    payment_method: string,
    timestamp: int,
    total: Option<int>)

  /** A user account; `role` is "admin", "manager", "cashier" or anything the backend sends. */
  datatype User = User(
    id: int,
    username: string,
    email: string,
    role: Option<string>,
    loginTime: Option<string>,
    logoutTime: Option<string>)

  /** A line of the cart as the POS screen reads it. */
  datatype CartLine = CartLine(
    id: int,
    name: string,
    price: int,
    costPrice: Option<int>,
    cartQuantity: int)

  /** The cart store's state as the POS screen reads it; how `total` is kept is not modelled. */
  datatype Cart = Cart(items: seq<CartLine>, total: int)

  /** The role of a possibly absent user: `user?.role`. */
  function RoleOf(user: Option<User>): Option<string> {
    if user.Some? then user.value.role else None
  }
}
