/** Value types shared by the card session, the cart pages and the dispensing screen. */
module Common {

  datatype Option<T> = None | Some(value: T)

  /** A card snapshot as the reader publishes it; `credit` is in minor currency units. */
  datatype Card = Card(userId: string, userName: string, credit: int)

  /** A catalogue product; `quantity` is the number of items in stock. */
  datatype Product = Product(id: int, name: string, price: int, quantity: int)

  /**
   * A cart line: the product's fields, the chosen `quantity` and the `stock`
   * (the product's quantity when the line was created).
   */
  datatype CartLine = CartLine(id: int, name: string, price: int, quantity: int, stock: int)

  /**
   * A line of the cart the order endpoint confirms. An `id` of 0 stands for a
   * falsy id and a `quantity` of 0 for a missing one; `failed` is the
   * backend's verdict for the line.
   */
  datatype DispenseLine = DispenseLine(id: int, name: string, quantity: int, failed: bool)

  /** No two lines of the cart share a product id. */
  predicate UniqueIds(cart: seq<CartLine>)
  {
    forall i, j :: 0 <= i < j < |cart| ==> cart[i].id != cart[j].id
  }

  /** Some line of the cart carries this product id. */
  predicate HasId(cart: seq<CartLine>, id: int)
  {
    exists i :: 0 <= i < |cart| && cart[i].id == id
  }
}
