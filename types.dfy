/** Records shared by the storefront client, and the shape of an awaited network step. */
module Types {

  datatype Option<+T> = None | Some(value: T)

  /** `x || fallback` for an optional string: a missing or empty value gives the fallback. */
  function OrElse(x: Option<string>, fallback: string): (r: string)
    ensures x.Some? && x.value != "" ==> r == x.value
    ensures x.None? || x.value == "" ==> r == fallback
  {
    match x
    case Some(v) => if v != "" then v else fallback
    case None => fallback
  }

  /** What a `throw` carries: an `Error` object with its `message`, or some other value. */
  datatype Thrown = Error(message: string) | NonError

  /**
   * How one awaited network step settles. `fetch` rejects only on transport failure
   * (and `json()` on an unreadable body); an HTTP error status still resolves, with
   * `ok` false and whatever body the server sent.
   */
  datatype Outcome<+T> = Threw(cause: Thrown) | Resolved(ok: bool, body: T)

  /**
   * The catalogue record. Prices are integers in minor units; `discountPrice` is
   * the nullable `discount_price`.
   */
  datatype Product = Product(
    id: int,
    name: string,
    description: string,
    price: int,
    discountPercentage: Option<int>,
    discountPrice: Option<int>,
    sku: string,
    quantityInStock: int,
    inStock: bool,
    imagesUrls: seq<string>,
    createdAt: string)

  /** The signed-in user as the session keeps it. */
  datatype User = User(id: int, email: string, firstName: Option<string>, lastName: Option<string>)
}
