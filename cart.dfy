/**
 * The cart provider: the local view of the signed-in user's cart, the set of
 * product ids with a mutation in flight, and the derived totals.
 */
module Cart {
  import opened Types

  /** A cart line as the UI holds it: the product's fields plus `cart_quantity`. */
  datatype CartItem = CartItem(product: Product, cartQuantity: int)

  /** One entry of the `cart_items` array of GET /cart; `id` is the server's line id. */
  datatype BackendCartItem = BackendCartItem(id: int, quantity: int, product: Product)

  /** The decoded body of GET /cart: its `cart_items` array, or None when the field is missing. */
  type CartBody = Option<seq<BackendCartItem>>

  /** The PATCH that updateQuantity sends: the server line it addresses and the new quantity. */
  datatype LinePatch = LinePatch(lineId: int, quantity: int)

  // ---------------------------------------------------------------------------
  // Mapping server lines and finding a line

  /** `cart_items.map(ci => ({ ...ci.product, cart_quantity: ci.quantity }))`. */
  function ToCartItems(lines: seq<BackendCartItem>): (r: seq<CartItem>)
    ensures |r| == |lines|
    ensures forall i :: 0 <= i < |lines| ==>
      r[i].product == lines[i].product && r[i].cartQuantity == lines[i].quantity
  {
    if lines == [] then []
    else [CartItem(lines[0].product, lines[0].quantity)] + ToCartItems(lines[1..])
  }

  /** `cart_items.find(ci => ci.product.id === productId)`: the first line for that product. */
  function FindLine(lines: seq<BackendCartItem>, productId: int): (r: Option<BackendCartItem>)
    ensures r.None? <==> forall i :: 0 <= i < |lines| ==> lines[i].product.id != productId
    ensures r.Some? ==> r.value.product.id == productId
    ensures r.Some? ==> exists i :: (0 <= i < |lines| && lines[i] == r.value &&
                                     forall j :: 0 <= j < i ==> lines[j].product.id != productId)
  {
    if lines == [] then None
    else if lines[0].product.id == productId then Some(lines[0])
    else
      var r := FindLine(lines[1..], productId);
      assert r.Some? ==> exists i :: (1 <= i < |lines| && lines[i] == r.value &&
                                      forall j :: 0 <= j < i ==> lines[j].product.id != productId) by {
        if r.Some? {
          var i :| 0 <= i < |lines[1..]| && lines[1..][i] == r.value &&
            forall j :: 0 <= j < i ==> lines[1..][j].product.id != productId;
          assert lines[i + 1] == r.value;
          assert forall j :: 0 <= j < i + 1 ==> lines[j].product.id != productId by {
            forall j | 0 <= j < i + 1 ensures lines[j].product.id != productId {
              if j > 0 { assert lines[j] == lines[1..][j - 1]; }
            }
          }
        }
      }
      r
  }

  /** The lines a signed-in fetch leaves: the server's on an ok response that carries
      `cart_items`; otherwise (a throw, an error status, a body without the array) the old ones. */
  function AfterFetch(items: seq<CartItem>, outcome: Outcome<CartBody>): seq<CartItem>
  {
    match outcome
    case Resolved(true, Some(lines)) => ToCartItems(lines)
    case _ => items
  }

  // ---------------------------------------------------------------------------
  // Derived totals

  /** `items.reduce((sum, item) => sum + term(item), acc)`: a left fold. */
  function Reduce(acc: int, items: seq<CartItem>, term: CartItem -> int): int
    decreases items
  {
    if items == [] then acc else Reduce(acc + term(items[0]), items[1..], term)
  }

  /** The sum of `term` over the lines, as a reference for the fold. */
  function Sum(items: seq<CartItem>, term: CartItem -> int): int
  {
    if items == [] then 0 else term(items[0]) + Sum(items[1..], term)
  }

  lemma {:induction false} ReduceIsSum(acc: int, items: seq<CartItem>, term: CartItem -> int)
    ensures Reduce(acc, items, term) == acc + Sum(items, term)
    decreases items
  {
    if items != [] {
      ReduceIsSum(acc + term(items[0]), items[1..], term);
    }
  }

  lemma {:induction false} SumAppend(a: seq<CartItem>, b: seq<CartItem>, term: CartItem -> int)
    ensures Sum(a + b, term) == Sum(a, term) + Sum(b, term)
  {
    if a == [] {
      assert a + b == b;
    } else {
      assert (a + b)[1..] == a[1..] + b;
      SumAppend(a[1..], b, term);
    }
  }

  /** `discount_price || price`: a missing or zero discount price falls back to `price`. */
  function UnitPrice(p: Product): int
  {
    match p.discountPrice
    case Some(d) => if d != 0 then d else p.price
    case None => p.price
  }

  function LineQuantity(item: CartItem): int
  {
    item.cartQuantity
  }

  function LineTotal(item: CartItem): int
  {
    UnitPrice(item.product) * item.cartQuantity
  }

  /** `totalItems`: the number of units over all lines. */
  function TotalItems(items: seq<CartItem>): (r: int)
    ensures r == Sum(items, LineQuantity)
  {
    ReduceIsSum(0, items, LineQuantity);
    Reduce(0, items, LineQuantity)
  }

  /** `totalPrice`: each line's unit price (discounted when set and non-zero) times its quantity. */
  function TotalPrice(items: seq<CartItem>): (r: int)
    ensures r == Sum(items, LineTotal)
  {
    ReduceIsSum(0, items, LineTotal);
    Reduce(0, items, LineTotal)
  }

  /** Totals split over any cut of the line list. */
  lemma TotalsAppend(a: seq<CartItem>, b: seq<CartItem>)
    ensures TotalItems(a + b) == TotalItems(a) + TotalItems(b)
    ensures TotalPrice(a + b) == TotalPrice(a) + TotalPrice(b)
  {
    SumAppend(a, b, LineQuantity);
    SumAppend(a, b, LineTotal);
  }

  /** When every line holds at least one unit, there are at least as many units as lines. */
  lemma {:induction false} TotalItemsAtLeastLines(items: seq<CartItem>)
    requires forall i :: 0 <= i < |items| ==> items[i].cartQuantity >= 1
    ensures TotalItems(items) >= |items|
  {
    if items != [] {
      TotalItemsAtLeastLines(items[1..]);
      assert Sum(items, LineQuantity) == items[0].cartQuantity + Sum(items[1..], LineQuantity);
    }
  }

  /** After a successful fetch the unit count is the sum of the server's line quantities. */
  lemma {:induction false} FetchedTotalItems(lines: seq<BackendCartItem>)
    ensures TotalItems(ToCartItems(lines)) == LineQuantities(lines)
  {
    if lines != [] {
      FetchedTotalItems(lines[1..]);
      assert ToCartItems(lines)[1..] == ToCartItems(lines[1..]);
    }
  }

  function LineQuantities(lines: seq<BackendCartItem>): int
  {
    if lines == [] then 0 else lines[0].quantity + LineQuantities(lines[1..])
  }

  /** Two units at 100 with no discount, one at 80 discounted to 50: 3 units, 250 in total.
      A zero discount price counts as no discount. */
  lemma TotalsExample(a: Product, b: Product, c: Product)
    requires a.price == 100 && a.discountPrice == None
    requires b.price == 80 && b.discountPrice == Some(50)
    requires c.price == 70 && c.discountPrice == Some(0)
    ensures TotalItems([CartItem(a, 2), CartItem(b, 1)]) == 3
    ensures TotalPrice([CartItem(a, 2), CartItem(b, 1)]) == 250
    ensures TotalPrice([CartItem(c, 3)]) == 210
  {
    var ab := [CartItem(a, 2), CartItem(b, 1)];
    assert UnitPrice(a) == 100 && UnitPrice(b) == 50 && UnitPrice(c) == 70;
    assert LineTotal(CartItem(b, 1)) == 50;
    var rest := [CartItem(b, 1)];
    assert ab[1..] == rest && rest[1..] == [];
    assert Sum(rest[1..], LineTotal) == 0;
    assert Sum(rest, LineTotal) == LineTotal(rest[0]) + Sum(rest[1..], LineTotal);
    assert Sum(rest, LineQuantity) == 1 && Sum(rest, LineTotal) == 50;
    assert Sum(ab, LineQuantity) == 2 + 1;
    assert Sum(ab, LineTotal) == 200 + 50;
    assert Sum([CartItem(c, 3)], LineTotal) == 210;
  }

  // ---------------------------------------------------------------------------
  // The provider's state and its operations

  class CartStore {
    /** The session's user; every operation checks it first. */
    var user: Option<User>
    var items: seq<CartItem>
    var processingItems: set<int>
    var loading: bool
    var isFirstFetch: bool

    constructor (user: Option<User>)
      ensures this.user == user && items == [] && processingItems == {}
      ensures !loading && isFirstFetch
    {
      this.user := user;
      items := [];
      processingItems := {};
      loading := false;
      isFirstFetch := true;
    }

    /** The provider's effect when the session's user changes: fetch again under the new user.
        Signing out empties the cart. */
    method ChangeUser(newUser: Option<User>, outcome: Outcome<CartBody>)
      modifies this
      ensures user == newUser && processingItems == old(processingItems)
      ensures newUser.None? ==> items == [] && loading == old(loading) && isFirstFetch == old(isFirstFetch)
      ensures newUser.Some? ==> items == AfterFetch(old(items), outcome) && !loading && !isFirstFetch
    {
      user := newUser;
      var _ := FetchCart(outcome);
    }

    /** GET /cart. `raisedLoading` tells whether the full-screen loading flag was raised on the way. */
    method FetchCart(outcome: Outcome<CartBody>) returns (raisedLoading: bool)
      modifies this
      ensures user == old(user) && processingItems == old(processingItems)
      ensures old(user).None? ==>
        items == [] && !raisedLoading && loading == old(loading) && isFirstFetch == old(isFirstFetch)
      ensures old(user).Some? ==>
        items == AfterFetch(old(items), outcome) && raisedLoading == old(isFirstFetch) &&
        !loading && !isFirstFetch
    {
      raisedLoading := false;
      if user.None? {
        items := [];
        return;
      }
      if isFirstFetch {
        loading := true;
        raisedLoading := true;
      }
      match outcome {
        case Threw(_) =>
        case Resolved(ok, body) =>
          if ok {
            match body {
              case Some(lines) => items := ToCartItems(lines);
              case None =>  // `data.cart_items.map` throws; the catch swallows it
            }
          }
      }
      loading := false;
      isFirstFetch := false;
    }

    /** POST /cart/items for one unit, then a re-fetch only on an ok response. */
    method AddToCart(product: Product, post: Outcome<()>, refetch: Outcome<CartBody>)
      modifies this
      ensures old(user).None? ==> unchanged(this)
      ensures user == old(user)
      ensures old(user).Some? ==> processingItems == old(processingItems) - {product.id}
      ensures old(user).Some? && post == Resolved(true, ()) ==>
        items == AfterFetch(old(items), refetch) && !loading && !isFirstFetch
      ensures old(user).Some? && post != Resolved(true, ()) ==>
        items == old(items) && loading == old(loading) && isFirstFetch == old(isFirstFetch)
    {
      if user.None? {
        return;
      }
      processingItems := processingItems + {product.id};
      if post == Resolved(true, ()) {
        var _ := FetchCart(refetch);
      }
      processingItems := processingItems - {product.id};
    }

    /** DELETE /cart/items/{productId}, then a re-fetch whenever the DELETE resolves,
        whatever its status; a thrown DELETE skips the re-fetch. */
    method RemoveFromCart(productId: int, delete: Outcome<()>, refetch: Outcome<CartBody>)
      modifies this
      ensures old(user).None? ==> unchanged(this)
      ensures user == old(user)
      ensures old(user).Some? ==> processingItems == old(processingItems) - {productId}
      ensures old(user).Some? && delete.Resolved? ==>
        items == AfterFetch(old(items), refetch) && !loading && !isFirstFetch
      ensures old(user).Some? && delete.Threw? ==>
        items == old(items) && loading == old(loading) && isFirstFetch == old(isFirstFetch)
    {
      if user.None? {
        return;
      }
      processingItems := processingItems + {productId};
      if delete.Resolved? {
        var _ := FetchCart(refetch);
      }
      processingItems := processingItems - {productId};
    }

    /**
     * A non-positive quantity is a removal (then `write` is the DELETE). Otherwise GET /cart
     * to find the server line for the product, PATCH that line's id (then `write` is the
     * PATCH) and re-fetch; with no matching line neither the PATCH nor the re-fetch happens.
     * The GET's status is not checked: only a missing `cart_items` array or a throw stops it.
     */
    method UpdateQuantity(productId: int, quantity: int, lookup: Outcome<CartBody>,
                          write: Outcome<()>, refetch: Outcome<CartBody>)
      returns (patch: Option<LinePatch>)
      modifies this
      ensures old(user).None? ==> unchanged(this) && patch.None?
      ensures user == old(user)
      ensures old(user).Some? ==> processingItems == old(processingItems) - {productId}
      // A non-positive quantity behaves as RemoveFromCart(productId, write, refetch).
      ensures old(user).Some? && quantity <= 0 ==> patch.None?
      ensures old(user).Some? && quantity <= 0 && write.Resolved? ==>
        items == AfterFetch(old(items), refetch) && !loading && !isFirstFetch
      ensures old(user).Some? && quantity <= 0 && write.Threw? ==>
        items == old(items) && loading == old(loading) && isFirstFetch == old(isFirstFetch)
      // Otherwise the PATCH goes to the first matching line's server id, with the new quantity.
      ensures old(user).Some? && quantity > 0 ==>
        (patch.Some? <==> lookup.Resolved? && lookup.body.Some? &&
                          FindLine(lookup.body.value, productId).Some?)
      ensures old(user).Some? && quantity > 0 && patch.Some? ==>
        patch.value == LinePatch(FindLine(lookup.body.value, productId).value.id, quantity)
      ensures old(user).Some? && quantity > 0 && patch.Some? && write.Resolved? ==>
        items == AfterFetch(old(items), refetch) && !loading && !isFirstFetch
      ensures old(user).Some? && quantity > 0 && (patch.None? || write.Threw?) ==>
        items == old(items) && loading == old(loading) && isFirstFetch == old(isFirstFetch)
    {
      patch := None;
      if user.None? {
        return;
      }
      if quantity <= 0 {
        RemoveFromCart(productId, write, refetch);
        return;
      }
      processingItems := processingItems + {productId};
      match lookup {
        case Threw(_) =>
        case Resolved(_, body) =>
          match body {
            case None =>  // `data.cart_items.find` throws; the catch swallows it
            case Some(lines) =>
              var line := FindLine(lines, productId);
              if line.Some? {
                patch := Some(LinePatch(line.value.id, quantity));
                if write.Resolved? {
                  var _ := FetchCart(refetch);
                }
              }
          }
      }
      processingItems := processingItems - {productId};
    }

    /** DELETE /cart/clear: the local lines are emptied once the call resolves, whatever
        its status; a throw leaves them. The loading flag is down afterwards. */
    method ClearCart(delete: Outcome<()>)
      modifies this
      ensures old(user).None? ==> unchanged(this)
      ensures user == old(user) && processingItems == old(processingItems)
      ensures isFirstFetch == old(isFirstFetch)
      ensures old(user).Some? ==> !loading && items == (if delete.Resolved? then [] else old(items))
    {
      if user.None? {
        return;
      }
      loading := true;
      if delete.Resolved? {
        items := [];
      }
      loading := false;
    }
  }
}
