/**
 * The wishlist provider: the liked product ids (a list, so a product can appear
 * more than once) and the product records fetched for display, with an optimistic
 * toggle that rolls back only when the network call throws.
 */
module Wishlist {
  import opened Types

  /** The decoded body of GET /wishlist: the `product` of each entry of `wishlists`,
      or None when the array is missing. */
  type WishlistBody = Option<seq<Product>>

  /** `wishlists.map(item => item.product.id)`. */
  function IdsOf(products: seq<Product>): (r: seq<int>)
    ensures |r| == |products|
    ensures forall i :: 0 <= i < |products| ==> r[i] == products[i].id
  {
    if products == [] then [] else [products[0].id] + IdsOf(products[1..])
  }

  /** `ids.includes(productId)`: a scan from the front. */
  function Includes(ids: seq<int>, productId: int): (r: bool)
    ensures r <==> productId in ids
  {
    if ids == [] then false
    else ids[0] == productId || Includes(ids[1..], productId)
  }

  /** `ids.filter(id => id !== productId)`. */
  function WithoutId(ids: seq<int>, productId: int): (r: seq<int>)
    ensures forall x :: x in r <==> x in ids && x != productId
    ensures |r| <= |ids|
  {
    if ids == [] then []
    else if ids[0] == productId then WithoutId(ids[1..], productId)
    else [ids[0]] + WithoutId(ids[1..], productId)
  }

  /** `items.filter(item => item.id !== productId)`. */
  function WithoutProduct(items: seq<Product>, productId: int): (r: seq<Product>)
    ensures forall q :: q in r <==> q in items && q.id != productId
    ensures |r| <= |items|
  {
    if items == [] then []
    else if items[0].id == productId then WithoutProduct(items[1..], productId)
    else [items[0]] + WithoutProduct(items[1..], productId)
  }

  /** Filtering works piecewise, so the ids that stay keep their relative order. */
  lemma {:induction false} WithoutIdAppend(a: seq<int>, b: seq<int>, productId: int)
    ensures WithoutId(a + b, productId) == WithoutId(a, productId) + WithoutId(b, productId)
  {
    if a == [] {
      assert a + b == b;
    } else {
      assert (a + b)[1..] == a[1..] + b;
      WithoutIdAppend(a[1..], b, productId);
    }
  }

  /** Removing an id that is absent changes nothing. */
  lemma {:induction false} WithoutAbsentId(ids: seq<int>, productId: int)
    requires productId !in ids
    ensures WithoutId(ids, productId) == ids
  {
    if ids != [] {
      assert productId !in ids[1..];
      WithoutAbsentId(ids[1..], productId);
    }
  }

  /** Dropping a product from the display list and dropping its id from the id list agree:
      an unlike keeps ids and records in lock-step. */
  lemma {:induction false} UnlikeKeepsLockStep(items: seq<Product>, productId: int)
    ensures IdsOf(WithoutProduct(items, productId)) == WithoutId(IdsOf(items), productId)
  {
    if items != [] {
      UnlikeKeepsLockStep(items[1..], productId);
      assert IdsOf(items)[1..] == IdsOf(items[1..]);
    }
  }

  /** Rolling back a failed like removes every occurrence of the id, including any that was
      there before the like: a product that was already liked ends up not liked. */
  lemma FailedLikeForgetsEarlierLike(ids: seq<int>, productId: int)
    ensures WithoutId(ids + [productId], productId) == WithoutId(ids, productId)
    ensures productId !in WithoutId(ids + [productId], productId)
  {
    WithoutIdAppend(ids, [productId], productId);
    assert WithoutId([productId], productId) == [];
  }

  /** The products an ok response delivers; None when the fetch leaves the state alone. */
  function Delivered(outcome: Outcome<WishlistBody>): Option<seq<Product>>
  {
    match outcome
    case Resolved(true, Some(products)) => Some(products)
    case _ => None
  }

  class WishlistStore {
    /** The session's user; every operation checks it first. */
    var user: Option<User>
    var wishlistIds: seq<int>
    var wishlistItems: seq<Product>
    var loading: bool

    /** The ids are exactly the ids of the display records, in the same order. */
    ghost predicate InLockStep()
      reads this
    {
      wishlistIds == IdsOf(wishlistItems)
    }

    constructor (user: Option<User>)
      ensures this.user == user && wishlistIds == [] && wishlistItems == [] && !loading
      ensures InLockStep()
    {
      this.user := user;
      wishlistIds := [];
      wishlistItems := [];
      loading := false;
    }

    /** The provider's effect when the session's user changes. Signing out empties the list. */
    method ChangeUser(newUser: Option<User>, outcome: Outcome<WishlistBody>)
      modifies this
      ensures user == newUser && !loading
      ensures newUser.None? ==> wishlistIds == [] && wishlistItems == []
      ensures newUser.Some? && Delivered(outcome).Some? ==>
        wishlistItems == Delivered(outcome).value && InLockStep()
      ensures newUser.Some? && Delivered(outcome).None? ==>
        wishlistIds == old(wishlistIds) && wishlistItems == old(wishlistItems)
    {
      user := newUser;
      FetchWishlist(outcome);
    }

    /** GET /wishlist: ids and records are replaced together from an ok response. */
    method FetchWishlist(outcome: Outcome<WishlistBody>)
      modifies this
      ensures user == old(user) && !loading
      ensures old(user).None? ==> wishlistIds == [] && wishlistItems == []
      ensures old(user).Some? && Delivered(outcome).Some? ==>
        wishlistItems == Delivered(outcome).value && wishlistIds == IdsOf(wishlistItems)
      ensures old(user).Some? && Delivered(outcome).None? ==>
        wishlistIds == old(wishlistIds) && wishlistItems == old(wishlistItems)
      ensures old(user).None? || Delivered(outcome).Some? ==> InLockStep()
    {
      if user.None? {
        loading := false;
        wishlistIds := [];
        wishlistItems := [];
        return;
      }
      loading := true;
      match outcome {
        case Threw(_) =>
        case Resolved(ok, body) =>
          if ok {
            match body {
              case Some(products) =>
                wishlistIds := IdsOf(products);
                wishlistItems := products;
              case None =>  // `data.wishlists.map` throws; the catch swallows it
            }
          }
      }
      loading := false;
    }

    /** `isInWishlist`. */
    function IsInWishlist(productId: int): (r: bool)
      reads this
      ensures r <==> productId in wishlistIds
    {
      Includes(wishlistIds, productId)
    }

    /**
     * The part of syncWishlist before its `await`: a like appends the id (the display
     * list waits for the next fetch); an unlike drops the id and the records at once.
     */
    method ApplyOptimistic(productId: int, isLiked: bool)
      modifies this
      ensures user == old(user) && loading == old(loading)
      ensures isLiked ==>
        wishlistIds == old(wishlistIds) + [productId] &&
        wishlistItems == old(wishlistItems) && IsInWishlist(productId)
      ensures !isLiked ==>
        wishlistIds == WithoutId(old(wishlistIds), productId) &&
        wishlistItems == WithoutProduct(old(wishlistItems), productId) && !IsInWishlist(productId)
      ensures !isLiked && old(InLockStep()) ==> InLockStep()
    {
      if isLiked {
        wishlistIds := wishlistIds + [productId];
      } else {
        wishlistIds := WithoutId(wishlistIds, productId);
        wishlistItems := WithoutProduct(wishlistItems, productId);
        if old(InLockStep()) {
          UnlikeKeepsLockStep(old(wishlistItems), productId);
        }
      }
    }

    /**
     * The part of syncWishlist after its `await`: nothing happens unless the call threw.
     * A failed like drops the id (every occurrence); a failed unlike appends it again and
     * re-fetches the list.
     */
    method Settle(productId: int, isLiked: bool, call: Outcome<()>, refetch: Outcome<WishlistBody>)
      modifies this
      ensures user == old(user)
      ensures call.Resolved? ==> unchanged(this)
      ensures call.Threw? && isLiked ==>
        wishlistIds == WithoutId(old(wishlistIds), productId) &&
        wishlistItems == old(wishlistItems) && loading == old(loading)
      ensures call.Threw? && !isLiked ==> !loading
      ensures call.Threw? && !isLiked && old(user).None? ==> wishlistIds == [] && wishlistItems == []
      ensures call.Threw? && !isLiked && old(user).Some? && Delivered(refetch).Some? ==>
        wishlistItems == Delivered(refetch).value && InLockStep()
      ensures call.Threw? && !isLiked && old(user).Some? && Delivered(refetch).None? ==>
        wishlistIds == old(wishlistIds) + [productId] && wishlistItems == old(wishlistItems)
    {
      if call.Threw? {
        if isLiked {
          wishlistIds := WithoutId(wishlistIds, productId);
        } else {
          wishlistIds := wishlistIds + [productId];
          FetchWishlist(refetch);
        }
      }
    }

    /** `syncWishlist(productId, isLiked)`: POST /wishlist or DELETE /wishlist/{productId}
        between the optimistic step and its rollback. */
    method SyncWishlist(productId: int, isLiked: bool, call: Outcome<()>, refetch: Outcome<WishlistBody>)
      modifies this
      ensures old(user).None? ==> unchanged(this)
      ensures user == old(user)
      ensures isLiked || call.Resolved? ==> loading == old(loading)
      ensures old(user).Some? && isLiked && call.Resolved? ==>
        wishlistIds == old(wishlistIds) + [productId] && wishlistItems == old(wishlistItems) &&
        IsInWishlist(productId)
      ensures old(user).Some? && isLiked && call.Threw? ==>
        wishlistIds == WithoutId(old(wishlistIds), productId) && wishlistItems == old(wishlistItems) &&
        !IsInWishlist(productId)
      ensures old(user).Some? && !isLiked && call.Resolved? ==>
        wishlistIds == WithoutId(old(wishlistIds), productId) &&
        wishlistItems == WithoutProduct(old(wishlistItems), productId) && !IsInWishlist(productId)
      ensures old(user).Some? && !isLiked && call.Threw? && Delivered(refetch).Some? ==>
        wishlistItems == Delivered(refetch).value && InLockStep() && !loading
      ensures old(user).Some? && !isLiked && call.Threw? && Delivered(refetch).None? ==>
        wishlistIds == WithoutId(old(wishlistIds), productId) + [productId] &&
        wishlistItems == WithoutProduct(old(wishlistItems), productId) &&
        IsInWishlist(productId) && !loading
    {
      if user.None? {
        return;
      }
      ApplyOptimistic(productId, isLiked);
      Settle(productId, isLiked, call, refetch);
      if isLiked && call.Threw? {
        FailedLikeForgetsEarlierLike(old(wishlistIds), productId);
      }
    }
  }
}
