/**
 * The notification seed list shown in the header drop-down, and its unread badge count.
 * The `createdAt` timestamps are computed from the clock and are not part of this model.
 */
module Notifications {

  datatype Notification = Notification(id: int, title: string, message: string, read: bool)

  const Seed: seq<Notification> := [
    Notification(1, "Welcome!", "Thanks for joining our store. Enjoy shopping!", false),
    Notification(2, "Order Shipped", "Your order #1234 has been shipped.", false),
    Notification(3, "Discount Available", "Get 10% off on all items this weekend.", true)
  ]

  /** `filter((n) => !n.read)`: the unread entries, in their order. */
  function Unread(ns: seq<Notification>): (r: seq<Notification>)
    ensures forall n :: n in r <==> n in ns && !n.read
    ensures |r| <= |ns|
  {
    if ns == [] then []
    else if !ns[0].read then [ns[0]] + Unread(ns[1..])
    else Unread(ns[1..])
  }

  /** `unreadCount`. */
  function UnreadCount(ns: seq<Notification>): (c: nat)
    ensures c <= |ns|
  {
    |Unread(ns)|
  }

  /** Counting works piecewise over a list split in two. */
  lemma {:induction false} UnreadCountAppend(a: seq<Notification>, b: seq<Notification>)
    ensures UnreadCount(a + b) == UnreadCount(a) + UnreadCount(b)
  {
    if a == [] {
      assert a + b == b;
    } else {
      assert (a + b)[1..] == a[1..] + b;
      UnreadCountAppend(a[1..], b);
    }
  }

  /** The badge is zero exactly when everything is read, and counts every entry exactly
      when nothing is. */
  lemma {:induction false} UnreadCountExtremes(ns: seq<Notification>)
    ensures UnreadCount(ns) == 0 <==> forall i :: 0 <= i < |ns| ==> ns[i].read
    ensures UnreadCount(ns) == |ns| <==> forall i :: 0 <= i < |ns| ==> !ns[i].read
  {
    if ns != [] {
      UnreadCountExtremes(ns[1..]);
      assert forall i :: 1 <= i < |ns| ==> ns[i] == ns[1..][i - 1];
    }
  }

  /** The seed list has two unread entries and distinct ids. */
  lemma SeedFacts()
    ensures UnreadCount(Seed) == 2
    ensures forall i, j :: 0 <= i < j < |Seed| ==> Seed[i].id != Seed[j].id
  {
    assert Seed[1..][1..] == [Seed[2]];
    assert Unread([Seed[2]]) == [];
  }
}
