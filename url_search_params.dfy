/**
 * `URLSearchParams` as the WHATWG URL Standard, section 6.2, defines it: an ordered list
 * of name-value pairs in which a name may repeat. `get` reads the first pair with a name,
 * `delete` removes every pair with it, and `set` overwrites the first one and drops the
 * rest, or appends when there is none. The form-urlencoded byte serializer is the
 * parameter `encode`.
 */
module UrlSearchParams {
  import opened Types
  import Text

  datatype Param = Param(name: string, value: string)

  type Params = seq<Param>

  /** How many pairs carry `name`. */
  function Count(ps: Params, name: string): nat
  {
    if ps == [] then 0 else (if ps[0].name == name then 1 else 0) + Count(ps[1..], name)
  }

  lemma {:induction false} CountZero(ps: Params, name: string)
    ensures Count(ps, name) == 0 <==> forall i :: 0 <= i < |ps| ==> ps[i].name != name
  {
    if ps != [] {
      CountZero(ps[1..], name);
      assert forall i :: 1 <= i < |ps| ==> ps[i] == ps[1..][i - 1];
    }
  }

  /** `get(name)`: the value of the first pair with that name, None when there is none. */
  function Get(ps: Params, name: string): (r: Option<string>)
    ensures r.None? <==> forall i :: 0 <= i < |ps| ==> ps[i].name != name
    ensures r.Some? ==>
      exists i :: 0 <= i < |ps| && ps[i] == Param(name, r.value) &&
        forall j :: 0 <= j < i ==> ps[j].name != name
  {
    if ps == [] then None
    else if ps[0].name == name then Some(ps[0].value)
    else
      var rest := Get(ps[1..], name);
      assert forall i :: 1 <= i < |ps| ==> ps[i] == ps[1..][i - 1];
      if rest.Some? then
        var i :| 0 <= i < |ps[1..]| && ps[1..][i] == Param(name, rest.value) &&
          forall j :: 0 <= j < i ==> ps[1..][j].name != name;
        assert ps[i + 1] == Param(name, rest.value);
        rest
      else rest
  }

  /** `delete(name)`: every pair with that name goes; the others stay, in order. */
  function Delete(ps: Params, name: string): (r: Params)
    ensures forall p :: p in r <==> p in ps && p.name != name
    ensures |r| <= |ps|
    ensures |ps| == 1 ==> r == (if ps[0].name == name then [] else ps)
  {
    if ps == [] then []
    else if ps[0].name == name then Delete(ps[1..], name)
    else [ps[0]] + Delete(ps[1..], name)
  }

  /** `set(name, value)`: the first pair with that name takes the value and later ones are
      removed; with no such pair, one is appended. */
  function Set(ps: Params, name: string, value: string): (r: Params)
  {
    if ps == [] then [Param(name, value)]
    else if ps[0].name == name then [Param(name, value)] + Delete(ps[1..], name)
    else [ps[0]] + Set(ps[1..], name, value)
  }

  /** `delete` works pair by pair: together with the one-pair case in its contract, this
      says the pairs it keeps stay in their order, each exactly once. */
  lemma {:induction false} DeleteAppend(a: Params, b: Params, name: string)
    ensures Delete(a + b, name) == Delete(a, name) + Delete(b, name)
  {
    if a == [] {
      assert a + b == b;
    } else {
      assert (a + b)[1..] == a[1..] + b;
      DeleteAppend(a[1..], b, name);
    }
  }

  /** `set` overwrites the FIRST pair with the name where it stands, and drops the later
      ones; the pairs before it are untouched. */
  lemma {:induction false} SetInPlace(a: Params, b: Params, name: string, v0: string, w: string)
    requires Get(a, name).None?
    ensures Set(a + [Param(name, v0)] + b, name, w) == a + [Param(name, w)] + Delete(b, name)
  {
    if a == [] {
      assert a + [Param(name, v0)] + b == [Param(name, v0)] + b;
      assert ([Param(name, v0)] + b)[1..] == b;
    } else {
      assert a[0].name != name;
      assert Get(a[1..], name).None?;
      assert (a + [Param(name, v0)] + b)[1..] == a[1..] + [Param(name, v0)] + b;
      SetInPlace(a[1..], b, name, v0, w);
      assert [a[0]] + (a[1..] + [Param(name, w)] + Delete(b, name)) == a + [Param(name, w)] + Delete(b, name);
    }
  }

  /** Deleting twice is deleting once. */
  lemma {:induction false} DeleteIdempotent(ps: Params, name: string)
    ensures Delete(Delete(ps, name), name) == Delete(ps, name)
  {
    if ps != [] {
      DeleteIdempotent(ps[1..], name);
    }
  }

  /** Deletes of two names can be done in either order. */
  lemma {:induction false} DeleteCommutes(ps: Params, a: string, b: string)
    ensures Delete(Delete(ps, a), b) == Delete(Delete(ps, b), a)
  {
    if ps != [] {
      DeleteCommutes(ps[1..], a, b);
    }
  }

  /** Deleting one name does not change what another name reads. */
  lemma {:induction false} GetAfterDeleteOther(ps: Params, deleted: string, name: string)
    requires deleted != name
    ensures Get(Delete(ps, deleted), name) == Get(ps, name)
  {
    if ps != [] {
      GetAfterDeleteOther(ps[1..], deleted, name);
    }
  }

  /** After `set(name, value)` the name reads the new value. */
  lemma {:induction false} SetGet(ps: Params, name: string, value: string)
    ensures Get(Set(ps, name, value), name) == Some(value)
  {
    if ps != [] && ps[0].name != name {
      SetGet(ps[1..], name, value);
    }
  }

  /** After `set(name, value)` the name occurs exactly once. */
  lemma {:induction false} SetCount(ps: Params, name: string, value: string)
    ensures Count(Set(ps, name, value), name) == 1
  {
    if ps == [] {
      assert Count([Param(name, value)], name) == 1 + Count([], name);
    } else if ps[0].name == name {
      var d := Delete(ps[1..], name);
      CountZero(d, name);
      assert ([Param(name, value)] + d)[1..] == d;
    } else {
      SetCount(ps[1..], name, value);
      assert ([ps[0]] + Set(ps[1..], name, value))[1..] == Set(ps[1..], name, value);
    }
  }

  /** `set` leaves the pairs with other names as they were, in their order. */
  lemma {:induction false} SetKeepsOthers(ps: Params, name: string, value: string)
    ensures Delete(Set(ps, name, value), name) == Delete(ps, name)
  {
    if ps == [] {
    } else if ps[0].name == name {
      var d := Delete(ps[1..], name);
      assert ([Param(name, value)] + d)[1..] == d;
      DeleteIdempotent(ps[1..], name);
    } else {
      SetKeepsOthers(ps[1..], name, value);
      assert ([ps[0]] + Set(ps[1..], name, value))[1..] == Set(ps[1..], name, value);
    }
  }

  /** With no earlier pair of that name, `set` appends the new pair at the end. */
  lemma {:induction false} SetAppendsWhenAbsent(ps: Params, name: string, value: string)
    requires Get(ps, name).None?
    ensures Set(ps, name, value) == ps + [Param(name, value)]
  {
    if ps != [] {
      assert Get(ps[1..], name).None?;
      SetAppendsWhenAbsent(ps[1..], name, value);
      assert [ps[0]] + (ps[1..] + [Param(name, value)]) == ps + [Param(name, value)];
    }
  }

  /** After `delete(name)` the name reads as absent. */
  lemma DeleteSpec(ps: Params, name: string)
    ensures Get(Delete(ps, name), name).None?
    ensures Count(Delete(ps, name), name) == 0
  {
    CountZero(Delete(ps, name), name);
  }

  /** The serializer of section 5.2 of the URL Standard: `name=value` per pair, joined by "&". */
  function Serialize(ps: Params, encode: string -> string): string
  {
    Text.Join(Pairs(ps, encode), "&")
  }

  function Pairs(ps: Params, encode: string -> string): (r: seq<string>)
    ensures |r| == |ps|
    ensures forall i :: 0 <= i < |ps| ==> r[i] == encode(ps[i].name) + "=" + encode(ps[i].value)
  {
    if ps == [] then [] else [encode(ps[0].name) + "=" + encode(ps[0].value)] + Pairs(ps[1..], encode)
  }

  /** Appending a pair appends "&name=value" to a non-empty serialisation. */
  lemma SerializeSnoc(ps: Params, p: Param, encode: string -> string)
    requires ps != []
    ensures Serialize(ps + [p], encode) == Serialize(ps, encode) + "&" + encode(p.name) + "=" + encode(p.value)
  {
    assert Pairs(ps + [p], encode) == Pairs(ps, encode) + [encode(p.name) + "=" + encode(p.value)];
    Text.JoinSnoc(Pairs(ps, encode), encode(p.name) + "=" + encode(p.value), "&");
  }

  /**
   * A `URLSearchParams` object: its list of pairs, changed in place by `set` and `delete`.
   * Building one from another's `toString()` is taken to copy the list.
   */
  class SearchParams {
    var list: Params

    constructor (init: Params)
      ensures list == init
    {
      list := init;
    }

    method SetParam(name: string, value: string)
      modifies this
      ensures list == Set(old(list), name, value)
      ensures Get(list, name) == Some(value)
      ensures Delete(list, name) == Delete(old(list), name)
    {
      SetGet(list, name, value);
      SetKeepsOthers(list, name, value);
      list := Set(list, name, value);
    }

    method DeleteParam(name: string)
      modifies this
      ensures list == Delete(old(list), name)
      ensures Get(list, name).None?
    {
      DeleteSpec(list, name);
      list := Delete(list, name);
    }

    /** `toString()`. */
    function ToString(encode: string -> string): string
      reads this
    {
      Serialize(list, encode)
    }
  }
}
