/** Iteration orders over hash maps.

    A hash map is iterated in an order the program cannot rely on. The model makes that order an
    explicit sequence, constrained only to list every key exactly once, so that whatever is proved
    holds for every iteration order. */
module Orders {

  datatype Option<+T> = None | Some(value: T)

  function Min(a: nat, b: nat): nat { if a < b then a else b }

  function Max(a: nat, b: nat): nat { if a < b then b else a }

  /** The sum of a sequence. */
  function Total(s: seq<nat>): nat {
    if s == [] then 0 else Total(s[..|s| - 1]) + s[|s| - 1]
  }

  /** The first `n` pieces, one after the other. */
  function Joined<T>(pieces: seq<seq<T>>, n: nat): seq<T>
    requires n <= |pieces|
  {
    if n == 0 then [] else Joined(pieces, n - 1) + pieces[n - 1]
  }

  function Flatten<T>(pieces: seq<seq<T>>): seq<T> {
    Joined(pieces, |pieces|)
  }

  lemma {:induction false} JoinedPrefix<T>(a: seq<seq<T>>, b: seq<seq<T>>, n: nat)
    requires n <= |a|
    ensures Joined(a + b, n) == Joined(a, n)
  {
    if n > 0 { JoinedPrefix(a, b, n - 1); }
  }

  lemma FlattenSnoc<T>(pieces: seq<seq<T>>, last: seq<T>)
    ensures Flatten(pieces + [last]) == Flatten(pieces) + last
  {
    JoinedPrefix(pieces, [last], |pieces|);
  }

  ghost predicate NoDuplicates<T>(s: seq<T>) {
    forall i, j :: 0 <= i < j < |s| ==> s[i] != s[j]
  }

  /** `order` lists each member of `keys` exactly once. */
  ghost predicate IsOrder<T>(order: seq<T>, keys: set<T>) {
    && NoDuplicates(order)
    && (forall k :: k in order ==> k in keys)
    && (forall k :: k in keys ==> k in order)
  }

  lemma {:induction false} OrderLength<T>(order: seq<T>, keys: set<T>)
    requires IsOrder(order, keys)
    ensures |order| == |keys|
  {
    if order == [] {
      assert keys == {} by {
        forall k | k in keys ensures k in order {}
      }
    } else {
      var n := |order| - 1;
      FrontOrder(order, keys);
      OrderLength(order[..n], keys - {order[n]});
      assert order[n] in keys;
    }
  }

  lemma FrontOrder<T>(order: seq<T>, keys: set<T>)
    requires IsOrder(order, keys) && order != []
    ensures IsOrder(order[..|order| - 1], keys - {order[|order| - 1]})
  {
  }

  /** Adding a key that is not listed yet extends an order. */
  lemma SnocOrder<T>(order: seq<T>, keys: set<T>, k: T)
    requires IsOrder(order, keys) && k !in keys
    ensures IsOrder(order + [k], keys + {k})
  {
  }

  /** Some order of a finite set. */
  ghost function AnyOrder<T>(keys: set<T>): (order: seq<T>)
    ensures IsOrder(order, keys)
  {
    if keys == {} then []
    else
      var k :| k in keys;
      SnocOrder(AnyOrder(keys - {k}), keys - {k}, k);
      assert keys == keys - {k} + {k};
      AnyOrder(keys - {k}) + [k]
  }

  /** Iterating a set: every order the loop may take is a possible result. */
  method Iterate<T(==)>(keys: set<T>) returns (order: seq<T>)
    ensures IsOrder(order, keys)
  {
    order := [];
    var rest := keys;
    while rest != {}
      invariant rest <= keys
      invariant IsOrder(order, keys - rest)
    {
      var k :| k in rest;
      SnocOrder(order, keys - rest, k);
      assert keys - rest + {k} == keys - (rest - {k});
      order := order + [k];
      rest := rest - {k};
    }
    assert keys - rest == keys;
  }
}
