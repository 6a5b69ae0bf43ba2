/** Sums of natural numbers over finite sets of names. */
module Sums {
  ghost function Sum(f: string -> nat, keys: set<string>): nat
    decreases |keys|
  {
    if keys == {} then 0
    else
      var k :| k in keys;
      f(k) + Sum(f, keys - {k})
  }

  /** The sum does not depend on the order of the keys. */
  lemma {:induction false} SumRemove(f: string -> nat, keys: set<string>, k: string)
    requires k in keys
    ensures Sum(f, keys) == f(k) + Sum(f, keys - {k})
    decreases |keys|
  {
    var j :| j in keys && Sum(f, keys) == f(j) + Sum(f, keys - {j});
    if j != k {
      SumRemove(f, keys - {j}, k);
      SumRemove(f, keys - {k}, j);
      assert keys - {j} - {k} == keys - {k} - {j};
    }
  }

  lemma {:induction false} SumEqual(f: string -> nat, g: string -> nat, keys: set<string>)
    requires forall k :: k in keys ==> f(k) == g(k)
    ensures Sum(f, keys) == Sum(g, keys)
    decreases |keys|
  {
    if keys != {} {
      var k :| k in keys;
      SumRemove(f, keys, k);
      SumRemove(g, keys, k);
      SumEqual(f, g, keys - {k});
    }
  }

  /** Raising one term raises the sum as much. */
  lemma SumRaised(f: string -> nat, g: string -> nat, keys: set<string>, k: string, more: nat)
    requires k in keys && g(k) == f(k) + more
    requires forall j :: j in keys && j != k ==> f(j) == g(j)
    ensures Sum(g, keys) == Sum(f, keys) + more
  {
    SumRemove(f, keys, k);
    SumRemove(g, keys, k);
    SumEqual(f, g, keys - {k});
  }

  lemma {:induction false} SumZero(f: string -> nat, keys: set<string>)
    requires forall k :: k in keys ==> f(k) == 0
    ensures Sum(f, keys) == 0
    decreases |keys|
  {
    if keys != {} {
      var k :| k in keys;
      SumRemove(f, keys, k);
      SumZero(f, keys - {k});
    }
  }

  /** How often a name occurs. */
  function Occurrences(names: seq<string>, k: string): nat {
    if names == [] then 0
    else Occurrences(names[..|names| - 1], k) + if names[|names| - 1] == k then 1 else 0
  }

  function Names(names: seq<string>): set<string> {
    set k | k in names
  }

  /** Counting by name loses and invents nothing. */
  lemma {:induction false} CountsConserve(names: seq<string>, keys: set<string>)
    requires Names(names) <= keys
    ensures Sum(k => Occurrences(names, k), keys) == |names|
  {
    var f := k => Occurrences(names, k);
    if names == [] {
      SumZero(f, keys);
    } else {
      var init, last := names[..|names| - 1], names[|names| - 1];
      assert last in Names(names);
      forall k | k in Names(init) ensures k in Names(names) {
      }
      CountsConserve(init, keys);
      SumRaised(k => Occurrences(init, k), f, keys, last, 1);
    }
  }

  // ---------------------------------------------------------------- how many

  /** How many entries of a list satisfy `p`. */
  function CountIf<T>(s: seq<T>, p: T -> bool): nat {
    |set i: nat | i < |s| && p(s[i])|
  }

  lemma CountSnoc<T>(s: seq<T>, x: T, p: T -> bool)
    ensures CountIf([], p) == 0
    ensures CountIf(s + [x], p) == CountIf(s, p) + if p(x) then 1 else 0
  {
    var none: seq<T> := [];
    assert (set i: nat | i < |none| && p(none[i])) == {};
    var now: set<nat> := if p(x) then {|s|} else {};
    assert (set i: nat | i < |s + [x]| && p((s + [x])[i])) == (set i: nat | i < |s| && p(s[i])) + now;
  }

  /** Occurrences are positions. */
  lemma {:induction false} OccurrencesAre(names: seq<string>, k: string)
    ensures Occurrences(names, k) == CountIf(names, name => name == k)
  {
    if names == [] {
      CountSnoc([], "", name => name == k);
    } else {
      var init, last := names[..|names| - 1], names[|names| - 1];
      assert names == init + [last];
      OccurrencesAre(init, k);
      CountSnoc(init, last, name => name == k);
    }
  }
}
