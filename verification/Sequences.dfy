/** Sequence facts shared by the other modules. */
module Sequences {
  datatype Option<T> = None | Some(value: T)

  predicate Distinct<T(==)>(xs: seq<T>) {
    forall i, j :: 0 <= i < j < |xs| ==> xs[i] != xs[j]
  }

  function Lookup<V>(m: map<string, V>, key: string): Option<V> {
    if key in m then Some(m[key]) else None
  }

  /** A part without the separator starts after its last occurrence. */
  lemma SplitAtLast(x: string, a: string, y: string, b: string, c: char)
    requires c !in a && c !in b && x + [c] + a == y + [c] + b
    ensures x == y && a == b
  {
    var s := x + [c] + a;
    forall i | |x| < i < |s| ensures s[i] != c { assert s[i] == a[i - |x| - 1]; }
    forall i | |y| < i < |s| ensures s[i] != c { assert s[i] == b[i - |y| - 1]; }
    assert s[|x|] == c && s[|y|] == c;
    assert s[..|x|] == x && s[..|y|] == y && s[|x| + 1..] == a && s[|y| + 1..] == b;
  }

  /** A part without the separator ends at its first occurrence. */
  lemma SplitAtFirst(a: string, x: string, b: string, y: string, c: char)
    requires c !in a && c !in b && a + [c] + x == b + [c] + y
    ensures a == b && x == y
  {
    var s := a + [c] + x;
    forall i | 0 <= i < |a| ensures s[i] != c { assert s[i] == a[i]; }
    forall i | 0 <= i < |b| ensures s[i] != c { assert s[i] == b[i]; }
    assert s[|a|] == c && s[|b|] == c;
    assert s[..|a|] == a && s[..|b|] == b && s[|a| + 1..] == x && s[|b| + 1..] == y;
  }

  function Flatten<T>(xss: seq<seq<T>>): seq<T> {
    if xss == [] then [] else xss[0] + Flatten(xss[1..])
  }

  lemma {:induction false} FlattenConcat<T>(xss: seq<seq<T>>, yss: seq<seq<T>>)
    ensures Flatten(xss + yss) == Flatten(xss) + Flatten(yss)
  {
    if xss == [] {
      assert xss + yss == yss;
    } else {
      assert (xss + yss)[1..] == xss[1..] + yss;
      FlattenConcat(xss[1..], yss);
    }
  }

  lemma FlattenAppend<T>(xss: seq<seq<T>>, xs: seq<T>)
    ensures Flatten(xss + [xs]) == Flatten(xss) + xs
  {
    FlattenConcat(xss, [xs]);
    assert Flatten([xs]) == xs + Flatten([]);
  }

  lemma MultisetCons<T>(xs: seq<T>)
    requires xs != []
    ensures multiset(xs) == multiset{xs[0]} + multiset(xs[1..])
  {
    assert xs == [xs[0]] + xs[1..];
  }

  lemma MultisetWithout<T>(xs: seq<T>, i: nat)
    requires i < |xs|
    ensures multiset(xs) == multiset{xs[i]} + multiset(xs[..i] + xs[i + 1..])
  {
    assert xs == xs[..i] + [xs[i]] + xs[i + 1..];
  }

  lemma FlattenMiddle<T>(l: seq<seq<T>>, x: seq<T>, r: seq<seq<T>>)
    ensures multiset(Flatten(l + [x] + r)) == multiset(x) + multiset(Flatten(l + r))
  {
    FlattenConcat(l + [x], r);
    FlattenAppend(l, x);
    FlattenConcat(l, r);
    assert Flatten(l + [x] + r) == Flatten(l) + x + Flatten(r);
  }

  /** The records of a collection of batches depend only on which batches it holds. */
  lemma {:induction false} FlattenPermutation<T>(xss: seq<seq<T>>, yss: seq<seq<T>>)
    requires multiset(xss) == multiset(yss)
    ensures multiset(Flatten(xss)) == multiset(Flatten(yss))
    decreases |xss|
  {
    if xss == [] {
      assert |multiset(yss)| == 0;
    } else {
      MultisetCons(xss);
      assert xss[0] in multiset(yss);
      var i :| 0 <= i < |yss| && yss[i] == xss[0];
      var rest := yss[..i] + yss[i + 1..];
      MultisetWithout(yss, i);
      assert multiset(xss[1..]) == multiset(xss) - multiset{xss[0]};
      assert multiset(rest) == multiset(yss) - multiset{xss[0]};
      FlattenPermutation(xss[1..], rest);
      FlattenMiddle(yss[..i], yss[i], yss[i + 1..]);
      assert yss == yss[..i] + [yss[i]] + yss[i + 1..];
    }
  }
}
