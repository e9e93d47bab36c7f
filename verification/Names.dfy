/** The bytewise order on names, the sorted enumeration of a set of names and the string set built on it. */
module Names {
  import opened Basics

  /** Go's `<` on strings: bytewise lexicographic, a proper prefix first. */
  predicate Less(a: Name, b: Name) {
    b != [] && (a == [] || a[0] < b[0] || (a[0] == b[0] && Less(a[1..], b[1..])))
  }

  predicate AtMost(a: Name, b: Name) {
    a == b || Less(a, b)
  }

  lemma {:induction false} LessIrreflexive(a: Name)
    ensures !Less(a, a)
  {
    if a != [] { LessIrreflexive(a[1..]); }
  }

  lemma {:induction false} LessTransitive(a: Name, b: Name, c: Name)
    requires Less(a, b) && Less(b, c)
    ensures Less(a, c)
  {
    if a != [] && a[0] == b[0] && b[0] == c[0] { LessTransitive(a[1..], b[1..], c[1..]); }
  }

  lemma {:induction false} LessTotal(a: Name, b: Name)
    ensures a == b || Less(a, b) || Less(b, a)
  {
    if a != [] && b != [] && a[0] == b[0] {
      LessTotal(a[1..], b[1..]);
      assert a == [a[0]] + a[1..] && b == [b[0]] + b[1..];
    }
  }

  lemma LessAsymmetric(a: Name, b: Name)
    requires Less(a, b)
    ensures !Less(b, a) && a != b
  {
    LessIrreflexive(a);
    if Less(b, a) { LessTransitive(a, b, a); }
  }

  ghost predicate IsLeast(m: Name, s: set<Name>) {
    m in s && forall y :: y in s ==> AtMost(m, y)
  }

  lemma {:induction false} LeastExists(s: set<Name>)
    requires s != {}
    ensures exists m :: IsLeast(m, s)
  {
    var x :| x in s;
    if s == {x} {
      assert IsLeast(x, s);
    } else {
      assert s - {x} != {};
      LeastExists(s - {x});
      var m :| IsLeast(m, s - {x});
      LessTotal(m, x);
      if AtMost(m, x) {
        assert IsLeast(m, s);
      } else {
        forall y | y in s ensures AtMost(x, y) {
          if y != x && y != m {
            assert y in s - {x};
            LessTransitive(x, m, y);
          }
        }
        assert IsLeast(x, s);
      }
    }
  }

  lemma LeastUnique(a: Name, b: Name, s: set<Name>)
    requires IsLeast(a, s) && IsLeast(b, s)
    ensures a == b
  {
    if a != b { LessAsymmetric(a, b); }
  }

  ghost function Least(s: set<Name>): (m: Name)
    requires s != {}
    ensures IsLeast(m, s)
  {
    LeastExists(s);
    var m :| IsLeast(m, s);
    m
  }

  ghost predicate Increasing(l: seq<Name>) {
    forall i, j :: 0 <= i < j < |l| ==> Less(l[i], l[j])
  }

  /** The sorted enumeration of a set of names. */
  ghost function SortedOf(s: set<Name>): (l: seq<Name>)
    ensures ToSet(l) == s && Increasing(l)
    decreases |s|
  {
    if s == {} then [] else
      var m := Least(s);
      ConsSorted(m, SortedOf(s - {m}), s);
      [m] + SortedOf(s - {m})
  }

  lemma ConsSorted(m: Name, rest: seq<Name>, s: set<Name>)
    requires IsLeast(m, s) && ToSet(rest) == s - {m} && Increasing(rest)
    ensures ToSet([m] + rest) == s && Increasing([m] + rest)
  {
    var l := [m] + rest;
    forall y ensures y in ToSet(l) <==> y in s {
      assert y in l <==> y == m || y in rest;
      assert y in rest <==> y in ToSet(rest);
    }
    forall i, j | 0 <= i < j < |l| ensures Less(l[i], l[j]) {
      assert l[j] == rest[j - 1];
      if i == 0 {
        assert rest[j - 1] in ToSet(rest);
      } else {
        assert l[i] == rest[i - 1];
      }
    }
  }

  lemma IncreasingNoDup(l: seq<Name>)
    requires Increasing(l)
    ensures NoDup(l)
  {
    forall i, j | 0 <= i < j < |l| ensures l[i] != l[j] { LessIrreflexive(l[i]); }
  }

  /** A sorted enumeration is determined by its elements. */
  lemma {:induction false} IncreasingUnique(a: seq<Name>, b: seq<Name>)
    requires Increasing(a) && Increasing(b) && ToSet(a) == ToSet(b)
    ensures a == b
  {
    EmptySet(a);
    EmptySet(b);
    if a != [] && b != [] {
      assert IsLeast(a[0], ToSet(a)) by { FirstIsLeast(a); }
      assert IsLeast(b[0], ToSet(b)) by { FirstIsLeast(b); }
      LeastUnique(a[0], b[0], ToSet(a));
      TailSet(a);
      TailSet(b);
      IncreasingUnique(a[1..], b[1..]);
      assert a == [a[0]] + a[1..] && b == [b[0]] + b[1..];
    }
  }

  lemma EmptySet(a: seq<Name>)
    ensures ToSet(a) == {} <==> a == []
  {
    if a != [] { assert a[0] in ToSet(a); }
  }

  lemma FirstIsLeast(a: seq<Name>)
    requires Increasing(a) && a != []
    ensures IsLeast(a[0], ToSet(a))
  {
  }

  lemma TailSet(a: seq<Name>)
    requires Increasing(a) && a != []
    ensures Increasing(a[1..]) && ToSet(a[1..]) == ToSet(a) - {a[0]}
  {
    IncreasingNoDup(a);
    forall y ensures y in ToSet(a[1..]) <==> y in ToSet(a) - {a[0]} {
      if y in ToSet(a) - {a[0]} {
        var k :| 0 <= k < |a| && a[k] == y;
        assert a[1..][k - 1] == y;
      }
    }
  }

  /** The elements a list of names contributes: the empty name is skipped. */
  ghost function Added(es: seq<Name>): set<Name> {
    set e | e in es && e != []
  }

  /** The library sort: a rearrangement in nondecreasing order. */
  method SortStrings(l: seq<Name>) returns (r: seq<Name>)
    ensures multiset(r) == multiset(l)
    ensures forall i, j :: 0 <= i < j < |r| ==> AtMost(r[i], r[j])
  {
    r := [];
    for n := 0 to |l|
      invariant multiset(r) == multiset(l[..n])
      invariant forall i, j :: 0 <= i < j < |r| ==> AtMost(r[i], r[j])
    {
      assert l[..n + 1] == l[..n] + [l[n]];
      r := InsertInOrder(r, l[n]);
    }
    assert l[..|l|] == l;
  }

  method InsertInOrder(l: seq<Name>, x: Name) returns (r: seq<Name>)
    requires forall i, j :: 0 <= i < j < |l| ==> AtMost(l[i], l[j])
    ensures multiset(r) == multiset(l) + multiset{x}
    ensures forall i, j :: 0 <= i < j < |r| ==> AtMost(r[i], r[j])
  {
    var k := 0;
    while k < |l| && AtMost(l[k], x)
      invariant 0 <= k <= |l|
      invariant forall i :: 0 <= i < k ==> AtMost(l[i], x)
    {
      k := k + 1;
    }
    r := l[..k] + [x] + l[k..];
    assert l == l[..k] + l[k..];
    if k < |l| { LessTotal(x, l[k]); }
    InsertedInOrder(l, x, k);
  }

  lemma InsertedInOrder(l: seq<Name>, x: Name, k: nat)
    requires forall i, j :: 0 <= i < j < |l| ==> AtMost(l[i], l[j])
    requires k <= |l| && (forall i :: 0 <= i < k ==> AtMost(l[i], x))
    requires k < |l| ==> AtMost(x, l[k])
    ensures var r := l[..k] + [x] + l[k..];
            forall i, j :: 0 <= i < j < |r| ==> AtMost(r[i], r[j])
  {
    var r := l[..k] + [x] + l[k..];
    forall i, j | 0 <= i < j < |r| ensures AtMost(r[i], r[j]) {
      if i == k {
        assert r[i] == x && r[j] == l[j - 1];
        if j - 1 > k && x != l[k] && l[k] != l[j - 1] { LessTransitive(x, l[k], l[j - 1]); }
      }
    }
  }

  class StringSet {
    var m: set<Name>

    constructor ()
      ensures m == {}
    {
      m := {};
    }

    method Add(e: Name)
      modifies this
      ensures m == old(m) + Added([e])
    {
      if e != [] { m := m + {e}; }
    }

    method AddAll(es: seq<Name>)
      modifies this
      ensures m == old(m) + Added(es)
    {
      for n := 0 to |es|
        invariant m == old(m) + Added(es[..n])
      {
        assert es[..n + 1] == es[..n] + [es[n]];
        if es[n] != [] { m := m + {es[n]}; }
      }
      assert es[..|es|] == es;
    }

    method Remove(e: Name)
      modifies this
      ensures m == old(m) - Added([e])
    {
      if e != [] { m := m - {e}; }
    }

    /** The strictly increasing enumeration of the set, whatever order the map is walked in. */
    method Sorted() returns (l: seq<Name>)
      ensures Increasing(l) && ToSet(l) == m
      ensures l == SortedOf(m)
    {
      var unsorted: seq<Name> := [];
      var rest := m;
      while rest != {}
        invariant rest <= m && ToSet(unsorted) == m - rest
        invariant NoDup(unsorted)
        decreases rest
      {
        var k :| k in rest;
        assert k !in ToSet(unsorted);
        assert ToSet(unsorted + [k]) == ToSet(unsorted) + {k};
        unsorted := unsorted + [k];
        rest := rest - {k};
      }
      l := SortStrings(unsorted);
      SameElements(unsorted, l);
      SortedNoDup(unsorted, l);
      IncreasingUnique(l, SortedOf(m));
    }
  }

  lemma {:induction false} NoDupMultiset(s: seq<Name>, x: Name)
    requires NoDup(s)
    ensures multiset(s)[x] <= 1
  {
    if s != [] {
      assert s == s[..|s| - 1] + [s[|s| - 1]];
      NoDupMultiset(s[..|s| - 1], x);
      assert s[|s| - 1] !in s[..|s| - 1];
    }
  }

  lemma SameElements(s: seq<Name>, l: seq<Name>)
    requires multiset(s) == multiset(l)
    ensures ToSet(s) == ToSet(l)
  {
    forall x ensures x in ToSet(s) <==> x in ToSet(l) {
      assert x in s <==> x in multiset(s);
      assert x in l <==> x in multiset(l);
    }
  }

  lemma TwicePresent(l: seq<Name>, i: int, j: int)
    requires 0 <= i < j < |l| && l[i] == l[j]
    ensures multiset(l)[l[i]] >= 2
  {
    assert l == l[..j] + [l[j]] + l[j + 1..];
    assert l[i] in l[..j];
    assert multiset(l[..j])[l[i]] >= 1;
  }

  lemma SortedNoDup(s: seq<Name>, l: seq<Name>)
    requires NoDup(s) && multiset(s) == multiset(l)
    requires forall i, j :: 0 <= i < j < |l| ==> AtMost(l[i], l[j])
    ensures Increasing(l)
  {
    forall i, j | 0 <= i < j < |l| ensures Less(l[i], l[j]) {
      if l[i] == l[j] {
        TwicePresent(l, i, j);
        NoDupMultiset(s, l[i]);
      }
    }
  }

  // ---------------------------------------------------------------- election

  /** The peers a node keeps: the configured seeds without itself, sorted. */
  ghost function OtherSeeds(seeds: set<Name>, self: Name): seq<Name> {
    SortedOf(seeds - Added([self]))
  }

  /** The name a node elects: first of its own name and its other seeds, sorted. */
  ghost function Elected(self: Name, others: seq<Name>): Name
    requires self != []
  {
    assert self in Added([self]);
    Least(Added([self]) + Added(others))
  }

  /** Node construction followed by the election of `Node.seed`, on the string sets of the program. */
  method ElectMaster(configured: seq<Name>, self: Name) returns (others: seq<Name>, first: Name)
    requires self != []
    ensures others == OtherSeeds(Added(configured), self)
    ensures first == Elected(self, others)
  {
    var seedNodes := new StringSet();
    seedNodes.AddAll(configured);
    seedNodes.Remove(self);
    assert seedNodes.m == Added(configured) - Added([self]);
    others := seedNodes.Sorted();
    first := First(self, others);
  }

  method First(self: Name, others: seq<Name>) returns (first: Name)
    requires self != []
    ensures first == Elected(self, others)
  {
    var needed := new StringSet();
    needed.Add(self);
    needed.AddAll(others);
    var all := needed.Sorted();
    assert self in ToSet(all);
    first := all[0];
    FirstIsLeast(all);
    LeastUnique(first, Elected(self, others), needed.m);
  }

  /** Taking the own name out and putting it back rebuilds the configured seed set on every seed. */
  lemma SeedSetRebuilt(configured: seq<Name>, self: Name)
    requires self in Added(configured)
    ensures Added([self]) + Added(OtherSeeds(Added(configured), self)) == Added(configured)
  {
    var seeds := Added(configured);
    var others := OtherSeeds(seeds, self);
    assert ToSet(others) == seeds - Added([self]);
    forall x ensures x in Added([self]) + Added(others) <==> x in seeds {
      assert x in others <==> x in ToSet(others);
    }
  }

  /** All seeds of one list elect the same name, it is a seed, and only that seed elects itself. */
  lemma OneMaster(configured: seq<Name>, i: Name, j: Name)
    requires i in Added(configured) && j in Added(configured)
    ensures var seeds := Added(configured);
            var m := Elected(i, OtherSeeds(seeds, i));
            && m in seeds
            && Elected(j, OtherSeeds(seeds, j)) == m
            && (Elected(j, OtherSeeds(seeds, j)) == j <==> j == m)
  {
    var seeds := Added(configured);
    SeedSetRebuilt(configured, i);
    SeedSetRebuilt(configured, j);
    LeastUnique(Elected(i, OtherSeeds(seeds, i)), Elected(j, OtherSeeds(seeds, j)), seeds);
  }
}
