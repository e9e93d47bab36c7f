/** Types shared by every module: bytes, byte strings and the failure datatypes. */
module Basics {

  newtype byte = x: int | 0 <= x < 256

  type Bytes = seq<byte>

  /** Go strings are byte strings, so a node name is one too. */
  type Name = seq<byte>

  datatype Option<+T> = None | Some(value: T)

  datatype Result<+T> = Ok(value: T) | Err(error: string)

  ghost function ToSet<T>(s: seq<T>): set<T> {
    set x | x in s
  }

  ghost predicate NoDup<T>(s: seq<T>) {
    forall i, j :: 0 <= i < j < |s| ==> s[i] != s[j]
  }

  /** A sequence without repetitions has as many entries as its set of elements. */
  lemma {:induction false} NoDupCardinality<T>(s: seq<T>)
    requires NoDup(s)
    ensures |ToSet(s)| == |s|
  {
    if s == [] {
      assert ToSet(s) == {};
    } else {
      var last := s[|s| - 1];
      var front := s[..|s| - 1];
      NoDupCardinality(front);
      assert last !in front;
      assert ToSet(s) == ToSet(front) + {last};
    }
  }

  /** A subset of the same size is the whole set. */
  lemma SubsetSameSize<T>(a: set<T>, b: set<T>)
    requires a <= b && |a| >= |b|
    ensures a == b
  {
    if a != b {
      assert !(b <= a);
      var x :| x in b && x !in a;
      SubsetSize(a, b - {x});
    }
  }

  lemma {:induction false} SubsetSize<T>(a: set<T>, b: set<T>)
    requires a <= b
    ensures |a| <= |b|
  {
    if a != {} {
      var x :| x in a;
      SubsetSize(a - {x}, b - {x});
    }
  }
}
