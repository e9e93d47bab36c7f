/** The private scalar of an elliptic-curve key: reduction into range, big-endian bytes, fixed length. */
module Scalar {
  import opened Basics

  function Pow256(w: nat): (p: nat)
    ensures p > 0
  {
    if w == 0 then 1 else 256 * Pow256(w - 1)
  }

  /** The unsigned big-endian value of a byte string. */
  function Value(b: Bytes): (v: nat)
    ensures v < Pow256(|b|)
  {
    if b == [] then 0 else Value(b[..|b| - 1]) * 256 + b[|b| - 1] as int
  }

  /** The shortest big-endian bytes of a number. */
  function Minimal(d: nat): Bytes {
    if d == 0 then [] else Minimal(d / 256) + [(d % 256) as byte]
  }

  lemma {:induction false} MinimalRoundTrip(d: nat)
    ensures Value(Minimal(d)) == d
  {
    if d > 0 {
      MinimalRoundTrip(d / 256);
      assert Minimal(d)[..|Minimal(d)| - 1] == Minimal(d / 256);
    }
  }

  /** A number needs more than `w` bytes exactly when it is at least 256 to the power `w`. */
  lemma {:induction false} LongerIff(d: nat, w: nat)
    ensures |Minimal(d)| > w <==> d >= Pow256(w)
  {
    if d > 0 && w > 0 { LongerIff(d / 256, w - 1); }
  }

  // ------------------------------------------------------------ the scalar

  datatype Curve = P256 | P384 | P521

  /** The order of the base point, sections D.1.2.3, D.1.2.4 and D.1.2.5 of FIPS 186-4. */
  function Order(c: Curve): nat {
    match c
    case P256 => 0xFFFFFFFF00000000FFFFFFFFFFFFFFFFBCE6FAADA7179E84F3B9CAC2FC632551
    case P384 => 0xFFFFFFFFFFFFFFFFFFFFFFFFFFFFFFFFFFFFFFFFFFFFFFFFC7634D81F4372DDF581A0DB248B0A77AECEC196ACCC52973
    case P521 => 0x1FFFFFFFFFFFFFFFFFFFFFFFFFFFFFFFFFFFFFFFFFFFFFFFFFFFFFFFFFFFFFFFFFA51868783BF2F966B7FCC0148F709A5D03BB5C9B8899C47AEBB6FB71E91386409
  }

  /** The length of a scalar in bytes. */
  function Width(c: Curve): nat {
    match c
    case P256 => 32
    case P384 => 48
    case P521 => 66
  }

  lemma {:induction false} PowAdd(a: nat, b: nat)
    ensures Pow256(a + b) == Pow256(a) * Pow256(b)
  {
    if b > 0 { PowAdd(a, b - 1); }
  }

  const POW_16: nat := 0x100000000000000000000000000000000
  const POW_32: nat := 0x10000000000000000000000000000000000000000000000000000000000000000

  lemma PowSum(a: nat, p: nat, b: nat, q: nat)
    requires Pow256(a) == p && Pow256(b) == q
    ensures Pow256(a + b) == p * q
  {
    PowAdd(a, b);
  }

  lemma Pow16()
    ensures Pow256(16) == POW_16
  {
    assert Pow256(2) == 0x10000;
    PowSum(2, 0x10000, 2, 0x10000);
    PowSum(4, 0x100000000, 4, 0x100000000);
    PowSum(8, 0x10000000000000000, 8, 0x10000000000000000);
  }

  lemma Powers()
    ensures Pow256(32) == POW_32 && Pow256(48) == POW_32 * POW_16 && Pow256(64) == POW_32 * POW_32
  {
    Pow16();
    PowSum(16, POW_16, 16, POW_16);
    PowSum(32, POW_32, 16, POW_16);
    PowSum(32, POW_32, 32, POW_32);
  }

  lemma OrderFits(c: Curve)
    ensures Pow256(Width(c) - 1) < Order(c) <= Pow256(Width(c))
  {
    Powers();
    match c
    case P256 => assert 256 * Pow256(31) == POW_32;
    case P384 => assert 256 * Pow256(47) == POW_32 * POW_16;
    case P521 => assert Pow256(65) == 256 * (POW_32 * POW_32) && Pow256(66) == 65536 * (POW_32 * POW_32);
  }

  function Reduce(v: nat, n: nat): (d: nat)
    requires n > 1
    ensures 1 <= d <= n - 1
  {
    v % (n - 1) + 1
  }

  /** The octet-string rule of section 2.3.6 of SEC 1: exactly the width of the curve, and a value in range. */
  predicate Accepted(c: Curve, b: Bytes) {
    |b| == Width(c) && 0 < Value(b) < Order(c)
  }

  /** The private key of `keyBytes`, or an error when its minimal bytes are not of full width. */
  method Ecdsa(keyBytes: Bytes, curve: Curve) returns (r: Result<nat>)
    ensures r.Ok? <==> Reduce(Value(keyBytes), Order(curve)) >= Pow256(Width(curve) - 1)
    ensures r.Ok? ==> r.value == Reduce(Value(keyBytes), Order(curve))
    ensures r.Ok? ==> Accepted(curve, Minimal(r.value)) && Value(Minimal(r.value)) == r.value
  {
    var n := Order(curve);
    var d := Value(keyBytes);
    d := d % (n - 1);
    d := d + 1;
    AcceptedIffWide(curve, d);
    if |Minimal(d)| != Width(curve) {
      return Err("invalid private key size");
    }
    MinimalRoundTrip(d);
    r := Ok(d);
  }

  /** Minimal bytes have the full width of the curve, and are accepted, exactly when the scalar is large enough. */
  lemma AcceptedIffWide(c: Curve, d: nat)
    requires 1 <= d < Order(c)
    ensures |Minimal(d)| == Width(c) <==> d >= Pow256(Width(c) - 1)
    ensures Accepted(c, Minimal(d)) <==> d >= Pow256(Width(c) - 1)
  {
    OrderFits(c);
    LongerIff(d, Width(c) - 1);
    LongerIff(d, Width(c));
    MinimalRoundTrip(d);
  }

  /** The scalar is at most one byte longer than the seed: 33 bytes for a seed of 32. */
  lemma AtMostOneByteMore(seed: Bytes, n: nat)
    requires n > 1
    ensures |Minimal(Reduce(Value(seed), n))| <= |seed| + 1
  {
    var v := Value(seed);
    ModAtMost(v, n - 1);
    LongerIff(Reduce(v, n), |seed| + 1);
    assert Pow256(|seed| + 1) == 256 * Pow256(|seed|);
  }

  lemma ModAtMost(v: nat, m: nat)
    requires m > 0
    ensures v % m <= v
  {
    if v >= m { assert v % m < m; }
  }

  /** So a 32-byte seed never gives a key on the wider curves. */
  lemma WideCurvesRejectShortSeeds(seed: Bytes, c: Curve)
    requires |seed| == 32 && c != P256
    ensures !Accepted(c, Minimal(Reduce(Value(seed), Order(c))))
  {
    AtMostOneByteMore(seed, Order(c));
  }

  lemma {:induction false} ValueInjective(a: Bytes, b: Bytes)
    requires |a| == |b| && Value(a) == Value(b)
    ensures a == b
  {
    if a != [] {
      ValueInjective(a[..|a| - 1], b[..|b| - 1]);
      assert a == a[..|a| - 1] + [a[|a| - 1]] && b == b[..|b| - 1] + [b[|b| - 1]];
    }
  }

  lemma SmallModulo(v: nat, m: nat)
    requires v < m
    ensures v % m == v
  {
  }

  /** Below the order, distinct seeds of one length give distinct scalars. */
  lemma DistinctSeedsDistinctScalars(a: Bytes, b: Bytes, n: nat)
    requires |a| == |b| && Pow256(|a|) < n
    ensures Reduce(Value(a), n) == Reduce(Value(b), n) <==> a == b
  {
    SmallModulo(Value(a), n - 1);
    SmallModulo(Value(b), n - 1);
    if Value(a) == Value(b) { ValueInjective(a, b); }
  }

  lemma {:induction false} ZeroValue(seed: Bytes)
    requires forall k :: 0 <= k < |seed| ==> seed[k] == 0
    ensures Value(seed) == 0
  {
    if seed != [] { ZeroValue(seed[..|seed| - 1]); }
  }

  /** Not every seed gives a key: all zeros become the scalar 1, which is one byte long. */
  lemma ZeroSeedRejected(seed: Bytes, c: Curve)
    requires forall k :: 0 <= k < |seed| ==> seed[k] == 0
    ensures Reduce(Value(seed), Order(c)) == 1 && !Accepted(c, Minimal(1))
  {
    ZeroValue(seed);
    AcceptedIffWide(c, 1);
    assert Pow256(Width(c) - 1) == 256 * Pow256(Width(c) - 2);
  }
}
