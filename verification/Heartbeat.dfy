/** The heartbeat window manager: buffering, the split on every tick, and the statistics of one window. */
module Heartbeat {
  import opened Basics
  import opened Vault
  import opened Names
  import Hex

  /** One received heartbeat, stamped with the second of its arrival. */
  datatype Sample = Sample(id: Name, nonce: string, box: string, ts: int)

  datatype Beat = Beat(nonce: string, value: string)

  // -------------------------------------------------------------- the split

  function Late(ss: seq<Sample>, last: int): seq<Sample> {
    if ss == [] then [] else Late(ss[..|ss| - 1], last) + (if ss[|ss| - 1].ts < last then [ss[|ss| - 1]] else [])
  }

  function Due(ss: seq<Sample>, last: int, window: nat): seq<Sample> {
    if ss == [] then []
    else Due(ss[..|ss| - 1], last, window) + (if last <= ss[|ss| - 1].ts <= last + window then [ss[|ss| - 1]] else [])
  }

  function Ahead(ss: seq<Sample>, last: int, window: nat): seq<Sample> {
    if ss == [] then []
    else Ahead(ss[..|ss| - 1], last, window) + (if ss[|ss| - 1].ts > last + window then [ss[|ss| - 1]] else [])
  }

  // --------------------------------------------------------------- the runs

  datatype Event = Arrive(sample: Sample) | Tick(now: int)

  /** The buffer and the time of the last tick; `batches` and `dropped` are history. */
  datatype Buffer = Buffer(samples: seq<Sample>, last: int, batches: seq<seq<Sample>>, dropped: seq<Sample>)

  function Next(b: Buffer, window: nat, e: Event): Buffer {
    match e
    case Arrive(s) => b.(samples := b.samples + [s])
    case Tick(now) =>
      Buffer(Ahead(b.samples, b.last, window), now,
             b.batches + [Due(b.samples, b.last, window)],
             b.dropped + Late(b.samples, b.last))
  }

  function Run(window: nat, start: int, es: seq<Event>): Buffer {
    if es == [] then Buffer([], start, [], []) else Next(Run(window, start, es[..|es| - 1]), window, es[|es| - 1])
  }

  function Time(e: Event): int {
    match e
    case Arrive(s) => s.ts
    case Tick(now) => now
  }

  function Clock(start: int, es: seq<Event>): int {
    if es == [] then start else Time(es[|es| - 1])
  }

  /** The clock never runs backwards; a sample carries the time at which it is inserted. */
  predicate Monotone(start: int, es: seq<Event>) {
    es != [] ==> Monotone(start, es[..|es| - 1]) && Clock(start, es[..|es| - 1]) <= Time(es[|es| - 1])
  }

  function Ticks(es: seq<Event>): seq<int> {
    if es == [] then []
    else Ticks(es[..|es| - 1]) + (if es[|es| - 1].Tick? then [es[|es| - 1].now] else [])
  }

  function Arrivals(es: seq<Event>): seq<Sample> {
    if es == [] then []
    else Arrivals(es[..|es| - 1]) + (if es[|es| - 1].Arrive? then [es[|es| - 1].sample] else [])
  }

  function Flat(bs: seq<seq<Sample>>): seq<Sample> {
    if bs == [] then [] else Flat(bs[..|bs| - 1]) + bs[|bs| - 1]
  }

  /** Tick `k` comes at most `window + 1` seconds after the tick before it, or after the start. */
  predicate GapOk(window: nat, start: int, ticks: seq<int>, k: nat)
    requires k < |ticks|
  {
    ticks[k] - (if k == 0 then start else ticks[k - 1]) <= window + 1
  }

  predicate GapsOk(window: nat, start: int, ticks: seq<int>) {
    forall k :: 0 <= k < |ticks| ==> GapOk(window, start, ticks, k)
  }

  predicate InOrder(ss: seq<Sample>) {
    forall i, j :: 0 <= i < j < |ss| ==> ss[i].ts <= ss[j].ts
  }

  // ------------------------------------------- splitting an ordered buffer

  /** The last sample goes to exactly one of the three parts. */
  lemma SplitLast(ss: seq<Sample>, front: seq<Sample>, x: Sample, last: int, window: nat)
    requires ss == front + [x]
    ensures Late(ss, last) == (if x.ts < last then Late(front, last) + [x] else Late(front, last))
    ensures Due(ss, last, window) ==
              if last <= x.ts <= last + window then Due(front, last, window) + [x] else Due(front, last, window)
    ensures Ahead(ss, last, window) ==
              if x.ts > last + window then Ahead(front, last, window) + [x] else Ahead(front, last, window)
  {
    assert ss[..|ss| - 1] == front;
  }

  lemma {:induction false} NothingLate(ss: seq<Sample>, last: int)
    requires forall s :: s in ss ==> s.ts >= last
    ensures Late(ss, last) == []
  {
    if ss != [] {
      assert ss[|ss| - 1] in ss;
      NothingLate(ss[..|ss| - 1], last);
    }
  }

  /** The first `|d|` samples are those inside the window. */
  predicate CutAt(ss: seq<Sample>, d: seq<Sample>, a: seq<Sample>, end: int) {
    d + a == ss && (forall k :: 0 <= k < |d| ==> d[k].ts <= end) && (forall k :: 0 <= k < |a| ==> a[k].ts > end)
  }

  /** Without late samples an ordered buffer is cut in two; the cut is where the window ends. */
  lemma {:induction false} CutAtWindow(ss: seq<Sample>, last: int, window: nat)
    requires InOrder(ss) && forall s :: s in ss ==> s.ts >= last
    ensures CutAt(ss, Due(ss, last, window), Ahead(ss, last, window), last + window)
  {
    if ss != [] {
      var front, x := ss[..|ss| - 1], ss[|ss| - 1];
      assert x in ss && ss == front + [x];
      assert forall s :: s in front ==> s in ss;
      CutAtWindow(front, last, window);
      SplitLast(ss, front, x, last, window);
      CutNext(ss, front, x, Due(front, last, window), Ahead(front, last, window), last + window);
    }
  }

  lemma CutNext(ss: seq<Sample>, front: seq<Sample>, x: Sample, d: seq<Sample>, a: seq<Sample>, end: int)
    requires ss == front + [x] && InOrder(ss) && CutAt(front, d, a, end)
    ensures x.ts <= end ==> a == [] && CutAt(ss, d + [x], a, end)
    ensures x.ts > end ==> CutAt(ss, d, a + [x], end)
  {
    assert d + (a + [x]) == ss && ss[|ss| - 1] == x;
    if a != [] {
      assert a[0] == ss[|d|] && ss[|d|].ts <= ss[|ss| - 1].ts;
    } else {
      assert d + [x] + a == ss;
    }
  }

  lemma {:induction false} AheadSubset(ss: seq<Sample>, last: int, window: nat, x: Sample)
    ensures x in Ahead(ss, last, window) <==> x in ss && x.ts > last + window
  {
    if ss != [] {
      AheadSubset(ss[..|ss| - 1], last, window, x);
      assert ss == ss[..|ss| - 1] + [ss[|ss| - 1]];
    }
  }

  // ------------------------------------------------------------ whole runs

  lemma LastTick(window: nat, start: int, es: seq<Event>)
    ensures Run(window, start, es).last == if Ticks(es) == [] then start else Ticks(es)[|Ticks(es)| - 1]
  {
    if es != [] { LastTick(window, start, es[..|es| - 1]); }
  }

  lemma FlatAppend(bs: seq<seq<Sample>>, d: seq<Sample>)
    ensures Flat(bs + [d]) == Flat(bs) + d
  {
    assert (bs + [d])[..|bs|] == bs;
  }

  /** What holds of the buffer after `arrivals`, at time `clock`, when the ticks come often enough. */
  ghost predicate Holding(b: Buffer, arrivals: seq<Sample>, clock: int) {
    && Flat(b.batches) + b.samples == arrivals && b.dropped == []
    && InOrder(b.samples)
    && (forall s :: s in b.samples ==> b.last <= s.ts <= clock)
    && b.last <= clock
  }

  ghost predicate Sound(window: nat, start: int, es: seq<Event>) {
    Holding(Run(window, start, es), Arrivals(es), Clock(start, es))
  }

  lemma HoldingArrive(b: Buffer, window: nat, arrivals: seq<Sample>, clock: int, s: Sample)
    requires Holding(b, arrivals, clock) && clock <= s.ts
    ensures Holding(Next(b, window, Arrive(s)), arrivals + [s], s.ts)
  {
    assert Flat(b.batches) + (b.samples + [s]) == Flat(b.batches) + b.samples + [s];
    forall i | 0 <= i < |b.samples| ensures b.samples[i].ts <= s.ts { assert b.samples[i] in b.samples; }
  }

  lemma TailInOrder(ss: seq<Sample>, d: seq<Sample>, a: seq<Sample>)
    requires d + a == ss && InOrder(ss)
    ensures InOrder(a)
  {
    forall i, j | 0 <= i < j < |a| ensures a[i].ts <= a[j].ts {
      assert a[i] == ss[|d| + i] && a[j] == ss[|d| + j];
    }
  }

  /** The samples left after a tick `now` within reach of the previous one all bear the time `now`. */
  lemma LeftOver(ss: seq<Sample>, last: int, window: nat, clock: int, now: int)
    requires (forall s :: s in ss ==> last <= s.ts <= clock) && clock <= now <= last + window + 1
    ensures forall s :: s in Ahead(ss, last, window) ==> s.ts == now
  {
    forall s | s in Ahead(ss, last, window) ensures s.ts == now { AheadSubset(ss, last, window, s); }
  }

  lemma HoldingTick(b: Buffer, window: nat, arrivals: seq<Sample>, clock: int, now: int)
    requires Holding(b, arrivals, clock) && clock <= now <= b.last + window + 1
    ensures Holding(Next(b, window, Tick(now)), arrivals, now)
  {
    var d, a := Due(b.samples, b.last, window), Ahead(b.samples, b.last, window);
    CutAtWindow(b.samples, b.last, window);
    NothingLate(b.samples, b.last);
    TailInOrder(b.samples, d, a);
    LeftOver(b.samples, b.last, window, clock, now);
    FlatAppend(b.batches, d);
    assert b.dropped + Late(b.samples, b.last) == [];
    AfterTick(b, arrivals, clock, now, d, a);
  }

  lemma AfterTick(b: Buffer, arrivals: seq<Sample>, clock: int, now: int, d: seq<Sample>, a: seq<Sample>)
    requires Holding(b, arrivals, clock) && d + a == b.samples && InOrder(a)
    requires Flat(b.batches + [d]) == Flat(b.batches) + d
    requires forall s :: s in a ==> s.ts == now
    ensures Holding(Buffer(a, now, b.batches + [d], []), arrivals, now)
  {
    assert Flat(b.batches) + d + a == Flat(b.batches) + (d + a);
  }

  lemma GapsOfFront(window: nat, start: int, es: seq<Event>)
    requires es != [] && GapsOk(window, start, Ticks(es))
    ensures GapsOk(window, start, Ticks(es[..|es| - 1]))
    ensures es[|es| - 1].Tick? ==> es[|es| - 1].now - Run(window, start, es[..|es| - 1]).last <= window + 1
  {
    var front := Ticks(es[..|es| - 1]);
    forall k | 0 <= k < |front| ensures GapOk(window, start, front, k) { assert GapOk(window, start, Ticks(es), k); }
    LastTick(window, start, es[..|es| - 1]);
    if es[|es| - 1].Tick? { assert GapOk(window, start, Ticks(es), |front|); }
  }

  /**
   * Exactly once, in order: with tick gaps of at most `window + 1` seconds, the batches handed out so
   * far followed by the buffer are the samples received so far, and none was dropped.
   */
  lemma {:induction false} ExactlyOnce(window: nat, start: int, es: seq<Event>)
    requires Monotone(start, es) && GapsOk(window, start, Ticks(es))
    ensures Sound(window, start, es)
  {
    if es != [] {
      GapsOfFront(window, start, es);
      ExactlyOnce(window, start, es[..|es| - 1]);
      var b, seen, clock := Run(window, start, es[..|es| - 1]), Arrivals(es[..|es| - 1]), Clock(start, es[..|es| - 1]);
      match es[|es| - 1]
      case Arrive(s) => HoldingArrive(b, window, seen, clock, s);
      case Tick(now) => HoldingTick(b, window, seen, clock, now);
    }
  }

  // ------------------------------------------------- which tick delivers it

  function Delivered(window: nat, start: int, es: seq<Event>): nat {
    |Flat(Run(window, start, es).batches)|
  }

  /** One of the ticks of `es[p + 1..q]` was preceded by a tick no earlier than `window` before the sample. */
  ghost predicate DueTickBetween(window: nat, start: int, es: seq<Event>, p: nat, q: nat)
    requires p < q <= |es| && es[p].Arrive?
  {
    exists r :: p < r < q && DueTick(window, start, es, p, r)
  }

  ghost predicate DueTick(window: nat, start: int, es: seq<Event>, p: nat, r: nat)
    requires p < r < |es| && es[p].Arrive?
  {
    es[r].Tick? && Run(window, start, es[..r]).last >= es[p].sample.ts - window
  }

  lemma {:induction false} PrefixMonotone(window: nat, start: int, es: seq<Event>, q: nat)
    requires q <= |es| && Monotone(start, es) && GapsOk(window, start, Ticks(es))
    ensures Monotone(start, es[..q]) && GapsOk(window, start, Ticks(es[..q]))
  {
    if q == |es| {
      assert es[..q] == es;
    } else {
      GapsOfFront(window, start, es);
      PrefixMonotone(window, start, es[..|es| - 1], q);
      assert es[..|es| - 1][..q] == es[..q];
    }
  }

  lemma {:induction false} ArrivalAt(es: seq<Event>, p: nat, q: nat)
    requires p < q <= |es| && es[p].Arrive?
    ensures |Arrivals(es[..p])| < |Arrivals(es[..q])| && Arrivals(es[..q])[|Arrivals(es[..p])|] == es[p].sample
  {
    assert es[..q][..q - 1] == es[..q - 1];
    if q > p + 1 { ArrivalAt(es, p, q - 1); }
  }

  /**
   * The sample that arrives as event `p` has been handed out before event `q` exactly when one of the
   * ticks in between found its time within the window of the tick before. So the first such tick hands it
   * out, and no other.
   */
  lemma {:induction false} DeliveredIffDueTick(window: nat, start: int, es: seq<Event>, p: nat, q: nat)
    requires Monotone(start, es) && GapsOk(window, start, Ticks(es)) && p < q <= |es| && es[p].Arrive?
    ensures |Arrivals(es[..p])| < Delivered(window, start, es[..q]) <==> DueTickBetween(window, start, es, p, q)
    decreases q
  {
    assert es[..q][..q - 1] == es[..q - 1];
    if q == p + 1 {
      PrefixMonotone(window, start, es, p);
      ExactlyOnce(window, start, es[..p]);
    } else {
      DeliveredIffDueTick(window, start, es, p, q - 1);
      DueTickStep(window, start, es, p, q);
      if es[q - 1].Tick? { TickDelivers(window, start, es, p, q); }
    }
  }

  lemma DueTickStep(window: nat, start: int, es: seq<Event>, p: nat, q: nat)
    requires p < q - 1 < q <= |es| && es[p].Arrive?
    ensures DueTickBetween(window, start, es, p, q) <==>
            DueTickBetween(window, start, es, p, q - 1) || DueTick(window, start, es, p, q - 1)
  {
    if DueTickBetween(window, start, es, p, q) {
      var r :| p < r < q && DueTick(window, start, es, p, r);
      assert r == q - 1 || r < q - 1;
    }
  }

  /** A tick hands out the `i`-th sample received exactly when it is in the window, unless that has happened before. */
  lemma TickHandsOut(b: Buffer, window: nat, arrivals: seq<Sample>, clock: int, now: int, i: nat)
    requires Holding(b, arrivals, clock) && i < |arrivals|
    ensures var b' := Next(b, window, Tick(now));
            i < |Flat(b'.batches)| <==> i < |Flat(b.batches)| || b.last >= arrivals[i].ts - window
  {
    CutAtWindow(b.samples, b.last, window);
    FlatAppend(b.batches, Due(b.samples, b.last, window));
    var done, d, a := Flat(b.batches), Due(b.samples, b.last, window), Ahead(b.samples, b.last, window);
    if i >= |done| {
      assert arrivals[i] == b.samples[i - |done|];
      if i - |done| < |d| {
        assert b.samples[i - |done|] == d[i - |done|];
      } else {
        assert b.samples[i - |done|] == a[i - |done| - |d|];
      }
    }
  }

  lemma TickDelivers(window: nat, start: int, es: seq<Event>, p: nat, q: nat)
    requires Monotone(start, es) && GapsOk(window, start, Ticks(es)) && p < q - 1 < q <= |es| && es[p].Arrive?
    requires es[q - 1].Tick?
    ensures var i := |Arrivals(es[..p])|;
            i < Delivered(window, start, es[..q]) ==>
            i < Delivered(window, start, es[..q - 1]) || DueTick(window, start, es, p, q - 1)
    ensures var i := |Arrivals(es[..p])|;
            i < Delivered(window, start, es[..q - 1]) || DueTick(window, start, es, p, q - 1) ==>
            i < Delivered(window, start, es[..q])
  {
    assert es[..q][..q - 1] == es[..q - 1];
    PrefixMonotone(window, start, es, q - 1);
    ExactlyOnce(window, start, es[..q - 1]);
    ArrivalAt(es, p, q - 1);
    TickHandsOut(Run(window, start, es[..q - 1]), window, Arrivals(es[..q - 1]), Clock(start, es[..q - 1]),
                 es[q - 1].now, |Arrivals(es[..p])|);
  }

  // -------------------------------------------- the bound on gaps is exact

  ghost predicate LosesNothing(window: nat, start: int, ticks: seq<int>) {
    forall es :: Monotone(start, es) && Ticks(es) == ticks ==> Run(window, start, es).dropped == []
  }

  predicate Rising(start: int, ticks: seq<int>) {
    && (ticks != [] ==> start <= ticks[0])
    && forall i, j :: 0 <= i < j < |ticks| ==> ticks[i] <= ticks[j]
  }

  /** All gaps except the last are short enough; a sample lost in the last gap would be dropped by a later tick. */
  predicate EarlierGapsOk(window: nat, start: int, ticks: seq<int>) {
    forall k :: 0 <= k < |ticks| - 1 ==> GapOk(window, start, ticks, k)
  }

  lemma {:induction false} ShortGapsLoseNothing(window: nat, start: int, es: seq<Event>)
    requires Monotone(start, es) && EarlierGapsOk(window, start, Ticks(es))
    ensures Run(window, start, es).dropped == []
  {
    if es != [] {
      var front := es[..|es| - 1];
      if es[|es| - 1].Arrive? {
        assert Ticks(es) == Ticks(front);
        ShortGapsLoseNothing(window, start, front);
      } else {
        forall k | 0 <= k < |Ticks(front)| ensures GapOk(window, start, Ticks(front), k) {
          assert GapOk(window, start, Ticks(es), k);
        }
        ExactlyOnce(window, start, front);
        NothingLate(Run(window, start, front).samples, Run(window, start, front).last);
      }
    }
  }

  function OnlyTicks(ticks: seq<int>): seq<Event> {
    seq(|ticks|, k requires 0 <= k < |ticks| => Tick(ticks[k]))
  }

  /** One sample that arrives before tick `k`, among the ticks alone. */
  function OneSample(ticks: seq<int>, k: nat, s: Sample): seq<Event>
    requires k <= |ticks|
  {
    OnlyTicks(ticks[..k]) + [Arrive(s)] + OnlyTicks(ticks[k..])
  }

  /** The first `n` events of that run. */
  lemma OneSamplePrefix(ticks: seq<int>, k: nat, s: Sample, n: nat)
    requires k <= |ticks| && n < |ticks| + 1
    ensures |OneSample(ticks, k, s)| == |ticks| + 1
    ensures OneSample(ticks, k, s)[n] ==
            if n < k then Tick(ticks[n]) else if n == k then Arrive(s) else Tick(ticks[n - 1])
  {
  }

  lemma {:induction false} OneSampleTicks(ticks: seq<int>, k: nat, s: Sample, n: nat)
    requires k <= |ticks| && n <= |ticks| + 1
    ensures |OneSample(ticks, k, s)| == |ticks| + 1
    ensures Ticks(OneSample(ticks, k, s)[..n]) == ticks[..if n <= k then n else n - 1]
  {
    var es := OneSample(ticks, k, s);
    if n > 0 {
      OneSamplePrefix(ticks, k, s, n - 1);
      OneSampleTicks(ticks, k, s, n - 1);
      assert es[..n][..n - 1] == es[..n - 1];
    }
  }

  lemma {:induction false} OneSampleMonotone(start: int, ticks: seq<int>, k: nat, s: Sample, n: nat)
    requires Rising(start, ticks) && k < |ticks| && n <= |ticks| + 1
    requires (if k == 0 then start else ticks[k - 1]) <= s.ts <= ticks[k]
    ensures |OneSample(ticks, k, s)| == |ticks| + 1
    ensures Monotone(start, OneSample(ticks, k, s)[..n])
  {
    var es := OneSample(ticks, k, s);
    if n > 0 {
      OneSamplePrefix(ticks, k, s, n - 1);
      OneSampleMonotone(start, ticks, k, s, n - 1);
      assert es[..n][..n - 1] == es[..n - 1];
      if n > 1 { OneSamplePrefix(ticks, k, s, n - 2); }
    }
  }

  /** Before the sample arrives the buffer stays empty. */
  lemma {:induction false} EmptyUntilArrival(window: nat, start: int, ticks: seq<int>, k: nat, s: Sample, n: nat)
    requires k <= |ticks| && n <= k
    ensures |OneSample(ticks, k, s)| == |ticks| + 1
    ensures Run(window, start, OneSample(ticks, k, s)[..n]).samples == []
  {
    var es := OneSample(ticks, k, s);
    if n > 0 {
      OneSamplePrefix(ticks, k, s, n - 1);
      EmptyUntilArrival(window, start, ticks, k, s, n - 1);
      assert es[..n][..n - 1] == es[..n - 1];
    }
  }

  lemma {:induction false} DroppedStays(window: nat, start: int, es: seq<Event>, n: nat)
    requires n <= |es| && Run(window, start, es[..n]).dropped != []
    ensures Run(window, start, es).dropped != []
  {
    if n == |es| {
      assert es[..n] == es;
    } else {
      assert es[..|es| - 1][..n] == es[..n];
      DroppedStays(window, start, es[..|es| - 1], n);
    }
  }

  /** A gap of `window + 2` seconds or more loses a sample, unless it is the last one. */
  lemma LongGapLoses(window: nat, start: int, ticks: seq<int>, k: nat) returns (es: seq<Event>)
    requires Rising(start, ticks) && k < |ticks| - 1 && !GapOk(window, start, ticks, k)
    ensures Monotone(start, es) && Ticks(es) == ticks && Run(window, start, es).dropped != []
  {
    var s := Sample([], "", "", (if k == 0 then start else ticks[k - 1]) + window + 1);
    es := OneSample(ticks, k, s);
    OneSampleTicks(ticks, k, s, |ticks| + 1);
    OneSampleMonotone(start, ticks, k, s, |ticks| + 1);
    assert es[..|ticks| + 1] == es && ticks[..|ticks|] == ticks;
    SampleDropped(window, start, ticks, k, s);
    DroppedStays(window, start, es, k + 3);
  }

  lemma RunNext(window: nat, start: int, es: seq<Event>, n: nat)
    requires n < |es|
    ensures Run(window, start, es[..n + 1]) == Next(Run(window, start, es[..n]), window, es[n])
  {
    assert es[..n + 1][..n] == es[..n];
  }

  lemma SingleSplit(s: Sample, last: int, window: nat)
    ensures s.ts > last + window ==> Ahead([s], last, window) == [s]
    ensures s.ts < last ==> Late([s], last) == [s]
  {
    assert [s][..0] == [];
  }

  lemma SampleDropped(window: nat, start: int, ticks: seq<int>, k: nat, s: Sample)
    requires k < |ticks| - 1 && (if k == 0 then start else ticks[k - 1]) + window < s.ts < ticks[k]
    ensures |OneSample(ticks, k, s)| == |ticks| + 1
    ensures Run(window, start, OneSample(ticks, k, s)[..k + 3]).dropped != []
  {
    var es := OneSample(ticks, k, s);
    BeforeArrival(window, start, ticks, k, s);
    OneSamplePrefix(ticks, k, s, k + 1);
    OneSamplePrefix(ticks, k, s, k + 2);
    RunNext(window, start, es, k + 1);
    RunNext(window, start, es, k + 2);
    SingleSplit(s, if k == 0 then start else ticks[k - 1], window);
    SingleSplit(s, ticks[k], window);
  }

  lemma BeforeArrival(window: nat, start: int, ticks: seq<int>, k: nat, s: Sample)
    requires k < |ticks|
    ensures |OneSample(ticks, k, s)| == |ticks| + 1
    ensures var b := Run(window, start, OneSample(ticks, k, s)[..k + 1]);
            b.samples == [s] && b.last == if k == 0 then start else ticks[k - 1]
  {
    var es := OneSample(ticks, k, s);
    EmptyUntilArrival(window, start, ticks, k, s, k);
    OneSampleTicks(ticks, k, s, k);
    LastTick(window, start, es[..k]);
    OneSamplePrefix(ticks, k, s, k);
    RunNext(window, start, es, k);
  }

  /** No pattern of arrivals loses a sample exactly when all gaps but the last are at most `window + 1`. */
  lemma NoLossIffGapsShort(window: nat, start: int, ticks: seq<int>)
    requires Rising(start, ticks)
    ensures LosesNothing(window, start, ticks) <==> EarlierGapsOk(window, start, ticks)
  {
    if EarlierGapsOk(window, start, ticks) {
      forall es | Monotone(start, es) && Ticks(es) == ticks ensures Run(window, start, es).dropped == [] {
        ShortGapsLoseNothing(window, start, es);
      }
    } else {
      var k :| 0 <= k < |ticks| - 1 && !GapOk(window, start, ticks, k);
      var es := LongGapLoses(window, start, ticks, k);
    }
  }

  // ------------------------------------------------------------ conservation

  lemma Joined(a: seq<Sample>, x: Sample)
    ensures multiset(a + [x]) == multiset(a) + multiset{x}
  {
  }

  /** `l`, `d` and `a` share out the samples of `ss`. */
  predicate SharedOut(l: seq<Sample>, d: seq<Sample>, a: seq<Sample>, ss: seq<Sample>) {
    multiset(l) + multiset(d) + multiset(a) == multiset(ss)
  }

  lemma {:induction false} SplitConserves(ss: seq<Sample>, last: int, window: nat)
    ensures SharedOut(Late(ss, last), Due(ss, last, window), Ahead(ss, last, window), ss)
  {
    if ss != [] {
      var front, x := ss[..|ss| - 1], ss[|ss| - 1];
      SplitConserves(front, last, window);
      assert ss == front + [x];
      SplitLast(ss, front, x, last, window);
      var l, d, a := Late(front, last), Due(front, last, window), Ahead(front, last, window);
      if x.ts < last {
        OneMore(l, d, a, front, x);
      } else if x.ts <= last + window {
        OneMore(d, l, a, front, x);
        Swapped(d + [x], l, a, ss);
      } else {
        OneMore(a, l, d, front, x);
        Swapped(a + [x], l, d, ss);
      }
    }
  }

  lemma OneMore(l: seq<Sample>, d: seq<Sample>, a: seq<Sample>, ss: seq<Sample>, x: Sample)
    requires SharedOut(l, d, a, ss) || SharedOut(d, l, a, ss) || SharedOut(d, a, l, ss)
    ensures SharedOut(l + [x], d, a, ss + [x])
  {
    Joined(ss, x);
    Joined(l, x);
  }

  lemma Swapped(l: seq<Sample>, d: seq<Sample>, a: seq<Sample>, ss: seq<Sample>)
    requires SharedOut(l, d, a, ss)
    ensures SharedOut(d, l, a, ss) && SharedOut(d, a, l, ss)
  {
  }

  /** Whatever the clock and the ticks do, every sample received is handed out, still buffered or dropped, once. */
  lemma {:induction false} Conservation(window: nat, start: int, es: seq<Event>)
    ensures var b := Run(window, start, es);
            multiset(Flat(b.batches)) + multiset(b.samples) + multiset(b.dropped) == multiset(Arrivals(es))
  {
    if es != [] {
      Conservation(window, start, es[..|es| - 1]);
      var b := Run(window, start, es[..|es| - 1]);
      if es[|es| - 1].Tick? {
        SplitConserves(b.samples, b.last, window);
        FlatAppend(b.batches, Due(b.samples, b.last, window));
      }
    }
  }

  // ------------------------------------------------------------- validation

  datatype Fault = NoVault | BadNonce | BadValue | NotOpened | Different

  /** What `validateNonce` returns: nothing, or why the sample is invalid. */
  function ValidateNonce(suite: Suite, vault: Option<Member>, s: Sample): Option<Fault> {
    match vault
    case None => Some(NoVault)
    case Some(m) =>
      match Hex.Decode(s.nonce)
      case None => Some(BadNonce)
      case Some(nonce) =>
        match Hex.Decode(s.box)
        case None => Some(BadValue)
        case Some(box) =>
          match Unseal(suite, m, box)
          case Err(_) => Some(NotOpened)
          case Ok(d) => if d == nonce then None else Some(Different)
  }

  /** What a node reports about itself: a nonce and the nonce sealed; without a key, nothing. */
  function LocalHeartBeat(suite: Suite, vault: Option<Member>, nonce: Bytes, random: Bytes): Result<Option<Beat>> {
    match vault
    case None => Ok(None)
    case Some(m) =>
      match Seal(suite, m, random, nonce)
      case Err(e) => Err(e)
      case Ok(box) => Ok(Some(Beat(Hex.Encode(nonce), Hex.Encode(box))))
  }

  /** An honest beat is valid for a node exactly when the node holds the key the beat was sealed with. */
  lemma HonestBeatValidIffSameKey(suite: Suite, i: Name, key: Bytes, j: Name, key': Bytes, nonce: Bytes,
                                  random: Bytes, ts: int)
    requires Ideal(suite) && |key| == KEY_SIZE && |key'| == KEY_SIZE
    ensures var r := LocalHeartBeat(suite, Some(FileFor(j, key')), nonce, random);
            && r.Ok? && r.value.Some?
            && var sample := Sample(j, r.value.value.nonce, r.value.value.value, ts);
               ValidateNonce(suite, Some(FileFor(i, key)), sample) == None <==> key == key'
  {
    UnsealIffSameKey(suite, j, key', i, key, random, nonce);
    Hex.RoundTrip(nonce);
    Hex.RoundTrip(Seal(suite, FileFor(j, key'), random, nonce).value);
  }

  // ------------------------------------------------------------- statistics

  datatype Stat = Stat(total: nat, errors: nat)

  /** What the listener is given: the length of the window in seconds and the statistics. */
  datatype Window = Window(window: nat, stats: map<Name, Stat>)

  function Count(data: seq<Sample>, id: Name): nat {
    if data == [] then 0 else Count(data[..|data| - 1], id) + (if data[|data| - 1].id == id then 1 else 0)
  }

  function CountInvalid(suite: Suite, vault: Option<Member>, data: seq<Sample>, id: Name): nat {
    if data == [] then 0
    else
      var s := data[|data| - 1];
      var one := if s.id == id && ValidateNonce(suite, vault, s).Some? then 1 else 0;
      CountInvalid(suite, vault, data[..|data| - 1], id) + one
  }

  ghost function Ids(data: seq<Sample>): set<Name> {
    set k | 0 <= k < |data| :: data[k].id
  }

  /** The statistics of a batch: an entry for each peer heard of, with its samples and its invalid samples. */
  ghost predicate StatsOf(suite: Suite, vault: Option<Member>, data: seq<Sample>, stats: map<Name, Stat>) {
    && stats.Keys == Ids(data)
    && forall id :: id in stats ==> stats[id] == Stat(Count(data, id), CountInvalid(suite, vault, data, id))
  }

  lemma {:induction false} CountZero(suite: Suite, vault: Option<Member>, data: seq<Sample>, id: Name)
    requires id !in Ids(data)
    ensures Count(data, id) == 0 && CountInvalid(suite, vault, data, id) == 0
  {
    if data != [] {
      assert data[|data| - 1].id in Ids(data);
      forall x | x in Ids(data[..|data| - 1]) ensures x in Ids(data) {
        var k :| 0 <= k < |data| - 1 && data[..|data| - 1][k].id == x;
        assert data[k].id == x;
      }
      CountZero(suite, vault, data[..|data| - 1], id);
    }
  }

  /** The sum of the totals over a set of peers. */
  ghost function SumTotals(ids: set<Name>, data: seq<Sample>): nat {
    if ids == {} then 0 else var x := Least(ids); Count(data, x) + SumTotals(ids - {x}, data)
  }

  lemma {:induction false} SumOne(ids: set<Name>, data: seq<Sample>)
    requires data != []
    ensures SumTotals(ids, data) == SumTotals(ids, data[..|data| - 1]) + (if data[|data| - 1].id in ids then 1 else 0)
  {
    if ids != {} { SumOne(ids - {Least(ids)}, data); }
  }

  lemma {:induction false} SumEmpty(ids: set<Name>)
    ensures SumTotals(ids, []) == 0
  {
    if ids != {} { SumEmpty(ids - {Least(ids)}); }
  }

  lemma {:induction false} CountsSum(ids: set<Name>, data: seq<Sample>)
    requires Ids(data) <= ids
    ensures SumTotals(ids, data) == |data|
  {
    if data == [] {
      SumEmpty(ids);
    } else {
      forall x | x in Ids(data[..|data| - 1]) ensures x in Ids(data) {
        var k :| 0 <= k < |data| - 1 && data[..|data| - 1][k].id == x;
        assert data[k].id == x;
      }
      assert data[|data| - 1].id in Ids(data);
      CountsSum(ids, data[..|data| - 1]);
      SumOne(ids, data);
    }
  }

  ghost function SumStats(stats: map<Name, Stat>, ids: set<Name>): nat
    requires ids <= stats.Keys
  {
    if ids == {} then 0 else var x := Least(ids); stats[x].total + SumStats(stats, ids - {x})
  }

  lemma {:induction false} StatsSum(suite: Suite, vault: Option<Member>, data: seq<Sample>, stats: map<Name, Stat>,
                                    ids: set<Name>)
    requires StatsOf(suite, vault, data, stats) && ids <= stats.Keys
    ensures SumStats(stats, ids) == SumTotals(ids, data)
  {
    if ids != {} { StatsSum(suite, vault, data, stats, ids - {Least(ids)}); }
  }

  /** The totals of a window add up to the number of samples in it. */
  lemma TotalsSum(suite: Suite, vault: Option<Member>, data: seq<Sample>, stats: map<Name, Stat>)
    requires StatsOf(suite, vault, data, stats)
    ensures SumStats(stats, stats.Keys) == |data|
  {
    StatsSum(suite, vault, data, stats, stats.Keys);
    CountsSum(stats.Keys, data);
  }

  lemma IdsAppend(data: seq<Sample>, s: Sample)
    ensures Ids(data + [s]) == Ids(data) + {s.id}
  {
    var e := data + [s];
    forall x | x in Ids(e) ensures x in Ids(data) + {s.id} {
      var k :| 0 <= k < |e| && e[k].id == x;
      if k < |data| { assert data[k].id == x; }
    }
    forall x | x in Ids(data) + {s.id} ensures x in Ids(e) {
      if x == s.id { assert e[|data|].id == x; } else {
        var k :| 0 <= k < |data| && data[k].id == x;
        assert e[k].id == x;
      }
    }
  }

  /** One more sample in the statistics: an existing entry is counted up, a new one starts at one. */
  lemma OneMoreSample(suite: Suite, vault: Option<Member>, data: seq<Sample>, s: Sample, stats: map<Name, Stat>)
    requires StatsOf(suite, vault, data, stats)
    ensures var old_ := if s.id in stats then stats[s.id] else Stat(0, 0);
            var bad := if ValidateNonce(suite, vault, s).Some? then 1 else 0;
            StatsOf(suite, vault, data + [s], stats[s.id := Stat(old_.total + 1, old_.errors + bad)])
  {
    IdsAppend(data, s);
    assert (data + [s])[..|data|] == data;
    if s.id !in stats { CountZero(suite, vault, data, s.id); }
  }

  // ---------------------------------------------------------- the manager

  class HeartBeatManager {
    const window: nat
    const suite: Suite
    var samples: seq<Sample>
    var lastRunTs: int

    constructor (seconds: nat, s: Suite, now: int)
      ensures window == seconds && suite == s
      ensures Run(window, now, []) == Buffer(samples, lastRunTs, [], [])
    {
      window, suite := seconds, s;
      samples, lastRunTs := [], now;
    }

    method OnRemoteHeartBeat(peerId: Name, hb: Beat, now: int)
      modifies this`samples
      ensures Next(Buffer(old(samples), lastRunTs, [], []), window, Arrive(Sample(peerId, hb.nonce, hb.value, now))) ==
              Buffer(samples, lastRunTs, [], [])
    {
      samples := samples + [Sample(peerId, hb.nonce, hb.value, now)];
    }

    /** One tick: splits the buffer and returns the batch for `ProcessWindow`. */
    method OnTick(now: int) returns (data: seq<Sample>)
      modifies this
      ensures Next(Buffer(old(samples), old(lastRunTs), [], []), window, Tick(now)) ==
              Buffer(samples, lastRunTs, [data], Late(old(samples), old(lastRunTs)))
    {
      data := [];
      var kept: seq<Sample> := [];
      var k := 0;
      while k < |samples|
        invariant 0 <= k <= |samples|
        invariant data == Due(samples[..k], lastRunTs, window) && kept == Ahead(samples[..k], lastRunTs, window)
      {
        var s := samples[k];
        assert samples[..k + 1][..k] == samples[..k];
        if s.ts >= lastRunTs {
          if s.ts - lastRunTs <= window {
            data := data + [s];
          } else {
            kept := kept + [s];
          }
        }
        k := k + 1;
      }
      assert samples[..k] == samples;
      samples := kept;
      lastRunTs := now;
    }

    /** The window handed to the listener; a node that is not READY hands out none. */
    method ProcessWindow(data: seq<Sample>, ready: bool, vault: Option<Member>) returns (w: Option<Window>)
      ensures w.Some? <==> ready
      ensures ready ==> w.value.window == window && StatsOf(suite, vault, data, w.value.stats)
    {
      if !ready { return None; }
      var seen: map<Name, Stat> := map[];
      var k := 0;
      while k < |data|
        invariant 0 <= k <= |data|
        invariant StatsOf(suite, vault, data[..k], seen)
      {
        var hb := data[k];
        var bad := ValidateNonce(suite, vault, hb).Some?;
        OneMoreSample(suite, vault, data[..k], hb, seen);
        assert data[..k + 1] == data[..k] + [hb];
        if hb.id in seen {
          var ps := seen[hb.id];
          ps := ps.(total := ps.total + 1);
          if bad { ps := ps.(errors := ps.errors + 1); }
          seen := seen[hb.id := ps];
        } else {
          seen := seen[hb.id := Stat(1, if bad then 1 else 0)];
        }
        k := k + 1;
      }
      assert data[..k] == data;
      w := Some(Window(window, seen));
    }
  }
}
