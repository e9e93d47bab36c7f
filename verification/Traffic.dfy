/**
 * The seeding traffic is bounded: in a crash-free run of a fresh cluster with n seeds, at most
 * n * n - 1 key messages reach seeds, however many sends fail, because each send uses up one unit of
 * a potential that no step replenishes.
 */
module Traffic {
  import opened Basics
  import opened Names
  import opened Protocol
  import opened Invariant
  import opened Preserve
  import opened Agreement
  import opened CrashFree
  import opened Completion
  import Seed

  // ------------------------------------------------------------- potential

  function CountIn(l: seq<Name>, s: set<Name>): nat {
    if l == [] then 0 else (if l[0] in s then 1 else 0) + CountIn(l[1..], s)
  }

  lemma {:induction false} CountDistinct(l: seq<Name>, s: set<Name>)
    requires NoDup(l)
    ensures CountIn(l, s) == |ToSet(l) * s|
  {
    if l == [] {
      assert ToSet(l) * s == {};
    } else {
      CountDistinct(l[1..], s);
      assert l == [l[0]] + l[1..];
      assert l[0] !in l[1..];
      OneDistinct(l[0], ToSet(l[1..]), ToSet(l), s);
    }
  }

  lemma OneDistinct(x: Name, rest: set<Name>, all: set<Name>, s: set<Name>)
    requires x !in rest && all == {x} + rest
    ensures |all * s| == |rest * s| + (if x in s then 1 else 0)
  {
    if x in s { assert all * s == {x} + rest * s; } else { assert all * s == rest * s; }
  }

  ghost function Marked(r: Seed.Record): set<Name> {
    set j | j in r.exchange && r.exchange[j].sentTo
  }

  /** Forwards still possible from the record. */
  ghost function Unsent(c: Config, i: Name, r: Seed.Record): nat
    requires i in c.seedLists
  {
    if r == Seed.Wiped() then 0 else |ToSet(Others(c, i)) - Marked(r)|
  }

  /** Sends to seeds still possible in the first round. */
  ghost function FirstLeft(c: Config, seeds: set<Name>, i: Name, p: Proc): nat
    requires i in c.seedLists
  {
    match p.initial
    case NoInitial => 0
    case Spawned(_) => |Others(c, i)|
    case Sending(_, rest) => CountIn(rest, seeds)
  }

  ghost function Full(c: Config, seeds: set<Name>, i: Name): nat
    requires i in c.seedLists && seeds != {}
  {
    if i == Least(seeds) then 2 * |Others(c, i)| else |Others(c, i)|
  }

  ghost function Pot(c: Config, seeds: set<Name>, i: Name, n: Node): nat
    requires i in c.seedLists && seeds != {}
  {
    if !Begun(n) then Full(c, seeds, i)
    else Unsent(c, i, n.proc.value.seed) + FirstLeft(c, seeds, i, n.proc.value)
  }

  /** The step sends a key message to a seed, successfully. */
  ghost predicate Costs(c: Config, seeds: set<Name>, i: Name, n: Node, l: Label)
    requires i in c.seedLists && LocalEnabled(c, i, n, l)
  {
    var st := LocalStep(c, i, n, l);
    st.Step? && st.out.Send? && st.out.body.KeyInit? && st.out.dst in seeds
  }

  function Unit(b: bool): nat {
    if b then 1 else 0
  }

  ghost predicate UniqueMembers(n: Node) {
    n.proc.Some? ==> NoDup(n.proc.value.seed.members)
  }

  lemma UnsentBound(c: Config, i: Name, r: Seed.Record)
    requires i in c.seedLists
    ensures Unsent(c, i, r) <= |Others(c, i)|
  {
    OthersNoDup(c, i);
    NoDupCardinality(Others(c, i));
    SubsetSize(ToSet(Others(c, i)) - Marked(r), ToSet(Others(c, i)));
  }

  lemma {:induction false} WithoutNoDup(members: seq<Name>, i: Name)
    requires NoDup(members)
    ensures NoDup(Without(members, i))
  {
    if members != [] {
      WithoutNoDup(members[1..], i);
      WithoutSelf(members[1..], i);
      assert members[0] !in members[1..];
    }
  }

  lemma MembersBound(c: Config, seeds: set<Name>, i: Name, members: seq<Name>)
    requires i in c.seedLists && c.seedLists[i] == seeds && i != [] && NoDup(members) && i !in members
    ensures CountIn(members, seeds) <= |Others(c, i)|
  {
    CountDistinct(members, seeds);
    OthersNoDup(c, i);
    NoDupCardinality(Others(c, i));
    assert ToSet(members) * seeds <= ToSet(Others(c, i)) by {
      assert Added([i]) == {i};
    }
    SubsetSize(ToSet(members) * seeds, ToSet(Others(c, i)));
  }

  // ------------------------------------------------------------- node steps

  lemma BeginPot(c: Config, seeds: set<Name>, i: Name, n: Node, p: Proc, members: seq<Name>, key: Bytes)
    requires i in c.seedLists && seeds != {} && n.proc == Some(p) && p.initial == NoInitial
    requires !Begun(n) && NoDup(members)
    ensures var st := BeginSeeding(n, p, i, members, key, i == Least(seeds));
            st.Step? && st.out == Silent && Pot(c, seeds, i, st.node) <= Pot(c, seeds, i, n) && UniqueMembers(st.node)
  {
    WithoutNoDup(members, i);
    UnsentBound(c, i, BeginSeeding(n, p, i, members, key, i == Least(seeds)).node.proc.value.seed);
  }

  lemma PotStartSeed(c: Config, seeds: set<Name>, i: Name, n: Node, l: Label)
    requires FreshCluster(c, seeds) && i in c.names && i in seeds && n.proc.Some? && Dormant(c, i, n, n.proc.value)
    requires !Begun(n) && l.StartSeed? && ProcEnabled(c, i, n, n.proc.value, l)
    ensures var n' := NextNode(c, i, n, l);
            Pot(c, seeds, i, n') <= Pot(c, seeds, i, n) && UniqueMembers(n') && !Costs(c, seeds, i, n, l)
  {
    StartSeedFacts(c, seeds, i, n, l);
    OtherwiseSilent(c, i, n, l);
    BeginPot(c, seeds, i, n, n.proc.value, l.members, l.key);
  }

  lemma PotInitialStart(c: Config, seeds: set<Name>, i: Name, n: Node, q: Proc)
    requires i in c.seedLists && c.seedLists[i] == seeds && i != [] && seeds != {} && Begun(n) && UniqueMembers(n)
    requires n.proc.value.initial.Spawned? && i !in n.proc.value.seed.members
    requires q == n.proc.value.(initial := Sending(n.proc.value.initial.key, n.proc.value.seed.members))
    ensures Pot(c, seeds, i, n.(proc := Some(q))) <= Pot(c, seeds, i, n) && UniqueMembers(n.(proc := Some(q)))
  {
    MembersBound(c, seeds, i, n.proc.value.seed.members);
  }

  lemma PotInitialPeer(c: Config, seeds: set<Name>, i: Name, n: Node, q: Proc)
    requires i in c.seedLists && seeds != {} && Begun(n) && UniqueMembers(n)
    requires n.proc.value.initial.Sending? && n.proc.value.initial.rest != []
    requires q == n.proc.value.(initial := Sending(n.proc.value.initial.key, n.proc.value.initial.rest[1..]))
    ensures Pot(c, seeds, i, n.(proc := Some(q))) + Unit(n.proc.value.initial.rest[0] in seeds) == Pot(c, seeds, i, n)
    ensures UniqueMembers(n.(proc := Some(q)))
  {
  }

  lemma MarkOne(r: Seed.Record, peer: Name, mark: bool)
    ensures Marked(Seed.ForwardOne(r, peer, mark)) == if mark then Marked(r) + {peer} else Marked(r)
  {
    var r' := Seed.ForwardOne(r, peer, mark);
    forall j ensures j in Marked(r') <==> j in (if mark then Marked(r) + {peer} else Marked(r)) {}
  }

  lemma UnsentForward(c: Config, i: Name, r: Seed.Record, peer: Name, mark: bool)
    requires i in c.seedLists && r != Seed.Wiped() && peer in Others(c, i) && (mark ==> !Seed.SentTo(r, peer))
    requires Seed.ForwardOne(r, peer, mark) != Seed.Wiped()
    ensures Unsent(c, i, Seed.ForwardOne(r, peer, mark)) + Unit(mark) == Unsent(c, i, r)
  {
    MarkOne(r, peer, mark);
    var all, r' := ToSet(Others(c, i)), Seed.ForwardOne(r, peer, mark);
    assert peer in all;
    if mark {
      assert peer !in Marked(r);
      assert all - Marked(r) == (all - Marked(r')) + {peer};
    }
  }

  lemma PotForwardPeer(c: Config, seeds: set<Name>, i: Name, n: Node, q: Proc, peer: Name, mark: bool)
    requires i in c.seedLists && seeds != {} && Begun(n) && UniqueMembers(n)
    requires n.proc.value.seed != Seed.Wiped() && peer in Others(c, i)
    requires mark ==> !Seed.SentTo(n.proc.value.seed, peer)
    requires q.seed == Seed.ForwardOne(n.proc.value.seed, peer, mark) && q.initial == n.proc.value.initial
    requires q.status == n.proc.value.status
    ensures Pot(c, seeds, i, n.(proc := Some(q))) + Unit(mark) == Pot(c, seeds, i, n)
    ensures UniqueMembers(n.(proc := Some(q)))
  {
    assert peer in q.seed.exchange;
    UnsentForward(c, i, n.proc.value.seed, peer, mark);
  }

  /** The record keeps its marks and members, or is wiped. */
  lemma PotSame(c: Config, seeds: set<Name>, i: Name, n: Node, n': Node)
    requires i in c.seedLists && seeds != {} && UniqueMembers(n) && n'.proc.Some? && n.proc.Some?
    requires var p, q := n.proc.value, n'.proc.value;
             && q.initial == p.initial
             && (q.seed == Seed.Wiped()
                || (q.seed.members == p.seed.members && Marked(q.seed) == Marked(p.seed) && p.seed != Seed.Wiped()))
             && (Begun(n') == Begun(n) || (!Begun(n) && q.initial == NoInitial))
    ensures Pot(c, seeds, i, n') <= Pot(c, seeds, i, n) && UniqueMembers(n')
  {
    UnsentBound(c, i, n'.proc.value.seed);
  }

  lemma MarkedAccepted(r: Seed.Record, k: Bytes, sender: Name)
    requires Seed.KeyReceived(r, k, sender).Accepted?
    ensures var r' := Seed.KeyReceived(r, k, sender).record;
            Marked(r') == Marked(r) && r'.members == r.members && (r == Seed.Wiped() ==> r' == Seed.Wiped())
  {
    var r' := Seed.KeyReceived(r, k, sender).record;
    forall j ensures j in Marked(r') <==> j in Marked(r) {}
  }

  lemma PotHandle(c: Config, i: Name, n: Node, p: Proc, m: Msg, seen: Status, random: Bytes)
    requires n.proc == Some(p) && Dispatch(c, i, n, p, m, seen, random).Step?
    ensures var n' := Dispatch(c, i, n, p, m, seen, random).node;
            && n'.proc.Some?
            && var q := n'.proc.value;
               && q.initial == p.initial && q.seed.members == p.seed.members && Marked(q.seed) == Marked(p.seed)
               && (p.seed == Seed.Wiped() ==> q.seed == Seed.Wiped())
               && (q.status == p.status || (q.status == Ready && Acting(seen)))
  {
    if seen == Seeding && m.body.KeyInit? { MarkedAccepted(p.seed, m.body.key, m.src); }
  }

  lemma PotStepHandle(c: Config, seeds: set<Name>, sent: set<Msg>, known: set<Bytes>, i: Name, n: Node, l: Label)
    requires i in c.seedLists && seeds != {} && NodeInv(c, sent, known, i, n) && UniqueMembers(n)
    requires n.proc.Some? && LocalEnabled(c, i, n, l) && l.Handle? && LocalStep(c, i, n, l).Step?
    ensures Pot(c, seeds, i, NextNode(c, i, n, l)) <= Pot(c, seeds, i, n)
    ensures UniqueMembers(NextNode(c, i, n, l)) && !Costs(c, seeds, i, n, l)
  {
    var p := n.proc.value;
    OtherwiseSilent(c, i, n, l);
    PotHandle(c, i, n, p, p.loop.msg, p.loop.seen, l.random);
    PotSame(c, seeds, i, n, NextNode(c, i, n, l));
  }

  ghost predicate PotFalls(c: Config, seeds: set<Name>, i: Name, n: Node, l: Label)
    requires i in c.seedLists && seeds != {} && LocalEnabled(c, i, n, l)
  {
    var n' := NextNode(c, i, n, l);
    Pot(c, seeds, i, n') + Unit(Costs(c, seeds, i, n, l)) <= Pot(c, seeds, i, n) && UniqueMembers(n')
  }

  lemma PotStepSends(c: Config, seeds: set<Name>, sent: set<Msg>, known: set<Bytes>, i: Name, n: Node, l: Label)
    requires i in c.seedLists && seeds != {} && NodeInv(c, sent, known, i, n) && UniqueMembers(n)
    requires n.proc.Some? && LocalEnabled(c, i, n, l) && (l.InitialPeer? || l.ForwardPeer?)
    ensures PotFalls(c, seeds, i, n, l)
  {
    var p := n.proc.value;
    assert Active(c, sent, i, n, p) && Begun(n);
    if l.InitialPeer? {
      PotInitialPeer(c, seeds, i, n, p.(initial := Sending(p.initial.key, p.initial.rest[1..])));
    } else {
      var peer := p.lock.rest[0];
      var mark := l.ok && Seed.Attempts(p.seed, peer);
      assert peer == p.seed.others[|p.seed.others| - |p.lock.rest|] && p.seed != Seed.Wiped();
      PotForwardPeer(c, seeds, i, n,
                     p.(seed := Seed.ForwardOne(p.seed, peer, mark),
                         lock := Forwarding(p.lock.key, p.lock.rest[1..])), peer, mark);
    }
  }

  lemma PotStepStart(c: Config, seeds: set<Name>, sent: set<Msg>, i: Name, n: Node, l: Label)
    requires FreshCluster(c, seeds) && i in c.names && i in seeds && n.proc.Some?
    requires Active(c, sent, i, n, n.proc.value) && UniqueMembers(n)
    requires LocalEnabled(c, i, n, l) && l.InitialStart?
    ensures PotFalls(c, seeds, i, n, l)
  {
    OtherwiseSilent(c, i, n, l);
    InitialStartShape(c, i, n, l);
    var p := n.proc.value;
    PotInitialStart(c, seeds, i, n, p.(initial := Sending(p.initial.key, p.seed.members)));
  }

  lemma PotStepTask(c: Config, seeds: set<Name>, sent: set<Msg>, i: Name, n: Node, l: Label)
    requires i in c.seedLists && seeds != {} && n.proc.Some? && Active(c, sent, i, n, n.proc.value) && UniqueMembers(n)
    requires LocalEnabled(c, i, n, l) && (l.ForwardStart? || l.ForwardStop? || l.RunCleanup? || l.Finish?)
    ensures PotFalls(c, seeds, i, n, l)
  {
    OtherwiseSilent(c, i, n, l);
    if l.RunCleanup? { CleanupShape(c, i, n, l); }
    if l.Finish? { FinishShape(c, i, n, l); }
    if l.ForwardStart? { ForwardStartShape(c, i, n, l); }
    if l.ForwardStop? { ForwardStopShape(c, i, n, l); }
    PotSame(c, seeds, i, n, NextNode(c, i, n, l));
  }

  lemma MoverHasNotBegun(c: Config, sent: set<Msg>, i: Name, n: Node, l: Label)
    requires i in c.seedLists && n.proc.Some? && StartInv(c, i, n, n.proc.value) && SeedInv(c, sent, i, n, n.proc.value)
    requires LocalEnabled(c, i, n, l) && MovesStatus(l)
    ensures !Begun(n) && n.proc.value.initial == NoInitial
  {
  }

  lemma PotStepOutside(c: Config, seeds: set<Name>, sent: set<Msg>, known: set<Bytes>, i: Name, n: Node, l: Label)
    requires i in c.seedLists && seeds != {} && NodeInv(c, sent, known, i, n) && UniqueMembers(n)
    requires n.proc.Some? && LocalEnabled(c, i, n, l) && !TouchesSeeding(l)
    ensures PotFalls(c, seeds, i, n, l)
  {
    UntouchedSeeding(c, i, n, l);
    NoKeyOutside(c, i, n, l);
    if MovesStatus(l) { MoverHasNotBegun(c, sent, i, n, l); }
    PotSame(c, seeds, i, n, NextNode(c, i, n, l));
  }

  lemma NoKeyOutside(c: Config, i: Name, n: Node, l: Label)
    requires i in c.seedLists && n.proc.Some? && LocalEnabled(c, i, n, l) && !TouchesSeeding(l)
    ensures LocalStep(c, i, n, l).Step?
    ensures LocalStep(c, i, n, l).out.Send? ==> !LocalStep(c, i, n, l).out.body.KeyInit?
  {
    if l.AskPeer? { AskNoKey(n, n.proc.value, i, l.ok); }
  }

  /** Every step of a seed pays for the key messages it sends. */
  lemma PotStep(c: Config, seeds: set<Name>, sent: set<Msg>, known: set<Bytes>, i: Name, n: Node, l: Label)
    requires FreshCluster(c, seeds) && i in c.names && i in seeds && NodeInv(c, sent, known, i, n) && UniqueMembers(n)
    requires LocalEnabled(c, i, n, l) && !l.Crash? && LocalStep(c, i, n, l).Step?
    ensures PotFalls(c, seeds, i, n, l)
  {
    if n.proc.None? {
    } else if l.StartSeed? {
      assert Dormant(c, i, n, n.proc.value);
      PotStartSeed(c, seeds, i, n, l);
    } else if l.InitialPeer? || l.ForwardPeer? {
      PotStepSends(c, seeds, sent, known, i, n, l);
    } else if l.Handle? {
      PotStepHandle(c, seeds, sent, known, i, n, l);
    } else if TouchesSeeding(l) {
      TaskIsActive(c, sent, known, i, n, l);
      if l.InitialStart? { PotStepStart(c, seeds, sent, i, n, l); } else { PotStepTask(c, seeds, sent, i, n, l); }
    } else {
      PotStepOutside(c, seeds, sent, known, i, n, l);
    }
  }

  // ---------------------------------------------------------------- totals

  ghost function PotAt(c: Config, seeds: set<Name>, s: State, i: Name): nat
    requires seeds != {}
  {
    if i in s.nodes && i in c.seedLists then Pot(c, seeds, i, s.nodes[i]) else 0
  }

  ghost function Total(c: Config, seeds: set<Name>, s: State, dom: set<Name>): nat
    requires seeds != {}
    decreases |dom|
  {
    if dom == {} then 0 else
      var x := Least(dom);
      PotAt(c, seeds, s, x) + Total(c, seeds, s, dom - {x})
  }

  lemma {:induction false} TotalStep(c: Config, seeds: set<Name>, s: State, s': State, i: Name, cost: nat,
                                     dom: set<Name>)
    requires seeds != {}
    requires forall j :: j in dom && j != i ==> PotAt(c, seeds, s', j) == PotAt(c, seeds, s, j)
    requires PotAt(c, seeds, s', i) + cost <= PotAt(c, seeds, s, i)
    ensures Total(c, seeds, s', dom) + (if i in dom then cost else 0) <= Total(c, seeds, s, dom)
    decreases |dom|
  {
    if dom != {} {
      TotalStep(c, seeds, s, s', i, cost, dom - {Least(dom)});
    }
  }

  lemma OthersCount(c: Config, seeds: set<Name>, i: Name)
    requires FreshCluster(c, seeds) && i in c.names && i in seeds
    ensures |Others(c, i)| == |seeds| - 1
  {
    OthersNoDup(c, i);
    NoDupCardinality(Others(c, i));
    assert Added([i]) == {i};
    assert |seeds - {i}| == |seeds| - 1;
  }

  lemma PotAtStart(c: Config, seeds: set<Name>, i: Name)
    requires FreshCluster(c, seeds) && i in seeds
    ensures PotAt(c, seeds, Init(c), i) <= (|seeds| - 1) + (if i == Least(seeds) then |seeds| - 1 else 0)
  {
    SubsetSize({i}, seeds);
    if i in c.names { OthersCount(c, seeds, i); }
  }

  lemma OneMore(a: nat, d: nat)
    ensures (a + 1) * d == a * d + d
  {
  }

  lemma {:induction false} TotalAtStart(c: Config, seeds: set<Name>, dom: set<Name>, d: nat)
    requires FreshCluster(c, seeds) && dom <= seeds && d == |seeds| - 1
    ensures Total(c, seeds, Init(c), dom) <= |dom| * d + (if Least(seeds) in dom then d else 0)
    decreases |dom|
  {
    if dom != {} {
      var x := Least(dom);
      TotalAtStart(c, seeds, dom - {x}, d);
      PotAtStart(c, seeds, x);
      OneMore(|dom - {x}|, d);
    }
  }

  // -------------------------------------------------------------- the bound

  ghost predicate StepCosts(c: Config, seeds: set<Name>, s: State, l: Label)
    requires Enabled(c, s, l)
  {
    Costs(c, seeds, l.i, s.nodes[l.i], l)
  }

  /** How many key messages the run has sent to seeds successfully. */
  ghost function KeyTraffic(c: Config, seeds: set<Name>, ls: seq<Label>): nat {
    if ls == [] then 0
    else
      var front, last := ls[..|ls| - 1], ls[|ls| - 1];
      KeyTraffic(c, seeds, front) +
      (if Exec(c, front).Some? && Enabled(c, Exec(c, front).value, last)
          && StepCosts(c, seeds, Exec(c, front).value, last) then 1 else 0)
  }

  ghost predicate TrafficInv(c: Config, seeds: set<Name>, s: State)
    requires seeds != {}
  {
    FreshInv(c, seeds, s) && forall i :: i in s.nodes && i in seeds ==> UniqueMembers(s.nodes[i])
  }

  lemma TotalAfterStep(c: Config, seeds: set<Name>, s: State, l: Label, s': State)
    requires FreshCluster(c, seeds) && TrafficInv(c, seeds, s) && Enabled(c, s, l) && !l.Crash? && s' == Apply(c, s, l)
    ensures Total(c, seeds, s', seeds) + Unit(StepCosts(c, seeds, s, l)) <= Total(c, seeds, s, seeds)
    ensures TrafficInv(c, seeds, s')
  {
    FreshInvStep(c, seeds, s, l);
    FreshStepCompletes(c, seeds, s, l);
    ApplyShape(c, s, l, s', NextNode(c, l.i, s.nodes[l.i], l), StepPosts(c, s, l));
    TotalMoves(c, seeds, s, l, s');
  }

  lemma TotalMoves(c: Config, seeds: set<Name>, s: State, l: Label, s': State)
    requires FreshCluster(c, seeds) && TrafficInv(c, seeds, s) && Enabled(c, s, l) && !l.Crash?
    requires LocalStep(c, l.i, s.nodes[l.i], l).Step? && FreshInv(c, seeds, s')
    requires s'.nodes == s.nodes[l.i := NextNode(c, l.i, s.nodes[l.i], l)]
    ensures Total(c, seeds, s', seeds) + Unit(StepCosts(c, seeds, s, l)) <= Total(c, seeds, s, seeds)
    ensures TrafficInv(c, seeds, s')
  {
    if l.i in seeds {
      PotStep(c, seeds, s.sent, s.known, l.i, s.nodes[l.i], l);
      TotalOfSeed(c, seeds, s, s', l.i, NextNode(c, l.i, s.nodes[l.i], l), Unit(StepCosts(c, seeds, s, l)));
    } else {
      OnlySeedsCost(c, seeds, s, l);
      TotalSame(c, seeds, s, s', seeds);
    }
  }

  lemma TotalOfSeed(c: Config, seeds: set<Name>, s: State, s': State, i: Name, n': Node, cost: nat)
    requires seeds != {} && i in seeds && TrafficInv(c, seeds, s) && FreshInv(c, seeds, s') && i in s.nodes
    requires s'.nodes == s.nodes[i := n'] && i in c.seedLists && UniqueMembers(n')
    requires Pot(c, seeds, i, n') + cost <= Pot(c, seeds, i, s.nodes[i])
    ensures Total(c, seeds, s', seeds) + cost <= Total(c, seeds, s, seeds)
    ensures TrafficInv(c, seeds, s')
  {
    TotalStep(c, seeds, s, s', i, cost, seeds);
  }

  lemma {:induction false} TotalSame(c: Config, seeds: set<Name>, s: State, s': State, dom: set<Name>)
    requires seeds != {} && forall j :: j in dom ==> PotAt(c, seeds, s', j) == PotAt(c, seeds, s, j)
    ensures Total(c, seeds, s', dom) == Total(c, seeds, s, dom)
    decreases |dom|
  {
    if dom != {} { TotalSame(c, seeds, s, s', dom - {Least(dom)}); }
  }

  lemma OnlySeedsCost(c: Config, seeds: set<Name>, s: State, l: Label)
    requires FreshCluster(c, seeds) && Inv(c, s) && Enabled(c, s, l) && l.i !in seeds
    ensures !StepCosts(c, seeds, s, l)
  {
    if LocalStep(c, l.i, s.nodes[l.i], l).Step? {
      NodeStepSends(c, s.sent, s.known, l.i, s.nodes[l.i], l);
    }
  }

  lemma {:induction false} TrafficRun(c: Config, seeds: set<Name>, ls: seq<Label>)
    requires FreshCluster(c, seeds) && Exec(c, ls).Some? && NoCrash(ls)
    ensures TrafficInv(c, seeds, Exec(c, ls).value)
    ensures KeyTraffic(c, seeds, ls) + Total(c, seeds, Exec(c, ls).value, seeds) <= |seeds| * |seeds| - 1
  {
    if ls == [] {
      FreshRunInv(c, seeds, ls);
      var n := |seeds|;
      SubsetSize({Least(seeds)}, seeds);
      TotalAtStart(c, seeds, seeds, n - 1);
      assert n * (n - 1) + (n - 1) == n * n - 1;
    } else {
      var front, last := ls[..|ls| - 1], ls[|ls| - 1];
      TrafficRun(c, seeds, front);
      TotalAfterStep(c, seeds, Exec(c, front).value, last, Exec(c, ls).value);
    }
  }

  /** With n seeds, a crash-free run sends at most n * n - 1 key messages to seeds. */
  lemma TrafficBound(c: Config, seeds: set<Name>, ls: seq<Label>)
    requires FreshCluster(c, seeds) && Exec(c, ls).Some? && NoCrash(ls)
    ensures KeyTraffic(c, seeds, ls) <= |seeds| * |seeds| - 1
  {
    TrafficRun(c, seeds, ls);
  }
}
