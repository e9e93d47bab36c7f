/**
 * The bound on key messages is met exactly. In a reliable run the messages sent and those still owed
 * always add up to n * n - 1, and once seeding has completed none is owed.
 */
module TrafficExact {
  import opened Basics
  import opened Vault
  import opened Names
  import opened Protocol
  import opened Invariant
  import opened Preserve
  import opened Agreement
  import opened CrashFree
  import opened Completion
  import opened Traffic
  import opened Termination
  import opened Timely
  import Seed

  // ------------------------------------------------------------- node steps

  /** The step gives up no potential without sending for it. */
  ghost predicate PotKept(c: Config, seeds: set<Name>, i: Name, n: Node, l: Label)
    requires i in c.seedLists && seeds != {} && LocalEnabled(c, i, n, l)
  {
    Pot(c, seeds, i, n) <= Pot(c, seeds, i, NextNode(c, i, n, l)) + Unit(Costs(c, seeds, i, n, l))
  }

  lemma SamePot(c: Config, seeds: set<Name>, i: Name, n: Node, n': Node)
    requires i in c.seedLists && seeds != {} && n.proc.Some? && n'.proc.Some? && Begun(n') == Begun(n)
    requires n'.proc.value.initial == n.proc.value.initial
    requires Unsent(c, i, n'.proc.value.seed) == Unsent(c, i, n.proc.value.seed)
    ensures Pot(c, seeds, i, n') == Pot(c, seeds, i, n)
  {
  }

  lemma FullRecord(c: Config, i: Name, r: Seed.Record)
    requires i in c.seedLists && r.exchange == map[] && r.generatedKey != []
    ensures Unsent(c, i, r) == |Others(c, i)|
  {
    OthersNoDup(c, i);
    NoDupCardinality(Others(c, i));
    assert ToSet(Others(c, i)) - Marked(r) == ToSet(Others(c, i));
  }

  lemma BeginShape(n: Node, p: Proc, i: Name, members: seq<Name>, key: Bytes, master: bool)
    requires n.proc == Some(p) && p.initial == NoInitial && |key| == KEY_SIZE
    ensures var n' := BeginSeeding(n, p, i, members, key, master).node;
            && n'.proc.Some? && Begun(n') && n'.proc.value.seed.exchange == map[]
            && n'.proc.value.seed.generatedKey != []
            && n'.proc.value.initial == if master then Spawned(key) else NoInitial
  {
  }

  lemma KeptStartSeed(c: Config, seeds: set<Name>, i: Name, n: Node, l: Label)
    requires FreshCluster(c, seeds) && i in c.names && i in seeds && n.proc.Some? && Dormant(c, i, n, n.proc.value)
    requires !Begun(n) && l.StartSeed? && LocalEnabled(c, i, n, l)
    ensures PotKept(c, seeds, i, n, l)
  {
    StartSeedFacts(c, seeds, i, n, l);
    BeginShape(n, n.proc.value, i, l.members, l.key, l.master);
    FullRecord(c, i, NextNode(c, i, n, l).proc.value.seed);
  }

  /** The first round is to all other seeds. */
  lemma MembersCover(c: Config, seeds: set<Name>, i: Name, members: seq<Name>)
    requires i in c.seedLists && c.seedLists[i] == seeds && NoDup(members)
    requires forall j :: j in Others(c, i) ==> j in members
    ensures CountIn(members, seeds) >= |Others(c, i)|
  {
    CountDistinct(members, seeds);
    OthersNoDup(c, i);
    NoDupCardinality(Others(c, i));
    forall j | j in ToSet(Others(c, i)) ensures j in ToSet(members) * seeds { assert j in Others(c, i); }
    SubsetSize(ToSet(Others(c, i)), ToSet(members) * seeds);
  }

  lemma FirstRoundPot(c: Config, seeds: set<Name>, i: Name, n: Node, p: Proc)
    requires i in c.seedLists && c.seedLists[i] == seeds && seeds != {} && n.proc == Some(p) && Begun(n)
    requires p.initial.Spawned?
    requires NoDup(p.seed.members) && forall j :: j in Others(c, i) ==> j in p.seed.members
    ensures Pot(c, seeds, i, n) <=
            Pot(c, seeds, i, n.(proc := Some(p.(initial := Sending(p.initial.key, p.seed.members)))))
  {
    MembersCover(c, seeds, i, p.seed.members);
  }

  lemma KeptInitialStart(c: Config, seeds: set<Name>, s: State, l: Label)
    requires SeedCluster(c, seeds) && TaskInv(c, seeds, s) && Enabled(c, s, l) && l.i in seeds && l.InitialStart?
    requires UniqueMembers(s.nodes[l.i])
    ensures PotKept(c, seeds, l.i, s.nodes[l.i], l)
  {
    var n := s.nodes[l.i];
    InitialStartShape(c, l.i, n, l);
    TaskIsActive(c, s.sent, s.known, l.i, n, l);
    FirstRoundNotWiped(c, seeds, s, l.i);
    assert CalmNode(c, seeds, s.sent, l.i, n) && Begun(n);
    FirstRoundPot(c, seeds, l.i, n, n.proc.value);
  }

  lemma KeptInitialPeer(c: Config, seeds: set<Name>, i: Name, n: Node, l: Label)
    requires i in c.seedLists && seeds != {} && Begun(n) && UniqueMembers(n) && LocalEnabled(c, i, n, l)
    requires l.InitialPeer?
    requires n.proc.value.initial.rest[0] in seeds ==> l.ok
    ensures PotKept(c, seeds, i, n, l)
  {
    var p := n.proc.value;
    PotInitialPeer(c, seeds, i, n, p.(initial := Sending(p.initial.key, p.initial.rest[1..])));
  }

  lemma KeptForwardPeer(c: Config, seeds: set<Name>, sent: set<Msg>, i: Name, n: Node, l: Label)
    requires i in c.seedLists && c.seedLists[i] == seeds && seeds != {} && Begun(n) && UniqueMembers(n)
    requires LocalEnabled(c, i, n, l)
    requires l.ForwardPeer? && l.ok && Active(c, sent, i, n, n.proc.value)
    ensures PotKept(c, seeds, i, n, l)
  {
    var p := n.proc.value;
    var peer := p.lock.rest[0];
    var mark := Seed.Attempts(p.seed, peer);
    ForwardTarget(c, seeds, sent, i, n);
    assert peer == p.seed.others[|p.seed.others| - |p.lock.rest|] && p.seed != Seed.Wiped();
    ForwardPeerShape(c, i, n, l);
    var q := p.(seed := Seed.ForwardOne(p.seed, peer, mark), lock := Forwarding(p.lock.key, p.lock.rest[1..]));
    PotForwardPeer(c, seeds, i, n, q, peer, mark);
  }

  lemma AllSentIsZero(c: Config, i: Name, r: Seed.Record)
    requires i in c.seedLists && AllSent(c, i, r)
    ensures Unsent(c, i, r) == 0
  {
    if r != Seed.Wiped() {
      assert ToSet(Others(c, i)) - Marked(r) == {};
    }
  }

  lemma KeptCleanup(c: Config, seeds: set<Name>, sent: set<Msg>, i: Name, n: Node, l: Label)
    requires i in c.seedLists && seeds != {} && n.proc.Some? && Active(c, sent, i, n, n.proc.value)
    requires CalmNode(c, seeds, sent, i, n) && LocalEnabled(c, i, n, l) && l.RunCleanup?
    ensures PotKept(c, seeds, i, n, l)
  {
    CleanupShape(c, i, n, l);
    AllSentIsZero(c, i, n.proc.value.seed);
  }

  lemma KeptTask(c: Config, seeds: set<Name>, sent: set<Msg>, i: Name, n: Node, l: Label)
    requires i in c.seedLists && seeds != {} && n.proc.Some? && Active(c, sent, i, n, n.proc.value)
    requires LocalEnabled(c, i, n, l)
    requires l.ForwardStart? || l.ForwardStop? || l.Finish?
    ensures PotKept(c, seeds, i, n, l)
  {
    if l.ForwardStart? { ForwardStartShape(c, i, n, l); }
    if l.ForwardStop? { ForwardStopShape(c, i, n, l); }
    if l.Finish? { FinishShape(c, i, n, l); }
    SamePot(c, seeds, i, n, NextNode(c, i, n, l));
  }

  lemma AcceptedUnsent(c: Config, i: Name, r: Seed.Record, k: Bytes, sender: Name)
    requires i in c.seedLists && Seed.KeyReceived(r, k, sender).Accepted?
    ensures Unsent(c, i, Seed.KeyReceived(r, k, sender).record) == Unsent(c, i, r)
  {
    var r' := Seed.KeyReceived(r, k, sender).record;
    MarkedAccepted(r, k, sender);
    if r' != r { assert sender in r'.exchange && sender in r.others; }
  }

  lemma KeptHandle(c: Config, seeds: set<Name>, i: Name, n: Node, p: Proc, l: Label)
    requires i in c.seedLists && seeds != {} && n.proc == Some(p) && LocalEnabled(c, i, n, l) && l.Handle?
    requires LocalStep(c, i, n, l).Step?
    requires p.loop.seen != QueryKey && p.loop.seen != Validating
    ensures PotKept(c, seeds, i, n, l)
  {
    HandleIsDispatch(c, i, n, l);
    var m := p.loop.msg;
    if p.loop.seen == Seeding && m.body.KeyInit? {
      SeedKeyShape(n, p, m.body.key, m.src);
      AcceptedUnsent(c, i, p.seed, m.body.key, m.src);
    } else {
      DispatchOutside(c, i, n, p, m, p.loop.seen, l.random);
    }
    SamePot(c, seeds, i, n, NextNode(c, i, n, l));
  }

  lemma KeptOutside(c: Config, seeds: set<Name>, i: Name, n: Node, l: Label)
    requires i in c.seedLists && seeds != {} && n.proc.Some? && FirstLife(n) && StartInv(c, i, n, n.proc.value)
    requires LocalEnabled(c, i, n, l) && !TouchesSeeding(l) && !l.StartQuery?
    ensures PotKept(c, seeds, i, n, l)
  {
    UntouchedSeeding(c, i, n, l);
    if MovesStatus(l) { WakesUp(c, i, n, l); }
    SamePot(c, seeds, i, n, NextNode(c, i, n, l));
  }

  lemma WakesUp(c: Config, i: Name, n: Node, l: Label)
    requires i in c.seedLists && n.proc.Some? && FirstLife(n) && StartInv(c, i, n, n.proc.value)
    requires LocalEnabled(c, i, n, l) && MovesStatus(l) && !l.StartQuery?
    ensures !Begun(n) && !Begun(NextNode(c, i, n, l))
  {
  }

  lemma KeptStep(c: Config, seeds: set<Name>, s: State, l: Label)
    requires SeedCluster(c, seeds) && TaskInv(c, seeds, s) && TrafficInv(c, seeds, s)
    requires Enabled(c, s, l) && Reliable(c, seeds, s, l) && l.i in seeds
    ensures PotKept(c, seeds, l.i, s.nodes[l.i], l)
  {
    var n := s.nodes[l.i];
    FreshStepCompletes(c, seeds, s, l);
    assert FirstLife(n) && NoQuery(n) && NodeInv(c, s.sent, s.known, l.i, n) && CalmNode(c, seeds, s.sent, l.i, n);
    if n.proc.None? {
    } else if l.StartSeed? {
      SeedStarter(c, s.sent, s.known, l.i, n, l);
      KeptStartSeed(c, seeds, l.i, n, l);
    } else if l.InitialStart? {
      KeptInitialStart(c, seeds, s, l);
    } else if TaskStep(l) {
      TaskIsActive(c, s.sent, s.known, l.i, n, l);
      KeptAny(c, seeds, s.sent, l.i, n, l);
    } else if l.Handle? {
      HandleIsDispatch(c, l.i, n, l);
      KeptHandle(c, seeds, l.i, n, n.proc.value, l);
    } else {
      if l.StartQuery? { NoSeedAsks(c, seeds, s, l); }
      KeptOutside(c, seeds, l.i, n, l);
    }
  }

  lemma SeedStarter(c: Config, sent: set<Msg>, known: set<Bytes>, i: Name, n: Node, l: Label)
    requires i in c.seedLists && n.proc.Some? && NodeInv(c, sent, known, i, n) && LocalEnabled(c, i, n, l)
    requires l.StartSeed?
    ensures Dormant(c, i, n, n.proc.value) && !Begun(n)
  {
  }

  lemma KeptAny(c: Config, seeds: set<Name>, sent: set<Msg>, i: Name, n: Node, l: Label)
    requires FreshCluster(c, seeds) && i in c.seedLists && i in seeds && n.proc.Some?
    requires Active(c, sent, i, n, n.proc.value)
    requires CalmNode(c, seeds, sent, i, n) && UniqueMembers(n) && LocalEnabled(c, i, n, l) && TaskStep(l)
    requires !l.InitialStart?
    requires (l.InitialPeer? && n.proc.value.initial.rest[0] in seeds) || l.ForwardPeer? ==> l.ok
    ensures PotKept(c, seeds, i, n, l)
  {
    if l.InitialPeer? {
      KeptInitialPeer(c, seeds, i, n, l);
    } else if l.ForwardPeer? {
      KeptForwardPeer(c, seeds, sent, i, n, l);
    } else if l.RunCleanup? {
      KeptCleanup(c, seeds, sent, i, n, l);
    } else {
      KeptTask(c, seeds, sent, i, n, l);
    }
  }

  // ------------------------------------------------------------------ totals

  lemma {:induction false} TotalKept(c: Config, seeds: set<Name>, s: State, s': State, i: Name, cost: nat,
                                     dom: set<Name>)
    requires seeds != {}
    requires forall j :: j in dom && j != i ==> PotAt(c, seeds, s', j) == PotAt(c, seeds, s, j)
    requires PotAt(c, seeds, s, i) <= PotAt(c, seeds, s', i) + cost
    ensures Total(c, seeds, s, dom) <= Total(c, seeds, s', dom) + (if i in dom then cost else 0)
    decreases |dom|
  {
    if dom != {} { TotalKept(c, seeds, s, s', i, cost, dom - {Least(dom)}); }
  }

  lemma TotalMoved(c: Config, seeds: set<Name>, s: State, s': State, i: Name, n': Node, cost: nat)
    requires seeds != {} && i in s.nodes && s'.nodes == s.nodes[i := n']
    requires i in seeds ==> i in c.seedLists && Pot(c, seeds, i, s.nodes[i]) <= Pot(c, seeds, i, n') + cost
    ensures Total(c, seeds, s, seeds) <= Total(c, seeds, s', seeds) + cost
  {
    if i in seeds { TotalKept(c, seeds, s, s', i, cost, seeds); } else { TotalSame(c, seeds, s, s', seeds); }
  }

  lemma TotalKeptStep(c: Config, seeds: set<Name>, s: State, l: Label, s': State)
    requires SeedCluster(c, seeds) && TaskInv(c, seeds, s) && TrafficInv(c, seeds, s) && Enabled(c, s, l)
    requires Reliable(c, seeds, s, l)
    requires s'.nodes == s.nodes[l.i := NextNode(c, l.i, s.nodes[l.i], l)]
    ensures Total(c, seeds, s, seeds) <= Total(c, seeds, s', seeds) + Unit(StepCosts(c, seeds, s, l))
  {
    if l.i in seeds { KeptStep(c, seeds, s, l); }
    TotalMoved(c, seeds, s, s', l.i, NextNode(c, l.i, s.nodes[l.i], l), Unit(StepCosts(c, seeds, s, l)));
  }

  lemma {:induction false} TotalFromStart(c: Config, seeds: set<Name>, dom: set<Name>, d: nat)
    requires FreshCluster(c, seeds) && dom <= seeds <= c.names && d == |seeds| - 1
    ensures Total(c, seeds, Init(c), dom) == |dom| * d + (if Least(seeds) in dom then d else 0)
    decreases |dom|
  {
    if dom != {} {
      var x := Least(dom);
      TotalFromStart(c, seeds, dom - {x}, d);
      OthersCount(c, seeds, x);
      OneMore(|dom - {x}|, d);
    }
  }

  lemma SquareLessOne(n: nat)
    requires n > 0
    ensures n * (n - 1) + (n - 1) == n * n - 1
  {
  }

  lemma TrafficLast(c: Config, seeds: set<Name>, ls: seq<Label>)
    requires ls != [] && Exec(c, ls[..|ls| - 1]).Some? && Enabled(c, Exec(c, ls[..|ls| - 1]).value, ls[|ls| - 1])
    ensures KeyTraffic(c, seeds, ls) ==
            KeyTraffic(c, seeds, ls[..|ls| - 1]) + Unit(StepCosts(c, seeds, Exec(c, ls[..|ls| - 1]).value,
                ls[|ls| - 1]))
  {
  }

  /** In every reliable run the messages sent and those still owed add up to n * n - 1. */
  lemma {:induction false} TrafficConserved(c: Config, seeds: set<Name>, ls: seq<Label>)
    requires SeedCluster(c, seeds) && seeds <= c.names && ReliableRun(c, seeds, ls, true) && Exec(c, ls).Some?
    ensures KeyTraffic(c, seeds, ls) + Total(c, seeds, Exec(c, ls).value, seeds) == |seeds| * |seeds| - 1
  {
    ReliableMeansNoCrash(c, seeds, ls, true);
    TrafficRun(c, seeds, ls);
    if ls == [] {
      TotalFromStart(c, seeds, seeds, |seeds| - 1);
      SquareLessOne(|seeds|);
    } else {
      var front, last := ls[..|ls| - 1], ls[|ls| - 1];
      ReliableLast(c, seeds, ls, true);
      TrafficConserved(c, seeds, front);
      TrafficKeptLast(c, seeds, ls);
    }
  }

  lemma TrafficKeptLast(c: Config, seeds: set<Name>, ls: seq<Label>)
    requires SeedCluster(c, seeds) && ReliableRun(c, seeds, ls, true) && ls != [] && Exec(c, ls).Some?
    requires Exec(c, ls[..|ls| - 1]).Some?
    ensures KeyTraffic(c, seeds, ls[..|ls| - 1]) + Total(c, seeds, Exec(c, ls[..|ls| - 1]).value, seeds) <=
            KeyTraffic(c, seeds, ls) + Total(c, seeds, Exec(c, ls).value, seeds)
  {
    var front, last := ls[..|ls| - 1], ls[|ls| - 1];
    ReliableLast(c, seeds, ls, true);
    ReliableMeansNoCrash(c, seeds, front, true);
    TrafficRun(c, seeds, front);
    TaskRunInv(c, seeds, front, true);
    TrafficLast(c, seeds, ls);
    var s := Exec(c, front).value;
    ApplyShape(c, s, last, Apply(c, s, last), NextNode(c, last.i, s.nodes[last.i], last), StepPosts(c, s, last));
    TotalKeptStep(c, seeds, s, last, Apply(c, s, last));
  }

  lemma {:induction false} NothingOwed(c: Config, seeds: set<Name>, s: State, dom: set<Name>)
    requires seeds != {} && dom <= seeds && Quiescent(seeds, s)
    requires forall i :: i in seeds ==>
               i in s.nodes && s.nodes[i].proc.Some? && s.nodes[i].proc.value.seed == Seed.Wiped()
    ensures Total(c, seeds, s, dom) == 0
    decreases |dom|
  {
    if dom != {} { NothingOwed(c, seeds, s, dom - {Least(dom)}); }
  }

  /**
   * With n seeds, a reliable run that has completed and come to rest has sent exactly n * n - 1 key messages to
   * seeds.
   */
  lemma CompletedTraffic(c: Config, seeds: set<Name>, ls: seq<Label>)
    requires SeedCluster(c, seeds) && seeds <= c.names && ReliableRun(c, seeds, ls, true) && Exec(c, ls).Some?
    requires Quiescent(seeds, Exec(c, ls).value) && AllReady(seeds, Exec(c, ls).value)
    ensures KeyTraffic(c, seeds, ls) == |seeds| * |seeds| - 1
  {
    TrafficConserved(c, seeds, ls);
    CompletedIffTimely(c, seeds, ls);
    NothingOwed(c, seeds, Exec(c, ls).value, seeds);
  }

  lemma {:induction false} CalmIsReliable(c: Config, seeds: set<Name>, ls: seq<Label>)
    requires CalmRun(c, seeds, ls)
    ensures ReliableRun(c, seeds, ls, true)
  {
    if ls != [] {
      ReliableLast(c, seeds, ls, false);
      CalmIsReliable(c, seeds, ls[..|ls| - 1]);
    }
  }

  /** In particular every calm run that has come to rest, so the bound on the traffic is met. */
  lemma CalmTraffic(c: Config, seeds: set<Name>, ls: seq<Label>)
    requires SeedCluster(c, seeds) && seeds <= c.names && CalmRun(c, seeds, ls) && Exec(c, ls).Some?
    requires Quiescent(seeds, Exec(c, ls).value)
    ensures KeyTraffic(c, seeds, ls) == |seeds| * |seeds| - 1 && AllTimely(c, seeds, ls)
  {
    CalmIsReliable(c, seeds, ls);
    forall i | i in seeds ensures i in Exec(c, ls).value.nodes && IsReady(Exec(c, ls).value.nodes[i]) {
      CompletionAtQuiescence(c, seeds, ls, i);
    }
    CompletedIffTimely(c, seeds, ls);
    CompletedTraffic(c, seeds, ls);
  }
}
