/**
 * Completion at quiescence. A calm run of a fresh cluster crashes nobody, loses no key message to a
 * seed, and lets no seed read a key message before it is SEEDING itself. When such a run has nothing
 * left to do, every seed is READY with the master's key on disk and its scratch data wiped.
 */
module Completion {
  import opened Basics
  import opened Vault
  import opened Names
  import opened Protocol
  import opened Invariant
  import opened Preserve
  import opened Agreement
  import opened CrashFree
  import Seed

  // -------------------------------------------------------------- calm runs

  ghost predicate Begun(n: Node) {
    n.proc.Some? && (n.proc.value.status == Seeding || n.proc.value.status == Ready)
  }

  /** Nobody is killed, every seed is in the member list, and key messages to seeds arrive. */
  ghost predicate Reliable(c: Config, seeds: set<Name>, s: State, l: Label)
    requires Enabled(c, s, l)
  {
    match l
    case Crash(_) => false
    case StartSeed(_, _, members, _, _) => forall x :: x in seeds ==> x in members
    case InitialPeer(_, ok) => s.nodes[l.i].proc.value.initial.rest[0] in seeds ==> ok
    case ForwardPeer(_, ok) => ok
    case _ => true
  }

  /** A seed reads key messages only once it is SEEDING itself. */
  ghost predicate NotEarly(seeds: set<Name>, s: State, l: Label)
    requires l.i in s.nodes
  {
    l.Take? && l.msg.body.KeyInit? && l.i in seeds ==> Begun(s.nodes[l.i])
  }

  ghost predicate CalmStep(c: Config, seeds: set<Name>, s: State, l: Label)
    requires Enabled(c, s, l)
  {
    Reliable(c, seeds, s, l) && NotEarly(seeds, s, l)
  }

  /** A run of reliable steps; early reads are allowed or not. */
  ghost predicate ReliableRun(c: Config, seeds: set<Name>, ls: seq<Label>, early: bool) {
    ls != [] ==>
      var front, last := ls[..|ls| - 1], ls[|ls| - 1];
      && ReliableRun(c, seeds, front, early)
      && Exec(c, front).Some? && Enabled(c, Exec(c, front).value, last)
      && Reliable(c, seeds, Exec(c, front).value, last)
      && (early || NotEarly(seeds, Exec(c, front).value, last))
  }

  ghost predicate CalmRun(c: Config, seeds: set<Name>, ls: seq<Label>) {
    ReliableRun(c, seeds, ls, false)
  }

  /** Nothing is left to do for the seeds: no key message under way, no task, no message being handled. */
  ghost predicate Quiescent(seeds: set<Name>, s: State) {
    && (forall m :: m in s.net && m.body.KeyInit? ==> m.dst !in seeds)
    && (forall i :: i in seeds ==> i in s.nodes && Begun(s.nodes[i]) && AtRest(s.nodes[i].proc.value))
  }

  predicate AtRest(p: Proc) {
    && p.loop == Idle && p.lock == Unlocked && p.forwards == multiset{} && p.cleanups == 0
    && !p.initial.Spawned? && (p.initial.Sending? ==> p.initial.rest == [])
  }

  // --------------------------------------------------------- node invariant

  ghost predicate SomeReceived(r: Seed.Record) {
    exists j :: Seed.ReceivedFrom(r, j)
  }

  predicate Busy(p: Proc) {
    p.forwards != multiset{} || p.lock.Forwarding?
  }

  ghost predicate AllSent(c: Config, i: Name, r: Seed.Record)
    requires i in c.seedLists
  {
    r == Seed.Wiped() || forall j :: j in Others(c, i) ==> Seed.SentTo(r, j)
  }

  ghost predicate Done(p: Proc) {
    p.loop.Complete? || p.status == Ready
  }

  /** Every mark stands for a message sent. */
  ghost predicate MarksInv(c: Config, sent: set<Msg>, i: Name, k: Bytes, r: Seed.Record)
    requires i in c.seedLists
  {
    && (forall j :: Seed.SentTo(r, j) ==> Heard(sent, i, j, 1, k))
    && (r == Seed.Wiped() ==> forall j :: j in Others(c, i) ==> Heard(sent, i, j, 1, k))
  }

  ghost predicate WorkInv(c: Config, seeds: set<Name>, i: Name, p: Proc)
    requires i in c.seedLists && seeds != {}
  {
    var r := p.seed;
    && (Busy(p) ==> r == Seed.Wiped() || SomeReceived(r))
    && (SomeReceived(r) ==> Busy(p) || AllSent(c, i, r))
    && (i != Least(seeds) ==> r == Seed.Wiped() || SomeReceived(r))
    && (p.lock.Forwarding? ==> forall x :: 0 <= x < |r.others| - |p.lock.rest| ==> Seed.SentTo(r, r.others[x]))
    && (p.cleanups > 0 ==> AllSent(c, i, r))
    && (Done(p) ==> r == Seed.Wiped() || EveryoneHeard(c, i, r))
    && (Done(p) ==> r == Seed.Wiped() || Busy(p) || p.cleanups > 0)
  }

  ghost predicate FirstRoundInv(c: Config, seeds: set<Name>, sent: set<Msg>, i: Name, k: Bytes, p: Proc)
    requires i in c.seedLists && seeds != {}
  {
    i == Least(seeds) ==>
      && !p.initial.NoInitial?
      && (p.initial.Sending? ==> forall j :: j in Others(c, i) ==> j in p.initial.rest || Heard(sent, i, j, 1, k))
  }

  ghost predicate Covers(c: Config, i: Name, r: Seed.Record)
    requires i in c.seedLists
  {
    r == Seed.Wiped() || forall j :: j in Others(c, i) ==> j in r.members
  }

  ghost predicate CalmNode(c: Config, seeds: set<Name>, sent: set<Msg>, i: Name, n: Node)
    requires i in c.seedLists && seeds != {}
  {
    n.proc.Some? ==>
      var p := n.proc.value;
      && (Begun(n) ==> Covers(c, i, p.seed))
      && (p.status == Ready || (Begun(n) && i == Least(seeds)) ==> n.inc in n.fixed)
      && (i != Least(seeds) ==> p.initial == NoInitial)
      && (n.inc in n.fixed ==>
            && MarksInv(c, sent, i, n.fixed[n.inc], p.seed)
            && WorkInv(c, seeds, i, p)
            && FirstRoundInv(c, seeds, sent, i, n.fixed[n.inc], p))
  }

  lemma MarksGrow(c: Config, sent: set<Msg>, sent': set<Msg>, i: Name, k: Bytes, r: Seed.Record)
    requires i in c.seedLists && sent <= sent' && MarksInv(c, sent, i, k, r)
    ensures MarksInv(c, sent', i, k, r)
  {
    forall j | Heard(sent, i, j, 1, k) ensures Heard(sent', i, j, 1, k) { HeardMore(sent, sent', i, j, k); }
  }

  lemma HeardMore(sent: set<Msg>, sent': set<Msg>, i: Name, j: Name, k: Bytes)
    requires sent <= sent' && Heard(sent, i, j, 1, k)
    ensures Heard(sent', i, j, 1, k)
  {
    var m :| m in sent && m.src == i && m.dst == j && m.dstInc == 1 && m.body == KeyInit(k);
    assert m in sent';
  }

  lemma CalmNodeGrows(c: Config, seeds: set<Name>, sent: set<Msg>, sent': set<Msg>, i: Name, n: Node)
    requires i in c.seedLists && seeds != {} && sent <= sent' && CalmNode(c, seeds, sent, i, n)
    ensures CalmNode(c, seeds, sent', i, n)
  {
    if n.proc.Some? && n.inc in n.fixed {
      var k, p := n.fixed[n.inc], n.proc.value;
      MarksGrow(c, sent, sent', i, k, p.seed);
      forall j | Heard(sent, i, j, 1, k) ensures Heard(sent', i, j, 1, k) { HeardMore(sent, sent', i, j, k); }
    }
  }

  // ----------------------------------------------------- steps of one node

  /** The seeding part is untouched. */
  lemma CalmFrame(c: Config, seeds: set<Name>, sent: set<Msg>, i: Name, n: Node, n': Node)
    requires i in c.seedLists && seeds != {} && n.proc.Some? && n'.proc.Some? && CalmNode(c, seeds, sent, i, n)
    requires n'.inc == n.inc && n'.fixed == n.fixed
    requires var p, q := n.proc.value, n'.proc.value;
             && q.seed == p.seed && q.lock == p.lock && q.initial == p.initial && q.forwards == p.forwards
             && q.cleanups == p.cleanups && q.loop.Complete? == p.loop.Complete? && q.status == p.status
    ensures CalmNode(c, seeds, sent, i, n')
  {
  }

  lemma CalmStartSeed(c: Config, seeds: set<Name>, sent: set<Msg>, i: Name, n: Node, members: seq<Name>, key: Bytes,
                      master: bool)
    requires i in c.seedLists && c.seedLists[i] == seeds && i in seeds && n.proc.Some? && Dormant(c, i, n, n.proc.value)
    requires i != [] && (forall x :: x in seeds ==> x in members) && |key| == KEY_SIZE
    requires (master ==> i == Least(seeds)) && (!master ==> i != Least(seeds))
    ensures var st := BeginSeeding(n, n.proc.value, i, members, key, master);
            st.Step? && CalmNode(c, seeds, sent, i, st.node)
  {
    WithoutSelf(members, i);
    OthersNoDup(c, i);
    var n' := BeginSeeding(n, n.proc.value, i, members, key, master).node;
    var q := n'.proc.value;
    forall j | j in Others(c, i) ensures j in q.seed.members {
      assert j in ToSet(Others(c, i)) && i in Added([i]);
    }
    assert forall j :: !Seed.ReceivedFrom(q.seed, j);
  }

  lemma CalmInitialStart(c: Config, seeds: set<Name>, sent: set<Msg>, i: Name, n: Node, q: Proc)
    requires i in c.seedLists && seeds != {} && n.proc.Some? && CalmNode(c, seeds, sent, i, n)
    requires Active(c, sent, i, n, n.proc.value)
    requires n.proc.value.initial.Spawned? && n.proc.value.seed != Seed.Wiped()
    requires q == n.proc.value.(initial := Sending(n.proc.value.initial.key, n.proc.value.seed.members))
    ensures CalmNode(c, seeds, sent, i, n.(proc := Some(q)))
  {
    assert Begun(n);
  }

  /** The first round moves on past `peer`, who got the message or is no seed. */
  lemma CalmInitialPeer(c: Config, seeds: set<Name>, sent: set<Msg>, sent': set<Msg>, i: Name, n: Node, q: Proc)
    requires i in c.seedLists && c.seedLists[i] == seeds && seeds != {} && n.proc.Some?
    requires CalmNode(c, seeds, sent, i, n)
    requires sent <= sent' && n.inc in n.fixed
    requires var p := n.proc.value;
             && p.initial.Sending? && p.initial.rest != []
             && q == p.(initial := Sending(p.initial.key, p.initial.rest[1..]))
             && (p.initial.rest[0] in seeds ==> Heard(sent', i, p.initial.rest[0], 1, n.fixed[n.inc]))
    ensures CalmNode(c, seeds, sent', i, n.(proc := Some(q)))
  {
    CalmNodeGrows(c, seeds, sent, sent', i, n);
    var p := n.proc.value;
    OthersNoDup(c, i);
    forall j | j in Others(c, i) ensures i == Least(seeds) ==>
        j in q.initial.rest || Heard(sent', i, j, 1, n.fixed[n.inc]) {
      assert j in ToSet(Others(c, i));
      assert p.initial.rest == [p.initial.rest[0]] + q.initial.rest;
    }
  }

  lemma CalmForwardStart(c: Config, seeds: set<Name>, sent: set<Msg>, i: Name, n: Node, k: Bytes)
    requires i in c.seedLists && seeds != {} && n.proc.Some? && CalmNode(c, seeds, sent, i, n)
    requires Active(c, sent, i, n, n.proc.value) && n.proc.value.lock == Unlocked && k in n.proc.value.forwards
    ensures var p := n.proc.value;
            CalmNode(c, seeds, sent, i,
                n.(proc := Some(p.(forwards := p.forwards - multiset{k}, lock := Forwarding(k, p.seed.others)))))
  {
    var p := n.proc.value;
    assert Busy(p);
    var q := p.(forwards := p.forwards - multiset{k}, lock := Forwarding(k, p.seed.others));
    assert Busy(q) && WorkInv(c, seeds, i, q);
  }

  /** One forwarding round: `peer` is marked, by this round or an earlier one. */
  lemma CalmForwardPeer(c: Config, seeds: set<Name>, sent: set<Msg>, sent': set<Msg>, i: Name, n: Node, q: Proc)
    requires i in c.seedLists && seeds != {} && n.proc.Some? && CalmNode(c, seeds, sent, i, n) && sent <= sent'
    requires Active(c, sent, i, n, n.proc.value)
    requires var p := n.proc.value;
             && p.lock.Forwarding? && p.lock.rest != []
             && var peer := p.lock.rest[0];
                && q == p.(seed := Seed.ForwardOne(p.seed, peer, Seed.Attempts(p.seed, peer)),
                   lock := Forwarding(p.lock.key, p.lock.rest[1..]))
                && (Seed.Attempts(p.seed, peer) ==> Heard(sent', i, peer, 1, n.fixed[n.inc]))
    ensures CalmNode(c, seeds, sent', i, n.(proc := Some(q)))
  {
    CalmNodeGrows(c, seeds, sent, sent', i, n);
    var p := n.proc.value;
    var peer, others, k := p.lock.rest[0], p.seed.others, n.fixed[n.inc];
    assert peer == others[|others| - |p.lock.rest|] && peer in others;
    ForwardRecord(c, sent, i, n.inc, k, p.seed, peer, Seed.Attempts(p.seed, peer));
    assert Begun(n) && peer in p.seed.members;
    ForwardedMarks(c, sent', i, k, p.seed, q.seed, peer);
    ForwardedWork(c, seeds, i, p, q, peer);
    CalmFromParts(c, seeds, sent', i, n.(proc := Some(q)), q, k);
  }

  lemma ForwardedMarks(c: Config, sent: set<Msg>, i: Name, k: Bytes, r: Seed.Record, r': Seed.Record, peer: Name)
    requires i in c.seedLists && MarksInv(c, sent, i, k, r) && r' == Seed.ForwardOne(r, peer, Seed.Attempts(r, peer))
    requires peer in r.members && (Seed.Attempts(r, peer) ==> Heard(sent, i, peer, 1, k))
    ensures MarksInv(c, sent, i, k, r') && Seed.SentTo(r', peer) && r' != Seed.Wiped()
  {
    assert peer in r'.exchange;
    assert forall j :: Seed.SentTo(r', j) ==> Seed.SentTo(r, j) || j == peer;
  }

  lemma CalmFromParts(c: Config, seeds: set<Name>, sent: set<Msg>, i: Name, n: Node, p: Proc, k: Bytes)
    requires i in c.seedLists && seeds != {} && n.proc == Some(p) && n.inc in n.fixed && n.fixed[n.inc] == k
    requires Covers(c, i, p.seed) && (i != Least(seeds) ==> p.initial == NoInitial)
    requires MarksInv(c, sent, i, k, p.seed) && WorkInv(c, seeds, i, p) && FirstRoundInv(c, seeds, sent, i, k, p)
    ensures CalmNode(c, seeds, sent, i, n)
  {
  }

  lemma ForwardedWork(c: Config, seeds: set<Name>, i: Name, p: Proc, q: Proc, peer: Name)
    requires i in c.seedLists && seeds != {} && WorkInv(c, seeds, i, p)
    requires p.lock.Forwarding? && p.lock.rest != [] && peer == p.lock.rest[0] && |p.lock.rest| <= |p.seed.others|
    requires peer == p.seed.others[|p.seed.others| - |p.lock.rest|]
    requires q == p.(seed := Seed.ForwardOne(p.seed, peer, Seed.Attempts(p.seed, peer)),
             lock := Forwarding(p.lock.key, p.lock.rest[1..]))
    requires p.seed != Seed.Wiped() && q.seed != Seed.Wiped() && Seed.SentTo(q.seed, peer)
    ensures WorkInv(c, seeds, i, q)
  {
    assert forall j :: Seed.ReceivedFrom(q.seed, j) <==> Seed.ReceivedFrom(p.seed, j);
    assert forall j :: Seed.SentTo(p.seed, j) ==> Seed.SentTo(q.seed, j);
  }

  lemma CalmForwardStop(c: Config, seeds: set<Name>, sent: set<Msg>, i: Name, n: Node)
    requires i in c.seedLists && seeds != {} && n.proc.Some? && CalmNode(c, seeds, sent, i, n)
    requires Active(c, sent, i, n, n.proc.value) && n.proc.value.lock.Forwarding? && n.proc.value.lock.rest == []
    ensures var p := n.proc.value;
            CalmNode(c, seeds, sent, i, n.(proc := Some(p.(lock := Unlocked, cleanups := p.cleanups + 1))))
  {
    var p := n.proc.value;
    var q := p.(lock := Unlocked, cleanups := p.cleanups + 1);
    if p.seed != Seed.Wiped() {
      assert p.seed.others == Others(c, i);
      forall j | j in Others(c, i) ensures Seed.SentTo(p.seed, j) {
        var x :| 0 <= x < |Others(c, i)| && Others(c, i)[x] == j;
      }
    }
    assert AllSent(c, i, p.seed);
    assert WorkInv(c, seeds, i, q);
  }

  lemma CalmCleanup(c: Config, seeds: set<Name>, sent: set<Msg>, i: Name, n: Node)
    requires i in c.seedLists && seeds != {} && n.proc.Some? && CalmNode(c, seeds, sent, i, n)
    requires Active(c, sent, i, n, n.proc.value) && n.proc.value.cleanups > 0 && n.proc.value.lock == Unlocked
    ensures var p := n.proc.value;
            CalmNode(c, seeds, sent, i, n.(proc := Some(p.(seed := Seed.Cleanup(p.seed), cleanups := p.cleanups - 1))))
  {
    var p := n.proc.value;
    var q := p.(seed := Seed.Cleanup(p.seed), cleanups := p.cleanups - 1);
    if p.seed != Seed.Wiped() {
      OthersNoDup(c, i);
      Seed.CleanupIffDone(p.seed);
      assert p.seed.others == Others(c, i);
    }
    assert q.seed == p.seed || q.seed == Seed.Wiped();
    assert q.seed == p.seed && p.seed != Seed.Wiped() ==> !EveryoneHeard(c, i, p.seed);
    assert forall j :: !Seed.ReceivedFrom(Seed.Wiped(), j);
    assert WorkInv(c, seeds, i, q);
  }

  lemma CalmFinish(c: Config, seeds: set<Name>, sent: set<Msg>, i: Name, n: Node)
    requires i in c.seedLists && seeds != {} && n.proc.Some? && CalmNode(c, seeds, sent, i, n)
    requires Active(c, sent, i, n, n.proc.value) && n.proc.value.loop.Complete?
    ensures var p := n.proc.value;
            CalmNode(c, seeds, sent, i, CompleteSeeding(n, p, i, p.loop.key).node)
  {
    var p := n.proc.value;
    var q := CompleteSeeding(n, p, i, p.loop.key).node.proc.value;
    assert Done(p) && Done(q);
    assert WorkInv(c, seeds, i, q);
  }

  /** After an accepted key the node has work to do, and what was sent or heard before still is. */
  lemma AcceptedWork(c: Config, seeds: set<Name>, i: Name, p: Proc, q: Proc, src: Name, k: Bytes)
    requires i in c.seedLists && seeds != {} && p.seed != Seed.Wiped() && !Done(p)
    requires WorkInv(c, seeds, i, p) || (p.cleanups == 0 && p.lock == Unlocked && p.forwards == multiset{})
    requires q.seed.exchange == p.seed.exchange[src := Seed.Exchange(Seed.SentTo(p.seed, src), true)]
    requires q.seed != Seed.Wiped()
    requires q.forwards == p.forwards + multiset{k} && q.lock == p.lock && q.cleanups == p.cleanups
    requires p.lock == Unlocked
    requires q.status == p.status && (q.loop.Complete? ==> EveryoneHeard(c, i, q.seed))
    ensures WorkInv(c, seeds, i, q) && Seed.ReceivedFrom(q.seed, src)
  {
    assert k in q.forwards && Busy(q);
    assert Seed.ReceivedFrom(q.seed, src);
    assert forall j :: Seed.SentTo(q.seed, j) <==> Seed.SentTo(p.seed, j);
  }

  /** What the step before must have had for the node after an accepted key to be calm. */
  lemma AcceptedCalm(c: Config, seeds: set<Name>, sent: set<Msg>, i: Name, n: Node, n': Node, m: Msg)
    requires i in c.seedLists && seeds != {} && n.proc.Some? && n'.proc.Some? && m.body.KeyInit?
    requires var p, q := n.proc.value, n'.proc.value;
             && p.seed.generatedKey != [] && HandleSeedKey(n, p, m.body.key, m.src) == Step(n', Silent)
             && p.status == Seeding && p.lock == Unlocked && p.loop.Got? && p.seed != Seed.Wiped()
             && (WorkInv(c, seeds, i, p) || (p.cleanups == 0 && p.lock == Unlocked && p.forwards == multiset{}))
             && (q.loop.Complete? ==> EveryoneHeard(c, i, q.seed))
             && Covers(c, i, p.seed) && MarksInv(c, sent, i, m.body.key, p.seed)
             && FirstRoundInv(c, seeds, sent, i, m.body.key, p) && (i != Least(seeds) ==> p.initial == NoInitial)
    requires n'.inc in n'.fixed && n'.fixed[n'.inc] == m.body.key
    ensures CalmNode(c, seeds, sent, i, n') && Seed.ReceivedFrom(n'.proc.value.seed, m.src)
  {
    var p, q := n.proc.value, n'.proc.value;
    AcceptedShape(n, p, m);
    AcceptedWork(c, seeds, i, p, q, m.src, m.body.key);
    assert forall j :: Seed.SentTo(q.seed, j) <==> Seed.SentTo(p.seed, j);
  }

  /** An accepted key starts a forwarding task. */
  lemma CalmAccepted(c: Config, seeds: set<Name>, sent: set<Msg>, i: Name, n: Node, m: Msg)
    requires ValidConfig(c) && i in c.seedLists && c.seedLists[i] == seeds && seeds != {}
    requires n.proc.Some? && FixedInv(c, i, n) && CalmNode(c, seeds, sent, i, n)
    requires var p := n.proc.value;
             && SeedInv(c, sent, i, n, p) && p.status == Seeding && p.lock == Unlocked && p.loop == Got(m, Seeding)
    requires m in sent && m.dst == i && m.dstInc == n.inc && m.body.KeyInit?
    requires HandleSeedKey(n, n.proc.value, m.body.key, m.src).Step?
    requires n.inc !in n.fixed ==> i != Least(seeds)
    ensures var n' := HandleSeedKey(n, n.proc.value, m.body.key, m.src).node;
            CalmNode(c, seeds, sent, i, n') && n'.proc.Some? && Seed.ReceivedFrom(n'.proc.value.seed, m.src)
  {
    var p := n.proc.value;
    var n' := HandleSeedKey(n, p, m.body.key, m.src).node;
    assert Begun(n);
    if Waiting(c, i, n, p) {
      AcceptedFirst(c, sent, i, n, p, m);
      AcceptedRecord(c, sent, i, n.inc, p.seed, m);
      assert forall j :: !Seed.SentTo(p.seed, j);
    } else {
      assert p.seed != Seed.Wiped();
      AcceptedAgain(c, sent, i, n, p, m);
      AcceptedRecord(c, sent, i, n.inc, p.seed, m);
    }
    AcceptedCalm(c, seeds, sent, i, n, n', m);
  }

  lemma AcceptedShape(n: Node, p: Proc, m: Msg)
    requires m.body.KeyInit? && p.seed.generatedKey != [] && HandleSeedKey(n, p, m.body.key, m.src).Step?
    ensures var n' := HandleSeedKey(n, p, m.body.key, m.src).node;
            && n'.proc.Some? && n'.inc == n.inc
            && var q := n'.proc.value;
               && q.seed.exchange == p.seed.exchange[m.src := Seed.Exchange(Seed.SentTo(p.seed, m.src), true)]
               && q.forwards == p.forwards + multiset{m.body.key} && q.lock == p.lock && q.cleanups == p.cleanups
               && q.status == p.status && q.initial == p.initial && q.seed.members == p.seed.members
               && q.seed != Seed.Wiped()
  {
  }

  // ------------------------------------------------------------ the cluster

  ghost predicate GotFrom(n: Node, j: Name) {
    n.proc.Some? && n.inc in n.fixed && (n.proc.value.seed == Seed.Wiped() || Seed.ReceivedFrom(n.proc.value.seed, j))
  }

  ghost predicate Pending(n: Node, m: Msg) {
    n.proc.Some? && n.proc.value.loop.Got? && n.proc.value.loop.msg == m
    && (n.proc.value.loop.seen == Seeding || n.proc.value.loop.seen == Ready)
  }

  ghost predicate Reached(n: Node, m: Msg) {
    Pending(n, m) || GotFrom(n, m.src)
  }

  /** The message is under way, being handled, or heard. */
  ghost predicate DeliveredIn(s: State, m: Msg) {
    m in s.net || (m.dst in s.nodes && Reached(s.nodes[m.dst], m))
  }

  ghost predicate NoKeySent(sent: set<Msg>) {
    forall m :: m in sent ==> !m.body.KeyInit?
  }

  ghost predicate FirstPending(seeds: set<Name>, s: State)
    requires seeds != {}
  {
    Least(seeds) in s.nodes && s.nodes[Least(seeds)].proc.Some? && s.nodes[Least(seeds)].proc.value.initial.Spawned?
  }

  /** What every reliable run keeps, early reads or not. */
  ghost predicate TaskInv(c: Config, seeds: set<Name>, s: State)
    requires seeds != {}
  {
    && FreshInv(c, seeds, s)
    && (forall i :: i in s.nodes && i in seeds ==> i in c.seedLists && CalmNode(c, seeds, s.sent, i, s.nodes[i]))
    && (FirstPending(seeds, s) ==> NoKeySent(s.sent))
  }

  /** Without early reads no key message is lost either. */
  ghost predicate CalmInv(c: Config, seeds: set<Name>, s: State)
    requires seeds != {}
  {
    && TaskInv(c, seeds, s)
    && (forall m :: m in s.sent && m.body.KeyInit? && m.dst in seeds ==> DeliveredIn(s, m))
  }

  /** A fresh cluster with at least two seeds. */
  ghost predicate SeedCluster(c: Config, seeds: set<Name>) {
    FreshCluster(c, seeds) && |seeds| >= 2
  }

  lemma HasOthers(c: Config, seeds: set<Name>, i: Name)
    requires SeedCluster(c, seeds) && i in c.names && i in seeds
    ensures Others(c, i) != []
  {
    OthersNoDup(c, i);
    EmptySet(Others(c, i));
    if Others(c, i) == [] {
      assert seeds <= {i};
      SubsetSize(seeds, {i});
    }
  }

  /** Whoever is forwarding has heard from somebody, so a key has been sent. */
  lemma ForwardingMeansSent(c: Config, seeds: set<Name>, sent: set<Msg>, i: Name, n: Node)
    requires i in c.seedLists && seeds != {} && CalmNode(c, seeds, sent, i, n) && n.proc.Some?
    requires Active(c, sent, i, n, n.proc.value)
    requires n.proc.value.seed == Seed.Wiped() || n.proc.value.lock.Forwarding?
    requires Others(c, i) != []
    ensures !NoKeySent(sent)
  {
    var p, k := n.proc.value, n.fixed[n.inc];
    if p.seed == Seed.Wiped() {
      var j := Others(c, i)[0];
      assert Heard(sent, i, j, 1, k);
    } else {
      assert Busy(p);
      var j :| Seed.ReceivedFrom(p.seed, j);
      assert Heard(sent, j, i, n.inc, k);
    }
  }

  // ---------------------------------------------- every step keeps a node calm

  predicate TouchesSeeding(l: Label) {
    l.Boot? || l.Crash? || l.StartSeed? || l.InitialStart? || l.InitialPeer? || l.ForwardStart? || l.ForwardPeer?
        || l.ForwardStop?
    || l.RunCleanup? || l.Handle? || l.Finish?
  }

  predicate MovesStatus(l: Label) {
    l.OwnKeyReady? || l.EnterValidating? || l.EnterNoKey? || l.StartQuery?
  }

  lemma UntouchedSeeding(c: Config, i: Name, n: Node, l: Label)
    requires i in c.seedLists && n.proc.Some? && LocalEnabled(c, i, n, l) && !TouchesSeeding(l)
    ensures var n' := NextNode(c, i, n, l);
            && n'.proc.Some? && n'.inc == n.inc && n'.fixed == n.fixed
            && var p, q := n.proc.value, n'.proc.value;
               && q.seed == p.seed && q.lock == p.lock && q.initial == p.initial && q.forwards == p.forwards
               && q.cleanups == p.cleanups && q.loop.Complete? == p.loop.Complete?
               && (MovesStatus(l) || q.status == p.status)
               && (q.loop == p.loop || l.Take?)
  {
    if l.AskPeer? { AskOnly(n, n.proc.value, i, l.ok); }
  }

  lemma CalmDormant(c: Config, seeds: set<Name>, sent: set<Msg>, i: Name, n: Node)
    requires i in c.seedLists && seeds != {} && n.proc.Some? && Dormant(c, i, n, n.proc.value)
    requires n.proc.value.status == Booting || n.proc.value.status == NoKey
    ensures CalmNode(c, seeds, sent, i, n)
  {
  }

  /** Steps outside the seeding record. */
  lemma CalmOutside(c: Config, seeds: set<Name>, sent: set<Msg>, known: set<Bytes>, i: Name, n: Node, l: Label)
    requires FreshCluster(c, seeds) && i in c.seedLists && i in seeds && NodeInv(c, sent, known, i, n) && FirstLife(n)
    requires n.proc.Some? && LocalEnabled(c, i, n, l) && !TouchesSeeding(l) && !l.StartQuery?
    requires CalmNode(c, seeds, sent, i, n)
    ensures CalmNode(c, seeds, sent, i, NextNode(c, i, n, l))
  {
    UntouchedSeeding(c, i, n, l);
    if l.EnterNoKey? {
      assert Dormant(c, i, n, n.proc.value);
      CalmDormant(c, seeds, sent, i, NextNode(c, i, n, l));
    } else {
      CalmFrame(c, seeds, sent, i, n, NextNode(c, i, n, l));
    }
  }

  lemma CalmHandleOther(c: Config, seeds: set<Name>, sent: set<Msg>, i: Name, n: Node, random: Bytes)
    requires i in c.seedLists && seeds != {} && n.proc.Some? && CalmNode(c, seeds, sent, i, n)
    requires n.proc.value.loop.Got? && LoopInv(sent, i, n, n.proc.value)
    requires n.proc.value.status != QueryKey && n.proc.value.status != Validating
    requires !(n.proc.value.loop.seen == Seeding && n.proc.value.loop.msg.body.KeyInit?)
    requires Dispatch(c, i, n, n.proc.value, n.proc.value.loop.msg, n.proc.value.loop.seen, random).Step?
    ensures CalmNode(c, seeds, sent, i,
            Dispatch(c, i, n, n.proc.value, n.proc.value.loop.msg, n.proc.value.loop.seen, random).node)
  {
    var p := n.proc.value;
    DispatchOutside(c, i, n, p, p.loop.msg, p.loop.seen, random);
    CalmFrame(c, seeds, sent, i, n, Dispatch(c, i, n, p, p.loop.msg, p.loop.seen, random).node);
  }

  lemma CalmHandleKey(c: Config, seeds: set<Name>, s: State, i: Name)
    requires FreshCluster(c, seeds) && TaskInv(c, seeds, s) && i in s.nodes && i in seeds && s.nodes[i].proc.Some?
    requires var p := s.nodes[i].proc.value;
             && p.loop.Got? && p.loop.seen == Seeding && p.loop.msg.body.KeyInit? && p.lock == Unlocked
             && HandleSeedKey(s.nodes[i], p, p.loop.msg.body.key, p.loop.msg.src).Step?
    ensures var n, m := s.nodes[i], s.nodes[i].proc.value.loop.msg;
            var n' := HandleSeedKey(n, n.proc.value, m.body.key, m.src).node;
            CalmNode(c, seeds, s.sent, i, n') && n'.proc.Some? && Seed.ReceivedFrom(n'.proc.value.seed, m.src)
  {
    var n := s.nodes[i];
    var m := n.proc.value.loop.msg;
    if n.inc !in n.fixed { HandledByMaster(c, seeds, s, i, m); }
    CalmAccepted(c, seeds, s.sent, i, n, m);
  }

  lemma CalmHandle(c: Config, seeds: set<Name>, s: State, l: Label)
    requires FreshCluster(c, seeds) && TaskInv(c, seeds, s) && Enabled(c, s, l) && l.Handle? && l.i in seeds
    ensures CalmNode(c, seeds, s.sent, l.i, NextNode(c, l.i, s.nodes[l.i], l))
  {
    FreshStepCompletes(c, seeds, s, l);
    var n := s.nodes[l.i];
    var p := n.proc.value;
    HandleIsDispatch(c, l.i, n, l);
    assert FirstLife(n) && NoQuery(n);
    if p.loop.seen == Seeding && p.loop.msg.body.KeyInit? {
      CalmHandleKey(c, seeds, s, l.i);
    } else {
      CalmHandleOther(c, seeds, s.sent, l.i, n, l.random);
    }
  }

  /** The master has its key from the start. */
  lemma HandledByMaster(c: Config, seeds: set<Name>, s: State, i: Name, m: Msg)
    requires FreshCluster(c, seeds) && FreshInv(c, seeds, s) && i in s.nodes && m in s.sent && m.body.KeyInit?
    requires s.nodes[i].proc.Some? && s.nodes[i].inc !in s.nodes[i].fixed
    ensures i != Least(seeds)
  {
    assert SentInv(c, s, m);
    assert FirstLife(s.nodes[m.src]) && FirstLife(s.nodes[i]);
  }

  lemma DispatchOutside(c: Config, i: Name, n: Node, p: Proc, m: Msg, seen: Status, random: Bytes)
    requires n.proc == Some(p) && p.loop == Got(m, seen) && !(seen == Seeding && m.body.KeyInit?)
    requires seen != QueryKey && seen != Validating
    requires Dispatch(c, i, n, p, m, seen, random).Step?
    ensures var n' := Dispatch(c, i, n, p, m, seen, random).node;
            && n'.proc.Some? && n'.inc == n.inc && n'.fixed == n.fixed
            && var q := n'.proc.value;
               && q.seed == p.seed && q.lock == p.lock && q.initial == p.initial && q.forwards == p.forwards
               && q.cleanups == p.cleanups && q.loop == Idle && q.status == p.status
  {
  }

  /** A key message that is posted in a fresh cluster is addressed to a first incarnation. */
  lemma PostedHeard(c: Config, seeds: set<Name>, s: State, s': State, i: Name, st: Step, k: Bytes)
    requires seeds != {} && FreshInv(c, seeds, s) && i in s.nodes
    requires st.Step? && st.out.Send? && st.out.body == KeyInit(k)
    requires st.out.dst in s.nodes && s.nodes[st.out.dst].proc.Some?
    requires s'.sent == s.sent + Posted(s, i, st)
    ensures Heard(s'.sent, i, st.out.dst, 1, k)
  {
    assert FirstLife(s.nodes[st.out.dst]);
    var m := Msg(i, s.nodes[i].inc, st.out.dst, s.nodes[st.out.dst].inc, st.out.body);
    assert m in s'.sent;
  }

  lemma StartSeedFacts(c: Config, seeds: set<Name>, i: Name, n: Node, l: Label)
    requires FreshCluster(c, seeds) && i in c.names && i in seeds && n.proc.Some? && Dormant(c, i, n, n.proc.value)
    requires l.StartSeed? && ProcEnabled(c, i, n, n.proc.value, l)
    ensures |l.key| == KEY_SIZE && (l.master <==> i == Least(seeds))
    ensures NextNode(c, i, n, l) == BeginSeeding(n, n.proc.value, i, l.members, l.key, l.master).node
  {
    ElectsLeast(c, seeds, i);
  }

  lemma CalmStepStartSeed(c: Config, seeds: set<Name>, s: State, l: Label)
    requires FreshCluster(c, seeds) && TaskInv(c, seeds, s) && Enabled(c, s, l) && Reliable(c, seeds, s, l)
    requires l.i in seeds
    requires l.StartSeed?
    ensures CalmNode(c, seeds, s.sent, l.i, NextNode(c, l.i, s.nodes[l.i], l))
  {
    var n := s.nodes[l.i];
    assert Dormant(c, l.i, n, n.proc.value);
    StartSeedFacts(c, seeds, l.i, n, l);
    CalmStartSeed(c, seeds, s.sent, l.i, n, l.members, l.key, l.master);
  }

  /** The master's record is in use until its first round begins. */
  lemma FirstRoundNotWiped(c: Config, seeds: set<Name>, s: State, i: Name)
    requires SeedCluster(c, seeds) && TaskInv(c, seeds, s) && i in s.nodes && i in seeds && s.nodes[i].proc.Some?
    requires s.nodes[i].proc.value.initial.Spawned? && Active(c, s.sent, i, s.nodes[i], s.nodes[i].proc.value)
    ensures s.nodes[i].proc.value.seed != Seed.Wiped()
  {
    HasOthers(c, seeds, i);
    assert CalmNode(c, seeds, s.sent, i, s.nodes[i]);
    assert FirstPending(seeds, s);
    if s.nodes[i].proc.value.seed == Seed.Wiped() { ForwardingMeansSent(c, seeds, s.sent, i, s.nodes[i]); }
  }

  lemma CalmStepInitialStart(c: Config, seeds: set<Name>, s: State, l: Label)
    requires SeedCluster(c, seeds) && TaskInv(c, seeds, s) && Enabled(c, s, l) && l.i in seeds && l.InitialStart?
    ensures CalmNode(c, seeds, s.sent, l.i, NextNode(c, l.i, s.nodes[l.i], l))
  {
    var n := s.nodes[l.i];
    var p := n.proc.value;
    InitialStartShape(c, l.i, n, l);
    TaskIsActive(c, s.sent, s.known, l.i, n, l);
    FirstRoundNotWiped(c, seeds, s, l.i);
    CalmInitialStart(c, seeds, s.sent, l.i, n, p.(initial := Sending(p.initial.key, p.seed.members)));
  }

  lemma CalmStepInitialPeer(c: Config, seeds: set<Name>, s: State, l: Label, s': State)
    requires FreshCluster(c, seeds) && TaskInv(c, seeds, s) && Enabled(c, s, l) && Reliable(c, seeds, s, l)
    requires l.i in seeds
    requires l.InitialPeer? && s'.sent == s.sent + StepPosts(c, s, l)
    ensures CalmNode(c, seeds, s'.sent, l.i, NextNode(c, l.i, s.nodes[l.i], l))
  {
    var n := s.nodes[l.i];
    var p := n.proc.value;
    assert Active(c, s.sent, l.i, n, p);
    if l.ok { PostedHeard(c, seeds, s, s', l.i, LocalStep(c, l.i, n, l), p.initial.key); }
    CalmInitialPeer(c, seeds, s.sent, s'.sent, l.i, n, p.(initial := Sending(p.initial.key, p.initial.rest[1..])));
  }

  lemma CalmStepForwardPeer(c: Config, seeds: set<Name>, s: State, l: Label, s': State)
    requires FreshCluster(c, seeds) && TaskInv(c, seeds, s) && Enabled(c, s, l) && Reliable(c, seeds, s, l)
    requires l.i in seeds
    requires l.ForwardPeer? && s'.sent == s.sent + StepPosts(c, s, l)
    ensures CalmNode(c, seeds, s'.sent, l.i, NextNode(c, l.i, s.nodes[l.i], l))
  {
    var n := s.nodes[l.i];
    var p := n.proc.value;
    assert Active(c, s.sent, l.i, n, p);
    var peer := p.lock.rest[0];
    if Seed.Attempts(p.seed, peer) { PostedHeard(c, seeds, s, s', l.i, LocalStep(c, l.i, n, l), p.lock.key); }
    var q := p.(seed := Seed.ForwardOne(p.seed, peer, Seed.Attempts(p.seed, peer)),
                lock := Forwarding(p.lock.key, p.lock.rest[1..]));
    CalmForwardPeer(c, seeds, s.sent, s'.sent, l.i, n, q);
  }

  /** The remaining steps of the seeding. */
  lemma CalmStepTask(c: Config, seeds: set<Name>, s: State, l: Label)
    requires FreshCluster(c, seeds) && TaskInv(c, seeds, s) && Enabled(c, s, l) && l.i in seeds
    requires l.ForwardStart? || l.ForwardStop? || l.RunCleanup? || l.Finish?
    ensures CalmNode(c, seeds, s.sent, l.i, NextNode(c, l.i, s.nodes[l.i], l))
  {
    var n := s.nodes[l.i];
    TaskIsActive(c, s.sent, s.known, l.i, n, l);
    match l {
      case ForwardStart(_, k) =>
        ForwardStartShape(c, l.i, n, l);
        CalmForwardStart(c, seeds, s.sent, l.i, n, k);
      case ForwardStop(_) =>
        ForwardStopShape(c, l.i, n, l);
        CalmForwardStop(c, seeds, s.sent, l.i, n);
      case RunCleanup(_) =>
        CleanupShape(c, l.i, n, l);
        CalmCleanup(c, seeds, s.sent, l.i, n);
      case Finish(_) =>
        FinishShape(c, l.i, n, l);
        CalmFinish(c, seeds, s.sent, l.i, n);
    }
  }

  lemma CalmStepBoot(c: Config, seeds: set<Name>, sent: set<Msg>, i: Name, n: Node, l: Label)
    requires i in c.seedLists && seeds != {} && n.proc.None? && FixedInv(c, i, n) && LocalEnabled(c, i, n, l)
    ensures CalmNode(c, seeds, sent, i, NextNode(c, i, n, l))
  {
    var n' := NextNode(c, i, n, l);
    assert n'.inc !in n'.fixed;
    CalmDormant(c, seeds, sent, i, n');
  }

  lemma CalmNodeStep(c: Config, seeds: set<Name>, s: State, l: Label, s': State)
    requires SeedCluster(c, seeds) && TaskInv(c, seeds, s) && Enabled(c, s, l) && Reliable(c, seeds, s, l)
    requires l.i in seeds
    requires s'.sent == s.sent + StepPosts(c, s, l)
    ensures CalmNode(c, seeds, s'.sent, l.i, NextNode(c, l.i, s.nodes[l.i], l))
  {
    var n := s.nodes[l.i];
    if l.InitialPeer? {
      CalmStepInitialPeer(c, seeds, s, l, s');
    } else if l.ForwardPeer? {
      CalmStepForwardPeer(c, seeds, s, l, s');
    } else {
      if n.proc.None? {
        CalmStepBoot(c, seeds, s.sent, l.i, n, l);
      } else if l.StartSeed? {
        CalmStepStartSeed(c, seeds, s, l);
      } else if l.InitialStart? {
        CalmStepInitialStart(c, seeds, s, l);
      } else if l.Handle? {
        CalmHandle(c, seeds, s, l);
      } else if TouchesSeeding(l) {
        CalmStepTask(c, seeds, s, l);
      } else {
        if l.StartQuery? { NoSeedAsks(c, seeds, s, l); }
        CalmOutside(c, seeds, s.sent, s.known, l.i, n, l);
      }
      CalmNodeGrows(c, seeds, s.sent, s'.sent, l.i, NextNode(c, l.i, n, l));
    }
  }

  // ------------------------------------------------------ no message is lost

  lemma GotFromTask(c: Config, i: Name, n: Node, l: Label, j: Name)
    requires i in c.seedLists && n.proc.Some? && LocalEnabled(c, i, n, l) && GotFrom(n, j)
    requires l.InitialStart? || l.InitialPeer? || l.ForwardStart? || l.ForwardPeer? || l.ForwardStop? ||
               l.RunCleanup? || l.Finish?
    requires l.ForwardPeer? ==> n.proc.value.seed != Seed.Wiped()
    ensures GotFrom(NextNode(c, i, n, l), j)
  {
  }

  lemma GotFromStep(c: Config, sent: set<Msg>, known: set<Bytes>, i: Name, n: Node, l: Label, j: Name)
    requires i in c.seedLists && NodeInv(c, sent, known, i, n) && LocalEnabled(c, i, n, l)
    requires !l.Crash? && LocalStep(c, i, n, l).Step? && GotFrom(n, j)
    ensures GotFrom(NextNode(c, i, n, l), j)
  {
    var p := n.proc.value;
    assert Active(c, sent, i, n, p);
    assert !l.StartSeed? && !l.Boot?;
    if l.Handle? {
      GotFromHandle(c, i, n, p, l.random, j);
    } else if !TouchesSeeding(l) {
      UntouchedSeeding(c, i, n, l);
    } else {
      GotFromTask(c, i, n, l, j);
    }
  }

  lemma GotFromHandle(c: Config, i: Name, n: Node, p: Proc, random: Bytes, j: Name)
    requires n.proc == Some(p) && GotFrom(n, j) && p.loop.Got?
    requires Dispatch(c, i, n, p, p.loop.msg, p.loop.seen, random).Step?
    ensures GotFrom(Dispatch(c, i, n, p, p.loop.msg, p.loop.seen, random).node, j)
  {
  }

  lemma PendingStays(c: Config, i: Name, n: Node, l: Label)
    requires i in c.seedLists && LocalEnabled(c, i, n, l) && n.proc.Some? && n.proc.value.loop.Got?
    requires !l.Handle? && !l.Crash?
    ensures NextNode(c, i, n, l).proc.Some? && NextNode(c, i, n, l).proc.value.loop == n.proc.value.loop
  {
    if !TouchesSeeding(l) { UntouchedSeeding(c, i, n, l); }
  }

  /** A message being handled by a seed that has begun ends as heard. */
  lemma PendingHandled(c: Config, seeds: set<Name>, s: State, l: Label, m: Msg)
    requires FreshCluster(c, seeds) && TaskInv(c, seeds, s) && Enabled(c, s, l) && l.Handle? && l.i in seeds
    requires Pending(s.nodes[l.i], m) && m.body.KeyInit?
    ensures GotFrom(NextNode(c, l.i, s.nodes[l.i], l), m.src)
  {
    FreshStepCompletes(c, seeds, s, l);
    var n := s.nodes[l.i];
    var p := n.proc.value;
    if p.loop.seen == Seeding {
      CalmHandleKey(c, seeds, s, l.i);
      HandledIsFixed(c, s, l.i, m);
    } else {
      assert p.status == Ready && Done(p);
      assert SentInv(c, s, m);
      OthersNoDup(c, l.i);
      assert m.src in ToSet(Others(c, l.i));
      assert GotFrom(n, m.src);
      GotFromStep(c, s.sent, s.known, l.i, n, l, m.src);
    }
  }

  lemma HandledIsFixed(c: Config, s: State, i: Name, m: Msg)
    requires ValidConfig(c) && Inv(c, s) && i in s.nodes && s.nodes[i].proc.Some? && m.body.KeyInit?
    requires s.nodes[i].proc.value.loop == Got(m, Seeding) && s.nodes[i].proc.value.lock == Unlocked
    requires HandleSeedKey(s.nodes[i], s.nodes[i].proc.value, m.body.key, m.src).Step?
    ensures var n' := HandleSeedKey(s.nodes[i], s.nodes[i].proc.value, m.body.key, m.src).node; n'.inc in n'.fixed
  {
    var n := s.nodes[i];
    var p := n.proc.value;
    if Waiting(c, i, n, p) { AcceptedFirst(c, s.sent, i, n, p, m); } else { AcceptedAgain(c, s.sent, i, n, p, m); }
  }

  lemma ReachedStep(c: Config, seeds: set<Name>, s: State, l: Label, m: Msg)
    requires FreshCluster(c, seeds) && TaskInv(c, seeds, s) && Enabled(c, s, l) && Reliable(c, seeds, s, l)
    requires l.i in seeds && m.body.KeyInit? && Reached(s.nodes[l.i], m)
    ensures Reached(NextNode(c, l.i, s.nodes[l.i], l), m)
  {
    FreshStepCompletes(c, seeds, s, l);
    var n := s.nodes[l.i];
    if GotFrom(n, m.src) {
      GotFromStep(c, s.sent, s.known, l.i, n, l, m.src);
    } else if l.Handle? {
      PendingHandled(c, seeds, s, l, m);
    } else {
      PendingStays(c, l.i, n, l);
    }
  }

  lemma TakenIsPending(c: Config, seeds: set<Name>, s: State, l: Label)
    requires Enabled(c, s, l) && CalmStep(c, seeds, s, l) && l.Take? && l.msg.dst in seeds && l.msg.body.KeyInit?
    ensures l.msg.dst == l.i && Pending(NextNode(c, l.i, s.nodes[l.i], l), l.msg)
  {
  }

  lemma NetAfter(c: Config, s: State, l: Label)
    requires Enabled(c, s, l)
    ensures Apply(c, s, l).net == (if l.Take? then s.net - multiset{l.msg} else s.net) + multiset(StepPosts(c, s, l))
  {
  }

  /** Where a message is after a step of `i` to `n'` that posts `posted` and takes `taken`. */
  lemma DeliveredMove(s: State, s': State, i: Name, n': Node, posted: set<Msg>, taken: multiset<Msg>, m: Msg)
    requires i in s.nodes && s'.nodes == s.nodes[i := n'] && s'.net == s.net - taken + multiset(posted)
    requires m in posted || DeliveredIn(s, m)
    requires m in taken ==> m.dst == i && Reached(n', m)
    requires m.dst == i && Reached(s.nodes[i], m) ==> Reached(n', m)
    ensures DeliveredIn(s', m)
  {
    if m in posted { assert m in multiset(posted); }
  }

  lemma DeliveredStep(c: Config, seeds: set<Name>, s: State, l: Label, s': State, m: Msg)
    requires FreshCluster(c, seeds) && CalmInv(c, seeds, s) && Enabled(c, s, l) && CalmStep(c, seeds, s, l)
    requires s'.nodes == s.nodes[l.i := NextNode(c, l.i, s.nodes[l.i], l)]
    requires s'.net == (if l.Take? then s.net - multiset{l.msg} else s.net) + multiset(StepPosts(c, s, l))
    requires m.body.KeyInit? && m.dst in seeds && (m in StepPosts(c, s, l) || DeliveredIn(s, m))
    ensures DeliveredIn(s', m)
  {
    var n' := NextNode(c, l.i, s.nodes[l.i], l);
    if l.Take? && l.msg == m { TakenIsPending(c, seeds, s, l); }
    if m.dst == l.i && Reached(s.nodes[l.i], m) { ReachedStep(c, seeds, s, l, m); }
    assert s.net - multiset{} == s.net;
    DeliveredMove(s, s', l.i, n', StepPosts(c, s, l), if l.Take? then multiset{l.msg} else multiset{}, m);
  }

  // ---------------------------------------------------------- the first round

  /** Nobody sends a key while the master's first round has not begun. */
  lemma NoSendBeforeFirst(c: Config, seeds: set<Name>, s: State, l: Label)
    requires SeedCluster(c, seeds) && TaskInv(c, seeds, s) && Enabled(c, s, l) && FirstPending(seeds, s)
    ensures NoKeySent(StepPosts(c, s, l))
  {
    StepOutgoing(c, s, l);
    var n := s.nodes[l.i];
    forall m | m in StepPosts(c, s, l) ensures !m.body.KeyInit? {
      if m.body.KeyInit? {
        KeySenders(c, s, l, m);
        assert IsSeed(c, l.i);
        if l.ForwardPeer? {
          HasOthers(c, seeds, l.i);
          assert Active(c, s.sent, l.i, n, n.proc.value);
          ForwardingMeansSent(c, seeds, s.sent, l.i, n);
        }
      }
    }
  }

  lemma KeySenders(c: Config, s: State, l: Label, m: Msg)
    requires ValidConfig(c) && Inv(c, s) && Enabled(c, s, l) && m in StepPosts(c, s, l) && m.body.KeyInit?
    ensures l.InitialPeer? || l.ForwardPeer?
  {
    var n := s.nodes[l.i];
    if !Sends(l) {
      OtherwiseSilent(c, l.i, n, l);
    } else if l.AskPeer? {
      AskNoKey(n, n.proc.value, l.i, l.ok);
    }
  }

  lemma AskNoKey(n: Node, p: Proc, i: Name, ok: bool)
    ensures var st := AskOne(n, p, i, ok); st.Step? && (st.out.Send? ==> !st.out.body.KeyInit?)
  {
  }

  /** The first round becomes pending only when nobody has fixed a key. */
  lemma FirstBecomesPending(c: Config, seeds: set<Name>, s: State, l: Label)
    requires FreshCluster(c, seeds) && FreshInv(c, seeds, s) && Enabled(c, s, l) && l.i == Least(seeds)
    requires !(s.nodes[l.i].proc.Some? && s.nodes[l.i].proc.value.initial.Spawned?)
    requires NextNode(c, l.i, s.nodes[l.i], l).proc.Some?
    requires NextNode(c, l.i, s.nodes[l.i], l).proc.value.initial.Spawned?
    ensures NoKeySent(s.sent) && StepPosts(c, s, l) == {}
  {
    var n := s.nodes[l.i];
    SpawnedBy(c, l.i, n, l);
    OtherwiseSilent(c, l.i, n, l);
    assert FirstLife(n) && Dormant(c, l.i, n, n.proc.value);
    assert n.fixed == map[] by { assert forall x :: x in n.fixed ==> x == 1; }
    UnfixedMeansUnsent(c, seeds, s);
  }

  /** As long as the master has fixed nothing, nobody has sent a key. */
  lemma UnfixedMeansUnsent(c: Config, seeds: set<Name>, s: State)
    requires seeds != {} && FreshInv(c, seeds, s) && Least(seeds) in s.nodes && s.nodes[Least(seeds)].fixed == map[]
    ensures NoKeySent(s.sent)
  {
    forall m | m in s.sent ensures !m.body.KeyInit? {
      assert SentInv(c, s, m);
      if m.src in s.nodes { NobodyFixed(c, seeds, s, m.src); }
    }
  }

  lemma SpawnedBy(c: Config, i: Name, n: Node, l: Label)
    requires i in c.seedLists && LocalEnabled(c, i, n, l)
    requires !(n.proc.Some? && n.proc.value.initial.Spawned?)
    requires NextNode(c, i, n, l).proc.Some? && NextNode(c, i, n, l).proc.value.initial.Spawned?
    ensures l.StartSeed? && n.proc.Some?
  {
    if n.proc.Some? {
      if !TouchesSeeding(l) { UntouchedSeeding(c, i, n, l); }
      if l.Handle? { DispatchInitial(c, i, n, n.proc.value, l.random); }
    }
  }

  lemma DispatchInitial(c: Config, i: Name, n: Node, p: Proc, random: Bytes)
    requires n.proc == Some(p) && p.loop.Got?
    ensures var st := Dispatch(c, i, n, p, p.loop.msg, p.loop.seen, random);
            st.Step? ==> st.node.proc.Some? && st.node.proc.value.initial == p.initial
  {
  }

  // ------------------------------------------------------------------- runs

  lemma CalmNodesStep(c: Config, seeds: set<Name>, s: State, l: Label, s': State)
    requires SeedCluster(c, seeds) && TaskInv(c, seeds, s) && Enabled(c, s, l) && Reliable(c, seeds, s, l)
    requires s'.nodes == s.nodes[l.i := NextNode(c, l.i, s.nodes[l.i], l)] && s'.sent == s.sent + StepPosts(c, s, l)
    ensures forall i :: i in s'.nodes && i in seeds ==> i in c.seedLists && CalmNode(c, seeds, s'.sent, i, s'.nodes[i])
  {
    if l.i in seeds { CalmNodeStep(c, seeds, s, l, s'); }
    forall i | i in s'.nodes && i in seeds ensures i in c.seedLists && CalmNode(c, seeds, s'.sent, i, s'.nodes[i]) {
      if i != l.i { CalmNodeGrows(c, seeds, s.sent, s'.sent, i, s.nodes[i]); }
    }
  }

  lemma CalmFirstStep(c: Config, seeds: set<Name>, s: State, l: Label, s': State)
    requires SeedCluster(c, seeds) && TaskInv(c, seeds, s) && Enabled(c, s, l)
    requires s'.nodes == s.nodes[l.i := NextNode(c, l.i, s.nodes[l.i], l)] && s'.sent == s.sent + StepPosts(c, s, l)
    ensures FirstPending(seeds, s') ==> NoKeySent(s'.sent)
  {
    if FirstPending(seeds, s) {
      NoSendBeforeFirst(c, seeds, s, l);
      NothingAdded(s.sent, StepPosts(c, s, l));
    } else if FirstPending(seeds, s') {
      OnlyMoverSpawns(seeds, s, s', l.i, NextNode(c, l.i, s.nodes[l.i], l));
      FirstBecomesPending(c, seeds, s, l);
      NothingAdded(s.sent, StepPosts(c, s, l));
    }
  }

  lemma NothingAdded(sent: set<Msg>, posted: set<Msg>)
    requires NoKeySent(sent) && NoKeySent(posted)
    ensures NoKeySent(sent + posted)
  {
  }

  lemma OnlyMoverSpawns(seeds: set<Name>, s: State, s': State, i: Name, n': Node)
    requires seeds != {} && i in s.nodes && s'.nodes == s.nodes[i := n'] && !FirstPending(seeds, s)
    requires FirstPending(seeds, s')
    ensures i == Least(seeds) && n'.proc.Some? && n'.proc.value.initial.Spawned?
    ensures !(s.nodes[i].proc.Some? && s.nodes[i].proc.value.initial.Spawned?)
  {
  }

  lemma TaskInvStep(c: Config, seeds: set<Name>, s: State, l: Label)
    requires SeedCluster(c, seeds) && TaskInv(c, seeds, s) && Enabled(c, s, l) && Reliable(c, seeds, s, l)
    ensures TaskInv(c, seeds, Apply(c, s, l))
  {
    var s' := Apply(c, s, l);
    FreshInvStep(c, seeds, s, l);
    ApplyShape(c, s, l, s', NextNode(c, l.i, s.nodes[l.i], l), StepPosts(c, s, l));
    CalmNodesStep(c, seeds, s, l, s');
    CalmFirstStep(c, seeds, s, l, s');
  }

  lemma CalmInvStep(c: Config, seeds: set<Name>, s: State, l: Label)
    requires SeedCluster(c, seeds) && CalmInv(c, seeds, s) && Enabled(c, s, l) && CalmStep(c, seeds, s, l)
    ensures CalmInv(c, seeds, Apply(c, s, l))
  {
    var s' := Apply(c, s, l);
    TaskInvStep(c, seeds, s, l);
    NetAfter(c, s, l);
    ApplyShape(c, s, l, s', NextNode(c, l.i, s.nodes[l.i], l), StepPosts(c, s, l));
    forall m | m in s'.sent && m.body.KeyInit? && m.dst in seeds ensures DeliveredIn(s', m) {
      DeliveredStep(c, seeds, s, l, s', m);
    }
  }

  lemma InitCalm(c: Config, seeds: set<Name>)
    requires FreshCluster(c, seeds)
    ensures CalmInv(c, seeds, Init(c))
  {
    InitInv(c);
  }

  lemma ReliableLast(c: Config, seeds: set<Name>, ls: seq<Label>, early: bool)
    requires ReliableRun(c, seeds, ls, early) && ls != []
    ensures var front, last := ls[..|ls| - 1], ls[|ls| - 1];
            && ReliableRun(c, seeds, front, early) && Exec(c, front).Some? && Enabled(c, Exec(c, front).value, last)
            && Reliable(c, seeds, Exec(c, front).value, last) && (early || NotEarly(seeds, Exec(c, front).value, last))
            && Exec(c, ls) == Some(Apply(c, Exec(c, front).value, last))
  {
  }

  lemma {:induction false} TaskRunInv(c: Config, seeds: set<Name>, ls: seq<Label>, early: bool)
    requires SeedCluster(c, seeds) && ReliableRun(c, seeds, ls, early)
    ensures Exec(c, ls).Some? && TaskInv(c, seeds, Exec(c, ls).value)
  {
    if ls == [] {
      InitCalm(c, seeds);
    } else {
      ReliableLast(c, seeds, ls, early);
      TaskRunInv(c, seeds, ls[..|ls| - 1], early);
      TaskInvStep(c, seeds, Exec(c, ls[..|ls| - 1]).value, ls[|ls| - 1]);
    }
  }

  lemma {:induction false} CalmRunInv(c: Config, seeds: set<Name>, ls: seq<Label>)
    requires SeedCluster(c, seeds) && CalmRun(c, seeds, ls)
    ensures Exec(c, ls).Some? && CalmInv(c, seeds, Exec(c, ls).value)
  {
    if ls == [] {
      InitCalm(c, seeds);
    } else {
      ReliableLast(c, seeds, ls, false);
      CalmRunInv(c, seeds, ls[..|ls| - 1]);
      CalmInvStep(c, seeds, Exec(c, ls[..|ls| - 1]).value, ls[|ls| - 1]);
    }
  }

  // ------------------------------------------------------------- quiescence

  /** At rest, a seed that has fixed its key and heard from somebody has sent it to all others. */
  lemma RestingHasSent(c: Config, seeds: set<Name>, s: State, i: Name, j: Name, n: Node, p: Proc)
    requires SeedCluster(c, seeds) && CalmInv(c, seeds, s) && Quiescent(seeds, s) && i in seeds
    requires i in s.nodes && s.nodes[i] == n && n.proc == Some(p) && n.inc in n.fixed && i in c.seedLists
    requires j in Others(c, i)
    requires p.seed == Seed.Wiped() || SomeReceived(p.seed)
    ensures j in s.nodes && GotFrom(s.nodes[j], i)
  {
    assert AllSent(c, i, p.seed);
    assert Heard(s.sent, i, j, 1, n.fixed[n.inc]);
    ArrivedAtRest(c, seeds, s, i, j, n.fixed[n.inc]);
  }

  lemma ArrivedAtRest(c: Config, seeds: set<Name>, s: State, i: Name, j: Name, k: Bytes)
    requires SeedCluster(c, seeds) && CalmInv(c, seeds, s) && Quiescent(seeds, s) && i in seeds && j in Others(c, i)
    requires i in s.nodes && Heard(s.sent, i, j, 1, k)
    ensures j in seeds && j in s.nodes && GotFrom(s.nodes[j], i)
  {
    OthersNoDup(c, i);
    assert j in ToSet(Others(c, i));
    var m :| m in s.sent && m.src == i && m.dst == j && m.dstInc == 1 && m.body == KeyInit(k);
    assert DeliveredIn(s, m);
  }

  lemma MasterFirstRound(c: Config, seeds: set<Name>, s: State, j: Name)
    requires SeedCluster(c, seeds) && CalmInv(c, seeds, s) && Quiescent(seeds, s)
    requires j in seeds && j != Least(seeds)
    ensures GotFrom(s.nodes[j], Least(seeds))
  {
    var i := Least(seeds);
    var n := s.nodes[i];
    MasterFixed(c, seeds, s);
    OthersNoDup(c, i);
    assert j in ToSet(Others(c, i));
    assert Heard(s.sent, i, j, 1, n.fixed[n.inc]);
    ArrivedAtRest(c, seeds, s, i, j, n.fixed[n.inc]);
  }

  lemma MasterFixed(c: Config, seeds: set<Name>, s: State)
    requires SeedCluster(c, seeds) && CalmInv(c, seeds, s) && Quiescent(seeds, s)
    ensures var n := s.nodes[Least(seeds)]; n.inc in n.fixed
  {
    assert Least(seeds) in seeds && Begun(s.nodes[Least(seeds)]);
  }

  /** At rest every seed has heard from every other seed. */
  lemma EveryoneHasHeard(c: Config, seeds: set<Name>, s: State, i: Name, j: Name)
    requires SeedCluster(c, seeds) && CalmInv(c, seeds, s) && Quiescent(seeds, s)
    requires i in seeds && j in seeds && i != j
    ensures GotFrom(s.nodes[j], i)
  {
    var m := Least(seeds);
    OthersNoDup(c, i);
    assert j in ToSet(Others(c, i)) && j in Others(c, i);
    if i != m {
      MasterFirstRound(c, seeds, s, i);
      SlaveHasSent(c, seeds, s, i, j);
    } else {
      MasterFirstRound(c, seeds, s, j);
      SlaveHasSent(c, seeds, s, j, i);
      MasterFixed(c, seeds, s);
      RestingHasSent(c, seeds, s, i, j, s.nodes[i], s.nodes[i].proc.value);
    }
  }

  lemma SlaveHasSent(c: Config, seeds: set<Name>, s: State, i: Name, j: Name)
    requires SeedCluster(c, seeds) && CalmInv(c, seeds, s) && Quiescent(seeds, s)
    requires i in seeds && j in seeds && i != j && GotFrom(s.nodes[i], Least(seeds))
    ensures GotFrom(s.nodes[j], i)
  {
    OthersNoDup(c, i);
    assert j in ToSet(Others(c, i)) && j in Others(c, i);
    RestingHasSent(c, seeds, s, i, j, s.nodes[i], s.nodes[i].proc.value);
  }

  /** A seed that has heard from everyone and rests is READY with its scratch data wiped. */
  lemma HeardAllAtRest(c: Config, seeds: set<Name>, sent: set<Msg>, known: set<Bytes>, i: Name, n: Node, p: Proc)
    requires i in c.seedLists && seeds != {} && n.proc == Some(p) && NodeInv(c, sent, known, i, n) && FirstLife(n)
    requires CalmNode(c, seeds, sent, i, n) && Begun(n) && AtRest(p) && Others(c, i) != []
    requires forall j :: j in Others(c, i) ==> GotFrom(n, j)
    ensures p.status == Ready && p.seed == Seed.Wiped() && 1 in n.fixed
  {
    assert GotFrom(n, Others(c, i)[0]);
    assert Active(c, sent, i, n, p);
    assert p.seed == Seed.Wiped() || EveryoneHeard(c, i, p.seed);
  }

  lemma RestingIsReady(c: Config, seeds: set<Name>, s: State, i: Name)
    requires SeedCluster(c, seeds) && CalmInv(c, seeds, s) && Quiescent(seeds, s) && i in seeds
    ensures s.nodes[i].proc.value.status == Ready && s.nodes[i].proc.value.seed == Seed.Wiped() && 1 in s.nodes[i].fixed
  {
    var n := s.nodes[i];
    HasOthers(c, seeds, i);
    OthersNoDup(c, i);
    forall j | j in Others(c, i) ensures GotFrom(n, j) {
      assert j in ToSet(Others(c, i));
      EveryoneHasHeard(c, seeds, s, j, i);
    }
    HeardAllAtRest(c, seeds, s.sent, s.known, i, n, n.proc.value);
  }

  /** In a fresh cluster every file holds the master's key. */
  lemma FileHoldsMastersKey(c: Config, seeds: set<Name>, s: State, i: Name)
    requires FreshCluster(c, seeds) && FreshInv(c, seeds, s) && i in s.nodes && s.nodes[i].disk.Some?
    ensures Least(seeds) in s.nodes && 1 in s.nodes[Least(seeds)].fixed
    ensures s.nodes[i].disk == Some(FileFor(i, s.nodes[Least(seeds)].fixed[1]))
  {
    var k :| k in s.known && Holds(i, s.nodes[i], k);
    assert KnownInv(c, s, k);
    var j :| j in s.nodes && k in WonKeys(s.nodes[j]);
    assert FirstLife(s.nodes[j]);
    assert s.nodes[j].fixed[1] == k;
  }

  /**
   * A calm run that has come to rest, with every seed past NO_KEY, has every seed READY with the
   * master's key on disk and its scratch data wiped.
   */
  lemma CompletionAtQuiescence(c: Config, seeds: set<Name>, ls: seq<Label>, i: Name)
    requires SeedCluster(c, seeds) && CalmRun(c, seeds, ls) && Exec(c, ls).Some?
    requires Quiescent(seeds, Exec(c, ls).value) && i in seeds
    ensures var s := Exec(c, ls).value;
            var master := s.nodes[Least(seeds)];
            && IsReady(s.nodes[i]) && s.nodes[i].proc.value.seed == Seed.Wiped()
            && 1 in master.fixed && s.nodes[i].disk == Some(FileFor(i, master.fixed[1]))
  {
    CalmRunInv(c, seeds, ls);
    var s := Exec(c, ls).value;
    RestingIsReady(c, seeds, s, i);
    RestingIsReady(c, seeds, s, Least(seeds));
    FileHoldsMastersKey(c, seeds, s, i);
  }
}
