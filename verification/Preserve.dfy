/** Every step of a node keeps the node's part of the invariant. */
module Preserve {
  import opened Basics
  import opened Vault
  import opened Names
  import opened Protocol
  import opened Invariant
  import Hex
  import Seed
  import KeyStore

  ghost predicate Kept(c: Config, sent: set<Msg>, known: set<Bytes>, i: Name, n: Node, n': Node)
    requires i in c.seedLists
  {
    NodeInv(c, sent, known + WonKeys(n'), i, n') && Grows(n, n')
  }

  /** The hypotheses under which a running node takes a step. */
  ghost predicate Running(c: Config, sent: set<Msg>, known: set<Bytes>, i: Name, n: Node, l: Label) {
    && ValidConfig(c) && i in c.seedLists && n.proc.Some?
    && NodeInv(c, sent, known, i, n)
    && ProcEnabled(c, i, n, n.proc.value, l)
  }

  /** A step that touches neither the files nor the history: only the process part needs an argument. */
  lemma Frame(c: Config, sent: set<Msg>, known: set<Bytes>, i: Name, n: Node, q: Proc)
    requires i in c.seedLists && n.proc.Some? && NodeInv(c, sent, known, i, n)
    requires var n' := n.(proc := Some(q)); ProcInv(c, sent, known, i, n', q)
    ensures Kept(c, sent, known, i, n, n.(proc := Some(q)))
  {
    assert known + WonKeys(n) == known by { assert WonKeys(n) <= known; }
  }

  /** The seeding part does not look at fields outside it. */
  lemma SeedFrame(c: Config, sent: set<Msg>, i: Name, n: Node, p: Proc, n': Node, q: Proc)
    requires i in c.seedLists && SeedInv(c, sent, i, n, p)
    requires n'.inc == n.inc && n'.fixed == n.fixed
    requires q.seed == p.seed && q.lock == p.lock && q.initial == p.initial && q.forwards == p.forwards
    requires q.cleanups == p.cleanups
    requires q.loop.Complete? <==> p.loop.Complete?
    requires p.loop.Complete? ==> q.loop == p.loop
    requires || q.status == p.status
             || (p.status != Seeding && q.status != Seeding && (p.status == Ready ==> q.status == Ready))
    ensures SeedInv(c, sent, i, n', q)
  {
    if Active(c, sent, i, n, p) { assert Active(c, sent, i, n', q); }
    if Dormant(c, i, n, p) { assert Dormant(c, i, n', q); }
    if Waiting(c, i, n, p) { assert Waiting(c, i, n', q); }
  }

  /** The steps that concern neither the state nor the thread of `Start`. */
  predicate SideStep(l: Label) {
    || l.AskPeer? || l.InitialStart? || l.InitialPeer? || l.ForwardStart? || l.ForwardPeer? || l.ForwardStop?
       || l.RunCleanup?
    || l.Take? || l.SendReply? || l.ReadStore? || l.Notify? || l.BuildServer?
  }

  lemma SideStepFrame(c: Config, i: Name, n: Node, l: Label)
    requires i in c.seedLists && n.proc.Some? && LocalEnabled(c, i, n, l) && SideStep(l)
    ensures var n' := NextNode(c, i, n, l);
            && n'.proc.Some? && n' == n.(proc := n'.proc) && LocalStep(c, i, n, l).Step?
            && n'.proc.value.status == n.proc.value.status && n'.proc.value.pc == n.proc.value.pc
  {
    if l.AskPeer? { AskOnly(n, n.proc.value, i, l.ok); }
  }

  /** The steps of a seeding under way. */
  predicate TaskStep(l: Label) {
    l.InitialStart? || l.InitialPeer? || l.ForwardStart? || l.ForwardPeer? || l.ForwardStop? || l.RunCleanup?
        || l.Finish?
  }

  lemma TaskIsActive(c: Config, sent: set<Msg>, known: set<Bytes>, i: Name, n: Node, l: Label)
    requires i in c.seedLists && n.proc.Some? && NodeInv(c, sent, known, i, n) && LocalEnabled(c, i, n, l)
    requires TaskStep(l)
    ensures Active(c, sent, i, n, n.proc.value)
  {
  }

  // ------------------------------------------------------- shapes of steps

  lemma ForwardStartShape(c: Config, i: Name, n: Node, l: Label)
    requires i in c.seedLists && n.proc.Some? && LocalEnabled(c, i, n, l) && l.ForwardStart?
    ensures var p := n.proc.value;
            NextNode(c, i, n, l) == n.(proc := Some(p.(forwards := p.forwards - multiset{l.key},
                lock := Forwarding(l.key, p.seed.others))))
  {
  }

  lemma ForwardStopShape(c: Config, i: Name, n: Node, l: Label)
    requires i in c.seedLists && n.proc.Some? && LocalEnabled(c, i, n, l) && l.ForwardStop?
    ensures var p := n.proc.value;
            && p.lock.Forwarding? && p.lock.rest == []
            && NextNode(c, i, n, l) == n.(proc := Some(p.(lock := Unlocked, cleanups := p.cleanups + 1)))
  {
  }

  lemma InitialStartShape(c: Config, i: Name, n: Node, l: Label)
    requires i in c.seedLists && n.proc.Some? && LocalEnabled(c, i, n, l) && l.InitialStart?
    ensures var p := n.proc.value;
            && p.initial.Spawned?
            && NextNode(c, i, n, l) == n.(proc := Some(p.(initial := Sending(p.initial.key, p.seed.members))))
  {
  }

  lemma CleanupShape(c: Config, i: Name, n: Node, l: Label)
    requires i in c.seedLists && n.proc.Some? && LocalEnabled(c, i, n, l) && l.RunCleanup?
    ensures var p := n.proc.value;
            && p.cleanups > 0 && p.lock == Unlocked
            && NextNode(c, i, n, l) == n.(proc := Some(p.(seed := Seed.Cleanup(p.seed), cleanups := p.cleanups - 1)))
  {
  }

  lemma FinishShape(c: Config, i: Name, n: Node, l: Label)
    requires i in c.seedLists && n.proc.Some? && LocalEnabled(c, i, n, l) && l.Finish?
    ensures var p := n.proc.value;
            p.loop.Complete? && NextNode(c, i, n, l) == CompleteSeeding(n, p, i, p.loop.key).node
  {
  }

  lemma SendReplyShape(c: Config, i: Name, n: Node, l: Label)
    requires i in c.seedLists && n.proc.Some? && LocalEnabled(c, i, n, l) && l.SendReply?
    ensures var p := n.proc.value;
            NextNode(c, i, n, l) == n.(proc := Some(p.(replies := p.replies - multiset{l.reply})))
  {
  }

  // ------------------------------------------------------------ Start thread

  lemma KeepsBoot(c: Config, sent: set<Msg>, known: set<Bytes>, i: Name, n: Node)
    requires ValidConfig(c) && i in c.seedLists && n.proc.None? && NodeInv(c, sent, known, i, n)
    ensures Kept(c, sent, known, i, n, NextNode(c, i, n, Boot(i)))
  {
    var n' := LocalStep(c, i, n, Boot(i)).node;
    assert n'.inc !in n'.fixed;
    assert Dormant(c, i, n', n'.proc.value);
    assert known + WonKeys(n) == known by { assert WonKeys(n) <= known; }
  }

  lemma KeepsCrash(c: Config, sent: set<Msg>, known: set<Bytes>, i: Name, n: Node)
    requires i in c.seedLists && NodeInv(c, sent, known, i, n)
    ensures Kept(c, sent, known, i, n, n.(proc := None))
  {
    assert known + WonKeys(n) == known by { assert WonKeys(n) <= known; }
  }

  /** A step that changes the state and the thread of `Start` alone, or fills the cache from the file. */
  lemma StartFrame(c: Config, sent: set<Msg>, known: set<Bytes>, i: Name, n: Node, q: Proc)
    requires i in c.seedLists && n.proc.Some? && NodeInv(c, sent, known, i, n)
    requires var p := n.proc.value;
             && q == p.(status := q.status, pc := q.pc, cache := q.cache, notes := q.notes)
             && p.status != Seeding && q.status != Seeding && (p.status == Ready ==> q.status == Ready)
             && StartInv(c, i, n.(proc := Some(q)), q) && NotifyInv(n, q) && KeyStore.Coherent(q.cache, n.disk)
             && (q.status == p.status || !Acting(p.status))
    ensures Kept(c, sent, known, i, n, n.(proc := Some(q)))
  {
    SeedFrame(c, sent, i, n, n.proc.value, n.(proc := Some(q)), q);
    Frame(c, sent, known, i, n, q);
  }

  lemma KeepsStartRead(c: Config, sent: set<Msg>, known: set<Bytes>, i: Name, n: Node, l: Label)
    requires Running(c, sent, known, i, n, l)
    requires l.StartRead? || l.OwnKeyReady? || l.EnterValidating? || l.EnterNoKey?
    ensures Kept(c, sent, known, i, n, NextNode(c, i, n, l))
  {
    StartShape(c, i, n, l);
    StartFrame(c, sent, known, i, n, NextNode(c, i, n, l).proc.value);
  }

  lemma StartShape(c: Config, i: Name, n: Node, l: Label)
    requires i in c.seedLists && n.proc.Some? && LocalEnabled(c, i, n, l)
    requires l.StartRead? || l.OwnKeyReady? || l.EnterValidating? || l.EnterNoKey?
    requires StartInv(c, i, n, n.proc.value) && NotifyInv(n, n.proc.value)
    requires KeyStore.Coherent(n.proc.value.cache, n.disk)
    ensures var p, n' := n.proc.value, NextNode(c, i, n, l);
            && n'.proc.Some? && n' == n.(proc := n'.proc)
            && var q := n'.proc.value;
               && q == p.(status := q.status, pc := q.pc, cache := q.cache, notes := q.notes)
               && p.status == Booting && q.status != Seeding
               && StartInv(c, i, n', q) && NotifyInv(n, q) && KeyStore.Coherent(q.cache, n.disk)
  {
  }

  lemma KeepsStartQuery(c: Config, sent: set<Msg>, known: set<Bytes>, i: Name, n: Node, l: Label)
    requires Running(c, sent, known, i, n, l)
    requires l.StartQuery?
    ensures Kept(c, sent, known, i, n, NextNode(c, i, n, l))
  {
    var p := n.proc.value;
    var n' := LocalStep(c, i, n, l).node;
    var q := n'.proc.value;
    SeedFrame(c, sent, i, n, p, n', q);
    Frame(c, sent, known, i, n, q);
  }

  lemma KeepsStartChallenge(c: Config, sent: set<Msg>, known: set<Bytes>, i: Name, n: Node, l: Label)
    requires Running(c, sent, known, i, n, l)
    requires l.StartChallenge?
    ensures Kept(c, sent, known, i, n, NextNode(c, i, n, l))
  {
    var p := n.proc.value;
    var n' := LocalStep(c, i, n, l).node;
    var q := n'.proc.value;
    SeedFrame(c, sent, i, n, p, n', q);
    Frame(c, sent, known, i, n, q);
  }

  lemma KeepsAskPeer(c: Config, sent: set<Msg>, known: set<Bytes>, i: Name, n: Node, l: Label)
    requires Running(c, sent, known, i, n, l)
    requires l.AskPeer?
    ensures Kept(c, sent, known, i, n, NextNode(c, i, n, l))
  {
    var p := n.proc.value;
    AskOnly(n, p, i, l.ok);
    AskFrame(c, sent, known, i, n, AskOne(n, p, i, l.ok).node.proc.value.ask);
  }

  lemma AskOnly(n: Node, p: Proc, i: Name, ok: bool)
    requires n.proc == Some(p)
    ensures var st := AskOne(n, p, i, ok);
            st.Step? && st.node.proc.Some? && st.node == n.(proc := Some(p.(ask := st.node.proc.value.ask)))
  {
  }

  lemma AskFrame(c: Config, sent: set<Msg>, known: set<Bytes>, i: Name, n: Node, a: Ask)
    requires i in c.seedLists && n.proc.Some? && NodeInv(c, sent, known, i, n)
    ensures Kept(c, sent, known, i, n, n.(proc := Some(n.proc.value.(ask := a))))
  {
    var p := n.proc.value;
    var q := p.(ask := a);
    SeedFrame(c, sent, i, n, p, n.(proc := Some(q)), q);
    Frame(c, sent, known, i, n, q);
  }

  lemma KeepsReadStore(c: Config, sent: set<Msg>, known: set<Bytes>, i: Name, n: Node, l: Label)
    requires Running(c, sent, known, i, n, l)
    requires l.ReadStore?
    ensures Kept(c, sent, known, i, n, NextNode(c, i, n, l))
  {
    var p := n.proc.value;
    var n' := LocalStep(c, i, n, l).node;
    var q := n'.proc.value;
    SeedFrame(c, sent, i, n, p, n', q);
    Frame(c, sent, known, i, n, q);
  }

  lemma KeepsNotify(c: Config, sent: set<Msg>, known: set<Bytes>, i: Name, n: Node, l: Label)
    requires Running(c, sent, known, i, n, l)
    requires l.Notify?
    ensures Kept(c, sent, known, i, n, NextNode(c, i, n, l))
  {
    var p := n.proc.value;
    var n' := LocalStep(c, i, n, l).node;
    var q := n'.proc.value;
    SeedFrame(c, sent, i, n, p, n', q);
    assert p.notes == [p.notes[0]] + q.notes;
    Frame(c, sent, known, i, n, q);
  }

  lemma KeepsBuildServer(c: Config, sent: set<Msg>, known: set<Bytes>, i: Name, n: Node, l: Label)
    requires Running(c, sent, known, i, n, l)
    requires l.BuildServer?
    ensures Kept(c, sent, known, i, n, NextNode(c, i, n, l))
  {
    var p := n.proc.value;
    var n' := LocalStep(c, i, n, l).node;
    var q := n'.proc.value;
    SeedFrame(c, sent, i, n, p, n', q);
    Frame(c, sent, known, i, n, q);
  }

  lemma RepliesFrame(c: Config, sent: set<Msg>, known: set<Bytes>, i: Name, n: Node, q: Proc)
    requires i in c.seedLists && n.proc.Some? && NodeInv(c, sent, known, i, n)
    requires q == n.proc.value.(replies := q.replies) && q.replies <= n.proc.value.replies
    ensures Kept(c, sent, known, i, n, n.(proc := Some(q)))
  {
    SeedFrame(c, sent, i, n, n.proc.value, n.(proc := Some(q)), q);
    assert forall r :: r in q.replies ==> r in n.proc.value.replies;
    Frame(c, sent, known, i, n, q);
  }

  lemma KeepsSendReply(c: Config, sent: set<Msg>, known: set<Bytes>, i: Name, n: Node, l: Label)
    requires Running(c, sent, known, i, n, l)
    requires l.SendReply?
    ensures Kept(c, sent, known, i, n, NextNode(c, i, n, l))
  {
    var p := n.proc.value;
    SendReplyShape(c, i, n, l);
    RepliesFrame(c, sent, known, i, n, p.(replies := p.replies - multiset{l.reply}));
  }

  lemma {:induction false} WithoutSelf(members: seq<Name>, i: Name)
    ensures i !in Without(members, i)
    ensures forall x :: x in Without(members, i) <==> x in members && x != i
  {
    if members != [] {
      WithoutSelf(members[1..], i);
      assert members == [members[0]] + members[1..];
    }
  }

  lemma StartedSeeding(c: Config, sent: set<Msg>, i: Name, n: Node, members: seq<Name>, key: Bytes, master: bool)
    requires i in c.seedLists && IsSeed(c, i) && n.proc.Some? && Dormant(c, i, n, n.proc.value) && |key| == KEY_SIZE
    ensures var st := BeginSeeding(n, n.proc.value, i, members, key, master);
            st.Step? && st.node.proc.Some? && SeedInv(c, sent, i, st.node, st.node.proc.value)
  {
    WithoutSelf(members, i);
    var n' := BeginSeeding(n, n.proc.value, i, members, key, master).node;
    var q := n'.proc.value;
    if master {
      assert n'.fixed[n'.inc] == key;
      assert Others(c, i) != [] ==> Others(c, i)[0] in Others(c, i) && !Seed.ReceivedFrom(q.seed, Others(c, i)[0]);
      assert Active(c, sent, i, n', q);
    } else {
      assert Waiting(c, i, n', q);
    }
  }

  lemma KeepsStartSeed(c: Config, sent: set<Msg>, known: set<Bytes>, i: Name, n: Node, l: Label)
    requires Running(c, sent, known, i, n, l) && l.StartSeed?
    ensures Kept(c, sent, known, i, n, NextNode(c, i, n, l))
  {
    assert Dormant(c, i, n, n.proc.value);
    StartedSeeding(c, sent, i, n, l.members, l.key, l.master);
    NoReplies(c, sent, known, i, n);
    var n' := BeginSeeding(n, n.proc.value, i, l.members, l.key, l.master).node;
    assert NextNode(c, i, n, l) == n';
    assert known + WonKeys(n') == known;
    assert ProcInv(c, sent, known, i, n', n'.proc.value);
  }

  // -------------------------------------------------------- background tasks

  /** A step inside the seeding record and its tasks only. */
  lemma SeedOnly(c: Config, sent: set<Msg>, known: set<Bytes>, i: Name, n: Node, q: Proc)
    requires i in c.seedLists && n.proc.Some? && NodeInv(c, sent, known, i, n)
    requires var p := n.proc.value;
             q == p.(seed := q.seed, lock := q.lock, initial := q.initial, forwards := q.forwards,
                 cleanups := q.cleanups)
    requires Active(c, sent, i, n.(proc := Some(q)), q)
    ensures Kept(c, sent, known, i, n, n.(proc := Some(q)))
  {
    Frame(c, sent, known, i, n, q);
  }

  lemma KeepsInitial(c: Config, sent: set<Msg>, known: set<Bytes>, i: Name, n: Node, l: Label)
    requires Running(c, sent, known, i, n, l) && (l.InitialStart? || l.InitialPeer?)
    ensures Kept(c, sent, known, i, n, NextNode(c, i, n, l))
  {
    var p := n.proc.value;
    assert Active(c, sent, i, n, p);
    var rest := if l.InitialStart? then p.seed.members else p.initial.rest[1..];
    var q := p.(initial := Sending(p.initial.key, rest));
    assert NextNode(c, i, n, l) == n.(proc := Some(q));
    assert Active(c, sent, i, n.(proc := Some(q)), q);
    SeedOnly(c, sent, known, i, n, q);
  }

  /** Whoever still sends the first round or forwards has fixed the key it sends. */
  lemma SendsOwnKey(c: Config, sent: set<Msg>, known: set<Bytes>, i: Name, n: Node, l: Label)
    requires Running(c, sent, known, i, n, l) && (l.InitialPeer? || l.ForwardPeer?)
    ensures n.inc in n.fixed && |n.fixed[n.inc]| == KEY_SIZE && IsSeed(c, i)
    ensures n.fixed[n.inc] == if l.InitialPeer? then n.proc.value.initial.key else n.proc.value.lock.key
    ensures i != if l.InitialPeer? then n.proc.value.initial.rest[0] else n.proc.value.lock.rest[0]
  {
    var p := n.proc.value;
    assert Active(c, sent, i, n, p);
    OthersNoDup(c, i);
    if l.ForwardPeer? { assert p.lock.rest[0] in ToSet(Others(c, i)); }
  }

  lemma KeepsForwardStart(c: Config, sent: set<Msg>, known: set<Bytes>, i: Name, n: Node, l: Label)
    requires Running(c, sent, known, i, n, l) && (l.ForwardStart? || l.ForwardStop?)
    ensures Kept(c, sent, known, i, n, NextNode(c, i, n, l))
  {
    var p := n.proc.value;
    assert Active(c, sent, i, n, p);
    if l.ForwardStart? {
      ForwardStartShape(c, i, n, l);
      SeedOnly(c, sent, known, i, n,
               p.(forwards := p.forwards - multiset{l.key}, lock := Forwarding(l.key, p.seed.others)));
    } else {
      ForwardStopShape(c, i, n, l);
      StopActive(c, sent, i, n, p);
      SeedOnly(c, sent, known, i, n, p.(lock := Unlocked, cleanups := p.cleanups + 1));
    }
  }

  /** A finished forwarding loop has given every other seed an entry. */
  lemma StopActive(c: Config, sent: set<Msg>, i: Name, n: Node, p: Proc)
    requires i in c.seedLists && n.proc == Some(p) && Active(c, sent, i, n, p) && p.lock.Forwarding?
    requires p.lock.rest == []
    ensures var q := p.(lock := Unlocked, cleanups := p.cleanups + 1);
            Active(c, sent, i, n.(proc := Some(q)), q)
  {
    if p.seed != Seed.Wiped() {
      forall x | x in ToSet(Others(c, i)) ensures x in p.seed.exchange.Keys {
        var y :| 0 <= y < |Others(c, i)| && Others(c, i)[y] == x;
      }
      assert p.seed.exchange.Keys == ToSet(Others(c, i));
    }
  }

  lemma ForwardRecord(c: Config, sent: set<Msg>, i: Name, inc: nat, k: Bytes, r: Seed.Record, peer: Name, ok: bool)
    requires i in c.seedLists && RecordInv(c, sent, i, inc, k, r) && peer in r.others
    ensures var r' := Seed.ForwardOne(r, peer, ok);
            && RecordInv(c, sent, i, inc, k, r') && r' != Seed.Wiped() && r != Seed.Wiped()
            && r'.others == r.others && r'.exchange.Keys == r.exchange.Keys + {peer}
            && (EveryoneHeard(c, i, r') <==> EveryoneHeard(c, i, r))
  {
    var r' := Seed.ForwardOne(r, peer, ok);
    assert r.others == Others(c, i);
    assert peer in ToSet(Others(c, i));
    assert forall j :: Seed.ReceivedFrom(r', j) <==> Seed.ReceivedFrom(r, j);
  }

  lemma LockAdvances(k: Bytes, p: Proc, q: Proc)
    requires LockInv(k, p) && p.lock.Forwarding? && p.lock.rest != []
    requires q.lock == Forwarding(p.lock.key, p.lock.rest[1..])
    requires q.seed.others == p.seed.others && q.seed.exchange.Keys == p.seed.exchange.Keys + {p.lock.rest[0]}
    ensures LockInv(k, q) && p.lock.rest[0] in p.seed.others
  {
    var others, rest := p.seed.others, p.lock.rest;
    assert rest[0] == others[|others| - |rest|];
    assert rest[1..] == others[|others| - |rest[1..]|..];
  }

  lemma KeepsForwardPeer(c: Config, sent: set<Msg>, known: set<Bytes>, i: Name, n: Node, l: Label)
    requires Running(c, sent, known, i, n, l) && l.ForwardPeer?
    ensures Kept(c, sent, known, i, n, NextNode(c, i, n, l))
  {
    var p := n.proc.value;
    assert Active(c, sent, i, n, p);
    var k, peer := n.fixed[n.inc], p.lock.rest[0];
    var marked := l.ok && Seed.Attempts(p.seed, peer);
    var q := p.(seed := Seed.ForwardOne(p.seed, peer, marked), lock := Forwarding(p.lock.key, p.lock.rest[1..]));
    assert NextNode(c, i, n, l) == n.(proc := Some(q));
    assert peer == p.seed.others[|p.seed.others| - |p.lock.rest|];
    ForwardRecord(c, sent, i, n.inc, k, p.seed, peer, marked);
    LockAdvances(k, p, q);
    assert peer in ToSet(Others(c, i));
    assert Active(c, sent, i, n.(proc := Some(q)), q);
    SeedOnly(c, sent, known, i, n, q);
  }

  lemma OthersNoDup(c: Config, i: Name)
    requires i in c.seedLists
    ensures NoDup(Others(c, i)) && ToSet(Others(c, i)) == c.seedLists[i] - Added([i])
  {
    IncreasingNoDup(Others(c, i));
  }

  lemma KeepsCleanup(c: Config, sent: set<Msg>, known: set<Bytes>, i: Name, n: Node, l: Label)
    requires Running(c, sent, known, i, n, l) && l.RunCleanup?
    ensures Kept(c, sent, known, i, n, NextNode(c, i, n, l))
  {
    var p := n.proc.value;
    var q := LocalStep(c, i, n, l).node.proc.value;
    assert Active(c, sent, i, n, p);
    if p.seed != Seed.Wiped() {
      OthersNoDup(c, i);
      Seed.CleanupIffDone(p.seed);
    }
    assert q.seed == p.seed || (q.seed == Seed.Wiped() && EveryoneHeard(c, i, p.seed));
    SeedOnly(c, sent, known, i, n, q);
  }

  // ------------------------------------------------------------ message loop

  lemma KeepsTake(c: Config, sent: set<Msg>, known: set<Bytes>, i: Name, n: Node, l: Label)
    requires Running(c, sent, known, i, n, l) && l.Take? && l.msg in sent
    ensures Kept(c, sent, known, i, n, NextNode(c, i, n, l))
  {
    var n' := LocalStep(c, i, n, l).node;
    SeedFrame(c, sent, i, n, n.proc.value, n', n'.proc.value);
    Frame(c, sent, known, i, n, n'.proc.value);
  }

  lemma KeepsDrop(c: Config, sent: set<Msg>, known: set<Bytes>, i: Name, n: Node)
    requires i in c.seedLists && n.proc.Some? && NodeInv(c, sent, known, i, n) && n.proc.value.loop.Got?
    ensures Kept(c, sent, known, i, n, n.(proc := Some(n.proc.value.(loop := Idle))))
  {
    var p := n.proc.value;
    var q := p.(loop := Idle);
    SeedFrame(c, sent, i, n, p, n.(proc := Some(q)), q);
    Frame(c, sent, known, i, n, q);
  }

  /** The record after an accepted key: the sender is now heard, and completion means all others are. */
  lemma AcceptedRecord(c: Config, sent: set<Msg>, i: Name, inc: nat, r: Seed.Record, m: Msg)
    requires i in c.seedLists && r.others == Others(c, i)
    requires m in sent && m.dst == i && m.dstInc == inc && m.body.KeyInit?
    requires r.generatedKey != [] && r.exchange.Keys <= ToSet(Others(c, i)) && i !in r.members
    requires forall j :: Seed.ReceivedFrom(r, j) ==> Heard(sent, j, i, inc, r.generatedKey)
    requires r.generatedKey == Seed.DUMMY_KEY ==> r.exchange == map[]
    requires Seed.KeyReceived(r, m.body.key, m.src).Accepted?
    ensures var out := Seed.KeyReceived(r, m.body.key, m.src);
            && RecordInv(c, sent, i, inc, m.body.key, out.record) && out.forward
            && out.record.generatedKey == m.body.key && |m.body.key| == KEY_SIZE
            && (r.generatedKey == Seed.DUMMY_KEY || r.generatedKey == m.body.key)
            && (out.completed != [] <==> EveryoneHeard(c, i, out.record))
            && (out.completed != [] ==> out.completed == m.body.key)
            && out.record.exchange.Keys == r.exchange.Keys + {m.src}
            && m.src in Others(c, i)
  {
    var k := m.body.key;
    var r' := Seed.KeyReceived(r, k, m.src).record;
    OthersNoDup(c, i);
    assert m.src in ToSet(Others(c, i));
    assert Heard(sent, m.src, i, inc, k);
    forall j | Seed.ReceivedFrom(r', j) ensures Heard(sent, j, i, inc, k) {
      if j != m.src { assert Seed.ReceivedFrom(r, j); }
    }
    Seed.AllReceivedIffEverySeed(r');
  }

  lemma EveryoneMeansAll(c: Config, sent: set<Msg>, i: Name, inc: nat, k: Bytes, r: Seed.Record)
    requires i in c.seedLists && RecordInv(c, sent, i, inc, k, r) && EveryoneHeard(c, i, r)
    ensures AllHeard(c, sent, i, inc, k)
  {
    assert Seed.ReceivedFrom(r, Others(c, i)[0]);
  }

  /** What accepting a key does to the node. */
  lemma SeedKeyShape(n: Node, p: Proc, k: Bytes, sender: Name)
    requires HandleSeedKey(n, p, k, sender).Step?
    ensures var out := Seed.KeyReceived(p.seed, k, sender);
            && out.Accepted?
            && HandleSeedKey(n, p, k, sender).node
               == n.(proc := Some(p.(seed := out.record,
                                     forwards := if out.forward then p.forwards + multiset{k} else p.forwards,
                                     loop := if out.completed != [] then Complete(out.completed) else Idle)),
                     fixed := if p.seed.generatedKey == Seed.DUMMY_KEY then n.fixed[n.inc := k] else n.fixed)
  {
  }

  lemma ActiveAfterKey(c: Config, sent: set<Msg>, i: Name, n: Node, q: Proc, k: Bytes)
    requires i in c.seedLists && n.inc in n.fixed && n.fixed[n.inc] == k && q.status == Seeding && q.lock == Unlocked
    requires RecordInv(c, sent, i, n.inc, k, q.seed) && q.seed.generatedKey == k && k != [] && Others(c, i) != []
    requires (forall x :: x in q.forwards ==> x == k) && (!q.initial.NoInitial? ==> q.initial.key == k)
    requires q.initial.Sending? ==> i !in q.initial.rest
    requires q.cleanups > 0 ==> q.seed.exchange.Keys == ToSet(Others(c, i))
    requires q.loop == if EveryoneHeard(c, i, q.seed) then Complete(k) else Idle
    ensures Active(c, sent, i, n, q)
  {
    if EveryoneHeard(c, i, q.seed) { EveryoneMeansAll(c, sent, i, n.inc, k, q.seed); }
  }

  ghost predicate KeyTaken(c: Config, sent: set<Msg>, i: Name, n: Node, n': Node, k: Bytes)
    requires i in c.seedLists
  {
    && n'.proc.Some? && Active(c, sent, i, n', n'.proc.value)
    && n' == n.(proc := n'.proc, fixed := n.fixed[n.inc := k])
    && (n.inc in n.fixed ==> n.fixed[n.inc] == k)
    && |k| == KEY_SIZE && IsSeed(c, i)
  }

  lemma AcceptedFirst(c: Config, sent: set<Msg>, i: Name, n: Node, p: Proc, m: Msg)
    requires i in c.seedLists && n.proc == Some(p) && Waiting(c, i, n, p) && p.loop.Got?
    requires m in sent && m.dst == i && m.dstInc == n.inc && m.body.KeyInit?
    requires HandleSeedKey(n, p, m.body.key, m.src).Step?
    ensures KeyTaken(c, sent, i, n, HandleSeedKey(n, p, m.body.key, m.src).node, m.body.key)
  {
    var k := m.body.key;
    SeedKeyShape(n, p, k, m.src);
    AcceptedRecord(c, sent, i, n.inc, p.seed, m);
    var n' := HandleSeedKey(n, p, k, m.src).node;
    assert p.forwards + multiset{k} == multiset{k};
    ActiveAfterKey(c, sent, i, n', n'.proc.value, k);
  }

  lemma AcceptedAgain(c: Config, sent: set<Msg>, i: Name, n: Node, p: Proc, m: Msg)
    requires i in c.seedLists && n.proc == Some(p) && p.loop.Got?
    requires FixedInv(c, i, n) && Active(c, sent, i, n, p) && p.status == Seeding && p.lock == Unlocked
    requires m in sent && m.dst == i && m.dstInc == n.inc && m.body.KeyInit?
    requires HandleSeedKey(n, p, m.body.key, m.src).Step?
    ensures KeyTaken(c, sent, i, n, HandleSeedKey(n, p, m.body.key, m.src).node, m.body.key)
  {
    var k := m.body.key;
    assert p.seed != Seed.Wiped() && |n.fixed[n.inc]| == KEY_SIZE;
    assert p.seed.generatedKey != Seed.DUMMY_KEY && p.seed.generatedKey != [];
    SeedKeyShape(n, p, k, m.src);
    AcceptedRecord(c, sent, i, n.inc, p.seed, m);
    var n' := HandleSeedKey(n, p, k, m.src).node;
    assert n.fixed == n.fixed[n.inc := k];
    assert m.src in ToSet(Others(c, i));
    assert p.cleanups > 0 ==> n'.proc.value.seed.exchange.Keys == ToSet(Others(c, i));
    ActiveAfterKey(c, sent, i, n', n'.proc.value, k);
  }

  lemma TakenKept(c: Config, sent: set<Msg>, known: set<Bytes>, i: Name, n: Node, p: Proc, n': Node, k: Bytes)
    requires i in c.seedLists && n.proc == Some(p) && NodeInv(c, sent, known, i, n) && n.disk.None?
    requires p.status == Seeding
    requires KeyTaken(c, sent, i, n, n', k)
    requires var q := n'.proc.value;
             q == p.(seed := q.seed, forwards := q.forwards, loop := q.loop) && !q.loop.Got?
    ensures Kept(c, sent, known, i, n, n')
  {
    NoReplies(c, sent, known, i, n);
    FixedGrows(c, i, n, n', k);
    assert known + WonKeys(n') == known;
  }

  lemma KeepsHandleSeed(c: Config, sent: set<Msg>, known: set<Bytes>, i: Name, n: Node, p: Proc, m: Msg)
    requires ValidConfig(c) && i in c.seedLists && n.proc == Some(p) && NodeInv(c, sent, known, i, n)
    requires p.loop == Got(m, Seeding) && p.lock == Unlocked && m.body.KeyInit?
    requires HandleSeedKey(n, p, m.body.key, m.src).Step?
    ensures Kept(c, sent, known, i, n, HandleSeedKey(n, p, m.body.key, m.src).node)
  {
    if Waiting(c, i, n, p) { AcceptedFirst(c, sent, i, n, p, m); } else { AcceptedAgain(c, sent, i, n, p, m); }
    SeedKeyShape(n, p, m.body.key, m.src);
    TakenKept(c, sent, known, i, n, p, HandleSeedKey(n, p, m.body.key, m.src).node, m.body.key);
  }

  lemma FixedGrows(c: Config, i: Name, n: Node, n': Node, k: Bytes)
    requires FixedInv(c, i, n) && n.disk.None? && n.won.None? && IsSeed(c, i) && |k| == KEY_SIZE
    requires n.inc in n.fixed ==> n.fixed[n.inc] == k
    requires n' == n.(proc := n'.proc, fixed := n.fixed[n.inc := k])
    ensures FixedInv(c, i, n') && Grows(n, n')
  {
  }

  lemma KeyRecovered(i: Name, n: Node, p: Proc, k: Bytes)
    requires Holds(i, n, k) && KeyStore.Coherent(p.cache, n.disk)
    ensures KeyStore.ReadThrough(p.cache, n.disk) == Some(FileFor(i, k))
    ensures SecretKey(FileFor(i, k)) == Some(k) && CipherKey(k)
  {
    Hex.RoundTrip(k);
  }

  /** Adding a reply under the node's own key. */
  lemma KeepsReply(c: Config, sent: set<Msg>, known: set<Bytes>, i: Name, n: Node, k: Bytes, r: Reply)
    requires i in c.seedLists && n.proc.Some? && NodeInv(c, sent, known, i, n) && n.proc.value.loop.Got?
    requires k in known && Holds(i, n, k) && ReplyUses(c, k, r)
    ensures var p := n.proc.value;
            Kept(c, sent, known, i, n,
                 n.(proc := Some(p.(cache := Some(FileFor(i, k)), loop := Idle, replies := p.replies + multiset{r}))))
  {
    var p := n.proc.value;
    var q := p.(cache := Some(FileFor(i, k)), loop := Idle, replies := p.replies + multiset{r});
    var n' := n.(proc := Some(q));
    SeedFrame(c, sent, i, n, p, n', q);
    forall x | x in q.replies ensures ReplyInv(c, known, i, n', x) {
      if x == r { assert k in known && Holds(i, n', k); } else { assert ReplyInv(c, known, i, n, x); }
    }
    Frame(c, sent, known, i, n, q);
  }

  lemma KeepsHandleQuery(c: Config, sent: set<Msg>, known: set<Bytes>, i: Name, n: Node, p: Proc, m: Msg)
    requires i in c.seedLists && n.proc == Some(p) && NodeInv(c, sent, known, i, n) && p.loop == Got(m, Ready)
    ensures HandleQueryKey(n, p, m.src).Step?
    ensures Kept(c, sent, known, i, n, HandleQueryKey(n, p, m.src).node)
  {
    var k :| k in known && Holds(i, n, k);
    KeyRecovered(i, n, p, k);
    KeepsReply(c, sent, known, i, n, k, KeyReply(m.src, k));
  }

  lemma KeepsHandleChallenge(c: Config, sent: set<Msg>, known: set<Bytes>, i: Name, n: Node, p: Proc, m: Msg,
                             random: Bytes)
    requires i in c.seedLists && n.proc == Some(p) && NodeInv(c, sent, known, i, n) && p.loop == Got(m, Ready)
    requires m.body == Challenge(m.src)
    ensures HandleChallenge(c, n, p, m.src, m.src, random).Step?
    ensures Kept(c, sent, known, i, n, HandleChallenge(c, n, p, m.src, m.src, random).node)
  {
    var k :| k in known && Holds(i, n, k);
    KeyRecovered(i, n, p, k);
    var box := c.suite.seal(k, random, m.src);
    assert BoxOf(c, k, m.src, box);
    KeepsReply(c, sent, known, i, n, k, ChallengeReply(m.src, box));
  }

  /** A message the loop turns into READY, the file being there already. */
  lemma KeepsValidated(c: Config, sent: set<Msg>, known: set<Bytes>, i: Name, n: Node, k: Bytes)
    requires i in c.seedLists && n.proc.Some? && NodeInv(c, sent, known, i, n)
    requires n.proc.value.loop.Got? && n.proc.value.status == Validating
    requires Holds(i, n, k)
    ensures var p := n.proc.value;
            Kept(c, sent, known, i, n,
                n.(proc := Some(SetStatus(p.(cache := Some(FileFor(i, k)), loop := Idle), Ready))))
  {
    var p := n.proc.value;
    var q := SetStatus(p.(cache := Some(FileFor(i, k)), loop := Idle), Ready);
    SeedFrame(c, sent, i, n, p, n.(proc := Some(q)), q);
    Frame(c, sent, known, i, n, q);
  }

  lemma KeepsChallengeResponse(c: Config, sent: set<Msg>, known: set<Bytes>, i: Name, n: Node, p: Proc, m: Msg)
    requires i in c.seedLists && n.proc == Some(p) && NodeInv(c, sent, known, i, n) && p.loop == Got(m, Validating)
    requires m.body.ChallengeResp? && HandleChallengeResponse(c, n, p, m.body.box).Step?
    ensures Kept(c, sent, known, i, n, HandleChallengeResponse(c, n, p, m.body.box).node)
  {
    var k :| k in known && Holds(i, n, k);
    KeyRecovered(i, n, p, k);
    KeepsValidated(c, sent, known, i, n, k);
  }

  lemma NoReplies(c: Config, sent: set<Msg>, known: set<Bytes>, i: Name, n: Node)
    requires i in c.seedLists && n.proc.Some? && NodeInv(c, sent, known, i, n) && n.disk.None?
    ensures n.proc.value.replies == multiset{} && n.proc.value.cache == None && n.won.None?
  {
    var p := n.proc.value;
    assert forall r :: ReplyInv(c, known, i, n, r) ==> n.disk.Some?;
  }

  lemma KeepsKeyResponse(c: Config, sent: set<Msg>, known: set<Bytes>, i: Name, n: Node, p: Proc, m: Msg)
    requires i in c.seedLists && n.proc == Some(p) && NodeInv(c, sent, known, i, n) && p.loop == Got(m, QueryKey)
    requires m.body.KeyResp? && MsgFacts(known, m)
    ensures Kept(c, sent, known, i, n, HandleKeyResponse(n, p, i, m.body.key).node)
  {
    NoReplies(c, sent, known, i, n);
    var n' := HandleKeyResponse(n, p, i, m.body.key).node;
    assert Holds(i, n', m.body.key);
    SeedFrame(c, sent, i, n, p, n', n'.proc.value);
    assert known + WonKeys(n') == known;
    assert ProcInv(c, sent, known, i, n', n'.proc.value);
  }

  lemma KeepsFinish(c: Config, sent: set<Msg>, known: set<Bytes>, i: Name, n: Node, l: Label)
    requires Running(c, sent, known, i, n, l) && l.Finish?
    ensures Kept(c, sent, known, i, n, NextNode(c, i, n, l))
  {
    var p := n.proc.value;
    assert Active(c, sent, i, n, p);
    NoReplies(c, sent, known, i, n);
    var k := p.loop.key;
    var n' := LocalStep(c, i, n, l).node;
    var q := n'.proc.value;
    assert Holds(i, n', k);
    assert k in known + WonKeys(n');
    assert Active(c, sent, i, n', q);
    assert ProcInv(c, sent, known + WonKeys(n'), i, n', q);
  }

  lemma KeepsDispatch(c: Config, sent: set<Msg>, known: set<Bytes>, i: Name, n: Node, p: Proc, m: Msg, seen: Status,
                      random: Bytes)
    requires ValidConfig(c) && i in c.seedLists && n.proc == Some(p) && NodeInv(c, sent, known, i, n)
    requires p.loop == Got(m, seen)
    requires MsgFacts(known, m) && (seen == Seeding && m.body.KeyInit? ==> p.lock == Unlocked)
    ensures Kept(c, sent, known, i, n, After(n, Dispatch(c, i, n, p, m, seen, random)))
  {
    match (seen, m.body) {
      case (Seeding, KeyInit(k)) =>
        if HandleSeedKey(n, p, k, m.src).Step? {
          KeepsHandleSeed(c, sent, known, i, n, p, m);
        } else {
          KeepsCrash(c, sent, known, i, n);
        }
      case (Ready, KeyQuery) => KeepsHandleQuery(c, sent, known, i, n, p, m);
      case (Ready, Challenge(d)) => KeepsHandleChallenge(c, sent, known, i, n, p, m, random);
      case (Validating, ChallengeResp(b)) =>
        if HandleChallengeResponse(c, n, p, b).Step? {
          KeepsChallengeResponse(c, sent, known, i, n, p, m);
        } else {
          KeepsCrash(c, sent, known, i, n);
        }
      case (QueryKey, KeyResp(k)) => KeepsKeyResponse(c, sent, known, i, n, p, m);
      case _ => KeepsDrop(c, sent, known, i, n);
    }
  }

  lemma KeepsHandle(c: Config, sent: set<Msg>, known: set<Bytes>, i: Name, n: Node, l: Label)
    requires Running(c, sent, known, i, n, l) && l.Handle? && MsgFacts(known, n.proc.value.loop.msg)
    ensures Kept(c, sent, known, i, n, NextNode(c, i, n, l))
  {
    HandleIsDispatch(c, i, n, l);
    var p := n.proc.value;
    KeepsDispatch(c, sent, known, i, n, p, p.loop.msg, p.loop.seen, l.random);
  }

  lemma HandleIsDispatch(c: Config, i: Name, n: Node, l: Label)
    requires i in c.seedLists && n.proc.Some? && LocalEnabled(c, i, n, l) && l.Handle?
    ensures var p := n.proc.value;
            && p.loop.Got? && (p.loop.seen == Seeding && p.loop.msg.body.KeyInit? ==> p.lock == Unlocked)
            && LocalStep(c, i, n, l) == Dispatch(c, i, n, p, p.loop.msg, p.loop.seen, l.random)
            && NextNode(c, i, n, l) == After(n, Dispatch(c, i, n, p, p.loop.msg, p.loop.seen, l.random))
  {
  }

  // --------------------------------------------------------------- all steps

  /** Every step of a node, a panic included, keeps the node's part. */
  lemma NodeStepKeeps(c: Config, sent: set<Msg>, known: set<Bytes>, i: Name, n: Node, l: Label)
    requires ValidConfig(c) && i in c.seedLists && NodeInv(c, sent, known, i, n) && LocalEnabled(c, i, n, l) && l.i == i
    requires l.Take? ==> l.msg in sent
    requires l.Handle? ==> MsgFacts(known, n.proc.value.loop.msg)
    ensures Kept(c, sent, known, i, n, NextNode(c, i, n, l))
  {
    match l {
      case Boot(_) => KeepsBoot(c, sent, known, i, n);
      case Crash(_) => KeepsCrash(c, sent, known, i, n);
      case StartRead(_) => KeepsStartRead(c, sent, known, i, n, l);
      case OwnKeyReady(_) => KeepsStartRead(c, sent, known, i, n, l);
      case EnterValidating(_) => KeepsStartRead(c, sent, known, i, n, l);
      case EnterNoKey(_) => KeepsStartRead(c, sent, known, i, n, l);
      case StartQuery(_, _) => KeepsStartQuery(c, sent, known, i, n, l);
      case StartSeed(_, _, _, _, _) => KeepsStartSeed(c, sent, known, i, n, l);
      case StartChallenge(_, _) => KeepsStartChallenge(c, sent, known, i, n, l);
      case AskPeer(_, _) => KeepsAskPeer(c, sent, known, i, n, l);
      case InitialStart(_) => KeepsInitial(c, sent, known, i, n, l);
      case InitialPeer(_, _) => KeepsInitial(c, sent, known, i, n, l);
      case ForwardStart(_, _) => KeepsForwardStart(c, sent, known, i, n, l);
      case ForwardPeer(_, _) => KeepsForwardPeer(c, sent, known, i, n, l);
      case ForwardStop(_) => KeepsForwardStart(c, sent, known, i, n, l);
      case RunCleanup(_) => KeepsCleanup(c, sent, known, i, n, l);
      case Take(_, _) => KeepsTake(c, sent, known, i, n, l);
      case Handle(_, _) => KeepsHandle(c, sent, known, i, n, l);
      case Finish(_) => KeepsFinish(c, sent, known, i, n, l);
      case SendReply(_, _, _) => KeepsSendReply(c, sent, known, i, n, l);
      case ReadStore(_) => KeepsReadStore(c, sent, known, i, n, l);
      case Notify(_) => KeepsNotify(c, sent, known, i, n, l);
      case BuildServer(_) => KeepsBuildServer(c, sent, known, i, n, l);
    }
  }

  ghost predicate OutFacts(c: Config, known: set<Bytes>, i: Name, n: Node, out: Out) {
    out.Send? ==>
      && SenderFacts(c, i, n, n.inc, out.dst, out.body)
      && MsgFacts(known, Msg(i, n.inc, out.dst, 0, out.body))
  }

  lemma AskSends(c: Config, known: set<Bytes>, i: Name, n: Node, p: Proc, ok: bool)
    ensures AskOne(n, p, i, ok).Step? && OutFacts(c, known, i, n, AskOne(n, p, i, ok).out)
  {
  }

  lemma ReplySends(c: Config, known: set<Bytes>, i: Name, n: Node, r: Reply)
    requires ReplyInv(c, known, i, n, r)
    ensures OutFacts(c, known, i, n, ReplyOut(r))
  {
  }

  lemma DispatchSilent(c: Config, i: Name, n: Node, p: Proc, m: Msg, seen: Status, random: Bytes)
    ensures var st := Dispatch(c, i, n, p, m, seen, random); st.Step? ==> st.out == Silent
  {
  }

  predicate Sends(l: Label) {
    l.AskPeer? || l.InitialPeer? || l.ForwardPeer? || l.SendReply?
  }

  lemma OtherwiseSilent(c: Config, i: Name, n: Node, l: Label)
    requires i in c.seedLists && LocalEnabled(c, i, n, l) && !Sends(l)
    ensures LocalStep(c, i, n, l).Step? ==> LocalStep(c, i, n, l).out == Silent
  {
    if l.Handle? { DispatchSilent(c, i, n, n.proc.value, n.proc.value.loop.msg, n.proc.value.loop.seen, l.random); }
  }

  /** What a node sends is what it stands for: its own fixed key, its own file, its own name. */
  lemma NodeStepSends(c: Config, sent: set<Msg>, known: set<Bytes>, i: Name, n: Node, l: Label)
    requires ValidConfig(c) && i in c.seedLists && NodeInv(c, sent, known, i, n) && LocalEnabled(c, i, n, l) && l.i == i
    requires LocalStep(c, i, n, l).Step?
    ensures OutFacts(c, known, i, n, LocalStep(c, i, n, l).out)
  {
    if !Sends(l) {
      OtherwiseSilent(c, i, n, l);
    } else if l.AskPeer? {
      AskSends(c, known, i, n, n.proc.value, l.ok);
    } else if l.SendReply? {
      AnswerSends(c, sent, known, i, n, l);
    } else {
      KeySends(c, sent, known, i, n, l);
    }
  }

  lemma KeySends(c: Config, sent: set<Msg>, known: set<Bytes>, i: Name, n: Node, l: Label)
    requires Running(c, sent, known, i, n, l) && (l.InitialPeer? || l.ForwardPeer?)
    ensures LocalStep(c, i, n, l).Step? && OutFacts(c, known, i, n, LocalStep(c, i, n, l).out)
  {
    SendsOwnKey(c, sent, known, i, n, l);
  }

  lemma AnswerSends(c: Config, sent: set<Msg>, known: set<Bytes>, i: Name, n: Node, l: Label)
    requires Running(c, sent, known, i, n, l) && l.SendReply?
    ensures LocalStep(c, i, n, l).Step? && OutFacts(c, known, i, n, LocalStep(c, i, n, l).out)
  {
    assert ReplyInv(c, known, i, n, l.reply);
    ReplySends(c, known, i, n, l.reply);
  }
}
