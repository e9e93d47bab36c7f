/**
 * What holds inside one process in every run: the state graph, the message loop acting on a current
 * state, the bounded notification queue, the key store behind its cache, the web server's key, the
 * cleanup of the seeding scratch data, and the restart check.
 */
module Threads {
  import opened Basics
  import opened Vault
  import opened Protocol
  import opened Invariant
  import opened Preserve
  import opened Agreement
  import opened CrashFree
  import Hex
  import Seed
  import KeyStore

  /** The states a process can go through; READY is never left. */
  predicate Edge(a: Status, b: Status) {
    match a
    case Booting => b == NoKey || b == Validating || b == Ready
    case NoKey => b == QueryKey || b == Seeding
    case Seeding => b == Ready
    case QueryKey => b == Ready
    case Validating => b == Ready
    case Ready => false
  }

  /** The graph has no cycles: every edge leads further from the start. */
  lemma EdgesClimb(a: Status, b: Status)
    requires Edge(a, b)
    ensures Depth(a) < Depth(b)
  {
  }

  /** A step of a running process moves its state along an edge, and only the loop leaves a state the loop acts on. */
  lemma StatusStep(c: Config, sent: set<Msg>, known: set<Bytes>, i: Name, n: Node, l: Label)
    requires i in c.seedLists && NodeInv(c, sent, known, i, n) && n.proc.Some? && LocalEnabled(c, i, n, l)
    requires NextNode(c, i, n, l).proc.Some?
    ensures var a, b := n.proc.value.status, NextNode(c, i, n, l).proc.value.status;
            && (a == b || Edge(a, b))
            && (Acting(a) && !l.Handle? && !l.Finish? ==> b == a)
  {
    var p := n.proc.value;
    if SideStep(l) {
      SideStepFrame(c, i, n, l);
    } else if l.Handle? {
      HandleStatus(c, sent, i, n, p, l.random);
    } else {
      if l.Finish? { assert Active(c, sent, i, n, p); }
      StartStatus(c, i, n, l);
    }
  }

  lemma StartStatus(c: Config, i: Name, n: Node, l: Label)
    requires i in c.seedLists && n.proc.Some? && StartInv(c, i, n, n.proc.value) && LocalEnabled(c, i, n, l)
    requires l.Finish? ==> n.proc.value.status == Seeding
    requires NextNode(c, i, n, l).proc.Some? && !SideStep(l) && !l.Handle?
    ensures var a, b := n.proc.value.status, NextNode(c, i, n, l).proc.value.status;
            && (a == b || Edge(a, b))
            && (Acting(a) && !l.Finish? ==> b == a)
  {
  }

  lemma HandleStatus(c: Config, sent: set<Msg>, i: Name, n: Node, p: Proc, random: Bytes)
    requires p.loop.Got? && LoopInv(sent, i, n, p)
    ensures var st := Dispatch(c, i, n, p, p.loop.msg, p.loop.seen, random);
            st.Step? ==>
              && st.node.proc.Some?
              && (st.node.proc.value.status == p.status || Edge(p.status, st.node.proc.value.status))
  {
  }

  /** Over every run: the state read by the loop is still the state when the handler acts on it. */
  lemma LoopActsOnCurrentState(c: Config, ls: seq<Label>, i: Name)
    requires ValidConfig(c) && Exec(c, ls).Some? && i in c.names
    ensures var s := Exec(c, ls).value;
            i in s.nodes &&
            (s.nodes[i].proc.Some? ==>
               var p := s.nodes[i].proc.value;
               p.loop.Got? && Acting(p.loop.seen) ==> p.status == p.loop.seen)
  {
    RunInv(c, ls);
  }

  const CHANNEL_CAPACITY := 1024

  ghost predicate GoodMove(n: Node, n': Node) {
    n.proc.Some? && n'.proc.Some? ==>
      var p, p' := n.proc.value, n'.proc.value;
      && (p.status == p'.status || (Edge(p.status, p'.status) && Depth(p.status) < Depth(p'.status)))
      && |p.notes| <= 3 && |p'.notes| <= 3 < CHANNEL_CAPACITY
  }

  lemma NodeMove(c: Config, sent: set<Msg>, known: set<Bytes>, i: Name, n: Node, l: Label)
    requires i in c.seedLists && NodeInv(c, sent, known, i, n) && LocalEnabled(c, i, n, l)
    requires Kept(c, sent, known, i, n, NextNode(c, i, n, l))
    ensures GoodMove(n, NextNode(c, i, n, l))
  {
    if n.proc.Some? && NextNode(c, i, n, l).proc.Some? {
      StatusStep(c, sent, known, i, n, l);
      var a, b := n.proc.value.status, NextNode(c, i, n, l).proc.value.status;
      if a != b { EdgesClimb(a, b); }
    }
  }

  /**
   * Over every run and every step: a process follows the state graph, each change leading further from the
   * start, and never queues a fourth notification.
   */
  lemma StateGraphAndQueue(c: Config, ls: seq<Label>, l: Label)
    requires ValidConfig(c) && Exec(c, ls).Some? && Enabled(c, Exec(c, ls).value, l)
    ensures var s := Exec(c, ls).value;
            l.i in Apply(c, s, l).nodes && GoodMove(s.nodes[l.i], Apply(c, s, l).nodes[l.i])
  {
    RunInv(c, ls);
    var s := Exec(c, ls).value;
    StepKept(c, s, l);
    NodeMove(c, s.sent, s.known, l.i, s.nodes[l.i], l);
    ApplyShape(c, s, l, Apply(c, s, l), NextNode(c, l.i, s.nodes[l.i], l), StepPosts(c, s, l));
  }

  /** Over every run: `Read` returns what the file holds, and a node in VALIDATING or READY has a file. */
  lemma StoreCoherent(c: Config, ls: seq<Label>, i: Name)
    requires ValidConfig(c) && Exec(c, ls).Some? && i in c.names
    ensures var s := Exec(c, ls).value;
            i in s.nodes &&
            (s.nodes[i].proc.Some? ==>
               var n, p := s.nodes[i], s.nodes[i].proc.value;
               && KeyStore.ReadThrough(p.cache, n.disk) == n.disk
               && (p.status == Validating || p.status == Ready ==> n.disk.Some?))
  {
    RunInv(c, ls);
  }

  ghost predicate FirstWrite(n: Node, n': Node) {
    n'.disk != n.disk ==> n.disk.None? && n.proc.Some? && n.proc.value.cache.None?
  }

  lemma NodeWrite(c: Config, sent: set<Msg>, known: set<Bytes>, i: Name, n: Node, l: Label)
    requires i in c.seedLists && NodeInv(c, sent, known, i, n) && LocalEnabled(c, i, n, l)
    requires Kept(c, sent, known, i, n, NextNode(c, i, n, l))
    ensures FirstWrite(n, NextNode(c, i, n, l))
  {
  }

  /** A step writes the file only while it is absent, and then the cache is empty. */
  lemma WritesOnce(c: Config, ls: seq<Label>, l: Label)
    requires ValidConfig(c) && Exec(c, ls).Some? && Enabled(c, Exec(c, ls).value, l)
    ensures var s := Exec(c, ls).value;
            l.i in Apply(c, s, l).nodes && FirstWrite(s.nodes[l.i], Apply(c, s, l).nodes[l.i])
  {
    RunInv(c, ls);
    var s := Exec(c, ls).value;
    StepKept(c, s, l);
    NodeWrite(c, s.sent, s.known, l.i, s.nodes[l.i], l);
    ApplyShape(c, s, l, Apply(c, s, l), NextNode(c, l.i, s.nodes[l.i], l), StepPosts(c, s, l));
  }

  /** The web server, if built, holds the key of the node's file; in a safe cluster that is everybody's key. */
  lemma ServerKey(c: Config, seeds: set<Name>, ls: seq<Label>, i: Name, j: Name)
    requires ValidConfig(c) && CommonSeeds(c, seeds) && SafePreset(c, seeds) && Exec(c, ls).Some?
    requires i in c.names && j in c.names
    ensures var s := Exec(c, ls).value;
            i in s.nodes && j in s.nodes &&
            (s.nodes[i].proc.Some? && s.nodes[i].proc.value.server.Built? ==>
               var v := s.nodes[i].proc.value.server.vault;
               && v.Some? && v == s.nodes[i].disk && IsReady(s.nodes[i])
               && SecretKey(v.value).Some?
               && (s.nodes[j].disk.Some? ==> SecretKey(s.nodes[j].disk.value) == SecretKey(v.value)))
  {
    RunInv(c, ls);
    ClusterAgreement(c, seeds, ls, i, j);
    ClusterAgreement(c, seeds, ls, i, i);
  }

  /**
   * Cleanup is never premature: when it runs, either the scratch data is wiped already or every other
   * seed has an entry, and it wipes exactly when all are sent to and heard from. By then the completed
   * key has been returned. Wiping again changes nothing.
   */
  lemma CleanupNotPremature(c: Config, ls: seq<Label>, i: Name)
    requires ValidConfig(c) && Exec(c, ls).Some? && Enabled(c, Exec(c, ls).value, RunCleanup(i))
    ensures var s := Exec(c, ls).value;
            var p := s.nodes[i].proc.value;
            && (p.seed == Seed.Wiped() || p.seed.exchange.Keys == ToSet(Others(c, i)))
            && (Seed.Cleanup(p.seed) == Seed.Wiped() <==>
                  p.seed == Seed.Wiped() || forall j :: j in Others(c, i) ==>
                      Seed.SentTo(p.seed, j) && Seed.ReceivedFrom(p.seed, j))
            && (Seed.Cleanup(p.seed) == Seed.Wiped() ==> p.loop.Complete? || p.status == Ready)
            && (Seed.Cleanup(p.seed) == Seed.Wiped() || Seed.Cleanup(p.seed) == p.seed)
            && Seed.Cleanup(Seed.Cleanup(p.seed)) == Seed.Cleanup(p.seed)
  {
    RunInv(c, ls);
    var s := Exec(c, ls).value;
    CleanupShape(c, i, s.nodes[i], RunCleanup(i));
    CleanerFacts(c, s.sent, s.known, i, s.nodes[i], s.nodes[i].proc.value);
  }

  lemma CleanerFacts(c: Config, sent: set<Msg>, known: set<Bytes>, i: Name, n: Node, p: Proc)
    requires i in c.seedLists && n.proc == Some(p) && NodeInv(c, sent, known, i, n) && p.cleanups > 0
    ensures p.seed == Seed.Wiped() || p.seed.exchange.Keys == ToSet(Others(c, i))
    ensures Seed.Cleanup(p.seed) == Seed.Wiped() <==>
              p.seed == Seed.Wiped() || forall j :: j in Others(c, i) ==>
                  Seed.SentTo(p.seed, j) && Seed.ReceivedFrom(p.seed, j)
    ensures Seed.Cleanup(p.seed) == Seed.Wiped() ==> p.loop.Complete? || p.status == Ready
    ensures Seed.Cleanup(p.seed) == Seed.Wiped() || Seed.Cleanup(p.seed) == p.seed
  {
    assert Active(c, sent, i, n, p);
    if p.seed != Seed.Wiped() {
      OthersNoDup(c, i);
      Seed.CleanupIffDone(p.seed);
      assert p.seed.others == Others(c, i);
    }
  }

  // ----------------------------------------------------------- restart check

  /**
   * A VALIDATING node that handles a reply becomes READY exactly when its own key is the replying
   * peer's key, and otherwise panics: for any files to begin with, over every interleaving.
   */
  lemma RestartCheckExact(c: Config, ls: seq<Label>, i: Name, m: Msg, random: Bytes)
    requires ValidConfig(c) && Ideal(c.suite) && Exec(c, ls).Some?
    requires Enabled(c, Exec(c, ls).value, Handle(i, random))
    requires Exec(c, ls).value.nodes[i].proc.value.loop == Got(m, Validating) && m.body.ChallengeResp?
    ensures var s := Exec(c, ls).value;
            && m.src in s.nodes && s.nodes[m.src].disk.Some? && s.nodes[i].disk.Some?
            && (SecretKey(s.nodes[i].disk.value) == SecretKey(s.nodes[m.src].disk.value) <==>
                  IsReady(Apply(c, s, Handle(i, random)).nodes[i]))
            && (SecretKey(s.nodes[i].disk.value) != SecretKey(s.nodes[m.src].disk.value) <==>
                  Panicking(c, s, Handle(i, random)))
  {
    RunInv(c, ls);
    var s := Exec(c, ls).value;
    var k, k', r := BothKeys(c, s, i, m);
    ReplyChecked(c, s, i, m, random, k, k', r);
  }

  lemma ReplyChecked(c: Config, s: State, i: Name, m: Msg, random: Bytes, k: Bytes, k': Bytes, r: Bytes)
    requires Ideal(c.suite) && Enabled(c, s, Handle(i, random)) && s.nodes[i].proc.Some?
    requires s.nodes[i].proc.value.loop == Got(m, Validating) && m.body.ChallengeResp?
    requires Holds(i, s.nodes[i], k) && KeyStore.Coherent(s.nodes[i].proc.value.cache, s.nodes[i].disk)
    requires m.src in s.nodes && Holds(m.src, s.nodes[m.src], k') && m.body.box == c.suite.seal(k', r, i)
    ensures SecretKey(s.nodes[i].disk.value) == SecretKey(s.nodes[m.src].disk.value) <==>
            IsReady(Apply(c, s, Handle(i, random)).nodes[i])
    ensures SecretKey(s.nodes[i].disk.value) != SecretKey(s.nodes[m.src].disk.value) <==>
            Panicking(c, s, Handle(i, random))
  {
    HandleOutcome(c, s, Handle(i, random));
    CheckedReply(c, s.nodes[i], s.nodes[i].proc.value, i, m, k, k', r);
    Hex.RoundTrip(k);
    Hex.RoundTrip(k');
  }

  /** The check on values: the node's key is `k`, the box was sealed with `k'`. */
  lemma CheckedReply(c: Config, n: Node, p: Proc, i: Name, m: Msg, k: Bytes, k': Bytes, r: Bytes)
    requires Ideal(c.suite) && m.body.ChallengeResp? && m.body.box == c.suite.seal(k', r, i) && |k'| == KEY_SIZE
    requires Holds(i, n, k) && KeyStore.Coherent(p.cache, n.disk)
    ensures var st := HandleChallengeResponse(c, n, p, m.body.box);
            if k == k' then st.Step? && IsReady(st.node) else st == Panic(BadBox)
  {
    KeyRecovered(i, n, p, k);
    Hex.RoundTrip(k');
    UnsealIffSameKey(c.suite, m.src, k', i, k, r, i);
    CheckOutcome(c, n, p, i, k, k', m.body.box);
  }

  lemma HandleOutcome(c: Config, s: State, l: Label)
    requires Enabled(c, s, l) && l.Handle?
    ensures s.nodes[l.i].proc.Some? && s.nodes[l.i].proc.value.loop.Got?
    ensures var n, p := s.nodes[l.i], s.nodes[l.i].proc.value;
            var st := Dispatch(c, l.i, n, p, p.loop.msg, p.loop.seen, l.random);
            Apply(c, s, l).nodes[l.i] == After(n, st) && (Panicking(c, s, l) <==> st.Panic?)
  {
    HandleIsDispatch(c, l.i, s.nodes[l.i], l);
  }

  /** The key of the node that checks a reply, and the key its sender sealed it with. */
  lemma BothKeys(c: Config, s: State, i: Name, m: Msg) returns (k: Bytes, k': Bytes, r: Bytes)
    requires Inv(c, s) && i in s.nodes && s.nodes[i].proc.Some?
    requires s.nodes[i].proc.value.loop == Got(m, Validating) && m.body.ChallengeResp?
    ensures Holds(i, s.nodes[i], k) && m.src in s.nodes && Holds(m.src, s.nodes[m.src], k')
    ensures m.body.box == c.suite.seal(k', r, i)
    ensures KeyStore.Coherent(s.nodes[i].proc.value.cache, s.nodes[i].disk)
  {
    assert NodeInv(c, s.sent, s.known, i, s.nodes[i]);
    assert SentInv(c, s, m);
    k' :| Holds(m.src, s.nodes[m.src], k') && BoxOf(c, k', m.dst, m.body.box);
    r :| m.body.box == c.suite.seal(k', r, m.dst);
    k :| k in s.known && Holds(i, s.nodes[i], k);
  }

  lemma CheckOutcome(c: Config, n: Node, p: Proc, i: Name, k: Bytes, k': Bytes, box: Bytes)
    requires KeyStore.ReadThrough(p.cache, n.disk) == Some(FileFor(i, k))
    requires Unseal(c.suite, FileFor(i, k), box).Ok? <==> k == k'
    requires k == k' ==> Unseal(c.suite, FileFor(i, k), box) == Ok(i)
    ensures var st := HandleChallengeResponse(c, n, p, box);
            && (k == k' ==> st.Step? && IsReady(st.node))
            && (k != k' ==> st == Panic(BadBox))
  {
  }

  /** With a common seed list and safe files, the one panic any run can reach is a key mismatch while seeding. */
  lemma OnlyMismatchPanics(c: Config, seeds: set<Name>, ls: seq<Label>, l: Label)
    requires ValidConfig(c) && Ideal(c.suite) && CommonSeeds(c, seeds) && SafePreset(c, seeds)
    requires Exec(c, ls).Some? && Panicking(c, Exec(c, ls).value, l)
    ensures var s := Exec(c, ls).value;
            && LocalStep(c, l.i, s.nodes[l.i], l) == Panic(Mismatch)
            && l.Handle? && s.nodes[l.i].proc.Some? && s.nodes[l.i].proc.value.status == Seeding
  {
    RunInv(c, ls);
    var s := Exec(c, ls).value;
    var n := s.nodes[l.i];
    if !l.Handle? {
      OnlyHandlePanics(c, l.i, n, l);
    } else {
      var p := n.proc.value;
      var Got(m, seen) := p.loop;
      assert SentInv(c, s, m);
      match (seen, m.body) {
        case (Seeding, KeyInit(_)) => SeedKeyPanicsOnlyOnMismatch(c, s, l.i, m);
        case (Ready, _) => ServingNeverPanics(c, s, l.i, m, l.random);
        case (Validating, ChallengeResp(_)) =>
          RestartCheckExact(c, ls, l.i, m, l.random);
          DisksAgree(c, seeds, s, l.i, m.src);
        case _ =>
      }
    }
  }
}
