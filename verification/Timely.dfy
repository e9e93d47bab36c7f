/**
 * Exactly when seeding completes. A seed is READY if and only if it has read a key message from every
 * other seed after it began to seed itself; a message read earlier is dropped and does not count. This
 * holds of every crash-free run, whatever messages fail. For runs with reliable sends that have come to
 * rest it is the exact condition for the whole outcome.
 */
module Timely {
  import opened Basics
  import opened Vault
  import opened Names
  import opened Protocol
  import opened Invariant
  import opened Preserve
  import opened Agreement
  import opened CrashFree
  import opened Completion
  import opened Termination
  import Seed

  /** Step `r` of the run is `j` reading a key message of `i`, having begun to seed. */
  ghost predicate TimelyAt(c: Config, ls: seq<Label>, r: nat, i: Name, j: Name)
    requires r < |ls|
  {
    && ls[r].Take? && ls[r].i == j && ls[r].msg.src == i && ls[r].msg.body.KeyInit?
    && Exec(c, ls[..r]).Some? && j in Exec(c, ls[..r]).value.nodes && Begun(Exec(c, ls[..r]).value.nodes[j])
  }

  ghost predicate TimelyRead(c: Config, ls: seq<Label>, i: Name, j: Name) {
    exists r :: 0 <= r < |ls| && TimelyAt(c, ls, r, i, j)
  }

  ghost predicate AllTimely(c: Config, seeds: set<Name>, ls: seq<Label>) {
    forall i, j :: i in seeds && j in seeds && i != j ==> TimelyRead(c, ls, i, j)
  }

  lemma TimelyStays(c: Config, ls: seq<Label>, l: Label, i: Name, j: Name)
    requires TimelyRead(c, ls, i, j)
    ensures TimelyRead(c, ls + [l], i, j)
  {
    var r :| 0 <= r < |ls| && TimelyAt(c, ls, r, i, j);
    assert (ls + [l])[..r] == ls[..r];
    assert (ls + [l])[r] == ls[r];
    assert TimelyAt(c, ls + [l], r, i, j);
  }

  // -------------------------------------------------- how a seed comes to hear

  lemma HandleHears(c: Config, sent: set<Msg>, known: set<Bytes>, j: Name, n: Node, p: Proc, random: Bytes, x: Name)
    requires j in c.seedLists && n.proc == Some(p) && NodeInv(c, sent, known, j, n) && p.loop.Got?
    requires p.status != QueryKey && p.status != Validating
    requires Dispatch(c, j, n, p, p.loop.msg, p.loop.seen, random).Step?
    requires GotFrom(Dispatch(c, j, n, p, p.loop.msg, p.loop.seen, random).node, x) && !GotFrom(n, x)
    ensures Pending(n, p.loop.msg) && p.loop.msg.src == x && p.loop.msg.body.KeyInit?
  {
    var m := p.loop.msg;
    if p.loop.seen == Seeding && m.body.KeyInit? {
      SeedKeyShape(n, p, m.body.key, m.src);
    } else {
      DispatchOutside(c, j, n, p, m, p.loop.seen, random);
    }
  }

  lemma CleanupHears(c: Config, sent: set<Msg>, j: Name, n: Node, l: Label, x: Name)
    requires j in c.seedLists && n.proc.Some? && Active(c, sent, j, n, n.proc.value) && LocalEnabled(c, j, n, l)
    requires l.RunCleanup?
    requires x in Others(c, j) && GotFrom(NextNode(c, j, n, l), x)
    ensures GotFrom(n, x)
  {
    var p := n.proc.value;
    CleanupShape(c, j, n, l);
    if p.seed != Seed.Wiped() {
      OthersNoDup(c, j);
      Seed.CleanupIffDone(p.seed);
      assert x in p.seed.others;
    }
  }

  lemma TaskHears(c: Config, sent: set<Msg>, j: Name, n: Node, l: Label, x: Name)
    requires j in c.seedLists && n.proc.Some? && Active(c, sent, j, n, n.proc.value) && LocalEnabled(c, j, n, l)
    requires TaskStep(l)
    requires x in Others(c, j) && GotFrom(NextNode(c, j, n, l), x)
    ensures GotFrom(n, x)
  {
    if l.RunCleanup? {
      CleanupHears(c, sent, j, n, l, x);
    } else if l.ForwardPeer? {
      ForwardPeerShape(c, j, n, l);
      ForwardHears(n.proc.value.seed, n.proc.value.lock.rest[0],
                   l.ok && Seed.Attempts(n.proc.value.seed, n.proc.value.lock.rest[0]), x);
    } else {
      TaskKeepsRecord(c, j, n, l);
    }
  }

  lemma ForwardPeerShape(c: Config, j: Name, n: Node, l: Label)
    requires j in c.seedLists && n.proc.Some? && LocalEnabled(c, j, n, l) && l.ForwardPeer?
    ensures var p := n.proc.value;
            && p.lock.Forwarding? && p.lock.rest != []
            && var r := Seed.ForwardOne(p.seed, p.lock.rest[0], l.ok && Seed.Attempts(p.seed, p.lock.rest[0]));
               NextNode(c, j, n, l) == n.(proc := Some(p.(seed := r, lock := Forwarding(p.lock.key, p.lock.rest[1..]))))
  {
  }

  lemma ForwardHears(r: Seed.Record, peer: Name, mark: bool, x: Name)
    ensures var r' := Seed.ForwardOne(r, peer, mark);
            r' != Seed.Wiped() && (Seed.ReceivedFrom(r', x) <==> Seed.ReceivedFrom(r, x))
  {
    assert peer in Seed.ForwardOne(r, peer, mark).exchange;
  }

  lemma TaskKeepsRecord(c: Config, j: Name, n: Node, l: Label)
    requires j in c.seedLists && n.proc.Some? && LocalEnabled(c, j, n, l) && TaskStep(l) && !l.RunCleanup?
    requires !l.ForwardPeer?
    ensures var n' := NextNode(c, j, n, l);
            n'.proc.Some? && n'.proc.value.seed == n.proc.value.seed && n'.inc == n.inc && n'.fixed == n.fixed
  {
  }

  /** The record of a seed that begins holds nothing yet. */
  lemma BeginHears(c: Config, j: Name, n: Node, l: Label, x: Name)
    requires j in c.seedLists && n.proc.Some? && LocalEnabled(c, j, n, l) && l.StartSeed?
    ensures !GotFrom(NextNode(c, j, n, l), x)
  {
  }

  /** Only handling a message of `x` that was read in time makes a seed hear from `x`. */
  lemma NewlyHeard(c: Config, sent: set<Msg>, known: set<Bytes>, j: Name, n: Node, l: Label, x: Name)
    requires j in c.seedLists && NodeInv(c, sent, known, j, n) && FirstLife(n) && NoQuery(n) && LocalEnabled(c, j, n, l)
    requires !l.Crash? && LocalStep(c, j, n, l).Step? && x in Others(c, j)
    requires GotFrom(NextNode(c, j, n, l), x) && !GotFrom(n, x)
    ensures n.proc.Some? && l.Handle? && n.proc.value.loop.Got? && Pending(n, n.proc.value.loop.msg)
    ensures n.proc.value.loop.msg.src == x && n.proc.value.loop.msg.body.KeyInit?
  {
    assert n.proc.Some?;
    if l.Handle? {
      HandleIsDispatch(c, j, n, l);
      HandleHears(c, sent, known, j, n, n.proc.value, l.random, x);
    } else if TaskStep(l) {
      TaskIsActive(c, sent, known, j, n, l);
      TaskHears(c, sent, j, n, l, x);
    } else if l.StartSeed? {
      BeginHears(c, j, n, l, x);
    } else {
      UntouchedSeeding(c, j, n, l);
    }
  }

  /** A message newly in the hands of a seeding loop was taken by this step. */
  lemma NewlyPending(c: Config, j: Name, n: Node, l: Label, m: Msg)
    requires j in c.seedLists && LocalEnabled(c, j, n, l) && !l.Crash? && LocalStep(c, j, n, l).Step?
    requires Pending(NextNode(c, j, n, l), m) && !Pending(n, m)
    ensures l == Take(l.i, m) && Begun(n)
  {
    if n.proc.Some? {
      if l.Handle? {
        HandledIsFree(c, j, n, l);
      } else if !l.Take? && n.proc.value.loop.Got? {
        PendingStays(c, j, n, l);
      } else if !l.Take? {
        NotTaken(c, j, n, l);
      }
    }
  }

  lemma NotTaken(c: Config, j: Name, n: Node, l: Label)
    requires j in c.seedLists && n.proc.Some? && LocalEnabled(c, j, n, l) && !l.Crash? && !l.Handle? && !l.Take?
    requires !n.proc.value.loop.Got?
    ensures NextNode(c, j, n, l).proc.Some? && !NextNode(c, j, n, l).proc.value.loop.Got?
  {
    if !TouchesSeeding(l) { UntouchedSeeding(c, j, n, l); }
  }

  // --------------------------------------------- a READY seed has heard from all

  ghost predicate DoneHeard(c: Config, j: Name, n: Node)
    requires j in c.seedLists
  {
    n.proc.Some? && Done(n.proc.value) ==> forall x :: x in Others(c, j) ==> GotFrom(n, x)
  }

  lemma DoneHandle(c: Config, sent: set<Msg>, known: set<Bytes>, j: Name, n: Node, p: Proc, random: Bytes)
    requires ValidConfig(c) && j in c.seedLists && n.proc == Some(p) && NodeInv(c, sent, known, j, n) && p.loop.Got?
    requires !Done(p)
    requires p.status != QueryKey && p.status != Validating
    requires (p.loop.seen == Seeding && p.loop.msg.body.KeyInit? ==> p.lock == Unlocked)
    requires Dispatch(c, j, n, p, p.loop.msg, p.loop.seen, random).Step?
    ensures DoneHeard(c, j, Dispatch(c, j, n, p, p.loop.msg, p.loop.seen, random).node)
  {
    var m := p.loop.msg;
    if p.loop.seen == Seeding && m.body.KeyInit? {
      DoneSeedKey(c, sent, known, j, n, p, m);
    } else {
      DispatchOutside(c, j, n, p, m, p.loop.seen, random);
    }
  }

  lemma DoneSeedKey(c: Config, sent: set<Msg>, known: set<Bytes>, j: Name, n: Node, p: Proc, m: Msg)
    requires ValidConfig(c) && j in c.seedLists && n.proc == Some(p) && NodeInv(c, sent, known, j, n)
    requires p.loop == Got(m, Seeding)
    requires m.body.KeyInit? && p.lock == Unlocked && HandleSeedKey(n, p, m.body.key, m.src).Step?
    ensures DoneHeard(c, j, HandleSeedKey(n, p, m.body.key, m.src).node)
  {
    if Waiting(c, j, n, p) { AcceptedFirst(c, sent, j, n, p, m); } else { AcceptedAgain(c, sent, j, n, p, m); }
    SeedKeyShape(n, p, m.body.key, m.src);
    assert p.seed != Seed.Wiped();
    AcceptedRecord(c, sent, j, n.inc, p.seed, m);
  }

  /** Becoming done otherwise: only `Finish`, which is done already. */
  lemma DoneElse(c: Config, sent: set<Msg>, known: set<Bytes>, j: Name, n: Node, l: Label)
    requires j in c.seedLists && NodeInv(c, sent, known, j, n) && FirstLife(n) && LocalEnabled(c, j, n, l)
    requires !l.Crash? && !l.Handle? && LocalStep(c, j, n, l).Step?
    requires NextNode(c, j, n, l).proc.Some? && Done(NextNode(c, j, n, l).proc.value)
    ensures n.proc.Some? && Done(n.proc.value)
  {
    if n.proc.Some? {
      if SideStep(l) { SideStepFrame(c, j, n, l); LoopNotCompleted(c, j, n, l); } else { StartNotDone(c, j, n, l); }
    }
  }

  lemma LoopNotCompleted(c: Config, j: Name, n: Node, l: Label)
    requires j in c.seedLists && n.proc.Some? && LocalEnabled(c, j, n, l) && SideStep(l)
    ensures NextNode(c, j, n, l).proc.Some?
    ensures (NextNode(c, j, n, l).proc.value.loop.Complete? ==> n.proc.value.loop.Complete?)
  {
    if !TouchesSeeding(l) { UntouchedSeeding(c, j, n, l); }
  }

  lemma StartNotDone(c: Config, j: Name, n: Node, l: Label)
    requires j in c.seedLists && n.proc.Some? && FirstLife(n) && LocalEnabled(c, j, n, l) && !l.Crash? && !l.Handle?
    requires !SideStep(l)
    ensures NextNode(c, j, n, l).proc.Some? && (Done(NextNode(c, j, n, l).proc.value) ==> Done(n.proc.value))
  {
  }

  lemma DoneStep(c: Config, sent: set<Msg>, known: set<Bytes>, j: Name, n: Node, l: Label)
    requires ValidConfig(c) && j in c.seedLists && NodeInv(c, sent, known, j, n) && FirstLife(n) && NoQuery(n)
    requires LocalEnabled(c, j, n, l)
    requires !l.Crash? && LocalStep(c, j, n, l).Step? && DoneHeard(c, j, n)
    ensures DoneHeard(c, j, NextNode(c, j, n, l))
  {
    var n' := NextNode(c, j, n, l);
    if n.proc.Some? && Done(n.proc.value) {
      forall x | x in Others(c, j) ensures GotFrom(n', x) { GotFromStep(c, sent, known, j, n, l, x); }
    } else if l.Handle? {
      HandleIsDispatch(c, j, n, l);
      DoneHandle(c, sent, known, j, n, n.proc.value, l.random);
    } else if n'.proc.Some? && Done(n'.proc.value) {
      DoneElse(c, sent, known, j, n, l);
    }
  }

  // -------------------------------------------------------------- whole runs

  /** What a crash-free run records about what `j` hears from `x`. */
  ghost predicate RecordedAt(c: Config, ls: seq<Label>, j: Name, n: Node, x: Name)
    requires j in c.seedLists
  {
    && DoneHeard(c, j, n)
    && (GotFrom(n, x) ==> TimelyRead(c, ls, x, j))
    && (forall m :: Pending(n, m) && m.src == x && m.body.KeyInit? ==> TimelyRead(c, ls, x, j))
  }

  lemma RecordedStep(c: Config, seeds: set<Name>, ls: seq<Label>, s: State, l: Label, j: Name, x: Name)
    requires FreshCluster(c, seeds) && Exec(c, ls) == Some(s) && FreshInv(c, seeds, s) && Enabled(c, s, l) && !l.Crash?
    requires l.i == j && j in seeds && x in Others(c, j) && RecordedAt(c, ls, j, s.nodes[j], x)
    ensures RecordedAt(c, ls + [l], j, NextNode(c, j, s.nodes[j], l), x)
  {
    var n := s.nodes[j];
    var n' := NextNode(c, j, n, l);
    FreshStepCompletes(c, seeds, s, l);
    assert FirstLife(n) && NoQuery(n);
    DoneStep(c, s.sent, s.known, j, n, l);
    if GotFrom(n', x) {
      if !GotFrom(n, x) { NewlyHeard(c, s.sent, s.known, j, n, l, x); }
      TimelyStays(c, ls, l, x, j);
    }
    forall m | Pending(n', m) && m.src == x && m.body.KeyInit? ensures TimelyRead(c, ls + [l], x, j) {
      if Pending(n, m) {
        TimelyStays(c, ls, l, x, j);
      } else {
        NewlyPending(c, j, n, l, m);
        assert (ls + [l])[..|ls|] == ls;
        assert TimelyAt(c, ls + [l], |ls|, x, j);
      }
    }
  }

  lemma RecordedNext(c: Config, seeds: set<Name>, ls: seq<Label>, s: State, l: Label, j: Name, x: Name)
    requires FreshCluster(c, seeds) && Exec(c, ls) == Some(s) && FreshInv(c, seeds, s) && Enabled(c, s, l) && !l.Crash?
    requires j in s.nodes && j in seeds && j in c.seedLists && x in Others(c, j) && RecordedAt(c, ls, j, s.nodes[j], x)
    ensures j in Apply(c, s, l).nodes && RecordedAt(c, ls + [l], j, Apply(c, s, l).nodes[j], x)
  {
    ApplyShape(c, s, l, Apply(c, s, l), NextNode(c, l.i, s.nodes[l.i], l), StepPosts(c, s, l));
    if l.i == j { RecordedStep(c, seeds, ls, s, l, j, x); } else { RecordedElse(c, ls, l, j, s.nodes[j], x); }
  }

  lemma RecordedInit(c: Config, seeds: set<Name>, j: Name, x: Name)
    requires FreshCluster(c, seeds) && j in seeds && j in c.names
    ensures j in Init(c).nodes && RecordedAt(c, [], j, Init(c).nodes[j], x)
  {
  }

  lemma {:induction false} RecordedRun(c: Config, seeds: set<Name>, ls: seq<Label>, j: Name, x: Name)
    requires FreshCluster(c, seeds) && Exec(c, ls).Some? && NoCrash(ls)
    requires j in seeds && j in c.names && x in Others(c, j)
    ensures j in Exec(c, ls).value.nodes && RecordedAt(c, ls, j, Exec(c, ls).value.nodes[j], x)
  {
    if ls == [] {
      RecordedInit(c, seeds, j, x);
    } else {
      var front, last := ls[..|ls| - 1], ls[|ls| - 1];
      LastIsEnabled(c, ls);
      assert NoCrash(front) && front + [last] == ls;
      RecordedRun(c, seeds, front, j, x);
      FreshRunInv(c, seeds, front);
      RecordedNext(c, seeds, front, Exec(c, front).value, last, j, x);
    }
  }

  lemma RecordedElse(c: Config, ls: seq<Label>, l: Label, j: Name, n: Node, x: Name)
    requires j in c.seedLists && RecordedAt(c, ls, j, n, x)
    ensures RecordedAt(c, ls + [l], j, n, x)
  {
    if TimelyRead(c, ls, x, j) { TimelyStays(c, ls, l, x, j); }
  }

  // ----------------------------------------------- a message read in time is heard

  lemma TimelyStep(c: Config, seeds: set<Name>, s: State, l: Label, m: Msg)
    requires FreshCluster(c, seeds) && FreshInv(c, seeds, s) && Enabled(c, s, l) && !l.Crash?
    requires l.i in seeds && l.i in c.seedLists && m.body.KeyInit? && m.src in Others(c, l.i)
    requires Reached(s.nodes[l.i], m) && DoneHeard(c, l.i, s.nodes[l.i])
    ensures Reached(NextNode(c, l.i, s.nodes[l.i], l), m)
  {
    var n := s.nodes[l.i];
    FreshStepCompletes(c, seeds, s, l);
    if GotFrom(n, m.src) {
      GotFromStep(c, s.sent, s.known, l.i, n, l, m.src);
    } else if !l.Handle? {
      PendingStays(c, l.i, n, l);
    } else {
      HandleIsDispatch(c, l.i, n, l);
      PendingIsHeard(c, s.sent, s.known, l.i, n, n.proc.value, m);
    }
  }

  /** A pending key message that was not heard before is of a seed still SEEDING, and is heard now. */
  lemma PendingIsHeard(c: Config, sent: set<Msg>, known: set<Bytes>, j: Name, n: Node, p: Proc, m: Msg)
    requires j in c.seedLists && n.proc == Some(p) && NodeInv(c, sent, known, j, n) && Pending(n, m) && m.body.KeyInit?
    requires m.src in Others(c, j) && !GotFrom(n, m.src) && DoneHeard(c, j, n)
    requires p.lock == Unlocked || p.loop.seen != Seeding
    requires p.loop.seen == Seeding ==> HandleSeedKey(n, p, m.body.key, m.src).Step?
    ensures p.loop.seen == Seeding && GotFrom(HandleSeedKey(n, p, m.body.key, m.src).node, m.src)
  {
    assert p.status == p.loop.seen;
    assert !Done(p);
    if Waiting(c, j, n, p) { AcceptedFirst(c, sent, j, n, p, m); } else { AcceptedAgain(c, sent, j, n, p, m); }
    SeedKeyShape(n, p, m.body.key, m.src);
    assert p.seed != Seed.Wiped();
  }

  lemma TakenInTime(c: Config, s: State, l: Label)
    requires Enabled(c, s, l) && l.Take? && Begun(s.nodes[l.i])
    ensures Pending(NextNode(c, l.i, s.nodes[l.i], l), l.msg)
  {
  }

  lemma TimelyNext(c: Config, seeds: set<Name>, s: State, l: Label, j: Name, m: Msg)
    requires FreshCluster(c, seeds) && FreshInv(c, seeds, s) && Enabled(c, s, l) && !l.Crash?
    requires j in s.nodes && j in seeds && j in c.seedLists && m.body.KeyInit? && m.src in Others(c, j)
    requires DoneHeard(c, j, s.nodes[j])
    requires Reached(s.nodes[j], m) || (l == Take(j, m) && Begun(s.nodes[j]))
    ensures j in Apply(c, s, l).nodes && Reached(Apply(c, s, l).nodes[j], m)
  {
    ApplyShape(c, s, l, Apply(c, s, l), NextNode(c, l.i, s.nodes[l.i], l), StepPosts(c, s, l));
    if l == Take(j, m) && Begun(s.nodes[j]) {
      TakenInTime(c, s, l);
    } else if l.i == j {
      TimelyStep(c, seeds, s, l, m);
    }
  }

  lemma {:induction false} TimelyIsHeard(c: Config, seeds: set<Name>, ls: seq<Label>, r: nat, j: Name, x: Name)
    requires FreshCluster(c, seeds) && Exec(c, ls).Some? && NoCrash(ls)
    requires j in seeds && j in c.names && x in Others(c, j) && r < |ls| && TimelyAt(c, ls, r, x, j)
    ensures j in Exec(c, ls).value.nodes && Reached(Exec(c, ls).value.nodes[j], ls[r].msg)
  {
    var front, last := ls[..|ls| - 1], ls[|ls| - 1];
    LastIsEnabled(c, ls);
    assert NoCrash(front);
    if r == |ls| - 1 {
      assert ls[..r] == front && last == Take(j, ls[r].msg);
    } else {
      assert front[..r] == ls[..r] && front[r] == ls[r];
      TimelyIsHeard(c, seeds, front, r, j, x);
    }
    FreshRunInv(c, seeds, front);
    RecordedRun(c, seeds, front, j, x);
    TimelyNext(c, seeds, Exec(c, front).value, last, j, ls[r].msg);
  }

  // --------------------------------------------------------------- the results

  /** The loop is not in the middle of a key message. */
  predicate Settled(n: Node) {
    n.proc.Some? ==> !n.proc.value.loop.Complete? && !(n.proc.value.loop.Got? && n.proc.value.loop.msg.body.KeyInit?)
  }

  lemma HeardAllIsReady(c: Config, seeds: set<Name>, s: State, j: Name)
    requires SeedCluster(c, seeds) && FreshInv(c, seeds, s) && j in s.nodes && j in seeds && Settled(s.nodes[j])
    requires forall x :: x in Others(c, j) ==> GotFrom(s.nodes[j], x)
    ensures IsReady(s.nodes[j])
  {
    var n := s.nodes[j];
    HasOthers(c, seeds, j);
    assert GotFrom(n, Others(c, j)[0]);
    assert NodeInv(c, s.sent, s.known, j, n);
    assert Active(c, s.sent, j, n, n.proc.value);
    assert n.proc.value.seed == Seed.Wiped() || EveryoneHeard(c, j, n.proc.value.seed);
  }

  lemma IsOther(c: Config, seeds: set<Name>, j: Name, x: Name)
    requires FreshCluster(c, seeds) && j in c.names && j in seeds
    ensures x in Others(c, j) <==> x in seeds && x != j
  {
    OthersNoDup(c, j);
    assert x in Others(c, j) <==> x in ToSet(Others(c, j));
    assert Added([j]) == {j};
  }

  /** In every crash-free run, a seed is READY exactly when it has read a key message of every other seed in time. */
  lemma ReadyIffTimely(c: Config, seeds: set<Name>, ls: seq<Label>, j: Name)
    requires SeedCluster(c, seeds) && Exec(c, ls).Some? && NoCrash(ls) && j in seeds && j in c.names
    requires j in Exec(c, ls).value.nodes && Settled(Exec(c, ls).value.nodes[j])
    ensures IsReady(Exec(c, ls).value.nodes[j]) <==> forall i :: i in seeds && i != j ==> TimelyRead(c, ls, i, j)
  {
    var s := Exec(c, ls).value;
    FreshRunInv(c, seeds, ls);
    if IsReady(s.nodes[j]) {
      forall i | i in seeds && i != j ensures TimelyRead(c, ls, i, j) {
        IsOther(c, seeds, j, i);
        RecordedRun(c, seeds, ls, j, i);
      }
    }
    if forall i :: i in seeds && i != j ==> TimelyRead(c, ls, i, j) {
      forall x | x in Others(c, j) ensures GotFrom(s.nodes[j], x) {
        IsOther(c, seeds, j, x);
        var r :| 0 <= r < |ls| && TimelyAt(c, ls, r, x, j);
        TimelyIsHeard(c, seeds, ls, r, j, x);
      }
      HeardAllIsReady(c, seeds, s, j);
    }
  }

  /** Every seed is READY, with the master's key on disk and its scratch data wiped. */
  ghost predicate Completed(seeds: set<Name>, s: State)
    requires seeds != {}
  {
    && Least(seeds) in s.nodes && 1 in s.nodes[Least(seeds)].fixed
    && forall i :: i in seeds ==>
         && i in s.nodes && IsReady(s.nodes[i]) && s.nodes[i].proc.value.seed == Seed.Wiped()
         && s.nodes[i].disk == Some(FileFor(i, s.nodes[Least(seeds)].fixed[1]))
  }

  ghost predicate AllReady(seeds: set<Name>, s: State) {
    forall i :: i in seeds ==> i in s.nodes && IsReady(s.nodes[i])
  }

  lemma AllReadyIffTimely(c: Config, seeds: set<Name>, ls: seq<Label>)
    requires SeedCluster(c, seeds) && Exec(c, ls).Some? && NoCrash(ls) && Quiescent(seeds, Exec(c, ls).value)
    ensures AllReady(seeds, Exec(c, ls).value) <==> AllTimely(c, seeds, ls)
  {
    FreshRunInv(c, seeds, ls);
    forall j | j in seeds
      ensures IsReady(Exec(c, ls).value.nodes[j]) <==> forall i :: i in seeds && i != j ==> TimelyRead(c, ls, i, j)
    {
      ReadyIffTimely(c, seeds, ls, j);
    }
  }

  lemma ReadyAtRestIsWiped(c: Config, seeds: set<Name>, s: State, i: Name)
    requires SeedCluster(c, seeds) && TaskInv(c, seeds, s) && Quiescent(seeds, s) && i in seeds && IsReady(s.nodes[i])
    ensures s.nodes[i].proc.value.seed == Seed.Wiped() && s.nodes[i].disk.Some?
  {
    var n := s.nodes[i];
    assert NodeInv(c, s.sent, s.known, i, n) && CalmNode(c, seeds, s.sent, i, n);
    assert Done(n.proc.value);
  }

  /**
   * A run with reliable sends that has come to rest has completed if and only if every seed has read a
   * key message of every other seed in time.
   */
  lemma CompletedIffTimely(c: Config, seeds: set<Name>, ls: seq<Label>)
    requires SeedCluster(c, seeds) && ReliableRun(c, seeds, ls, true) && Exec(c, ls).Some?
    requires Quiescent(seeds, Exec(c, ls).value)
    ensures Completed(seeds, Exec(c, ls).value) <==> AllTimely(c, seeds, ls)
    ensures AllReady(seeds, Exec(c, ls).value) <==> AllTimely(c, seeds, ls)
  {
    ReliableMeansNoCrash(c, seeds, ls, true);
    AllReadyIffTimely(c, seeds, ls);
    TaskRunInv(c, seeds, ls, true);
    var s := Exec(c, ls).value;
    if AllReady(seeds, s) {
      forall i | i in seeds
        ensures && Least(seeds) in s.nodes && 1 in s.nodes[Least(seeds)].fixed && i in s.nodes
                && s.nodes[i].proc.value.seed == Seed.Wiped()
                && s.nodes[i].disk == Some(FileFor(i, s.nodes[Least(seeds)].fixed[1]))
      {
        ReadyAtRestIsWiped(c, seeds, s, i);
        FileHoldsMastersKey(c, seeds, s, i);
      }
      assert Least(seeds) in seeds;
    }
  }
}
