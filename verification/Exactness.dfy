/**
 * The condition of agreement is exact: a cluster keeps agreement in all its runs exactly when the files it
 * starts from are safe. To that end, a fresh cluster has, for every key, a run in which all seeds end up
 * READY with that key.
 */
module Exactness {
  import opened Basics
  import opened Vault
  import opened Names
  import opened Protocol
  import opened Invariant
  import opened Agreement
  import opened CrashFree
  import opened Completion
  import opened Termination
  import Hex

  // ------------------------------------------------------------ bringing up

  /** One step that sends nothing and takes no message. */
  lemma QuietEnabled(c: Config, seeds: set<Name>, s: State, l: Label, n': Node)
    requires l.i in s.nodes && l.i in c.seedLists
    requires LocalEnabled(c, l.i, s.nodes[l.i], l) && LocalStep(c, l.i, s.nodes[l.i], l) == Step(n', Silent)
    requires ViewOf(s, l) && (l.Boot? || l.StartRead? || l.EnterNoKey? || l.StartSeed?)
    requires l.StartSeed? ==> forall x :: x in seeds ==> x in l.members
    ensures Enabled(c, s, l) && Reliable(c, seeds, s, l) && NotEarly(seeds, s, l)
    ensures StepPosts(c, s, l) == {} && NextNode(c, l.i, s.nodes[l.i], l) == n'
  {
  }

  lemma QuietStep(c: Config, seeds: set<Name>, early: bool, ls: seq<Label>, s: State, l: Label, n': Node)
    requires ReliableRun(c, seeds, ls, early) && Exec(c, ls) == Some(s) && l.i in s.nodes && l.i in c.seedLists
    requires LocalEnabled(c, l.i, s.nodes[l.i], l) && LocalStep(c, l.i, s.nodes[l.i], l) == Step(n', Silent)
    requires ViewOf(s, l) && (l.Boot? || l.StartRead? || l.EnterNoKey? || l.StartSeed?)
    requires l.StartSeed? ==> forall x :: x in seeds ==> x in l.members
    ensures ReliableRun(c, seeds, ls + [l], early)
    ensures var s' := State(s.nodes[l.i := n'], s.net, s.sent, s.known + WonKeys(n'),
            if IsReady(n') then s.ready + {l.i} else s.ready);
            Exec(c, ls + [l]) == Some(s')
  {
    QuietEnabled(c, seeds, s, l, n');
    ReliableExtend(c, seeds, ls, l, early);
    ApplyShape(c, s, l, Apply(c, s, l), n', {});
    NetAfter(c, s, l);
    assert s.net + multiset({}) == s.net;
    assert s.sent + {} == s.sent;
  }

  function Waker(others: seq<Name>): Proc {
    SetStatus(FreshProc(others), NoKey).(pc := NoKeyLoop)
  }

  ghost predicate Asleep(n: Node) {
    n.proc.None? && n.disk.None? && n.won.None?
  }

  /** A step on a node that leaves it neither completed nor READY changes that node only. */
  lemma MoveNode(c: Config, seeds: set<Name>, early: bool, ls: seq<Label>, s: State, l: Label, n': Node)
    returns (ls': seq<Label>, s': State)
    requires ReliableRun(c, seeds, ls, early) && Exec(c, ls) == Some(s) && l.i in s.nodes && l.i in c.seedLists
    requires LocalEnabled(c, l.i, s.nodes[l.i], l) && LocalStep(c, l.i, s.nodes[l.i], l) == Step(n', Silent)
    requires ViewOf(s, l) && (l.Boot? || l.StartRead? || l.EnterNoKey? || l.StartSeed?)
    requires l.StartSeed? ==> forall x :: x in seeds ==> x in l.members
    requires n'.won.None? && !IsReady(n')
    ensures ReliableRun(c, seeds, ls', early) && Exec(c, ls') == Some(s') && s' == s.(nodes := s.nodes[l.i := n'])
  {
    QuietStep(c, seeds, early, ls, s, l, n');
    ls' := ls + [l];
    s' := s.(nodes := s.nodes[l.i := n']);
    assert s.known + WonKeys(n') == s.known;
  }

  lemma WakeBoot(c: Config, seeds: set<Name>, early: bool, ls: seq<Label>, s: State, i: Name)
    returns (ls': seq<Label>, s': State)
    requires ReliableRun(c, seeds, ls, early) && Exec(c, ls) == Some(s) && i in s.nodes && i in c.seedLists
    requires Asleep(s.nodes[i])
    ensures ReliableRun(c, seeds, ls', early) && Exec(c, ls') == Some(s')
    ensures s' ==
              s.(nodes := s.nodes[i := s.nodes[i].(inc := s.nodes[i].inc + 1, proc := Some(FreshProc(Others(c, i))))])
  {
    var n := s.nodes[i];
    assert LocalStep(c, i, n, Boot(i)) == Step(n.(inc := n.inc + 1, proc := Some(FreshProc(Others(c, i)))), Silent);
    ls', s' := MoveNode(c, seeds, early, ls, s, Boot(i), n.(inc := n.inc + 1, proc := Some(FreshProc(Others(c, i)))));
  }

  lemma WakeRead(c: Config, seeds: set<Name>, early: bool, ls: seq<Label>, s: State, i: Name)
    returns (ls': seq<Label>, s': State)
    requires ReliableRun(c, seeds, ls, early) && Exec(c, ls) == Some(s) && i in s.nodes && i in c.seedLists
    requires s.nodes[i].proc == Some(FreshProc(Others(c, i))) && s.nodes[i].disk.None? && s.nodes[i].won.None?
    ensures ReliableRun(c, seeds, ls', early) && Exec(c, ls') == Some(s')
    ensures s' == s.(nodes := s.nodes[i := s.nodes[i].(proc := Some(FreshProc(Others(c, i)).(pc := NoKeyBegin)))])
  {
    var n := s.nodes[i];
    assert LocalStep(c, i, n, StartRead(i)) ==
        Step(n.(proc := Some(FreshProc(Others(c, i)).(pc := NoKeyBegin))), Silent);
    ls', s' := MoveNode(c, seeds, early, ls, s, StartRead(i),
                        n.(proc := Some(FreshProc(Others(c, i)).(pc := NoKeyBegin))));
  }

  lemma WakeNoKey(c: Config, seeds: set<Name>, early: bool, ls: seq<Label>, s: State, i: Name)
    returns (ls': seq<Label>, s': State)
    requires ReliableRun(c, seeds, ls, early) && Exec(c, ls) == Some(s) && i in s.nodes && i in c.seedLists
    requires s.nodes[i].proc == Some(FreshProc(Others(c, i)).(pc := NoKeyBegin)) && s.nodes[i].won.None?
    ensures ReliableRun(c, seeds, ls', early) && Exec(c, ls') == Some(s')
    ensures s' == s.(nodes := s.nodes[i := s.nodes[i].(proc := Some(Waker(Others(c, i))))])
  {
    var n := s.nodes[i];
    assert LocalStep(c, i, n, EnterNoKey(i)) == Step(n.(proc := Some(Waker(Others(c, i)))), Silent);
    ls', s' := MoveNode(c, seeds, early, ls, s, EnterNoKey(i), n.(proc := Some(Waker(Others(c, i)))));
  }

  /** A node without a file starts and waits in NO_KEY. */
  lemma WakeUp(c: Config, seeds: set<Name>, early: bool, ls: seq<Label>, s: State, i: Name)
    returns (ls': seq<Label>, s': State)
    requires ReliableRun(c, seeds, ls, early) && Exec(c, ls) == Some(s) && i in s.nodes && i in c.seedLists
    requires Asleep(s.nodes[i])
    ensures ReliableRun(c, seeds, ls', early) && Exec(c, ls') == Some(s')
    ensures s'.nodes.Keys == s.nodes.Keys && (forall j :: j in s.nodes && j != i ==> s'.nodes[j] == s.nodes[j])
    ensures s'.nodes[i] == s.nodes[i].(inc := s.nodes[i].inc + 1, proc := Some(Waker(Others(c, i))))
    ensures s'.net == s.net && s'.ready == s.ready
  {
    var ls1, s1 := WakeBoot(c, seeds, early, ls, s, i);
    assert s1.nodes[i] == s.nodes[i].(inc := s.nodes[i].inc + 1, proc := Some(FreshProc(Others(c, i))));
    var ls2, s2 := WakeRead(c, seeds, early, ls1, s1, i);
    assert s2.nodes[i] == s1.nodes[i].(proc := Some(FreshProc(Others(c, i)).(pc := NoKeyBegin)));
    ls', s' := WakeNoKey(c, seeds, early, ls2, s2, i);
    assert s'.nodes[i] == s2.nodes[i].(proc := Some(Waker(Others(c, i))));
  }

  /** The gossip view and the member list in which exactly the given names appear, none of them READY. */
  function Unready(names: seq<Name>): seq<Peer> {
    seq(|names|, k requires 0 <= k < |names| => Peer(names[k], false))
  }

  ghost function Begin(c: Config, seeds: set<Name>, i: Name, key: Bytes): Label
    requires seeds != {}
  {
    StartSeed(i, Unready(SortedOf(seeds)), SortedOf(seeds), key, i == Least(seeds))
  }

  lemma ViewLists(names: seq<Name>, x: Name)
    requires x in names
    ensures Listed(Unready(names), x) && !CanProvide(Unready(names))
  {
    var k :| 0 <= k < |names| && names[k] == x;
    assert Unready(names)[k].name == x;
  }

  lemma BeginEnabled(c: Config, seeds: set<Name>, i: Name, n: Node, key: Bytes)
    requires FreshCluster(c, seeds) && i in c.names && i in seeds && |key| == KEY_SIZE
    requires n.proc == Some(Waker(Others(c, i)))
    ensures LocalEnabled(c, i, n, Begin(c, seeds, i, key))
  {
    ElectsLeast(c, seeds, i);
    IncreasingNoDup(SortedOf(seeds));
    var l := Begin(c, seeds, i, key);
    forall x | x in c.seedLists[i] ensures Listed(l.view, x) {
      assert x in ToSet(SortedOf(seeds));
      ViewLists(SortedOf(seeds), x);
    }
    assert !CanProvide(l.view);
  }

  lemma BeginIsSeeding(c: Config, seeds: set<Name>, i: Name, n: Node, key: Bytes)
    requires i in c.seedLists && seeds != {} && n.proc.Some? && LocalEnabled(c, i, n, Begin(c, seeds, i, key))
    ensures LocalStep(c, i, n, Begin(c, seeds, i, key)) ==
              BeginSeeding(n, n.proc.value, i, SortedOf(seeds), key, i == Least(seeds))
  {
  }

  lemma SeedingBegun(n: Node, p: Proc, i: Name, members: seq<Name>, key: Bytes, master: bool)
    ensures var st := BeginSeeding(n, p, i, members, key, master);
            && st.Step? && st.out == Silent && Begun(st.node) && !IsReady(st.node) && st.node.won == n.won
            && st.node.inc == n.inc
            && (master ==> n.inc in st.node.fixed && st.node.fixed[n.inc] == key)
  {
  }

  lemma BeginLocal(c: Config, seeds: set<Name>, i: Name, n: Node, key: Bytes)
    requires i in c.seedLists && seeds != {} && n.proc == Some(Waker(Others(c, i)))
    requires LocalEnabled(c, i, n, Begin(c, seeds, i, key))
    ensures var st := BeginSeeding(n, Waker(Others(c, i)), i, SortedOf(seeds), key, i == Least(seeds));
            && LocalStep(c, i, n, Begin(c, seeds, i, key)) == st && st.Step? && st.out == Silent
            && Begun(st.node) && !IsReady(st.node) && st.node.won == n.won && st.node.inc == n.inc
            && (i == Least(seeds) ==> n.inc in st.node.fixed && st.node.fixed[n.inc] == key)
  {
    BeginIsSeeding(c, seeds, i, n, key);
    SeedingBegun(n, n.proc.value, i, SortedOf(seeds), key, i == Least(seeds));
  }

  lemma BeginNode(c: Config, seeds: set<Name>, i: Name, n: Node, key: Bytes, l: Label) returns (n': Node)
    requires FreshCluster(c, seeds) && i in c.names && i in seeds && |key| == KEY_SIZE
    requires n.proc == Some(Waker(Others(c, i)))
    requires l == Begin(c, seeds, i, key)
    ensures LocalEnabled(c, i, n, l) && LocalStep(c, i, n, l) == Step(n', Silent)
    ensures Begun(n') && !IsReady(n') && n'.won == n.won && n'.inc == n.inc
    ensures i == Least(seeds) ==> n.inc in n'.fixed && n'.fixed[n.inc] == key
    ensures forall x :: x in seeds ==> x in l.members
  {
    BeginEnabled(c, seeds, i, n, key);
    BeginLocal(c, seeds, i, n, key);
    n' := BeginSeeding(n, Waker(Others(c, i)), i, SortedOf(seeds), key, i == Least(seeds)).node;
    forall x | x in seeds ensures x in l.members { assert x in ToSet(SortedOf(seeds)); }
  }

  lemma BeginSound(c: Config, seeds: set<Name>, s: State, i: Name, key: Bytes)
    requires seeds != {}
    ensures ViewOf(s, Begin(c, seeds, i, key))
  {
  }

  lemma BeginsSeeding(c: Config, seeds: set<Name>, early: bool, ls: seq<Label>, s: State, i: Name, l: Label, n': Node)
    returns (ls': seq<Label>, s': State)
    requires ReliableRun(c, seeds, ls, early) && Exec(c, ls) == Some(s) && i in s.nodes && i in c.seedLists
    requires l.StartSeed? && l.i == i && ViewOf(s, l) && LocalEnabled(c, i, s.nodes[i], l)
    requires LocalStep(c, i, s.nodes[i], l) == Step(n', Silent)
    requires n'.won.None? && !IsReady(n') && forall x :: x in seeds ==> x in l.members
    ensures ReliableRun(c, seeds, ls', early) && Exec(c, ls') == Some(s')
    ensures s'.nodes == s.nodes[i := n']
  {
    ls', s' := MoveNode(c, seeds, early, ls, s, l, n');
  }

  /** Bringing up the seeds of a list one after the other. */
  ghost predicate BroughtUp(c: Config, seeds: set<Name>, s: State, done: set<Name>, key: Bytes)
    requires seeds != {}
  {
    && s.nodes.Keys == c.names
    && (forall i :: i in s.nodes && i !in done ==>
       Asleep(s.nodes[i]) && s.nodes[i].inc == 0 && s.nodes[i].fixed == map[])
    && (forall i :: i in s.nodes && i in done ==> Begun(s.nodes[i]))
    && (Least(seeds) in done && Least(seeds) in s.nodes ==>
       1 in s.nodes[Least(seeds)].fixed && s.nodes[Least(seeds)].fixed[1] == key)
  }

  lemma BringUpOne(c: Config, seeds: set<Name>, early: bool, ls: seq<Label>, s: State, done: set<Name>, i: Name,
                   key: Bytes)
    returns (ls': seq<Label>, s': State)
    requires FreshCluster(c, seeds) && ReliableRun(c, seeds, ls, early) && Exec(c, ls) == Some(s)
    requires BroughtUp(c, seeds, s, done, key)
    requires i in seeds && i in c.names && i !in done && |key| == KEY_SIZE
    ensures ReliableRun(c, seeds, ls', early) && Exec(c, ls') == Some(s') && BroughtUp(c, seeds, s', done + {i}, key)
  {
    assert s.nodes[i].inc == 0;
    var ls1, s1 := WakeUp(c, seeds, early, ls, s, i);
    assert s1.nodes[i].inc == 1;
    var n';
    ls', s', n' := BeginOne(c, seeds, early, ls1, s1, i, key);
    NextUp(c, seeds, s, s1, s', done, i, n', key);
  }

  /** A waiting seed begins to seed. */
  lemma BeginOne(c: Config, seeds: set<Name>, early: bool, ls: seq<Label>, s: State, i: Name, key: Bytes)
    returns (ls': seq<Label>, s': State, n': Node)
    requires FreshCluster(c, seeds) && ReliableRun(c, seeds, ls, early) && Exec(c, ls) == Some(s)
    requires i in s.nodes && i in c.names && i in seeds && |key| == KEY_SIZE
    requires s.nodes[i].proc == Some(Waker(Others(c, i))) && s.nodes[i].won.None?
    ensures ReliableRun(c, seeds, ls', early) && Exec(c, ls') == Some(s') && s'.nodes == s.nodes[i := n']
    ensures Begun(n') && (i == Least(seeds) ==> s.nodes[i].inc in n'.fixed && n'.fixed[s.nodes[i].inc] == key)
  {
    var l := Begin(c, seeds, i, key);
    n' := BeginNode(c, seeds, i, s.nodes[i], key, l);
    BeginSound(c, seeds, s, i, key);
    ls', s' := BeginsSeeding(c, seeds, early, ls, s, i, l, n');
  }

  lemma NextUp(c: Config, seeds: set<Name>, s: State, s1: State, s': State, done: set<Name>, i: Name, n': Node,
               key: Bytes)
    requires seeds != {} && BroughtUp(c, seeds, s, done, key) && i in s.nodes && i !in done
    requires s1.nodes.Keys == s.nodes.Keys && (forall j :: j in s.nodes && j != i ==> s1.nodes[j] == s.nodes[j])
    requires s'.nodes == s1.nodes[i := n'] && Begun(n') && (i == Least(seeds) ==> 1 in n'.fixed && n'.fixed[1] == key)
    ensures BroughtUp(c, seeds, s', done + {i}, key)
  {
  }

  lemma {:induction false} BringUpAll(c: Config, seeds: set<Name>, early: bool, ls: seq<Label>, s: State,
                                      done: set<Name>, key: Bytes)
    returns (ls': seq<Label>, s': State)
    requires FreshCluster(c, seeds) && ReliableRun(c, seeds, ls, early) && Exec(c, ls) == Some(s)
    requires BroughtUp(c, seeds, s, done, key)
    requires done <= seeds <= c.names && |key| == KEY_SIZE
    ensures ReliableRun(c, seeds, ls', early) && Exec(c, ls') == Some(s') && BroughtUp(c, seeds, s', seeds, key)
    decreases seeds - done
  {
    if done == seeds {
      ls', s' := ls, s;
    } else {
      var i :| i in seeds && i !in done;
      ls', s' := BringUpOne(c, seeds, early, ls, s, done, i, key);
      ls', s' := BringUpAll(c, seeds, early, ls', s', done + {i}, key);
    }
  }

  // ---------------------------------------------------------- what runs keep

  lemma NodesAreNames(c: Config, ls: seq<Label>)
    requires ValidConfig(c) && Exec(c, ls).Some?
    ensures Exec(c, ls).value.nodes.Keys == c.names
  {
    RunInv(c, ls);
  }

  lemma StepGrows(c: Config, s: State, l: Label, i: Name)
    requires ValidConfig(c) && Inv(c, s) && Enabled(c, s, l) && i in s.nodes
    ensures i in Apply(c, s, l).nodes && Grows(s.nodes[i], Apply(c, s, l).nodes[i])
  {
    StepMoves(c, s, l);
  }

  lemma LastGrows(c: Config, ls: seq<Label>, i: Name)
    requires ValidConfig(c) && ls != [] && Exec(c, ls).Some? && i in c.names
    ensures var front := ls[..|ls| - 1];
            && Exec(c, front).Some? && i in Exec(c, front).value.nodes && i in Exec(c, ls).value.nodes
            && Grows(Exec(c, front).value.nodes[i], Exec(c, ls).value.nodes[i])
  {
    var front := ls[..|ls| - 1];
    RunInv(c, front);
    StepGrows(c, Exec(c, front).value, ls[|ls| - 1], i);
  }

  lemma {:induction false} FixedStays(c: Config, ls: seq<Label>, ls': seq<Label>, i: Name)
    requires ValidConfig(c) && ls <= ls' && Exec(c, ls').Some? && Exec(c, ls).Some? && i in c.names
    ensures i in Exec(c, ls).value.nodes && i in Exec(c, ls').value.nodes
    ensures Grows(Exec(c, ls).value.nodes[i], Exec(c, ls').value.nodes[i])
    decreases |ls'|
  {
    if |ls| == |ls'| {
      assert ls == ls';
      NodesAreNames(c, ls);
    } else {
      var front := ls'[..|ls'| - 1];
      assert ls <= front;
      LastGrows(c, ls', i);
      FixedStays(c, ls, front, i);
      GrowsOn(c, Exec(c, ls).value.nodes[i], Exec(c, front).value.nodes[i], Exec(c, ls').value.nodes[i]);
    }
  }

  lemma GrowsOn(c: Config, a: Node, b: Node, d: Node)
    requires Grows(a, b) && Grows(b, d)
    ensures Grows(a, d)
  {
  }

  /** For every key, a fresh cluster has a run in which all seeds are READY with that key on disk. */
  lemma FreshClusterCompletes(c: Config, seeds: set<Name>, key: Bytes) returns (ls: seq<Label>)
    requires SeedCluster(c, seeds) && seeds <= c.names && |key| == KEY_SIZE
    ensures CalmRun(c, seeds, ls) && Exec(c, ls).Some?
    ensures forall i :: i in seeds ==>
              && i in Exec(c, ls).value.nodes && IsReady(Exec(c, ls).value.nodes[i])
              && Exec(c, ls).value.nodes[i].disk == Some(FileFor(i, key))
  {
    var ls0, s0 := BringUpAll(c, seeds, false, [], Init(c), {}, key);
    ls := SeedingCompletes(c, seeds, ls0);
    FixedStays(c, ls0, ls, Least(seeds));
  }

  // ---------------------------------------------- the seeds as a cluster of their own

  /** The seeds alone, started from empty files. */
  ghost function SeedsOnly(c: Config, seeds: set<Name>): Config {
    Config(c.suite, seeds, map i | i in seeds :: seeds, map[], true)
  }

  lemma LocalSame(c: Config, c1: Config, i: Name, n: Node, l: Label)
    requires i in c.seedLists && i in c1.seedLists && c1.seedLists[i] == c.seedLists[i] && c1.suite == c.suite
    requires c1.election
    requires LocalEnabled(c1, i, n, l)
    ensures LocalEnabled(c, i, n, l) && LocalStep(c, i, n, l) == LocalStep(c1, i, n, l)
  {
    if l.Handle? { DispatchSame(c, c1, i, n, n.proc.value, n.proc.value.loop.msg, n.proc.value.loop.seen, l.random); }
  }

  lemma DispatchSame(c: Config, c1: Config, i: Name, n: Node, p: Proc, m: Msg, seen: Status, random: Bytes)
    requires c1.suite == c.suite
    ensures Dispatch(c, i, n, p, m, seen, random) == Dispatch(c1, i, n, p, m, seen, random)
  {
  }

  ghost predicate Embedded(c: Config, seeds: set<Name>, s1: State, s: State) {
    && s1.nodes.Keys == seeds && s.nodes.Keys == c.names
    && (forall i :: i in seeds ==> i in s.nodes && s.nodes[i] == s1.nodes[i])
    && (forall i :: i in s.nodes && i !in seeds ==> s.nodes[i] == Init(c).nodes[i])
    && s.net == s1.net && s.sent == s1.sent && s.ready == s1.ready
  }

  ghost predicate ClusterOf(c: Config, seeds: set<Name>) {
    ValidConfig(c) && CommonSeeds(c, seeds) && seeds <= c.names && |seeds| >= 2
  }

  lemma EmbeddedPosts(s1: State, s: State, i: Name, st: Step)
    requires i in s1.nodes && i in s.nodes && s.nodes[i] == s1.nodes[i]
    requires st.Step? && st.out.Send? ==> st.out.dst in s1.nodes && st.out.dst in s.nodes
    requires st.Step? && st.out.Send? ==> s.nodes[st.out.dst] == s1.nodes[st.out.dst]
    ensures Posted(s, i, st) == Posted(s1, i, st)
  {
  }

  lemma EmbeddedEnabled(c: Config, seeds: set<Name>, s1: State, s: State, l: Label)
    requires ClusterOf(c, seeds) && Embedded(c, seeds, s1, s) && Enabled(SeedsOnly(c, seeds), s1, l)
    ensures Enabled(c, s, l)
    ensures LocalStep(c, l.i, s.nodes[l.i], l) == LocalStep(SeedsOnly(c, seeds), l.i, s1.nodes[l.i], l)
    ensures StepPosts(c, s, l) == StepPosts(SeedsOnly(c, seeds), s1, l)
  {
    LocalSame(c, SeedsOnly(c, seeds), l.i, s1.nodes[l.i], l);
    EmbeddedPosts(s1, s, l.i, LocalStep(c, l.i, s.nodes[l.i], l));
  }

  lemma EmbeddedStep(c: Config, seeds: set<Name>, s1: State, s: State, l: Label)
    requires ClusterOf(c, seeds) && Embedded(c, seeds, s1, s) && Enabled(SeedsOnly(c, seeds), s1, l)
    ensures Enabled(c, s, l) && Embedded(c, seeds, Apply(SeedsOnly(c, seeds), s1, l), Apply(c, s, l))
  {
    EmbeddedEnabled(c, seeds, s1, s, l);
    var c1 := SeedsOnly(c, seeds);
    var n' := NextNode(c, l.i, s.nodes[l.i], l);
    ApplyShape(c, s, l, Apply(c, s, l), n', StepPosts(c, s, l));
    ApplyShape(c1, s1, l, Apply(c1, s1, l), n', StepPosts(c1, s1, l));
    NetAfter(c, s, l);
    NetAfter(c1, s1, l);
    EmbeddedCarry(c, seeds, s1, s, Apply(c1, s1, l), Apply(c, s, l), l.i, n');
  }

  lemma EmbeddedCarry(c: Config, seeds: set<Name>, s1: State, s: State, t1: State, t: State, i: Name, n': Node)
    requires Embedded(c, seeds, s1, s) && i in seeds && t1.nodes == s1.nodes[i := n'] && t.nodes == s.nodes[i := n']
    requires t.net == t1.net && t.sent == t1.sent && t.ready == t1.ready
    ensures Embedded(c, seeds, t1, t)
  {
  }

  /** Whatever the seeds can do alone they can do in the whole cluster, while everybody else sleeps. */
  lemma {:induction false} EmbeddedRun(c: Config, seeds: set<Name>, ls: seq<Label>)
    requires ClusterOf(c, seeds) && Exec(SeedsOnly(c, seeds), ls).Some?
    requires forall i :: i in seeds ==> i !in c.preset
    ensures Exec(c, ls).Some? && Embedded(c, seeds, Exec(SeedsOnly(c, seeds), ls).value, Exec(c, ls).value)
  {
    if ls != [] {
      var front, last := ls[..|ls| - 1], ls[|ls| - 1];
      EmbeddedRun(c, seeds, front);
      EmbeddedStep(c, seeds, Exec(SeedsOnly(c, seeds), front).value, Exec(c, front).value, last);
    }
  }

  // ------------------------------------------------- agreement, if and only if

  ghost predicate AgreesAt(c: Config, ls: seq<Label>, i: Name, j: Name) {
    Exec(c, ls).Some? && i in Exec(c, ls).value.nodes && j in Exec(c, ls).value.nodes ==>
      var a, b := Exec(c, ls).value.nodes[i].disk, Exec(c, ls).value.nodes[j].disk;
      a.Some? && b.Some? ==> SecretKey(a.value) == SecretKey(b.value)
  }

  ghost predicate AlwaysAgrees(c: Config) {
    forall ls, i, j :: AgreesAt(c, ls, i, j)
  }

  lemma DifferentFiles(c: Config, i: Name, j: Name)
    requires ValidConfig(c) && i in c.preset && j in c.preset && c.preset[i] != c.preset[j]
    ensures !AgreesAt(c, [], i, j)
  {
    Hex.RoundTrip(c.preset[i]);
    Hex.RoundTrip(c.preset[j]);
  }

  lemma AnotherKey(k: Bytes) returns (k': Bytes)
    ensures |k'| == KEY_SIZE && k' != k
  {
    k' := seq(KEY_SIZE, _ => 0);
    if k' == k {
      k' := seq(KEY_SIZE, _ => 1);
      assert k'[0] != k[0];
    }
  }

  /** A key brought by a non-seed alone is not the key the seeds agree on. */
  lemma KeyOutsideSeedsDiffers(c: Config, seeds: set<Name>, j: Name) returns (ls: seq<Label>)
    requires ClusterOf(c, seeds) && j in c.preset && (forall i :: i in seeds ==> i !in c.preset)
    ensures !AgreesAt(c, ls, Least(seeds), j)
  {
    var k := AnotherKey(c.preset[j]);
    var c1 := SeedsOnly(c, seeds);
    assert SeedCluster(c1, seeds);
    ls := FreshClusterCompletes(c1, seeds, k);
    EmbeddedRun(c, seeds, ls);
    Hex.RoundTrip(k);
    Hex.RoundTrip(c.preset[j]);
    assert Exec(c, ls).value.nodes[j] == Init(c).nodes[j];
  }

  lemma UnsafeFilesBreakAgreement(c: Config, seeds: set<Name>)
    requires ClusterOf(c, seeds) && !SafePreset(c, seeds)
    ensures !AlwaysAgrees(c)
  {
    if i, j :| i in c.preset && j in c.preset && c.preset[i] != c.preset[j] {
      DifferentFiles(c, i, j);
    } else {
      var j :| j in c.preset;
      var ls := KeyOutsideSeedsDiffers(c, seeds, j);
    }
  }

  /** All runs keep all keys equal exactly when the cluster starts from safe files. */
  lemma AgreementIffSafeFiles(c: Config, seeds: set<Name>)
    requires ClusterOf(c, seeds)
    ensures AlwaysAgrees(c) <==> SafePreset(c, seeds)
  {
    if SafePreset(c, seeds) {
      forall ls, i, j ensures AgreesAt(c, ls, i, j) {
        if Exec(c, ls).Some? && i in Exec(c, ls).value.nodes && j in Exec(c, ls).value.nodes {
          RunInv(c, ls);
          ClusterAgreement(c, seeds, ls, i, j);
        }
      }
    } else {
      UnsafeFilesBreakAgreement(c, seeds);
    }
  }
}
