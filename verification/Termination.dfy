/**
 * Seeding comes to an end. Once every seed has begun, each seeding step uses up some of a finite
 * amount of work, no other step adds to it, and as long as work is left some seeding step can be
 * taken that loses nothing. So every calm run extends to one in which all seeds are READY.
 */
module Termination {
  import opened Basics
  import opened Vault
  import opened Names
  import opened Protocol
  import opened Invariant
  import opened Preserve
  import opened Agreement
  import opened CrashFree
  import opened Completion
  import opened Traffic
  import Seed

  // ---------------------------------------------------------- work of a node

  /** What a forwarding task, a message and a possible send are worth. */
  function TaskWork(seeds: set<Name>): nat { |seeds| + 3 }
  function MsgWork(seeds: set<Name>): nat { TaskWork(seeds) + 3 }
  function SendWork(seeds: set<Name>): nat { MsgWork(seeds) + 1 }

  function LoopWork(seeds: set<Name>, loop: LoopPc): nat {
    match loop
    case Idle => 0
    case Got(m, _) => if m.body.KeyInit? then MsgWork(seeds) - 1 else 0
    case Complete(_) => 1
  }

  function LockWork(lock: Forwarding): nat {
    if lock.Forwarding? then |lock.rest| + 2 else 0
  }

  function InitialWork(p: Proc): nat {
    match p.initial
    case NoInitial => 0
    case Spawned(_) => |p.seed.members| + 1
    case Sending(_, rest) => |rest|
  }

  function Times(a: nat, w: nat): nat {
    if a == 0 then 0 else w + Times(a - 1, w)
  }

  function ProcWork(seeds: set<Name>, p: Proc): nat {
    LoopWork(seeds, p.loop) + Times(|p.forwards|, TaskWork(seeds)) + LockWork(p.lock) + p.cleanups + InitialWork(p)
  }

  function NodeWork(seeds: set<Name>, n: Node): nat {
    if n.proc.Some? then ProcWork(seeds, n.proc.value) else 0
  }

  /** The step belongs to the seeding. */
  predicate SeedingStep(n: Node, l: Label) {
    || l.InitialStart? || l.InitialPeer? || l.ForwardStart? || l.ForwardPeer? || l.ForwardStop? || l.RunCleanup?
       || l.Finish?
    || (l.Take? && l.msg.body.KeyInit?)
    || (l.Handle? && n.proc.Some? && n.proc.value.loop.Got? && n.proc.value.loop.msg.body.KeyInit?)
  }

  predicate TakesKey(l: Label) {
    l.Take? && l.msg.body.KeyInit?
  }

  ghost predicate WorkFalls(c: Config, seeds: set<Name>, i: Name, n: Node, l: Label)
    requires i in c.seedLists && LocalEnabled(c, i, n, l)
  {
    NodeWork(seeds, NextNode(c, i, n, l)) + Unit(SeedingStep(n, l))
      <= NodeWork(seeds, n) + (if TakesKey(l) then MsgWork(seeds) else 0)
  }

  lemma OneTask(f: multiset<Bytes>, k: Bytes, w: nat)
    ensures Times(|f + multiset{k}|, w) == Times(|f|, w) + w
    ensures k in f ==> Times(|f - multiset{k}|, w) + w == Times(|f|, w)
  {
    assert |f + multiset{k}| == |f| + 1;
    if k in f { assert |f - multiset{k}| == |f| - 1; }
  }

  lemma WorkForwardStart(c: Config, seeds: set<Name>, sent: set<Msg>, i: Name, n: Node, k: Bytes)
    requires FreshCluster(c, seeds) && i in c.names && i in seeds && n.proc.Some? && Active(c, sent, i, n, n.proc.value)
    requires n.proc.value.lock == Unlocked && k in n.proc.value.forwards
    ensures var p := n.proc.value;
            ProcWork(seeds, p.(forwards := p.forwards - multiset{k}, lock := Forwarding(k, p.seed.others))) + 1 <=
                ProcWork(seeds, p)
  {
    var p := n.proc.value;
    OneTask(p.forwards, k, TaskWork(seeds));
    OthersCount(c, seeds, i);
    assert |p.seed.others| < |seeds|;
  }

  lemma WorkCleanup(seeds: set<Name>, p: Proc)
    requires p.cleanups > 0
    ensures ProcWork(seeds, p.(seed := Seed.Cleanup(p.seed), cleanups := p.cleanups - 1)) + 1 <= ProcWork(seeds, p)
  {
    assert Seed.Cleanup(p.seed) == p.seed || Seed.Cleanup(p.seed) == Seed.Wiped();
  }

  lemma WorkForwardPeer(seeds: set<Name>, n: Node, p: Proc, ok: bool)
    requires p.lock.Forwarding? && p.lock.rest != []
    ensures var st := ForwardNext(n, p, ok);
            st.Step? && st.node.proc.Some? && ProcWork(seeds, st.node.proc.value) + 1 <= ProcWork(seeds, p)
  {
  }

  lemma WorkInitialPeer(seeds: set<Name>, n: Node, p: Proc, ok: bool)
    requires p.initial.Sending? && p.initial.rest != []
    ensures var st := SendInitial(n, p, ok);
            st.Step? && st.node.proc.Some? && ProcWork(seeds, st.node.proc.value) + 1 <= ProcWork(seeds, p)
  {
  }

  lemma WorkForwardStop(seeds: set<Name>, p: Proc)
    requires p.lock.Forwarding? && p.lock.rest == []
    ensures ProcWork(seeds, p.(lock := Unlocked, cleanups := p.cleanups + 1)) + 1 <= ProcWork(seeds, p)
  {
  }

  lemma WorkStepStart(c: Config, seeds: set<Name>, sent: set<Msg>, i: Name, n: Node, l: Label)
    requires FreshCluster(c, seeds) && i in c.names && i in seeds && n.proc.Some? && Active(c, sent, i, n, n.proc.value)
    requires LocalEnabled(c, i, n, l) && l.ForwardStart?
    ensures WorkFalls(c, seeds, i, n, l) && Begun(NextNode(c, i, n, l))
  {
    var p := n.proc.value;
    ForwardStartShape(c, i, n, l);
    WorkForwardStart(c, seeds, sent, i, n, l.key);
    FallsTo(c, seeds, i, n, l, p.(forwards := p.forwards - multiset{l.key}, lock := Forwarding(l.key, p.seed.others)));
  }

  lemma WorkStepStop(c: Config, seeds: set<Name>, i: Name, n: Node, l: Label)
    requires i in c.seedLists && Begun(n) && LocalEnabled(c, i, n, l) && l.ForwardStop?
    ensures WorkFalls(c, seeds, i, n, l) && Begun(NextNode(c, i, n, l))
  {
    var p := n.proc.value;
    ForwardStopShape(c, i, n, l);
    WorkForwardStop(seeds, p);
    FallsTo(c, seeds, i, n, l, p.(lock := Unlocked, cleanups := p.cleanups + 1));
  }

  lemma FallsTo(c: Config, seeds: set<Name>, i: Name, n: Node, l: Label, q: Proc)
    requires i in c.seedLists && Begun(n) && LocalEnabled(c, i, n, l) && NextNode(c, i, n, l) == n.(proc := Some(q))
    requires q.status == n.proc.value.status && ProcWork(seeds, q) + 1 <= ProcWork(seeds, n.proc.value)
    ensures WorkFalls(c, seeds, i, n, l) && Begun(NextNode(c, i, n, l))
  {
  }

  lemma WorkStepPeer(c: Config, seeds: set<Name>, i: Name, n: Node, l: Label)
    requires i in c.seedLists && Begun(n) && LocalEnabled(c, i, n, l) && (l.ForwardPeer? || l.InitialPeer?)
    ensures WorkFalls(c, seeds, i, n, l) && Begun(NextNode(c, i, n, l))
  {
    if l.ForwardPeer? {
      WorkForwardPeer(seeds, n, n.proc.value, l.ok);
    } else {
      WorkInitialPeer(seeds, n, n.proc.value, l.ok);
    }
  }

  lemma WorkStepLocal(c: Config, seeds: set<Name>, i: Name, n: Node, l: Label)
    requires i in c.seedLists && Begun(n) && LocalEnabled(c, i, n, l) && (l.InitialStart? || l.RunCleanup? || l.Finish?)
    ensures WorkFalls(c, seeds, i, n, l) && Begun(NextNode(c, i, n, l))
  {
    if l.RunCleanup? { WorkCleanup(seeds, n.proc.value); }
  }

  lemma WorkSeedKey(seeds: set<Name>, n: Node, p: Proc, m: Msg)
    requires p.loop.Got? && p.loop.msg == m && m.body.KeyInit? && HandleSeedKey(n, p, m.body.key, m.src).Step?
    ensures var n' := HandleSeedKey(n, p, m.body.key, m.src).node;
            n'.proc.Some? && ProcWork(seeds, n'.proc.value) + 1 <= ProcWork(seeds, p)
  {
    OneTask(p.forwards, m.body.key, TaskWork(seeds));
    MarkedAccepted(p.seed, m.body.key, m.src);
  }

  /** Handling anything else than a key while SEEDING only frees the loop. */
  lemma FreesLoop(c: Config, i: Name, n: Node, p: Proc, m: Msg, seen: Status, random: Bytes)
    requires n.proc == Some(p) && p.loop == Got(m, seen) && !(seen == Seeding && m.body.KeyInit?)
    requires Dispatch(c, i, n, p, m, seen, random).Step?
    ensures var n' := Dispatch(c, i, n, p, m, seen, random).node;
            && n'.proc.Some?
            && var q := n'.proc.value;
               && q.loop == Idle && q.lock == p.lock && q.forwards == p.forwards && q.cleanups == p.cleanups
               && q.initial == p.initial && q.seed == p.seed
  {
  }

  lemma LessWork(seeds: set<Name>, p: Proc, q: Proc)
    requires p.loop.Got? && q.loop == Idle && q.lock == p.lock && q.forwards == p.forwards && q.cleanups == p.cleanups
    requires q.initial == p.initial && q.seed == p.seed
    ensures ProcWork(seeds, q) + Unit(p.loop.msg.body.KeyInit?) <= ProcWork(seeds, p)
  {
  }

  lemma WorkHandle(c: Config, seeds: set<Name>, i: Name, n: Node, p: Proc, random: Bytes)
    requires n.proc == Some(p) && p.loop.Got?
    requires Dispatch(c, i, n, p, p.loop.msg, p.loop.seen, random).Step?
    ensures var n' := Dispatch(c, i, n, p, p.loop.msg, p.loop.seen, random).node;
            n'.proc.Some? && ProcWork(seeds, n'.proc.value) + Unit(p.loop.msg.body.KeyInit?) <= ProcWork(seeds, p)
  {
    if p.loop.seen == Seeding && p.loop.msg.body.KeyInit? {
      WorkSeedKey(seeds, n, p, p.loop.msg);
    } else {
      FreesLoop(c, i, n, p, p.loop.msg, p.loop.seen, random);
      LessWork(seeds, p, Dispatch(c, i, n, p, p.loop.msg, p.loop.seen, random).node.proc.value);
    }
  }

  lemma WorkStepHandle(c: Config, seeds: set<Name>, i: Name, n: Node, l: Label)
    requires i in c.seedLists && Begun(n) && LocalEnabled(c, i, n, l) && l.Handle? && LocalStep(c, i, n, l).Step?
    ensures WorkFalls(c, seeds, i, n, l) && Begun(NextNode(c, i, n, l))
  {
    var p := n.proc.value;
    WorkHandle(c, seeds, i, n, p, l.random);
    DispatchStatus(c, i, n, p, p.loop.msg, p.loop.seen, l.random);
  }

  lemma WorkStepOutside(c: Config, seeds: set<Name>, sent: set<Msg>, i: Name, n: Node, l: Label)
    requires i in c.seedLists && Begun(n) && StartInv(c, i, n, n.proc.value) && LocalEnabled(c, i, n, l)
    requires !TouchesSeeding(l)
    ensures WorkFalls(c, seeds, i, n, l) && Begun(NextNode(c, i, n, l))
  {
    UntouchedSeeding(c, i, n, l);
    assert !MovesStatus(l);
  }

  /** Whoever takes a seeding step after the start has fixed its key. */
  lemma BusyIsActive(c: Config, sent: set<Msg>, known: set<Bytes>, i: Name, n: Node, l: Label)
    requires i in c.seedLists && NodeInv(c, sent, known, i, n) && Begun(n) && LocalEnabled(c, i, n, l)
    requires TouchesSeeding(l) && !l.Handle? && !l.Crash?
    ensures !l.StartSeed? && !l.Boot? && Active(c, sent, i, n, n.proc.value)
  {
  }

  /** Once begun, a seed's every step pays. */
  lemma WorkStep(c: Config, seeds: set<Name>, sent: set<Msg>, known: set<Bytes>, i: Name, n: Node, l: Label)
    requires FreshCluster(c, seeds) && i in c.names && i in seeds && NodeInv(c, sent, known, i, n) && Begun(n)
    requires LocalEnabled(c, i, n, l) && !l.Crash? && LocalStep(c, i, n, l).Step?
    ensures WorkFalls(c, seeds, i, n, l) && Begun(NextNode(c, i, n, l))
  {
    if l.Handle? {
      WorkStepHandle(c, seeds, i, n, l);
    } else if TouchesSeeding(l) {
      BusyIsActive(c, sent, known, i, n, l);
      if l.ForwardStart? {
        WorkStepStart(c, seeds, sent, i, n, l);
      } else if l.ForwardStop? {
        WorkStepStop(c, seeds, i, n, l);
      } else if l.ForwardPeer? || l.InitialPeer? {
        WorkStepPeer(c, seeds, i, n, l);
      } else {
        WorkStepLocal(c, seeds, i, n, l);
      }
    } else {
      WorkStepOutside(c, seeds, sent, i, n, l);
    }
  }

  // -------------------------------------------------------- messages under way

  predicate KeyTo(seeds: set<Name>, m: Msg) {
    m.body.KeyInit? && m.dst in seeds
  }

  ghost function CountKeys(net: multiset<Msg>, seeds: set<Name>): nat
    decreases |net|
  {
    if net == multiset{} then 0 else
      var m :| m in net;
      Unit(KeyTo(seeds, m)) + CountKeys(net - multiset{m}, seeds)
  }

  lemma {:induction false} CountRemove(net: multiset<Msg>, seeds: set<Name>, x: Msg)
    requires x in net
    ensures CountKeys(net, seeds) == Unit(KeyTo(seeds, x)) + CountKeys(net - multiset{x}, seeds)
    decreases |net|
  {
    var m :| m in net && CountKeys(net, seeds) == Unit(KeyTo(seeds, m)) + CountKeys(net - multiset{m}, seeds);
    if m != x {
      CountRemove(net - multiset{m}, seeds, x);
      CountRemove(net - multiset{x}, seeds, m);
      assert net - multiset{m} - multiset{x} == net - multiset{x} - multiset{m};
    }
  }

  lemma CountAdd(net: multiset<Msg>, seeds: set<Name>, x: Msg)
    ensures CountKeys(net + multiset{x}, seeds) == CountKeys(net, seeds) + Unit(KeyTo(seeds, x))
  {
    CountRemove(net + multiset{x}, seeds, x);
    assert net + multiset{x} - multiset{x} == net;
  }

  lemma {:induction false} CountZero(net: multiset<Msg>, seeds: set<Name>)
    ensures CountKeys(net, seeds) == 0 ==> forall m :: m in net ==> !KeyTo(seeds, m)
  {
    forall m | m in net ensures CountKeys(net, seeds) == 0 ==> !KeyTo(seeds, m) { CountRemove(net, seeds, m); }
  }

  // --------------------------------------------------------- work of the cluster

  ghost function SumWork(seeds: set<Name>, s: State, dom: set<Name>): nat
    decreases |dom|
  {
    if dom == {} then 0 else
      var x := Least(dom);
      (if x in s.nodes then NodeWork(seeds, s.nodes[x]) else 0) + SumWork(seeds, s, dom - {x})
  }

  lemma {:induction false} SumWorkStep(seeds: set<Name>, s: State, s': State, i: Name, dom: set<Name>)
    requires s'.nodes.Keys == s.nodes.Keys && i in s.nodes
    requires forall j :: j in dom && j in s.nodes && j != i ==> s'.nodes[j] == s.nodes[j]
    ensures SumWork(seeds, s', dom) + (if i in dom then NodeWork(seeds, s.nodes[i]) else 0)
         == SumWork(seeds, s, dom) + (if i in dom then NodeWork(seeds, s'.nodes[i]) else 0)
    decreases |dom|
  {
    if dom != {} { SumWorkStep(seeds, s, s', i, dom - {Least(dom)}); }
  }

  ghost function Work(c: Config, seeds: set<Name>, s: State): nat
    requires seeds != {}
  {
    SumWork(seeds, s, seeds) + CountKeys(s.net, seeds) * MsgWork(seeds) + Total(c, seeds, s, seeds) * SendWork(seeds)
  }

  ghost predicate AllBegun(seeds: set<Name>, s: State) {
    forall i :: i in seeds ==> i in s.nodes && Begun(s.nodes[i])
  }

  lemma NetWork(c: Config, seeds: set<Name>, s: State, l: Label, net': multiset<Msg>)
    requires Enabled(c, s, l)
    requires net' == (if l.Take? then s.net - multiset{l.msg} else s.net) + multiset(StepPosts(c, s, l))
    ensures CountKeys(net', seeds) + Unit(l.Take? && KeyTo(seeds, l.msg)) ==
              CountKeys(s.net, seeds) + Unit(StepCosts(c, seeds, s, l))
  {
    var posted := StepPosts(c, s, l);
    if l.Take? {
      assert posted == {};
      CountRemove(s.net, seeds, l.msg);
      assert net' == s.net - multiset{l.msg};
    } else if posted == {} {
      assert net' == s.net;
    } else {
      var st := LocalStep(c, l.i, s.nodes[l.i], l);
      var m := Msg(l.i, s.nodes[l.i].inc, st.out.dst, s.nodes[st.out.dst].inc, st.out.body);
      assert posted == {m} && multiset(posted) == multiset{m};
      CountAdd(s.net, seeds, m);
    }
  }

  /** Products of the three summands, kept away from the rest of the argument. */
  lemma WorkArithmetic(sum: nat, sum': nat, keys: nat, keys': nat, pot: nat, pot': nat, msg: nat, taken: nat,
                       cost: nat, step: nat)
    requires sum' + step <= sum + taken * msg
    requires keys' + taken == keys + cost
    requires pot' + cost <= pot
    ensures sum' + keys' * msg + pot' * (msg + 1) + step <= sum + keys * msg + pot * (msg + 1)
  {
    assert keys' * msg + taken * msg == keys * msg + cost * msg by {
      assert (keys' + taken) * msg == (keys + cost) * msg;
    }
    assert pot' * (msg + 1) + cost * (msg + 1) <= pot * (msg + 1) by {
      assert (pot' + cost) * (msg + 1) <= pot * (msg + 1);
    }
  }

  lemma SumWorkTo(seeds: set<Name>, s: State, s': State, i: Name, n': Node, step: nat, got: nat)
    requires i in s.nodes && s'.nodes == s.nodes[i := n'] && AllBegun(seeds, s)
    requires i in seeds ==> NodeWork(seeds, n') + step <= NodeWork(seeds, s.nodes[i]) + got && Begun(n')
    requires i !in seeds ==> step == 0
    ensures SumWork(seeds, s', seeds) + step <= SumWork(seeds, s, seeds) + (if i in seeds then got else 0)
    ensures AllBegun(seeds, s')
  {
    SumWorkStep(seeds, s, s', i, seeds);
  }

  lemma SeedWork(c: Config, seeds: set<Name>, s: State, l: Label, s': State)
    requires FreshCluster(c, seeds) && FreshInv(c, seeds, s) && AllBegun(seeds, s) && Enabled(c, s, l) && !l.Crash?
    requires LocalStep(c, l.i, s.nodes[l.i], l).Step?
    requires s'.nodes == s.nodes[l.i := NextNode(c, l.i, s.nodes[l.i], l)]
    ensures SumWork(seeds, s', seeds) + Unit(l.i in seeds && SeedingStep(s.nodes[l.i], l))
              <= SumWork(seeds, s, seeds) + (if l.i in seeds && TakesKey(l) then MsgWork(seeds) else 0)
    ensures AllBegun(seeds, s')
  {
    if l.i in seeds { WorkStep(c, seeds, s.sent, s.known, l.i, s.nodes[l.i], l); }
    SumWorkTo(seeds, s, s', l.i, NextNode(c, l.i, s.nodes[l.i], l),
              Unit(l.i in seeds && SeedingStep(s.nodes[l.i], l)), if TakesKey(l) then MsgWork(seeds) else 0);
  }

  /** Every step keeps the seeds going; a seeding step of a seed uses up work, no step adds any. */
  lemma WorkDecreases(c: Config, seeds: set<Name>, s: State, l: Label)
    requires FreshCluster(c, seeds) && TrafficInv(c, seeds, s) && AllBegun(seeds, s) && Enabled(c, s, l) && !l.Crash?
    ensures var s' := Apply(c, s, l);
            && TrafficInv(c, seeds, s') && AllBegun(seeds, s')
            && Work(c, seeds, s') + Unit(l.i in seeds && SeedingStep(s.nodes[l.i], l)) <= Work(c, seeds, s)
  {
    var s' := Apply(c, s, l);
    FreshStepCompletes(c, seeds, s, l);
    TotalAfterStep(c, seeds, s, l, s');
    ApplyShape(c, s, l, s', NextNode(c, l.i, s.nodes[l.i], l), StepPosts(c, s, l));
    NetAfter(c, s, l);
    WorkOf(c, seeds, s, l, s');
  }

  lemma WorkOf(c: Config, seeds: set<Name>, s: State, l: Label, s': State)
    requires FreshCluster(c, seeds) && FreshInv(c, seeds, s) && AllBegun(seeds, s) && Enabled(c, s, l) && !l.Crash?
    requires LocalStep(c, l.i, s.nodes[l.i], l).Step?
    requires s'.nodes == s.nodes[l.i := NextNode(c, l.i, s.nodes[l.i], l)]
    requires s'.net == (if l.Take? then s.net - multiset{l.msg} else s.net) + multiset(StepPosts(c, s, l))
    requires Total(c, seeds, s', seeds) + Unit(StepCosts(c, seeds, s, l)) <= Total(c, seeds, s, seeds)
    ensures AllBegun(seeds, s')
    ensures Work(c, seeds, s') + Unit(l.i in seeds && SeedingStep(s.nodes[l.i], l)) <= Work(c, seeds, s)
  {
    SeedWork(c, seeds, s, l, s');
    NetWork(c, seeds, s, l, s'.net);
    TakenByAddressee(c, s, l);
    WorkArithmetic(SumWork(seeds, s, seeds), SumWork(seeds, s', seeds),
                   CountKeys(s.net, seeds), CountKeys(s'.net, seeds),
                   Total(c, seeds, s, seeds), Total(c, seeds, s', seeds), MsgWork(seeds),
                   Unit(l.Take? && KeyTo(seeds, l.msg)), Unit(StepCosts(c, seeds, s, l)),
                   Unit(l.i in seeds && SeedingStep(s.nodes[l.i], l)));
  }

  lemma TakenByAddressee(c: Config, s: State, l: Label)
    requires Enabled(c, s, l)
    ensures l.Take? ==> l.msg.dst == l.i
  {
  }

  // ---------------------------------------------------------------- progress

  lemma ForwardTarget(c: Config, seeds: set<Name>, sent: set<Msg>, i: Name, n: Node)
    requires i in c.seedLists && c.seedLists[i] == seeds && n.proc.Some? && Active(c, sent, i, n, n.proc.value)
    requires n.proc.value.lock.Forwarding? && n.proc.value.lock.rest != []
    ensures n.proc.value.lock.rest[0] in seeds
  {
    var p := n.proc.value;
    OthersNoDup(c, i);
    assert p.lock.rest[0] == p.seed.others[|p.seed.others| - |p.lock.rest|];
    assert p.lock.rest[0] in ToSet(Others(c, i));
  }

  lemma ForwardTargetAlive(c: Config, seeds: set<Name>, s: State, i: Name)
    requires i in s.nodes && i in c.seedLists && s.nodes[i].proc.Some? && AllBegun(seeds, s)
    requires s.nodes[i].proc.value.lock.Forwarding? && s.nodes[i].proc.value.lock.rest != []
    requires s.nodes[i].proc.value.lock.rest[0] in seeds
    ensures Enabled(c, s, ForwardPeer(i, true)) && CalmStep(c, seeds, s, ForwardPeer(i, true))
  {
  }

  lemma InitialTargetAlive(c: Config, seeds: set<Name>, s: State, i: Name)
    requires FreshCluster(c, seeds) && Inv(c, s) && AllBegun(seeds, s) && i in seeds
    requires s.nodes[i].proc.value.initial.Sending? && s.nodes[i].proc.value.initial.rest != []
    ensures var l := InitialPeer(i, s.nodes[i].proc.value.initial.rest[0] in seeds);
            Enabled(c, s, l) && CalmStep(c, seeds, s, l)
  {
  }

  lemma SilentEnabled(c: Config, seeds: set<Name>, s: State, l: Label)
    requires l.i in s.nodes && l.i in c.seedLists && LocalEnabled(c, l.i, s.nodes[l.i], l)
    requires l.ForwardStart? || l.ForwardStop? || l.Handle? || l.Finish? || l.InitialStart? || l.RunCleanup?
    ensures Enabled(c, s, l) && CalmStep(c, seeds, s, l)
  {
    OtherwiseSilent(c, l.i, s.nodes[l.i], l);
  }

  /** What an unlocked process that is not at rest can do next without sending. */
  ghost predicate IsNextTask(i: Name, p: Proc, l: Label) {
    || (l == Handle(i, []) && p.loop.Got?)
    || (l == Finish(i) && p.loop.Complete?)
    || (l == InitialStart(i) && p.initial.Spawned?)
    || (l == RunCleanup(i) && p.cleanups > 0)
    || (l.ForwardStart? && l.i == i && l.key in p.forwards)
  }

  lemma NextTask(i: Name, p: Proc) returns (l: Label)
    requires !AtRest(p) && p.lock.Unlocked? && !(p.initial.Sending? && p.initial.rest != [])
    ensures IsNextTask(i, p, l)
  {
    if p.loop.Got? {
      l := Handle(i, []);
    } else if p.loop.Complete? {
      l := Finish(i);
    } else if p.initial.Spawned? {
      l := InitialStart(i);
    } else if p.cleanups > 0 {
      l := RunCleanup(i);
    } else {
      var k :| k in p.forwards;
      l := ForwardStart(i, k);
    }
  }

  /** While a process is not at rest, one of its own tasks can move, losing nothing. */
  lemma TaskCanMove(c: Config, seeds: set<Name>, s: State, i: Name) returns (l: Label)
    requires FreshCluster(c, seeds) && FreshInv(c, seeds, s) && AllBegun(seeds, s) && i in seeds
    requires !AtRest(s.nodes[i].proc.value)
    ensures l.i == i && Enabled(c, s, l) && CalmStep(c, seeds, s, l) && !l.Take?
    ensures SeedingStep(s.nodes[i], l) || (l.Handle? && s.nodes[i].proc.value.loop.Got?)
  {
    var p := s.nodes[i].proc.value;
    if p.lock.Forwarding? && p.lock.rest == [] {
      l := ForwardStop(i);
      SilentEnabled(c, seeds, s, l);
    } else if p.lock.Forwarding? {
      l := ForwardPeer(i, true);
      assert Active(c, s.sent, i, s.nodes[i], p);
      ForwardTarget(c, seeds, s.sent, i, s.nodes[i]);
      ForwardTargetAlive(c, seeds, s, i);
    } else if p.initial.Sending? && p.initial.rest != [] {
      l := InitialPeer(i, p.initial.rest[0] in seeds);
      InitialTargetAlive(c, seeds, s, i);
    } else {
      l := NextTask(i, p);
      SilentEnabled(c, seeds, s, l);
    }
  }

  /** A key message to a seed at rest can be taken. */
  lemma MessageCanMove(c: Config, seeds: set<Name>, s: State, m: Msg)
    requires FreshCluster(c, seeds) && FreshInv(c, seeds, s) && AllBegun(seeds, s)
    requires m in s.net && KeyTo(seeds, m) && AtRest(s.nodes[m.dst].proc.value)
    ensures Enabled(c, s, Take(m.dst, m)) && CalmStep(c, seeds, s, Take(m.dst, m))
    ensures SeedingStep(s.nodes[m.dst], Take(m.dst, m))
  {
    assert SentInv(c, s, m);
    assert FirstLife(s.nodes[m.dst]);
    OtherwiseSilent(c, m.dst, s.nodes[m.dst], Take(m.dst, m));
  }

  // ---------------------------------------------------------------- theorems

  ghost predicate StepSeeds(c: Config, seeds: set<Name>, s: State, l: Label)
    requires Enabled(c, s, l)
  {
    l.i in seeds && SeedingStep(s.nodes[l.i], l)
  }

  /** Seeding steps of the seeds taken at or after position `from`. */
  ghost function SeedingCount(c: Config, seeds: set<Name>, ls: seq<Label>, from: nat): nat {
    if |ls| <= from then 0
    else
      var front, last := ls[..|ls| - 1], ls[|ls| - 1];
      SeedingCount(c, seeds, front, from) +
      (if Exec(c, front).Some? && Enabled(c, Exec(c, front).value, last)
          && StepSeeds(c, seeds, Exec(c, front).value, last) then 1 else 0)
  }

  /** From the moment all seeds have begun, a crash-free run takes at most `Work` further seeding steps. */
  lemma {:induction false} SeedingTerminates(c: Config, seeds: set<Name>, ls: seq<Label>, from: nat)
    requires FreshCluster(c, seeds) && Exec(c, ls).Some? && NoCrash(ls) && from <= |ls|
    requires Exec(c, ls[..from]).Some? && AllBegun(seeds, Exec(c, ls[..from]).value)
    ensures AllBegun(seeds, Exec(c, ls).value)
    ensures SeedingCount(c, seeds, ls, from) + Work(c, seeds, Exec(c, ls).value) <=
            Work(c, seeds, Exec(c, ls[..from]).value)
  {
    if from == |ls| {
      assert ls[..from] == ls;
    } else {
      var front, last := ls[..|ls| - 1], ls[|ls| - 1];
      assert front[..from] == ls[..from];
      LastIsEnabled(c, ls);
      assert NoCrash(front);
      SeedingTerminates(c, seeds, front, from);
      LastWork(c, seeds, ls);
      CountLast(c, seeds, ls, from);
    }
  }

  lemma CountLast(c: Config, seeds: set<Name>, ls: seq<Label>, from: nat)
    requires from < |ls| && Exec(c, ls[..|ls| - 1]).Some? && Enabled(c, Exec(c, ls[..|ls| - 1]).value, ls[|ls| - 1])
    ensures SeedingCount(c, seeds, ls, from) == SeedingCount(c, seeds, ls[..|ls| - 1], from) +
              (if StepSeeds(c, seeds, Exec(c, ls[..|ls| - 1]).value, ls[|ls| - 1]) then 1 else 0)
  {
  }

  lemma LastIsEnabled(c: Config, ls: seq<Label>)
    requires ls != [] && Exec(c, ls).Some?
    ensures var front, last := ls[..|ls| - 1], ls[|ls| - 1];
            && Exec(c, front).Some? && Enabled(c, Exec(c, front).value, last)
            && Exec(c, ls) == Some(Apply(c, Exec(c, front).value, last))
  {
  }

  lemma LastWork(c: Config, seeds: set<Name>, ls: seq<Label>)
    requires FreshCluster(c, seeds) && ls != [] && Exec(c, ls).Some? && NoCrash(ls)
    requires Exec(c, ls[..|ls| - 1]).Some? && AllBegun(seeds, Exec(c, ls[..|ls| - 1]).value)
    ensures var s, last := Exec(c, ls[..|ls| - 1]).value, ls[|ls| - 1];
            && AllBegun(seeds, Exec(c, ls).value) && Enabled(c, s, last)
            && Work(c, seeds, Exec(c, ls).value) + (if StepSeeds(c, seeds, s, last) then 1 else 0) <= Work(c, seeds, s)
  {
    LastIsEnabled(c, ls);
    TrafficRun(c, seeds, ls[..|ls| - 1]);
    WorkDecreases(c, seeds, Exec(c, ls[..|ls| - 1]).value, ls[|ls| - 1]);
  }

  lemma NoCrashLast(ls: seq<Label>)
    requires ls != [] && NoCrash(ls[..|ls| - 1]) && !ls[|ls| - 1].Crash?
    ensures NoCrash(ls)
  {
    forall k | 0 <= k < |ls| ensures !ls[k].Crash? {
      if k < |ls| - 1 { assert ls[k] == ls[..|ls| - 1][k]; }
    }
  }

  lemma {:induction false} ReliableMeansNoCrash(c: Config, seeds: set<Name>, ls: seq<Label>, early: bool)
    requires ReliableRun(c, seeds, ls, early)
    ensures NoCrash(ls)
  {
    if ls != [] {
      ReliableLast(c, seeds, ls, early);
      ReliableMeansNoCrash(c, seeds, ls[..|ls| - 1], early);
      NoCrashLast(ls);
    }
  }

  lemma ReliableExtend(c: Config, seeds: set<Name>, ls: seq<Label>, l: Label, early: bool)
    requires ReliableRun(c, seeds, ls, early) && Exec(c, ls).Some? && Enabled(c, Exec(c, ls).value, l)
    requires Reliable(c, seeds, Exec(c, ls).value, l) && (early || NotEarly(seeds, Exec(c, ls).value, l))
    ensures ReliableRun(c, seeds, ls + [l], early) && Exec(c, ls + [l]) == Some(Apply(c, Exec(c, ls).value, l))
  {
    assert (ls + [l])[..|ls + [l]| - 1] == ls;
  }

  /** Seeds whose loop holds a message that is not a key message. */
  ghost function Distracted(seeds: set<Name>, s: State): set<Name> {
    set i | i in seeds && i in s.nodes && s.nodes[i].proc.Some? && s.nodes[i].proc.value.loop.Got?
            && !s.nodes[i].proc.value.loop.msg.body.KeyInit?
  }

  /** A calm step exists that uses up work, or at least frees one loop. */
  lemma CalmProgress(c: Config, seeds: set<Name>, s: State) returns (l: Label)
    requires FreshCluster(c, seeds) && FreshInv(c, seeds, s) && AllBegun(seeds, s) && !Quiescent(seeds, s)
    ensures Enabled(c, s, l) && CalmStep(c, seeds, s, l) && l.i in seeds
    ensures SeedingStep(s.nodes[l.i], l) || (l.Handle? && l.i in Distracted(seeds, s))
  {
    if i :| i in seeds && !AtRest(s.nodes[i].proc.value) {
      l := TaskCanMove(c, seeds, s, i);
    } else {
      var m :| m in s.net && KeyTo(seeds, m);
      MessageCanMove(c, seeds, s, m);
      l := Take(m.dst, m);
    }
  }

  lemma HandledIsFree(c: Config, i: Name, n: Node, l: Label)
    requires i in c.seedLists && n.proc.Some? && LocalEnabled(c, i, n, l) && l.Handle?
    ensures var n' := NextNode(c, i, n, l); n'.proc.Some? ==> !n'.proc.value.loop.Got?
  {
  }

  lemma FewerDistracted(seeds: set<Name>, s: State, s': State, i: Name, n': Node)
    requires i in Distracted(seeds, s) && s'.nodes == s.nodes[i := n']
    requires n'.proc.Some? ==> !n'.proc.value.loop.Got?
    ensures |Distracted(seeds, s')| < |Distracted(seeds, s)|
  {
    assert Distracted(seeds, s') <= Distracted(seeds, s) - {i};
    SubsetSize(Distracted(seeds, s'), Distracted(seeds, s) - {i});
  }

  lemma ProgressMeasured(c: Config, seeds: set<Name>, s: State, l: Label)
    requires FreshCluster(c, seeds) && TrafficInv(c, seeds, s) && AllBegun(seeds, s)
    requires Enabled(c, s, l) && CalmStep(c, seeds, s, l) && l.i in seeds
    requires SeedingStep(s.nodes[l.i], l) || (l.Handle? && l.i in Distracted(seeds, s))
    ensures var s' := Apply(c, s, l);
            && AllBegun(seeds, s')
            && (Work(c, seeds, s') < Work(c, seeds, s)
                || (Work(c, seeds, s') == Work(c, seeds, s) && |Distracted(seeds, s')| < |Distracted(seeds, s)|))
  {
    WorkDecreases(c, seeds, s, l);
    if !SeedingStep(s.nodes[l.i], l) {
      var n' := NextNode(c, l.i, s.nodes[l.i], l);
      HandledIsFree(c, l.i, s.nodes[l.i], l);
      ApplyShape(c, s, l, Apply(c, s, l), n', StepPosts(c, s, l));
      FewerDistracted(seeds, s, Apply(c, s, l), l.i, n');
    }
  }

  /** Every calm run in which all seeds have begun extends to a calm run that has come to rest. */
  lemma {:induction false} ExtendToRest(c: Config, seeds: set<Name>, ls: seq<Label>) returns (ls': seq<Label>)
    requires SeedCluster(c, seeds) && CalmRun(c, seeds, ls) && Exec(c, ls).Some? && AllBegun(seeds, Exec(c, ls).value)
    ensures ls <= ls' && CalmRun(c, seeds, ls') && Exec(c, ls').Some? && Quiescent(seeds, Exec(c, ls').value)
    decreases Work(c, seeds, Exec(c, ls).value), |Distracted(seeds, Exec(c, ls).value)|
  {
    var s := Exec(c, ls).value;
    if Quiescent(seeds, s) {
      ls' := ls;
    } else {
      ReliableMeansNoCrash(c, seeds, ls, false);
      TrafficRun(c, seeds, ls);
      var l := CalmProgress(c, seeds, s);
      ReliableExtend(c, seeds, ls, l, false);
      ProgressMeasured(c, seeds, s, l);
      ls' := ExtendToRest(c, seeds, ls + [l]);
      assert ls <= ls + [l] <= ls';
    }
  }

  /**
   * Seeding can always be completed: a calm run in which all seeds have begun extends to one in which
   * every seed is READY with the master's key on disk.
   */
  lemma SeedingCompletes(c: Config, seeds: set<Name>, ls: seq<Label>) returns (ls': seq<Label>)
    requires SeedCluster(c, seeds) && CalmRun(c, seeds, ls) && Exec(c, ls).Some? && AllBegun(seeds, Exec(c, ls).value)
    ensures ls <= ls' && CalmRun(c, seeds, ls') && Exec(c, ls').Some?
    ensures var s := Exec(c, ls').value;
            && Least(seeds) in s.nodes && 1 in s.nodes[Least(seeds)].fixed
            && forall i :: i in seeds ==>
                 && i in s.nodes && IsReady(s.nodes[i])
                 && s.nodes[i].disk == Some(FileFor(i, s.nodes[Least(seeds)].fixed[1]))
  {
    ls' := ExtendToRest(c, seeds, ls);
    CompletionAtQuiescence(c, seeds, ls', Least(seeds));
    forall i | i in seeds
      ensures var s := Exec(c, ls').value;
              i in s.nodes && IsReady(s.nodes[i]) && s.nodes[i].disk == Some(FileFor(i, s.nodes[Least(seeds)].fixed[1]))
    {
      CompletionAtQuiescence(c, seeds, ls', i);
    }
  }
}
