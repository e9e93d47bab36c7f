/**
 * Nodes that get the key, or the confirmation of their key, from a peer: a joiner in QUERY_KEY and a restarted
 * node in VALIDATING. Each asks one peer once. Exactly when such a node becomes READY, over every run; and that
 * it always does when nobody crashes and no send fails.
 */
module Joining {
  import opened Basics
  import opened Vault
  import opened Protocol
  import opened Invariant
  import opened Preserve
  import opened Agreement
  import opened CrashFree
  import opened Completion
  import opened Termination
  import opened Timely
  import opened Threads
  import opened ReadyAgreement

  predicate Asking(st: Status) {
    st == QueryKey || st == Validating
  }

  predicate Answers(st: Status, b: Body) {
    (st == QueryKey && b.KeyResp?) || (st == Validating && b.ChallengeResp?)
  }

  /** Incarnation `inc` of the node runs and is in state `st`. */
  predicate RunsIn(n: Node, inc: nat, st: Status) {
    n.inc == inc && n.proc.Some? && n.proc.value.status == st
  }

  ghost predicate IsIn(c: Config, ls: seq<Label>, i: Name, inc: nat, st: Status) {
    Exec(c, ls).Some? && i in Exec(c, ls).value.nodes && RunsIn(Exec(c, ls).value.nodes[i], inc, st)
  }

  /** At some point of the run the incarnation is in state `st`. */
  ghost predicate WasIn(c: Config, ls: seq<Label>, i: Name, inc: nat, st: Status) {
    IsIn(c, ls, i, inc, st) || (ls != [] && WasIn(c, ls[..|ls| - 1], i, inc, st))
  }

  /** Some step of the run is the incarnation reading an answer while it is in state `st`. */
  ghost predicate Answered(c: Config, ls: seq<Label>, i: Name, inc: nat, st: Status) {
    ls != [] &&
    var front, last := ls[..|ls| - 1], ls[|ls| - 1];
    || Answered(c, front, i, inc, st)
    || (last.Take? && last.i == i && Answers(st, last.msg.body) && IsIn(c, front, i, inc, st))
  }

  predicate HoldsAnswer(p: Proc, st: Status) {
    p.loop.Got? && p.loop.seen == st && Answers(st, p.loop.msg.body)
  }

  // ------------------------------------------------------------ in every run

  /** What a run records about an incarnation that asks. */
  ghost predicate AskedInv(n: Node, inc: nat, st: Status, was: bool, answered: bool) {
    && (was || answered ==> inc <= n.inc)
    && (n.inc == inc && n.proc.Some? ==>
          var p := n.proc.value;
          && (was ==> p.status == st || p.status == Ready)
          && (answered ==> was && (p.status == Ready || HoldsAnswer(p, st)))
          && (was && p.status == Ready ==> answered)
          && (HoldsAnswer(p, st) ==> answered))
  }

  /** What a step does to a process that stays alive, as far as asking is concerned. */
  lemma AskerStep(c: Config, sent: set<Msg>, known: set<Bytes>, i: Name, n: Node, l: Label, st: Status)
    requires i in c.seedLists && NodeInv(c, sent, known, i, n) && LocalEnabled(c, i, n, l) && n.proc.Some? && Asking(st)
    requires NextNode(c, i, n, l).proc.Some?
    ensures var p, q := n.proc.value, NextNode(c, i, n, l).proc.value;
            && NextNode(c, i, n, l).inc == n.inc
            && (p.status == q.status || Edge(p.status, q.status))
            && (p.status == st && q.status == Ready ==> l.Handle? && HoldsAnswer(p, st))
            && (HoldsAnswer(q, st) ==> HoldsAnswer(p, st) || (l.Take? && p.status == st && Answers(st, l.msg.body)))
            && (HoldsAnswer(p, st) ==> q.status == Ready || HoldsAnswer(q, st))
            && (l.Take? && p.status == st && Answers(st, l.msg.body) ==> HoldsAnswer(q, st))
  {
    var p := n.proc.value;
    StatusStep(c, sent, known, i, n, l);
    if p.status == st && NextNode(c, i, n, l).proc.value.status == Ready {
      BecomesReady(c, i, n, l);
      CompletingIsSeeding(c, sent, known, i, n);
    }
    AskerLoop(c, i, n, l, st);
    if l.Handle? { HandleIsDispatch(c, i, n, l); }
  }

  lemma CompletingIsSeeding(c: Config, sent: set<Msg>, known: set<Bytes>, i: Name, n: Node)
    requires i in c.seedLists && n.proc.Some? && NodeInv(c, sent, known, i, n)
    ensures n.proc.value.loop.Complete? ==> n.proc.value.status == Seeding
  {
    if n.proc.value.loop.Complete? { assert Active(c, sent, i, n, n.proc.value); }
  }

  lemma AskerLoop(c: Config, i: Name, n: Node, l: Label, st: Status)
    requires i in c.seedLists && LocalEnabled(c, i, n, l) && n.proc.Some?
    requires Asking(st) && NextNode(c, i, n, l).proc.Some?
    ensures NextNode(c, i, n, l).inc == n.inc
    ensures var p, q := n.proc.value, NextNode(c, i, n, l).proc.value;
            && (l.Handle? ==> !q.loop.Got?)
            && (l.Take? ==> !p.loop.Got? && q.loop == Got(l.msg, p.status))
            && (!l.Handle? && !l.Take? ==> (q.loop.Got? <==> p.loop.Got?) && (p.loop.Got? ==> q.loop == p.loop))
  {
    AliveKeepsInc(c, i, n, l);
    if l.Handle? {
      HandledIsFree(c, i, n, l);
    } else if !l.Take? {
      if n.proc.value.loop.Got? { PendingStays(c, i, n, l); } else { NotTaken(c, i, n, l); }
    }
  }

  lemma AliveKeepsInc(c: Config, i: Name, n: Node, l: Label)
    requires i in c.seedLists && LocalEnabled(c, i, n, l) && n.proc.Some? && NextNode(c, i, n, l).proc.Some?
    ensures NextNode(c, i, n, l).inc == n.inc && !l.Crash? && !l.Boot? && LocalStep(c, i, n, l).Step?
  {
    if SideStep(l) {
      SideStepFrame(c, i, n, l);
    } else if l.Handle? {
      HandleIsDispatch(c, i, n, l);
      DispatchStatus(c, i, n, n.proc.value, n.proc.value.loop.msg, n.proc.value.loop.seen, l.random);
    }
  }

  lemma AskedMove(c: Config, sent: set<Msg>, known: set<Bytes>, i: Name, n: Node, l: Label, inc: nat, st: Status,
                  was: bool, answered: bool, was': bool, answered': bool)
    requires i in c.seedLists && NodeInv(c, sent, known, i, n) && LocalEnabled(c, i, n, l) && Asking(st)
    requires AskedInv(n, inc, st, was, answered)
    requires was' <==> was || RunsIn(NextNode(c, i, n, l), inc, st)
    requires answered' <==> answered || (l.Take? && Answers(st, l.msg.body) && RunsIn(n, inc, st))
    requires was ==> inc <= n.inc
    requires RunsIn(n, inc, st) ==> was
    ensures AskedInv(NextNode(c, i, n, l), inc, st, was', answered')
  {
    var n' := NextNode(c, i, n, l);
    IncGrows(c, i, n, l);
    if n.proc.Some? && n'.proc.Some? { AskerStep(c, sent, known, i, n, l, st); }
  }

  lemma IncGrows(c: Config, i: Name, n: Node, l: Label)
    requires i in c.seedLists && LocalEnabled(c, i, n, l)
    ensures var n' := NextNode(c, i, n, l);
            && n.inc <= n'.inc
            && (n.proc.None? ==> n'.inc == n.inc + 1 && n'.proc == Some(FreshProc(Others(c, i))))
  {
    if n.proc.Some? {
      if NextNode(c, i, n, l).proc.Some? { AliveKeepsInc(c, i, n, l); } else { DeadKeepsInc(c, i, n, l); }
    }
  }

  lemma DeadKeepsInc(c: Config, i: Name, n: Node, l: Label)
    requires i in c.seedLists && LocalEnabled(c, i, n, l) && n.proc.Some? && NextNode(c, i, n, l).proc.None?
    ensures NextNode(c, i, n, l).inc == n.inc
  {
    if SideStep(l) {
      SideStepFrame(c, i, n, l);
    } else if l.Handle? {
      HandleIsDispatch(c, i, n, l);
      DispatchStatus(c, i, n, n.proc.value, n.proc.value.loop.msg, n.proc.value.loop.seen, l.random);
    }
  }

  lemma {:induction false} AskedRun(c: Config, ls: seq<Label>, i: Name, inc: nat, st: Status)
    requires ValidConfig(c) && Exec(c, ls).Some? && i in c.names && Asking(st)
    ensures i in Exec(c, ls).value.nodes
    ensures AskedInv(Exec(c, ls).value.nodes[i], inc, st, WasIn(c, ls, i, inc, st), Answered(c, ls, i, inc, st))
  {
    RunInv(c, ls);
    if ls != [] {
      var front, last := ls[..|ls| - 1], ls[|ls| - 1];
      LastIsEnabled(c, ls);
      RunInv(c, front);
      AskedRun(c, front, i, inc, st);
      AskedLast(c, Exec(c, front).value, last, i, inc, st, WasIn(c, front, i, inc, st), Answered(c, front, i, inc, st),
                WasIn(c, ls, i, inc, st), Answered(c, ls, i, inc, st));
    }
  }

  lemma AskedLast(c: Config, s: State, l: Label, i: Name, inc: nat, st: Status,
                  was: bool, answered: bool, was': bool, answered': bool)
    requires Inv(c, s) && Enabled(c, s, l) && i in s.nodes && Asking(st) && AskedInv(s.nodes[i], inc, st, was, answered)
    requires i in Apply(c, s, l).nodes && (RunsIn(s.nodes[i], inc, st) ==> was)
    requires was' <==> was || RunsIn(Apply(c, s, l).nodes[i], inc, st)
    requires answered' <==> answered || (l.Take? && l.i == i && Answers(st, l.msg.body) && RunsIn(s.nodes[i], inc, st))
    ensures AskedInv(Apply(c, s, l).nodes[i], inc, st, was', answered')
  {
    ApplyShape(c, s, l, Apply(c, s, l), NextNode(c, l.i, s.nodes[l.i], l), StepPosts(c, s, l));
    if l.i == i {
      assert NodeInv(c, s.sent, s.known, i, s.nodes[i]);
      AskedMove(c, s.sent, s.known, i, s.nodes[i], l, inc, st, was, answered, was', answered');
    }
  }

  /**
   * Over every run, crashes and all: a process that has been in QUERY_KEY, or in VALIDATING, and is not just
   * handling an answer is READY if and only if it has read an answer in that state.
   */
  lemma ReadyIffAnswered(c: Config, ls: seq<Label>, i: Name, st: Status)
    requires ValidConfig(c) && Exec(c, ls).Some? && i in c.names && Asking(st)
    requires i in Exec(c, ls).value.nodes && Exec(c, ls).value.nodes[i].proc.Some?
    requires WasIn(c, ls, i, Exec(c, ls).value.nodes[i].inc, st)
    requires !HoldsAnswer(Exec(c, ls).value.nodes[i].proc.value, st)
    ensures var n := Exec(c, ls).value.nodes[i];
            && (IsReady(n) <==> Answered(c, ls, i, n.inc, st))
            && (!IsReady(n) <==> n.proc.value.status == st)
  {
    AskedRun(c, ls, i, Exec(c, ls).value.nodes[i].inc, st);
  }

  // ------------------------------------------------ when nobody fails them

  /** Nobody crashes, and questions and answers are sent. */
  predicate Helpful(l: Label) {
    !l.Crash? && (l.AskPeer? ==> l.ok) && (l.SendReply? ==> l.ok)
  }

  predicate HelpfulRun(ls: seq<Label>) {
    forall k :: 0 <= k < |ls| ==> Helpful(ls[k])
  }

  predicate Asks(st: Status, b: Body) {
    (st == QueryKey && b.KeyQuery?) || (st == Validating && b.Challenge?)
  }

  predicate AnswersTo(r: Reply, i: Name, st: Status) {
    r.to == i && ((st == QueryKey && r.KeyReply?) || (st == Validating && r.ChallengeReply?))
  }

  /** The node waits for an answer: it has chosen whom to ask. */
  predicate Waits(n: Node, st: Status) {
    n.proc.Some? && n.proc.value.status == st && n.proc.value.pc == Finished
  }

  /** The peer about to be asked has been READY. */
  predicate AboutToAsk(ready: set<Name>, ask: Ask, st: Status) {
    || (st == QueryKey && ask.AskKey? && ask.peers != [] && ask.peers[0] in ready)
    || (st == Validating && ask.AskChallenge? && ask.peers != [] && ask.peers[0] in ready)
  }

  ghost predicate QuestionSent(s: State, i: Name, st: Status, m: Msg) {
    && m in s.net && m.src == i && Asks(st, m.body)
    && m.dst in s.ready && m.dst in s.nodes && m.dstInc == s.nodes[m.dst].inc
  }

  ghost predicate QuestionRead(s: State, i: Name, st: Status, j: Name) {
    && j in s.ready && j in s.nodes && s.nodes[j].proc.Some?
    && var loop := s.nodes[j].proc.value.loop;
       loop.Got? && loop.seen == Ready && loop.msg.src == i && Asks(st, loop.msg.body)
  }

  ghost predicate AnswerReady(s: State, i: Name, st: Status, j: Name, r: Reply) {
    && j in s.ready && j in s.nodes && s.nodes[j].proc.Some?
    && r in s.nodes[j].proc.value.replies && AnswersTo(r, i, st)
  }

  ghost predicate AnswerSent(s: State, i: Name, st: Status, m: Msg) {
    m in s.net && m.dst == i && i in s.nodes && m.dstInc == s.nodes[i].inc && Answers(st, m.body)
  }

  /** Somewhere the question or its answer is on its way. */
  ghost predicate UnderWay(s: State, i: Name, st: Status)
    requires i in s.nodes && s.nodes[i].proc.Some?
  {
    || AboutToAsk(s.ready, s.nodes[i].proc.value.ask, st)
    || (exists m :: QuestionSent(s, i, st, m))
    || (exists j :: QuestionRead(s, i, st, j))
    || (exists j, r :: AnswerReady(s, i, st, j, r))
    || (exists m :: AnswerSent(s, i, st, m))
    || HoldsAnswer(s.nodes[i].proc.value, st)
  }

  ghost predicate HelpInv(c: Config, s: State) {
    && Inv(c, s)
    && (forall j :: j in s.ready ==> j in s.nodes && IsReady(s.nodes[j]))
    && (forall j :: j in s.nodes && IsReady(s.nodes[j]) ==> j in s.ready)
    && (forall i, st :: i in s.nodes && Asking(st) && Waits(s.nodes[i], st) ==> UnderWay(s, i, st))
  }

  /** Without a crash a READY process goes on, and stays READY. */
  lemma ReadyGoesOn(c: Config, s: State, l: Label)
    requires ValidConfig(c) && Inv(c, s) && Enabled(c, s, l) && !l.Crash? && IsReady(s.nodes[l.i])
    ensures var n' := NextNode(c, l.i, s.nodes[l.i], l); IsReady(n') && n'.inc == s.nodes[l.i].inc
  {
    var n := s.nodes[l.i];
    assert NodeInv(c, s.sent, s.known, l.i, n);
    if l.Handle? { ReadyHandles(c, s, l); } else { StaysAlive(c, l.i, n, l); }
    ReadyStatus(c, s.sent, s.known, l.i, n, l);
  }

  lemma ReadyStatus(c: Config, sent: set<Msg>, known: set<Bytes>, i: Name, n: Node, l: Label)
    requires i in c.seedLists && NodeInv(c, sent, known, i, n) && LocalEnabled(c, i, n, l) && IsReady(n)
    requires NextNode(c, i, n, l).proc.Some?
    ensures IsReady(NextNode(c, i, n, l)) && NextNode(c, i, n, l).inc == n.inc
  {
    AliveKeepsInc(c, i, n, l);
    StatusStep(c, sent, known, i, n, l);
  }

  lemma ReadyHandles(c: Config, s: State, l: Label)
    requires Inv(c, s) && Enabled(c, s, l) && l.Handle? && IsReady(s.nodes[l.i])
    ensures NextNode(c, l.i, s.nodes[l.i], l).proc.Some?
  {
    var n := s.nodes[l.i];
    var p := n.proc.value;
    HandleIsDispatch(c, l.i, n, l);
    assert LoopInv(s.sent, l.i, n, p);
    if p.loop.seen == Ready {
      ServingNeverPanics(c, s, l.i, p.loop.msg, l.random);
      DispatchStatus(c, l.i, n, p, p.loop.msg, p.loop.seen, l.random);
    } else {
      IdleHandling(c, l.i, n, p, p.loop.msg, p.loop.seen, l.random);
    }
  }

  /** A message read before the state was one the loop acts on is dropped. */
  lemma IdleHandling(c: Config, i: Name, n: Node, p: Proc, m: Msg, seen: Status, random: Bytes)
    requires n.proc == Some(p) && !Acting(seen)
    ensures Dispatch(c, i, n, p, m, seen, random) == Step(n.(proc := Some(p.(loop := Idle))), Silent)
  {
  }

  lemma StaysAlive(c: Config, i: Name, n: Node, l: Label)
    requires i in c.seedLists && LocalEnabled(c, i, n, l) && n.proc.Some? && !l.Crash? && !l.Handle?
    ensures NextNode(c, i, n, l).proc.Some?
  {
    if SideStep(l) { SideStepFrame(c, i, n, l); }
  }

  /** What a step from p to q keeps of the tasks of a process. */
  ghost predicate KeepsTasks(l: Label, p: Proc, q: Proc) {
    && (!l.AskPeer? && !l.StartQuery? && !l.StartChallenge? ==> q.ask == p.ask)
    && (forall r :: r in p.replies && !(l.SendReply? && l.reply == r) ==> r in q.replies)
    && (q.pc == Finished && p.pc != Finished && Asking(q.status) ==> l.StartQuery? || l.StartChallenge?)
  }

  lemma TasksStay(c: Config, i: Name, n: Node, l: Label)
    requires i in c.seedLists && LocalEnabled(c, i, n, l) && n.proc.Some? && NextNode(c, i, n, l).proc.Some?
    ensures KeepsTasks(l, n.proc.value, NextNode(c, i, n, l).proc.value)
  {
    if l.Handle? {
      HandleIsDispatch(c, i, n, l);
      DispatchTasks(c, i, n, n.proc.value, n.proc.value.loop.msg, n.proc.value.loop.seen, l.random);
    } else if SideStep(l) {
      SideTasks(c, i, n, l);
    } else {
      MainTasks(c, i, n, l);
    }
  }

  lemma SideTasks(c: Config, i: Name, n: Node, l: Label)
    requires i in c.seedLists && LocalEnabled(c, i, n, l) && n.proc.Some? && SideStep(l)
    requires NextNode(c, i, n, l).proc.Some?
    ensures KeepsTasks(l, n.proc.value, NextNode(c, i, n, l).proc.value)
  {
    if l.AskPeer? {
      AskOnly(n, n.proc.value, i, l.ok);
    } else if TaskStep(l) {
      SeedingTasks(c, i, n, l);
    }
  }

  lemma SeedingTasks(c: Config, i: Name, n: Node, l: Label)
    requires i in c.seedLists && LocalEnabled(c, i, n, l) && n.proc.Some? && SideStep(l) && TaskStep(l)
    requires NextNode(c, i, n, l).proc.Some?
    ensures KeepsTasks(l, n.proc.value, NextNode(c, i, n, l).proc.value)
  {
  }

  lemma MainTasks(c: Config, i: Name, n: Node, l: Label)
    requires i in c.seedLists && LocalEnabled(c, i, n, l) && n.proc.Some? && !SideStep(l) && !l.Handle?
    requires NextNode(c, i, n, l).proc.Some?
    ensures KeepsTasks(l, n.proc.value, NextNode(c, i, n, l).proc.value)
  {
  }

  lemma DispatchTasks(c: Config, i: Name, n: Node, p: Proc, m: Msg, seen: Status, random: Bytes)
    requires n.proc == Some(p) && Dispatch(c, i, n, p, m, seen, random).Step?
    ensures var n' := Dispatch(c, i, n, p, m, seen, random).node;
            && n'.proc.Some? && n'.proc.value.ask == p.ask && n'.proc.value.pc == p.pc
            && forall r :: r in p.replies ==> r in n'.proc.value.replies
  {
  }

  // ------------------------------------------------ one link after the other

  /** The step of the cluster, as the links see it. */
  ghost predicate Moves(c: Config, s: State, l: Label, s': State) {
    && ValidConfig(c) && HelpInv(c, s) && Enabled(c, s, l) && Helpful(l)
    && s'.nodes == s.nodes[l.i := NextNode(c, l.i, s.nodes[l.i], l)]
    && s'.net == (if l.Take? then s.net - multiset{l.msg} else s.net) + multiset(StepPosts(c, s, l))
    && s.ready <= s'.ready
  }

  /** READY nodes stay. */
  lemma PeerStays(c: Config, s: State, l: Label, s': State, j: Name)
    requires Moves(c, s, l, s') && j in s.ready
    ensures j in s'.ready && j in s'.nodes && IsReady(s'.nodes[j]) && s'.nodes[j].inc == s.nodes[j].inc
  {
    if l.i == j { ReadyGoesOn(c, s, l); }
  }

  lemma MessageStays(c: Config, s: State, l: Label, s': State, m: Msg)
    requires Moves(c, s, l, s') && m in s.net && !(l.Take? && l.msg == m)
    ensures m in s'.net
  {
  }

  lemma PostedIsThere(c: Config, s: State, l: Label, s': State, m: Msg)
    requires Moves(c, s, l, s') && m in StepPosts(c, s, l)
    ensures m in s'.net
  {
    assert m in multiset(StepPosts(c, s, l));
  }

  lemma AskGoesOut(c: Config, s: State, l: Label, s': State, i: Name, st: Status)
    requires Moves(c, s, l, s') && i in s.nodes && Asking(st) && Waits(s.nodes[i], st) && Waits(s'.nodes[i], st)
    requires AboutToAsk(s.ready, s.nodes[i].proc.value.ask, st)
    ensures UnderWay(s', i, st)
  {
    if l.i == i && l.AskPeer? {
      var p := s.nodes[i].proc.value;
      var m := AskedMessage(c, s, l, st);
      PeerStays(c, s, l, s', m.dst);
      PostedIsThere(c, s, l, s', m);
      assert QuestionSent(s', i, st, m);
    } else if l.i == i {
      NoNewAsk(c, s, l);
      TasksStay(c, i, s.nodes[i], l);
    }
  }

  /** A node that waits does not choose again. */
  lemma NoNewAsk(c: Config, s: State, l: Label)
    requires Enabled(c, s, l) && s.nodes[l.i].proc.Some? && s.nodes[l.i].proc.value.pc == Finished
    ensures !l.StartQuery? && !l.StartChallenge?
  {
  }

  lemma AskedMessage(c: Config, s: State, l: Label, st: Status) returns (m: Msg)
    requires Enabled(c, s, l) && l.AskPeer? && l.ok && s.nodes[l.i].proc.Some?
    requires AboutToAsk(s.ready, s.nodes[l.i].proc.value.ask, st)
    ensures m in StepPosts(c, s, l) && m.src == l.i && Asks(st, m.body)
    ensures m.dst in s.ready && m.dst in s.nodes && m.dstInc == s.nodes[m.dst].inc
  {
    var n := s.nodes[l.i];
    var st' := AskOne(n, n.proc.value, l.i, true);
    assert LocalStep(c, l.i, n, l) == st';
    m := Msg(l.i, n.inc, st'.out.dst, s.nodes[st'.out.dst].inc, st'.out.body);
  }

  lemma QuestionGoesOn(c: Config, s: State, l: Label, s': State, i: Name, st: Status, m: Msg)
    requires Moves(c, s, l, s') && i in s'.nodes && s'.nodes[i].proc.Some? && Asking(st) && QuestionSent(s, i, st, m)
    ensures UnderWay(s', i, st)
  {
    PeerStays(c, s, l, s', m.dst);
    if l.Take? && l.msg == m {
      TakenInTime(c, s, l);
      AskerLoop(c, l.i, s.nodes[l.i], l, st);
      assert QuestionRead(s', i, st, m.dst);
    } else {
      MessageStays(c, s, l, s', m);
      assert QuestionSent(s', i, st, m);
    }
  }

  lemma QuestionAnswered(c: Config, s: State, l: Label, s': State, i: Name, st: Status, j: Name)
    requires Moves(c, s, l, s') && i in s'.nodes && s'.nodes[i].proc.Some? && Asking(st) && QuestionRead(s, i, st, j)
    ensures UnderWay(s', i, st)
  {
    PeerStays(c, s, l, s', j);
    if l.i == j && l.Handle? {
      HandleIsDispatch(c, j, s.nodes[j], l);
      var r := ServedReply(c, s, j, s.nodes[j].proc.value.loop.msg, l.random, st);
      assert AnswerReady(s', i, st, j, r);
    } else {
      if l.i == j { AskerLoop(c, j, s.nodes[j], l, st); }
      assert QuestionRead(s', i, st, j);
    }
  }

  lemma ServedReply(c: Config, s: State, j: Name, m: Msg, random: Bytes, st: Status) returns (r: Reply)
    requires Inv(c, s) && j in s.nodes && s.nodes[j].proc.Some? && Asks(st, m.body)
    requires s.nodes[j].proc.value.loop == Got(m, Ready)
    ensures AnswersTo(r, m.src, st)
    ensures var d := Dispatch(c, j, s.nodes[j], s.nodes[j].proc.value, m, Ready, random);
            d.Step? && d.node.proc.Some? && r in d.node.proc.value.replies
  {
    ServingNeverPanics(c, s, j, m, random);
    r := QueuedReply(c, j, s.nodes[j], s.nodes[j].proc.value, m, random, st);
  }

  /** A READY process that handles a question without a panic queues an answer to it. */
  lemma QueuedReply(c: Config, j: Name, n: Node, p: Proc, m: Msg, random: Bytes, st: Status) returns (r: Reply)
    requires Asks(st, m.body) && Dispatch(c, j, n, p, m, Ready, random).Step?
    ensures AnswersTo(r, m.src, st)
    ensures var d := Dispatch(c, j, n, p, m, Ready, random); d.node.proc.Some? && r in d.node.proc.value.replies
  {
    var key := KeyStoreRead(n, p);
    if st == QueryKey {
      r := KeyReply(m.src, SecretKey(key).value);
    } else {
      r := ChallengeReply(m.src, Seal(c.suite, key, random, m.body.data).value);
    }
  }

  function KeyStoreRead(n: Node, p: Proc): Member
    requires KeyStore.ReadThrough(p.cache, n.disk).Some?
  {
    KeyStore.ReadThrough(p.cache, n.disk).value
  }

  lemma AnswerGoesOut(c: Config, s: State, l: Label, s': State, i: Name, st: Status, j: Name, r: Reply)
    requires Moves(c, s, l, s') && i in s.nodes && s.nodes[i].proc.Some? && s'.nodes[i].proc.Some? && Asking(st)
    requires s'.nodes[i].inc == s.nodes[i].inc && AnswerReady(s, i, st, j, r)
    ensures UnderWay(s', i, st)
  {
    PeerStays(c, s, l, s', j);
    if l.i == j && l.SendReply? && l.reply == r {
      var m := RepliedMessage(c, s, l, i, st);
      PostedIsThere(c, s, l, s', m);
      assert AnswerSent(s', i, st, m);
    } else {
      if l.i == j { TasksStay(c, j, s.nodes[j], l); }
      assert AnswerReady(s', i, st, j, r);
    }
  }

  lemma RepliedMessage(c: Config, s: State, l: Label, i: Name, st: Status) returns (m: Msg)
    requires Enabled(c, s, l) && l.SendReply? && l.ok && AnswersTo(l.reply, i, st)
    requires i in s.nodes && s.nodes[l.i].proc.Some?
    ensures m in StepPosts(c, s, l) && m.dst == i && m.dstInc == s.nodes[i].inc && Answers(st, m.body)
  {
    var n := s.nodes[l.i];
    assert LocalStep(c, l.i, n, l).out == ReplyOut(l.reply);
    m := Msg(l.i, n.inc, i, s.nodes[i].inc, ReplyOut(l.reply).body);
  }

  lemma AnswerArrives(c: Config, s: State, l: Label, s': State, i: Name, st: Status, m: Msg)
    requires Moves(c, s, l, s') && Asking(st) && AnswerSent(s, i, st, m)
    requires Waits(s.nodes[i], st) && Waits(s'.nodes[i], st)
    requires s'.nodes[i].inc == s.nodes[i].inc
    ensures UnderWay(s', i, st)
  {
    if l.Take? && l.msg == m {
      TakenByAddressee(c, s, l);
      AskerLoop(c, i, s.nodes[i], l, st);
      assert HoldsAnswer(s'.nodes[i].proc.value, st);
    } else {
      MessageStays(c, s, l, s', m);
      assert AnswerSent(s', i, st, m);
    }
  }

  lemma AnswerHeld(c: Config, s: State, l: Label, s': State, i: Name, st: Status)
    requires Moves(c, s, l, s') && i in s.nodes && Asking(st) && Waits(s.nodes[i], st) && Waits(s'.nodes[i], st)
    requires HoldsAnswer(s.nodes[i].proc.value, st)
    ensures UnderWay(s', i, st)
  {
    if l.i == i {
      assert NodeInv(c, s.sent, s.known, i, s.nodes[i]);
      AskerStep(c, s.sent, s.known, i, s.nodes[i], l, st);
    }
  }

  lemma KeepsWaiting(c: Config, s: State, l: Label, s': State, i: Name, st: Status)
    requires Moves(c, s, l, s') && i in s.nodes && Asking(st) && Waits(s.nodes[i], st) && Waits(s'.nodes[i], st)
    ensures UnderWay(s', i, st)
  {
    assert UnderWay(s, i, st);
    if l.i == i { AliveKeepsInc(c, i, s.nodes[i], l); }
    if AboutToAsk(s.ready, s.nodes[i].proc.value.ask, st) {
      AskGoesOut(c, s, l, s', i, st);
    } else if m :| QuestionSent(s, i, st, m) {
      QuestionGoesOn(c, s, l, s', i, st, m);
    } else if j :| QuestionRead(s, i, st, j) {
      QuestionAnswered(c, s, l, s', i, st, j);
    } else if j, r :| AnswerReady(s, i, st, j, r) {
      AnswerGoesOut(c, s, l, s', i, st, j, r);
    } else if m :| AnswerSent(s, i, st, m) {
      AnswerArrives(c, s, l, s', i, st, m);
    } else {
      AnswerHeld(c, s, l, s', i, st);
    }
  }

  // ---------------------------------------------------------- new questions

  /** Somebody in the view is READY, and it is not the node itself: there is a peer to ask. */
  lemma {:induction false} PeerToAsk(view: seq<Peer>, self: Name, ready: set<Name>)
    requires CanProvide(view) && self !in ready
    requires forall k :: 0 <= k < |view| && view[k].ready ==> view[k].name in ready
    ensures ReadyOthers(view, self) != [] && ReadyOthers(view, self)[0] in ready
  {
    if !view[0].ready {
      var k :| 0 <= k < |view| && view[k].ready;
      assert view[1..][k - 1].ready;
      PeerToAsk(view[1..], self, ready);
    }
  }

  /** Only choosing the peers makes a node wait. */
  lemma ChoosesLocally(c: Config, i: Name, n: Node, p: Proc, l: Label, st: Status)
    requires i in c.seedLists && n.proc == Some(p) && StartInv(c, i, n, p) && LocalEnabled(c, i, n, l) && Asking(st)
    requires !Waits(n, st) && Waits(NextNode(c, i, n, l), st)
    ensures (l.StartQuery? || l.StartChallenge?) && CanProvide(l.view) && !IsReady(n)
    ensures NextNode(c, i, n, l).proc.value.ask ==
            if st == QueryKey then AskKey(ReadyOthers(l.view, i)) else AskChallenge(ReadyOthers(l.view, i))
  {
    if SideStep(l) {
      SideStepFrame(c, i, n, l);
    } else if l.Handle? {
      HandleIsDispatch(c, i, n, l);
      DispatchStatus(c, i, n, p, p.loop.msg, p.loop.seen, l.random);
    }
  }

  lemma ViewIsSound(c: Config, s: State, l: Label)
    requires Enabled(c, s, l) && (l.StartQuery? || l.StartChallenge?)
    ensures ViewSound(s, l.view)
  {
  }

  lemma BeginsWaiting(c: Config, s: State, l: Label, s': State, i: Name, st: Status)
    requires Moves(c, s, l, s') && i in s.nodes && Asking(st) && !Waits(s.nodes[i], st) && Waits(s'.nodes[i], st)
    ensures UnderWay(s', i, st)
  {
    var n := s.nodes[i];
    assert l.i == i;
    IncGrows(c, i, n, l);
    assert NodeInv(c, s.sent, s.known, i, n);
    ChoosesLocally(c, i, n, n.proc.value, l, st);
    ViewIsSound(c, s, l);
    PeerToAsk(l.view, i, s.ready);
    assert AboutToAsk(s'.ready, s'.nodes[i].proc.value.ask, st);
  }

  // ------------------------------------------------------------------ results

  lemma HelpStep(c: Config, s: State, l: Label)
    requires ValidConfig(c) && HelpInv(c, s) && Enabled(c, s, l) && Helpful(l)
    ensures HelpInv(c, Apply(c, s, l))
  {
    var s' := Apply(c, s, l);
    StepInv(c, s, l);
    HelpMoves(c, s, l);
    ReadySame(c, s, l, s');
    forall i, st | i in s'.nodes && Asking(st) && Waits(s'.nodes[i], st) ensures UnderWay(s', i, st) {
      StillWaiting(c, s, l, s', i, st);
    }
  }

  lemma HelpMoves(c: Config, s: State, l: Label)
    requires ValidConfig(c) && HelpInv(c, s) && Enabled(c, s, l) && Helpful(l)
    ensures var s' := Apply(c, s, l);
            Moves(c, s, l, s') && s'.ready == if IsReady(s'.nodes[l.i]) then s.ready + {l.i} else s.ready
  {
    ApplyShape(c, s, l, Apply(c, s, l), NextNode(c, l.i, s.nodes[l.i], l), StepPosts(c, s, l));
    NetAfter(c, s, l);
  }

  lemma ReadySame(c: Config, s: State, l: Label, s': State)
    requires Moves(c, s, l, s') && s'.ready == if IsReady(s'.nodes[l.i]) then s.ready + {l.i} else s.ready
    ensures forall j :: j in s'.ready ==> j in s'.nodes && IsReady(s'.nodes[j])
    ensures forall j :: j in s'.nodes && IsReady(s'.nodes[j]) ==> j in s'.ready
  {
    forall j | j in s'.ready ensures j in s'.nodes && IsReady(s'.nodes[j]) {
      if j in s.ready { PeerStays(c, s, l, s', j); }
    }
  }

  lemma StillWaiting(c: Config, s: State, l: Label, s': State, i: Name, st: Status)
    requires Moves(c, s, l, s') && i in s'.nodes && Asking(st) && Waits(s'.nodes[i], st)
    ensures UnderWay(s', i, st)
  {
    if Waits(s.nodes[i], st) { KeepsWaiting(c, s, l, s', i, st); } else { BeginsWaiting(c, s, l, s', i, st); }
  }

  lemma {:induction false} HelpRun(c: Config, ls: seq<Label>)
    requires ValidConfig(c) && HelpfulRun(ls) && Exec(c, ls).Some?
    ensures HelpInv(c, Exec(c, ls).value)
  {
    if ls == [] {
      InitInv(c);
    } else {
      var front := ls[..|ls| - 1];
      assert forall k :: 0 <= k < |front| ==> front[k] == ls[k];
      LastIsEnabled(c, ls);
      HelpRun(c, front);
      HelpStep(c, Exec(c, front).value, ls[|ls| - 1]);
    }
  }

  predicate AtEase(p: Proc) {
    p.loop == Idle && p.ask == NoAsk && p.replies == multiset{}
  }

  /** No question and no answer is waiting anywhere. */
  ghost predicate NothingPending(s: State) {
    && (forall j :: j in s.nodes && s.nodes[j].proc.Some? ==> AtEase(s.nodes[j].proc.value))
    && (forall m :: m in s.net && m.dst in s.nodes && s.nodes[m.dst].proc.Some? ==> m.dstInc != s.nodes[m.dst].inc)
  }

  /**
   * When nobody crashes and no question or answer fails, everyone who asked is served: in a settled state no
   * process is in QUERY_KEY, and none is in VALIDATING but those that have found no READY member to ask.
   */
  lemma AskersAreServed(c: Config, ls: seq<Label>, i: Name)
    requires ValidConfig(c) && HelpfulRun(ls) && Exec(c, ls).Some? && NothingPending(Exec(c, ls).value) && i in c.names
    ensures var s := Exec(c, ls).value;
            && i in s.nodes
            && (s.nodes[i].proc.Some? ==>
                  && s.nodes[i].proc.value.status != QueryKey
                  && (s.nodes[i].proc.value.status == Validating ==> s.nodes[i].proc.value.pc == AwaitPeer))
  {
    HelpRun(c, ls);
    var s := Exec(c, ls).value;
    NobodyWaits(c, s, i, QueryKey);
    NobodyWaits(c, s, i, Validating);
    assert NodeInv(c, s.sent, s.known, i, s.nodes[i]);
  }

  lemma NobodyWaits(c: Config, s: State, i: Name, st: Status)
    requires HelpInv(c, s) && NothingPending(s) && i in s.nodes && Asking(st)
    ensures !Waits(s.nodes[i], st)
  {
    if s.nodes[i].proc.Some? {
      NothingUnderWay(s, i, st);
    }
  }

  lemma NothingUnderWay(s: State, i: Name, st: Status)
    requires NothingPending(s) && i in s.nodes && s.nodes[i].proc.Some?
    requires forall j :: j in s.ready ==> j in s.nodes && IsReady(s.nodes[j])
    ensures !UnderWay(s, i, st)
  {
    forall m ensures !QuestionSent(s, i, st, m) {}
    forall j ensures !QuestionRead(s, i, st, j) {}
    forall j, r ensures !AnswerReady(s, i, st, j, r) {}
    forall m ensures !AnswerSent(s, i, st, m) {}
  }

  /** So every joiner gets the key: a process that has been in QUERY_KEY is READY. */
  lemma JoinersComplete(c: Config, ls: seq<Label>, i: Name)
    requires ValidConfig(c) && HelpfulRun(ls) && Exec(c, ls).Some? && NothingPending(Exec(c, ls).value) && i in c.names
    requires i in Exec(c, ls).value.nodes && Exec(c, ls).value.nodes[i].proc.Some?
    requires WasIn(c, ls, i, Exec(c, ls).value.nodes[i].inc, QueryKey)
    ensures IsReady(Exec(c, ls).value.nodes[i])
  {
    AskersAreServed(c, ls, i);
    ReadyIffAnswered(c, ls, i, QueryKey);
  }

  // ------------------------------------------------------- a question is lost

  ghost predicate Reaches(c: Config, ls: seq<Label>, s: State) {
    Exec(c, ls) == Some(s) && NoCrash(ls)
  }

  /** Only node i has changed, and no message was sent or taken. */
  predicate Becomes(s: State, s': State, i: Name, n': Node) {
    && s'.nodes == s.nodes[i := n'] && s'.net == s.net
    && s'.ready == if IsReady(n') then s.ready + {i} else s.ready
  }

  lemma Compose(s: State, s1: State, s2: State, i: Name, n1: Node, n2: Node)
    requires Becomes(s, s1, i, n1) && Becomes(s1, s2, i, n2) && !IsReady(n1)
    ensures Becomes(s, s2, i, n2)
  {
    assert s.nodes[i := n1][i := n2] == s.nodes[i := n2];
  }

  lemma Quietly(c: Config, ls: seq<Label>, s: State, l: Label, n': Node) returns (ls': seq<Label>, s': State)
    requires Reaches(c, ls, s) && l.i in s.nodes && l.i in c.seedLists && ViewOf(s, l) && !l.Take? && !l.Crash?
    requires LocalEnabled(c, l.i, s.nodes[l.i], l) && LocalStep(c, l.i, s.nodes[l.i], l) == Step(n', Silent)
    ensures Reaches(c, ls', s') && Becomes(s, s', l.i, n')
  {
    ls', s' := ls + [l], Apply(c, s, l);
    assert ls'[..|ls'| - 1] == ls;
    ApplyShape(c, s, l, s', n', {});
    NetAfter(c, s, l);
    assert s.net + multiset({}) == s.net;
  }

  lemma Boots(c: Config, ls: seq<Label>, s: State, i: Name) returns (ls': seq<Label>, s': State, n': Node)
    requires Reaches(c, ls, s) && i in s.nodes && i in c.seedLists && s.nodes[i].proc.None?
    ensures Reaches(c, ls', s') && Becomes(s, s', i, n')
    ensures n' == s.nodes[i].(inc := s.nodes[i].inc + 1, proc := Some(FreshProc(Others(c, i))))
  {
    n' := s.nodes[i].(inc := s.nodes[i].inc + 1, proc := Some(FreshProc(Others(c, i))));
    ls', s' := Quietly(c, ls, s, Boot(i), n');
  }

  /** At the beginning of `Start`. */
  ghost predicate Booted(c: Config, i: Name, n: Node) {
    i in c.seedLists && n.proc == Some(FreshProc(Others(c, i)))
  }

  lemma ReadsFile(c: Config, ls: seq<Label>, s: State, i: Name) returns (ls': seq<Label>, s': State, n': Node)
    requires Reaches(c, ls, s) && i in s.nodes && Booted(c, i, s.nodes[i]) && i in c.seedLists[i]
    requires s.nodes[i].disk.Some?
    ensures Reaches(c, ls', s') && Becomes(s, s', i, n') && n'.proc.Some?
    ensures n'.proc.value == FreshProc(Others(c, i)).(cache := s.nodes[i].disk, pc := OwnKey)
  {
    n' := s.nodes[i].(proc := Some(FreshProc(Others(c, i)).(cache := s.nodes[i].disk, pc := OwnKey)));
    ls', s' := Quietly(c, ls, s, StartRead(i), n');
  }

  lemma FindsNoFile(c: Config, ls: seq<Label>, s: State, i: Name) returns (ls': seq<Label>, s': State, n': Node)
    requires Reaches(c, ls, s) && i in s.nodes && Booted(c, i, s.nodes[i]) && s.nodes[i].disk.None?
    ensures Reaches(c, ls', s') && Becomes(s, s', i, n')
    ensures n'.proc == Some(FreshProc(Others(c, i)).(pc := NoKeyBegin))
  {
    n' := s.nodes[i].(proc := Some(FreshProc(Others(c, i)).(pc := NoKeyBegin)));
    ls', s' := Quietly(c, ls, s, StartRead(i), n');
  }

  lemma UsesOwnKey(c: Config, ls: seq<Label>, s: State, i: Name, p: Proc)
    returns (ls': seq<Label>, s': State, n': Node)
    requires Reaches(c, ls, s) && i in s.nodes && i in c.seedLists && s.nodes[i].proc == Some(p) && p.pc == OwnKey
    requires AtEase(p)
    ensures Reaches(c, ls', s') && Becomes(s, s', i, n') && IsReady(n') && AtEase(n'.proc.value)
  {
    n' := s.nodes[i].(proc := Some(SetStatus(p, Ready).(pc := Finished)));
    ls', s' := Quietly(c, ls, s, OwnKeyReady(i), n');
  }

  /** In NO_KEY, at the head of the loop. */
  predicate Looking(n: Node) {
    n.proc.Some? && n.proc.value.status == NoKey && n.proc.value.pc == NoKeyLoop && AtEase(n.proc.value)
  }

  lemma Looks(c: Config, ls: seq<Label>, s: State, i: Name, p: Proc) returns (ls': seq<Label>, s': State, n': Node)
    requires Reaches(c, ls, s) && i in s.nodes && i in c.seedLists && s.nodes[i].proc == Some(p) && p.pc == NoKeyBegin
    requires AtEase(p)
    ensures Reaches(c, ls', s') && Becomes(s, s', i, n') && Looking(n')
  {
    n' := s.nodes[i].(proc := Some(SetStatus(p, NoKey).(pc := NoKeyLoop)));
    ls', s' := Quietly(c, ls, s, EnterNoKey(i), n');
  }

  lemma SeesPeer(c: Config, ls: seq<Label>, s: State, i: Name, z: Name)
    returns (ls': seq<Label>, s': State, n': Node)
    requires Reaches(c, ls, s) && i in s.nodes && i in c.seedLists && Looking(s.nodes[i]) && i != z && z in s.ready
    ensures Reaches(c, ls', s') && Becomes(s, s', i, n') && n'.proc.Some?
    ensures var p := n'.proc.value;
            && p.status == QueryKey && AtEase(p.(ask := NoAsk)) && p.ask.AskKey? && p.ask.peers != []
  {
    var view := [Peer(z, true)];
    assert view[0].ready;
    var p := SetStatus(s.nodes[i].proc.value, QueryKey).(pc := Finished, ask := AskKey(ReadyOthers(view, i)));
    n' := s.nodes[i].(proc := Some(p));
    ls', s' := Quietly(c, ls, s, StartQuery(i, view), n');
  }

  lemma AsksInVain(c: Config, ls: seq<Label>, s: State, i: Name, p: Proc)
    returns (ls': seq<Label>, s': State, n': Node)
    requires Reaches(c, ls, s) && i in s.nodes && i in c.seedLists && s.nodes[i].proc == Some(p)
    requires p.ask.AskKey? && p.ask.peers != []
    ensures Reaches(c, ls', s') && Becomes(s, s', i, n') && n' == s.nodes[i].(proc := Some(p.(ask := NoAsk)))
  {
    n' := s.nodes[i].(proc := Some(p.(ask := NoAsk)));
    ls', s' := Quietly(c, ls, s, AskPeer(i, false), n');
  }

  /** A seed with a file becomes READY. */
  lemma SeedStarts(c: Config, ls: seq<Label>, s: State, z: Name) returns (ls': seq<Label>, s': State, n': Node)
    requires Reaches(c, ls, s) && z in s.nodes && z in c.seedLists && z in c.seedLists[z]
    requires s.nodes[z].proc.None? && s.nodes[z].disk.Some?
    ensures Reaches(c, ls', s') && Becomes(s, s', z, n') && IsReady(n') && AtEase(n'.proc.value)
  {
    var ls1, s1, n1 := Boots(c, ls, s, z);
    var ls2, s2, n2 := ReadsFile(c, ls1, s1, z);
    Compose(s, s1, s2, z, n1, n2);
    ls', s', n' := UsesOwnKey(c, ls2, s2, z, n2.proc.value);
    Compose(s, s2, s', z, n2, n');
  }

  /** A node without a file asks the READY peer it sees, and the send fails. */
  lemma JoinerAsks(c: Config, ls: seq<Label>, s: State, i: Name, z: Name)
    returns (ls': seq<Label>, s': State, n': Node)
    requires Reaches(c, ls, s) && i in s.nodes && i in c.seedLists && i != z && z in s.ready
    requires s.nodes[i].proc.None? && s.nodes[i].disk.None?
    ensures Reaches(c, ls', s') && Becomes(s, s', i, n')
    ensures RunsIn(n', n'.inc, QueryKey) && AtEase(n'.proc.value)
  {
    var ls1, s1, n1 := Boots(c, ls, s, i);
    var ls2, s2, n2 := FindsNoFile(c, ls1, s1, i);
    Compose(s, s1, s2, i, n1, n2);
    var ls3, s3, n3 := Looks(c, ls2, s2, i, n2.proc.value);
    Compose(s, s2, s3, i, n2, n3);
    var ls4, s4, n4 := SeesPeer(c, ls3, s3, i, z);
    Compose(s, s3, s4, i, n3, n4);
    ls', s', n' := AsksInVain(c, ls4, s4, i, n4.proc.value);
    Compose(s, s4, s', i, n4, n');
  }

  /** Only i and z run, they are at ease, and no message is under way. */
  lemma TwoAtEase(c: Config, s: State, z: Name, nz: Node, i: Name, ni: Node)
    requires s.nodes == Init(c).nodes[z := nz][i := ni] && s.net == multiset{}
    requires nz.proc.Some? && AtEase(nz.proc.value) && ni.proc.Some? && AtEase(ni.proc.value)
    ensures NothingPending(s)
  {
    forall j | j in s.nodes && s.nodes[j].proc.Some? ensures AtEase(s.nodes[j].proc.value) {
      assert j == i || j == z;
    }
  }

  /**
   * A joiner asks one peer once. If that one send fails, everything is at rest and the joiner is left in
   * QUERY_KEY, although a READY node is there.
   */
  lemma LostQuestionStrandsJoiner(c: Config, seeds: set<Name>, z: Name, i: Name) returns (ls: seq<Label>)
    requires ValidConfig(c) && CommonSeeds(c, seeds) && z in seeds && z in c.preset && i in c.names && i !in c.preset
    ensures Exec(c, ls).Some? && NoCrash(ls) && NothingPending(Exec(c, ls).value)
    ensures var s := Exec(c, ls).value;
            && i in s.nodes && z in s.nodes && IsReady(s.nodes[z])
            && RunsIn(s.nodes[i], s.nodes[i].inc, QueryKey)
  {
    var ls1, s1, nz := SeedStarts(c, [], Init(c), z);
    var s2, ni;
    ls, s2, ni := JoinerAsks(c, ls1, s1, i, z);
    assert s2.nodes == Init(c).nodes[z := nz][i := ni];
    TwoAtEase(c, s2, z, nz, i, ni);
  }
}
