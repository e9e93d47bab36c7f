/**
 * The master-key protocol as a transition system. One label is one atomic piece of one thread of
 * one node: the thread of `Start`, the message loop, the notifier, the bootstrap thread, or a
 * background task. A process may crash between any two steps; its file survives, everything else
 * is lost, and a message reaches only the incarnation that was running when it was sent.
 *
 * `fixed`, `won`, `sent`, `known` and `ready` are history: no step reads them, except that gossip may
 * report a node as READY only if it has been READY before.
 */
module Protocol {
  import opened Basics
  import opened Vault
  import opened Names
  import Seed
  import KeyStore

  datatype Status = Booting | NoKey | Seeding | Validating | QueryKey | Ready

  datatype Body =
    | KeyInit(key: Bytes)
    | KeyQuery
    | KeyResp(key: Bytes)
    | Challenge(data: Bytes)
    | ChallengeResp(box: Bytes)

  datatype Msg = Msg(src: Name, srcInc: nat, dst: Name, dstInc: nat, body: Body)

  /** Where the thread of `Start` is. */
  datatype StartPc = AtStart | OwnKey | Validate | AwaitPeer | NoKeyBegin | NoKeyLoop | Finished

  /** The message loop: waiting, holding a message and the state it read, or completing a seeding. */
  datatype LoopPc = Idle | Got(msg: Msg, seen: Status) | Complete(key: Bytes)

  /** The goroutine that sends the fresh key to everybody; it looks up the members when it starts. */
  datatype Initial = NoInitial | Spawned(key: Bytes) | Sending(key: Bytes, rest: seq<Name>)

  /** The forwarding task that holds the seed lock. */
  datatype Forwarding = Unlocked | Forwarding(key: Bytes, rest: seq<Name>)

  datatype Ask = NoAsk | AskKey(peers: seq<Name>) | AskChallenge(peers: seq<Name>)

  datatype Reply = KeyReply(to: Name, key: Bytes) | ChallengeReply(to: Name, box: Bytes)

  datatype Server = NotBuilt | Built(vault: Option<Member>)

  datatype Proc = Proc(
    pc: StartPc,
    status: Status,
    loop: LoopPc,
    seed: Seed.Record,
    lock: Forwarding,
    initial: Initial,
    forwards: multiset<Bytes>,
    cleanups: nat,
    ask: Ask,
    replies: multiset<Reply>,
    cache: Option<Member>,
    notes: seq<Status>,
    latched: bool,
    server: Server)

  datatype Won = Won(inc: nat, key: Bytes)

  datatype Node = Node(inc: nat, disk: Option<Member>, proc: Option<Proc>, fixed: map<nat, Bytes>, won: Option<Won>)

  /** A gossip member as a node sees it; `ready` is its last known state being READY. */
  datatype Peer = Peer(name: Name, ready: bool)

  datatype Label =
    | Boot(i: Name)
    | Crash(i: Name)
    | StartRead(i: Name)
    | OwnKeyReady(i: Name)
    | EnterValidating(i: Name)
    | EnterNoKey(i: Name)
    | StartQuery(i: Name, view: seq<Peer>)
    | StartSeed(i: Name, view: seq<Peer>, members: seq<Name>, key: Bytes, master: bool)
    | StartChallenge(i: Name, view: seq<Peer>)
    | AskPeer(i: Name, ok: bool)
    | InitialStart(i: Name)
    | InitialPeer(i: Name, ok: bool)
    | ForwardStart(i: Name, key: Bytes)
    | ForwardPeer(i: Name, ok: bool)
    | ForwardStop(i: Name)
    | RunCleanup(i: Name)
    | Take(i: Name, msg: Msg)
    | Handle(i: Name, random: Bytes)
    | Finish(i: Name)
    | SendReply(i: Name, reply: Reply, ok: bool)
    | ReadStore(i: Name)
    | Notify(i: Name)
    | BuildServer(i: Name)

  /**
   * `seedLists` is SEED_NODES as each node has it, `preset` the keys on disk before the first start.
   * Without `election` any seed may act as master, not only the first in order.
   */
  datatype Config = Config(
    suite: Suite,
    names: set<Name>,
    seedLists: map<Name, set<Name>>,
    preset: map<Name, Bytes>,
    election: bool)

  ghost predicate ValidConfig(c: Config) {
    && [] !in c.names
    && c.seedLists.Keys == c.names
    && (forall i :: i in c.names ==> [] !in c.seedLists[i])
    && c.preset.Keys <= c.names
    && (forall i :: i in c.preset ==> |c.preset[i]| == KEY_SIZE)
  }

  ghost predicate IsSeed(c: Config, i: Name) {
    i in c.seedLists && i in c.seedLists[i]
  }

  ghost function Others(c: Config, i: Name): seq<Name>
    requires i in c.seedLists
  {
    OtherSeeds(c.seedLists[i], i)
  }

  // ---------------------------------------------------------------- helpers

  function SetStatus(p: Proc, st: Status): Proc {
    p.(status := st, notes := p.notes + [st])
  }

  predicate CanProvide(view: seq<Peer>) {
    exists k :: 0 <= k < |view| && view[k].ready
  }

  /** The peers asked, in member order: READY and not the node itself. */
  function ReadyOthers(view: seq<Peer>, self: Name): seq<Name> {
    if view == [] then []
    else (if view[0].ready && view[0].name != self then [view[0].name] else []) + ReadyOthers(view[1..], self)
  }

  predicate Listed(view: seq<Peer>, x: Name) {
    exists k :: 0 <= k < |view| && view[k].name == x
  }

  function Without(members: seq<Name>, self: Name): seq<Name> {
    if members == [] then []
    else (if members[0] != self then [members[0]] else []) + Without(members[1..], self)
  }

  function FreshProc(others: seq<Name>): Proc {
    Proc(AtStart, Booting, Idle, Seed.Fresh(others), Unlocked, NoInitial, multiset{}, 0, NoAsk, multiset{},
         None, [], false, NotBuilt)
  }

  datatype Out = Silent | Send(dst: Name, body: Body)

  datatype Step = Step(node: Node, out: Out) | Panic(reason: PanicReason)

  datatype PanicReason = UnknownSender | WrongSize | Mismatch | NoLocalKey | BadSecret | BadBox | WrongId

  function Quiet(n: Node, p: Proc): Step {
    Step(n.(proc := Some(p)), Silent)
  }

  // ---------------------------------------------------------- message loop

  /** `handleSeedKey` up to the return of `keyReceived`. */
  function HandleSeedKey(n: Node, p: Proc, k: Bytes, sender: Name): Step {
    match Seed.KeyReceived(p.seed, k, sender)
    case UnknownSender => Panic(UnknownSender)
    case WrongSize => Panic(WrongSize)
    case Mismatch => Panic(Mismatch)
    case Accepted(r, completed, forward) =>
      var fixed := if p.seed.generatedKey == Seed.DUMMY_KEY then n.fixed[n.inc := k] else n.fixed;
      var p' := p.(
        seed := r,
        forwards := if forward then p.forwards + multiset{k} else p.forwards,
        loop := if completed != [] then Complete(completed) else Idle);
      Step(n.(proc := Some(p'), fixed := fixed), Silent)
  }

  function HandleQueryKey(n: Node, p: Proc, sender: Name): Step {
    match KeyStore.ReadThrough(p.cache, n.disk)
    case None => Panic(NoLocalKey)
    case Some(m) =>
      match SecretKey(m)
      case None => Panic(BadSecret)
      case Some(k) => Quiet(n, p.(cache := Some(m), loop := Idle, replies := p.replies + multiset{KeyReply(sender, k)}))
  }

  function HandleKeyResponse(n: Node, p: Proc, i: Name, k: Bytes): Step {
    Step(n.(disk := Some(FileFor(i, k)), proc := Some(SetStatus(p.(loop := Idle), Ready))), Silent)
  }

  function HandleChallenge(c: Config, n: Node, p: Proc, data: Bytes, sender: Name, random: Bytes): Step {
    match KeyStore.ReadThrough(p.cache, n.disk)
    case None => Panic(NoLocalKey)
    case Some(m) =>
      match Seal(c.suite, m, random, data)
      case Err(_) => Panic(BadSecret)
      case Ok(box) => Quiet(n,
          p.(cache := Some(m), loop := Idle, replies := p.replies + multiset{ChallengeReply(sender, box)}))
  }

  function HandleChallengeResponse(c: Config, n: Node, p: Proc, box: Bytes): Step {
    match KeyStore.ReadThrough(p.cache, n.disk)
    case None => Panic(NoLocalKey)
    case Some(m) =>
      match Unseal(c.suite, m, box)
      case Err(_) => Panic(BadBox)
      case Ok(d) => if d != m.id then Panic(WrongId) else Quiet(n, SetStatus(p.(cache := Some(m), loop := Idle), Ready))
  }

  /** Dispatch on the state the loop has read; every other combination drops the message. */
  function Dispatch(c: Config, i: Name, n: Node, p: Proc, m: Msg, seen: Status, random: Bytes): Step {
    match (seen, m.body)
    case (Seeding, KeyInit(k)) => HandleSeedKey(n, p, k, m.src)
    case (Ready, KeyQuery) => HandleQueryKey(n, p, m.src)
    case (Ready, Challenge(d)) => HandleChallenge(c, n, p, d, m.src, random)
    case (Validating, ChallengeResp(b)) => HandleChallengeResponse(c, n, p, b)
    case (QueryKey, KeyResp(k)) => HandleKeyResponse(n, p, i, k)
    case _ => Quiet(n, p.(loop := Idle))
  }

  /** The rest of `handleSeedKey`, once every other seed has sent the key. */
  function CompleteSeeding(n: Node, p: Proc, i: Name, k: Bytes): Step {
    Step(n.(disk := Some(FileFor(i, k)), won := Some(Won(n.inc, k)),
            proc := Some(SetStatus(p.(loop := Idle), Ready))), Silent)
  }

  // ----------------------------------------------------------- Start thread

  function AfterRead(c: Config, i: Name, m: Option<Member>): StartPc
    requires i in c.seedLists
  {
    if m.None? then NoKeyBegin else if i in c.seedLists[i] then OwnKey else Validate
  }

  /** `Node.seed`: enter SEEDING and start as master or as slave. */
  function BeginSeeding(n: Node, p: Proc, i: Name, members: seq<Name>, key: Bytes, master: bool): Step {
    var q := SetStatus(p, Seeding).(pc := Finished);
    var peers := Without(members, i);
    if master then
      Step(n.(proc := Some(q.(seed := Seed.StartMaster(p.seed, key, peers), initial := Spawned(key))),
              fixed := n.fixed[n.inc := key]), Silent)
    else
      Quiet(n, q.(seed := Seed.StartSlave(p.seed, peers)))
  }

  function AskOne(n: Node, p: Proc, i: Name, ok: bool): Step {
    match p.ask
    case AskKey(peers) =>
      var q := p.(ask := NoAsk);
      if peers == [] || !ok then Quiet(n, q) else Step(n.(proc := Some(q)), Send(peers[0], KeyQuery))
    case AskChallenge(peers) =>
      if peers == [] then Quiet(n, p.(ask := NoAsk))
      else if !ok then Quiet(n, p.(ask := AskChallenge(peers[1..])))
      else Step(n.(proc := Some(p.(ask := NoAsk))), Send(peers[0], Challenge(i)))
    case NoAsk => Quiet(n, p)
  }

  // ------------------------------------------------------- background tasks

  function SendInitial(n: Node, p: Proc, ok: bool): Step
    requires p.initial.Sending? && p.initial.rest != []
  {
    var Sending(k, rest) := p.initial;
    var q := p.(initial := Sending(k, rest[1..]));
    if ok then Step(n.(proc := Some(q)), Send(rest[0], KeyInit(k))) else Quiet(n, q)
  }

  function ForwardNext(n: Node, p: Proc, ok: bool): Step
    requires p.lock.Forwarding? && p.lock.rest != []
  {
    var Forwarding(k, rest) := p.lock;
    var sent := ok && Seed.Attempts(p.seed, rest[0]);
    var q := p.(seed := Seed.ForwardOne(p.seed, rest[0], sent), lock := Forwarding(k, rest[1..]));
    if sent then Step(n.(proc := Some(q)), Send(rest[0], KeyInit(k))) else Quiet(n, q)
  }

  function ReplyOut(r: Reply): Out {
    match r
    case KeyReply(to, k) => Send(to, KeyResp(k))
    case ChallengeReply(to, b) => Send(to, ChallengeResp(b))
  }

  /** The notifier hands one queued state to the listener, whose latch opens on the first READY. */
  function NotifyOne(p: Proc): Proc
    requires p.notes != []
  {
    p.(notes := p.notes[1..], latched := p.latched || p.notes[0] == Ready)
  }

  // --------------------------------------------------------------- one node

  ghost predicate ProcEnabled(c: Config, i: Name, n: Node, p: Proc, l: Label)
    requires i in c.seedLists
  {
    match l
    case Boot(_) => false
    case Crash(_) => true
    case StartRead(_) => p.pc.AtStart?
    case OwnKeyReady(_) => p.pc.OwnKey?
    case EnterValidating(_) => p.pc.Validate?
    case EnterNoKey(_) => p.pc.NoKeyBegin?
    case StartQuery(_, view) => p.pc.NoKeyLoop? && CanProvide(view)
    case StartSeed(_, view, members, key, master) =>
      && p.pc.NoKeyLoop? && !CanProvide(view) && p.lock.Unlocked?
      && i in c.seedLists[i] && (forall x :: x in c.seedLists[i] ==> Listed(view, x))
      && NoDup(members) && |key| == KEY_SIZE
      && i != [] && (c.election ==> master == (Elected(i, p.seed.others) == i))
    case StartChallenge(_, view) => p.pc.AwaitPeer? && CanProvide(view)
    case AskPeer(_, _) => !p.ask.NoAsk?
    case InitialStart(_) => p.initial.Spawned?
    case InitialPeer(_, _) => p.initial.Sending? && p.initial.rest != []
    case ForwardStart(_, k) => p.lock.Unlocked? && k in p.forwards
    case ForwardPeer(_, _) => p.lock.Forwarding? && p.lock.rest != []
    case ForwardStop(_) => p.lock.Forwarding? && p.lock.rest == []
    case RunCleanup(_) => p.lock.Unlocked? && p.cleanups > 0
    case Take(_, m) => p.loop.Idle? && !p.pc.AtStart? && m.dst == i && m.dstInc == n.inc
    case Handle(_, _) => p.loop.Got? && (p.loop.seen.Seeding? && p.loop.msg.body.KeyInit? ==> p.lock.Unlocked?)
    case Finish(_) => p.loop.Complete?
    case SendReply(_, r, _) => r in p.replies
    case ReadStore(_) => true
    case Notify(_) => p.notes != []
    case BuildServer(_) => p.latched && p.server.NotBuilt?
  }

  ghost function ProcStep(c: Config, i: Name, n: Node, p: Proc, l: Label): Step
    requires i in c.seedLists && ProcEnabled(c, i, n, p, l)
  {
    match l
    case Crash(_) => Step(n.(proc := None), Silent)
    case StartRead(_) =>
      var m := KeyStore.ReadThrough(p.cache, n.disk);
      Quiet(n, p.(cache := m, pc := AfterRead(c, i, m)))
    case OwnKeyReady(_) => Quiet(n, SetStatus(p, Ready).(pc := Finished))
    case EnterValidating(_) => Quiet(n, SetStatus(p, Validating).(pc := AwaitPeer))
    case EnterNoKey(_) => Quiet(n, SetStatus(p, NoKey).(pc := NoKeyLoop))
    case StartQuery(_, view) => Quiet(n, SetStatus(p, QueryKey).(pc := Finished, ask := AskKey(ReadyOthers(view, i))))
    case StartSeed(_, _, members, key, master) => BeginSeeding(n, p, i, members, key, master)
    case StartChallenge(_, view) => Quiet(n, p.(pc := Finished, ask := AskChallenge(ReadyOthers(view, i))))
    case AskPeer(_, ok) => AskOne(n, p, i, ok)
    case InitialStart(_) => Quiet(n, p.(initial := Sending(p.initial.key, p.seed.members)))
    case InitialPeer(_, ok) => SendInitial(n, p, ok)
    case ForwardStart(_, k) => Quiet(n, p.(forwards := p.forwards - multiset{k}, lock := Forwarding(k, p.seed.others)))
    case ForwardPeer(_, ok) => ForwardNext(n, p, ok)
    case ForwardStop(_) => Quiet(n, p.(lock := Unlocked, cleanups := p.cleanups + 1))
    case RunCleanup(_) => Quiet(n, p.(seed := Seed.Cleanup(p.seed), cleanups := p.cleanups - 1))
    case Take(_, m) => Quiet(n, p.(loop := Got(m, p.status)))
    case Handle(_, random) => Dispatch(c, i, n, p, p.loop.msg, p.loop.seen, random)
    case Finish(_) => CompleteSeeding(n, p, i, p.loop.key)
    case SendReply(_, r, ok) =>
      var q := p.(replies := p.replies - multiset{r});
      if ok then Step(n.(proc := Some(q)), ReplyOut(r)) else Quiet(n, q)
    case ReadStore(_) => Quiet(n, p.(cache := KeyStore.ReadThrough(p.cache, n.disk)))
    case Notify(_) => Quiet(n, NotifyOne(p))
    case BuildServer(_) =>
      var m := KeyStore.ReadThrough(p.cache, n.disk);
      Quiet(n, p.(cache := m, server := Built(m)))
  }

  ghost predicate LocalEnabled(c: Config, i: Name, n: Node, l: Label)
    requires i in c.seedLists
  {
    if n.proc.None? then l.Boot? else ProcEnabled(c, i, n, n.proc.value, l)
  }

  ghost function LocalStep(c: Config, i: Name, n: Node, l: Label): Step
    requires i in c.seedLists && LocalEnabled(c, i, n, l)
  {
    if n.proc.None? then Step(n.(inc := n.inc + 1, proc := Some(FreshProc(Others(c, i)))), Silent)
    else ProcStep(c, i, n, n.proc.value, l)
  }

  /** What a panic leaves behind: the process is gone, the file stays. */
  function After(n: Node, st: Step): Node {
    if st.Step? then st.node else n.(proc := None)
  }

  ghost function NextNode(c: Config, i: Name, n: Node, l: Label): Node
    requires i in c.seedLists && LocalEnabled(c, i, n, l)
  {
    After(n, LocalStep(c, i, n, l))
  }

  // ------------------------------------------------------------ the cluster

  datatype State = State(nodes: map<Name, Node>, net: multiset<Msg>, sent: set<Msg>, known: set<Bytes>,
                         ready: set<Name>)

  ghost function Init(c: Config): State {
    State(
      map i | i in c.names :: Node(0, if i in c.preset then Some(FileFor(i, c.preset[i])) else None, None, map[], None),
      multiset{}, {}, c.preset.Values, {})
  }

  /** Gossip is stale but not wrong: a peer seen as READY has been READY. */
  predicate ViewSound(s: State, view: seq<Peer>) {
    forall k :: 0 <= k < |view| && view[k].ready ==> view[k].name in s.ready
  }

  predicate ViewOf(s: State, l: Label) {
    match l
    case StartQuery(_, view) => ViewSound(s, view)
    case StartSeed(_, view, _, _, _) => ViewSound(s, view)
    case StartChallenge(_, view) => ViewSound(s, view)
    case _ => true
  }

  ghost predicate Enabled(c: Config, s: State, l: Label) {
    && l.i in s.nodes && l.i in c.seedLists
    && LocalEnabled(c, l.i, s.nodes[l.i], l)
    && (l.Take? ==> l.msg in s.net)
    && ViewOf(s, l)
    && var st := LocalStep(c, l.i, s.nodes[l.i], l);
       st.Step? && st.out.Send? ==> st.out.dst in s.nodes && s.nodes[st.out.dst].proc.Some?
  }

  ghost function Posted(s: State, i: Name, st: Step): set<Msg>
    requires i in s.nodes
  {
    if st.Step? && st.out.Send? && st.out.dst in s.nodes
    then {Msg(i, s.nodes[i].inc, st.out.dst, s.nodes[st.out.dst].inc, st.out.body)}
    else {}
  }

  ghost function WonKeys(n: Node): set<Bytes> {
    if n.won.Some? then {n.won.value.key} else {}
  }

  predicate IsReady(n: Node) {
    n.proc.Some? && n.proc.value.status == Ready
  }

  ghost function Apply(c: Config, s: State, l: Label): State
    requires Enabled(c, s, l)
  {
    var n := s.nodes[l.i];
    var st := LocalStep(c, l.i, n, l);
    var n' := NextNode(c, l.i, n, l);
    var posted := Posted(s, l.i, st);
    State(
      s.nodes[l.i := n'],
      (if l.Take? then s.net - multiset{l.msg} else s.net) + multiset(posted),
      s.sent + posted,
      s.known + WonKeys(n'),
      if IsReady(n') then s.ready + {l.i} else s.ready)
  }

  /** The state after a run, if every label of the run was enabled when it was taken. */
  ghost function Exec(c: Config, ls: seq<Label>): Option<State> {
    if ls == [] then Some(Init(c))
    else
      var last := ls[|ls| - 1];
      match Exec(c, ls[..|ls| - 1])
      case None => None
      case Some(s) => if Enabled(c, s, last) then Some(Apply(c, s, last)) else None
  }

  /** The step panics instead of completing. */
  ghost predicate Panicking(c: Config, s: State, l: Label) {
    Enabled(c, s, l) && LocalStep(c, l.i, s.nodes[l.i], l).Panic?
  }
}
