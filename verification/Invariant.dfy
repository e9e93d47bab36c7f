/**
 * What every step of the protocol keeps, in all runs: any crashes, any initial files, any choice of
 * masters, any seed lists. A node's part speaks about the node alone, the messages ever sent and the
 * keys ever completed, both of which only grow.
 */
module Invariant {
  import opened Basics
  import opened Vault
  import opened Protocol
  import Seed
  import KeyStore

  /** Node `j` sent key `k` to incarnation `inc` of `i`. */
  ghost predicate Heard(sent: set<Msg>, j: Name, i: Name, inc: nat, k: Bytes) {
    exists m :: m in sent && m.src == j && m.dst == i && m.dstInc == inc && m.body == KeyInit(k)
  }

  ghost predicate AllHeard(c: Config, sent: set<Msg>, i: Name, inc: nat, k: Bytes)
    requires i in c.seedLists
  {
    forall j :: j in Others(c, i) ==> Heard(sent, j, i, inc, k)
  }

  // ------------------------------------------------------------ node by node

  /** `k` is the key in the node's file. */
  ghost predicate Holds(i: Name, n: Node, k: Bytes) {
    |k| == KEY_SIZE && n.disk == Some(FileFor(i, k))
  }

  ghost predicate HoldsKnown(known: set<Bytes>, i: Name, n: Node) {
    exists k :: k in known && Holds(i, n, k)
  }

  ghost predicate FixedInv(c: Config, i: Name, n: Node) {
    && (forall x :: x in n.fixed ==> x <= n.inc && |n.fixed[x]| == KEY_SIZE)
    && (n.fixed != map[] ==> IsSeed(c, i))
    && (i in c.preset ==> n.fixed == map[] && n.won.None? && Holds(i, n, c.preset[i]))
  }

  ghost predicate WonInv(c: Config, sent: set<Msg>, known: set<Bytes>, i: Name, n: Node)
    requires i in c.seedLists
  {
    n.won.Some? ==>
      var Won(inc, k) := n.won.value;
      && inc in n.fixed && n.fixed[inc] == k && k in known
      && (forall x :: x in n.fixed ==> x <= inc)
      && Holds(i, n, k)
      && AllHeard(c, sent, i, inc, k)
  }

  /** The state follows a fixed graph, and the file exists exactly from VALIDATING or READY on. */
  ghost predicate StartInv(c: Config, i: Name, n: Node, p: Proc) {
    && n.inc >= 1
    && (match p.pc
        case AtStart => p.status == Booting && p.loop == Idle
        case OwnKey => p.status == Booting && n.disk.Some?
        case Validate => p.status == Booting && n.disk.Some?
        case NoKeyBegin => p.status == Booting && n.disk.None?
        case NoKeyLoop => p.status == NoKey
        case AwaitPeer => p.status == Validating || p.status == Ready
        case Finished => p.status == Seeding || p.status == QueryKey || p.status == Validating || p.status == Ready)
    && (p.status == Validating || p.status == Ready ==> n.disk.Some?)
    && (p.status == NoKey || p.status == Seeding || p.status == QueryKey ==> n.disk.None?)
  }

  /** Nothing of the seeding has begun in this process. */
  ghost predicate Dormant(c: Config, i: Name, n: Node, p: Proc)
    requires i in c.seedLists
  {
    && p.seed == Seed.Fresh(Others(c, i)) && p.status != Seeding
    && n.inc !in n.fixed && NoTasks(p)
  }

  /** A slave that has not received a key yet. */
  ghost predicate Waiting(c: Config, i: Name, n: Node, p: Proc)
    requires i in c.seedLists
  {
    && p.seed == Seed.StartSlave(Seed.Fresh(Others(c, i)), p.seed.members) && p.status == Seeding
    && i !in p.seed.members
    && n.inc !in n.fixed && NoTasks(p) && IsSeed(c, i)
  }

  ghost predicate NoTasks(p: Proc) {
    && p.lock == Unlocked && p.initial == NoInitial && p.forwards == multiset{} && p.cleanups == 0
    && !p.loop.Complete?
  }

  ghost predicate EveryoneHeard(c: Config, i: Name, r: Seed.Record)
    requires i in c.seedLists
  {
    Others(c, i) != [] && forall j :: j in Others(c, i) ==> Seed.ReceivedFrom(r, j)
  }

  /** The key is fixed: the record is complete or wiped, and all work in progress carries that key. */
  ghost predicate Active(c: Config, sent: set<Msg>, i: Name, n: Node, p: Proc)
    requires i in c.seedLists
  {
    && n.inc in n.fixed && (p.status == Seeding || p.status == Ready)
    && var k := n.fixed[n.inc];
       && RecordInv(c, sent, i, n.inc, k, p.seed)
       && (forall x :: x in p.forwards ==> x == k)
       && (!p.initial.NoInitial? ==> p.initial.key == k)
       && (p.initial.Sending? ==> i !in p.initial.rest)
       && LockInv(k, p)
       && (p.forwards != multiset{} || p.cleanups > 0 || p.lock.Forwarding? ==> Others(c, i) != [])
       && (p.cleanups > 0 ==> p.seed == Seed.Wiped() || p.seed.exchange.Keys == ToSet(Others(c, i)))
       && (p.loop.Complete? ==> p.status == Seeding && p.loop.key == k && AllHeard(c, sent, i, n.inc, k))
       && (p.seed == Seed.Wiped() || EveryoneHeard(c, i, p.seed) ==> p.loop.Complete? || p.status == Ready)
  }

  ghost predicate RecordInv(c: Config, sent: set<Msg>, i: Name, inc: nat, k: Bytes, r: Seed.Record)
    requires i in c.seedLists
  {
    || r == Seed.Wiped()
    || (&& r.generatedKey == k && r.others == Others(c, i)
        && r.exchange.Keys <= ToSet(Others(c, i)) && i !in r.members
        && (forall j :: Seed.ReceivedFrom(r, j) ==> Heard(sent, j, i, inc, k)))
  }

  /** The task holding the lock has given an entry to every peer it has passed. */
  ghost predicate LockInv(k: Bytes, p: Proc) {
    p.lock.Forwarding? ==>
      var others, rest := p.seed.others, p.lock.rest;
      && p.lock.key == k
      && |rest| <= |others| && rest == others[|others| - |rest|..]
      && (forall x :: 0 <= x < |others| - |rest| ==> others[x] in p.seed.exchange)
  }

  ghost predicate SeedInv(c: Config, sent: set<Msg>, i: Name, n: Node, p: Proc)
    requires i in c.seedLists
  {
    Dormant(c, i, n, p) || Waiting(c, i, n, p) || Active(c, sent, i, n, p)
  }

  /** A state on which the loop acts: only the loop itself can leave it. */
  predicate Acting(st: Status) {
    st == Seeding || st == Validating || st == QueryKey || st == Ready
  }

  ghost predicate LoopInv(sent: set<Msg>, i: Name, n: Node, p: Proc) {
    p.loop.Got? ==>
      && p.loop.msg in sent && p.loop.msg.dst == i && p.loop.msg.dstInc == n.inc
      && (Acting(p.loop.seen) ==> p.status == p.loop.seen)
  }

  ghost predicate BoxOf(c: Config, k: Bytes, to: Name, box: Bytes) {
    exists r :: box == c.suite.seal(k, r, to)
  }

  ghost predicate ReplyUses(c: Config, k: Bytes, r: Reply) {
    match r
    case KeyReply(_, x) => x == k
    case ChallengeReply(to, box) => BoxOf(c, k, to, box)
  }

  ghost predicate ReplyInv(c: Config, known: set<Bytes>, i: Name, n: Node, r: Reply) {
    exists k :: k in known && Holds(i, n, k) && ReplyUses(c, k, r)
  }

  /** How many notifications a state can have behind it. */
  function Depth(st: Status): nat {
    match st
    case Booting => 0
    case NoKey => 1
    case Validating => 1
    case Seeding => 2
    case QueryKey => 2
    case Ready => 3
  }

  ghost predicate NotifyInv(n: Node, p: Proc) {
    && |p.notes| <= Depth(p.status)
    && (Ready in p.notes || p.latched || p.server.Built? ==> p.status == Ready)
    && (p.server.Built? ==> p.server.vault == n.disk && n.disk.Some?)
  }

  ghost predicate ProcInv(c: Config, sent: set<Msg>, known: set<Bytes>, i: Name, n: Node, p: Proc)
    requires i in c.seedLists
  {
    && StartInv(c, i, n, p)
    && KeyStore.Coherent(p.cache, n.disk)
    && SeedInv(c, sent, i, n, p)
    && LoopInv(sent, i, n, p)
    && (forall r :: r in p.replies ==> ReplyInv(c, known, i, n, r))
    && NotifyInv(n, p)
  }

  ghost predicate NodeInv(c: Config, sent: set<Msg>, known: set<Bytes>, i: Name, n: Node)
    requires i in c.seedLists
  {
    && FixedInv(c, i, n)
    && (n.disk.Some? ==> HoldsKnown(known, i, n))
    && WonInv(c, sent, known, i, n)
    && (n.proc.Some? ==> ProcInv(c, sent, known, i, n, n.proc.value))
  }

  // ----------------------------------------------------------------- cluster

  ghost predicate MsgFacts(known: set<Bytes>, m: Msg) {
    match m.body
    case KeyInit(k) => |k| == KEY_SIZE
    case KeyQuery => true
    case KeyResp(k) => k in known && |k| == KEY_SIZE
    case Challenge(d) => d == m.src
    case ChallengeResp(_) => true
  }

  /** What the sender's node knows for certain about a message of its own. */
  ghost predicate SenderFacts(c: Config, i: Name, n: Node, inc: nat, dst: Name, body: Body) {
    match body
    case KeyInit(k) => IsSeed(c, i) && inc in n.fixed && n.fixed[inc] == k && dst != i
    case KeyQuery => true
    case KeyResp(k) => Holds(i, n, k)
    case Challenge(_) => true
    case ChallengeResp(box) => exists k :: Holds(i, n, k) && BoxOf(c, k, dst, box)
  }

  ghost predicate SentInv(c: Config, s: State, m: Msg) {
    && m.src in s.nodes && m.dst in s.nodes
    && m.srcInc <= s.nodes[m.src].inc && 1 <= m.dstInc <= s.nodes[m.dst].inc
    && MsgFacts(s.known, m)
    && SenderFacts(c, m.src, s.nodes[m.src], m.srcInc, m.dst, m.body)
  }

  /** Two nodes' incarnations advance together: of two messages between them, one is later on both sides. */
  predicate Ordered(m: Msg, m': Msg) {
    m.src == m'.dst && m.dst == m'.src ==>
      || (m.srcInc <= m'.dstInc && m.dstInc <= m'.srcInc)
      || (m.srcInc >= m'.dstInc && m.dstInc >= m'.srcInc)
  }

  ghost predicate KnownInv(c: Config, s: State, k: Bytes) {
    |k| == KEY_SIZE && (k in c.preset.Values || exists j :: j in s.nodes && k in WonKeys(s.nodes[j]))
  }

  ghost predicate Inv(c: Config, s: State) {
    && s.nodes.Keys == c.names
    && (forall i :: i in s.nodes ==> i in c.seedLists && NodeInv(c, s.sent, s.known, i, s.nodes[i]))
    && (forall m :: m in s.net ==> m in s.sent)
    && (forall m :: m in s.sent ==> SentInv(c, s, m))
    && (forall m, m' :: m in s.sent && m' in s.sent ==> Ordered(m, m'))
    && (forall k :: k in s.known ==> KnownInv(c, s, k))
    && (forall i :: i in s.ready ==> i in s.nodes && s.nodes[i].disk.Some?)
  }

  // ------------------------------------------------------------ preservation

  /** What no step takes away from a node. */
  ghost predicate Grows(n: Node, n': Node) {
    && n.inc <= n'.inc
    && (forall x :: x in n.fixed ==> x in n'.fixed && n'.fixed[x] == n.fixed[x])
    && (n.disk.Some? ==> n'.disk == n.disk)
    && (n.won.Some? ==> n'.won == n.won)
  }

  lemma HeardGrows(c: Config, sent: set<Msg>, sent': set<Msg>, i: Name, inc: nat, k: Bytes)
    requires i in c.seedLists && sent <= sent' && AllHeard(c, sent, i, inc, k)
    ensures AllHeard(c, sent', i, inc, k)
  {
    forall j | j in Others(c, i) ensures Heard(sent', j, i, inc, k) {
      var m :| m in sent && m.src == j && m.dst == i && m.dstInc == inc && m.body == KeyInit(k);
      assert m in sent';
    }
  }

  lemma RecordGrows(c: Config, sent: set<Msg>, sent': set<Msg>, i: Name, inc: nat, k: Bytes, r: Seed.Record)
    requires i in c.seedLists && sent <= sent' && RecordInv(c, sent, i, inc, k, r)
    ensures RecordInv(c, sent', i, inc, k, r)
  {
    if r != Seed.Wiped() {
      forall j | Seed.ReceivedFrom(r, j) ensures Heard(sent', j, i, inc, k) {
        var m :| m in sent && m.src == j && m.dst == i && m.dstInc == inc && m.body == KeyInit(k);
        assert m in sent';
      }
    }
  }

  /** A node that does not move keeps its part when messages and completed keys are added. */
  lemma NodeInvGrows(c: Config, sent: set<Msg>, known: set<Bytes>, sent': set<Msg>, known': set<Bytes>, i: Name,
                     n: Node)
    requires i in c.seedLists && sent <= sent' && known <= known'
    requires NodeInv(c, sent, known, i, n)
    ensures NodeInv(c, sent', known', i, n)
  {
    if n.disk.Some? {
      var k :| k in known && Holds(i, n, k);
      assert k in known';
    }
    if n.won.Some? { HeardGrows(c, sent, sent', i, n.won.value.inc, n.won.value.key); }
    if n.proc.Some? {
      var p := n.proc.value;
      if Active(c, sent, i, n, p) {
        RecordGrows(c, sent, sent', i, n.inc, n.fixed[n.inc], p.seed);
        if p.loop.Complete? { HeardGrows(c, sent, sent', i, n.inc, n.fixed[n.inc]); }
        assert Active(c, sent', i, n, p);
      }
      forall r | r in p.replies ensures ReplyInv(c, known', i, n, r) {
        assert ReplyInv(c, known, i, n, r);
      }
    }
  }
}
