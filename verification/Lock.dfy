/**
 * The certificate lock: `CertStorage.Lock` and `Unlock` over the commands of the key-value store, which
 * run one at a time but interleave freely between sessions. A session is one caller of `Lock` and
 * `Unlock`; several of them may run on the same node.
 */
module Lock {
  import opened Basics
  import opened Vault
  import Hex

  const LOCK_TTL_SECONDS := 300

  datatype Meta = Meta(size: nat, modTime: int)

  /** A hash in the store with its fields and its time to live; `maker` is history, the session that set `data`. */
  datatype Entry = Entry(data: Option<Bytes>, meta: Option<Meta>, expires: Option<int>, maker: nat)

  type Store = map<string, Entry>

  // ----------------------------------------------------------- the commands

  predicate Present(st: Store, key: string) {
    key in st && st[key].data.Some?
  }

  /** HSETNX on the field `data`: it succeeds only when the field is absent. */
  function HSetNX(st: Store, key: string, box: Bytes, maker: nat): Store {
    if Present(st, key) then st
    else if key in st then st[key := st[key].(data := Some(box), maker := maker)]
    else st[key := Entry(Some(box), None, None, maker)]
  }

  /** HSET on the other fields; it creates the hash when it is missing. */
  function HSet(st: Store, key: string, meta: Meta, maker: nat): Store {
    if key in st then st[key := st[key].(meta := Some(meta))] else st[key := Entry(None, Some(meta), None, maker)]
  }

  function Expire(st: Store, key: string, at: int): Store {
    if key in st then st[key := st[key].(expires := Some(at))] else st
  }

  function HGet(st: Store, key: string): Option<Bytes> {
    if key in st then st[key].data else None
  }

  function Del(st: Store, key: string): Store {
    st - {key}
  }

  predicate Expired(e: Entry, now: int) {
    e.expires.Some? && e.expires.value < now
  }

  /** What is left of the store at time `now`. */
  function Purge(st: Store, now: int): Store {
    map key | key in st && !Expired(st[key], now) :: st[key]
  }

  // ----------------------------------------------------------- the sessions

  /** Where a session is in `Lock`, `WriteNX`, `Unlock`; `held` is history, whether the caller held the lock. */
  datatype Pc =
    | Idle
    | Trying(key: string)
    | Waiting(key: string)
    | Claimed(key: string, size: nat)
    | Stamped(key: string)
    | Holding(key: string)
    | Unlocking(key: string, held: bool)
    | Deleting(key: string, held: bool)

  datatype Session = Session(node: Name, vault: Option<Member>, pc: Pc)

  /** A command is answered, fails before it reaches the store, or is carried out without an answer. */
  datatype Net = Answered | NotSent | NotAnswered

  datatype Label =
    | CallLock(i: nat, key: string)
    | TryNX(i: nat, random: Bytes, net: Net)
    | Retry(i: nat)
    | Cancel(i: nat)
    | WriteMeta(i: nat, modTime: int, net: Net)
    | WriteExpiry(i: nat, net: Net)
    | CallUnlock(i: nat, key: string)
    | ReadOwner(i: nat, net: Net)
    | DeleteEntry(i: nat, net: Net)
    | Advance(now: int)

  datatype State = State(sessions: map<nat, Session>, store: Store, now: int)

  predicate Enabled(s: State, l: Label) {
    if l.Advance? then s.now <= l.now else
    l.i in s.sessions &&
    match l
    case CallLock(i, key) => s.sessions[i].pc.Idle?
    case TryNX(i, _, _) => s.sessions[i].pc.Trying?
    case Retry(i) => s.sessions[i].pc.Waiting?
    case Cancel(i) => s.sessions[i].pc.Waiting?
    case WriteMeta(i, _, _) => s.sessions[i].pc.Claimed?
    case WriteExpiry(i, _) => s.sessions[i].pc.Stamped?
    case CallUnlock(i, key) => s.sessions[i].pc.Idle? || s.sessions[i].pc == Holding(key)
    case ReadOwner(i, _) => s.sessions[i].pc.Unlocking?
    case DeleteEntry(i, _) => s.sessions[i].pc.Deleting?
  }

  /** The first command of `WriteNX`, and where it leaves its session. */
  function Claim(suite: Suite, st: Store, i: nat, x: Session, random: Bytes, net: Net): (Store, Pc)
    requires x.pc.Trying?
  {
    match (if x.vault.None? then Err("no encryption service") else Seal(suite, x.vault.value, random, x.node))
    case Err(_) => (st, Idle)
    case Ok(box) =>
      match net
      case NotSent => (st, Idle)
      case NotAnswered => (HSetNX(st, x.pc.key, box, i), Idle)
      case Answered =>
        (HSetNX(st, x.pc.key, box, i), if Present(st, x.pc.key) then Waiting(x.pc.key) else Claimed(x.pc.key, |box|))
  }

  /** What `Unlock` decides when it has read the entry. */
  function Decide(suite: Suite, st: Store, x: Session, net: Net): Pc
    requires x.pc.Unlocking?
  {
    match HGet(st, x.pc.key)
    case None => Idle
    case Some(box) =>
      if !net.Answered? || x.vault.None? || Unseal(suite, x.vault.value, box) != Ok(x.node) then Idle
      else Deleting(x.pc.key, x.pc.held)
  }

  function Move(s: State, i: nat, pc: Pc, st: Store): State
    requires i in s.sessions
  {
    State(s.sessions[i := s.sessions[i].(pc := pc)], st, s.now)
  }

  function Next(suite: Suite, s: State, l: Label): State
    requires Enabled(s, l)
  {
    match l
    case CallLock(i, key) => Move(s, i, Trying(key), s.store)
    case TryNX(i, random, net) =>
      var (st, pc) := Claim(suite, s.store, i, s.sessions[i], random, net);
      Move(s, i, pc, st)
    case Retry(i) => Move(s, i, Trying(s.sessions[i].pc.key), s.store)
    case Cancel(i) => Move(s, i, Idle, s.store)
    case WriteMeta(i, modTime, net) =>
      var Claimed(key, size) := s.sessions[i].pc;
      Move(s, i, if net.Answered? then Stamped(key) else Idle,
           if net.NotSent? then s.store else HSet(s.store, key, Meta(size, modTime), i))
    case WriteExpiry(i, net) =>
      var key := s.sessions[i].pc.key;
      Move(s, i, if net.Answered? then Holding(key) else Idle,
           if net.NotSent? then s.store else Expire(s.store, key, s.now + LOCK_TTL_SECONDS))
    case CallUnlock(i, key) => Move(s, i, Unlocking(key, s.sessions[i].pc == Holding(key)), s.store)
    case ReadOwner(i, net) => Move(s, i, Decide(suite, s.store, s.sessions[i], net), s.store)
    case DeleteEntry(i, net) => Move(s, i, Idle, if net.NotSent? then s.store else Del(s.store, s.sessions[i].pc.key))
    case Advance(now) => State(s.sessions, Purge(s.store, now), now)
  }

  function Exec(suite: Suite, s0: State, ls: seq<Label>): Option<State> {
    if ls == [] then Some(s0)
    else
      match Exec(suite, s0, ls[..|ls| - 1])
      case None => None
      case Some(s) => if Enabled(s, ls[|ls| - 1]) then Some(Next(suite, s, ls[|ls| - 1])) else None
  }

  predicate Start(s: State) {
    s.store == map[] && forall i :: i in s.sessions ==> s.sessions[i].pc == Idle
  }

  // ---------------------------------------------------------------- eviction

  /** From the successful HSETNX of its `Lock` to the end of its `Unlock` a session uses its lock. */
  predicate Using(x: Session, key: string) {
    match x.pc
    case Claimed(k, _) => k == key
    case Stamped(k) => k == key
    case Holding(k) => k == key
    case Unlocking(k, held) => k == key && held
    case Deleting(k, held) => k == key && held
    case _ => false
  }

  /** The step takes the entry at `key` out of the store: its lease lapses, or a delete reaches the store. */
  predicate Removes(s: State, l: Label, key: string) {
    match l
    case Advance(now) => key in s.store && Expired(s.store[key], now)
    case DeleteEntry(i, net) =>
      key in s.store && !net.NotSent? && i in s.sessions && s.sessions[i].pc.Deleting? && s.sessions[i].pc.key == key
    case _ => false
  }

  predicate EvictsFrom(s: State, l: Label, i: nat, key: string) {
    i in s.sessions && Using(s.sessions[i], key) && Removes(s, l, key) && (l.Advance? || l.i != i)
  }

  /** The step takes away the entry of a session that still uses it. */
  ghost predicate Evicts(s: State, l: Label) {
    exists i, key :: EvictsFrom(s, l, i, key)
  }

  ghost predicate NoEviction(suite: Suite, s0: State, ls: seq<Label>) {
    ls != [] ==>
      var front := ls[..|ls| - 1];
      && NoEviction(suite, s0, front)
      && (Exec(suite, s0, front).Some? ==> !Evicts(Exec(suite, s0, front).value, ls[|ls| - 1]))
  }

  ghost predicate MadeBy(suite: Suite, x: Session, box: Bytes, random: Bytes) {
    x.vault.Some? && Seal(suite, x.vault.value, random, x.node) == Ok(box)
  }

  /** The entry of the lock carries the data of session `i`. */
  ghost predicate Owned(suite: Suite, s: State, i: nat, key: string)
    requires i in s.sessions
  {
    && Present(s.store, key) && s.store[key].maker == i
    && exists random :: MadeBy(suite, s.sessions[i], s.store[key].data.value, random)
  }

  /** Whoever uses a lock has the entry. */
  ghost predicate Held(suite: Suite, s: State) {
    forall i, key :: i in s.sessions && Using(s.sessions[i], key) ==> Owned(suite, s, i, key)
  }

  /** At most one session uses each lock. */
  ghost predicate Exclusive(s: State) {
    forall i, j, key :: i in s.sessions && j in s.sessions && Using(s.sessions[i], key) && Using(s.sessions[j], key) ==>
      i == j
  }

  lemma HeldIsExclusive(suite: Suite, s: State)
    requires Held(suite, s)
    ensures Exclusive(s)
  {
    forall i, j, key | i in s.sessions && j in s.sessions && Using(s.sessions[i], key) && Using(s.sessions[j], key)
      ensures i == j
    {
      assert Owned(suite, s, i, key) && Owned(suite, s, j, key);
    }
  }

  /** Unless it is evicted, an entry in use is touched by its own session only. */
  lemma UsedEntryStays(suite: Suite, s: State, l: Label, i: nat, key: string)
    requires Held(suite, s) && Enabled(s, l) && !EvictsFrom(s, l, i, key)
    requires i in s.sessions && Using(s.sessions[i], key) && (l.Advance? || l.i != i)
    ensures var s' := Next(suite, s, l);
            i in s'.sessions && s'.sessions[i] == s.sessions[i] && key in s'.store && s'.store[key] == s.store[key]
  {
    assert Owned(suite, s, i, key);
    if !l.Advance? {
      assert forall k :: Using(s.sessions[l.i], k) ==> Owned(suite, s, l.i, k);
      assert !Using(s.sessions[l.i], key);
    }
  }

  lemma OwnEntry(suite: Suite, s: State, l: Label, key: string)
    requires Held(suite, s) && Enabled(s, l) && !l.Advance? && Using(Next(suite, s, l).sessions[l.i], key)
    ensures Owned(suite, Next(suite, s, l), l.i, key)
  {
    var x, s' := s.sessions[l.i], Next(suite, s, l);
    if l.TryNX? {
      assert MadeBy(suite, s'.sessions[l.i], s'.store[key].data.value, l.random);
    } else {
      assert Using(x, key);
      assert Owned(suite, s, l.i, key);
      var random :| MadeBy(suite, x, s.store[key].data.value, random);
      assert MadeBy(suite, s'.sessions[l.i], s'.store[key].data.value, random);
    }
  }

  /** What an evicting step leaves: the session still uses the lock and the entry is gone. */
  lemma EvictedEntryIsGone(suite: Suite, s: State, l: Label, i: nat, key: string)
    requires Enabled(s, l) && EvictsFrom(s, l, i, key)
    ensures var s' := Next(suite, s, l);
            i in s'.sessions && s'.sessions[i] == s.sessions[i] && key !in s'.store
  {
  }

  /** From a state in which all users have their entries, a step keeps that if and only if it does not evict. */
  lemma HeldIffNoEviction(suite: Suite, s: State, l: Label)
    requires Held(suite, s) && Enabled(s, l)
    ensures Held(suite, Next(suite, s, l)) <==> !Evicts(s, l)
  {
    var s' := Next(suite, s, l);
    if i, key :| EvictsFrom(s, l, i, key) {
      EvictedEntryIsGone(suite, s, l, i, key);
      assert !Owned(suite, s', i, key);
    } else {
      forall i, key | i in s'.sessions && Using(s'.sessions[i], key) ensures Owned(suite, s', i, key) {
        if !l.Advance? && l.i == i {
          OwnEntry(suite, s, l, key);
        } else {
          assert Owned(suite, s, i, key);
          UsedEntryStays(suite, s, l, i, key);
        }
      }
    }
  }

  lemma {:induction false} HeldRun(suite: Suite, s0: State, ls: seq<Label>)
    requires Start(s0) && NoEviction(suite, s0, ls) && Exec(suite, s0, ls).Some?
    ensures Held(suite, Exec(suite, s0, ls).value)
  {
    if ls != [] {
      HeldRun(suite, s0, ls[..|ls| - 1]);
      HeldIffNoEviction(suite, Exec(suite, s0, ls[..|ls| - 1]).value, ls[|ls| - 1]);
    }
  }

  // ------------------------------------------------------------ main results

  /** Over every run in which no entry in use is evicted, at most one session uses a given lock. */
  lemma MutualExclusion(suite: Suite, s0: State, ls: seq<Label>)
    requires Start(s0) && NoEviction(suite, s0, ls) && Exec(suite, s0, ls).Some?
    ensures Exclusive(Exec(suite, s0, ls).value)
  {
    HeldRun(suite, s0, ls);
    HeldIsExclusive(suite, Exec(suite, s0, ls).value);
  }

  /**
   * An `Unlock` that evicts nobody removes an entry that no other session uses; a holder removes the entry
   * of its own `Lock`.
   */
  lemma UnlockRemovesOwnEntry(suite: Suite, s0: State, ls: seq<Label>, l: Label, key: string)
    requires Start(s0) && NoEviction(suite, s0, ls) && Exec(suite, s0, ls).Some?
    requires Enabled(Exec(suite, s0, ls).value, l) && l.DeleteEntry? && !Evicts(Exec(suite, s0, ls).value, l)
    requires key in Exec(suite, s0, ls).value.store && key !in Next(suite, Exec(suite, s0, ls).value, l).store
    ensures var s := Exec(suite, s0, ls).value;
            && (s.sessions[l.i].pc.held ==> s.store[key].maker == l.i)
            && forall j :: j in s.sessions && j != l.i ==> !Using(s.sessions[j], key)
  {
    HeldRun(suite, s0, ls);
    var s := Exec(suite, s0, ls).value;
    assert Removes(s, l, key);
    assert forall j :: j in s.sessions && j != l.i ==> !EvictsFrom(s, l, j, key);
    if s.sessions[l.i].pc.held { assert Owned(suite, s, l.i, key); }
  }

  /** When the store answers, the holder's `Unlock` goes on to delete its entry. */
  lemma HolderUnlockDeletes(suite: Suite, s0: State, ls: seq<Label>, l: Label)
    requires Ideal(suite) && Start(s0) && NoEviction(suite, s0, ls) && Exec(suite, s0, ls).Some?
    requires Enabled(Exec(suite, s0, ls).value, l)
    requires l.ReadOwner? && l.net.Answered? && Exec(suite, s0, ls).value.sessions[l.i].pc.held
    ensures var s := Exec(suite, s0, ls).value;
            Next(suite, s, l).sessions[l.i].pc == Deleting(s.sessions[l.i].pc.key, true)
  {
    HeldRun(suite, s0, ls);
    var s := Exec(suite, s0, ls).value;
    var x := s.sessions[l.i];
    assert Using(x, x.pc.key);
    assert Owned(suite, s, l.i, x.pc.key);
    var random :| MadeBy(suite, x, s.store[x.pc.key].data.value, random);
  }

  /** An `Unlock` of another node, called without holding, does nothing to a lock in use. */
  lemma ForeignUnlockHarmless(suite: Suite, s0: State, ls: seq<Label>, l: Label, j: nat, key: string)
    requires Ideal(suite) && Start(s0) && NoEviction(suite, s0, ls) && Exec(suite, s0, ls).Some?
    requires Enabled(Exec(suite, s0, ls).value, l)
    requires var s := Exec(suite, s0, ls).value;
             && l.ReadOwner? && s.sessions[l.i].pc == Unlocking(key, false)
             && j in s.sessions && Using(s.sessions[j], key) && !SameOwner(s.sessions[l.i], s.sessions[j])
    ensures Next(suite, Exec(suite, s0, ls).value, l).sessions[l.i].pc == Idle
  {
    HeldRun(suite, s0, ls);
    var s := Exec(suite, s0, ls).value;
    assert Owned(suite, s, j, key);
    var random :| MadeBy(suite, s.sessions[j], s.store[key].data.value, random);
    if Opens(suite, s.sessions[l.i], s.store[key].data.value) {
      OpensIsSameOwner(suite, s.sessions[l.i], s.sessions[j], s.store[key].data.value, random);
    }
  }

  // ------------------------------------------------- the condition is exact

  /** Session `i` takes the lock without a failure. */
  function Locks(i: nat, key: string): seq<Label> {
    [CallLock(i, key), TryNX(i, [], Answered), WriteMeta(i, 0, Answered), WriteExpiry(i, Answered)]
  }

  lemma {:induction false} ExecAppend(suite: Suite, s0: State, ls: seq<Label>, l: Label)
    requires Exec(suite, s0, ls).Some? && Enabled(Exec(suite, s0, ls).value, l)
    ensures Exec(suite, s0, ls + [l]) == Some(Next(suite, Exec(suite, s0, ls).value, l))
  {
    assert (ls + [l])[..|ls|] == ls;
  }

  /** A session that finds no entry gets the lock with its own name in it. */
  lemma LocksFree(suite: Suite, s0: State, ls: seq<Label>, i: nat, key: string, k: Bytes)
    returns (ls': seq<Label>, s': State)
    requires |k| == KEY_SIZE && Exec(suite, s0, ls).Some?
    requires var s := Exec(suite, s0, ls).value;
             && i in s.sessions && s.sessions[i].pc == Idle
             && s.sessions[i].vault == Some(FileFor(s.sessions[i].node, k)) && key !in s.store
    ensures ls' == ls + Locks(i, key) && Exec(suite, s0, ls') == Some(s')
    ensures var s := Exec(suite, s0, ls).value;
            var box := suite.seal(k, [], s.sessions[i].node);
            s' == Move(s, i, Holding(key),
                s.store[key := Entry(Some(box), Some(Meta(|box|, 0)), Some(s.now + LOCK_TTL_SECONDS), i)])
  {
    var s := Exec(suite, s0, ls).value;
    Hex.RoundTrip(k);
    var l := Locks(i, key);
    ExecAppend(suite, s0, ls, l[0]);
    ExecAppend(suite, s0, ls + [l[0]], l[1]);
    ExecAppend(suite, s0, ls + [l[0]] + [l[1]], l[2]);
    ExecAppend(suite, s0, ls + [l[0]] + [l[1]] + [l[2]], l[3]);
    ls' := ls + [l[0]] + [l[1]] + [l[2]] + [l[3]];
    assert ls' == ls + l;
    s' := Exec(suite, s0, ls').value;
    var box := suite.seal(k, [], s.sessions[i].node);
    assert s'.sessions == s.sessions[i := s.sessions[i].(pc := Holding(key))];
    assert s'.store == s.store[key := Entry(Some(box), Some(Meta(|box|, 0)), Some(s.now + LOCK_TTL_SECONDS), i)];
  }

  /** Session `j` is idle and can seal its name. */
  predicate CanLock(s: State, j: nat, k: Bytes) {
    && j in s.sessions && s.sessions[j].pc == Idle
    && s.sessions[j].vault == Some(FileFor(s.sessions[j].node, k)) && |k| == KEY_SIZE
  }

  /** Whatever run led there: after an evicting step any session that can lock becomes a second user. */
  lemma EvictionLetsAnotherIn(suite: Suite, s0: State, ls: seq<Label>, l: Label, i: nat, j: nat, key: string, k: Bytes)
    returns (ls': seq<Label>, s': State)
    requires Exec(suite, s0, ls).Some? && Enabled(Exec(suite, s0, ls).value, l)
    requires EvictsFrom(Exec(suite, s0, ls).value, l, i, key)
    requires CanLock(Next(suite, Exec(suite, s0, ls).value, l), j, k)
    ensures ls' == ls + [l] + Locks(j, key) && Exec(suite, s0, ls') == Some(s') && i != j
    ensures i in s'.sessions && s'.sessions[i] == Exec(suite, s0, ls).value.sessions[i] && Using(s'.sessions[i], key)
    ensures j in s'.sessions && s'.sessions[j].pc == Holding(key) && key in s'.store && s'.store[key].maker == j
  {
    EvictedEntryIsGone(suite, Exec(suite, s0, ls).value, l, i, key);
    ExecAppend(suite, s0, ls, l);
    ls', s' := LocksFree(suite, s0, ls + [l], j, key, k);
  }

  /** The run, stopped anywhere, and the spare session `j` locking then: nobody else uses that lock. */
  ghost predicate SafeFor(suite: Suite, s0: State, ls: seq<Label>, j: nat) {
    forall p, key :: 0 <= p <= |ls| ==> SafeAt(suite, s0, ls, j, p, key)
  }

  ghost predicate SafeAt(suite: Suite, s0: State, ls: seq<Label>, j: nat, p: nat, key: string)
    requires p <= |ls|
  {
    var r := Exec(suite, s0, ls[..p] + Locks(j, key));
    r.Some? ==> Exclusive(r.value)
  }

  /** Session `j` takes no part in the run. */
  predicate Spare(ls: seq<Label>, j: nat) {
    forall p :: 0 <= p < |ls| ==> ls[p].Advance? || ls[p].i != j
  }

  lemma {:induction false} SpareStays(suite: Suite, s0: State, ls: seq<Label>, j: nat)
    requires Spare(ls, j) && j in s0.sessions && Exec(suite, s0, ls).Some?
    ensures j in Exec(suite, s0, ls).value.sessions && Exec(suite, s0, ls).value.sessions[j] == s0.sessions[j]
  {
    if ls != [] {
      var front := ls[..|ls| - 1];
      assert forall p :: 0 <= p < |front| ==> front[p] == ls[p];
      SpareStays(suite, s0, front, j);
    }
  }

  lemma {:induction false} PrefixRuns(suite: Suite, s0: State, ls: seq<Label>, p: nat)
    requires p <= |ls| && Exec(suite, s0, ls).Some?
    ensures Exec(suite, s0, ls[..p]).Some?
    ensures p < |ls| ==> Enabled(Exec(suite, s0, ls[..p]).value, ls[p])
    decreases |ls|
  {
    if p == |ls| {
      assert ls[..p] == ls;
    } else {
      var front := ls[..|ls| - 1];
      if p == |ls| - 1 { assert ls[..p] == front; } else { assert front[..p] == ls[..p] && front[p] == ls[p]; }
      PrefixRuns(suite, s0, front, p);
    }
  }

  lemma {:induction false} PrefixEvictsNobody(suite: Suite, s0: State, ls: seq<Label>, p: nat)
    requires p <= |ls| && NoEviction(suite, s0, ls)
    ensures NoEviction(suite, s0, ls[..p])
    decreases |ls|
  {
    if p == |ls| {
      assert ls[..p] == ls;
    } else {
      assert ls[..|ls| - 1][..p] == ls[..p];
      PrefixEvictsNobody(suite, s0, ls[..|ls| - 1], p);
    }
  }

  lemma LockStepEvictsNobody(suite: Suite, s0: State, ls: seq<Label>, l: Label)
    requires NoEviction(suite, s0, ls) && !l.Advance? && !l.DeleteEntry?
    ensures NoEviction(suite, s0, ls + [l])
  {
    assert (ls + [l])[..|ls|] == ls;
  }

  lemma LockingEvictsNobody(suite: Suite, s0: State, ls: seq<Label>, j: nat, key: string)
    requires NoEviction(suite, s0, ls)
    ensures NoEviction(suite, s0, ls + Locks(j, key))
  {
    var l := Locks(j, key);
    LockStepEvictsNobody(suite, s0, ls, l[0]);
    LockStepEvictsNobody(suite, s0, ls + [l[0]], l[1]);
    LockStepEvictsNobody(suite, s0, ls + [l[0]] + [l[1]], l[2]);
    LockStepEvictsNobody(suite, s0, ls + [l[0]] + [l[1]] + [l[2]], l[3]);
    assert ls + [l[0]] + [l[1]] + [l[2]] + [l[3]] == ls + l;
  }

  /** The step of the run that evicts, if there is one. */
  lemma {:induction false} EvictingStep(suite: Suite, s0: State, ls: seq<Label>) returns (p: nat, i: nat, key: string)
    requires !NoEviction(suite, s0, ls) && Exec(suite, s0, ls).Some?
    ensures p < |ls| && Exec(suite, s0, ls[..p]).Some? && EvictsFrom(Exec(suite, s0, ls[..p]).value, ls[p], i, key)
  {
    var front := ls[..|ls| - 1];
    if !NoEviction(suite, s0, front) {
      p, i, key := EvictingStep(suite, s0, front);
      assert front[..p] == ls[..p] && front[p] == ls[p];
    } else {
      p := |ls| - 1;
      i, key :| EvictsFrom(Exec(suite, s0, front).value, ls[p], i, key);
    }
  }

  /**
   * The exact condition of mutual exclusion: no step of a run evicts if and only if a spare session, locking
   * after any of its steps, never shares the lock.
   */
  lemma ExclusionIffNoEviction(suite: Suite, s0: State, ls: seq<Label>, j: nat, k: Bytes)
    requires Start(s0) && Exec(suite, s0, ls).Some? && CanLock(s0, j, k) && Spare(ls, j)
    ensures NoEviction(suite, s0, ls) <==> SafeFor(suite, s0, ls, j)
  {
    if NoEviction(suite, s0, ls) {
      forall p, key | 0 <= p <= |ls| ensures SafeAt(suite, s0, ls, j, p, key) {
        PrefixEvictsNobody(suite, s0, ls, p);
        LockingEvictsNobody(suite, s0, ls[..p], j, key);
        if Exec(suite, s0, ls[..p] + Locks(j, key)).Some? { MutualExclusion(suite, s0, ls[..p] + Locks(j, key)); }
      }
    } else {
      var p, i, key := EvictingStep(suite, s0, ls);
      EvictionIsUnsafe(suite, s0, ls, j, k, p, i, key);
      assert !SafeAt(suite, s0, ls, j, p + 1, key);
    }
  }

  lemma EvictionIsUnsafe(suite: Suite, s0: State, ls: seq<Label>, j: nat, k: Bytes, p: nat, i: nat, key: string)
    requires Exec(suite, s0, ls).Some? && CanLock(s0, j, k) && Spare(ls, j)
    requires p < |ls| && Exec(suite, s0, ls[..p]).Some? && EvictsFrom(Exec(suite, s0, ls[..p]).value, ls[p], i, key)
    ensures !SafeAt(suite, s0, ls, j, p + 1, key)
  {
    PrefixRuns(suite, s0, ls, p);
    PrefixRuns(suite, s0, ls, p + 1);
    assert forall q :: 0 <= q < |ls[..p + 1]| ==> ls[..p + 1][q] == ls[q];
    SpareStays(suite, s0, ls[..p + 1], j);
    assert ls[..p + 1] == ls[..p] + [ls[p]];
    ExecAppend(suite, s0, ls[..p], ls[p]);
    var ls', s' := EvictionLetsAnotherIn(suite, s0, ls[..p], ls[p], i, j, key, k);
    assert ls' == ls[..p + 1] + Locks(j, key);
    assert Using(s'.sessions[i], key) && Using(s'.sessions[j], key) && i != j;
  }

  // ----------------------------------------------- a discipline that suffices

  /** A session in an `Unlock` that it called without holding the lock. */
  predicate Stray(x: Session, key: string) {
    (x.pc.Unlocking? || x.pc.Deleting?) && x.pc.key == key && !x.pc.held
  }

  /** Two sessions whose entries are the same to `Unlock`: one name, sealed with one key. */
  predicate SameOwner(x: Session, y: Session) {
    x.node == y.node && x.vault.Some? && y.vault.Some? && SecretKey(x.vault.value) == SecretKey(y.vault.value)
  }

  /**
   * While a session is in an `Unlock` that it called without holding, no other session of its node uses
   * the lock or is in such an `Unlock` as well. Sessions of other nodes may do what they like.
   */
  ghost predicate Apart(s: State) {
    forall i, j, key :: i in s.sessions && j in s.sessions && i != j && Stray(s.sessions[i], key) ==>
      (!Using(s.sessions[j], key) && !Stray(s.sessions[j], key)) || !SameOwner(s.sessions[i], s.sessions[j])
  }

  /** No entry lapses while a session uses it or is unlocking it. */
  predicate LeaseKept(s: State, l: Label) {
    l.Advance? ==>
      forall i, key :: i in s.sessions && (Using(s.sessions[i], key) || Stray(s.sessions[i], key)) && key in s.store ==>
        !Expired(s.store[key], l.now)
  }

  ghost predicate Disciplined(suite: Suite, s0: State, ls: seq<Label>) {
    ls != [] ==>
      var front := ls[..|ls| - 1];
      && Disciplined(suite, s0, front)
      && (Exec(suite, s0, front).Some? ==>
            Apart(Exec(suite, s0, front).value) && LeaseKept(Exec(suite, s0, front).value, ls[|ls| - 1]))
  }

  /** `Unlock` in session `x` takes the box for its own. */
  predicate Opens(suite: Suite, x: Session, box: Bytes) {
    x.vault.Some? && Unseal(suite, x.vault.value, box) == Ok(x.node)
  }

  ghost predicate Sealed(suite: Suite, box: Bytes) {
    exists k, random, name :: box == suite.seal(k, random, name)
  }

  /** A stray `Unlock` about to delete finds an entry of its own node that nobody uses. */
  ghost predicate Abandoned(suite: Suite, s: State, i: nat, key: string)
    requires i in s.sessions
  {
    && Present(s.store, key) && Opens(suite, s.sessions[i], s.store[key].data.value)
    && forall j :: j in s.sessions ==> !Using(s.sessions[j], key)
  }

  ghost predicate EntryInv(suite: Suite, e: Entry) {
    e.data.Some? && Sealed(suite, e.data.value)
  }

  ghost predicate Inv(suite: Suite, s: State) {
    && Held(suite, s)
    && (forall key :: key in s.store ==> EntryInv(suite, s.store[key]))
    && (forall i, key :: i in s.sessions && s.sessions[i].pc == Deleting(key, false) ==> Abandoned(suite, s, i, key))
  }

  /** Whoever opens a box made by another session has the same name and the same key. */
  lemma OpensIsSameOwner(suite: Suite, x: Session, y: Session, box: Bytes, random: Bytes)
    requires Ideal(suite) && Opens(suite, x, box) && MadeBy(suite, y, box, random)
    ensures SameOwner(x, y)
  {
  }

  lemma BothOpenIsSameOwner(suite: Suite, x: Session, y: Session, box: Bytes)
    requires Ideal(suite) && Sealed(suite, box) && Opens(suite, x, box) && Opens(suite, y, box)
    ensures SameOwner(x, y)
  {
    var k, random, name :| box == suite.seal(k, random, name);
  }

  lemma MadeIsSealed(suite: Suite, x: Session, box: Bytes, random: Bytes)
    requires MadeBy(suite, x, box, random)
    ensures Sealed(suite, box)
  {
  }

  lemma EntriesStay(suite: Suite, s: State, l: Label, key: string)
    requires Inv(suite, s) && Enabled(s, l) && key in Next(suite, s, l).store
    ensures EntryInv(suite, Next(suite, s, l).store[key])
  {
    var s' := Next(suite, s, l);
    if l.WriteMeta? {
      var k := s.sessions[l.i].pc.key;
      assert Using(s.sessions[l.i], k);
      assert Owned(suite, s, l.i, k);
    } else if l.TryNX? && (key !in s.store || s'.store[key] != s.store[key]) {
      MadeIsSealed(suite, s.sessions[l.i], s'.store[key].data.value, l.random);
    }
  }

  /** A stray `Unlock` that reads its own name has read an entry that nobody uses. */
  lemma StrayReads(suite: Suite, s: State, i: nat, key: string)
    requires Ideal(suite) && Inv(suite, s) && Apart(s) && i in s.sessions && Stray(s.sessions[i], key)
    requires Present(s.store, key) && Opens(suite, s.sessions[i], s.store[key].data.value)
    ensures Abandoned(suite, s, i, key)
  {
    forall j | j in s.sessions ensures !Using(s.sessions[j], key) {
      if Using(s.sessions[j], key) {
        assert i != j && Owned(suite, s, j, key);
        var random :| MadeBy(suite, s.sessions[j], s.store[key].data.value, random);
        OpensIsSameOwner(suite, s.sessions[i], s.sessions[j], s.store[key].data.value, random);
      }
    }
  }

  /** A stray `Unlock` about to delete is not disturbed: nobody else touches the entry. */
  lemma AbandonedStays(suite: Suite, s: State, l: Label, i: nat, key: string)
    requires Ideal(suite) && Inv(suite, s) && Enabled(s, l) && Apart(s) && LeaseKept(s, l)
    requires i in s.sessions && s.sessions[i].pc == Deleting(key, false) && (l.Advance? || l.i != i)
    ensures Abandoned(suite, Next(suite, s, l), i, key)
  {
    assert Abandoned(suite, s, i, key);
    assert Stray(s.sessions[i], key);
    if !l.Advance? {
      var y := s.sessions[l.i];
      assert !Using(y, key);
      if l.DeleteEntry? && y.pc.key == key {
        assert y.pc == Deleting(key, false) && Stray(y, key);
        assert Abandoned(suite, s, l.i, key);
        BothOpenIsSameOwner(suite, s.sessions[i], y, s.store[key].data.value);
        assert false;
      }
      assert Next(suite, s, l).store[key] == s.store[key];
    }
  }

  /** Whoever is about to delete has the entry, or nobody has. */
  lemma DeleterIsAlone(suite: Suite, s: State, j: nat, i: nat, key: string)
    requires Inv(suite, s) && i in s.sessions && j in s.sessions
    requires s.sessions[j].pc.Deleting? && s.sessions[j].pc.key == key
    ensures Using(s.sessions[i], key) ==> i == j
  {
    if s.sessions[j].pc.held {
      assert Owned(suite, s, j, key);
      assert Using(s.sessions[i], key) ==> Owned(suite, s, i, key);
    } else {
      assert Abandoned(suite, s, j, key);
    }
  }

  lemma DisciplinedStep(suite: Suite, s: State, l: Label)
    requires Inv(suite, s) && Enabled(s, l) && LeaseKept(s, l)
    ensures !Evicts(s, l)
  {
    forall i, key ensures !EvictsFrom(s, l, i, key) {
      if l.DeleteEntry? && i in s.sessions && key == s.sessions[l.i].pc.key { DeleterIsAlone(suite, s, l.i, i, key); }
    }
  }

  lemma StepKeeps(suite: Suite, s: State, l: Label)
    requires Ideal(suite) && Inv(suite, s) && Enabled(s, l) && Apart(s) && LeaseKept(s, l)
    ensures Inv(suite, Next(suite, s, l))
  {
    var s' := Next(suite, s, l);
    DisciplinedStep(suite, s, l);
    HeldIffNoEviction(suite, s, l);
    forall key | key in s'.store ensures EntryInv(suite, s'.store[key]) { EntriesStay(suite, s, l, key); }
    forall i, key | i in s'.sessions && s'.sessions[i].pc == Deleting(key, false) ensures Abandoned(suite, s', i, key) {
      if !l.Advance? && l.i == i {
        assert Stray(s.sessions[i], key);
        StrayReads(suite, s, i, key);
      } else {
        AbandonedStays(suite, s, l, i, key);
      }
    }
  }

  /** If sessions keep apart and no lease lapses in use, nobody is evicted. */
  lemma {:induction false} DisciplinePreventsEviction(suite: Suite, s0: State, ls: seq<Label>)
    requires Ideal(suite) && Start(s0) && Disciplined(suite, s0, ls) && Exec(suite, s0, ls).Some?
    ensures NoEviction(suite, s0, ls) && Inv(suite, Exec(suite, s0, ls).value)
  {
    if ls != [] {
      DisciplinePreventsEviction(suite, s0, ls[..|ls| - 1]);
      DisciplinedStep(suite, Exec(suite, s0, ls[..|ls| - 1]).value, ls[|ls| - 1]);
      StepKeeps(suite, Exec(suite, s0, ls[..|ls| - 1]).value, ls[|ls| - 1]);
    }
  }

  /** What a disciplined `Unlock` removes bears the name of its own node. */
  lemma DisciplinedUnlockOpens(suite: Suite, s0: State, ls: seq<Label>, l: Label, key: string)
    requires Ideal(suite) && Start(s0) && Disciplined(suite, s0, ls) && Exec(suite, s0, ls).Some?
    requires Enabled(Exec(suite, s0, ls).value, l) && l.DeleteEntry?
    requires key in Exec(suite, s0, ls).value.store && key !in Next(suite, Exec(suite, s0, ls).value, l).store
    ensures var s := Exec(suite, s0, ls).value;
            && s.store[key].data.Some? && Opens(suite, s.sessions[l.i], s.store[key].data.value)
            && !Evicts(s, l)
  {
    DisciplinePreventsEviction(suite, s0, ls);
    var s := Exec(suite, s0, ls).value;
    var x := s.sessions[l.i];
    DisciplinedStep(suite, s, l);
    if x.pc.held {
      assert Owned(suite, s, l.i, key);
      var random :| MadeBy(suite, x, s.store[key].data.value, random);
    } else {
      assert Abandoned(suite, s, l.i, key);
    }
  }

  // --------------------------------------------------- evictions do happen

  /** Two sessions hold the lock. */
  predicate Both(s: State, i: nat, j: nat, key: string) {
    && i != j && i in s.sessions && j in s.sessions
    && s.sessions[i].pc == Holding(key) && s.sessions[j].pc == Holding(key)
  }

  /** From the start: a session locks, its lease lapses, another locks, and both hold. */
  lemma LapseMakesTwoHolders(suite: Suite, s0: State, i: nat, j: nat, key: string, k: Bytes, k': Bytes)
    returns (ls: seq<Label>)
    requires Start(s0) && CanLock(s0, i, k) && CanLock(s0, j, k') && i != j
    ensures Exec(suite, s0, ls).Some? && Both(Exec(suite, s0, ls).value, i, j, key)
  {
    var ls1, s1 := LocksFree(suite, s0, [], i, key, k);
    var l := Advance(s0.now + LOCK_TTL_SECONDS + 1);
    assert EvictsFrom(s1, l, i, key);
    var s2;
    ls, s2 := EvictionLetsAnotherIn(suite, s0, ls1, l, i, j, key, k');
  }

  /** The next step of `i` would be to delete the entry that `j` uses. */
  ghost predicate AboutToEvict(suite: Suite, s0: State, ls: seq<Label>, i: nat, j: nat, key: string) {
    && Exec(suite, s0, ls).Some?
    && var s := Exec(suite, s0, ls).value;
       Enabled(s, DeleteEntry(i, Answered)) && EvictsFrom(s, DeleteEntry(i, Answered), j, key)
  }

  /** An `Unlock` that reads an entry of its own node goes on to delete it. */
  lemma ReadsOwn(suite: Suite, s0: State, ls: seq<Label>, i: nat, key: string, k: Bytes)
    returns (ls': seq<Label>)
    requires Ideal(suite) && Exec(suite, s0, ls).Some? && |k| == KEY_SIZE
    requires var s := Exec(suite, s0, ls).value;
             && i in s.sessions && s.sessions[i].pc.Unlocking? && s.sessions[i].pc.key == key
             && s.sessions[i].vault == Some(FileFor(s.sessions[i].node, k))
             && Present(s.store, key) && s.store[key].data.value == suite.seal(k, [], s.sessions[i].node)
    ensures ls' == ls + [ReadOwner(i, Answered)] && Exec(suite, s0, ls').Some?
    ensures var s := Exec(suite, s0, ls).value;
            Exec(suite, s0, ls').value == Move(s, i, Deleting(key, s.sessions[i].pc.held), s.store)
  {
    Hex.RoundTrip(k);
    ExecAppend(suite, s0, ls, ReadOwner(i, Answered));
    ls' := ls + [ReadOwner(i, Answered)];
  }

  lemma CallsUnlock(suite: Suite, s0: State, ls: seq<Label>, i: nat, key: string) returns (ls': seq<Label>)
    requires Exec(suite, s0, ls).Some? && Enabled(Exec(suite, s0, ls).value, CallUnlock(i, key))
    ensures ls' == ls + [CallUnlock(i, key)] && Exec(suite, s0, ls').Some?
    ensures var s := Exec(suite, s0, ls).value;
            Exec(suite, s0, ls').value == Move(s, i, Unlocking(key, s.sessions[i].pc == Holding(key)), s.store)
  {
    ExecAppend(suite, s0, ls, CallUnlock(i, key));
    ls' := ls + [CallUnlock(i, key)];
  }

  /** From the start: a holder's `Unlock` reads its entry, the lease lapses, another locks, then comes the delete. */
  lemma LapseMakesForeignDelete(suite: Suite, s0: State, i: nat, j: nat, key: string, k: Bytes, k': Bytes)
    returns (ls: seq<Label>)
    requires Ideal(suite) && Start(s0) && CanLock(s0, i, k) && CanLock(s0, j, k') && i != j
    ensures AboutToEvict(suite, s0, ls, i, j, key)
  {
    var ls1, s1 := LocksFree(suite, s0, [], i, key, k);
    var ls2 := CallsUnlock(suite, s0, ls1, i, key);
    var ls3 := ReadsOwn(suite, s0, ls2, i, key, k);
    var l := Advance(s0.now + LOCK_TTL_SECONDS + 1);
    assert EvictsFrom(Exec(suite, s0, ls3).value, l, i, key);
    var s4;
    ls, s4 := EvictionLetsAnotherIn(suite, s0, ls3, l, i, j, key, k');
  }

  /** From the start: a session locks, and another one of its node calls `Unlock`. */
  lemma NonHolderUnlocks(suite: Suite, s0: State, i: nat, j: nat, key: string, k: Bytes) returns (ls: seq<Label>)
    requires Ideal(suite) && Start(s0) && CanLock(s0, i, k) && CanLock(s0, j, k) && i != j
    requires s0.sessions[i].node == s0.sessions[j].node
    ensures AboutToEvict(suite, s0, ls, i, j, key)
  {
    var ls1, s1 := LocksFree(suite, s0, [], j, key, k);
    var ls2 := CallsUnlock(suite, s0, ls1, i, key);
    ls := ReadsOwn(suite, s0, ls2, i, key, k);
  }

  /** A `Lock` whose first command is carried out without an answer leaves an entry behind. */
  lemma LeavesEntry(suite: Suite, s0: State, i: nat, key: string, k: Bytes) returns (ls: seq<Label>)
    requires Start(s0) && CanLock(s0, i, k)
    ensures Exec(suite, s0, ls).Some?
    ensures var box := suite.seal(k, [], s0.sessions[i].node);
            Exec(suite, s0, ls).value == State(s0.sessions, map[key := Entry(Some(box), None, None, i)], s0.now)
  {
    Hex.RoundTrip(k);
    ExecAppend(suite, s0, [], CallLock(i, key));
    ExecAppend(suite, s0, [] + [CallLock(i, key)], TryNX(i, [], NotAnswered));
    ls := [] + [CallLock(i, key)] + [TryNX(i, [], NotAnswered)];
    assert Exec(suite, s0, ls).value.sessions == s0.sessions;
  }

  /**
   * From the start: an entry is left behind, two sessions of its node unlock it, one of them deletes it, a third
   * session locks, and the other delete comes after.
   */
  lemma TwoStraysRemoveUsed(suite: Suite, s0: State, i: nat, i': nat, j: nat, key: string, k: Bytes, k': Bytes)
    returns (ls: seq<Label>)
    requires Ideal(suite) && Start(s0) && CanLock(s0, i, k) && CanLock(s0, i', k) && CanLock(s0, j, k')
    requires i != i' && i != j && i' != j && s0.sessions[i].node == s0.sessions[i'].node
    ensures AboutToEvict(suite, s0, ls, i, j, key)
  {
    var ls1 := LeavesEntry(suite, s0, i, key, k);
    var ls2 := CallsUnlock(suite, s0, ls1, i, key);
    var ls3 := CallsUnlock(suite, s0, ls2, i', key);
    var ls4 := ReadsOwn(suite, s0, ls3, i, key, k);
    var ls5 := ReadsOwn(suite, s0, ls4, i', key, k);
    ExecAppend(suite, s0, ls5, DeleteEntry(i', Answered));
    var s6;
    ls, s6 := LocksFree(suite, s0, ls5 + [DeleteEntry(i', Answered)], j, key, k');
  }
}
