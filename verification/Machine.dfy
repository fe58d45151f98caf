/** The service at Read Committed: any number of transactions, taken apart into the reads, inserts,
    row locks, version checks and commits that other transactions can run between. */
module Machine {
  import opened Wrappers
  import opened Money
  import opened Wallet
  import opened WagerTx
  import opened Ledger
  import opened Store
  import opened Process
  import Invariants

  datatype Op =
    | HttpCall(input: Input)                          // Execute, with its retry loop
    | SqsMessage(messageId: string, input: Input)     // handle: inbox and ExecuteWithin in one transaction
    | ResumeRow(id: Id)
    | ExpireRow(id: Id)
    | OpenAccount(playerId: Id, balance: Money)

  /** What a transaction can hold until it ends: unused identifiers, unique keys and rows. */
  datatype Lock =
    | IdLock(id: Id) | KeyLock(key: string) | OpLock(op: (string, string)) | OwnerLock(owner: (Id, string))
    | RowLock(id: Id) | WalletLock(id: Id) | InboxLock(messageId: string)

  /** What the committed state has behind a lock. */
  datatype Cell = Nothing | Key(id: Id) | Row(tx: TxRow) | Purse(wallet: WalletRow) | Body(input: Input)

  ghost predicate Used(s: Store, id: Id) {
    || id in s.txs || id in s.wallets
    || (exists e :: e in s.ledger && e.id == id)
    || (exists e :: e in s.outbox && e.id == id)
  }

  ghost function Content(s: Store, l: Lock): Cell {
    match l
    case IdLock(id) => if Used(s, id) then Key(id) else Nothing
    case KeyLock(k) => if k in s.byKey then Key(s.byKey[k]) else Nothing
    case OpLock(o) => if o in s.byOp then Key(s.byOp[o]) else Nothing
    case OwnerLock(o) => if o in s.owners then Key(s.owners[o]) else Nothing
    case RowLock(id) => if id in s.txs then Row(s.txs[id]) else Nothing
    case WalletLock(id) => if id in s.wallets then Purse(s.wallets[id]) else Nothing
    case InboxLock(m) => if m in s.inbox then Body(s.inbox[m]) else Nothing
  }

  /** Why a row is rejected, with what was read when. */
  datatype Cause =
    | OtherCurrency
    | BadReference(ref: TxRow, readAt: nat)
    | Reversed(ref: TxRow, readAt: nat, checkedAt: nat)
    | Shortfall(resolved: Option<TxRow>, direction: Direction)

  datatype Decision =
    | Silent                                                     // replay, duplicate message, row no longer waiting
    | Settled(w: WalletRow, t: TxRow, ref: Option<TxRow>, w': WalletRow, direction: Direction)
    | Declined(w: WalletRow, readAt: nat, t: TxRow, code: FailureCode, cause: Cause)
    | Parked(w: WalletRow, t: TxRow)
    | Noted(w: WalletRow, t: TxRow)
    | Waited(w: WalletRow, t: TxRow)
    | Expired(t: TxRow)
    | Opened

  /** Where a transaction is, with what it has read so far and at which committed state. `t` is always the
      row as built by the attempt, or as found by the resume. */
  datatype Phase =
    | Arrived
    | Begun
    | Found(t: TxRow)
    | KeyMissed(at: nat)
    | OpMissed
    | WalletRead(w: WalletRow, rw: nat)
    | Locked(t: TxRow)
    | Loaded(w: WalletRow, rw: nat, t: TxRow)
    | Referenced(w: WalletRow, rw: nat, t: TxRow, found: TxRow, rr: nat)
    | Cleared(w: WalletRow, rw: nat, t: TxRow, ref: Option<TxRow>, rr: nat, rc: nat)
    | Saved(w: WalletRow, rw: nat, t: TxRow, ref: Option<TxRow>, rr: nat, rc: nat, w': WalletRow, direction: Direction)
    | Decided(decision: Decision, rw: nat, rr: nat, rc: nat, out: Output)
    | Done(out: Output)
    | Aborted(error: Error)

  /** An attempt lost to a version that moved between its wallet read and its save, or to a taken key. */
  datatype Failure = LostRace(rw: nat, at: nat) | Duplicate(at: nat)

  datatype Session = Session(
    op: Op, env: Env, began: nat, phase: Phase, writes: Writes, locks: map<Lock, Cell>, fails: seq<Failure>)

  /** The committed states with the session that committed each after the first, the sessions, the deleted messages. */
  datatype Machine = Machine(log: seq<Store>, authors: seq<nat>, sessions: map<nat, Session>, deleted: set<(string, Input)>)

  function Db(log: seq<Store>): Store
    requires log != []
  {
    log[|log| - 1]
  }

  // ---------------------------------------------------------------- endings of a step

  function Abort(s: Session, e: Error): Session {
    s.(phase := Aborted(e), writes := NO_WRITES, locks := map[])
  }

  /** Execute starts over after a lost race or a taken key, and gives up after the fifth. */
  function AbortRace(s: Session, e: Error, f: Failure): Session {
    if !s.op.HttpCall? then Abort(s, e)
    else Abort(s.(fails := s.fails + [f]), if |s.fails| + 1 == MAX_RETRIES then ErrTooManyRetries else e)
  }

  /** The outcome's writes join the inbox row; an outcome that is no commit aborts. */
  function Decide(s: Session, o: Outcome, d: Decision, rw: nat, rr: nat, rc: nat): Session {
    match o
    case Committed(writes, out) => s.(phase := Decided(d, rw, rr, rc, out), writes := writes.(inbox := s.writes.inbox))
    case Replayed(out) => s.(phase := Decided(Silent, rw, rr, rc, out))
    case Unchanged => s.(phase := Decided(Silent, rw, rr, rc, Output("", Pending, Money(0, ""), NoCode, false)))
    case Refused(e) => Abort(s, e)
  }

  // ---------------------------------------------------------------- steps of one session

  ghost function StepArrived(v: Store, s: Session): Session
    requires s.op.SqsMessage?
  {
    var m := s.op.messageId;
    if m == "" then Abort(s, ErrInvalidEnvelope)
    else if m in v.inbox then Decide(s, Unchanged, Silent, s.began, s.began, s.began)
    else s.(phase := Begun, writes := s.writes.(inbox := Some((m, s.op.input))), locks := s.locks[InboxLock(m) := Nothing])
  }

  ghost function StepBegun(v: Store, at: nat, s: Session, i: Input): Session {
    if !Supported(i.kind) then Abort(s, ErrUnsupportedKind)
    else if i.idempotencyKey == "" || FindByKey(v, i.idempotencyKey).None? then s.(phase := KeyMissed(at))
    else
      var t := FindByKey(v, i.idempotencyKey).value;
      if t.terms.payloadHash != Some(CanonicalOf(i)) then Abort(s, ErrIdempotencyConflict) else s.(phase := Found(t))
  }

  ghost function StepKeyMissed(v: Store, s: Session, i: Input): Session {
    match FindByOp(v, i.providerId, i.externalId)
    case None => s.(phase := OpMissed)
    case Some(t) =>
      if t.terms.idempotencyKey != i.idempotencyKey || t.terms.payloadHash != Some(CanonicalOf(i))
      then Abort(s, ErrIdempotencyConflict) else s.(phase := Found(t))
  }

  ghost function StepFound(v: Store, at: nat, s: Session): Session
    requires s.phase.Found?
  {
    Decide(s, Replay(v, s.phase.t), Silent, at, at, at)
  }

  ghost function StepOpMissed(v: Store, at: nat, s: Session, i: Input): Session {
    if i.walletId !in v.wallets then Abort(s, ErrNotFound)
    else if v.wallets[i.walletId].playerId != i.playerId then Abort(s, ErrWalletPlayerMismatch)
    else s.(phase := WalletRead(v.wallets[i.walletId], at))
  }

  /** The insert: it takes the row's primary key and its two unique keys until the transaction ends. */
  ghost function StepWalletRead(v: Store, at: nat, s: Session, i: Input): Session
    requires s.phase.WalletRead?
  {
    match NewExternal(s.env.txId, i, s.phase.w, s.env.now)
    case Err(e) => Abort(s, e)
    case Ok(t) =>
      if Taken(v, t) then AbortRace(s, ErrAlreadyExists, Duplicate(at))
      else s.(phase := Loaded(s.phase.w, s.phase.rw, t), writes := s.writes.(tx := Some(t)),
              locks := s.locks[RowLock(t.id) := Nothing][KeyLock(t.terms.idempotencyKey) := Nothing][OpLock(Invariants.OpOf(t.terms)) := Nothing])
  }

  /** SELECT ... FOR UPDATE of the waiting row. */
  ghost function StepResume(v: Store, at: nat, s: Session, id: Id): Session {
    if id !in v.txs then Abort(s, ErrNotFound)
    else
      var t := v.txs[id];
      var s1 := s.(locks := s.locks[RowLock(id) := Row(t)]);
      if t.status != PendingReference then Decide(s1, Unchanged, Silent, at, at, at) else s1.(phase := Locked(t))
  }

  ghost function StepLocked(v: Store, at: nat, s: Session): Session
    requires s.phase.Locked?
  {
    var t := s.phase.t;
    if t.terms.walletId !in v.wallets then Abort(s, ErrNotFound)
    else s.(phase := Loaded(v.wallets[t.terms.walletId], at, t))
  }

  ghost function StepLoaded(v: Store, at: nat, s: Session): Session
    requires s.phase.Loaded?
  {
    var w, rw, t := s.phase.w, s.phase.rw, s.phase.t;
    var resuming := s.op.ResumeRow?;
    if !resuming && w.balance.currency != t.terms.money.currency
    then Decide(s, Reject(t, w, CurrencyMismatch, s.env), Declined(w, rw, t, CurrencyMismatch, OtherCurrency), rw, at, at)
    else if !resuming && t.terms.referenceExternalId == "" then s.(phase := Cleared(w, rw, t, None, at, at))
    else
      var found := FindByOp(v, t.terms.providerId, t.terms.referenceExternalId);
      if found.None? || found.value.status != Processed then
        if resuming then Decide(s, Wait(t, s.env), Waited(w, t), rw, at, at)
        else if found.Some? && IsTerminal(found.value.status)
        then Decide(s, Reject(t, w, ReferenceNotProcessable, s.env),
                    Declined(w, rw, t, ReferenceNotProcessable, BadReference(found.value, at)), rw, at, at)
        else Decide(s, Park(t, w, s.env), Parked(w, t), rw, at, at)
      else
        var code := ValidateReference(t.terms, found.value.terms);
        if code != NoCode
        then Decide(s, Reject(t, w, code, s.env), Declined(w, rw, t, code, BadReference(found.value, at)), rw, at, at)
        else s.(phase := Referenced(w, rw, t, found.value, at))
  }

  ghost function StepReferenced(v: Store, at: nat, s: Session): Session
    requires s.phase.Referenced?
  {
    var w, rw, t, ref, rr := s.phase.w, s.phase.rw, s.phase.t, s.phase.found, s.phase.rr;
    if (t.terms.kind == Refund || t.terms.kind == Rollback) && HasProcessedReversal(v, ref.id)
    then Decide(s, Reject(t, w, ReferenceAlreadyReversed, s.env),
                Declined(w, rw, t, ReferenceAlreadyReversed, Reversed(ref, rr, at)), rw, rr, at)
    else
      match ReferenceResolved(t, ref.id, s.env.now)
      case Err(e) => Abort(s, e)
      case Ok(_) => s.(phase := Cleared(w, rw, t, Some(ref), rr, at))
  }

  /** The row with its reference resolved, as the rest of the transaction uses it. */
  function ResolvedRow(t: TxRow, ref: Option<TxRow>, now: Time): TxRow {
    if ref.Some? && ReferenceResolved(t, ref.value.id, now).Ok? then ReferenceResolved(t, ref.value.id, now).value else t
  }

  function KindOf(ref: Option<TxRow>): Option<Kind> {
    if ref.Some? then Some(ref.value.terms.kind) else None
  }

  /** Debit or credit in memory, then the save: an update that matches the wallet only at the version read. */
  ghost function StepCleared(v: Store, at: nat, s: Session): Session
    requires s.phase.Cleared?
  {
    var w, rw, t, ref := s.phase.w, s.phase.rw, s.phase.t, s.phase.ref;
    var rr, rc, r := s.phase.rr, s.phase.rc, ResolvedRow(s.phase.t, s.phase.ref, s.env.now);
    match DirectionOf(t.terms.kind, KindOf(ref))
    case None => if t.terms.kind == Loss then Decide(s, Note(r, w, s.env), Noted(w, t), rw, rr, rc) else Abort(s, ErrUnsupportedKind)
    case Some(direction) =>
      match Moved(w, direction, t.terms.money, s.env.now)
      case Err(e) =>
        if e == ErrInsufficientBalance
        then Decide(s, Reject(r, w, ShortfallCode(t.terms.kind), s.env),
                    Declined(w, rw, t, ShortfallCode(t.terms.kind), Shortfall(ref, direction)), rw, rr, rc)
        else Abort(s, e)
      case Ok(w') =>
        if w.id !in v.wallets || v.wallets[w.id].version != w.version then AbortRace(s, ErrOptimisticLock, LostRace(rw, at))
        else s.(phase := Saved(w, rw, t, ref, rr, rc, w', direction), writes := s.writes.(wallet := Some(w')),
                locks := s.locks[WalletLock(w.id) := Purse(v.wallets[w.id])])
  }

  ghost function StepSaved(s: Session): Session
    requires s.phase.Saved?
  {
    var w, rw, t, ref := s.phase.w, s.phase.rw, s.phase.t, s.phase.ref;
    Decide(s, Settle(ResolvedRow(t, ref, s.env.now), w, s.phase.w', s.phase.direction, s.env),
           Settled(w, t, ref, s.phase.w', s.phase.direction), rw, s.phase.rr, s.phase.rc)
  }

  ghost function StepExpire(v: Store, at: nat, s: Session, id: Id): Session {
    if id !in v.txs then Abort(s, ErrNotFound)
    else Decide(s.(locks := s.locks[RowLock(id) := Row(v.txs[id])]), Expire(v, id, s.env), Expired(v.txs[id]), at, at, at)
  }

  ghost function StepOpen(v: Store, at: nat, s: Session): Session
    requires s.op.OpenAccount?
  {
    var o := Open(v, s.op.playerId, s.op.balance, s.env);
    Decide(s.(locks := s.locks[WalletLock(s.env.walletId) := Nothing][OwnerLock((s.op.playerId, s.op.balance.currency)) := Nothing]
                             [RowLock(s.env.txId) := Nothing]),
           o, Opened, at, at, at)
  }

  predicate Active(s: Session) {
    !s.phase.Decided? && !s.phase.Done? && !s.phase.Aborted?
  }

  function InputOf(op: Op): Input
    requires op.HttpCall? || op.SqsMessage?
  {
    op.input
  }

  /** The first steps, which depend on what the session was asked to do. */
  ghost function StepOfOp(v: Store, at: nat, s: Session): Session {
    match s.op
    case ResumeRow(id) => if s.phase.Begun? then StepResume(v, at, s, id) else s
    case ExpireRow(id) => if s.phase.Begun? then StepExpire(v, at, s, id) else s
    case OpenAccount(_, _) => if s.phase.Begun? then StepOpen(v, at, s) else s
    case HttpCall(i) => StepOfAttempt(v, at, s, i)
    case SqsMessage(_, i) => StepOfAttempt(v, at, s, i)
  }

  ghost function StepOfAttempt(v: Store, at: nat, s: Session, i: Input): Session {
    if s.phase.Begun? then StepBegun(v, at, s, i)
    else if s.phase.KeyMissed? then StepKeyMissed(v, s, i)
    else if s.phase.OpMissed? then StepOpMissed(v, at, s, i)
    else if s.phase.WalletRead? then StepWalletRead(v, at, s, i)
    else s
  }

  /** The next step of a session, reading the latest committed state plus its own writes. */
  ghost function Advance(log: seq<Store>, s: Session): Session
    requires log != [] && Active(s)
  {
    var v, at := Apply(Db(log), s.writes), |log| - 1;
    match s.phase
    case Arrived => if s.op.SqsMessage? then StepArrived(v, s) else s
    case Found(_) => StepFound(v, at, s)
    case Loaded(_, _, _) => StepLoaded(v, at, s)
    case Locked(_) => StepLocked(v, at, s)
    case Referenced(_, _, _, _, _) => StepReferenced(v, at, s)
    case Cleared(_, _, _, _, _, _) => StepCleared(v, at, s)
    case Saved(_, _, _, _, _, _, _, _) => StepSaved(s)
    case _ => StepOfOp(v, at, s)
  }

  // ---------------------------------------------------------------- transitions

  datatype Label =
    | Begin(sid: nat, op: Op, env: Env)
    | Step(sid: nat)
    | Commit(sid: nat)
    | Again(sid: nat, env: Env)
    | Crash(sid: nat)
    | Delete(sid: nat)

  ghost function IdLocks(env: Env): map<Lock, Cell> {
    map[IdLock(env.txId) := Nothing, IdLock(env.walletId) := Nothing, IdLock(env.entryId) := Nothing,
        IdLock(env.event1) := Nothing, IdLock(env.event2) := Nothing]
  }

  /** No other session holds any of these locks. */
  ghost predicate Available(m: Machine, sid: nat, locks: map<Lock, Cell>) {
    forall other | other in m.sessions && other != sid :: m.sessions[other].locks.Keys !! locks.Keys
  }

  /** Identifiers come from a generator that never repeats one. */
  ghost predicate FreshIds(m: Machine, sid: nat, env: Env)
    requires m.log != []
  {
    && env.txId != "" && env.walletId != "" && env.entryId != "" && env.event1 != env.event2
    && (forall l | l in IdLocks(env) :: Content(Db(m.log), l) == Nothing)
    && Available(m, sid, IdLocks(env))
  }

  function Start(op: Op, env: Env, at: nat, locks: map<Lock, Cell>, fails: seq<Failure>): Session {
    Session(op, env, at, if op.SqsMessage? then Arrived else Begun, NO_WRITES, locks, fails)
  }

  /** The writes join the log, and the session ends with its answer and without its locks. */
  function AfterCommit(m: Machine, sid: nat): Machine
    requires m.log != [] && sid in m.sessions && m.sessions[sid].phase.Decided?
  {
    var s := m.sessions[sid];
    m.(log := m.log + [Apply(Db(m.log), s.writes)], authors := m.authors + [sid],
       sessions := m.sessions[sid := s.(phase := Done(s.phase.out), writes := NO_WRITES, locks := map[])])
  }

  ghost predicate Next(m: Machine, l: Label, m': Machine) {
    && m.log != []
    && match l
       case Begin(sid, op, env) =>
         && sid !in m.sessions && FreshIds(m, sid, env)
         && m' == m.(sessions := m.sessions[sid := Start(op, env, |m.log| - 1, IdLocks(env), [])])
       case Step(sid) =>
         && sid in m.sessions && Active(m.sessions[sid])
         && var s' := Advance(m.log, m.sessions[sid]);
         && Available(m, sid, s'.locks)
         && m' == m.(sessions := m.sessions[sid := s'])
       case Commit(sid) =>
         sid in m.sessions && m.sessions[sid].phase.Decided? && m' == AfterCommit(m, sid)
       case Again(sid, env) =>
         && sid in m.sessions && FreshIds(m, sid, env)
         && var s := m.sessions[sid];
         && s.op.HttpCall? && (s.phase == Aborted(ErrOptimisticLock) || s.phase == Aborted(ErrAlreadyExists))
         && m' == m.(sessions := m.sessions[sid := Start(s.op, env, |m.log| - 1, IdLocks(env), s.fails)])
       case Crash(sid) =>
         && sid in m.sessions
         && m' == m.(sessions := m.sessions - {sid})
       case Delete(sid) =>
         && sid in m.sessions && m.sessions[sid].op.SqsMessage? && m.sessions[sid].phase.Done?
         && m' == m.(deleted := m.deleted + {(m.sessions[sid].op.messageId, m.sessions[sid].op.input)})
  }

  const INIT := Machine([EMPTY], [], map[], {})

  ghost predicate Follows(m: Machine, m': Machine) {
    exists l :: Next(m, l, m')
  }

  /** A run: it starts with an empty database and every state follows from the one before. */
  ghost predicate IsRun(run: seq<Machine>) {
    run != [] && if |run| == 1 then run[0] == INIT
                 else IsRun(run[..|run| - 1]) && Follows(run[|run| - 2], run[|run| - 1])
  }

  ghost predicate Reachable(m: Machine) {
    exists run :: IsRun(run) && run[|run| - 1] == m
  }
}
