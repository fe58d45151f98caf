/** The use cases as they run: objects loaded, changed and written back through the repositories, each proved against
    the outcome the sequential model gives for the same state. */
module UseCases {
  import opened Wrappers
  import opened Money
  import opened Wallet
  import opened WagerTx
  import opened Ledger
  import opened Store
  import opened Process
  import opened Invariants
  import opened Atomic
  import opened Database
  import Endings
  import LateReference

  // ---------------------------------------------------------------- what a method's result means

  /** The method did what the outcome says: the answer, and the view with exactly the outcome's writes. */
  ghost predicate Yields(before: Store, after: Store, o: Outcome, r: Result<Output>) {
    match o
    case Committed(writes, out) => r == Ok(out) && after == Apply(before, writes)
    case Replayed(out) => r == Ok(out) && after == before
    case Refused(e) => r == Err(e)
    case Unchanged => false
  }

  /** The row is stored under its own terms and indexed under its keys. */
  ghost predicate Holds(v: Store, t: TxRow) {
    && t.id in v.txs && v.txs[t.id].terms == t.terms
    && KeysWith(v.byKey, t) == v.byKey && OpsWith(v.byOp, t) == v.byOp
  }

  /** The identifiers of the attempt are not in use in the tables they go to. */
  ghost predicate NewIds(v: Store, env: Env) {
    && env.event1 != env.event2 && env.entryId != ""
    && (forall e | e in v.outbox :: e.id != env.event1 && e.id != env.event2)
    && (forall e | e in v.ledger :: e.id != env.entryId)
  }

  ghost predicate NoEntryYet(v: Store, id: Id) {
    forall e | e in v.ledger :: e.transactionId != id
  }

  lemma InsertedHolds(s: Store, t: TxRow)
    ensures Holds(PutTx(s, t), t)
  {
  }

  /** Writing the row again after its insert is the same as writing it once. */
  lemma InsertThenWrite(s: Store, t: TxRow, d: Writes)
    requires d.tx.Some? && d.tx.value.id == t.id && d.tx.value.terms == t.terms
    ensures Apply(PutTx(s, t), d) == Apply(s, d)
  {
  }

  /** The wallet in memory is the stored one with a new balance, and nothing else stands in the way. */
  ghost predicate CanSettle(v: Store, t: TxRow, w: WalletRow, before: WalletRow, previousVersion: nat, balanceBefore: Money, env: Env) {
    && Holds(v, t) && NewIds(v, env) && NoEntryYet(v, t.id) && t.failureCode == NoCode && OwnersOk(v.owners, v.wallets)
    && w.id in v.wallets && v.wallets[w.id] == before && before.version == previousVersion && before.balance == balanceBefore
    && w == before.(balance := w.balance, version := w.version, updatedAt := w.updatedAt)
    && w.balance.currency == before.balance.currency
  }

  /** Row and wallet are as stored, and nothing stands in the way of finishing the transaction. */
  ghost predicate Ready(v: Store, t: TxRow, w: WalletRow, env: Env) {
    && Holds(v, t) && NewIds(v, env) && NoEntryYet(v, t.id) && t.failureCode == NoCode && OwnersOk(v.owners, v.wallets)
    && w.id in v.wallets && v.wallets[w.id] == w
  }

  ghost function RowOf(t: WagerTransaction?): Option<TxRow>
    reads t
  {
    if t == null then None else Some(t.Row())
  }

  lemma DebitCanSettle(v: Store, t: TxRow, w: WalletRow, w': WalletRow, amount: Money, env: Env)
    requires Ready(v, t, w, env) && Debited(w, amount, env.now) == Ok(w')
    ensures CanSettle(v, t, w', w, w.version, w.balance, env)
  {
    hide OwnersOk;
  }

  lemma CreditCanSettle(v: Store, t: TxRow, w: WalletRow, w': WalletRow, amount: Money, env: Env)
    requires Ready(v, t, w, env) && Credited(w, amount, env.now) == Ok(w')
    ensures CanSettle(v, t, w', w, w.version, w.balance, env)
  {
    hide OwnersOk;
  }

  /** What an attempt needs of the state: unused identifiers, and indexes in order. */
  ghost predicate FreshFor(v: Store, env: Env) {
    && NewIds(v, env) && NoEntryYet(v, env.txId) && OwnersOk(v.owners, v.wallets)
    && (forall id | id in v.wallets :: v.wallets[id].id == id)
  }

  /** What resuming or expiring a row needs of the state. */
  ghost predicate FreshToResume(v: Store, id: Id, env: Env) {
    && NewIds(v, env) && OwnersOk(v.owners, v.wallets)
    && (forall w | w in v.wallets :: v.wallets[w].id == w)
    && (id in v.txs ==> v.txs[id].id == id && Holds(v, v.txs[id]))
    && (id in v.txs && v.txs[id].status == PendingReference ==> v.txs[id].failureCode == NoCode && NoEntryYet(v, id))
  }

  /** The method did what the outcome says, but for the answer, which the worker drops. */
  ghost predicate EndsAs(before: Store, after: Store, o: Outcome, err: Option<Error>) {
    match o
    case Committed(writes, _) => err == None && after == Apply(before, writes)
    case Unchanged => err == None && after == before
    case Refused(e) => err == Some(e)
    case Replayed(_) => false
  }

  /** A call's answer over its attempts: the first one that is not a lost race or a taken key. */
  ghost function Answer(s: Store, i: Input, envs: seq<Env>): Result<Output> {
    if envs == [] then Err(ErrTooManyRetries)
    else
      match Process.Attempt(s, i, envs[0])
      case Committed(_, out) => Ok(out)
      case Replayed(out) => Ok(out)
      case Unchanged => Err(ErrTooManyRetries)
      case Refused(e) => if e == ErrOptimisticLock || e == ErrAlreadyExists then Answer(s, i, envs[1..]) else Err(e)
  }

  ghost function StateAfter(s: Store, i: Input, envs: seq<Env>): Store {
    if envs == [] then s
    else
      match Process.Attempt(s, i, envs[0])
      case Refused(e) => if e == ErrOptimisticLock || e == ErrAlreadyExists then StateAfter(s, i, envs[1..]) else s
      case o => After(s, o)
  }

  /** The inbox row is committed together with the outcome's writes, or nothing is. */
  ghost predicate Handled(s: Store, messageId: string, body: Input, o: Outcome, s': Store, err: Option<Error>) {
    match o
    case Committed(writes, _) => err == None && s' == Apply(s, writes.(inbox := Some((messageId, body))))
    case Replayed(_) => err == None && s' == Apply(s, NO_WRITES.(inbox := Some((messageId, body))))
    case Refused(e) => err == Some(e) && s' == s
    case Unchanged => false
  }

  lemma ResumeReady(v: Store, id: Id, env: Env)
    ensures FreshToResume(v, id, env) && id in v.txs && v.txs[id].status == PendingReference && v.txs[id].terms.walletId in v.wallets ==>
      Ready(v, v.txs[id], v.wallets[v.txs[id].terms.walletId], env)
  {
    hide OwnersOk;
  }

  lemma WaitYields(v: Store, after: Store, t: TxRow, w: WalletRow, env: Env, err: Option<Error>)
    requires Holds(v, t) ==>
      match RetryRecorded(t, env.now + ReferenceRetryBackoff(t.retryAttempts + 1), env.now)
      case Ok(t') => err == None && after == v.(txs := v.txs[t'.id := t'])
      case Err(e) => err == Some(e)
    ensures Holds(v, t) ==> EndsAs(v, after, Process.Wait(t, env), err)
  {
    assert v.outbox + [] == v.outbox;
  }

  lemma FollowedEndsAs(v: Store, after: Store, w: WalletRow, t: TxRow, ref: TxRow, env: Env, r: Result<Output>)
    ensures Yields(v, after, WithReference(v, w, t, ref, env), r) ==>
      EndsAs(v, after, WithReference(v, w, t, ref, env), if r.Ok? then None else Some(r.error))
  {
    hide WithReference, Apply;
    LateReference.WithReferenceEnds(v, w, t, ref, env);
  }

  lemma UnsupportedAnswer(s: Store, i: Input, envs: seq<Env>)
    requires !Supported(i.kind) && envs != []
    ensures Answer(s, i, envs) == Err(ErrUnsupportedKind) && StateAfter(s, i, envs) == s
  {
  }

  lemma FreshWithInbox(v: Store, v': Store, env: Env)
    requires v' == v.(inbox := v'.inbox)
    ensures FreshFor(v', env) == FreshFor(v, env)
  {
    hide OwnersOk;
  }

  /** An attempt does not look at the inbox. */
  lemma AttemptIgnoresInbox(v: Store, v': Store, i: Input, env: Env)
    requires v' == v.(inbox := v'.inbox)
    ensures Process.Attempt(v', i, env) == Process.Attempt(v, i, env)
  {
    hide NewExternal, AfterInsert, CanonicalOf;
    assert ResolveByKey(v', i) == ResolveByKey(v, i) && ResolveByOp(v', i) == ResolveByOp(v, i);
    if i.walletId in v.wallets && NewExternal(env.txId, i, v.wallets[i.walletId], env.now).Ok? {
      var t := NewExternal(env.txId, i, v.wallets[i.walletId], env.now).value;
      InsertedIgnoresInbox(PutTx(v, t), PutTx(v', t), v.wallets[i.walletId], t, env);
    }
  }

  lemma InsertedIgnoresInbox(v: Store, v': Store, w: WalletRow, t: TxRow, env: Env)
    requires v' == v.(inbox := v'.inbox)
    ensures AfterInsert(v', w, t, env) == AfterInsert(v, w, t, env)
  {
    hide Process.Reject, Process.Park, Finish, ValidateReference;
    assert forall id :: HasProcessedReversal(v', id) == HasProcessedReversal(v, id);
  }

  lemma AttemptWritesNoInbox(v: Store, i: Input, env: Env)
    ensures Process.Attempt(v, i, env).Committed? ==> Process.Attempt(v, i, env).writes.inbox == None
  {
    hide NewExternal, AfterInsert, ResolveByKey, ResolveByOp;
    if Process.Attempt(v, i, env).Committed? {
      AttemptInserts(v, i, env);
      var w := v.wallets[i.walletId];
      var t := NewExternal(env.txId, i, w, env.now).value;
      InsertedWritesNoInbox(PutTx(v, t), w, t, env);
    }
  }

  lemma InsertedWritesNoInbox(v: Store, w: WalletRow, t: TxRow, env: Env)
    ensures AfterInsert(v, w, t, env).Committed? ==> AfterInsert(v, w, t, env).writes.inbox == None
  {
    hide FindByOp, HasProcessedReversal, ValidateReference, Moved, NewEntry, ReferenceResolved, MarkedProcessed, MarkedRejected,
         MarkedPendingReference;
  }

  /** What the attempt wrote, it wrote on top of the inbox row; no writes of its own touch the inbox. */
  lemma HandledYields(v: Store, messageId: string, body: Input, env: Env, after: Store, r: Result<Output>)
    ensures var view := v.(inbox := v.inbox[messageId := body]); var o := Process.Attempt(v, body, env);
      Yields(view, after, o, r) && (o.Committed? ==> o.writes.inbox == None) ==>
        Handled(v, messageId, body, o, if r.Ok? then after else v, if r.Ok? then None else Some(r.error))
  {
    hide Process.Attempt;
    assert v.outbox + [] == v.outbox;
  }

  lemma ReadyGives(v: Store, t: TxRow, w: WalletRow, env: Env)
    ensures Ready(v, t, w, env) ==> Holds(v, t) && NewIds(v, env) && t.failureCode == NoCode
  {
  }

  lemma ReadyOnceResolved(v: Store, t: TxRow, referenceId: Id, w: WalletRow, env: Env)
    ensures Ready(v, t, w, env) && ReferenceResolved(t, referenceId, env.now).Ok? ==>
      Ready(v, ReferenceResolved(t, referenceId, env.now).value, w, env)
  {
    hide OwnersOk;
  }

  lemma RefusedYields(v: Store, e: Error)
    ensures Yields(v, v, Refused(e), Err(e))
  {
  }

  lemma RefusalsYield(v: Store)
    ensures forall e :: Yields(v, v, Refused(e), Err(e))
  {
  }

  lemma AllRefusalsYield()
    ensures forall v, e :: Yields(v, v, Refused(e), Err(e))
  {
  }

  lemma AttemptReady(v: Store, i: Input, w: WalletRow, t: TxRow, env: Env)
    requires i.walletId in v.wallets && v.wallets[i.walletId] == w && NewExternal(env.txId, i, w, env.now) == Ok(t)
    ensures FreshFor(v, env) ==> Ready(PutTx(v, t), t, w, env)
  {
    hide OwnersOk, NewIds;
    InsertedHolds(v, t);
    if FreshFor(v, env) {
      assert NewIds(PutTx(v, t), env) by { SameIds(v, PutTx(v, t), env); }
    }
  }

  lemma SameIds(v: Store, v': Store, env: Env)
    requires v'.outbox == v.outbox && v'.ledger == v.ledger
    ensures NewIds(v, env) == NewIds(v', env)
  {
  }

  /** What was written after the insert was written on top of the row inserted. */
  lemma AttemptYields(v: Store, after: Store, w: WalletRow, t: TxRow, env: Env, r: Result<Output>)
    ensures Yields(PutTx(v, t), after, AfterInsert(PutTx(v, t), w, t, env), r) ==> Yields(v, after, AfterInsert(PutTx(v, t), w, t, env), r)
  {
    hide AfterInsert, Apply;
    var o := AfterInsert(PutTx(v, t), w, t, env);
    AfterInsertWrites(PutTx(v, t), w, t, env);
    if o.Committed? {
      InsertThenWrite(v, t, o.writes);
    }
  }

  lemma AfterInsertWrites(v: Store, w: WalletRow, t: TxRow, env: Env)
    ensures !AfterInsert(v, w, t, env).Replayed?
    ensures LateReference.WritesOwn(AfterInsert(v, w, t, env), t)
  {
    LateReference.InsertedWritesOwn(v, w, t, env);
    NeverReplays(v, w, t, env);
  }

  lemma NeverReplays(v: Store, w: WalletRow, t: TxRow, env: Env)
    ensures !AfterInsert(v, w, t, env).Replayed?
  {
    hide FindByOp, HasProcessedReversal, ValidateReference, Moved, NewEntry, ReferenceResolved, MarkedProcessed, MarkedRejected,
         MarkedPendingReference;
  }

  /** A movement in one direction: settled, rejected for a shortfall, or refused. */
  ghost function Moving(w: WalletRow, t: TxRow, direction: Direction, shortfall: FailureCode, env: Env): Outcome {
    match Moved(w, direction, t.terms.money, env.now)
    case Err(e) => if e == ErrInsufficientBalance then Process.Reject(t, w, shortfall, env) else Refused(e)
    case Ok(w') => Process.Settle(t, w, w', direction, env)
  }

  lemma FinishMoves(w: WalletRow, t: TxRow, ref: Option<TxRow>, env: Env)
    ensures var direction := DirectionOf(t.terms.kind, if ref.Some? then Some(ref.value.terms.kind) else None);
      Finish(w, t, ref, env) ==
        if direction.Some? then Moving(w, t, direction.value, ShortfallCode(t.terms.kind), env)
        else if t.terms.kind == Loss then Process.Note(t, w, env) else Refused(ErrUnsupportedKind)
  {
    hide Moved, Process.Settle, Process.Reject;
  }

  lemma CreditNeverShort(w: WalletRow, amount: Money, now: Time)
    ensures Credited(w, amount, now) != Err(ErrInsufficientBalance)
  {
  }

  ghost predicate EntryIdNew(s: Store, env: Env) {
    forall e | e in s.ledger :: e.id != env.entryId
  }

  /** In every state the service can be in, unused identifiers are all these methods ask for. */
  lemma GoodStatesSuffice(s: Store, id: Id, env: Env)
    requires StoreInv(s) && Endings.Fresh(s, env) && EntryIdNew(s, env)
    ensures FreshFor(s, env) && FreshToResume(s, id, env)
  {
    hide Rows, OneReversal, Accounts, Entries, Events, InboxBacked, OwnersOk, KeysOk, OpsOk, Holds, NoEntryYet, KeysWith, OpsWith;
    NoEntryForUnmoved(s, env.txId);
    if id in s.txs {
      StoredHolds(s, id);
      if s.txs[id].status == PendingReference {
        NoEntryForUnmoved(s, id);
        WaitingIsPlain(s, id);
      }
    }
  }

  lemma NoEntryForUnmoved(s: Store, id: Id)
    requires Entries(s) && (id in s.txs ==> s.txs[id].status != Processed)
    ensures NoEntryYet(s, id)
  {
    hide DirectionOfRow, HasEntry;
    forall e | e in s.ledger
      ensures e.transactionId != id
    {
      assert EntryOk(s, e);
    }
  }

  lemma StoredHolds(s: Store, id: Id)
    requires KeysOk(s.byKey, s.txs) && OpsOk(s.byOp, s.txs) && id in s.txs && s.txs[id].id == id
    ensures Holds(s, s.txs[id])
  {
  }

  lemma WaitingIsPlain(s: Store, id: Id)
    requires Rows(s) && id in s.txs && s.txs[id].status == PendingReference
    ensures s.txs[id].failureCode == NoCode
  {
    assert RowOk(s, s.txs[id]);
  }

  class ProcessWagerTransaction {
    const db: Database

    constructor (db: Database)
      ensures this.db == db
    {
      this.db := db;
    }

    // ---------------------------------------------------------------- endings

    method Reject(tx: WagerTransaction, w: Wallet, code: FailureCode, env: Env) returns (r: Result<Output>)
      modifies db`view, tx
      ensures old(Holds(db.view, tx.Row()) && NewIds(db.view, env)) ==>
        Yields(old(db.view), db.view, Process.Reject(old(tx.Row()), w.Row(), code, env), r)
    {
      var err := tx.MarkRejectedWithResult(code, w.balance, env.now);
      if err.Some? {
        return Err(err.value);
      }
      err := db.UpdateTx(tx);
      if err.Some? {
        return Err(err.value);
      }
      err := db.CreateEvent(Event(env.event1, tx.terms.walletId, tx.id, env.now, TransactionRejected(tx.id, tx.terms.kind, code)));
      if err.Some? {
        return Err(err.value);
      }
      return Ok(Output(tx.id, tx.status, w.balance, code, false));
    }

    method PendingReference(tx: WagerTransaction, w: Wallet, env: Env) returns (r: Result<Output>)
      modifies db`view, tx
      ensures old(Holds(db.view, tx.Row()) && NewIds(db.view, env) && tx.failureCode == NoCode) ==>
        Yields(old(db.view), db.view, Process.Park(old(tx.Row()), w.Row(), env), r)
    {
      var err := tx.MarkPendingReference(env.now);
      if err.Some? {
        return Err(err.value);
      }
      err := db.UpdateTx(tx);
      if err.Some? {
        return Err(err.value);
      }
      err := db.CreateEvent(Event(env.event1, tx.terms.walletId, tx.id, env.now,
                                  TransactionPendingReference(tx.id, tx.terms.referenceExternalId)));
      if err.Some? {
        return Err(err.value);
      }
      return Ok(Output(tx.id, tx.status, w.balance, NoCode, false));
    }

    method ProcessLoss(tx: WagerTransaction, w: Wallet, env: Env) returns (r: Result<Output>)
      modifies db`view, tx
      ensures old(Holds(db.view, tx.Row()) && NewIds(db.view, env) && tx.failureCode == NoCode) ==>
        Yields(old(db.view), db.view, Process.Note(old(tx.Row()), w.Row(), env), r)
    {
      var err := tx.MarkProcessed(w.balance, env.now);
      if err.Some? {
        return Err(err.value);
      }
      err := db.UpdateTx(tx);
      if err.Some? {
        return Err(err.value);
      }
      err := db.CreateEvent(ProcessedEvent(env.event1, tx.Row(), env.now));
      if err.Some? {
        return Err(err.value);
      }
      return Ok(Output(tx.id, tx.status, w.balance, NoCode, false));
    }

    method Announce(processed: Event, moved: Event) returns (err: Option<Error>)
      modifies db`view
      ensures processed.id != moved.id && (forall e | e in old(db.view).outbox :: e.id != processed.id && e.id != moved.id) ==>
        err == None && db.view == old(db.view).(outbox := old(db.view).outbox + [processed, moved])
    {
      err := db.CreateEvent(processed);
      if err.None? {
        ghost var before := db.view.outbox;
        err := db.CreateEvent(moved);
        assert forall e | e in before :: e in old(db.view).outbox || e == processed;
      }
    }

    /** The wallet has been debited or credited in memory; `before` is the row it was loaded from. The save goes through
        exactly when the stored version is still the one it was loaded at. */
    method Settle(tx: WagerTransaction, w: Wallet, ghost before: WalletRow, previousVersion: nat, balanceBefore: Money,
                  direction: Direction, env: Env) returns (r: Result<Output>)
      modifies db`view, tx
      ensures old(w.id !in db.view.wallets || db.view.wallets[w.id].version != previousVersion) ==>
        r == Err(ErrOptimisticLock) && db.view == old(db.view)
      ensures old(CanSettle(db.view, tx.Row(), w.Row(), before, previousVersion, balanceBefore, env)) ==>
        Yields(old(db.view), db.view, Process.Settle(old(tx.Row()), before, w.Row(), direction, env), r)
    {
      hide OwnersOk, NewEntry;
      ghost var v := db.view;
      var err := db.SaveWallet(w, previousVersion);
      if err.Some? {
        return Err(err.value);
      }
      var entry := NewEntry(env.entryId, w.id, tx.id, direction, tx.terms.money, balanceBefore, w.balance, env.now);
      if entry.Err? {
        return Err(entry.error);
      }
      EntryIsAsGiven(env.entryId, w.id, tx.id, direction, tx.terms.money, balanceBefore, w.balance, env.now);
      err := db.CreateEntry(entry.value);
      if err.Some? {
        return Err(err.value);
      }
      err := tx.MarkProcessed(w.balance, env.now);
      if err.Some? {
        return Err(err.value);
      }
      err := db.UpdateTx(tx);
      if err.Some? {
        return Err(err.value);
      }
      err := Announce(ProcessedEvent(env.event1, tx.Row(), env.now), BalanceEvent(env.event2, tx.Row(), entry.value, w.Row(), env.now));
      if err.Some? {
        return Err(err.value);
      }
      if CanSettle(v, old(tx.Row()), w.Row(), before, previousVersion, balanceBefore, env) {
        OwnerStays(v, before, w.Row());
      }
      return Ok(Output(tx.id, tx.status, w.balance, NoCode, false));
    }

    // ---------------------------------------------------------------- decisions

    /** Debit in memory and settle; a debit that is not covered is a rejection. */
    method DebitAndSettle(tx: WagerTransaction, w: Wallet, shortfall: FailureCode, env: Env) returns (r: Result<Output>)
      modifies db`view, tx, w
      ensures old(Ready(db.view, tx.Row(), w.Row(), env)) ==>
        Yields(old(db.view), db.view, Moving(old(w.Row()), old(tx.Row()), Debit, shortfall, env), r)
    {
      hide Process.Settle, Process.Reject, Debited;
      ghost var before, ready := w.Row(), Ready(db.view, tx.Row(), w.Row(), env);
      var previousVersion, balanceBefore, amount := w.version, w.balance, tx.terms.money;
      var err := w.Debit(amount, env.now);
      if err == Some(ErrInsufficientBalance) {
        r := Reject(tx, w, shortfall, env);
        return;
      }
      if err.Some? {
        return Err(err.value);
      }
      if ready {
        DebitCanSettle(db.view, tx.Row(), before, w.Row(), amount, env);
      }
      r := Settle(tx, w, before, previousVersion, balanceBefore, Debit, env);
    }

    method CreditAndSettle(tx: WagerTransaction, w: Wallet, env: Env) returns (r: Result<Output>)
      modifies db`view, tx, w
      ensures old(Ready(db.view, tx.Row(), w.Row(), env)) ==> forall shortfall ::
        Yields(old(db.view), db.view, Moving(old(w.Row()), old(tx.Row()), Credit, shortfall, env), r)
    {
      hide Process.Settle, Process.Reject, Credited;
      ghost var before, ready := w.Row(), Ready(db.view, tx.Row(), w.Row(), env);
      var previousVersion, balanceBefore, amount := w.version, w.balance, tx.terms.money;
      CreditNeverShort(before, amount, env.now);
      var err := w.Credit(amount, env.now);
      if err.Some? {
        return Err(err.value);
      }
      if ready {
        CreditCanSettle(db.view, tx.Row(), before, w.Row(), amount, env);
      }
      r := Settle(tx, w, before, previousVersion, balanceBefore, Credit, env);
    }

    /** The switch on the kind; a rollback undoes what its reference did. */
    method Move(tx: WagerTransaction, w: Wallet, reference: WagerTransaction?, env: Env) returns (r: Result<Output>)
      requires reference != tx
      modifies db`view, tx, w
      ensures old(Ready(db.view, tx.Row(), w.Row(), env)) ==>
        Yields(old(db.view), db.view, Finish(old(w.Row()), old(tx.Row()), old(RowOf(reference)), env), r)
    {
      hide Ready, Moving, Note;
      FinishMoves(w.Row(), tx.Row(), RowOf(reference), env);
      match tx.terms.kind {
        case Bet => r := DebitAndSettle(tx, w, InsufficientBalance, env);
        case Win => r := CreditAndSettle(tx, w, env);
        case Refund => r := CreditAndSettle(tx, w, env);
        case Rollback =>
          if reference != null && (reference.terms.kind == Win || reference.terms.kind == Refund) {
            r := DebitAndSettle(tx, w, ReversalInsufficientBalance, env);
          } else {
            r := CreditAndSettle(tx, w, env);
          }
        case Loss =>
          ReadyGives(db.view, tx.Row(), w.Row(), env);
          r := ProcessLoss(tx, w, env);
        case Opening => return Err(ErrUnsupportedKind);
        case Other(_) => return Err(ErrUnsupportedKind);
      }
    }

    /** From a processed reference on. */
    method FollowReference(tx: WagerTransaction, w: Wallet, reference: WagerTransaction, env: Env) returns (r: Result<Output>)
      requires reference != tx
      modifies db`view, tx, w
      ensures old(Ready(db.view, tx.Row(), w.Row(), env)) ==>
        Yields(old(db.view), db.view, WithReference(old(db.view), old(w.Row()), old(tx.Row()), old(reference.Row()), env), r)
    {
      hide Ready, Process.Reject, Finish, HasProcessedReversal, ValidateReference, Yields;
      ReadyGives(db.view, tx.Row(), w.Row(), env);
      var failureCode := ValidateReference(tx.terms, reference.terms);
      if failureCode != NoCode {
        r := Reject(tx, w, failureCode, env);
        return;
      }
      if tx.terms.kind == Refund || tx.terms.kind == Rollback {
        if HasProcessedReversal(db.view, reference.id) {
          r := Reject(tx, w, ReferenceAlreadyReversed, env);
          return;
        }
      }
      ghost var before := tx.Row();
      var err := tx.ResolveReference(reference.id, env.now);
      if err.Some? {
        RefusedYields(db.view, err.value);
        return Err(err.value);
      }
      ReadyOnceResolved(db.view, before, reference.id, w.Row(), env);
      r := Move(tx, w, reference, env);
    }

    /** The attempt after its insert. */
    method Proceed(tx: WagerTransaction, w: Wallet, env: Env) returns (r: Result<Output>)
      modifies db`view, tx, w
      ensures old(Ready(db.view, tx.Row(), w.Row(), env)) ==>
        Yields(old(db.view), db.view, AfterInsert(old(db.view), old(w.Row()), old(tx.Row()), env), r)
    {
      hide Ready, Process.Reject, Process.Park, Finish, WithReference, FindByOp, Yields;
      ReadyGives(db.view, tx.Row(), w.Row(), env);
      if w.balance.currency != tx.terms.money.currency {
        r := Reject(tx, w, CurrencyMismatch, env);
        return;
      }
      if tx.terms.referenceExternalId == "" {
        r := Move(tx, w, null, env);
        return;
      }
      var reference := db.FindTxByOp(tx.terms.providerId, tx.terms.referenceExternalId);
      if reference == null {
        r := PendingReference(tx, w, env);
        return;
      }
      if reference.status != Processed {
        if IsTerminal(reference.status) {
          r := Reject(tx, w, ReferenceNotProcessable, env);
        } else {
          r := PendingReference(tx, w, env);
        }
        return;
      }
      r := FollowReference(tx, w, reference, env);
    }

    // ---------------------------------------------------------------- attempt

    method ReplayOutput(t: WagerTransaction) returns (r: Result<Output>)
      ensures Yields(db.view, db.view, Replay(db.view, t.Row()), r)
    {
      if t.financialResult.Some? {
        return Ok(Output(t.id, t.status, t.financialResult.value, t.failureCode, true));
      }
      var w, err := db.FindWallet(t.terms.walletId);
      if w == null {
        return Err(ErrNotFound);
      }
      return Ok(Output(t.id, t.status, w.balance, t.failureCode, true));
    }

    /** By key first, then by the provider's operation. */
    method ResolveExisting(i: Input) returns (r: Option<Result<Output>>)
      ensures var o := if ResolveByKey(db.view, i).Some? then ResolveByKey(db.view, i) else ResolveByOp(db.view, i);
        if o.Some? then r.Some? && Yields(db.view, db.view, o.value, r.value) else r == None
    {
      hide FindByKey, FindByOp, CanonicalOf, Replay, Yields;
      assert forall e :: Yields(db.view, db.view, Refused(e), Err(e)) by { RefusalsYield(db.view); }
      if i.idempotencyKey != "" {
        var existing := db.FindTxByKey(i.idempotencyKey);
        if existing != null {
          if existing.terms.payloadHash != Some(CanonicalOf(i)) {
            return Some(Err(ErrIdempotencyConflict));
          }
          var out := ReplayOutput(existing);
          return Some(out);
        }
      }
      var byOp := db.FindTxByOp(i.providerId, i.externalId);
      if byOp == null {
        return None;
      }
      if byOp.terms.idempotencyKey != i.idempotencyKey || byOp.terms.payloadHash != Some(CanonicalOf(i)) {
        return Some(Err(ErrIdempotencyConflict));
      }
      var out := ReplayOutput(byOp);
      return Some(out);
    }

    /** One attempt inside an open transaction: with unused identifiers it does exactly what the model says. */
    method Attempt(i: Input, env: Env) returns (r: Result<Output>)
      modifies db`view
      ensures old(FreshFor(db.view, env)) ==> Yields(old(db.view), db.view, Process.Attempt(old(db.view), i, env), r)
    {
      hide FreshFor, ResolveByKey, ResolveByOp, NewExternal, Taken, AfterInsert, Yields, Ready;
      assert forall v, e :: Yields(v, v, Refused(e), Err(e)) by { AllRefusalsYield(); }
      if !Supported(i.kind) {
        return Err(ErrUnsupportedKind);
      }
      var existing := ResolveExisting(i);
      if existing.Some? {
        return existing.value;
      }
      var w, _ := db.FindWallet(i.walletId);
      if w == null {
        return Err(ErrNotFound);
      }
      if w.playerId != i.playerId {
        return Err(ErrWalletPlayerMismatch);
      }
      var built := NewExternal(env.txId, i, w.Row(), env.now);
      if built.Err? {
        return Err(built.error);
      }
      var tx := new WagerTransaction.Rehydrate(built.value);
      ghost var before, t := db.view, built.value;
      var err := db.CreateTx(tx);
      if err.Some? {
        return Err(err.value);
      }
      ghost var wallet := w.Row();
      AttemptReady(before, i, wallet, t, env);
      r := Proceed(tx, w, env);
      AttemptYields(before, db.view, wallet, t, env, r);
    }

    // ---------------------------------------------------------------- waiting rows

    /** Inside an open transaction: the row is locked and re-read, and finished, delayed or left alone. */
    method Resume(id: Id, env: Env) returns (err: Option<Error>)
      modifies db`view
      ensures old(FreshToResume(db.view, id, env)) ==> EndsAs(old(db.view), db.view, Process.Resume(old(db.view), id, env), err)
    {
      hide FreshToResume, Yields, Wait, WithReference, FindByOp, Ready;
      var tx, missing := db.FindTx(id);
      if tx == null {
        return Some(ErrNotFound);
      }
      if tx.status != Status.PendingReference {
        return None;
      }
      var w, _ := db.FindWallet(tx.terms.walletId);
      if w == null {
        return Some(ErrNotFound);
      }
      ghost var v, t, row := db.view, tx.Row(), w.Row();
      ResumeReady(v, id, env);
      ReadyGives(v, t, row, env);
      var reference := db.FindTxByOp(tx.terms.providerId, tx.terms.referenceExternalId);
      if reference == null || reference.status != Processed {
        err := WaitLonger(tx, env);
        WaitYields(v, db.view, t, row, env, err);
        return;
      }
      ghost var refRow := reference.Row();
      var r := FollowReference(tx, w, reference, env);
      FollowedEndsAs(v, db.view, row, t, refRow, env, r);
      return if r.Ok? then None else Some(r.error);
    }

    method WaitLonger(tx: WagerTransaction, env: Env) returns (err: Option<Error>)
      modifies db`view, tx
      ensures old(Holds(db.view, tx.Row())) ==>
        match RetryRecorded(old(tx.Row()), env.now + ReferenceRetryBackoff(old(tx.retryAttempts) + 1), env.now)
        case Ok(t) => err == None && db.view == old(db.view).(txs := old(db.view).txs[t.id := t])
        case Err(e) => err == Some(e)
    {
      var nextRetryAt := env.now + ReferenceRetryBackoff(tx.retryAttempts + 1);
      err := tx.RecordReferenceRetryAttempt(nextRetryAt, env.now);
      if err.Some? {
        return;
      }
      err := db.UpdateTx(tx);
    }

    method Expire(id: Id, env: Env) returns (err: Option<Error>)
      modifies db`view
      ensures old(FreshToResume(db.view, id, env)) ==> EndsAs(old(db.view), db.view, Process.Expire(old(db.view), id, env), err)
    {
      var tx, missing := db.FindTx(id);
      if tx == null {
        return Some(ErrNotFound);
      }
      if tx.status != Status.PendingReference {
        return None;
      }
      err := tx.MarkFailed(ReferenceExpired, env.now);
      if err.Some? {
        return;
      }
      err := db.UpdateTx(tx);
      if err.Some? {
        return;
      }
      err := db.CreateEvent(Event(env.event1, tx.terms.walletId, tx.id, env.now,
                                  TransactionExpired(tx.id, tx.terms.referenceExternalId, ReferenceExpired)));
    }

    // ---------------------------------------------------------------- units of work

    /** Commits when there was no error and rolls back otherwise. */
    method CommitOrRollback(err: Option<Error>)
      modifies db
      ensures db.committed == (if err.None? then old(db.view) else old(db.committed)) == db.view
    {
      if err.None? {
        db.Commit();
      } else {
        db.Rollback();
      }
    }

    method ResumePendingReference(id: Id, env: Env) returns (err: Option<Error>)
      modifies db
      ensures old(FreshToResume(db.committed, id, env)) ==>
        && db.committed == After(old(db.committed), Process.Resume(old(db.committed), id, env))
        && (err.Some? <==> Process.Resume(old(db.committed), id, env).Refused?)
    {
      hide FreshToResume, Process.Resume;
      db.Begin();
      err := Resume(id, env);
      ghost var view := db.view;
      CommitOrRollback(err);
    }

    method ExpirePendingReference(id: Id, env: Env) returns (err: Option<Error>)
      modifies db
      ensures old(FreshToResume(db.committed, id, env)) ==>
        && db.committed == After(old(db.committed), Process.Expire(old(db.committed), id, env))
        && (err.Some? <==> Process.Expire(old(db.committed), id, env).Refused?)
    {
      hide FreshToResume, Process.Expire;
      db.Begin();
      err := Expire(id, env);
      CommitOrRollback(err);
    }

    /** The retry loop: each attempt in a transaction of its own, one set of identifiers each. */
    method Execute(i: Input, envs: seq<Env>) returns (r: Result<Output>)
      requires |envs| == MAX_RETRIES
      modifies db
      ensures old(forall k | 0 <= k < |envs| :: FreshFor(db.committed, envs[k])) ==>
        && r == Answer(old(db.committed), i, envs)
        && db.committed == StateAfter(old(db.committed), i, envs)
      ensures r.Err? ==> db.committed == old(db.committed)
    {
      hide FreshFor, Process.Attempt;
      ghost var unused := forall k | 0 <= k < |envs| :: FreshFor(db.committed, envs[k]);
      if !Supported(i.kind) {
        UnsupportedAnswer(db.committed, i, envs);
        return Err(ErrUnsupportedKind);
      }
      for attempt := 0 to MAX_RETRIES
        invariant db.committed == old(db.committed)
        invariant unused ==> Answer(db.committed, i, envs) == Answer(db.committed, i, envs[attempt..])
        invariant unused ==> StateAfter(db.committed, i, envs) == StateAfter(db.committed, i, envs[attempt..])
      {
        db.Begin();
        r := Attempt(i, envs[attempt]);
        CommitOrRollback(if r.Err? then Some(r.error) else None);
        assert envs[attempt..][0] == envs[attempt] && envs[attempt..][1..] == envs[attempt + 1..];
        if r.Ok? {
          return;
        }
        if r.error != ErrOptimisticLock && r.error != ErrAlreadyExists {
          return;
        }
      }
      assert envs[MAX_RETRIES..] == [];
      return Err(ErrTooManyRetries);
    }

    // ---------------------------------------------------------------- messages

    /** One message: inbox row and effect in one transaction, or nothing at all. */
    method Handle(messageId: string, body: Input, env: Env) returns (err: Option<Error>, ghost duplicate: bool)
      modifies db
      ensures duplicate == (messageId in old(db.committed).inbox && messageId != "")
      ensures messageId == "" ==> err == Some(ErrInvalidEnvelope)
      ensures duplicate ==> err == None && db.committed == old(db.committed)
      ensures err.Some? ==> db.committed == old(db.committed)
      ensures old(FreshFor(db.committed, env)) && messageId != "" && !duplicate ==>
        Handled(old(db.committed), messageId, body, Process.Attempt(old(db.committed), body, env), db.committed, err)
    {
      hide FreshFor, Process.Attempt;
      duplicate := false;
      if messageId == "" {
        return Some(ErrInvalidEnvelope), false;
      }
      db.Begin();
      var known := db.CreateInbox(messageId, body);
      if known.Some? {
        CommitOrRollback(None);
        return None, true;
      }
      ghost var v, view := old(db.committed), db.view;
      FreshWithInbox(v, view, env);
      var r := Attempt(body, env);
      AttemptIgnoresInbox(v, view, body, env);
      HandledYields(v, messageId, body, env, db.view, r);
      AttemptWritesNoInbox(v, body, env);
      err := if r.Ok? then None else Some(r.error);
      CommitOrRollback(err);
    }
  }

  lemma EntryIsAsGiven(id: Id, walletId: Id, txId: Id, direction: Direction, amount: Money, before: Money, after: Money, at: Time)
    requires NewEntry(id, walletId, txId, direction, amount, before, after, at).Ok?
    ensures NewEntry(id, walletId, txId, direction, amount, before, after, at).value
         == Entry(id, walletId, txId, direction, amount, before, after, at)
  {
  }

  /** Saving a wallet leaves the owner index as it is. */
  lemma OwnerStays(v: Store, w: WalletRow, w': WalletRow)
    requires OwnersOk(v.owners, v.wallets) && w.id in v.wallets && v.wallets[w.id] == w
    requires w'.id == w.id && w'.playerId == w.playerId && w'.balance.currency == w.balance.currency
    ensures v.owners[(w'.playerId, w'.balance.currency) := w'.id] == v.owners
  {
    assert OwnerOf(w) in v.owners && v.owners[OwnerOf(w)] == w.id;
  }
}
