/** The other direction: an operation whose locks nobody else holds can run through all its steps, whatever else is under
    way, and ends exactly as the sequential model says. So the steps neither get stuck nor do less than the use cases do. */
module Undisturbed {
  import opened Wrappers
  import opened Money
  import opened Wallet
  import opened WagerTx
  import opened Ledger
  import opened Store
  import opened Process
  import opened Invariants
  import opened Machine
  import opened Sessions
  import opened Commits
  import opened Safety
  import opened Delivery
  import Atomic
  import Steps
  import Locking
  import UseCases

  /** The session has come to the end the outcome describes. */
  ghost predicate EndsLike(s: Session, o: Outcome, inbox: Option<(string, Input)>) {
    match o
    case Committed(d, out) => s.phase.Decided? && s.phase.out == out && s.writes == d.(inbox := inbox)
    case Replayed(out) => s.phase.Decided? && s.phase.out == out && s.writes == NO_WRITES.(inbox := inbox)
    case Unchanged => s.phase.Decided? && s.writes == NO_WRITES.(inbox := inbox)
    case Refused(e) => s.phase == Aborted(e)
  }

  /** On an unchanging log the session comes to that end within `n` steps. */
  ghost predicate Leads(log: seq<Store>, s: Session, o: Outcome, inbox: Option<(string, Input)>, n: nat)
    requires log != []
    decreases n
  {
    if !Active(s) then EndsLike(s, o, inbox) else n > 0 && Leads(log, Advance(log, s), o, inbox, n - 1)
  }

  lemma {:induction false} MoreSteps(log: seq<Store>, s: Session, o: Outcome, inbox: Option<(string, Input)>, n: nat, k: nat)
    requires log != [] && Leads(log, s, o, inbox, n) && n <= k
    ensures Leads(log, s, o, inbox, k)
    decreases n
  {
    hide Advance, EndsLike;
    if Active(s) {
      MoreSteps(log, Advance(log, s), o, inbox, n - 1, k - 1);
    }
  }

  /** Deciding on an outcome is coming to its end, for outcomes on which nothing was written before. */
  lemma DecidedEnds(log: seq<Store>, s: Session, o: Outcome, d: Decision, rw: nat, rr: nat, rc: nat)
    requires log != [] && (o.Committed? || o.Refused?)
    ensures Leads(log, Decide(s, o, d, rw, rr, rc), o, s.writes.inbox, 0)
  {
  }

  ghost predicate Proper(o: Outcome) {
    o.Committed? || o.Refused?
  }

  lemma EndingsProper(t: TxRow, w: WalletRow, w': WalletRow, code: FailureCode, direction: Direction, env: Env)
    ensures Proper(Process.Reject(t, w, code, env)) && Proper(Park(t, w, env)) && Proper(Note(t, w, env)) && Proper(Wait(t, env))
    ensures Proper(Settle(t, w, w', direction, env))
  {
  }

  // ---------------------------------------------------------------- from the end backwards

  lemma SavedLeads(log: seq<Store>, s: Session)
    requires log != [] && s.phase.Saved?
    ensures var r := ResolvedRow(s.phase.t, s.phase.ref, s.env.now);
      Leads(log, s, Settle(r, s.phase.w, s.phase.w', s.phase.direction, s.env), s.writes.inbox, 1)
  {
    hide Settle, ResolvedRow, Leads;
    var r := ResolvedRow(s.phase.t, s.phase.ref, s.env.now);
    var o := Settle(r, s.phase.w, s.phase.w', s.phase.direction, s.env);
    EndingsProper(r, s.phase.w, s.phase.w', NoCode, s.phase.direction, s.env);
    DecidedEnds(log, s, o, Settled(s.phase.w, s.phase.t, s.phase.ref, s.phase.w', s.phase.direction), s.phase.rw, s.phase.rr, s.phase.rc);
    OneStep(log, s, o, s.writes.inbox, 0);
  }

  lemma OneStep(log: seq<Store>, s: Session, o: Outcome, inbox: Option<(string, Input)>, n: nat)
    requires log != [] && Active(s) && Leads(log, Advance(log, s), o, inbox, n)
    ensures Leads(log, s, o, inbox, n + 1)
  {
    hide Advance;
  }

  /** The wallet a session read is still the committed one, and the session has not written it. */
  ghost predicate Current(log: seq<Store>, s: Session, w: WalletRow)
    requires log != []
  {
    w.id in Db(log).wallets && Db(log).wallets[w.id] == w && s.writes.wallet == None && s.fails == []
  }

  lemma ClearedLeads(log: seq<Store>, s: Session)
    requires log != [] && s.phase.Cleared? && Current(log, s, s.phase.w)
    ensures Leads(log, s, Finish(s.phase.w, ResolvedRow(s.phase.t, s.phase.ref, s.env.now), s.phase.ref, s.env), s.writes.inbox, 2)
  {
    hide Leads, Settle, Process.Reject, Note, Moved, ResolvedRow;
    var w, rw, t, ref, rr, rc := s.phase.w, s.phase.rw, s.phase.t, s.phase.ref, s.phase.rr, s.phase.rc;
    var r := ResolvedRow(t, ref, s.env.now);
    SameTerms(t, ref, s.env.now);
    var o := Finish(w, r, ref, s.env);
    var s' := Advance(log, s);
    EndingsProper(r, w, w, ShortfallCode(t.terms.kind), Debit, s.env);
    var direction := DirectionOf(t.terms.kind, KindOf(ref));
    if direction.None? {
      DecidedOrAborted(log, s, s', o, Noted(w, t), rw, rr, rc);
    } else if Moved(w, direction.value, t.terms.money, s.env.now).Err? {
      DecidedOrAborted(log, s, s', o, Declined(w, rw, t, ShortfallCode(t.terms.kind), Shortfall(ref, direction.value)), rw, rr, rc);
    } else {
      SavedLeads(log, s');
    }
    if s'.phase.Saved? {
      OneStep(log, s, o, s.writes.inbox, 1);
    } else {
      MoreSteps(log, s', o, s.writes.inbox, 0, 1);
      OneStep(log, s, o, s.writes.inbox, 1);
    }
  }

  lemma SameTerms(t: TxRow, ref: Option<TxRow>, now: Time)
    ensures ResolvedRow(t, ref, now).terms == t.terms
  {
  }

  lemma DecidedOrAborted(log: seq<Store>, s: Session, s': Session, o: Outcome, d: Decision, rw: nat, rr: nat, rc: nat)
    requires log != [] && Proper(o)
    requires s' == Decide(s, o, d, rw, rr, rc) || (o.Refused? && s' == Abort(s, o.error))
    ensures Leads(log, s', o, s.writes.inbox, 0)
  {
  }

  lemma ReferencedLeads(log: seq<Store>, s: Session)
    requires log != [] && s.phase.Referenced? && Current(log, s, s.phase.w)
    requires ValidateReference(s.phase.t.terms, s.phase.found.terms) == NoCode
    ensures Leads(log, s, WithReference(Apply(Db(log), s.writes), s.phase.w, s.phase.t, s.phase.found, s.env), s.writes.inbox, 3)
  {
    hide Leads, Process.Reject, Finish, HasProcessedReversal, Apply, ValidateReference;
    var w, rw, t, ref, rr, at := s.phase.w, s.phase.rw, s.phase.t, s.phase.found, s.phase.rr, |log| - 1;
    var v := Apply(Db(log), s.writes);
    var o, s' := WithReference(v, w, t, ref, s.env), Advance(log, s);
    EndingsProper(t, w, w, ReferenceAlreadyReversed, Debit, s.env);
    if s'.phase.Cleared? {
      ClearedLeads(log, s');
    } else {
      DecidedOrAborted(log, s, s', o, Declined(w, rw, t, ReferenceAlreadyReversed, Reversed(ref, rr, at)), rw, rr, at);
      MoreSteps(log, s', o, s.writes.inbox, 0, 2);
    }
    OneStep(log, s, o, s.writes.inbox, 2);
  }

  /** The outcome of the part of a use case that follows the read of the wallet. */
  ghost function FromLoaded(v: Store, w: WalletRow, t: TxRow, env: Env, resuming: bool): Outcome {
    if resuming then AfterWait(v, w, t, env) else AfterInsert(v, w, t, env)
  }

  lemma LoadedLeads(log: seq<Store>, s: Session)
    requires log != [] && s.phase.Loaded? && Current(log, s, s.phase.w)
    ensures Leads(log, s, FromLoaded(Apply(Db(log), s.writes), s.phase.w, s.phase.t, s.env, s.op.ResumeRow?), s.writes.inbox, 4)
  {
    hide Leads, Process.Reject, Park, Wait, Finish, WithReference, Apply, FindByOp, ValidateReference;
    var w, rw, t, at := s.phase.w, s.phase.rw, s.phase.t, |log| - 1;
    var v := Apply(Db(log), s.writes);
    var o, s' := FromLoaded(v, w, t, s.env, s.op.ResumeRow?), Advance(log, s);
    var found := FindByOp(v, t.terms.providerId, t.terms.referenceExternalId);
    EndingsProper(t, w, w, CurrencyMismatch, Debit, s.env);
    EndingsProper(t, w, w, ReferenceNotProcessable, Debit, s.env);
    if found.Some? {
      EndingsProper(t, w, w, ValidateReference(t.terms, found.value.terms), Debit, s.env);
    }
    if s'.phase.Cleared? {
      ClearedLeads(log, s');
      MoreSteps(log, s', o, s.writes.inbox, 2, 3);
    } else if s'.phase.Referenced? {
      ReferencedLeads(log, s');
    } else {
      LoadedEnds(log, s);
      MoreSteps(log, s', o, s.writes.inbox, 0, 3);
    }
    OneStep(log, s, o, s.writes.inbox, 3);
  }

  lemma LoadedEnds(log: seq<Store>, s: Session)
    requires log != [] && s.phase.Loaded?
    requires var p := Advance(log, s).phase; !p.Cleared? && !p.Referenced?
    ensures Leads(log, Advance(log, s), FromLoaded(Apply(Db(log), s.writes), s.phase.w, s.phase.t, s.env, s.op.ResumeRow?), s.writes.inbox, 0)
  {
    hide Process.Reject, Park, Wait, Finish, Apply, FindByOp, ValidateReference, Leads;
    var w, rw, t, at := s.phase.w, s.phase.rw, s.phase.t, |log| - 1;
    var v := Apply(Db(log), s.writes);
    var found := FindByOp(v, t.terms.providerId, t.terms.referenceExternalId);
    EndingsProper(t, w, w, CurrencyMismatch, Debit, s.env);
    EndingsProper(t, w, w, ReferenceNotProcessable, Debit, s.env);
    DecidedEnds(log, s, Process.Reject(t, w, CurrencyMismatch, s.env), Declined(w, rw, t, CurrencyMismatch, OtherCurrency), rw, at, at);
    DecidedEnds(log, s, Park(t, w, s.env), Parked(w, t), rw, at, at);
    DecidedEnds(log, s, Wait(t, s.env), Waited(w, t), rw, at, at);
    if found.Some? {
      var code := ValidateReference(t.terms, found.value.terms);
      EndingsProper(t, w, w, code, Debit, s.env);
      DecidedEnds(log, s, Process.Reject(t, w, ReferenceNotProcessable, s.env),
                  Declined(w, rw, t, ReferenceNotProcessable, BadReference(found.value, at)), rw, at, at);
      DecidedEnds(log, s, Process.Reject(t, w, code, s.env), Declined(w, rw, t, code, BadReference(found.value, at)), rw, at, at);
    }
  }

  // ---------------------------------------------------------------- the steps of an attempt

  lemma InsertView(db: Store, d: Writes, t: TxRow)
    requires d.tx.None?
    ensures Apply(db, d.(tx := Some(t))) == PutTx(Apply(db, d), t)
  {
  }

  ghost function FromWallet(v: Store, i: Input, w: WalletRow, env: Env): Outcome {
    match NewExternal(env.txId, i, w, env.now)
    case Err(e) => Refused(e)
    case Ok(t) => if Taken(v, t) then Refused(ErrAlreadyExists) else AfterInsert(PutTx(v, t), w, t, env)
  }

  lemma WalletReadLeads(log: seq<Store>, s: Session, i: Input)
    requires log != [] && s.phase.WalletRead? && (s.op == HttpCall(i) || (s.op.SqsMessage? && s.op.input == i))
    requires Current(log, s, s.phase.w) && s.writes.tx == None
    ensures Leads(log, s, FromWallet(Apply(Db(log), s.writes), i, s.phase.w, s.env), s.writes.inbox, 5)
  {
    hide Leads, AfterInsert, NewExternal, Taken, Apply, PutTx;
    var w, v := s.phase.w, Apply(Db(log), s.writes);
    var o, s' := FromWallet(v, i, w, s.env), Advance(log, s);
    if s'.phase.Loaded? {
      InsertView(Db(log), s.writes, s'.phase.t);
      LoadedLeads(log, s');
    } else {
      AbortedLeads(log, s, s', o);
      MoreSteps(log, s', o, s.writes.inbox, 0, 4);
    }
    OneStep(log, s, o, s.writes.inbox, 4);
  }

  lemma AbortedLeads(log: seq<Store>, s: Session, s': Session, o: Outcome)
    requires log != [] && o.Refused? && s'.phase == Aborted(o.error)
    ensures Leads(log, s', o, s.writes.inbox, 0)
  {
  }

  ghost function FromLookups(v: Store, i: Input, env: Env): Outcome {
    if i.walletId !in v.wallets then Refused(ErrNotFound)
    else if v.wallets[i.walletId].playerId != i.playerId then Refused(ErrWalletPlayerMismatch)
    else FromWallet(v, i, v.wallets[i.walletId], env)
  }

  /** A session that has read and written nothing yet, on a database whose wallets lie under their ids. */
  ghost predicate Untouched(log: seq<Store>, s: Session, i: Input)
    requires log != []
  {
    && s.writes == NO_WRITES.(inbox := s.writes.inbox) && s.fails == []
    && (s.op == HttpCall(i) || (s.op.SqsMessage? && s.op.input == i))
    && forall id | id in Db(log).wallets :: Db(log).wallets[id].id == id
  }

  lemma OpMissedLeads(log: seq<Store>, s: Session, i: Input)
    requires log != [] && s.phase == OpMissed && Untouched(log, s, i)
    ensures Leads(log, s, FromLookups(Apply(Db(log), s.writes), i, s.env), s.writes.inbox, 6)
  {
    hide Leads, FromWallet;
    var o, s' := FromLookups(Apply(Db(log), s.writes), i, s.env), Advance(log, s);
    if s'.phase.WalletRead? {
      WalletReadLeads(log, s', i);
    } else {
      AbortedLeads(log, s, s', o);
      MoreSteps(log, s', o, s.writes.inbox, 0, 5);
    }
    OneStep(log, s, o, s.writes.inbox, 5);
  }

  lemma FoundLeads(log: seq<Store>, s: Session)
    requires log != [] && s.phase.Found? && s.writes == NO_WRITES.(inbox := s.writes.inbox)
    ensures Leads(log, s, Replay(Apply(Db(log), s.writes), s.phase.t), s.writes.inbox, 1)
  {
    var o := Replay(Apply(Db(log), s.writes), s.phase.t);
    OneStep(log, s, o, s.writes.inbox, 0);
  }

  ghost function FromKeyMissed(v: Store, i: Input, env: Env): Outcome {
    if ResolveByOp(v, i).Some? then ResolveByOp(v, i).value else FromLookups(v, i, env)
  }

  lemma KeyMissedLeads(log: seq<Store>, s: Session, i: Input)
    requires log != [] && s.phase.KeyMissed? && Untouched(log, s, i)
    ensures Leads(log, s, FromKeyMissed(Apply(Db(log), s.writes), i, s.env), s.writes.inbox, 7)
  {
    hide Leads, FromLookups, Replay, FindByOp, CanonicalOf, Apply;
    var v := Apply(Db(log), s.writes);
    var o, s' := FromKeyMissed(v, i, s.env), Advance(log, s);
    if s'.phase.Found? {
      FoundLeads(log, s');
      MoreSteps(log, s', o, s.writes.inbox, 1, 6);
    } else if s'.phase == OpMissed {
      OpMissedLeads(log, s', i);
    } else {
      AbortedLeads(log, s, s', o);
      MoreSteps(log, s', o, s.writes.inbox, 0, 6);
    }
    OneStep(log, s, o, s.writes.inbox, 6);
  }

  lemma AttemptUnfolds(v: Store, i: Input, env: Env)
    requires Supported(i.kind)
    ensures Attempt(v, i, env) == if ResolveByKey(v, i).Some? then ResolveByKey(v, i).value else FromKeyMissed(v, i, env)
  {
    hide NewExternal, AfterInsert, Taken, ResolveByKey, ResolveByOp;
  }

  /** An attempt from its first step. */
  lemma AttemptLeads(log: seq<Store>, s: Session, i: Input)
    requires log != [] && s.phase == Begun && Untouched(log, s, i)
    ensures Leads(log, s, Attempt(Apply(Db(log), s.writes), i, s.env), s.writes.inbox, 8)
  {
    hide Leads, FromKeyMissed, Replay, FindByKey, CanonicalOf, Apply, Attempt;
    var v := Apply(Db(log), s.writes);
    var o, s' := Attempt(v, i, s.env), Advance(log, s);
    if !Supported(i.kind) {
      UnsupportedAttempt(v, i, s.env);
      AbortedLeads(log, s, s', o);
      MoreSteps(log, s', o, s.writes.inbox, 0, 7);
    } else {
      AttemptUnfolds(v, i, s.env);
      if s'.phase.Found? {
        FoundLeads(log, s');
        MoreSteps(log, s', o, s.writes.inbox, 1, 7);
      } else if s'.phase.KeyMissed? {
        KeyMissedLeads(log, s', i);
      } else {
        AbortedLeads(log, s, s', o);
        MoreSteps(log, s', o, s.writes.inbox, 0, 7);
      }
    }
    OneStep(log, s, o, s.writes.inbox, 7);
  }

  lemma UnsupportedAttempt(v: Store, i: Input, env: Env)
    requires !Supported(i.kind)
    ensures Attempt(v, i, env) == Refused(ErrUnsupportedKind)
  {
  }

  // ---------------------------------------------------------------- the other calls

  lemma NothingWrittenYet(db: Store, s: Session)
    requires s.writes == NO_WRITES
    ensures Apply(db, s.writes) == db
  {
    NothingWritten(db);
  }

  lemma LockedLeads(log: seq<Store>, s: Session)
    requires log != [] && s.phase.Locked? && s.op.ResumeRow? && s.writes == NO_WRITES && s.fails == []
    requires forall id | id in Db(log).wallets :: Db(log).wallets[id].id == id
    ensures var db, t := Db(log), s.phase.t;
      Leads(log, s, if t.terms.walletId !in db.wallets then Refused(ErrNotFound) else AfterWait(db, db.wallets[t.terms.walletId], t, s.env), None, 5)
  {
    hide Leads, AfterWait;
    var db, t, s' := Db(log), s.phase.t, Advance(log, s);
    NothingWrittenYet(db, s);
    if t.terms.walletId in db.wallets {
      LoadedLeads(log, s');
      OneStep(log, s, AfterWait(db, db.wallets[t.terms.walletId], t, s.env), None, 4);
    } else {
      AbortedLeads(log, s, s', Refused(ErrNotFound));
      MoreSteps(log, s', Refused(ErrNotFound), None, 0, 4);
      OneStep(log, s, Refused(ErrNotFound), None, 4);
    }
  }

  lemma ResumeLeads(log: seq<Store>, s: Session, id: Id)
    requires log != [] && s.phase == Begun && s.op == ResumeRow(id) && s.writes == NO_WRITES && s.fails == []
    requires forall w | w in Db(log).wallets :: Db(log).wallets[w].id == w
    ensures Leads(log, s, Resume(Db(log), id, s.env), None, 6)
  {
    hide Leads, AfterWait;
    var db, s' := Db(log), Advance(log, s);
    var o := Resume(db, id, s.env);
    NothingWrittenYet(db, s);
    if s'.phase.Locked? {
      LockedLeads(log, s');
    } else {
      QuietEnd(log, s', o);
      MoreSteps(log, s', o, None, 0, 5);
    }
    OneStep(log, s, o, None, 5);
  }

  lemma QuietEnd(log: seq<Store>, s: Session, o: Outcome)
    requires log != [] && !Active(s) && EndsLike(s, o, None)
    ensures Leads(log, s, o, None, 0)
  {
  }

  lemma ExpireLeads(log: seq<Store>, s: Session, id: Id)
    requires log != [] && s.phase == Begun && s.op == ExpireRow(id) && s.writes == NO_WRITES
    ensures Leads(log, s, Process.Expire(Db(log), id, s.env), None, 1)
  {
    hide Leads;
    NothingWrittenYet(Db(log), s);
    var o := Process.Expire(Db(log), id, s.env);
    QuietEnd(log, Advance(log, s), o);
    OneStep(log, s, o, None, 0);
  }

  lemma OpenLeads(log: seq<Store>, s: Session, playerId: Id, balance: Money)
    requires log != [] && s.phase == Begun && s.op == OpenAccount(playerId, balance) && s.writes == NO_WRITES
    ensures Leads(log, s, Process.Open(Db(log), playerId, balance, s.env), None, 1)
  {
    hide Leads, Open;
    NothingWrittenYet(Db(log), s);
    var o := Process.Open(Db(log), playerId, balance, s.env);
    Steps.OpenSame(Db(log), Db(log), playerId, balance, s.env);
    QuietEnd(log, Advance(log, s), o);
    OneStep(log, s, o, None, 0);
  }

  /** A message whose id is new: the inbox row, and then the attempt. */
  lemma MessageLeads(log: seq<Store>, s: Session, messageId: string, i: Input)
    requires log != [] && s.phase == Arrived && s.op == SqsMessage(messageId, i) && s.writes == NO_WRITES && s.fails == []
    requires messageId != "" && messageId !in Db(log).inbox
    requires forall id | id in Db(log).wallets :: Db(log).wallets[id].id == id
    ensures Leads(log, s, Attempt(Db(log), i, s.env), Some((messageId, i)), 9)
  {
    hide Leads, Attempt;
    var db, s' := Db(log), Advance(log, s);
    NothingWrittenYet(db, s);
    AttemptLeads(log, s', i);
    NothingWritten(db);
    var v := Apply(db, s'.writes);
    assert v == db.(inbox := v.inbox) by { assert db.outbox + [] == db.outbox; }
    UseCases.AttemptIgnoresInbox(db, v, i, s.env);
    OneStep(log, s, Attempt(db, i, s.env), Some((messageId, i)), 8);
  }

  // ---------------------------------------------------------------- what an operation may ever lock

  function OwnIdLocks(env: Env): set<Lock> {
    {IdLock(env.txId), IdLock(env.walletId), IdLock(env.entryId), IdLock(env.event1), IdLock(env.event2)}
  }

  /** All locks the operation can come to take on this state: its identifiers, its row and keys, its wallet. */
  function OwnLocks(db: Store, op: Op, env: Env): set<Lock> {
    OwnIdLocks(env) +
    match op
    case HttpCall(i) => RequestLocks(i, env)
    case SqsMessage(m, i) => RequestLocks(i, env) + {InboxLock(m)}
    case ResumeRow(id) => {RowLock(id)} + (if id in db.txs then {WalletLock(db.txs[id].terms.walletId)} else {})
    case ExpireRow(id) => {RowLock(id)}
    case OpenAccount(p, b) => {WalletLock(env.walletId), OwnerLock((p, b.currency)), RowLock(env.txId)}
  }

  function RequestLocks(i: Input, env: Env): set<Lock> {
    {RowLock(env.txId), KeyLock(i.idempotencyKey), OpLock((i.providerId, i.externalId)), WalletLock(i.walletId)}
  }

  /** After its first steps a session locks its wallet at most. */
  lemma LaterLocks(log: seq<Store>, s: Session)
    requires log != [] && Active(s) && !s.phase.WalletRead? && s.phase != Begun && s.phase != Arrived
    ensures var s' := Advance(log, s);
      s'.locks == map[] || s'.locks == s.locks || (s.phase.Cleared? && s'.locks.Keys == s.locks.Keys + {WalletLock(s.phase.w.id)})
  {
    hide Apply, FindByKey, FindByOp, Taken, ValidateReference, HasProcessedReversal, ReferenceResolved, Moved, NewExternal,
         Process.Reject, Park, Note, Wait, Settle, Replay, Open, Expire, CanonicalOf, Supported, DirectionOf, ResolvedRow, StepLoaded, StepCleared;
    if s.phase.Loaded? {
      LoadedLocks(Apply(Db(log), s.writes), |log| - 1, s);
    } else if s.phase.Cleared? {
      ClearedLocks(Apply(Db(log), s.writes), |log| - 1, s);
    }
  }

  lemma LoadedLocks(v: Store, at: nat, s: Session)
    requires s.phase.Loaded?
    ensures StepLoaded(v, at, s).locks == map[] || StepLoaded(v, at, s).locks == s.locks
  {
    hide FindByOp, ValidateReference, Process.Reject, Park, Wait;
  }

  lemma ClearedLocks(v: Store, at: nat, s: Session)
    requires s.phase.Cleared?
    ensures var s' := StepCleared(v, at, s);
      s'.locks == map[] || s'.locks == s.locks || s'.locks.Keys == s.locks.Keys + {WalletLock(s.phase.w.id)}
  {
    hide Moved, Process.Reject, Note, DirectionOf, ResolvedRow;
  }

  lemma FirstLocks(log: seq<Store>, s: Session)
    requires log != [] && Active(s) && (s.phase.WalletRead? || s.phase == Begun || s.phase == Arrived)
    requires s.locks.Keys <= OwnLocks(Db(log), s.op, s.env)
    ensures Advance(log, s).locks.Keys <= OwnLocks(Db(log), s.op, s.env)
  {
    hide Apply, FindByKey, FindByOp, Taken, Open, Expire, CanonicalOf, Supported, NewExternal;
    if s.phase.WalletRead? && IsAttempt(s.op) && NewExternal(s.env.txId, InputOf(s.op), s.phase.w, s.env.now).Ok? {
      NewRowNames(s.env.txId, InputOf(s.op), s.phase.w, s.env.now);
      Locking.NewRowNamed(s.env.txId, InputOf(s.op), s.phase.w, s.env.now);
    }
  }

  /** The wallet of a cleared session is its operation's. */
  lemma ClearedWallet(log: seq<Store>, s: Session)
    requires LogOk(log) && SessionOk(log, s) && s.phase.Cleared?
    ensures WalletLock(s.phase.w.id) in OwnLocks(Db(log), s.op, s.env)
  {
    hide StoreInv, Extends, NewExternal, HasProcessedReversal, ReferenceUsable, HoldsIds, InboxHeld, Guard;
    var t := s.phase.t;
    if !IsAttempt(s.op) {
      assert Guard(Db(log), s);
      Steps.HeldRow(Db(log), s, t.id);
    }
  }

  lemma StaysWithinOwn(log: seq<Store>, s: Session)
    requires LogOk(log) && SessionOk(log, s) && Active(s) && s.locks.Keys <= OwnLocks(Db(log), s.op, s.env)
    ensures Advance(log, s).locks.Keys <= OwnLocks(Db(log), s.op, s.env)
  {
    hide StoreInv, Extends, SessionOk, Advance, OwnLocks;
    if s.phase.WalletRead? || s.phase == Begun || s.phase == Arrived {
      FirstLocks(log, s);
    } else {
      LaterLocks(log, s);
      if s.phase.Cleared? {
        ClearedWallet(log, s);
      }
    }
  }

  /** A session holds a wallet row only once it is going to write it. */
  ghost predicate Thrifty(s: Session) {
    forall x | WalletLock(x) in s.locks :: s.writes.wallet.Some?
  }

  lemma NoWalletYet(log: seq<Store>, s: Session)
    requires log != [] && SessionOk(log, s) && Active(s) && !s.phase.Saved?
    ensures s.writes.wallet == None
  {
    hide Running, HasProcessedReversal, RowInHand, ReferenceUsable, WalletSeen, RowForSeen;
  }

  lemma StaysThrifty(log: seq<Store>, s: Session)
    requires log != [] && SessionOk(log, s) && Active(s) && Thrifty(s)
    ensures Thrifty(Advance(log, s))
  {
    hide SessionOk, Advance;
    if s.phase.Saved? {
      SavedThrifty(log, s);
    } else {
      NoWalletYet(log, s);
      if s.phase.Cleared? {
        ClearedThrifty(log, s);
      } else if s.phase.WalletRead? || s.phase == Begun || s.phase == Arrived {
        FirstThrifty(log, s);
      } else {
        LaterLocks(log, s);
      }
    }
  }

  lemma SavedThrifty(log: seq<Store>, s: Session)
    requires log != [] && s.phase.Saved?
    ensures Thrifty(Advance(log, s))
  {
    hide NewEntry, ResolvedRow;
  }

  lemma ClearedThrifty(log: seq<Store>, s: Session)
    requires log != [] && s.phase.Cleared? && Thrifty(s) && s.writes.wallet == None
    ensures Thrifty(Advance(log, s))
  {
    hide Moved, Process.Reject, Note, DirectionOf, ResolvedRow, Apply;
  }

  lemma FirstThrifty(log: seq<Store>, s: Session)
    requires log != [] && Active(s) && (s.phase.WalletRead? || s.phase == Begun || s.phase == Arrived)
    requires Thrifty(s) && s.writes.wallet == None
    ensures Thrifty(Advance(log, s))
  {
    hide Apply, FindByKey, FindByOp, Taken, CanonicalOf, Supported, NewExternal, Expire, OpenEntries;
    if s.op.OpenAccount? && s.phase == Begun {
      OpenWritesWallet(Apply(Db(log), s.writes), s.op.playerId, s.op.balance, s.env);
    }
  }

  lemma OpenWritesWallet(v: Store, playerId: Id, balance: Money, env: Env)
    ensures var o := Process.Open(v, playerId, balance, env); (o.Committed? ==> o.writes.wallet.Some?) && !o.Replayed? && !o.Unchanged?
  {
    hide NewEntry;
  }

  // ---------------------------------------------------------------- in the machine

  /** The session is there, within its own locks, and nobody else holds any of those. */
  ghost predicate Unhindered(m: Machine, sid: nat, s: Session) {
    && m.log != [] && sid in m.sessions && m.sessions[sid] == s
    && s.locks.Keys <= OwnLocks(Db(m.log), s.op, s.env) && Thrifty(s)
    && forall other | other in m.sessions && other != sid :: m.sessions[other].locks.Keys !! OwnLocks(Db(m.log), s.op, s.env)
  }

  lemma FreeToStep(m: Machine, sid: nat, s: Session)
    requires Reachable(m) && Unhindered(m, sid, s) && Active(s)
    ensures var m' := m.(sessions := m.sessions[sid := Advance(m.log, s)]);
      Reachable(m') && Unhindered(m', sid, Advance(m.log, s))
  {
    hide Reachable, Advance, OwnLocks, StoreInv, Extends, Running, PhaseOk, Stopped, Thrifty;
    ReachableSafe(m);
    assert SessionOk(m.log, m.sessions[sid]);
    StaysWithinOwn(m.log, s);
    StaysThrifty(m.log, s);
    AdvanceContinues(m.log, s);
    var s' := Advance(m.log, s);
    var m' := m.(sessions := m.sessions[sid := s']);
    assert Next(m, Step(sid), m');
    ReachableNext(m, Step(sid), m');
  }

  /** The session's steps happen in the machine, with everybody else standing still. */
  lemma {:induction false} Arrives(m: Machine, sid: nat, s: Session, o: Outcome, inbox: Option<(string, Input)>, n: nat) returns (s': Session)
    requires m.log != [] && Reachable(m) && Unhindered(m, sid, s) && Leads(m.log, s, o, inbox, n)
    ensures !Active(s') && EndsLike(s', o, inbox) && s'.op == s.op && s'.env == s.env
    ensures var m' := m.(sessions := m.sessions[sid := s']); Reachable(m') && Unhindered(m', sid, s')
    decreases n
  {
    hide Reachable, Advance, EndsLike, Active, Unhindered;
    if Active(s) {
      FreeToStep(m, sid, s);
      AdvanceContinues(m.log, s);
      var s1 := Advance(m.log, s);
      var m1 := m.(sessions := m.sessions[sid := s1]);
      s' := Arrives(m1, sid, s1, o, inbox, n - 1);
      assert m1.sessions[sid := s'] == m.sessions[sid := s'];
    } else {
      s' := s;
      PresentAlready(m, sid, s);
    }
  }

  lemma PresentAlready(m: Machine, sid: nat, s: Session)
    requires Unhindered(m, sid, s)
    ensures m.(sessions := m.sessions[sid := s]) == m
  {
  }

  /** The state the sequential model leaves, with the message's inbox row if there is one. */
  ghost function Left(db: Store, o: Outcome, inbox: Option<(string, Input)>): Store {
    match o
    case Committed(d, _) => Apply(db, d.(inbox := inbox))
    case Replayed(_) => Apply(db, NO_WRITES.(inbox := inbox))
    case Unchanged => Apply(db, NO_WRITES.(inbox := inbox))
    case Refused(_) => db
  }

  /** The session has ended as the outcome says, and the database is what it leaves. */
  ghost predicate Completed(m: Machine, sid: nat, db: Store, o: Outcome, inbox: Option<(string, Input)>) {
    && m.log != [] && sid in m.sessions && Db(m.log) == Left(db, o, inbox)
    && match o
       case Committed(_, out) => m.sessions[sid].phase == Done(out)
       case Replayed(out) => m.sessions[sid].phase == Done(out)
       case Unchanged => m.sessions[sid].phase.Done?
       case Refused(e) => m.sessions[sid].phase == Aborted(e)
  }

  lemma ThenCommits(m: Machine, sid: nat, s: Session, o: Outcome, inbox: Option<(string, Input)>) returns (m': Machine)
    requires Reachable(m) && m.log != [] && sid in m.sessions && m.sessions[sid] == s
    requires !Active(s) && !s.phase.Done? && EndsLike(s, o, inbox)
    ensures Reachable(m') && Completed(m', sid, Db(m.log), o, inbox)
    ensures m'.sessions.Keys == m.sessions.Keys && forall other | other in m.sessions && other != sid :: m'.sessions[other] == m.sessions[other]
  {
    hide Reachable;
    m' := m;
    if s.phase.Decided? {
      m' := AfterCommit(m, sid);
      assert Next(m, Commit(sid), m');
      ReachableNext(m, Commit(sid), m');
    }
  }

  /** What the model says of an operation, and the inbox row that goes with it. */
  ghost function OutcomeOf(db: Store, op: Op, env: Env): Outcome {
    match op
    case SqsMessage(m, _) =>
      if m == "" then Refused(ErrInvalidEnvelope) else if m in db.inbox then Unchanged else Atomic.Run(db, CallOf(op), env)
    case _ => Atomic.Run(db, CallOf(op), env)
  }

  ghost function InboxOf(db: Store, op: Op): Option<(string, Input)> {
    if op.SqsMessage? && op.messageId != "" && op.messageId !in db.inbox then Some((op.messageId, op.input)) else None
  }

  lemma StartLeads(log: seq<Store>, op: Op, env: Env)
    requires log != [] && forall id | id in Db(log).wallets :: Db(log).wallets[id].id == id
    ensures Leads(log, Start(op, env, |log| - 1, IdLocks(env), []), OutcomeOf(Db(log), op, env), InboxOf(Db(log), op), 9)
  {
    hide Leads, Attempt, Resume, Open, Expire, IdLocks;
    var s, db := Start(op, env, |log| - 1, IdLocks(env), []), Db(log);
    NothingWrittenYet(db, s);
    match op {
      case HttpCall(i) =>
        AttemptLeads(log, s, i);
        MoreSteps(log, s, Attempt(db, i, env), None, 8, 9);
      case SqsMessage(m, i) =>
        if m != "" && m !in db.inbox {
          MessageLeads(log, s, m, i);
        } else {
          KnownMessage(log, s, m, i);
        }
      case ResumeRow(id) =>
        ResumeLeads(log, s, id);
        MoreSteps(log, s, Resume(db, id, env), None, 6, 9);
      case ExpireRow(id) =>
        ExpireLeads(log, s, id);
        MoreSteps(log, s, Process.Expire(db, id, env), None, 1, 9);
      case OpenAccount(p, b) =>
        OpenLeads(log, s, p, b);
        MoreSteps(log, s, Process.Open(db, p, b, env), None, 1, 9);
    }
  }

  lemma KnownMessage(log: seq<Store>, s: Session, m: string, i: Input)
    requires log != [] && s.phase == Arrived && s.op == SqsMessage(m, i) && s.writes == NO_WRITES && (m == "" || m in Db(log).inbox)
    ensures Leads(log, s, if m == "" then Refused(ErrInvalidEnvelope) else Unchanged, None, 9)
  {
    hide Leads;
    NothingWrittenYet(Db(log), s);
    var o: Outcome := if m == "" then Refused(ErrInvalidEnvelope) else Unchanged;
    QuietEnd(log, Advance(log, s), o);
    MoreSteps(log, Advance(log, s), o, None, 0, 8);
    OneStep(log, s, o, None, 8);
  }

  /** Nobody holds a lock the operation may need. */
  ghost predicate NobodyHolds(m: Machine, op: Op, env: Env)
    requires m.log != []
  {
    forall other | other in m.sessions :: m.sessions[other].locks.Keys !! OwnLocks(Db(m.log), op, env)
  }

  lemma StartsUnhindered(m: Machine, sid: nat, op: Op, env: Env)
    requires m.log != [] && sid !in m.sessions && FreshIds(m, sid, env) && NobodyHolds(m, op, env)
    ensures var s := Start(op, env, |m.log| - 1, IdLocks(env), []);
      var m' := m.(sessions := m.sessions[sid := s]);
      Next(m, Begin(sid, op, env), m') && Unhindered(m', sid, s)
  {
    hide Content;
  }

  /** From every reachable state, an operation whose locks nobody holds can begin and come to its decision, with the
      rest of the machine standing still. */
  lemma ComesToDecision(m: Machine, sid: nat, op: Op, env: Env) returns (m': Machine, s: Session)
    requires Reachable(m) && m.log != [] && sid !in m.sessions && FreshIds(m, sid, env) && NobodyHolds(m, op, env)
    ensures Reachable(m') && m' == m.(sessions := m.sessions[sid := s])
    ensures !Active(s) && !s.phase.Done? && EndsLike(s, OutcomeOf(Db(m.log), op, env), InboxOf(Db(m.log), op))
    ensures s.op == op && s.env == env && s.locks.Keys <= OwnLocks(Db(m.log), op, env) && Thrifty(s)
  {
    hide Reachable, FreshIds, Leads, OutcomeOf, InboxOf, EndsLike, StoreInv, SessionOk, Extends, NobodyHolds, OwnLocks;
    ReachableSafe(m);
    WalletsUnderIds(Db(m.log)) by { LastGood(m.log); }
    var o, inbox := OutcomeOf(Db(m.log), op, env), InboxOf(Db(m.log), op);
    var s0 := Start(op, env, |m.log| - 1, IdLocks(env), []);
    var m0 := m.(sessions := m.sessions[sid := s0]);
    StartsUnhindered(m, sid, op, env);
    ReachableNext(m, Begin(sid, op, env), m0);
    StartLeads(m.log, op, env);
    s := Arrives(m0, sid, s0, o, inbox, 9);
    m' := m0.(sessions := m0.sessions[sid := s]);
    assert m0.sessions[sid := s] == m.sessions[sid := s];
    NotDone(s, o, inbox);
  }

  /** From every reachable state, whatever is under way, an operation whose locks nobody holds can run to its end, and
      ends as the sequential model says: same answer or error, and the database with exactly the model's writes. */
  lemma UnhinderedCallsComplete(m: Machine, sid: nat, op: Op, env: Env) returns (m': Machine)
    requires Reachable(m) && m.log != [] && sid !in m.sessions && FreshIds(m, sid, env) && NobodyHolds(m, op, env)
    ensures Reachable(m') && Completed(m', sid, Db(m.log), OutcomeOf(Db(m.log), op, env), InboxOf(Db(m.log), op))
    ensures m'.sessions.Keys == m.sessions.Keys + {sid}
    ensures forall other | other in m.sessions :: m'.sessions[other] == m.sessions[other]
  {
    hide Reachable, FreshIds, OutcomeOf, InboxOf, Completed, EndsLike, NobodyHolds, OwnLocks;
    var m1, s := ComesToDecision(m, sid, op, env);
    m' := ThenCommits(m1, sid, s, OutcomeOf(Db(m.log), op, env), InboxOf(Db(m.log), op));
  }

  lemma WalletsUnderIds(s: Store)
    requires Indexed(s)
    ensures forall id | id in s.wallets :: s.wallets[id].id == id
  {
  }

  lemma NotDone(s: Session, o: Outcome, inbox: Option<(string, Input)>)
    requires EndsLike(s, o, inbox)
    ensures !s.phase.Done?
  {
  }
}
