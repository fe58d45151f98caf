/** Repeated requests in every run: what the lookups of a transaction find, and what it then answers. */
module Lookups {
  import opened Wrappers
  import opened Wallet
  import opened WagerTx
  import opened Store
  import opened Process
  import opened Invariants
  import opened Machine
  import opened Sessions
  import opened Safety
  import opened Decisions
  import Atomic
  import Commits
  import Endings
  import Interleaving
  import Records
  import UseCases

  /** Every committed state is in order. */
  lemma CommittedIsOrderly(m: Machine)
    requires Reachable(m)
    ensures m.log != [] && Orderly(Db(m.log))
  {
    hide Reachable, StoreInv, Extends, SessionOk, Disjoint, Records.ResultsRecorded, Records.EventsTrue, Records.ClosedOnce;
    ReachableSafe(m);
    Commits.LastGood(m.log);
    Records.EverythingIsRecorded(m, |m.log| - 1);
  }

  /** A session at its lookups, with nothing written but the inbox row. */
  lemma LooksAtCommitted(m: Machine, sid: nat)
    requires Reachable(m) && sid in m.sessions && IsAttempt(m.sessions[sid].op)
    requires var p := m.sessions[sid].phase; p.Begun? || p.KeyMissed? || p.Found?
    ensures m.log != [] && Orderly(Db(m.log)) && PlainWrites(m.sessions[sid])
    ensures m.sessions[sid].phase.KeyMissed? ==> Supported(InputOf(m.sessions[sid].op).kind)
  {
    hide Reachable, Orderly, StoreInv, Extends, Running, RowForSeen;
    CommittedIsOrderly(m);
    ReachableSafe(m);
    Interleaving.KnownRunning(m, sid);
  }

  lemma SeesCommitted(db: Store, s: Session, i: Input)
    requires PlainWrites(s)
    ensures var v := Apply(db, s.writes);
      && FindByKey(v, i.idempotencyKey) == FindByKey(db, i.idempotencyKey)
      && FindByOp(v, i.providerId, i.externalId) == FindByOp(db, i.providerId, i.externalId)
      && v.wallets == db.wallets
  {
  }

  /** The lookup by key: a row with the same payload is found, one with another payload is a conflict, and without one the
      transaction goes on to the operation. */
  lemma KeyLookup(m: Machine, sid: nat, keyed: Option<TxRow>)
    requires Reachable(m) && m.log != [] && sid in m.sessions && IsAttempt(m.sessions[sid].op) && m.sessions[sid].phase.Begun?
    requires IsKeyed(Db(m.log), InputOf(m.sessions[sid].op), keyed)
    ensures var i, p := InputOf(m.sessions[sid].op), Advance(m.log, m.sessions[sid]).phase;
      if keyed.Some? && keyed.value.terms.payloadHash == Some(CanonicalOf(i)) then p == Found(keyed.value)
      else if !Supported(i.kind) then p == Aborted(ErrUnsupportedKind)
      else if keyed.Some? then p == Aborted(ErrIdempotencyConflict)
      else p == KeyMissed(|m.log| - 1)
  {
    hide Reachable, FindByKey, FindByOp, CanonicalOf, Supported, Indexed, Rows, Records.PayloadsRecorded, Records.NothingUnderNull,
         IsKeyed;
    var s, i := m.sessions[sid], InputOf(m.sessions[sid].op);
    LooksAtCommitted(m, sid);
    SeesCommitted(Db(m.log), s, i);
    if i.idempotencyKey != "" {
      KeyedIsFound(Db(m.log), i, keyed);
    } else {
      NobodyKeyed(Db(m.log), i, keyed);
    }
    if keyed.Some? && keyed.value.terms.payloadHash == Some(CanonicalOf(i)) {
      KeyedIsStored(Db(m.log), i, keyed.value);
      PayloadIsSupported(Db(m.log), i, keyed.value);
    }
  }

  lemma NobodyKeyed(db: Store, i: Input, keyed: Option<TxRow>)
    requires i.idempotencyKey == "" && IsKeyed(db, i, keyed)
    ensures keyed.None?
  {
  }

  lemma KeyedIsStored(db: Store, i: Input, t: TxRow)
    requires IsKeyed(db, i, Some(t))
    ensures t.id in db.txs && db.txs[t.id] == t
  {
  }

  /** The lookup by operation, once the key was missed. */
  lemma OperationLookup(m: Machine, sid: nat, operated: Option<TxRow>)
    requires Reachable(m) && m.log != [] && sid in m.sessions && IsAttempt(m.sessions[sid].op) && m.sessions[sid].phase.KeyMissed?
    requires IsOperated(Db(m.log), InputOf(m.sessions[sid].op), operated)
    ensures var i, p := InputOf(m.sessions[sid].op), Advance(m.log, m.sessions[sid]).phase;
      if operated.None? then p == OpMissed
      else if operated.value.terms.idempotencyKey == i.idempotencyKey && operated.value.terms.payloadHash == Some(CanonicalOf(i))
      then p == Found(operated.value)
      else p == Aborted(ErrIdempotencyConflict)
  {
    hide Reachable, FindByKey, FindByOp, CanonicalOf, Supported, Indexed, Rows, Records.PayloadsRecorded, IsOperated;
    LooksAtCommitted(m, sid);
    SeesCommitted(Db(m.log), m.sessions[sid], InputOf(m.sessions[sid].op));
    OperatedIsFound(Db(m.log), InputOf(m.sessions[sid].op), operated);
  }

  // ---------------------------------------------------------------- what was found is there

  ghost predicate FoundIsThere(m: Machine) {
    && m.log != []
    && forall sid | sid in m.sessions && m.sessions[sid].phase.Found? :: m.sessions[sid].phase.t.terms.walletId in Db(m.log).wallets
  }

  lemma RowsHaveWallets(db: Store, v: Store, t: TxRow)
    requires Rows(db) && v.txs == db.txs && t in v.txs.Values
    ensures t.terms.walletId in db.wallets
  {
    var id :| id in db.txs && db.txs[id] == t;
    assert RowOk(db, db.txs[id]);
  }

  lemma LateStepsFindNothing(v: Store, at: nat, s: Session)
    ensures s.phase.Loaded? ==> !StepLoaded(v, at, s).phase.Found?
    ensures s.phase.Locked? ==> !StepLocked(v, at, s).phase.Found?
    ensures s.phase.Referenced? ==> !StepReferenced(v, at, s).phase.Found?
    ensures s.phase.Cleared? ==> !StepCleared(v, at, s).phase.Found?
    ensures s.phase.Saved? ==> !StepSaved(s).phase.Found?
    ensures s.phase.Found? ==> !StepFound(v, at, s).phase.Found?
  {
    hide Reject, Park, Note, Wait, Settle, Moved, ValidateReference, HasProcessedReversal, FindByOp, ReferenceResolved, ResolvedRow;
  }

  lemma WorkerStepsFindNothing(v: Store, at: nat, s: Session, id: Id)
    ensures !StepResume(v, at, s, id).phase.Found? && !StepExpire(v, at, s, id).phase.Found?
    ensures s.op.OpenAccount? ==> !StepOpen(v, at, s).phase.Found?
    ensures s.op.SqsMessage? ==> !StepArrived(v, s).phase.Found?
  {
    hide Expire, Open;
  }

  lemma LookupsFind(v: Store, db: Store, at: nat, s: Session, i: Input)
    requires Rows(db) && v.txs == db.txs && (s.phase.Begun? || s.phase.KeyMissed? || s.phase.OpMissed? || s.phase.WalletRead?)
    ensures var p := StepOfAttempt(v, at, s, i).phase; p.Found? ==> p.t.terms.walletId in db.wallets
  {
    hide Rows, CanonicalOf, NewExternal, Taken, Supported;
    if s.phase.Begun? && FindByKey(v, i.idempotencyKey).Some? {
      RowsHaveWallets(db, v, FindByKey(v, i.idempotencyKey).value);
    } else if s.phase.KeyMissed? && FindByOp(v, i.providerId, i.externalId).Some? {
      RowsHaveWallets(db, v, FindByOp(v, i.providerId, i.externalId).value);
    }
  }

  lemma PlainAtStart(log: seq<Store>, s: Session)
    requires log != [] && SessionOk(log, s) && Active(s)
    requires s.phase.Begun? || s.phase.KeyMissed? || s.phase.OpMissed? || s.phase.WalletRead?
    ensures Apply(Db(log), s.writes).txs == Db(log).txs
  {
    hide Running;
  }

  lemma StepFinds(log: seq<Store>, s: Session)
    requires log != [] && Rows(Db(log)) && SessionOk(log, s) && Active(s)
    ensures var p := Advance(log, s).phase; p.Found? ==> p.t.terms.walletId in Db(log).wallets
  {
    hide Rows, SessionOk, StepLoaded, StepLocked, StepReferenced, StepCleared, StepSaved, StepFound, StepResume, StepExpire, StepOpen,
         StepArrived, StepOfAttempt;
    var v, at := Apply(Db(log), s.writes), |log| - 1;
    LateStepsFindNothing(v, at, s);
    WorkerStepsFindNothing(v, at, s, if s.op.ResumeRow? || s.op.ExpireRow? then s.op.id else "");
    if s.phase.Begun? || s.phase.KeyMissed? || s.phase.OpMissed? || s.phase.WalletRead? {
      PlainAtStart(log, s);
      if IsAttempt(s.op) {
        LookupsFind(v, Db(log), at, s, InputOf(s.op));
      }
      OnlyAttemptsLookUp(log, s);
    }
  }

  lemma OnlyAttemptsLookUp(log: seq<Store>, s: Session)
    requires log != [] && SessionOk(log, s) && Active(s)
    ensures s.phase.KeyMissed? || s.phase.OpMissed? || s.phase.WalletRead? || s.phase.Found? ==> IsAttempt(s.op)
  {
    hide Running, RowForSeen;
  }

  lemma NextFound(m: Machine, l: Label, m': Machine)
    requires MachineInv(m) && FoundIsThere(m) && Next(m, l, m')
    ensures FoundIsThere(m')
  {
    hide StoreInv, Extends, SessionOk, Advance, Disjoint, Content, IdLocks, FreshIds, Available;
    match l {
      case Step(sid) =>
        Commits.LastGood(m.log);
        StepFinds(m.log, m.sessions[sid]);
      case Commit(sid) =>
        Interleaving.KnownRunning(m, sid);
        CommitExtends(m.log, m.sessions[sid]);
        forall w | w in Db(m.log).wallets
          ensures w in Db(m'.log).wallets
        {
          WalletsStay(Db(m.log), Db(m'.log), w);
        }
      case _ =>
    }
  }

  lemma {:induction false} RunFound(run: seq<Machine>)
    requires IsRun(run)
    ensures FoundIsThere(run[|run| - 1])
  {
    hide MachineInv, Next;
    if |run| > 1 {
      var front := run[..|run| - 1];
      RunFound(front);
      RunSafe(front);
      var m, m' := run[|run| - 2], run[|run| - 1];
      assert front[|front| - 1] == m;
      var l :| Next(m, l, m');
      NextFound(m, l, m');
    }
  }

  lemma WalletsStay(a: Store, b: Store, id: Id)
    requires Extends(a, b) && id in a.wallets
    ensures id in b.wallets
  {
  }

  // ---------------------------------------------------------------- the answer

  /** A row that was found is answered as it was found, with `replay` set, and nothing more is written. */
  lemma FoundIsAnswered(m: Machine, sid: nat)
    requires Reachable(m) && sid in m.sessions && IsAttempt(m.sessions[sid].op) && m.sessions[sid].phase.Found?
    ensures m.log != [] && m.sessions[sid].phase.t.terms.walletId in Db(m.log).wallets
    ensures var s, s' := m.sessions[sid], Advance(m.log, m.sessions[sid]);
      && s'.phase.Decided? && s'.phase.decision == Silent && s'.phase.out == AnswerOf(Db(m.log), s.phase.t)
      && s'.writes == s.writes
  {
    hide Orderly, Next;
    LooksAtCommitted(m, sid);
    var run :| IsRun(run) && run[|run| - 1] == m;
    RunFound(run);
  }

  // ---------------------------------------------------------------- the retry loop without others

  lemma NeverTaken(s: Store, i: Input, env: Env)
    requires Indexed(s) && Endings.Fresh(s, env)
    ensures Attempt(s, i, env) != Refused(ErrAlreadyExists) && Attempt(s, i, env) != Refused(ErrOptimisticLock)
    ensures Attempt(s, i, env) != Unchanged
  {
    hide NewExternal, AfterInsert, Taken, ResolveByKey, ResolveByOp, Supported, Indexed;
    if ResolveByKey(s, i).Some? || ResolveByOp(s, i).Some? {
      ResolvedOutcome(s, i);
    } else if i.walletId in s.wallets {
      var w := s.wallets[i.walletId];
      RefusalsAreTrue(env.txId, i, w, env.now);
      if NewExternal(env.txId, i, w, env.now).Ok? {
        var t := NewExternal(env.txId, i, w, env.now).value;
        UnresolvedIsFree(s, i, w, env);
        InsertedOutcome(PutTx(s, t), w, t, env);
      }
    }
  }

  lemma ResolvedOutcome(s: Store, i: Input)
    ensures forall o | ResolveByKey(s, i) == Some(o) || ResolveByOp(s, i) == Some(o) ::
      o.Replayed? || o == Refused(ErrIdempotencyConflict) || o == Refused(ErrNotFound)
  {
    hide CanonicalOf, FindByKey, FindByOp;
  }

  lemma UnresolvedIsFree(s: Store, i: Input, w: WalletRow, env: Env)
    requires Indexed(s) && Endings.Fresh(s, env) && ResolveByKey(s, i).None? && ResolveByOp(s, i).None?
    requires NewExternal(env.txId, i, w, env.now).Ok?
    ensures !Taken(s, NewExternal(env.txId, i, w, env.now).value)
  {
    hide CanonicalOf, TermsOk;
    ExternalExactlyWhen(env.txId, i, w, env.now);
  }

  lemma InsertedOutcome(v: Store, w: WalletRow, t: TxRow, env: Env)
    ensures var o := AfterInsert(v, w, t, env);
      o != Refused(ErrAlreadyExists) && o != Refused(ErrOptimisticLock) && o != Unchanged
  {
    hide FindByOp, HasProcessedReversal, ValidateReference;
  }

  /** With nobody in between, the first attempt of the retry loop is the answer. */
  lemma FirstAttemptAnswers(s: Store, i: Input, envs: seq<Env>)
    requires Indexed(s) && envs != [] && Endings.Fresh(s, envs[0])
    ensures UseCases.StateAfter(s, i, envs) == Atomic.After(s, Attempt(s, i, envs[0]))
    ensures UseCases.Answer(s, i, envs) == match Attempt(s, i, envs[0])
                                           case Committed(_, out) => Ok(out)
                                           case Replayed(out) => Ok(out)
                                           case Refused(e) => Err(e)
                                           case Unchanged => Err(ErrTooManyRetries)
  {
    hide Attempt, Indexed;
    NeverTaken(s, i, envs[0]);
  }
}
