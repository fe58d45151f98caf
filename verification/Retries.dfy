/** The retry loop: what a call has lost before it is answered, or before it gives up. */
module Retries {
  import opened Wrappers
  import opened Money
  import opened Wallet
  import opened WagerTx
  import opened Ledger
  import opened Store
  import opened Process
  import opened Invariants
  import opened Machine
  import opened Sessions
  import opened Safety
  import Steps
  import Commits
  import Locking
  import Interleaving

  // ---------------------------------------------------------------- which steps fail, and why

  /** The save met another version than the one read; the log index it read at and the one it failed at. */
  ghost predicate LosesRace(log: seq<Store>, s: Session, f: Failure)
    requires log != []
  {
    && f.LostRace? && s.phase.Cleared? && f.rw == s.phase.rw && f.at == |log| - 1
    && (s.phase.w.id in Db(log).wallets ==> Db(log).wallets[s.phase.w.id].version != s.phase.w.version)
  }

  ghost predicate MeetsKey(log: seq<Store>, s: Session, f: Failure)
    requires log != []
  {
    && f.Duplicate? && s.phase.WalletRead? && f.at == |log| - 1 && IsAttempt(s.op)
    && NewExternal(s.env.txId, InputOf(s.op), s.phase.w, s.env.now).Ok?
    && Taken(Db(log), NewExternal(s.env.txId, InputOf(s.op), s.phase.w, s.env.now).value)
  }

  /** With what error a failure ends the attempt; all but the last let Execute start over. */
  function AfterFailure(f: Failure, count: nat): Error {
    if count == MAX_RETRIES then ErrTooManyRetries else if f.LostRace? then ErrOptimisticLock else ErrAlreadyExists
  }

  ghost predicate Records(log: seq<Store>, s: Session, s': Session)
    requires log != []
  {
    || (s'.fails == s.fails && s'.phase != Aborted(ErrTooManyRetries))
    || (exists f :: s'.fails == s.fails + [f] && (LosesRace(log, s, f) || MeetsKey(log, s, f))
                    && s'.phase == Aborted(AfterFailure(f, |s'.fails|)))
  }

  lemma ConstructorErrors(id: Id, i: Input, w: WalletRow, now: Time)
    ensures NewExternal(id, i, w, now).Err? ==> NewExternal(id, i, w, now).error != ErrTooManyRetries
  {
  }

  lemma MoveErrors(w: WalletRow, direction: Direction, amount: Money, now: Time)
    ensures Moved(w, direction, amount, now).Err? ==> Moved(w, direction, amount, now).error != ErrTooManyRetries
  {
  }

  ghost predicate NotGivingUp(o: Outcome) {
    o != Refused(ErrTooManyRetries)
  }

  lemma EndingErrors(t: TxRow, w: WalletRow, w': WalletRow, code: FailureCode, direction: Direction, env: Env)
    ensures NotGivingUp(Reject(t, w, code, env)) && NotGivingUp(Park(t, w, env)) && NotGivingUp(Note(t, w, env)) && NotGivingUp(Wait(t, env))
    ensures NotGivingUp(Settle(t, w, w', direction, env))
  {
  }

  lemma ReplayErrors(s: Store, t: TxRow)
    ensures NotGivingUp(Replay(s, t))
  {
  }

  lemma EarlyRecords(log: seq<Store>, s: Session, i: Input)
    requires log != [] && s.op == HttpCall(i) && PlainWrites(s) && Active(s)
    ensures Records(log, s, StepOfAttempt(Apply(Db(log), s.writes), |log| - 1, s, i))
  {
    hide NewExternal, FindByKey, FindByOp, CanonicalOf, Supported;
    if s.phase.WalletRead? {
      var v, t := Apply(Db(log), s.writes), NewExternal(s.env.txId, i, s.phase.w, s.env.now);
      ConstructorErrors(s.env.txId, i, s.phase.w, s.env.now);
      if t.Ok? && Taken(v, t.value) {
        assert MeetsKey(log, s, Duplicate(|log| - 1));
      }
    }
  }

  lemma LoadedRecords(log: seq<Store>, v: Store, at: nat, s: Session)
    requires log != [] && s.phase.Loaded?
    ensures Records(log, s, StepLoaded(v, at, s))
  {
    hide FindByOp, ValidateReference, LosesRace, MeetsKey;
  }

  lemma ClearedRecords(log: seq<Store>, s: Session)
    requires log != [] && s.phase.Cleared? && s.op.HttpCall? && s.writes.wallet == None
    ensures Records(log, s, StepCleared(Apply(Db(log), s.writes), |log| - 1, s))
  {
    hide Moved, Reject, Note, ResolvedRow, DirectionOf;
    var w, rw, t, ref := s.phase.w, s.phase.rw, s.phase.t, s.phase.ref;
    var r, direction := ResolvedRow(t, ref, s.env.now), DirectionOf(t.terms.kind, KindOf(ref));
    EndingErrors(r, w, w, ShortfallCode(t.terms.kind), Debit, s.env);
    if direction.Some? {
      MoveErrors(w, direction.value, t.terms.money, s.env.now);
      if Moved(w, direction.value, t.terms.money, s.env.now).Ok? && (w.id !in Db(log).wallets || Db(log).wallets[w.id].version != w.version) {
        assert LosesRace(log, s, LostRace(rw, |log| - 1));
      }
    }
  }

  lemma LateRecords(log: seq<Store>, v: Store, at: nat, s: Session)
    requires log != []
    ensures s.phase.Referenced? ==> Records(log, s, StepReferenced(v, at, s))
    ensures s.phase.Saved? ==> Records(log, s, StepSaved(s))
    ensures s.phase.Found? ==> Records(log, s, StepFound(v, at, s))
  {
    hide HasProcessedReversal, LosesRace, MeetsKey, ResolvedRow, Settle, Replay, Reject;
    if s.phase.Saved? {
      var t := ResolvedRow(s.phase.t, s.phase.ref, s.env.now);
      EndingErrors(t, s.phase.w, s.phase.w', NoCode, s.phase.direction, s.env);
    } else if s.phase.Found? {
      ReplayErrors(v, s.phase.t);
    } else if s.phase.Referenced? {
      EndingErrors(s.phase.t, s.phase.w, s.phase.w, ReferenceAlreadyReversed, Debit, s.env);
    }
  }

  lemma WalletNotYetWritten(log: seq<Store>, s: Session)
    requires log != [] && SessionOk(log, s) && s.phase.Cleared?
    ensures s.writes.wallet == None && WalletSeen(log, s, s.phase.w, s.phase.rw) && RowInHand(s, s.phase.w, s.phase.t)
  {
    hide Running, HasProcessedReversal, RowInHand, ReferenceUsable;
  }

  lemma AdvanceRecords(log: seq<Store>, s: Session)
    requires LogOk(log) && SessionOk(log, s) && Active(s) && s.op.HttpCall?
    ensures Records(log, s, Advance(log, s))
  {
    hide StoreInv, Extends, Running, Records, StepOfAttempt, StepLoaded, StepCleared, StepReferenced, StepSaved,
         StepFound, LoadedOk, ReferencedOk,
         Clear, SavedOk;
    var v, at := Apply(Db(log), s.writes), |log| - 1;
    if s.phase.Loaded? {
      LoadedRecords(log, v, at, s);
    } else if s.phase.Cleared? {
      WalletNotYetWritten(log, s);
      ClearedRecords(log, s);
    } else if s.phase.Found? || s.phase.Referenced? || s.phase.Saved? {
      LateRecords(log, v, at, s);
    } else {
      EarlyRecords(log, s, s.op.input);
    }
  }

  // ---------------------------------------------------------------- what the failures prove

  function StartOf(f: Failure): nat {
    if f.LostRace? then f.rw else f.at
  }

  /** Some row has the request's key, or its operation. */
  ghost predicate RequestTaken(s: Store, i: Input) {
    i.idempotencyKey != "" && (i.idempotencyKey in s.byKey || (i.providerId, i.externalId) in s.byOp)
  }

  /** A lost race spans a version increment of the call's wallet; a duplicate means the request has a row. */
  ghost predicate Charged(log: seq<Store>, i: Input, f: Failure) {
    match f
    case LostRace(rw, at) =>
      && rw < at < |log| && i.walletId in log[rw].wallets && i.walletId in log[at].wallets
      && log[rw].wallets[i.walletId].version < log[at].wallets[i.walletId].version
    case Duplicate(at) => at < |log| && RequestTaken(log[at], i)
  }

  /** All failures are charged, in disjoint stretches of the log; only the last can be a duplicate. */
  ghost predicate FailsOk(log: seq<Store>, i: Input, fails: seq<Failure>) {
    && (forall k | 0 <= k < |fails| :: Charged(log, i, fails[k]))
    && (forall k, l | 0 <= k < l < |fails| :: fails[k].at <= StartOf(fails[l]))
    && (forall k | 0 <= k < |fails| - 1 :: fails[k].LostRace?)
  }

  predicate HasDuplicate(fails: seq<Failure>) {
    fails != [] && fails[|fails| - 1].Duplicate?
  }

  /** After a duplicate the lookups find the row: the attempt never gets past them, and ends in a replay or a conflict. */
  ghost predicate LookupPhase(log: seq<Store>, s: Session, i: Input)
    requires log != []
  {
    match s.phase
    case Begun => RequestTaken(Db(log), i)
    case KeyMissed(_) => (i.providerId, i.externalId) in Db(log).byOp
    case Found(t) => t.terms.walletId in Db(log).wallets
    case Decided(d, _, _, _, out) => d == Silent && out.replay
    case Done(out) => out.replay
    case Aborted(e) => e == ErrAlreadyExists || e == ErrTooManyRetries || e == ErrIdempotencyConflict
    case _ => false
  }

  /** What is known once an attempt has met a taken key. */
  ghost predicate DuplicateOk(log: seq<Store>, s: Session, i: Input)
    requires log != []
  {
    LookupPhase(log, s, i) && RequestTaken(Db(log), i) && Supported(i.kind)
  }

  ghost predicate RetryOk(log: seq<Store>, s: Session)
    requires log != []
  {
    s.op.HttpCall? ==>
      && FailsOk(log, s.op.input, s.fails)
      && |s.fails| <= MAX_RETRIES && (s.phase == Aborted(ErrTooManyRetries) <==> |s.fails| == MAX_RETRIES)
      && (forall k | 0 <= k < |s.fails| :: s.fails[k].at <= if s.phase.Aborted? then |log| - 1 else s.began)
      && (HasDuplicate(s.fails) ==> DuplicateOk(log, s, s.op.input))
  }

  ghost predicate AllRetry(m: Machine)
    requires m.log != []
  {
    forall sid | sid in m.sessions :: RetryOk(m.log, m.sessions[sid])
  }

  // ---------------------------------------------------------------- steps

  /** The save fails only when somebody else's commit has moved the wallet on since the read. */
  lemma RaceIsCharged(log: seq<Store>, s: Session, f: Failure)
    requires LogOk(log) && SessionOk(log, s) && s.op.HttpCall? && LosesRace(log, s, f)
    ensures Charged(log, s.op.input, f) && s.began <= StartOf(f)
  {
    hide StoreInv, Running, Clear, RowWrites, NewExternal, HoldsKeys;
    WalletNotYetWritten(log, s);
    var w, rw := s.phase.w, s.phase.rw;
    Commits.SeenWalletIsThere(log, s, w, rw);
  }

  lemma DuplicateIsCharged(log: seq<Store>, s: Session, f: Failure)
    requires LogOk(log) && SessionOk(log, s) && s.op.HttpCall? && MeetsKey(log, s, f)
    ensures Charged(log, s.op.input, f) && s.began <= StartOf(f)
  {
    hide StoreInv, Extends, NewExternal, Guard, WalletReadOk;
    var i := s.op.input;
    RunningFacts(log, s) by { assert Running(log, s); }
    Steps.FreshRow(Db(log), s);
    Commits.NewRowNames(s.env.txId, i, s.phase.w, s.env.now);
    Locking.NewRowNamed(s.env.txId, i, s.phase.w, s.env.now);
  }

  lemma FailsAppended(log: seq<Store>, i: Input, fails: seq<Failure>, f: Failure)
    requires FailsOk(log, i, fails) && Charged(log, i, f) && !HasDuplicate(fails)
    requires forall k | 0 <= k < |fails| :: fails[k].at <= StartOf(f)
    ensures FailsOk(log, i, fails + [f])
  {
    hide Charged;
  }

  /** Once the request has a row the lookups stop the attempt, in a replay or a conflict. */
  lemma LookupStops(log: seq<Store>, s: Session, i: Input)
    requires log != [] && Indexed(Db(log)) && Rows(Db(log)) && PlainWrites(s) && Active(s) && s.op == HttpCall(i)
    requires DuplicateOk(log, s, i)
    ensures LookupPhase(log, Advance(log, s), i)
  {
    hide Indexed, Rows, StepBegun, StepKeyMissed, StepFound, RequestTaken, FindByKey, FindByOp, CanonicalOf, Supported;
    var v, at := Apply(Db(log), s.writes), |log| - 1;
    TakenIsFound(Db(log), v, i);
    if s.phase.Begun? {
      BegunStops(Db(log), v, at, s, i);
    } else if s.phase.KeyMissed? {
      KeyMissedStops(Db(log), v, s, i);
    } else {
      FoundStops(v, at, s);
    }
  }

  /** A lookup in a good state finds only rows of existing wallets. */
  lemma FoundHasWallet(db: Store, v: Store, t: TxRow)
    requires Rows(db) && v.txs == db.txs && t in v.txs.Values
    ensures t.terms.walletId in db.wallets
  {
    var id :| id in db.txs && db.txs[id] == t;
    assert RowOk(db, db.txs[id]);
  }

  lemma BegunStops(db: Store, v: Store, at: nat, s: Session, i: Input)
    requires RequestTaken(db, i) && Supported(i.kind) && Rows(db) && v.txs == db.txs
    requires i.idempotencyKey in db.byKey ==> FindByKey(v, i.idempotencyKey).Some?
    ensures var p := StepBegun(v, at, s, i).phase;
      || p == Aborted(ErrIdempotencyConflict)
      || (p.Found? && p.t.terms.walletId in db.wallets)
      || (p.KeyMissed? && (i.providerId, i.externalId) in db.byOp)
  {
    hide CanonicalOf, Rows;
    if FindByKey(v, i.idempotencyKey).Some? {
      FoundHasWallet(db, v, FindByKey(v, i.idempotencyKey).value);
    }
  }

  lemma KeyMissedStops(db: Store, v: Store, s: Session, i: Input)
    requires FindByOp(v, i.providerId, i.externalId).Some? && Rows(db) && v.txs == db.txs
    ensures var p := StepKeyMissed(v, s, i).phase;
      p == Aborted(ErrIdempotencyConflict) || (p.Found? && p.t.terms.walletId in db.wallets)
  {
    hide CanonicalOf, Rows;
    FoundHasWallet(db, v, FindByOp(v, i.providerId, i.externalId).value);
  }

  lemma FoundStops(v: Store, at: nat, s: Session)
    requires s.phase.Found? && s.phase.t.terms.walletId in v.wallets
    ensures var p := StepFound(v, at, s).phase; p.Decided? && p.decision == Silent && p.out.replay
  {
  }

  lemma TakenIsFound(db: Store, v: Store, i: Input)
    requires Indexed(db)
    requires v.txs == db.txs && v.byKey == db.byKey && v.byOp == db.byOp
    ensures i.idempotencyKey in db.byKey ==> FindByKey(v, i.idempotencyKey).Some?
    ensures (i.providerId, i.externalId) in db.byOp ==> FindByOp(v, i.providerId, i.externalId).Some?
  {
  }

  lemma SameFailsRetry(log: seq<Store>, s: Session, s': Session)
    requires log != [] && s.began < |log| && RetryOk(log, s) && Active(s) && s.op.HttpCall?
    requires s'.op == s.op && s'.began == s.began && s'.fails == s.fails && s'.phase != Aborted(ErrTooManyRetries)
    requires HasDuplicate(s.fails) ==> LookupPhase(log, s', s.op.input)
    ensures RetryOk(log, s')
  {
    hide FailsOk, LookupPhase, RequestTaken;
  }

  lemma NewFailRetry(log: seq<Store>, s: Session, s': Session, f: Failure)
    requires log != [] && s.began < |log| && RetryOk(log, s) && Active(s) && s.op.HttpCall? && !HasDuplicate(s.fails)
    requires s'.op == s.op && s'.fails == s.fails + [f] && s'.phase == Aborted(AfterFailure(f, |s'.fails|))
    requires Charged(log, s.op.input, f) && s.began <= StartOf(f) && f.at < |log|
    requires f.Duplicate? ==> RequestTaken(Db(log), s.op.input) && Supported(s.op.input.kind)
    ensures RetryOk(log, s')
  {
    hide Charged, RequestTaken, FailsOk;
    FailsAppended(log, s.op.input, s.fails, f);
  }

  lemma StepRetry(log: seq<Store>, s: Session)
    requires LogOk(log) && SessionOk(log, s) && Active(s) && RetryOk(log, s)
    ensures RetryOk(log, Advance(log, s))
  {
    hide StoreInv, Extends, SessionOk, Advance, LookupPhase, RequestTaken, RetryOk, FailsOk, Supported;
    var s' := Advance(log, s);
    AdvanceContinues(log, s);
    if s.op.HttpCall? {
      AdvanceRecords(log, s);
      BeganBefore(log, s);
      if HasDuplicate(s.fails) {
        DuplicateLooksUp(log, s);
        PlainInLookups(log, s);
        LookupStops(log, s, s.op.input);
        NoFailureInLookups(log, s);
        SameFailsRetry(log, s, s');
      } else if s'.fails == s.fails {
        SameFailsRetry(log, s, s');
      } else {
        var f :| s'.fails == s.fails + [f] && (LosesRace(log, s, f) || MeetsKey(log, s, f))
                 && s'.phase == Aborted(AfterFailure(f, |s'.fails|));
        if LosesRace(log, s, f) {
          RaceIsCharged(log, s, f);
        } else {
          DuplicateIsCharged(log, s, f);
          DuplicateTaken(log, s, f);
        }
        NewFailRetry(log, s, s', f);
      }
    } else {
      assert RetryOk(log, s') by { NoRetry(log, s'); }
    }
  }

  lemma NoRetry(log: seq<Store>, s: Session)
    requires log != [] && !s.op.HttpCall?
    ensures RetryOk(log, s)
  {
  }

  lemma DuplicateLooksUp(log: seq<Store>, s: Session)
    requires log != [] && RetryOk(log, s) && s.op.HttpCall? && HasDuplicate(s.fails)
    ensures DuplicateOk(log, s, s.op.input)
  {
    hide LookupPhase, RequestTaken;
  }

  lemma BeganBefore(log: seq<Store>, s: Session)
    requires log != [] && SessionOk(log, s) && Active(s)
    ensures s.began < |log|
  {
    hide PhaseOk, Guard, HoldsIds, InboxHeld;
  }

  lemma PlainInLookups(log: seq<Store>, s: Session)
    requires LogOk(log) && SessionOk(log, s) && Active(s) && s.op.HttpCall? && LookupPhase(log, s, s.op.input)
    ensures PlainWrites(s) && Indexed(Db(log)) && Rows(Db(log))
  {
    hide StoreInv, Extends, Running, RowForSeen, RequestTaken;
    Commits.LastGood(log);
  }

  lemma DuplicateTaken(log: seq<Store>, s: Session, f: Failure)
    requires log != [] && MeetsKey(log, s, f) && s.op.HttpCall? && Charged(log, s.op.input, f)
    ensures RequestTaken(Db(log), s.op.input) && Supported(s.op.input.kind)
  {
    hide CanonicalOf;
  }

  lemma NoFailureInLookups(log: seq<Store>, s: Session)
    requires log != [] && Active(s) && s.op.HttpCall? && LookupPhase(log, s, s.op.input)
    requires Records(log, s, Advance(log, s))
    ensures Advance(log, s).fails == s.fails
  {
    hide Advance;
  }

  // ---------------------------------------------------------------- runs

  lemma ChargedStays(log: seq<Store>, next: Store, i: Input, f: Failure)
    requires Charged(log, i, f)
    ensures Charged(log + [next], i, f)
  {
  }

  lemma TakenStays(a: Store, b: Store, i: Input)
    requires Extends(a, b) && RequestTaken(a, i)
    ensures RequestTaken(b, i)
    ensures (i.providerId, i.externalId) in a.byOp ==> (i.providerId, i.externalId) in b.byOp
  {
    hide RowsGrow, ReversalMovesWallet;
  }

  lemma LogGrowsRetry(log: seq<Store>, next: Store, s: Session)
    requires log != [] && Extends(Db(log), next) && RetryOk(log, s)
    ensures RetryOk(log + [next], s)
  {
    hide Extends, Charged, RequestTaken;
    if s.op.HttpCall? {
      forall k | 0 <= k < |s.fails|
        ensures Charged(log + [next], s.op.input, s.fails[k])
      {
        ChargedStays(log, next, s.op.input, s.fails[k]);
      }
      if HasDuplicate(s.fails) {
        TakenStays(Db(log), next, s.op.input);
        LookupStays(log, next, s, s.op.input);
      }
    }
  }

  lemma LookupStays(log: seq<Store>, next: Store, s: Session, i: Input)
    requires log != [] && Extends(Db(log), next) && LookupPhase(log, s, i) && RequestTaken(Db(log), i)
    ensures LookupPhase(log + [next], s, i)
  {
    hide ReversalMovesWallet, WalletGrows, TxGrows;
  }

  lemma EndRetry(log: seq<Store>, s: Session, s': Session)
    requires log != [] && s.phase.Decided? && RetryOk(log, s) && s' == s.(phase := Done(s.phase.out), writes := NO_WRITES, locks := map[])
    ensures RetryOk(log, s')
  {
    hide FailsOk, RequestTaken;
  }

  lemma AgainRetry(log: seq<Store>, s: Session, s': Session, env: Env)
    requires log != [] && RetryOk(log, s) && s.op.HttpCall? && s.phase.Aborted? && s.phase.error != ErrTooManyRetries
    requires s' == Start(s.op, env, |log| - 1, IdLocks(env), s.fails)
    ensures RetryOk(log, s')
  {
    hide FailsOk, IdLocks;
  }

  lemma CommitRetry(m: Machine, sid: nat, m': Machine)
    requires MachineInv(m) && AllRetry(m) && Next(m, Commit(sid), m')
    ensures AllRetry(m')
  {
    hide LogOk, Extends, Running, PhaseOk, RetryOk, Disjoint;
    Interleaving.KnownRunning(m, sid);
    CommitExtends(m.log, m.sessions[sid]);
    forall other | other in m'.sessions
      ensures RetryOk(m'.log, m'.sessions[other])
    {
      LogGrowsRetry(m.log, Db(m'.log), m.sessions[other]);
      if other == sid {
        EndRetry(m'.log, m.sessions[sid], m'.sessions[sid]);
      }
    }
  }

  lemma NextRetry(m: Machine, l: Label, m': Machine)
    requires MachineInv(m) && AllRetry(m) && Next(m, l, m')
    ensures m'.log != [] && AllRetry(m')
  {
    hide LogOk, SessionOk, Advance, Disjoint, FailsOk, Content, IdLocks, RetryOk;
    match l {
      case Commit(sid) => CommitRetry(m, sid, m');
      case Step(sid) => StepRetry(m.log, m.sessions[sid]);
      case Again(sid, env) => AgainRetry(m.log, m.sessions[sid], m'.sessions[sid], env);
      case Begin(sid, _, _) => FirstTry(m.log, m'.sessions[sid]);
      case _ =>
    }
  }

  lemma FirstTry(log: seq<Store>, s: Session)
    requires log != [] && s.fails == [] && !s.phase.Aborted?
    ensures RetryOk(log, s)
  {
  }

  lemma {:induction false} RunRetry(run: seq<Machine>)
    requires IsRun(run)
    ensures var m := run[|run| - 1]; m.log != [] && AllRetry(m)
  {
    hide MachineInv, Next, RetryOk;
    if |run| > 1 {
      var front := run[..|run| - 1];
      RunRetry(front);
      RunSafe(front);
      var m, m' := run[|run| - 2], run[|run| - 1];
      assert front[|front| - 1] == m;
      var l :| Next(m, l, m');
      NextRetry(m, l, m');
    }
  }

  /** What a call that has met a taken key can come to: a replay, a conflict, or giving up; never anything else. */
  ghost predicate EndsInReplay(s: Session) {
    match s.phase
    case Done(out) => out.replay
    case Decided(d, _, _, _, out) => d == Silent && out.replay
    case Aborted(e) => e == ErrAlreadyExists || e == ErrTooManyRetries || e == ErrIdempotencyConflict
    case _ => s.phase.Begun? || s.phase.KeyMissed? || s.phase.Found?
  }

  /** Every failure of a call is paid for: a lost race by a version increment of its wallet in a stretch of the log
      of its own, a duplicate by the request's row, after which no failure follows: the next attempt never gets past
      its lookups, and ends in a replay of that row or in a conflict with it. */
  lemma FailuresAreCharged(m: Machine, sid: nat)
    requires Reachable(m) && sid in m.sessions && m.sessions[sid].op.HttpCall?
    ensures FailsOk(m.log, m.sessions[sid].op.input, m.sessions[sid].fails)
    ensures m.sessions[sid].phase == Aborted(ErrTooManyRetries) <==> |m.sessions[sid].fails| == MAX_RETRIES
    ensures HasDuplicate(m.sessions[sid].fails) ==> EndsInReplay(m.sessions[sid])
  {
    hide FailsOk, Next;
    var run :| IsRun(run) && run[|run| - 1] == m;
    RunRetry(run);
    assert RetryOk(m.log, m.sessions[sid]);
  }

  function VersionOf(s: Store, walletId: Id): nat {
    if walletId in s.wallets then s.wallets[walletId].version else 0
  }

  ghost predicate VersionsGrow(log: seq<Store>, walletId: Id) {
    forall i, j | 0 <= i <= j < |log| :: VersionOf(log[i], walletId) <= VersionOf(log[j], walletId)
  }

  lemma LogVersionsGrow(log: seq<Store>, walletId: Id)
    requires LogOk(log)
    ensures VersionsGrow(log, walletId)
  {
    hide StoreInv, Extends;
    forall i, j | 0 <= i <= j < |log|
      ensures VersionOf(log[i], walletId) <= VersionOf(log[j], walletId)
    {
      VersionGrows(log[i], log[j], walletId);
    }
  }

  lemma VersionGrows(a: Store, b: Store, walletId: Id)
    requires Extends(a, b)
    ensures VersionOf(a, walletId) <= VersionOf(b, walletId)
  {
    hide ReversalMovesWallet, Within;
  }

  /** The increments are distinct: `n` lost races add up to `n` versions. */
  lemma {:induction false} IncrementsAddUp(log: seq<Store>, i: Input, fails: seq<Failure>, n: nat)
    requires VersionsGrow(log, i.walletId) && FailsOk(log, i, fails)
    requires 1 <= n <= |fails| && (forall k | 0 <= k < n :: fails[k].LostRace?)
    ensures fails[0].rw < |log| && fails[n - 1].at < |log|
    ensures VersionOf(log[fails[n - 1].at], i.walletId) >= VersionOf(log[fails[0].rw], i.walletId) + n
  {
    assert Charged(log, i, fails[n - 1]);
    if n > 1 {
      IncrementsAddUp(log, i, fails, n - 1);
      assert fails[n - 2].at <= StartOf(fails[n - 1]);
    }
  }

  // ---------------------------------------------------------------- whose commits they were

  /** From here on a call's own commit can only be its last: where its first failure began, or its current attempt. */
  function Origin(s: Session): nat {
    if s.fails == [] then s.began else StartOf(s.fails[0])
  }

  function LastAt(s: Session): nat {
    if s.fails == [] then 0 else s.fails[|s.fails| - 1].at
  }

  /** The call has committed nothing since its origin, or at most once, after its last failure. */
  ghost predicate AuthoredByOthers(m: Machine, sid: nat)
    requires sid in m.sessions
  {
    && |m.authors| == |m.log| - 1
    && forall k | Origin(m.sessions[sid]) <= k < |m.authors| && (m.sessions[sid].phase.Done? ==> k < LastAt(m.sessions[sid])) ::
         m.authors[k] != sid
  }

  ghost predicate AllAuthored(m: Machine) {
    |m.authors| == |m.log| - 1 && forall sid | sid in m.sessions && m.sessions[sid].op.HttpCall? :: AuthoredByOthers(m, sid)
  }

  /** A step keeps the call's origin or moves it on. */
  lemma StepOrigin(log: seq<Store>, s: Session)
    requires LogOk(log) && SessionOk(log, s) && Active(s)
    ensures Origin(Advance(log, s)) >= Origin(s)
  {
    hide StoreInv, Extends, SessionOk, Advance, LosesRace, MeetsKey;
    AdvanceContinues(log, s);
    if s.op.HttpCall? {
      AdvanceRecords(log, s);
      BeganBefore(log, s);
      var s' := Advance(log, s);
      if s'.fails != s.fails {
        var f :| s'.fails == s.fails + [f] && (LosesRace(log, s, f) || MeetsKey(log, s, f));
        if LosesRace(log, s, f) {
          RaceIsCharged(log, s, f);
        } else {
          DuplicateIsCharged(log, s, f);
        }
      }
    }
  }

  lemma CommitAuthored(m: Machine, other: nat, m': Machine, sid: nat)
    requires MachineInv(m) && AllRetry(m) && Next(m, Commit(other), m')
    requires sid in m.sessions && m.sessions[sid].op.HttpCall? && AuthoredByOthers(m, sid)
    ensures AuthoredByOthers(m', sid)
  {
    hide LogOk, Extends, Disjoint, FailsOk, PhaseOk, HoldsIds, Guard, InboxHeld, DuplicateOk;
    if sid == other {
      Interleaving.KnownRunning(m, sid);
      assert RetryOk(m.log, m.sessions[sid]);
    }
  }

  lemma StepAuthored(m: Machine, other: nat, m': Machine, sid: nat)
    requires MachineInv(m) && Next(m, Step(other), m')
    requires sid in m.sessions && m.sessions[sid].op.HttpCall? && AuthoredByOthers(m, sid)
    ensures AuthoredByOthers(m', sid)
  {
    hide LogOk, SessionOk, Advance, Disjoint;
    StepOrigin(m.log, m.sessions[other]);
  }

  lemma AgainAuthored(m: Machine, other: nat, env: Env, m': Machine, sid: nat)
    requires Next(m, Again(other, env), m')
    requires sid in m.sessions && m.sessions[sid].op.HttpCall? && AuthoredByOthers(m, sid)
    ensures AuthoredByOthers(m', sid)
  {
    hide IdLocks, FreshIds;
  }

  lemma NextAuthored(m: Machine, l: Label, m': Machine)
    requires MachineInv(m) && AllRetry(m) && AllAuthored(m) && Next(m, l, m')
    ensures AllAuthored(m')
  {
    hide LogOk, SessionOk, Advance, Disjoint, FreshIds, IdLocks, AuthoredByOthers, RetryOk;
    forall sid | sid in m'.sessions && m'.sessions[sid].op.HttpCall?
      ensures AuthoredByOthers(m', sid)
    {
      match l {
        case Begin(other, _, _) => BeginAuthored(m, l, m', sid);
        case Commit(other) => CommitAuthored(m, other, m', sid);
        case Step(other) =>
          AdvanceContinues(m.log, m.sessions[other]);
          StepAuthored(m, other, m', sid);
        case Again(other, env) => AgainAuthored(m, other, env, m', sid);
        case _ => SameAuthored(m, m', sid);
      }
    }
  }

  lemma SameAuthored(m: Machine, m': Machine, sid: nat)
    requires sid in m.sessions && AuthoredByOthers(m, sid) && sid in m'.sessions && m'.sessions[sid] == m.sessions[sid]
    requires m'.log == m.log && m'.authors == m.authors
    ensures AuthoredByOthers(m', sid)
  {
  }

  lemma BeginAuthored(m: Machine, l: Label, m': Machine, sid: nat)
    requires l.Begin? && Next(m, l, m') && |m.authors| == |m.log| - 1 && sid in m'.sessions
    requires sid in m.sessions ==> AuthoredByOthers(m, sid)
    ensures AuthoredByOthers(m', sid)
  {
    hide IdLocks, FreshIds;
  }

  lemma {:induction false} RunAuthored(run: seq<Machine>)
    requires IsRun(run)
    ensures AllAuthored(run[|run| - 1])
  {
    hide MachineInv, Next, AllRetry, AuthoredByOthers;
    if |run| > 1 {
      var front := run[..|run| - 1];
      RunAuthored(front);
      RunRetry(front);
      RunSafe(front);
      var m, m' := run[|run| - 2], run[|run| - 1];
      assert front[|front| - 1] == m;
      var l :| Next(m, l, m');
      NextAuthored(m, l, m');
    }
  }

  ghost predicate Rises(log: seq<Store>, walletId: Id, k: nat) {
    0 < k < |log| && VersionOf(log[k - 1], walletId) < VersionOf(log[k], walletId)
  }

  lemma {:induction false} RiseBetween(log: seq<Store>, walletId: Id, a: nat, b: nat) returns (k: nat)
    requires a < b < |log| && VersionOf(log[a], walletId) < VersionOf(log[b], walletId)
    ensures a < k <= b && Rises(log, walletId, k)
  {
    if Rises(log, walletId, b) {
      k := b;
    } else {
      k := RiseBetween(log, walletId, a, b - 1);
    }
  }

  function LostRaces(fails: seq<Failure>): nat {
    if HasDuplicate(fails) then |fails| - 1 else |fails|
  }

  /** Increasing places of the log, each in the stretch of one lost race, at which the wallet's version rises. */
  ghost predicate RisesFor(log: seq<Store>, i: Input, fails: seq<Failure>, ks: seq<nat>) {
    && |ks| <= |fails|
    && (forall n | 0 <= n < |ks| :: StartOf(fails[n]) < ks[n] <= fails[n].at && Rises(log, i.walletId, ks[n]))
    && (forall a, b | 0 <= a < b < |ks| :: ks[a] < ks[b])
  }

  lemma {:induction false} RisesOfRaces(log: seq<Store>, i: Input, fails: seq<Failure>, n: nat) returns (ks: seq<nat>)
    requires FailsOk(log, i, fails) && n <= |fails| && (forall k | 0 <= k < n :: fails[k].LostRace?)
    ensures RisesFor(log, i, fails, ks) && |ks| == n
  {
    ks := [];
    if n > 0 {
      ks := RisesOfRaces(log, i, fails, n - 1);
      assert Charged(log, i, fails[n - 1]);
      var k := RiseBetween(log, i.walletId, fails[n - 1].rw, fails[n - 1].at);
      ks := ks + [k];
      assert forall a | 0 <= a < n - 1 :: fails[a].at <= StartOf(fails[n - 1]);
    }
  }

  /** At these places of the log, all different, another session's commit moved the call's wallet on. */
  ghost predicate OthersCommits(m: Machine, sid: nat, ks: seq<nat>)
    requires sid in m.sessions && m.sessions[sid].op.HttpCall?
  {
    && (forall a, b | 0 <= a < b < |ks| :: ks[a] < ks[b])
    && forall k | k in ks :: Rises(m.log, m.sessions[sid].op.input.walletId, k) && 0 < k <= |m.authors| && m.authors[k - 1] != sid
  }

  /** Every lost race was lost to a commit of its own by another session, which moved the call's wallet on. */
  lemma LostRacesAreOthersCommits(m: Machine, sid: nat) returns (ks: seq<nat>)
    requires Reachable(m) && sid in m.sessions && m.sessions[sid].op.HttpCall?
    ensures |ks| == LostRaces(m.sessions[sid].fails) && OthersCommits(m, sid, ks)
  {
    hide Next, AllRetry, RetryOk, Rises;
    var s := m.sessions[sid];
    var run :| IsRun(run) && run[|run| - 1] == m;
    RunAuthored(run);
    FailuresAreCharged(m, sid);
    ks := RisesOfRaces(m.log, s.op.input, s.fails, LostRaces(s.fails));
    AfterOrigin(m.log, s, ks);
    forall k | k in ks
      ensures Rises(m.log, s.op.input.walletId, k) && 0 < k <= |m.authors| && m.authors[k - 1] != sid
    {
      InLog(m.log, s.op.input.walletId, k);
    }
  }

  lemma InLog(log: seq<Store>, walletId: Id, k: nat)
    requires Rises(log, walletId, k)
    ensures 0 < k < |log|
  {
  }

  lemma AfterOrigin(log: seq<Store>, s: Session, ks: seq<nat>)
    requires s.op.HttpCall? && FailsOk(log, s.op.input, s.fails) && RisesFor(log, s.op.input, s.fails, ks)
    ensures forall n | 0 <= n < |ks| :: Origin(s) < ks[n] <= LastAt(s)
  {
    hide Charged, Rises;
    forall n | 0 <= n < |ks|
      ensures Origin(s) < ks[n] <= LastAt(s)
    {
      FailsOrdered(log, s.op.input, s.fails, 0, n);
      FailsOrdered(log, s.op.input, s.fails, n, |s.fails| - 1);
    }
  }

  lemma FailsOrdered(log: seq<Store>, i: Input, fails: seq<Failure>, a: nat, b: nat)
    requires FailsOk(log, i, fails) && a <= b < |fails|
    ensures StartOf(fails[a]) <= StartOf(fails[b]) && fails[a].at <= fails[b].at
  {
    assert Charged(log, i, fails[a]) && Charged(log, i, fails[b]);
  }

  /** A call that gives up has lost at least four times to another session: at four places of the log or more, somebody
      else's commit moved its wallet on. It leaves nothing behind. */
  lemma GivingUpMeansContention(m: Machine, sid: nat)
    requires Reachable(m) && sid in m.sessions && m.sessions[sid].op.HttpCall? && m.sessions[sid].phase == Aborted(ErrTooManyRetries)
    ensures var s := m.sessions[sid];
      && |s.fails| == MAX_RETRIES && s.fails[0].LostRace? && s.fails[0].rw < |m.log|
      && VersionOf(Db(m.log), s.op.input.walletId) >= VersionOf(m.log[s.fails[0].rw], s.op.input.walletId) + 4
      && s.writes == NO_WRITES && s.locks == map[]
    ensures exists ks :: |ks| >= 4 && OthersCommits(m, sid, ks)
  {
    hide Reachable, StoreInv, Extends, Running, PhaseOk, OthersCommits;
    var s := m.sessions[sid];
    FailuresAreCharged(m, sid);
    ReachableSafe(m);
    assert SessionOk(m.log, s);
    LogVersionsGrow(m.log, s.op.input.walletId);
    IncrementsAddUp(m.log, s.op.input, s.fails, 4);
    var ks := LostRacesAreOthersCommits(m, sid);
  }

  /** A call that failed, for whatever reason, has nothing written and holds nothing: only commits reach the log. */
  lemma FailedCallsLeaveNothing(m: Machine, sid: nat, l: Label, m': Machine)
    requires Reachable(m) && sid in m.sessions && m.sessions[sid].phase.Aborted? && Next(m, l, m')
    ensures m.sessions[sid].writes == NO_WRITES && m.sessions[sid].locks == map[]
    ensures l != Commit(sid)
    ensures !l.Commit? ==> m'.log == m.log
  {
    hide Reachable, StoreInv, Extends, Running, PhaseOk, Advance, IdLocks, FreshIds;
    ReachableSafe(m);
    assert SessionOk(m.log, m.sessions[sid]);
  }
}
