/** Idempotency over runs: every answer a caller ever gets agrees with the stored row, for good. */
module Answers {
  import opened Wrappers
  import opened Wallet
  import opened WagerTx
  import opened Ledger
  import opened Store
  import opened Process
  import opened Invariants
  import opened Machine
  import opened Sessions
  import opened Steps
  import opened Commits
  import opened Safety
  import Interleaving

  predicate Final(s: Status) {
    s == Processed || s == Rejected
  }

  /** The row confirms the answer: once the answer is final the row says the same. */
  ghost predicate Confirms(t: TxRow, out: Output) {
    && (Final(out.status) ==> t.status == out.status && t.failureCode == out.failureCode && t.financialResult == Some(out.balance))
    && (out.status == Failed ==> t.status == Failed && t.failureCode == out.failureCode)
  }

  /** The request's row, under its key and with its payload hash. */
  ghost predicate RowOf(s: Store, i: Input, id: Id) {
    && i.idempotencyKey in s.byKey && s.byKey[i.idempotencyKey] == id && id in s.txs
    && s.txs[id].terms.payloadHash == Some(CanonicalOf(i))
  }

  ghost predicate AnswerOk(s: Store, i: Input, out: Output) {
    RowOf(s, i, out.transactionId) && Confirms(s.txs[out.transactionId], out)
  }

  ghost predicate SeenFor(log: seq<Store>, i: Input, t: TxRow) {
    exists at: nat :: at < |log| && SeenAt(log[at], i, t)
  }

  ghost predicate SeenAt(s: Store, i: Input, t: TxRow) {
    RowOf(s, i, t.id) && s.txs[t.id] == t
  }

  /** The answer repeats what the row says. */
  predicate Repeats(t: TxRow, out: Output) {
    && out.transactionId == t.id && out.status == t.status && out.failureCode == t.failureCode
    && (t.financialResult.Some? ==> t.financialResult == Some(out.balance))
  }

  ghost predicate RepeatsSeen(log: seq<Store>, i: Input, out: Output) {
    exists t :: SeenFor(log, i, t) && Repeats(t, out)
  }

  ghost predicate Answered(log: seq<Store>, s: Session)
    requires log != []
  {
    s.op.HttpCall? ==>
      match s.phase
      case Found(t) => SeenFor(log, s.op.input, t)
      case Decided(Silent, _, _, _, out) => RepeatsSeen(log, s.op.input, out)
      case Done(out) => AnswerOk(Db(log), s.op.input, out)
      case _ => true
  }

  ghost predicate AllAnswered(m: Machine)
    requires m.log != []
  {
    forall sid | sid in m.sessions :: Answered(m.log, m.sessions[sid])
  }

  // ---------------------------------------------------------------- steps

  lemma BegunFinds(log: seq<Store>, s: Session, i: Input)
    requires log != [] && Indexed(Db(log)) && PlainWrites(s)
    requires StepBegun(Apply(Db(log), s.writes), |log| - 1, s, i).phase.Found?
    ensures var s' := StepBegun(Apply(Db(log), s.writes), |log| - 1, s, i); SeenFor(log, i, s'.phase.t) && s'.op == s.op
  {
    hide CanonicalOf, OpsOk, OwnersOk;
    var db, t := Db(log), StepBegun(Apply(Db(log), s.writes), |log| - 1, s, i).phase.t;
    assert SeenAt(log[|log| - 1], i, t);
  }

  lemma KeyMissedFinds(log: seq<Store>, s: Session, i: Input)
    requires log != [] && Indexed(Db(log)) && Rows(Db(log)) && PlainWrites(s)
    requires StepKeyMissed(Apply(Db(log), s.writes), s, i).phase.Found? && !s.phase.Found?
    ensures var s' := StepKeyMissed(Apply(Db(log), s.writes), s, i); SeenFor(log, i, s'.phase.t) && s'.op == s.op
  {
    hide CanonicalOf, OwnersOk, Rows;
    var db, t := Db(log), StepKeyMissed(Apply(Db(log), s.writes), s, i).phase.t;
    KeyedRow(db, t, i);
    assert SeenAt(log[|log| - 1], i, t);
  }

  lemma KeyedRow(db: Store, t: TxRow, i: Input)
    requires Indexed(db) && Rows(db) && t.id in db.txs && db.txs[t.id] == t
    requires t.terms.idempotencyKey == i.idempotencyKey && t.terms.payloadHash == Some(CanonicalOf(i))
    ensures RowOf(db, i, t.id)
  {
    hide CanonicalOf, OwnersOk, OpsOk;
    assert RowOk(db, t);
  }

  lemma FoundRepeats(v: Store, at: nat, s: Session)
    requires s.phase.Found?
    ensures var s' := StepFound(v, at, s);
      s'.phase.Aborted? || (s'.phase.Decided? && s'.op == s.op && s'.phase.decision == Silent && Repeats(s.phase.t, s'.phase.out))
  {
  }

  ghost predicate NotSilent(p: Phase) {
    !p.Found? && !p.Done? && (p.Decided? ==> p.decision != Silent)
  }

  lemma EarlyNotSilent(v: Store, at: nat, s: Session, i: Input)
    ensures NotSilent(StepOpMissed(v, at, s, i).phase)
    ensures s.phase.WalletRead? ==> NotSilent(StepWalletRead(v, at, s, i).phase)
  {
    hide NewExternal, Taken;
  }

  lemma LoadedNotSilent(v: Store, at: nat, s: Session)
    requires s.phase.Loaded?
    ensures NotSilent(StepLoaded(v, at, s).phase)
  {
    hide FindByOp, ValidateReference, MarkedRejected, MarkedPendingReference, RetryRecorded;
  }

  lemma LateNotSilent(v: Store, at: nat, s: Session)
    ensures s.phase.Referenced? ==> NotSilent(StepReferenced(v, at, s).phase)
    ensures s.phase.Saved? ==> NotSilent(StepSaved(s).phase)
  {
    hide HasProcessedReversal, ReferenceResolved, NewEntry, MarkedRejected, MarkedProcessed, ResolvedRow;
  }

  lemma ClearedNotSilent(v: Store, at: nat, s: Session)
    requires s.phase.Cleared?
    ensures NotSilent(StepCleared(v, at, s).phase)
  {
    hide DirectionOf, Moved, ResolvedRow, MarkedRejected, MarkedProcessed;
  }

  /** Past the lookups a session never ends silently. */
  lemma NeverSilent(log: seq<Store>, s: Session)
    requires log != [] && Active(s) && s.op.HttpCall?
    requires s.phase.WalletRead? || s.phase.OpMissed? || s.phase.Loaded? || s.phase.Referenced? || s.phase.Cleared? || s.phase.Saved?
    ensures NotSilent(Advance(log, s).phase)
  {
    hide Apply, StepOpMissed, StepWalletRead, StepLoaded, StepReferenced, StepCleared, StepSaved;
    var v, at := Apply(Db(log), s.writes), |log| - 1;
    EarlyNotSilent(v, at, s, s.op.input);
    LateNotSilent(v, at, s);
    if s.phase.Loaded? {
      LoadedNotSilent(v, at, s);
    } else if s.phase.Cleared? {
      ClearedNotSilent(v, at, s);
    }
  }

  /** One step keeps the answers right. */
  lemma AdvanceAnswers(log: seq<Store>, s: Session)
    requires LogOk(log) && SessionOk(log, s) && Active(s) && Answered(log, s)
    ensures Answered(log, Advance(log, s))
  {
    hide StoreInv, Extends, Running, StepBegun, StepKeyMissed, StepOpMissed, StepWalletRead, StepFound, StepLoaded,
         StepReferenced,
         StepCleared, StepSaved, StepArrived, StepResume, StepExpire, StepOpen, StepLocked, LoadedOk, ReferencedOk, Clear, SavedOk, Apply,
         SeenFor, Repeats, AnswerOk;
    var s' := Advance(log, s);
    StepIsOk(log, s);
    AdvanceContinues(log, s);
    if s.op.HttpCall? {
      LastGood(log);
      match s.phase {
        case Begun => if s'.phase.Found? { BegunFinds(log, s, s.op.input); } else { BegunGoesOn(Apply(Db(log), s.writes), |log| - 1, s, s.op.input); }
        case KeyMissed(_) =>
          if s'.phase.Found? { KeyMissedFinds(log, s, s.op.input); } else { KeyMissedGoesOn(Apply(Db(log), s.writes), s, s.op.input); }
        case Found(t) => FoundRepeats(Apply(Db(log), s.writes), |log| - 1, s);
        case Arrived =>
        case Locked(_) =>
        case _ => NeverSilent(log, s);
      }
    }
  }

  lemma BegunGoesOn(v: Store, at: nat, s: Session, i: Input)
    ensures var p := StepBegun(v, at, s, i).phase; p.Aborted? || p.KeyMissed? || p.Found?
  {
    hide FindByKey, CanonicalOf;
  }

  lemma KeyMissedGoesOn(v: Store, s: Session, i: Input)
    ensures var p := StepKeyMissed(v, s, i).phase; p.Aborted? || p == OpMissed || p.Found?
  {
    hide FindByOp, CanonicalOf;
  }

  // ---------------------------------------------------------------- commits

  lemma RowOfStays(a: Store, b: Store, i: Input, id: Id)
    requires Extends(a, b) && RowOf(a, i, id)
    ensures RowOf(b, i, id) && TxGrows(a.txs[id], b.txs[id])
  {
    hide ReversalMovesWallet, WalletGrows, CanonicalOf;
    assert TxGrows(a.txs[id], b.txs[id]);
  }

  lemma AnswerStays(a: Store, b: Store, i: Input, out: Output)
    requires Extends(a, b) && AnswerOk(a, i, out)
    ensures AnswerOk(b, i, out)
  {
    hide Extends, RowOf;
    RowOfStays(a, b, i, out.transactionId);
  }

  /** A row that was seen confirms what was repeated from it, then and ever after. */
  lemma RepeatedIsAnswer(a: Store, b: Store, i: Input, t: TxRow, out: Output)
    requires Rows(a) && Extends(a, b) && SeenAt(a, i, t) && Repeats(t, out)
    ensures AnswerOk(b, i, out)
  {
    hide Extends;
    assert RowOk(a, t);
    NotOpening(a, i, t);
    AnswerStays(a, b, i, out);
  }

  lemma NotOpening(a: Store, i: Input, t: TxRow)
    requires RowOk(a, t) && t.terms.payloadHash == Some(CanonicalOf(i))
    ensures t.terms.kind != Opening
  {
  }

  /** What an ending answers is what it writes. */
  ghost predicate Honest(o: Outcome) {
    o.Committed? ==> o.writes.tx.Some? && o.writes.tx.value.id == o.out.transactionId && Confirms(o.writes.tx.value, o.out)
  }

  lemma EndingsAreHonest(t: TxRow, w: WalletRow, w': WalletRow, code: FailureCode, direction: Direction, env: Env)
    ensures Honest(Reject(t, w, code, env)) && Honest(Park(t, w, env)) && Honest(Note(t, w, env)) && Honest(Settle(t, w, w', direction, env))
  {
    hide NewEntry;
  }

  lemma HonestWrites(s: Session, o: Outcome)
    requires Writing(s, o) && Honest(o)
    ensures s.writes.tx.Some? && s.writes.tx.value.id == s.phase.out.transactionId && Confirms(s.writes.tx.value, s.phase.out)
  {
    hide Confirms;
  }

  /** The row an attempt writes is its request's row. */
  lemma LandsRowOf(db: Store, s: Session, w: WalletRow, t: TxRow)
    requires Lands(db, s, t) && RowInHand(s, w, t) && s.op.HttpCall?
    ensures RowOf(Apply(db, s.writes), s.op.input, t.id)
    ensures Apply(db, s.writes).txs[t.id] == s.writes.tx.value
  {
    hide RowCommit, MoveCommit, NewExternal, HoldsKeys, CanonicalOf;
    LandsWrites(db, s, t);
    NewRowNames(s.env.txId, s.op.input, w, s.env.now);
  }

  lemma CommitAnswers(log: seq<Store>, s: Session)
    requires LogOk(log) && Running(log, s) && s.phase.Decided? && PhaseOk(log, s) && Answered(log, s) && s.op.HttpCall?
    ensures AnswerOk(Apply(Db(log), s.writes), s.op.input, s.phase.out)
  {
    hide StoreInv, Extends, Running, Clear, RowInHand, HoldsWallet, Moved, Justified, WalletSeen, Reject, Park, Note,
         Settle, Lands,
         SeenFor, AnswerOk, Writing, RowOf, Repeats, Confirms, RowForSeen, HoldsRow, Honest, ResolvedRow;
    RunningFacts(log, s);
    var db, d, rw, rr, rc := Db(log), s.phase.decision, s.phase.rw, s.phase.rr, s.phase.rc;
    match d {
      case Silent => SilentAnswers(log, s);
      case Settled(w, t, ref, w', direction) =>
        SettledLands(log, s, w, rw, t, ref, rr, rc, w', direction);
        ClearFacts(log, s, w, rw, t, ref, rr, rc);
        EndingsAreHonest(ResolvedRow(t, ref, s.env.now), w, w', NoCode, direction, s.env);
        HonestWrites(s, Settle(ResolvedRow(t, ref, s.env.now), w, w', direction, s.env));
        LandedAnswers(db, s, w, t);
      case Declined(w, readAt, t, code, cause) =>
        DeclinedLands(log, s, w, readAt, t, code, cause);
        var t' := RejectedAs(t, cause, s.env.now);
        RejectedVariant(t, cause, s.env.now);
        EndingsAreHonest(t', w, w, code, Debit, s.env);
        HonestWrites(s, Reject(t', w, code, s.env));
        LandedAnswers(db, s, w, t);
      case Parked(w, t) =>
        ParkedLands(log, s, w, rw, t);
        EndingsAreHonest(t, w, w, NoCode, Debit, s.env);
        HonestWrites(s, Park(t, w, s.env));
        LandedAnswers(db, s, w, t);
      case Noted(w, t) =>
        NotedLands(log, s, w, rw, t);
        var t' :| NotedAs(s, w, t, t');
        EndingsAreHonest(t', w, w, NoCode, Debit, s.env);
        HonestWrites(s, Note(t', w, s.env));
        LandedAnswers(db, s, w, t);
      case Waited(_, _) =>
      case Expired(_) =>
      case Opened =>
    }
  }

  lemma LandedAnswers(db: Store, s: Session, w: WalletRow, t: TxRow)
    requires Lands(db, s, t) && RowInHand(s, w, t) && s.op.HttpCall? && s.phase.Decided?
    requires s.writes.tx.Some? && s.writes.tx.value.id == s.phase.out.transactionId && Confirms(s.writes.tx.value, s.phase.out)
    ensures AnswerOk(Apply(db, s.writes), s.op.input, s.phase.out)
  {
    hide Confirms, RowInHand, RowOf, RowCommit, MoveCommit;
    LandsRowOf(db, s, w, t);
  }

  lemma SilentAnswers(log: seq<Store>, s: Session)
    requires LogOk(log) && Running(log, s) && s.phase.Decided? && PhaseOk(log, s) && s.phase.decision == Silent
    requires Answered(log, s) && s.op.HttpCall?
    ensures AnswerOk(Apply(Db(log), s.writes), s.op.input, s.phase.out)
  {
    hide StoreInv, Extends, Running, SeenAt, Repeats, AnswerOk, RowForSeen;
    var i, out := s.op.input, s.phase.out;
    var t :| SeenFor(log, i, t) && Repeats(t, out);
    var at: nat :| at < |log| && SeenAt(log[at], i, t);
    CommitExtends(log, s);
    GoodFacts(log[at]) by { assert StoreInv(log[at]); }
    ExtendsTransitive(log[at], Db(log), Apply(Db(log), s.writes));
    RepeatedIsAnswer(log[at], Apply(Db(log), s.writes), i, t, out);
  }

  lemma OtherAnswers(log: seq<Store>, next: Store, s: Session)
    requires log != [] && Extends(Db(log), next) && Answered(log, s)
    ensures Answered(log + [next], s)
  {
    hide Extends, RowOf, Repeats, AnswerOk;
    var log' := log + [next];
    if s.op.HttpCall? {
      match s.phase {
        case Found(t) => SeenStays(log, next, s.op.input, t);
        case Decided(Silent, _, _, _, out) =>
          var t :| SeenFor(log, s.op.input, t) && Repeats(t, out);
          SeenStays(log, next, s.op.input, t);
        case Done(out) => AnswerStays(Db(log), next, s.op.input, out);
        case _ =>
      }
    }
  }

  lemma SeenStays(log: seq<Store>, next: Store, i: Input, t: TxRow)
    requires SeenFor(log, i, t)
    ensures SeenFor(log + [next], i, t)
  {
    hide SeenAt;
    var log' := log + [next];
    var at: nat :| at < |log| && SeenAt(log[at], i, t);
    assert SeenAt(log'[at], i, t);
  }

  // ---------------------------------------------------------------- runs

  lemma CommitKeepsAnswers(m: Machine, sid: nat, m': Machine)
    requires MachineInv(m) && AllAnswered(m) && Next(m, Commit(sid), m')
    ensures AllAnswered(m')
  {
    hide LogOk, Extends, Running, PhaseOk, Answered, Disjoint;
    var s := m.sessions[sid];
    Interleaving.KnownRunning(m, sid);
    CommitExtends(m.log, s);
    forall other | other in m'.sessions && other != sid
      ensures Answered(m'.log, m'.sessions[other])
    {
      OtherAnswers(m.log, Db(m'.log), m.sessions[other]);
    }
    if s.op.HttpCall? {
      CommitAnswers(m.log, s);
    }
    DoneAnswered(m'.log, m'.sessions[sid]);
  }

  lemma DoneAnswered(log: seq<Store>, s: Session)
    requires log != [] && s.phase.Done? && (s.op.HttpCall? ==> AnswerOk(Db(log), s.op.input, s.phase.out))
    ensures Answered(log, s)
  {
    hide AnswerOk;
  }

  lemma NextKeepsAnswers(m: Machine, l: Label, m': Machine)
    requires MachineInv(m) && AllAnswered(m) && Next(m, l, m')
    ensures m'.log != [] && AllAnswered(m')
  {
    hide LogOk, SessionOk, Advance, Disjoint, SeenFor, RepeatsSeen, AnswerOk, Content, IdLocks;
    match l {
      case Commit(sid) => CommitKeepsAnswers(m, sid, m');
      case Step(sid) => assert LogOk(m.log); AdvanceAnswers(m.log, m.sessions[sid]);
      case _ =>
    }
  }

  lemma {:induction false} RunAnswers(run: seq<Machine>)
    requires IsRun(run)
    ensures var m := run[|run| - 1]; m.log != [] && AllAnswered(m)
  {
    hide MachineInv, Next, AllAnswered;
    if |run| == 1 {
      NoAnswersYet();
    } else {
      var front := run[..|run| - 1];
      RunAnswers(front);
      RunSafe(front);
      var m, m' := run[|run| - 2], run[|run| - 1];
      assert front[|front| - 1] == m;
      var l :| Next(m, l, m');
      NextKeepsAnswers(m, l, m');
    }
  }

  lemma NoAnswersYet()
    ensures AllAnswered(INIT)
  {
  }

  /** An answer given to a caller agrees with the row of its request, in the state now and in all that follow. */
  lemma AnswersAreTrue(m: Machine, sid: nat)
    requires Reachable(m) && sid in m.sessions && m.sessions[sid].op.HttpCall? && m.sessions[sid].phase.Done?
    ensures m.log != [] && AnswerOk(Db(m.log), m.sessions[sid].op.input, m.sessions[sid].phase.out)
  {
    hide AnswerOk, Next;
    var run :| IsRun(run) && run[|run| - 1] == m;
    RunAnswers(run);
    assert Answered(m.log, m.sessions[sid]);
  }

  /** Two calls answered under one key carried the same payload, name the same transaction, and if both answers are
      final they are the same: status, failure code and balance. */
  lemma AnswersAgree(m: Machine, a: nat, b: nat)
    requires Reachable(m) && a in m.sessions && b in m.sessions
    requires m.sessions[a].op.HttpCall? && m.sessions[a].phase.Done? && m.sessions[b].op.HttpCall? && m.sessions[b].phase.Done?
    requires m.sessions[a].op.input.idempotencyKey == m.sessions[b].op.input.idempotencyKey
    ensures m.sessions[a].op.input == m.sessions[b].op.input
    ensures m.sessions[a].phase.out.transactionId == m.sessions[b].phase.out.transactionId
    ensures Final(m.sessions[a].phase.out.status) && Final(m.sessions[b].phase.out.status) ==>
      m.sessions[a].phase.out.(replay := false) == m.sessions[b].phase.out.(replay := false)
  {
    hide Reachable, CanonicalOf;
    AnswersAreTrue(m, a);
    AnswersAreTrue(m, b);
    CanonicalIdentifiesRequest(m.sessions[a].op.input, m.sessions[b].op.input);
  }
}
