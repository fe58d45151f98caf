/** What the committed rows and events of every run record: results, payloads, and one closing event for each row. */
module Records {
  import opened Wrappers
  import opened Money
  import opened Wallet
  import opened WagerTx
  import opened Ledger
  import opened Store
  import opened Process
  import opened Invariants
  import opened Machine
  import opened Sessions
  import opened Safety
  import opened Contents
  import Steps
  import Commits
  import Interleaving
  import LateReference

  // ---------------------------------------------------------------- the records

  /** The row's result is the balance its entry ends in. */
  ghost predicate ResultIn(s: Store, id: Id, k: nat)
    requires id in s.txs
  {
    k < |s.ledger| && s.ledger[k].transactionId == id && s.txs[id].financialResult == Some(s.ledger[k].balanceAfter)
  }

  ghost predicate ResultsRecorded(s: Store) {
    forall id | id in s.txs && Moves(s.txs[id]) && s.txs[id].terms.kind != Opening :: exists k :: ResultIn(s, id, k)
  }

  /** The canonical form of what the row says. */
  function PayloadOf(t: Terms): Canonical {
    Canonical(t.providerId, t.externalId, t.playerId, t.walletId, t.roundId, t.gameId, t.kind,
              DecimalString(t.money.minorUnits), t.money.currency, t.referenceExternalId)
  }

  ghost predicate PayloadsRecorded(s: Store) {
    forall id | id in s.txs && s.txs[id].terms.kind != Opening :: s.txs[id].terms.payloadHash == Some(PayloadOf(s.txs[id].terms))
  }

  /** What the event tells of a row is so. */
  ghost predicate IsTrue(s: Store, e: Event) {
    match e.data
    case TransactionProcessed(id, kind, providerId, externalId, money) =>
      && id in s.txs && s.txs[id].status == Processed && e.walletId == s.txs[id].terms.walletId
      && s.txs[id].terms.kind == kind && s.txs[id].terms.providerId == providerId && s.txs[id].terms.externalId == externalId
      && s.txs[id].terms.money == money
    case TransactionRejected(id, kind, code) =>
      && id in s.txs && s.txs[id].status == Rejected && e.walletId == s.txs[id].terms.walletId
      && s.txs[id].terms.kind == kind && s.txs[id].failureCode == code
    case TransactionPendingReference(id, name) =>
      id in s.txs && e.walletId == s.txs[id].terms.walletId && s.txs[id].terms.referenceExternalId == name != ""
    case TransactionExpired(id, name, code) =>
      && id in s.txs && s.txs[id].status == Failed && e.walletId == s.txs[id].terms.walletId
      && s.txs[id].terms.referenceExternalId == name && s.txs[id].failureCode == code == ReferenceExpired
    case WalletBalanceChanged(_, _, _, _, _, _) => true
  }

  ghost predicate EventsTrue(s: Store) {
    forall e | e in s.outbox :: IsTrue(s, e)
  }

  /** The event that closes a row: processed, rejected or expired. */
  predicate Closes(e: Event, id: Id) {
    (e.data.TransactionProcessed? || e.data.TransactionRejected? || e.data.TransactionExpired?) && e.data.transactionId == id
  }

  ghost predicate ClosedAt(s: Store, id: Id, k: nat) {
    k < |s.outbox| && Closes(s.outbox[k], id)
  }

  /** Rows that have ended have a closing event, and no row has two. */
  ghost predicate ClosedOnce(s: Store) {
    && (forall id | id in s.txs && IsTerminal(s.txs[id].status) :: exists k :: ClosedAt(s, id, k))
    && (forall id, j, k | ClosedAt(s, id, j) && ClosedAt(s, id, k) :: j == k)
  }

  /** Rows without a key or a provider are in neither unique index. */
  ghost predicate NothingUnderNull(s: Store) {
    "" !in s.byKey && forall o | o in s.byOp :: o.0 != ""
  }

  ghost predicate Recorded(s: Store) {
    ResultsRecorded(s) && PayloadsRecorded(s) && EventsTrue(s) && ClosedOnce(s) && NothingUnderNull(s)
  }

  // ---------------------------------------------------------------- one commit

  /** A row that is new carries the canonical form of what it says. */
  ghost predicate NewPayload(db: Store, d: Writes) {
    d.tx.Some? && d.tx.value.id !in db.txs && d.tx.value.terms.kind != Opening ==>
      d.tx.value.terms.payloadHash == Some(PayloadOf(d.tx.value.terms))
  }

  /** The row is new, or one that waits and keeps its terms; it is found in the state as written. */
  ghost predicate Rewrites(db: Store, d: Writes) {
    d.tx.Some? && d.tx.value.id in db.txs ==>
      db.txs[d.tx.value.id].status == PendingReference && db.txs[d.tx.value.id].terms == d.tx.value.terms
  }

  lemma LegalRewrites(db: Store, d: Writes)
    requires Legal(db, d)
    ensures Rewrites(db, d) && (d.tx.None? ==> d.entry.None? && d.events == [])
    ensures d.tx.Some? && d.tx.value.status == PendingReference ==> d.tx.value.terms.referenceExternalId != ""
  {
    hide NewEvents, Announces, DirectionOfRow, HasProcessedReversal, ReferenceOk, RowFor, Taken, TermsOk;
  }

  lemma RowThen(db: Store, d: Writes, id: Id)
    ensures id in Apply(db, d).txs <==> id in db.txs || (d.tx.Some? && d.tx.value.id == id)
    ensures id in Apply(db, d).txs ==> Apply(db, d).txs[id] == if d.tx.Some? && d.tx.value.id == id then d.tx.value else db.txs[id]
  {
  }

  lemma ResultsKept(db: Store, d: Writes, out: Output, env: Env)
    requires ResultsRecorded(db) && Says(d, out, env)
    ensures ResultsRecorded(Apply(db, d))
  {
    hide Tells;
    var next := Apply(db, d);
    forall id | id in next.txs && Moves(next.txs[id]) && next.txs[id].terms.kind != Opening
      ensures exists k :: ResultIn(next, id, k)
    {
      RowThen(db, d, id);
      if d.tx.Some? && d.tx.value.id == id {
        assert ResultIn(next, id, |db.ledger|);
      } else {
        var k :| ResultIn(db, id, k);
        assert ResultIn(next, id, k);
      }
    }
  }

  lemma PayloadsKept(db: Store, d: Writes)
    requires PayloadsRecorded(db) && NewPayload(db, d) && Rewrites(db, d)
    ensures PayloadsRecorded(Apply(db, d))
  {
  }

  lemma TrueStays(db: Store, d: Writes, e: Event)
    requires Rewrites(db, d) && IsTrue(db, e)
    ensures IsTrue(Apply(db, d), e)
  {
  }

  lemma NewEventTrue(db: Store, d: Writes, out: Output, env: Env, e: Event)
    requires Says(d, out, env) && d.tx.Some? && e in d.events
    requires d.tx.value.status == PendingReference ==> d.tx.value.terms.referenceExternalId != ""
    ensures IsTrue(Apply(db, d), e)
  {
  }

  lemma EventsKept(db: Store, d: Writes, out: Output, env: Env)
    requires EventsTrue(db) && Says(d, out, env) && Rewrites(db, d) && (d.tx.None? ==> d.events == [])
    requires d.tx.Some? && d.tx.value.status == PendingReference ==> d.tx.value.terms.referenceExternalId != ""
    ensures EventsTrue(Apply(db, d))
  {
    hide IsTrue, Says, Rewrites;
    forall e | e in Apply(db, d).outbox
      ensures IsTrue(Apply(db, d), e)
    {
      if e in db.outbox {
        TrueStays(db, d, e);
      } else {
        NewEventTrue(db, d, out, env, e);
      }
    }
  }

  /** The first event of a commit that ends a row closes it; nothing else it writes closes any row. */
  lemma ClosingEvents(d: Writes, out: Output, env: Env)
    requires Says(d, out, env) && (d.tx.None? ==> d.events == [])
    ensures forall k, id | 0 <= k < |d.events| && Closes(d.events[k], id) ::
      k == 0 && d.tx.Some? && id == d.tx.value.id && IsTerminal(d.tx.value.status)
    ensures d.tx.Some? && IsTerminal(d.tx.value.status) ==> d.events != [] && Closes(d.events[0], d.tx.value.id)
  {
  }

  /** A row that still waits has no closing event. */
  lemma NotClosedYet(db: Store, id: Id, k: nat)
    requires EventsTrue(db) && ClosedAt(db, id, k)
    ensures id in db.txs && IsTerminal(db.txs[id].status)
  {
    assert IsTrue(db, db.outbox[k]);
  }

  lemma ClosedSplit(db: Store, d: Writes, id: Id, k: nat)
    ensures ClosedAt(Apply(db, d), id, k) <==>
      if k < |db.outbox| then ClosedAt(db, id, k) else k - |db.outbox| < |d.events| && Closes(d.events[k - |db.outbox|], id)
  {
    hide Closes;
  }

  lemma ClosedKept(db: Store, d: Writes, out: Output, env: Env)
    requires ClosedOnce(db) && EventsTrue(db) && Says(d, out, env) && Rewrites(db, d) && (d.tx.None? ==> d.events == [])
    ensures ClosedOnce(Apply(db, d))
  {
    hide Says, Closes, ClosedAt, IsTrue;
    var next, n := Apply(db, d), |db.outbox|;
    ClosingEvents(d, out, env);
    forall id | id in next.txs && IsTerminal(next.txs[id].status)
      ensures exists k :: ClosedAt(next, id, k)
    {
      RowThen(db, d, id);
      if d.tx.Some? && d.tx.value.id == id {
        ClosedSplit(db, d, id, n);
      } else {
        var k :| ClosedAt(db, id, k);
        Inside(db, id, k);
        ClosedSplit(db, d, id, k);
      }
    }
    forall id, j: nat, k: nat | ClosedAt(next, id, j) && ClosedAt(next, id, k)
      ensures j == k
    {
      ClosedSplit(db, d, id, j);
      ClosedSplit(db, d, id, k);
      if j < n && k >= n {
        NotClosedYet(db, id, j);
      } else if k < n && j >= n {
        NotClosedYet(db, id, k);
      }
    }
  }

  lemma Inside(db: Store, id: Id, k: nat)
    requires ClosedAt(db, id, k)
    ensures k < |db.outbox|
  {
  }

  lemma NullKept(db: Store, d: Writes)
    requires NothingUnderNull(db)
    ensures NothingUnderNull(Apply(db, d))
  {
  }

  lemma RecordedKept(db: Store, d: Writes, out: Output, env: Env)
    requires Recorded(db) && Legal(db, d) && Says(d, out, env) && NewPayload(db, d)
    ensures Recorded(Apply(db, d))
  {
    hide Legal, Says, NewPayload, Rewrites, ResultsRecorded, PayloadsRecorded, EventsTrue, ClosedOnce, NothingUnderNull;
    LegalRewrites(db, d);
    ResultsKept(db, d, out, env);
    PayloadsKept(db, d);
    EventsKept(db, d, out, env);
    ClosedKept(db, d, out, env);
    NullKept(db, d);
  }

  // ---------------------------------------------------------------- payloads of new rows

  lemma AskedPayload(id: Id, i: Input, w: WalletRow, now: Time)
    requires NewExternal(id, i, w, now).Ok? && w.id == i.walletId && w.playerId == i.playerId
    ensures var t := NewExternal(id, i, w, now).value.terms; t.payloadHash == Some(PayloadOf(t)) && PayloadOf(t) == CanonicalOf(i)
  {
    hide TermsOk;
    ExternalExactlyWhen(id, i, w, now);
  }

  lemma InHandPayload(log: seq<Store>, s: Session, w: WalletRow, t: TxRow)
    requires log != [] && Guard(Db(log), s) && RowInHand(s, w, t)
    ensures t.id !in Db(log).txs ==> t.terms.payloadHash == Some(PayloadOf(t.terms))
  {
    hide Guard, NewExternal, PayloadOf;
    if IsAttempt(s.op) {
      AskedPayload(s.env.txId, InputOf(s.op), w, s.env.now);
    } else {
      Steps.HeldRow(Db(log), s, t.id);
    }
  }

  lemma OwnPayload(db: Store, s: Session, t: TxRow, r: TxRow, o: Outcome)
    requires Writing(s, o) && LateReference.WritesOwn(o, r) && r.id == t.id && r.terms == t.terms
    requires t.id !in db.txs ==> t.terms.payloadHash == Some(PayloadOf(t.terms))
    ensures NewPayload(db, s.writes)
  {
    hide PayloadOf;
  }

  lemma WaitWritesOwn(t: TxRow, env: Env)
    ensures LateReference.WritesOwn(Wait(t, env), t)
  {
    hide ReferenceRetryBackoff;
  }

  /** Every row a transaction inserts carries the canonical form of what it says. */
  lemma DecisionPayload(log: seq<Store>, s: Session)
    requires LogOk(log) && Guard(Db(log), s) && s.phase.Decided? && PhaseOk(log, s)
    ensures NewPayload(Db(log), s.writes)
  {
    hide StoreInv, Extends, Guard, RowInHand, WalletSeen, HoldsWallet, HasProcessedReversal, ReferenceUsable, Justified, InOrder,
         Moved, Reject, Park, Note, Wait, Settle, RowForSeen, ResolvedRow, PayloadOf, LateReference.WritesOwn, Writing;
    var db := Db(log);
    match s.phase.decision {
      case Silent => SilentPayload(log, s);
      case Settled(w, t, ref, w', direction) =>
        InHandPayload(log, s, w, t);
        Steps.ResolvedVariant(t, ref, s.env.now);
        LateReference.EndingsWriteOwn(ResolvedRow(t, ref, s.env.now), w, w', NoCode, direction, s.env);
        OwnPayload(db, s, t, ResolvedRow(t, ref, s.env.now), Settle(ResolvedRow(t, ref, s.env.now), w, w', direction, s.env));
      case Declined(w, _, t, code, cause) =>
        InHandPayload(log, s, w, t);
        Steps.RejectedVariant(t, cause, s.env.now);
        LateReference.EndingsWriteOwn(RejectedAs(t, cause, s.env.now), w, w, code, Debit, s.env);
        OwnPayload(db, s, t, RejectedAs(t, cause, s.env.now), Reject(RejectedAs(t, cause, s.env.now), w, code, s.env));
      case Parked(w, t) =>
        InHandPayload(log, s, w, t);
        LateReference.EndingsWriteOwn(t, w, w, NoCode, Debit, s.env);
        OwnPayload(db, s, t, t, Park(t, w, s.env));
      case Noted(w, t) =>
        InHandPayload(log, s, w, t);
        var t' :| NotedAs(s, w, t, t');
        LateReference.EndingsWriteOwn(t', w, w, NoCode, Debit, s.env);
        OwnPayload(db, s, t, t', Note(t', w, s.env));
      case Waited(w, t) =>
        InHandPayload(log, s, w, t);
        WaitWritesOwn(t, s.env);
        OwnPayload(db, s, t, t, Wait(t, s.env));
      case Expired(t) => ExpiredPayload(log, s, t, s.phase.rw);
      case Opened => OpenedPayload(log, s, s.phase.rw);
    }
  }

  lemma SilentPayload(log: seq<Store>, s: Session)
    requires log != [] && SilentOk(log, s)
    ensures NewPayload(Db(log), s.writes)
  {
    hide RowForSeen;
  }

  lemma ExpiredPayload(log: seq<Store>, s: Session, t: TxRow, at: nat)
    requires LogOk(log) && Guard(Db(log), s) && ExpiredOk(log, s, t, at)
    ensures NewPayload(Db(log), s.writes)
  {
    hide StoreInv, Extends, Guard, PayloadOf;
    Steps.HeldRow(Db(log), s, t.id);
  }

  lemma OpenedPayload(log: seq<Store>, s: Session, at: nat)
    requires log != [] && OpenedOk(log, s, at)
    ensures NewPayload(Db(log), s.writes)
  {
    hide PayloadOf, NewEntry;
  }

  // ---------------------------------------------------------------- runs

  ghost predicate AllRecorded(log: seq<Store>) {
    forall at | 0 <= at < |log| :: Recorded(log[at])
  }

  lemma NextRecorded(m: Machine, l: Label, m': Machine)
    requires MachineInv(m) && AllRecorded(m.log) && Next(m, l, m')
    ensures AllRecorded(m'.log)
  {
    hide StoreInv, Extends, SessionOk, Advance, Disjoint, Content, IdLocks, FreshIds, Available, Recorded, Legal, Says, NewPayload;
    if l.Commit? {
      var s := m.sessions[l.sid];
      Interleaving.KnownRunning(m, l.sid);
      RunningFacts(m.log, s);
      Commits.CommitLegal(m.log, s);
      DecisionSays(m.log, s);
      DecisionPayload(m.log, s);
      RecordedKept(Db(m.log), s.writes, s.phase.out, s.env);
    }
  }

  lemma EmptyRecorded()
    ensures Recorded(EMPTY)
  {
  }

  lemma {:induction false} RunRecorded(run: seq<Machine>)
    requires IsRun(run)
    ensures AllRecorded(run[|run| - 1].log)
  {
    hide MachineInv, Next, Recorded;
    if |run| == 1 {
      EmptyRecorded();
    } else {
      var front := run[..|run| - 1];
      RunRecorded(front);
      RunSafe(front);
      var m, m' := run[|run| - 2], run[|run| - 1];
      assert front[|front| - 1] == m;
      var l :| Next(m, l, m');
      NextRecorded(m, l, m');
    }
  }

  /** In every committed state of every run: a processed movement records the balance its own entry ends in; a row's
      payload is the canonical form of what the row says; every event is true of its row; every row that has ended has
      exactly one closing event; rows without a key are in no index. */
  lemma EverythingIsRecorded(m: Machine, at: nat)
    requires Reachable(m) && at < |m.log|
    ensures Recorded(m.log[at])
  {
    hide Next, Recorded;
    var run :| IsRun(run) && run[|run| - 1] == m;
    RunRecorded(run);
  }

  // ---------------------------------------------------------------- references

  /** The fields in which a transaction and its reference must agree. */
  predicate SameDeal(t: Terms, ref: Terms) {
    t.providerId == ref.providerId && t.playerId == ref.playerId && t.walletId == ref.walletId && t.roundId == ref.roundId && t.money == ref.money
  }

  /** A WIN or REFUND refers to a BET, a ROLLBACK to a BET, WIN or REFUND. */
  predicate MayReferTo(kind: Kind, refKind: Kind) {
    && (kind == Win || kind == Refund ==> refKind == Bet)
    && (kind == Rollback ==> refKind == Bet || refKind == Win || refKind == Refund)
  }

  /** A reference is refused as a mismatch exactly when one of the fields differs, as not processable exactly when they
      agree and the kinds do not fit, and is accepted otherwise. */
  lemma ReferenceVerdict(t: Terms, ref: Terms)
    ensures ValidateReference(t, ref) == ReferenceMismatch <==> !SameDeal(t, ref)
    ensures ValidateReference(t, ref) == ReferenceNotProcessable <==> SameDeal(t, ref) && !MayReferTo(t.kind, ref.kind)
    ensures ValidateReference(t, ref) == NoCode <==> SameDeal(t, ref) && MayReferTo(t.kind, ref.kind)
  {
  }

  /** In every run, a processed row that names a reference is resolved to the processed row of that name, which agrees with
      it in provider, player, wallet, round and money and is of a kind it may refer to. */
  lemma ProcessedAgreesWithReference(m: Machine, at: nat, id: Id)
    requires Reachable(m) && at < |m.log| && id in m.log[at].txs
    requires m.log[at].txs[id].status == Processed && m.log[at].txs[id].terms.referenceExternalId != ""
    ensures var s := m.log[at]; var t := s.txs[id];
      && t.resolvedReferenceId in s.txs
      && var ref := s.txs[t.resolvedReferenceId];
      && ref.status == Processed && ref.terms.externalId == t.terms.referenceExternalId
      && SameDeal(t.terms, ref.terms) && MayReferTo(t.terms.kind, ref.terms.kind)
  {
    hide Reachable, Extends, SessionOk, Disjoint, ValidateReference, Indexed, OneReversal, Accounts, Entries, Events, InboxBacked, RowOk;
    ReachableSafe(m);
    var s := m.log[at];
    assert StoreInv(s);
    assert ReferenceOk(s, s.txs[id]);
    ReferenceVerdict(s.txs[id].terms, s.txs[s.txs[id].resolvedReferenceId].terms);
  }
}
