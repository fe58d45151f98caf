/** The schema's constraints: no committed state of any run violates a check, a unique index or a foreign key of the tables,
    though the code tests few of them first. */
module Schema {
  import opened Wrappers
  import opened Money
  import opened Wallet
  import opened WagerTx
  import opened Ledger
  import opened Store
  import opened Process
  import opened Invariants
  import opened Machine
  import opened Sessions
  import opened Steps
  import opened Commits
  import opened Safety
  import Interleaving
  import Audit

  // ---------------------------------------------------------------- the tables

  ghost predicate WalletsTable(s: Store) {
    forall id | id in s.wallets :: IsCode(s.wallets[id].balance.currency) && s.wallets[id].balance.minorUnits >= 0 && s.wallets[id].version >= 1
  }

  /** Amounts, fields and references by kind, the currency's format, the foreign keys and the partial unique indexes. */
  ghost predicate TransactionsTable(s: Store) {
    && (forall id | id in s.txs :: TermsOk(s.txs[id].terms) && IsCode(s.txs[id].terms.money.currency))
    && (forall id | id in s.txs :: s.txs[id].terms.walletId in s.wallets && s.txs[id].status != Pending)
    && ReferencesExist(s)
    && (forall a, b | IsOpening(s, a) && IsOpening(s, b) && s.txs[a].terms.walletId == s.txs[b].terms.walletId :: a == b)
    && OneReversal(s)
  }

  /** The foreign key of the resolved reference. */
  ghost predicate ReferencesExist(s: Store) {
    forall id | id in s.txs :: s.txs[id].resolvedReferenceId == "" || s.txs[id].resolvedReferenceId in s.txs
  }

  ghost predicate LedgerRow(s: Store, e: Entry) {
    && e.walletId in s.wallets && e.transactionId in s.txs && IsCode(e.amount.currency)
    && e.amount.minorUnits > 0 && e.balanceAfter.minorUnits >= 0
    && e.balanceAfter.minorUnits == e.balanceBefore.minorUnits + Signed(e.direction, e.amount)
  }

  ghost predicate LedgerTable(s: Store) {
    && (forall e | e in s.ledger :: LedgerRow(s, e))
    && (forall i, j | 0 <= i < j < |s.ledger| ::
          s.ledger[i].walletId != s.ledger[j].walletId || s.ledger[i].transactionId != s.ledger[j].transactionId)
    && EntriesDiffer(s)
  }

  /** The primary key of the entries. */
  ghost predicate EntriesDiffer(s: Store) {
    forall i, j | 0 <= i < j < |s.ledger| :: s.ledger[i].id != s.ledger[j].id
  }

  ghost predicate OutboxTable(s: Store) {
    forall i, j | 0 <= i < j < |s.outbox| :: s.outbox[i].id != s.outbox[j].id
  }

  ghost predicate SchemaHolds(s: Store) {
    WalletsTable(s) && TransactionsTable(s) && LedgerTable(s) && OutboxTable(s)
  }

  // ---------------------------------------------------------------- what the invariant of committed states gives

  lemma EntryHasCurrency(s: Store, e: Entry)
    requires Rows(s) && EntryOk(s, e)
    ensures IsCode(e.amount.currency)
  {
    assert RowOk(s, s.txs[e.transactionId]);
  }

  lemma EntryIsLinked(s: Store, e: Entry)
    requires StoreInv(s) && e in s.ledger
    ensures LedgerRow(s, e)
  {
    hide Rows, OneReversal, Events, InboxBacked, OpenedPositive, IsOpening, BalanceAt, DirectionOfRow;
    assert EntryOk(s, e);
    EntryHasCurrency(s, e);
    Audit.WalletUnderItsId(s, e.walletId);
    var es := EntriesOf(s.ledger, e.walletId);
    assert Books(s, s.wallets[e.walletId]);
    assert e in es;
    var i :| 0 <= i < |es| && es[i] == e;
    assert Link(es, i, s.wallets[e.walletId].balance.currency);
  }

  lemma OpeningMoves(s: Store, id: Id)
    requires Rows(s) && IsOpening(s, id)
    ensures s.txs[id].terms.walletId in s.wallets && Moves(s.txs[id])
  {
    assert RowOk(s, s.txs[id]);
  }

  /** The entry of a moving row, among those of its wallet. */
  lemma EntryInWallet(s: Store, id: Id) returns (i: nat)
    requires Entries(s) && id in s.txs && Moves(s.txs[id])
    ensures var es := EntriesOf(s.ledger, s.txs[id].terms.walletId); i < |es| && es[i].transactionId == id
  {
    hide DirectionOfRow;
    assert HasEntry(s, id);
    var k :| 0 <= k < |s.ledger| && s.ledger[k].transactionId == id;
    assert s.ledger[k] in s.ledger && EntryOk(s, s.ledger[k]);
    var es := EntriesOf(s.ledger, s.txs[id].terms.walletId);
    assert s.ledger[k] in es;
    i :| 0 <= i < |es| && es[i] == s.ledger[k];
  }

  /** A wallet has one opening: its row's entry is the first of the wallet. */
  lemma OpeningIsFirst(s: Store, id: Id)
    requires Rows(s) && Entries(s) && Indexed(s) && Accounts(s) && IsOpening(s, id)
    ensures s.txs[id].terms.walletId in s.wallets
    ensures var es := EntriesOf(s.ledger, s.txs[id].terms.walletId); es != [] && es[0].transactionId == id
  {
    hide Rows, Entries, Chained, OpenedPositive, BalanceAt, Announced, EntriesOf, KeysOk, OpsOk, OwnersOk;
    OpeningMoves(s, id);
    var i := EntryInWallet(s, id);
    Audit.WalletUnderItsId(s, s.txs[id].terms.walletId);
    assert Books(s, s.wallets[s.txs[id].terms.walletId]);
  }

  lemma RowsFitTable(s: Store)
    requires Rows(s)
    ensures WalletsTable(s)
    ensures forall id | id in s.txs :: TermsOk(s.txs[id].terms) && IsCode(s.txs[id].terms.money.currency)
    ensures forall id | id in s.txs :: s.txs[id].terms.walletId in s.wallets && s.txs[id].status != Pending
  {
    hide ReferenceOk;
    forall id | id in s.txs
      ensures TermsOk(s.txs[id].terms) && IsCode(s.txs[id].terms.money.currency)
      ensures s.txs[id].terms.walletId in s.wallets && s.txs[id].status != Pending
    {
      assert RowOk(s, s.txs[id]);
    }
  }

  lemma GoodFitsSchema(s: Store)
    requires StoreInv(s) && ReferencesExist(s) && EntriesDiffer(s)
    ensures SchemaHolds(s)
  {
    hide Indexed, Accounts, InboxBacked, EntryOk, HasEntry, Rows, LedgerRow, WalletsTable, TermsOk, IsCode;
    RowsFitTable(s);
    forall e | e in s.ledger
      ensures LedgerRow(s, e)
    {
      EntryIsLinked(s, e);
    }
    forall a, b | IsOpening(s, a) && IsOpening(s, b) && s.txs[a].terms.walletId == s.txs[b].terms.walletId
      ensures a == b
    {
      OpeningIsFirst(s, a);
      OpeningIsFirst(s, b);
    }
  }

  // ---------------------------------------------------------------- resolved references along a run

  ghost predicate Known(db: Store, referenceId: Id) {
    referenceId == "" || referenceId in db.txs
  }

  lemma InHandKnown(db: Store, s: Session, w: WalletRow, t: TxRow)
    requires ReferencesExist(db) && Guard(db, s) && RowInHand(s, w, t)
    ensures Known(db, t.resolvedReferenceId)
  {
    hide Guard;
    if !IsAttempt(s.op) {
      HeldRow(db, s, t.id);
    }
  }

  lemma ClearKnown(log: seq<Store>, s: Session, w: WalletRow, rw: nat, t: TxRow, ref: Option<TxRow>, rr: nat, rc: nat)
    requires LogOk(log) && ReferencesExist(Db(log)) && Guard(Db(log), s) && Clear(log, s, w, rw, t, ref, rr, rc)
    ensures Known(Db(log), ResolvedRow(t, ref, s.env.now).resolvedReferenceId)
  {
    hide StoreInv, Extends, Guard, RowInHand, HasProcessedReversal, ReferencesExist;
    InHandKnown(Db(log), s, w, t);
    if ref.Some? {
      UsableReferenceStays(log, t, ref.value, rr);
    }
  }

  /** What the outcome writes, if anything, is a row with this resolved reference. */
  ghost predicate Keeps(o: Outcome, referenceId: Id) {
    o.Committed? ==> o.writes.tx.Some? && o.writes.tx.value.resolvedReferenceId == referenceId
  }

  lemma EndingsKeep(t: TxRow, w: WalletRow, w': WalletRow, code: FailureCode, direction: Direction, env: Env)
    ensures Keeps(Reject(t, w, code, env), t.resolvedReferenceId) && Keeps(Park(t, w, env), t.resolvedReferenceId)
    ensures Keeps(Note(t, w, env), t.resolvedReferenceId) && Keeps(Wait(t, env), t.resolvedReferenceId)
    ensures Keeps(Settle(t, w, w', direction, env), t.resolvedReferenceId)
  {
    hide NewEntry;
  }

  ghost predicate WritesKnown(db: Store, d: Writes) {
    d.tx.Some? ==> Known(db, d.tx.value.resolvedReferenceId)
  }

  lemma WritingKnown(db: Store, s: Session, o: Outcome, referenceId: Id)
    requires Writing(s, o) && Keeps(o, referenceId) && Known(db, referenceId)
    ensures WritesKnown(db, s.writes)
  {
  }

  lemma SettledKnown(log: seq<Store>, s: Session, w: WalletRow, rw: nat, t: TxRow, ref: Option<TxRow>, rr: nat, rc: nat,
                     w': WalletRow, direction: Direction)
    requires LogOk(log) && ReferencesExist(Db(log)) && Guard(Db(log), s) && SettledOk(log, s, w, rw, t, ref, rr, rc, w', direction)
    ensures WritesKnown(Db(log), s.writes)
  {
    hide StoreInv, Extends, Guard, Clear, HoldsWallet, Moved, Settle, Keeps, ResolvedRow, ReferencesExist, Known;
    var r := ResolvedRow(t, ref, s.env.now);
    ClearKnown(log, s, w, rw, t, ref, rr, rc);
    EndingsKeep(r, w, w', NoCode, direction, s.env);
    WritingKnown(Db(log), s, Settle(r, w, w', direction, s.env), r.resolvedReferenceId);
  }

  lemma DeclinedKnown(log: seq<Store>, s: Session, w: WalletRow, rw: nat, t: TxRow, code: FailureCode, cause: Cause, rr: nat, rc: nat)
    requires LogOk(log) && ReferencesExist(Db(log)) && Guard(Db(log), s) && DeclinedOk(log, s, w, rw, t, code, cause)
    requires ShortfallOk(log, s, w, t, cause, rw, rr, rc)
    ensures WritesKnown(Db(log), s.writes)
  {
    hide StoreInv, Extends, Guard, Clear, RowInHand, WalletSeen, Justified, Reject, Keeps, ResolvedRow, ReferencesExist, Known;
    var r := RejectedAs(t, cause, s.env.now);
    if cause.Shortfall? {
      ClearKnown(log, s, w, rw, t, cause.resolved, rr, rc);
    } else {
      InHandKnown(Db(log), s, w, t);
    }
    EndingsKeep(r, w, w, code, Debit, s.env);
    WritingKnown(Db(log), s, Reject(r, w, code, s.env), r.resolvedReferenceId);
  }

  lemma WaitingKnown(log: seq<Store>, s: Session, w: WalletRow, rw: nat, t: TxRow)
    requires LogOk(log) && ReferencesExist(Db(log)) && Guard(Db(log), s) && (ParkedOk(log, s, w, rw, t) || WaitedOk(log, s, w, rw, t))
    ensures WritesKnown(Db(log), s.writes)
  {
    hide StoreInv, Extends, Guard, RowInHand, WalletSeen, Park, Wait, Keeps, ReferencesExist, Known;
    InHandKnown(Db(log), s, w, t);
    EndingsKeep(t, w, w, NoCode, Debit, s.env);
    if ParkedOk(log, s, w, rw, t) {
      WritingKnown(Db(log), s, Park(t, w, s.env), t.resolvedReferenceId);
    } else {
      WritingKnown(Db(log), s, Wait(t, s.env), t.resolvedReferenceId);
    }
  }

  lemma NotedKnown(log: seq<Store>, s: Session, w: WalletRow, rw: nat, t: TxRow)
    requires LogOk(log) && ReferencesExist(Db(log)) && Guard(Db(log), s) && NotedOk(log, s, w, rw, t)
    ensures WritesKnown(Db(log), s.writes)
  {
    hide StoreInv, Extends, Guard, RowInHand, WalletSeen, Note, Keeps, ReferencesExist, Known, TermsOk, MayWrite;
    InHandKnown(Db(log), s, w, t);
    InHandIsWritable(log, s, w, rw, t);
    assert t.terms.referenceExternalId == "" by { LossNamesNothing(t.terms); }
    EndingsKeep(t, w, w, NoCode, Debit, s.env);
    WritingKnown(Db(log), s, Note(t, w, s.env), t.resolvedReferenceId);
  }

  lemma LossNamesNothing(t: Terms)
    requires TermsOk(t) && t.kind == Loss
    ensures t.referenceExternalId == ""
  {
  }

  lemma ExpiredKnown(log: seq<Store>, s: Session, t: TxRow, at: nat)
    requires LogOk(log) && ReferencesExist(Db(log)) && Guard(Db(log), s) && ExpiredOk(log, s, t, at)
    ensures WritesKnown(Db(log), s.writes)
  {
    hide StoreInv, Extends, Guard;
    HeldRow(Db(log), s, t.id);
    assert Keeps(Process.Expire(log[at], t.id, s.env), t.resolvedReferenceId);
  }

  lemma OpenedKnown(log: seq<Store>, s: Session, at: nat)
    requires log != [] && OpenedOk(log, s, at)
    ensures WritesKnown(Db(log), s.writes)
  {
    hide NewEntry;
    assert Process.Open(log[at], s.op.playerId, s.op.balance, s.env).Committed? ==>
        var d := Process.Open(log[at], s.op.playerId, s.op.balance, s.env).writes; d.tx.Some? ==> d.tx.value.resolvedReferenceId == "";
  }

  /** Whatever a transaction commits, the reference it resolved is a committed row. */
  lemma CommitKnown(log: seq<Store>, s: Session)
    requires LogOk(log) && Guard(Db(log), s) && s.phase.Decided? && PhaseOk(log, s) && ReferencesExist(Db(log))
    ensures WritesKnown(Db(log), s.writes)
  {
    hide StoreInv, Extends, Guard, SettledOk, DeclinedOk, ShortfallOk, ParkedOk, WaitedOk, NotedOk, ExpiredOk, OpenedOk, RowForSeen,
         ReferencesExist;
    var rw, rr, rc := s.phase.rw, s.phase.rr, s.phase.rc;
    match s.phase.decision {
      case Silent =>
      case Settled(w, t, ref, w', direction) => SettledKnown(log, s, w, rw, t, ref, rr, rc, w', direction);
      case Declined(w, readAt, t, code, cause) => DeclinedKnown(log, s, w, readAt, t, code, cause, rr, rc);
      case Parked(w, t) => WaitingKnown(log, s, w, rw, t);
      case Noted(w, t) => NotedKnown(log, s, w, rw, t);
      case Waited(w, t) => WaitingKnown(log, s, w, rw, t);
      case Expired(t) => ExpiredKnown(log, s, t, rw);
      case Opened => OpenedKnown(log, s, rw);
    }
  }

  lemma KnownKept(db: Store, d: Writes)
    requires ReferencesExist(db) && WritesKnown(db, d)
    ensures ReferencesExist(Apply(db, d))
  {
  }

  // ---------------------------------------------------------------- entry identifiers along a run

  ghost predicate EntryIsOwn(d: Writes, env: Env) {
    d.entry.Some? ==> d.entry.value.id == env.entryId
  }

  lemma EndingsEnter(t: TxRow, w: WalletRow, w': WalletRow, direction: Direction, env: Env)
    ensures Settle(t, w, w', direction, env).Committed? ==> EntryIsOwn(Settle(t, w, w', direction, env).writes, env)
  {
  }

  lemma OpeningEnters(db: Store, playerId: Id, balance: Money, env: Env)
    ensures Process.Open(db, playerId, balance, env).Committed? ==> EntryIsOwn(Process.Open(db, playerId, balance, env).writes, env)
  {
  }

  lemma ExpiryEnters(db: Store, id: Id, env: Env)
    ensures Process.Expire(db, id, env).Committed? ==> Process.Expire(db, id, env).writes.entry == None
  {
  }

  /** A transaction's entry carries the identifier generated for it. */
  lemma CommitEnters(log: seq<Store>, s: Session)
    requires LogOk(log) && Running(log, s) && s.phase.Decided? && PhaseOk(log, s)
    ensures EntryIsOwn(s.writes, s.env)
  {
    hide StoreInv, Extends, Running, Clear, HoldsWallet, Moved, Settle, DeclinedOk, ShortfallOk, ParkedOk, WaitedOk, NotedOk, HoldsRow,
         RowForSeen, Open, Expire;
    match s.phase.decision {
      case Settled(w, t, ref, w', direction) => EndingsEnter(ResolvedRow(t, ref, s.env.now), w, w', direction, s.env);
      case Expired(t) => ExpiryEnters(log[s.phase.rw], t.id, s.env);
      case Opened => OpeningEnters(log[s.phase.rw], s.op.playerId, s.op.balance, s.env);
      case _ => Interleaving.MovesNothing(log, s);
    }
  }

  lemma UnusedId(db: Store, s: Session)
    requires Guard(db, s) && HoldsIds(s)
    ensures forall e | e in db.ledger :: e.id != s.env.entryId
  {
    assert IdLock(s.env.entryId) in IdLocks(s.env);
    assert Content(db, IdLock(s.env.entryId)) == Nothing;
  }

  lemma EntryAdded(db: Store, d: Writes, env: Env)
    requires EntriesDiffer(db) && EntryIsOwn(d, env) && forall e | e in db.ledger :: e.id != env.entryId
    ensures EntriesDiffer(Apply(db, d))
  {
  }

  // ---------------------------------------------------------------- runs

  ghost predicate AllExist(log: seq<Store>) {
    forall at | 0 <= at < |log| :: ReferencesExist(log[at]) && EntriesDiffer(log[at])
  }

  lemma NextKnown(m: Machine, l: Label, m': Machine)
    requires MachineInv(m) && AllExist(m.log) && Next(m, l, m')
    ensures AllExist(m'.log)
  {
    hide StoreInv, Extends, SessionOk, Advance, Disjoint, Content, IdLocks, ReferencesExist, EntriesDiffer, WritesKnown,
         EntryIsOwn, FreshIds, Available;
    if l.Commit? {
      Interleaving.KnownRunning(m, l.sid);
      RunningFacts(m.log, m.sessions[l.sid]);
      CommitKnown(m.log, m.sessions[l.sid]);
      KnownKept(Db(m.log), m.sessions[l.sid].writes);
      CommitEnters(m.log, m.sessions[l.sid]);
      UnusedId(Db(m.log), m.sessions[l.sid]);
      EntryAdded(Db(m.log), m.sessions[l.sid].writes, m.sessions[l.sid].env);
    }
  }

  lemma {:induction false} RunKnown(run: seq<Machine>)
    requires IsRun(run)
    ensures AllExist(run[|run| - 1].log)
  {
    hide MachineInv, Next;
    if |run| > 1 {
      var front := run[..|run| - 1];
      RunKnown(front);
      RunSafe(front);
      var m, m' := run[|run| - 2], run[|run| - 1];
      assert front[|front| - 1] == m;
      var l :| Next(m, l, m');
      NextKnown(m, l, m');
    }
  }

  // ---------------------------------------------------------------- the theorem

  /** No committed state of any run violates a constraint of these tables. */
  lemma SchemaNeverViolated(m: Machine, at: nat)
    requires Reachable(m) && at < |m.log|
    ensures SchemaHolds(m.log[at])
  {
    hide StoreInv, Extends, SessionOk, Disjoint, SchemaHolds, Next, ReferencesExist, EntriesDiffer;
    var run :| IsRun(run) && run[|run| - 1] == m;
    RunSafe(run);
    RunKnown(run);
    GoodFitsSchema(m.log[at]);
  }
}
