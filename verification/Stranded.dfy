/** Rows whose reference ended unprocessed: in every run they wait until they expire, and never move money. */
module Stranded {
  import opened Wrappers
  import opened Money
  import opened Wallet
  import opened WagerTx
  import opened Ledger
  import opened Store
  import opened Process
  import opened Invariants
  import opened Machine
  import opened Sessions
  import opened Commits
  import opened Safety
  import Steps
  import Interleaving

  /** The row's reference has ended, but not as PROCESSED. */
  ghost predicate ReferenceLost(s: Store, t: TxRow) {
    var found := FindByOp(s, t.terms.providerId, t.terms.referenceExternalId);
    found.Some? && IsTerminal(found.value.status) && found.value.status != Processed
  }

  ghost predicate IsStranded(s: Store, id: Id) {
    id in s.txs && s.txs[id].status == PendingReference && ReferenceLost(s, s.txs[id])
  }

  ghost predicate HasExpired(s: Store, id: Id) {
    id in s.txs && s.txs[id].status == Failed && s.txs[id].failureCode == ReferenceExpired
  }

  // ---------------------------------------------------------------- lost references stay lost

  lemma LostStays(s: Store, s': Store, t: TxRow, t': TxRow)
    requires Indexed(s) && Extends(s, s') && ReferenceLost(s, t) && t'.terms == t.terms
    ensures ReferenceLost(s', t')
    ensures FindByOp(s', t'.terms.providerId, t'.terms.referenceExternalId) == FindByOp(s, t.terms.providerId, t.terms.referenceExternalId)
  {
    hide ReversalMovesWallet, KeysOk, OwnersOk;
    var o := (t.terms.providerId, t.terms.referenceExternalId);
    assert s'.byOp[o] == s.byOp[o];
    TerminalStays(s, s', s.byOp[o]);
  }

  /** A processed row under the reference's name would be the reference. */
  lemma LostIsNotProcessed(s: Store, t: TxRow, ref: TxRow)
    requires Indexed(s) && ReferenceLost(s, t) && t.terms.providerId != ""
    requires ref.id in s.txs && s.txs[ref.id] == ref && OpOf(ref.terms) == (t.terms.providerId, t.terms.referenceExternalId)
    ensures ref.status != Processed
  {
    hide KeysOk, OwnersOk;
  }

  /** So the row itself cannot have been processed: it would be resolved to a processed row of that name. */
  lemma ProcessedHasReference(s: Store, id: Id)
    requires Indexed(s) && Rows(s) && id in s.txs && s.txs[id].terms.referenceExternalId != "" && s.txs[id].terms.providerId != ""
    requires ReferenceLost(s, s.txs[id])
    ensures s.txs[id].status != Processed
  {
    hide ReferenceLost, RowOk;
    var t := s.txs[id];
    assert ReferenceOk(s, t);
    if t.status == Processed {
      LostIsNotProcessed(s, t, s.txs[t.resolvedReferenceId]);
    }
  }

  // ---------------------------------------------------------------- what a commit can make of the row

  lemma StatusOfEndings(t: TxRow, w: WalletRow, w': WalletRow, direction: Direction, env: Env)
    ensures Park(t, w, env).Committed? ==> Park(t, w, env).writes.tx.value.status == PendingReference
    ensures Note(t, w, env).Committed? ==> Note(t, w, env).writes.tx.value.status == Processed
    ensures Wait(t, env).Committed? ==> Wait(t, env).writes.tx.value.status == PendingReference
    ensures Settle(t, w, w', direction, env).Committed? ==> Settle(t, w, w', direction, env).writes.tx.value.status == Processed
  {
    hide NewEntry, ReferenceRetryBackoff;
  }

  lemma StatusOfWorkers(s: Store, id: Id, playerId: Id, balance: Money, env: Env)
    ensures Process.Expire(s, id, env).Committed? ==> Process.Expire(s, id, env).writes.tx.value.status == Failed
    ensures Process.Open(s, playerId, balance, env).Committed? && Process.Open(s, playerId, balance, env).writes.tx.Some? ==>
      Process.Open(s, playerId, balance, env).writes.tx.value.status == Processed
  {
    hide NewEntry;
  }

  /** Only a decision to reject writes a rejected row. */
  lemma RejectedIsDeclined(log: seq<Store>, s: Session)
    requires log != [] && s.phase.Decided? && PhaseOk(log, s) && s.writes.tx.Some? && s.writes.tx.value.status == Rejected
    ensures s.phase.decision.Declined?
  {
    hide Clear, HoldsWallet, Moved, Settle, Park, Note, Wait, Expire, Open, DeclinedOk, ShortfallOk, WalletSeen, RowInHand, HoldsRow,
         ResolvedRow, RowForSeen, DirectionOf;
    match s.phase.decision {
      case Settled(w, t, ref, w', direction) => StatusOfEndings(ResolvedRow(t, ref, s.env.now), w, w', direction, s.env);
      case Parked(w, t) => StatusOfEndings(t, w, w, Debit, s.env);
      case Noted(w, t) =>
        var t' :| NotedAs(s, w, t, t');
        StatusOfEndings(t', w, w, Debit, s.env);
      case Waited(w, t) => StatusOfEndings(t, w, w, Debit, s.env);
      case Expired(t) => StatusOfWorkers(log[s.phase.rw], t.id, "", Money(0, ""), s.env);
      case Opened => StatusOfWorkers(log[s.phase.rw], "", s.op.playerId, s.op.balance, s.env);
      case _ =>
    }
  }

  /** The row in hand of a transaction that writes a committed row is that row, and the transaction is a resume. */
  lemma InHandIsStored(db: Store, s: Session, w: WalletRow, t: TxRow)
    requires Guard(db, s) && RowInHand(s, w, t) && t.id in db.txs
    ensures s.op.ResumeRow? && db.txs[t.id] == t && t.terms.referenceExternalId != ""
  {
    hide Guard, NewExternal;
    Steps.HeldRow(db, s, t.id);
  }

  lemma UsableIsProcessed(log: seq<Store>, t: TxRow, ref: TxRow, rr: nat)
    requires LogOk(log) && ReferenceUsable(log, t, ref, rr) && t.terms.providerId != ""
    ensures !ReferenceLost(Db(log), t)
  {
    hide StoreInv, Extends, ReferenceLost, ValidateReference, Indexed;
    UsableReferenceStays(log, t, ref, rr);
    LastGood(log);
    if ReferenceLost(Db(log), t) {
      LostIsNotProcessed(Db(log), t, ref);
    }
  }

  /** A resume rejects only on a reference it has seen processed. */
  lemma ResumeRejectsOnProcessed(log: seq<Store>, s: Session, w: WalletRow, rw: nat, t: TxRow, code: FailureCode, cause: Cause, rr: nat, rc: nat)
    requires LogOk(log) && s.op.ResumeRow? && DeclinedOk(log, s, w, rw, t, code, cause) && ShortfallOk(log, s, w, t, cause, rw, rr, rc)
    requires t.terms.referenceExternalId != "" && t.terms.providerId != ""
    ensures !ReferenceLost(Db(log), t)
  {
    hide StoreInv, Extends, ReferenceLost, Reject, HasProcessedReversal, RowInHand, WalletSeen, Moved, Indexed;
    match cause {
      case OtherCurrency =>
      case BadReference(ref, at) =>
        UsableReferenceStays(log, t, ref, at);
        LastGood(log);
        if ReferenceLost(Db(log), t) {
          LostIsNotProcessed(Db(log), t, ref);
        }
      case Reversed(ref, at, _) => UsableIsProcessed(log, t, ref, at);
      case Shortfall(ref, _) =>
        assert Clear(log, s, w, rw, t, ref, rr, rc);
        UsableIsProcessed(log, t, ref.value, rr);
    }
  }

  /** The id of the row a rejection writes is that of the row in hand. */
  lemma DeclinedWritesOwn(log: seq<Store>, s: Session, w: WalletRow, rw: nat, t: TxRow, code: FailureCode, cause: Cause)
    requires DeclinedOk(log, s, w, rw, t, code, cause) && s.writes.tx.Some?
    ensures s.writes.tx.value.id == t.id && RowInHand(s, w, t)
  {
    hide Justified, RowInHand, WalletSeen;
    Steps.RejectedVariant(t, cause, s.env.now);
  }

  lemma StrandedIsNotRejected(log: seq<Store>, s: Session, id: Id)
    requires LogOk(log) && Guard(Db(log), s) && s.phase.Decided? && PhaseOk(log, s) && IsStranded(Db(log), id)
    requires s.writes.tx.Some? && s.writes.tx.value.id == id
    ensures s.writes.tx.value.status != Rejected
  {
    hide StoreInv, Extends, Guard, DeclinedOk, ShortfallOk, ReferenceLost, Rows, Indexed, SettledOk, ParkedOk, NotedOk, WaitedOk, ExpiredOk,
         OpenedOk, SilentOk, RowInHand;
    if s.writes.tx.value.status == Rejected {
      RejectedIsDeclined(log, s);
      match s.phase.decision {
        case Declined(w, readAt, t, code, cause) =>
          DeclinedWritesOwn(log, s, w, readAt, t, code, cause);
          InHandIsStored(Db(log), s, w, t);
          LastGood(log);
          WaitingIsProvided(Db(log), t);
          ResumeRejectsOnProcessed(log, s, w, readAt, t, code, cause, s.phase.rr, s.phase.rc);
      }
    }
  }

  // ---------------------------------------------------------------- one commit

  lemma RowAfter(db: Store, d: Writes, id: Id)
    requires id in db.txs
    ensures id in Apply(db, d).txs
    ensures Apply(db, d).txs[id] == if d.tx.Some? && d.tx.value.id == id then d.tx.value else db.txs[id]
  {
  }

  lemma StrandedNames(db: Store, id: Id)
    requires Indexed(db) && Rows(db) && IsStranded(db, id)
    ensures db.txs[id].id == id && db.txs[id].terms.referenceExternalId != "" && db.txs[id].terms.providerId != ""
  {
    hide ReferenceLost;
    assert RowOk(db, db.txs[id]);
  }

  /** What its status can be, when nobody rejects it. */
  lemma StatusLeft(s: Store, id: Id)
    requires Indexed(s) && Rows(s) && id in s.txs && s.txs[id].terms.referenceExternalId != "" && s.txs[id].terms.providerId != ""
    requires ReferenceLost(s, s.txs[id]) && s.txs[id].status != Rejected
    ensures IsStranded(s, id) || HasExpired(s, id)
  {
    hide ReferenceLost;
    ProcessedHasReference(s, id);
    assert RowOk(s, s.txs[id]);
  }

  lemma TermsKept(s: Store, s': Store, id: Id)
    requires Extends(s, s') && id in s.txs
    ensures id in s'.txs && s'.txs[id].terms == s.txs[id].terms
  {
    assert TxGrows(s.txs[id], s'.txs[id]);
  }

  /** Whoever commits, a stranded row stays stranded or has expired. */
  lemma CommitLeavesStranded(log: seq<Store>, s: Session, id: Id)
    requires LogOk(log) && Running(log, s) && s.phase.Decided? && PhaseOk(log, s) && IsStranded(Db(log), id)
    ensures IsStranded(Apply(Db(log), s.writes), id) || HasExpired(Apply(Db(log), s.writes), id)
  {
    hide StoreInv, Extends, Running, PhaseOk, Guard, ReferenceLost, Rows, Indexed, HoldsIds;
    var db, next := Db(log), Apply(Db(log), s.writes);
    RunningFacts(log, s);
    CommitExtends(log, s);
    LastGood(log);
    LastGood(log + [next]);
    StrandedNames(db, id);
    RowAfter(db, s.writes, id);
    TermsKept(db, next, id);
    LostStays(db, next, db.txs[id], next.txs[id]);
    if s.writes.tx.Some? && s.writes.tx.value.id == id {
      StrandedIsNotRejected(log, s, id);
    }
    StatusLeft(next, id);
  }

  // ---------------------------------------------------------------- runs

  /** Once stranded, a row is stranded or expired at every later commit. */
  ghost predicate StaysOrExpires(log: seq<Store>, id: Id) {
    forall i, j | 0 <= i <= j < |log| && IsStranded(log[i], id) :: IsStranded(log[j], id) || HasExpired(log[j], id)
  }

  lemma ExpiredStays(s: Store, s': Store, id: Id)
    requires Extends(s, s') && HasExpired(s, id)
    ensures HasExpired(s', id)
  {
    assert TxGrows(s.txs[id], s'.txs[id]);
  }

  lemma NextStays(m: Machine, l: Label, m': Machine, id: Id)
    requires MachineInv(m) && StaysOrExpires(m.log, id) && Next(m, l, m')
    ensures StaysOrExpires(m'.log, id)
  {
    hide StoreInv, Extends, SessionOk, Advance, Disjoint, Content, IdLocks, FreshIds, Available, IsStranded, HasExpired;
    if l.Commit? {
      var s, next := m.sessions[l.sid], Db(m'.log);
      Interleaving.KnownRunning(m, l.sid);
      CommitExtends(m.log, s);
      if IsStranded(Db(m.log), id) {
        CommitLeavesStranded(m.log, s, id);
      } else if HasExpired(Db(m.log), id) {
        ExpiredStays(Db(m.log), next, id);
      }
      assert forall i | 0 <= i < |m.log| && IsStranded(m.log[i], id) :: IsStranded(Db(m.log), id) || HasExpired(Db(m.log), id);
    }
  }

  lemma {:induction false} RunStays(run: seq<Machine>, id: Id)
    requires IsRun(run)
    ensures StaysOrExpires(run[|run| - 1].log, id)
  {
    hide MachineInv, Next, IsStranded, HasExpired;
    if |run| > 1 {
      var front := run[..|run| - 1];
      RunStays(front, id);
      RunSafe(front);
      var m, m' := run[|run| - 2], run[|run| - 1];
      assert front[|front| - 1] == m;
      var l :| Next(m, l, m');
      NextStays(m, l, m', id);
    }
  }

  lemma EntryMeansProcessed(s: Store, id: Id)
    requires Entries(s)
    ensures HasEntry(s, id) ==> id in s.txs && s.txs[id].status == Processed
  {
    if HasEntry(s, id) {
      var k :| 0 <= k < |s.ledger| && s.ledger[k].transactionId == id;
      assert s.ledger[k] in s.ledger && EntryOk(s, s.ledger[k]);
    }
  }

  /** A row that waits for a reference which ended REJECTED or FAILED is never processed and never rejected, in any run:
      it waits until it expires, and has no ledger entry. The same request coming after such a reference is rejected at
      once (`Reordering.OrderMattersExactlyWhen`). */
  lemma StrandedRowsOnlyExpire(m: Machine, i: nat, j: nat, id: Id)
    requires Reachable(m) && i <= j < |m.log| && IsStranded(m.log[i], id)
    ensures IsStranded(m.log[j], id) || HasExpired(m.log[j], id)
    ensures !HasEntry(m.log[j], id)
  {
    hide MachineInv, Next, ReferenceLost, StoreInv, HasEntry;
    var run :| IsRun(run) && run[|run| - 1] == m;
    RunStays(run, id);
    RunSafe(run);
    EntriesOk(m, j);
    EntryMeansProcessed(m.log[j], id);
  }

  lemma EntriesOk(m: Machine, j: nat)
    requires MachineInv(m) && j < |m.log|
    ensures Entries(m.log[j])
  {
    hide Extends, SessionOk, Disjoint;
    assert StoreInv(m.log[j]);
  }
}
