/** What holds of every interleaving: movements are serialisable, references are reversed once, rejections are
    justified, and rows end once. */
module Interleaving {
  import opened Wrappers
  import opened Wallet
  import opened WagerTx
  import opened Ledger
  import opened Store
  import opened Process
  import opened Invariants
  import opened Atomic
  import opened Machine
  import opened Sessions
  import opened Commits
  import opened Safety
  import Steps

  /** What is known about a session of a reachable state that is about to commit. */
  lemma AboutToCommit(m: Machine, sid: nat)
    requires Reachable(m) && sid in m.sessions && m.sessions[sid].phase.Decided?
    ensures LogOk(m.log) && Running(m.log, m.sessions[sid]) && PhaseOk(m.log, m.sessions[sid])
    ensures Guard(Db(m.log), m.sessions[sid]) && HoldsIds(m.sessions[sid])
  {
    hide Reachable, LogOk, Running, PhaseOk;
    ReachableSafe(m);
    KnownRunning(m, sid);
    RunningFacts(m.log, m.sessions[sid]);
  }

  lemma KnownRunning(m: Machine, sid: nat)
    requires MachineInv(m) && sid in m.sessions && !m.sessions[sid].phase.Done? && !m.sessions[sid].phase.Aborted?
    ensures LogOk(m.log) && m.log != [] && Running(m.log, m.sessions[sid]) && PhaseOk(m.log, m.sessions[sid])
  {
    hide StoreInv, Extends, Running, PhaseOk;
    assert SessionOk(m.log, m.sessions[sid]);
  }

  /** What a commit of a reachable state does to the database. */
  lemma CommitIsLegal(m: Machine, sid: nat, m': Machine)
    requires Reachable(m) && Next(m, Commit(sid), m')
    ensures LogOk(m.log) && LogOk(m'.log) && Db(m'.log) == Apply(Db(m.log), m.sessions[sid].writes)
    ensures Legal(Db(m.log), m.sessions[sid].writes) && Extends(Db(m.log), Db(m'.log))
    ensures Indexed(Db(m.log)) && Indexed(Db(m'.log))
  {
    hide Reachable, LogOk, Running, PhaseOk, Legal, Extends, Indexed;
    AboutToCommit(m, sid);
    CommitLegal(m.log, m.sessions[sid]);
    CommitExtends(m.log, m.sessions[sid]);
    LastGood(m.log);
    LastGood(m'.log);
  }

  // ---------------------------------------------------------------- movements refine the sequential model

  /** The commit leaves what the call, run alone on the state before it, would have left, and answers the same.
      Only the inbox may differ: the sequential call knows nothing of messages. */
  ghost predicate ActsAlone(db: Store, s: Session, db': Store) {
    var o := Run(db, CallOf(s.op), s.env);
    && s.phase.Decided?
    && o.Committed? && s.phase.out == o.out
    && db' == Apply(db, o.writes).(inbox := db'.inbox)
  }

  lemma WritingActsAlone(db: Store, s: Session)
    requires s.phase.Decided? && Writing(s, Run(db, CallOf(s.op), s.env))
    ensures ActsAlone(db, s, Apply(db, s.writes))
  {
    hide Run;
  }

  lemma MovesNothing(log: seq<Store>, s: Session)
    requires LogOk(log) && Running(log, s) && s.phase.Decided? && PhaseOk(log, s)
    requires !s.phase.decision.Settled? && s.phase.decision != Opened && !s.phase.decision.Expired?
    ensures s.writes.wallet == None && s.writes.entry == None
  {
    hide StoreInv, Extends, Guard, HoldsIds, WalletSeen, RowInHand, Justified, HoldsWallet, InboxHeld, Moved, HoldsRow,
         ReferenceUsable, Clear,
         Park, Note, Wait, Reject, MarkedRejected, RowFor;
    var d := s.phase.decision;
    match d {
      case Declined(w, _, t, code, cause) =>
        var t' := RejectedAs(t, cause, s.env.now);
        Steps.RejectedVariant(t, cause, s.env.now);
        NoMovement(t', w, code, s.env);
      case Parked(w, t) => NoMovement(t, w, NoCode, s.env);
      case Noted(w, t) =>
        var t' :| NotedAs(s, w, t, t');
        NoMovement(t', w, NoCode, s.env);
      case Waited(w, t) => NoMovement(t, w, NoCode, s.env);
      case _ =>
    }
  }

  lemma NoMovement(t: TxRow, w: WalletRow, code: FailureCode, env: Env)
    ensures Reject(t, w, code, env).Committed? ==> Reject(t, w, code, env).writes.wallet == None && Reject(t, w, code, env).writes.entry == None
    ensures Park(t, w, env).Committed? ==> Park(t, w, env).writes.wallet == None && Park(t, w, env).writes.entry == None
    ensures Note(t, w, env).Committed? ==> Note(t, w, env).writes.wallet == None && Note(t, w, env).writes.entry == None
    ensures Wait(t, env).Committed? ==> Wait(t, env).writes.wallet == None && Wait(t, env).writes.entry == None
  {
  }

  /** Every commit that touches a wallet or the ledger, and every expiry, refines the sequential model: it yields
      the wallet, entry, row, events and answer of the same call run alone on the state just before it. */
  lemma MovesAreAtomic(m: Machine, sid: nat, m': Machine)
    requires Reachable(m) && Next(m, Commit(sid), m')
    requires Db(m'.log).wallets != Db(m.log).wallets || Db(m'.log).ledger != Db(m.log).ledger || m.sessions[sid].phase.decision.Expired?
    ensures ActsAlone(Db(m.log), m.sessions[sid], Db(m'.log))
  {
    hide Reachable, StoreInv, Extends, Running, Clear, HoldsWallet, Moved, Settle, Run, Guard, HoldsIds;
    var s, db, rw := m.sessions[sid], Db(m.log), m.sessions[sid].phase.rw;
    AboutToCommit(m, sid);
    match s.phase.decision {
      case Settled(w, t, ref, w', direction) =>
        SettledIsAtomic(m.log, s, w, rw, t, ref, s.phase.rr, s.phase.rc, w', direction);
        WritingActsAlone(db, s);
      case Opened =>
        OpenedCommits(m.log, s, rw);
        OpenIsCall(db, s);
        WritingActsAlone(db, s);
      case Expired(t) =>
        ExpiredLands(m.log, s, t, rw);
        ExpireIsCall(db, s);
        WritingActsAlone(db, s);
      case _ => MovesNothing(m.log, s);
    }
  }

  lemma OpenIsCall(db: Store, s: Session)
    requires s.op.OpenAccount?
    ensures Run(db, CallOf(s.op), s.env) == Process.Open(db, s.op.playerId, s.op.balance, s.env)
  {
  }

  lemma ExpireIsCall(db: Store, s: Session)
    requires s.op.ExpireRow?
    ensures Run(db, CallOf(s.op), s.env) == Process.Expire(db, s.op.id, s.env)
  {
  }

  // ---------------------------------------------------------------- one reversal per reference

  /** A reversal that commits is the first of its reference: the partial unique index on processed reversals is
      never violated, though nothing in the machine consults it. */
  lemma NoSecondReversal(m: Machine, sid: nat, m': Machine, id: Id)
    requires Reachable(m) && Next(m, Commit(sid), m')
    requires NewReversal(Db(m.log), Db(m'.log), id)
    ensures !HasProcessedReversal(Db(m.log), Db(m'.log).txs[id].resolvedReferenceId)
    ensures Advanced(Db(m.log), Db(m'.log), Db(m'.log).txs[id].terms.walletId)
  {
    hide Reachable, LogOk, Legal, RowsGrow, Within, NewReversal, Indexed;
    CommitIsLegal(m, sid, m');
    FirstReversal(Db(m.log), m.sessions[sid].writes, id);
  }

  lemma FirstReversal(s: Store, d: Writes, id: Id)
    requires Legal(s, d) && NewReversal(s, Apply(s, d), id)
    ensures !HasProcessedReversal(s, Apply(s, d).txs[id].resolvedReferenceId)
  {
    hide RowFor, MayWrite, RowOk, ReferenceOk, NewEvents, DirectionOfRow, HasProcessedReversal, OpenedPositive, Announces;
  }

  /** Two transactions past their saves never hold reversals of one reference: the wallet row excludes it. */
  lemma ReversalsInFlightDiffer(m: Machine, a: nat, b: nat)
    requires Reachable(m) && a in m.sessions && b in m.sessions && a != b
    requires m.sessions[a].phase.Saved? && m.sessions[b].phase.Saved?
    ensures m.sessions[a].phase.w.id != m.sessions[b].phase.w.id
    ensures m.sessions[a].phase.ref.Some? && m.sessions[b].phase.ref.Some? ==>
      m.sessions[a].phase.ref.value.id != m.sessions[b].phase.ref.value.id
  {
    hide Reachable, StoreInv, Running, Moved, HasProcessedReversal, NewExternal, HoldsKeys, HoldsRow;
    ReachableSafe(m);
    SavedHolds(m, a);
    SavedHolds(m, b);
    assert m.sessions[a].locks.Keys !! m.sessions[b].locks.Keys;
    if m.sessions[a].phase.ref.Some? && m.sessions[b].phase.ref.Some? {
      SavedReference(m, a);
      SavedReference(m, b);
    }
  }

  lemma SavedHolds(m: Machine, a: nat)
    requires MachineInv(m) && a in m.sessions && m.sessions[a].phase.Saved?
    ensures WalletLock(m.sessions[a].phase.w.id) in m.sessions[a].locks.Keys
  {
    hide StoreInv, Extends, Running, Moved, Clear;
    KnownRunning(m, a);
  }

  lemma SavedReference(m: Machine, a: nat)
    requires MachineInv(m) && a in m.sessions && m.sessions[a].phase.Saved? && m.sessions[a].phase.ref.Some?
    ensures var ref := m.sessions[a].phase.ref.value;
      ref.id in Db(m.log).txs && Db(m.log).txs[ref.id] == ref && ref.terms.walletId == m.sessions[a].phase.w.id
  {
    hide StoreInv, Extends, Running, Moved, HasProcessedReversal, RowInHand, HoldsWallet;
    KnownRunning(m, a);
    var s := m.sessions[a];
    UsableReferenceStays(m.log, s.phase.t, s.phase.ref.value, s.phase.rr);
    InHandWallet(s, s.phase.w, s.phase.t);
  }

  // ---------------------------------------------------------------- rejections

  /** At some instant of the attempt the committed balance was the one recorded, and less than the amount. */
  ghost predicate FellShort(log: seq<Store>, began: nat, t: TxRow) {
    exists at: nat :: began <= at < |log| && ShortAt(log[at], t)
  }

  ghost predicate ShortAt(s: Store, t: TxRow) {
    && t.terms.walletId in s.wallets
    && t.financialResult == Some(s.wallets[t.terms.walletId].balance)
    && s.wallets[t.terms.walletId].balance.minorUnits < t.terms.money.minorUnits
  }

  /** The reference of the row, under the name the row gives. */
  ghost predicate ItsReference(s: Store, t: TxRow, ref: TxRow) {
    FindByOp(s, t.terms.providerId, t.terms.referenceExternalId) == Some(ref)
  }

  /** The committed state itself shows why the row is rejected; a shortfall is shown by the attempt's past. */
  ghost predicate Deserved(log: seq<Store>, began: nat, s: Store, t: TxRow) {
    match t.failureCode
    case CurrencyMismatch =>
      t.terms.walletId in s.wallets && s.wallets[t.terms.walletId].balance.currency != t.terms.money.currency
    case ReferenceMismatch =>
      exists ref :: ItsReference(s, t, ref) && ref.status == Processed && ValidateReference(t.terms, ref.terms) == ReferenceMismatch
    case ReferenceNotProcessable =>
      exists ref :: ItsReference(s, t, ref) && IsTerminal(ref.status)
                    && (ref.status == Processed ==> ValidateReference(t.terms, ref.terms) == ReferenceNotProcessable)
    case ReferenceAlreadyReversed =>
      && (t.terms.kind == Refund || t.terms.kind == Rollback)
      && exists ref :: ItsReference(s, t, ref) && ref.status == Processed && HasProcessedReversal(s, ref.id)
    case InsufficientBalance => t.terms.kind == Bet && FellShort(log, began, t)
    case ReversalInsufficientBalance => t.terms.kind == Rollback && FellShort(log, began, t)
    case _ => false
  }

  lemma ReversalStays(a: Store, b: Store, referenceId: Id)
    requires RowsGrow(a, b) && HasProcessedReversal(a, referenceId)
    ensures HasProcessedReversal(b, referenceId)
  {
    var id :| id in a.txs && Reverses(a.txs[id], referenceId);
    assert TxGrows(a.txs[id], b.txs[id]);
    assert Reverses(b.txs[id], referenceId);
  }

  lemma NamedIsFound(db: Store, t: TxRow, ref: TxRow)
    requires OpsOk(db.byOp, db.txs) && ref.id in db.txs && db.txs[ref.id] == ref
    requires OpOf(ref.terms) == (t.terms.providerId, t.terms.referenceExternalId) && t.terms.providerId != ""
    ensures ItsReference(db, t, ref)
  {
  }

  lemma ReferenceNow(log: seq<Store>, next: Store, t: TxRow, ref: TxRow, rr: nat)
    requires LogOk(log) && ReferenceSeen(log, t, ref, rr) && IsTerminal(ref.status) && t.terms.providerId != ""
    requires Indexed(next) && RowsGrow(Db(log), next)
    ensures ItsReference(next, t, ref)
  {
    hide StoreInv, Extends, KeysOk, OwnersOk, OpsOk, ItsReference;
    UsableReferenceStays(log, t, ref, rr);
    TerminalStays(Db(log), next, ref.id);
    NamedIsFound(next, t, ref);
  }

  lemma InHandProvided(log: seq<Store>, s: Session, w: WalletRow, rw: nat, t: TxRow)
    requires LogOk(log) && WalletSeen(log, s, w, rw) && RowInHand(s, w, t) && Guard(Db(log), s)
    ensures t.terms.providerId != "" && t.terms.walletId == w.id
  {
    hide StoreInv, Extends, Guard, MayWrite, WalletSeen, RowInHand;
    InHandIsWritable(log, s, w, rw, t);
    InHandWallet(s, w, t);
  }

  /** The rejected row as committed. */
  lemma RejectedRow(s: Session, w: WalletRow, t: TxRow, t': TxRow, code: FailureCode)
    requires VariantOf(t', t) && Writing(s, Reject(t', w, code, s.env))
    ensures s.writes.tx.Some?
    ensures var r := s.writes.tx.value; r.terms == t.terms && r.failureCode == code && r.financialResult == Some(w.balance) && r.status == Rejected
    ensures s.writes.wallet == None
  {
  }

  lemma ShortfallFacts(w: WalletRow, t: TxRow, ref: Option<TxRow>, direction: Direction, now: Time)
    requires DirectionOf(t.terms.kind, KindOf(ref)) == Some(direction)
    requires Moved(w, direction, t.terms.money, now) == Err(ErrInsufficientBalance)
    ensures w.balance.minorUnits < t.terms.money.minorUnits
    ensures t.terms.kind == Bet || t.terms.kind == Rollback
  {
  }

  lemma DeclinedDeserves(log: seq<Store>, next: Store, s: Session, w: WalletRow, rw: nat, t: TxRow, code: FailureCode, cause: Cause)
    requires LogOk(log) && Guard(Db(log), s) && DeclinedOk(log, s, w, rw, t, code, cause)
    requires next == Apply(Db(log), s.writes) && Indexed(next) && RowsGrow(Db(log), next)
    ensures s.writes.tx.Some? && Deserved(log, s.began, next, s.writes.tx.value)
  {
    hide StoreInv, Extends, Guard, RowInHand, Reject, Moved, Indexed, RowsGrow, ItsReference, ReferenceSeen,
         ReferenceUsable, WalletSeen;
    var t' := RejectedAs(t, cause, s.env.now);
    Steps.RejectedVariant(t, cause, s.env.now);
    RejectedRow(s, w, t, t', code);
    InHandProvided(log, s, w, rw, t);
    var r := s.writes.tx.value;
    match cause {
      case OtherCurrency =>
        SeenWalletIsThere(log, s, w, rw);
      case BadReference(ref, rr) =>
        JustifiedTerminal(log, s, w, rw, t, code, ref, rr);
        ReferenceNow(log, next, t, ref, rr);
        SameReference(next, t, r, ref);
      case Reversed(ref, rr, rc) =>
        JustifiedReversal(log, s, w, rw, t, code, ref, rr, rc);
        ReferenceNow(log, next, t, ref, rr);
        SameReference(next, t, r, ref);
        StillReversed(log, next, rc, ref.id);
      case Shortfall(ref, direction) =>
        ShortfallFacts(w, t, ref, direction, s.env.now);
        ShortSeen(log, s, w, rw, r);
    }
  }

  lemma SameReference(next: Store, t: TxRow, r: TxRow, ref: TxRow)
    requires ItsReference(next, t, ref) && r.terms == t.terms
    ensures ItsReference(next, r, ref)
  {
  }

  lemma ShortSeen(log: seq<Store>, s: Session, w: WalletRow, rw: nat, r: TxRow)
    requires WalletSeen(log, s, w, rw) && r.terms.walletId == w.id && r.financialResult == Some(w.balance)
    requires w.balance.minorUnits < r.terms.money.minorUnits
    ensures FellShort(log, s.began, r)
  {
    assert ShortAt(log[rw], r);
  }

  lemma JustifiedTerminal(log: seq<Store>, s: Session, w: WalletRow, rw: nat, t: TxRow, code: FailureCode, ref: TxRow, rr: nat)
    requires Justified(log, s, w, rw, t, code, BadReference(ref, rr))
    ensures ReferenceSeen(log, t, ref, rr) && IsTerminal(ref.status)
    ensures if ref.status == Processed then code == ValidateReference(t.terms, ref.terms) else code == ReferenceNotProcessable
    ensures code == ReferenceMismatch || code == ReferenceNotProcessable
  {
    hide ReferenceSeen;
  }

  lemma JustifiedReversal(log: seq<Store>, s: Session, w: WalletRow, rw: nat, t: TxRow, code: FailureCode, ref: TxRow, rr: nat, rc: nat)
    requires Justified(log, s, w, rw, t, code, Reversed(ref, rr, rc))
    ensures ReferenceSeen(log, t, ref, rr) && ref.status == Processed && rc < |log| && HasProcessedReversal(log[rc], ref.id)
    ensures code == ReferenceAlreadyReversed && (t.terms.kind == Refund || t.terms.kind == Rollback)
  {
    hide ReferenceSeen, ValidateReference;
  }

  lemma StillReversed(log: seq<Store>, next: Store, rc: nat, referenceId: Id)
    requires LogOk(log) && rc < |log| && HasProcessedReversal(log[rc], referenceId) && RowsGrow(Db(log), next)
    ensures HasProcessedReversal(next, referenceId)
  {
    hide StoreInv, RowsGrow, HasProcessedReversal;
    assert Extends(log[rc], Db(log));
    ReversalStays(log[rc], Db(log), referenceId);
    ReversalStays(Db(log), next, referenceId);
  }

  /** Every rejection is justified at its commit: by the committed state itself, or, for a shortfall, by an instant
      of the same attempt at which the committed balance was the recorded one and did not cover the amount. */
  lemma RejectionsAreDeserved(m: Machine, sid: nat, m': Machine)
    requires Reachable(m) && Next(m, Commit(sid), m') && m.sessions[sid].phase.decision.Declined?
    ensures var s := m.sessions[sid];
      && s.writes.tx.Some? && s.writes.tx.value.status == Rejected
      && Deserved(m.log, s.began, Db(m'.log), s.writes.tx.value)
  {
    hide Reachable, LogOk, Running, Guard, HoldsIds, Justified, WalletSeen, RowInHand, ReversalMovesWallet, RowsGrow,
         Within, Deserved, Reject, Legal, Indexed;
    var s := m.sessions[sid];
    AboutToCommit(m, sid);
    CommitIsLegal(m, sid, m');
    match s.phase.decision {
      case Declined(w, readAt, t, code, cause) =>
        DeclinedDeserves(m.log, Db(m'.log), s, w, readAt, t, code, cause);
        var t' := RejectedAs(t, cause, s.env.now);
        Steps.RejectedVariant(t, cause, s.env.now);
        RejectedRow(s, w, t, t', code);
    }
  }

  // ---------------------------------------------------------------- rows end once

  /** Along the commits of any run a row keeps its terms, is never seen PENDING, and once terminal never changes. */
  lemma RowsEndOnce(m: Machine, i: nat, j: nat, id: Id)
    requires Reachable(m) && i <= j < |m.log| && id in m.log[i].txs
    ensures id in m.log[j].txs && m.log[j].txs[id].terms == m.log[i].txs[id].terms
    ensures m.log[j].txs[id].status != Pending
    ensures IsTerminal(m.log[i].txs[id].status) ==> m.log[j].txs[id] == m.log[i].txs[id]
  {
    hide Reachable, StoreInv, ReversalMovesWallet, RowOk;
    ReachableSafe(m);
    assert Extends(m.log[i], m.log[j]);
    assert TxGrows(m.log[i].txs[id], m.log[j].txs[id]);
    NeverPending(m.log[j], id) by { assert StoreInv(m.log[j]); GoodFacts(m.log[j]); }
  }

  lemma NeverPending(s: Store, id: Id)
    requires Rows(s) && id in s.txs
    ensures s.txs[id].status != Pending
  {
    assert RowOk(s, s.txs[id]);
  }

  /** The unguarded update meets only waiting rows: a commit that rewrites a row finds it PENDING_REFERENCE. */
  lemma UpdatesMeetWaitingRows(m: Machine, sid: nat, m': Machine, id: Id)
    requires Reachable(m) && Next(m, Commit(sid), m')
    requires id in Db(m.log).txs && Db(m'.log).txs[id] != Db(m.log).txs[id]
    ensures Db(m.log).txs[id].status == PendingReference
  {
    hide Reachable, LogOk, Legal, Extends, Indexed;
    CommitIsLegal(m, sid, m');
    WaitingRewritten(Db(m.log), m.sessions[sid].writes, id);
  }

  lemma WaitingRewritten(s: Store, d: Writes, id: Id)
    requires Legal(s, d) && id in s.txs && Apply(s, d).txs[id] != s.txs[id]
    ensures s.txs[id].status == PendingReference
  {
    hide RowFor, RowOk, ReferenceOk, NewEvents, DirectionOfRow, HasProcessedReversal, Taken, Announces, TermsOk;
  }
}
