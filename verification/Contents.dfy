/** What a commit contains, said in the columns of the rows it writes: the answer, the recorded balance, the entry and the
    events of every ending. */
module Contents {
  import opened Wrappers
  import opened Money
  import opened Wallet
  import opened WagerTx
  import opened Ledger
  import opened Store
  import opened Process
  import opened Invariants
  import opened Machine
  import opened Sessions
  import Steps
  import Commits
  import Interleaving

  // ---------------------------------------------------------------- one commit

  /** The event that tells how the row stands, and who announces it when. */
  ghost predicate Tells(e: Event, id: Id, t: TxRow, now: Time, data: EventData) {
    e.id == id && e.walletId == t.terms.walletId && e.correlationId == t.id && e.occurredAt == now && e.data == data
  }

  function Completion(t: TxRow): EventData {
    TransactionProcessed(t.id, t.terms.kind, t.terms.providerId, t.terms.externalId, t.terms.money)
  }

  /** A movement: wallet, entry, row and answer carry one balance, the one after it, and both events are written. */
  ghost predicate SaysMoved(d: Writes, t: TxRow, out: Output, env: Env) {
    && d.wallet.Some? && d.entry.Some? && |d.events| == 2
    && var w, e := d.wallet.value, d.entry.value;
    && e.id == env.entryId && e.walletId == w.id && e.transactionId == t.id && e.amount == t.terms.money && e.createdAt == env.now
    && e.balanceAfter == w.balance == out.balance
    && (t.terms.kind != Opening ==> t.financialResult == Some(w.balance))
    && Tells(d.events[0], env.event1, t, env.now, Completion(t))
    && Tells(d.events[1], env.event2, t, env.now,
             WalletBalanceChanged(t.id, e.direction, t.terms.money, e.balanceBefore, w.balance, w.version))
  }

  /** A row is written and no money moves: its one event, if it has one. */
  ghost predicate SaysRow(d: Writes, t: TxRow, env: Env, data: EventData) {
    d.wallet.None? && d.entry.None? && |d.events| == 1 && Tells(d.events[0], env.event1, t, env.now, data)
  }

  /** By the status the row ends in. A row that has waited once more is written without an event. */
  ghost predicate Says(d: Writes, out: Output, env: Env) {
    d.tx.Some? ==>
      var t := d.tx.value;
      && out.transactionId == t.id && out.status == t.status && out.failureCode == t.failureCode && !out.replay
      && t.updatedAt == env.now
      && match t.status
         case Processed =>
           t.failureCode == NoCode
           && if t.terms.kind == Loss then SaysRow(d, t, env, Completion(t)) && t.financialResult == Some(out.balance)
              else SaysMoved(d, t, out, env)
         case Rejected =>
           t.failureCode != NoCode && t.financialResult == Some(out.balance)
           && SaysRow(d, t, env, TransactionRejected(t.id, t.terms.kind, t.failureCode))
         case PendingReference =>
           t.failureCode == NoCode && t.financialResult == None
           && (SaysRow(d, t, env, TransactionPendingReference(t.id, t.terms.referenceExternalId))
               || (d.wallet.None? && d.entry.None? && d.events == [] && t.retryAttempts > 0))
         case Failed =>
           t.failureCode == ReferenceExpired && t.financialResult == None
           && SaysRow(d, t, env, TransactionExpired(t.id, t.terms.referenceExternalId, ReferenceExpired))
         case Pending => false
  }

  /** The row as the endings find it: open, with nothing recorded yet. */
  ghost predicate Unended(t: TxRow) {
    IsOpen(t.status) && t.failureCode == NoCode && t.financialResult == None
  }

  ghost predicate Said(o: Outcome, env: Env) {
    o.Committed? ==> Says(o.writes, o.out, env)
  }

  lemma RejectSays(t: TxRow, w: WalletRow, code: FailureCode, env: Env)
    requires Unended(t)
    ensures Said(Reject(t, w, code, env), env)
  {
  }

  lemma WaitingSays(t: TxRow, w: WalletRow, env: Env)
    requires Unended(t)
    ensures Said(Park(t, w, env), env) && Said(Wait(t, env), env)
  {
    hide ReferenceRetryBackoff;
  }

  lemma NoteSays(t: TxRow, w: WalletRow, env: Env)
    requires Unended(t) && t.terms.kind == Loss
    ensures Said(Note(t, w, env), env)
  {
  }

  lemma SettleSays(t: TxRow, w: WalletRow, w': WalletRow, direction: Direction, env: Env)
    requires Unended(t) && t.terms.kind != Loss && w'.id == w.id && t.terms.walletId == w.id
    ensures Said(Settle(t, w, w', direction, env), env)
  {
  }

  lemma ExpireSays(s: Store, id: Id, env: Env)
    requires id in s.txs ==> s.txs[id].financialResult == None
    ensures Said(Process.Expire(s, id, env), env)
  {
  }

  lemma OpenSays(s: Store, playerId: Id, balance: Money, env: Env)
    ensures Said(Process.Open(s, playerId, balance, env), env)
  {
  }

  // ---------------------------------------------------------------- sessions

  lemma WritingSays(s: Session, o: Outcome)
    requires Writing(s, o) && Said(o, s.env)
    ensures s.phase.Decided? && Says(s.writes, s.phase.out, s.env)
  {
  }

  lemma InHandIsUnended(log: seq<Store>, s: Session, w: WalletRow, t: TxRow)
    requires LogOk(log) && Guard(Db(log), s) && RowInHand(s, w, t)
    ensures Unended(t) && t.terms.walletId == w.id && TermsOk(t.terms)
  {
    hide StoreInv, Extends, Guard, TermsOk;
    if !IsAttempt(s.op) {
      Steps.HeldRow(Db(log), s, t.id);
      Commits.LastGood(log);
      StoredIsUnended(Db(log), t.id);
    }
  }

  lemma StoredIsUnended(db: Store, id: Id)
    requires Rows(db) && id in db.txs && db.txs[id].status == PendingReference
    ensures Unended(db.txs[id]) && TermsOk(db.txs[id].terms)
  {
    assert RowOk(db, db.txs[id]);
  }

  lemma VariantIsUnended(t': TxRow, t: TxRow)
    requires VariantOf(t', t) && Unended(t)
    ensures Unended(t') && t'.terms == t.terms
  {
  }

  lemma MovedSame(w: WalletRow, direction: Direction, amount: Money, now: Time)
    ensures Moved(w, direction, amount, now).Ok? ==> Moved(w, direction, amount, now).value.id == w.id
  {
  }

  lemma LossDoesNotMove(kind: Kind, refKind: Option<Kind>)
    ensures DirectionOf(kind, refKind).Some? ==> kind != Loss
  {
  }

  /** Whatever a transaction has decided, its writes say what its answer says. */
  lemma DecisionSays(log: seq<Store>, s: Session)
    requires LogOk(log) && Guard(Db(log), s) && s.phase.Decided? && PhaseOk(log, s)
    ensures Says(s.writes, s.phase.out, s.env)
  {
    hide StoreInv, Extends, Guard, RowInHand, WalletSeen, Says, Said, Unended, HoldsWallet, HasProcessedReversal, ReferenceUsable, Justified,
         InOrder, Moved, Reject, Park, Note, Wait, Settle, Expire, Open, RowForSeen, ResolvedRow, TermsOk;
    match s.phase.decision {
      case Silent => NothingSays(s.writes, s.phase.out, s.env);
      case Settled(w, t, ref, w', direction) =>
        InHandIsUnended(log, s, w, t);
        Steps.ResolvedVariant(t, ref, s.env.now);
        VariantIsUnended(ResolvedRow(t, ref, s.env.now), t);
        MovedSame(w, direction, t.terms.money, s.env.now);
        LossDoesNotMove(t.terms.kind, KindOf(ref));
        SettleSays(ResolvedRow(t, ref, s.env.now), w, w', direction, s.env);
        WritingSays(s, Settle(ResolvedRow(t, ref, s.env.now), w, w', direction, s.env));
      case Declined(w, _, t, code, cause) =>
        InHandIsUnended(log, s, w, t);
        Steps.RejectedVariant(t, cause, s.env.now);
        VariantIsUnended(RejectedAs(t, cause, s.env.now), t);
        RejectSays(RejectedAs(t, cause, s.env.now), w, code, s.env);
        WritingSays(s, Reject(RejectedAs(t, cause, s.env.now), w, code, s.env));
      case Parked(w, t) =>
        InHandIsUnended(log, s, w, t);
        WaitingSays(t, w, s.env);
        WritingSays(s, Park(t, w, s.env));
      case Noted(w, t) =>
        InHandIsUnended(log, s, w, t);
        var t' :| NotedAs(s, w, t, t');
        VariantIsUnended(t', t);
        NoteSays(t', w, s.env);
        WritingSays(s, Note(t', w, s.env));
      case Waited(w, t) =>
        InHandIsUnended(log, s, w, t);
        WaitingSays(t, w, s.env);
        WritingSays(s, Wait(t, s.env));
      case Expired(t) =>
        HeldIsPlain(log, s, t);
        ExpireSays(log[s.phase.rw], t.id, s.env);
        WritingSays(s, Process.Expire(log[s.phase.rw], t.id, s.env));
      case Opened =>
        OpenSays(log[s.phase.rw], s.op.playerId, s.op.balance, s.env);
        WritingSays(s, Process.Open(log[s.phase.rw], s.op.playerId, s.op.balance, s.env));
    }
  }

  lemma NothingSays(d: Writes, out: Output, env: Env)
    ensures d.tx.None? ==> Says(d, out, env)
  {
  }

  lemma HeldIsPlain(log: seq<Store>, s: Session, t: TxRow)
    requires LogOk(log) && Guard(Db(log), s) && HoldsRow(s, t)
    ensures t.financialResult == None
  {
    hide StoreInv, Extends, Guard;
    Steps.HeldRow(Db(log), s, t.id);
    Commits.LastGood(log);
    StoredIsUnended(Db(log), t.id);
  }

  /** In every run, every commit says in its rows, entry and events what its answer says. In particular the balance that
      a movement answers is the one the row records, the entry ends in, and the wallet has in the state committed. */
  lemma CommitsSay(m: Machine, sid: nat, m': Machine)
    requires Reachable(m) && Next(m, Commit(sid), m')
    ensures var s := m.sessions[sid];
      && Says(s.writes, s.phase.out, s.env)
      && (s.writes.entry.Some? ==>
            var e := s.writes.entry.value;
            && s.phase.out.balance == e.balanceAfter
            && e.walletId in Db(m'.log).wallets && Db(m'.log).wallets[e.walletId].balance == e.balanceAfter
            && e.transactionId in Db(m'.log).txs
            && (Db(m'.log).txs[e.transactionId].terms.kind != Opening ==>
                  Db(m'.log).txs[e.transactionId].financialResult == Some(e.balanceAfter)))
  {
    hide Reachable, StoreInv, Extends, Running, Guard, HoldsIds, PhaseOk, Legal, Indexed;
    Interleaving.AboutToCommit(m, sid);
    Interleaving.CommitIsLegal(m, sid, m');
    DecisionSays(m.log, m.sessions[sid]);
    if m.sessions[sid].writes.entry.Some? {
      EntriesComeWithRows(Db(m.log), m.sessions[sid].writes);
    }
  }

  /** An entry is written only with its row, processed, and its wallet. */
  lemma EntriesComeWithRows(db: Store, d: Writes)
    requires Legal(db, d) && d.entry.Some?
    ensures d.tx.Some? && d.wallet.Some? && d.tx.value.status == Processed && d.tx.value.terms.kind != Loss
  {
  }

  /** The balance that a rejection, a parking or a LOSS answers was the committed one at some instant of the attempt. */
  lemma AnsweredBalanceWasThere(m: Machine, sid: nat, m': Machine)
    requires Reachable(m) && Next(m, Commit(sid), m')
    requires var d := m.sessions[sid].phase.decision; d.Declined? || d.Parked? || d.Noted?
    ensures var s := m.sessions[sid];
      && s.writes.tx.Some?
      && exists at: nat :: s.began <= at < |m.log| && HasBalance(m.log[at], s.writes.tx.value.terms.walletId, s.phase.out.balance)
  {
    hide Reachable, StoreInv, Extends, Running, Guard, HoldsIds, RowInHand, Justified, InOrder, Says, TermsOk;
    var s := m.sessions[sid];
    Interleaving.AboutToCommit(m, sid);
    match s.phase.decision {
      case Declined(w, readAt, t, code, cause) =>
        InHandIsUnended(m.log, s, w, t);
        Steps.RejectedVariant(t, cause, s.env.now);
        assert HasBalance(m.log[readAt], w.id, w.balance);
      case Parked(w, t) =>
        InHandIsUnended(m.log, s, w, t);
        assert HasBalance(m.log[s.phase.rw], w.id, w.balance);
      case Noted(w, t) =>
        InHandIsUnended(m.log, s, w, t);
        var t' :| NotedAs(s, w, t, t');
        assert HasBalance(m.log[s.phase.rw], w.id, w.balance);
      case _ =>
    }
  }

  ghost predicate HasBalance(s: Store, walletId: Id, balance: Money) {
    walletId in s.wallets && s.wallets[walletId].balance == balance
  }
}
