/** Locks cover writes: what a commit changes, its session had locked, so no other session sees its own
    locks' contents move. */
module Locking {
  import opened Wrappers
  import opened Money
  import opened Wallet
  import opened WagerTx
  import opened Ledger
  import opened Store
  import opened Process
  import opened Invariants
  import opened Machine
  import opened Sessions
  import opened Steps
  import opened Commits
  import Endings

  // ---------------------------------------------------------------- what a commit may change

  ghost predicate TxHeld(db: Store, s: Session, t: TxRow) {
    && RowLock(t.id) in s.locks
    && if t.id in db.txs then db.txs[t.id].terms == t.terms
       else
         && t.id == s.env.txId
         && (t.terms.idempotencyKey != "" ==> KeyLock(t.terms.idempotencyKey) in s.locks)
         && (t.terms.providerId != "" ==> OpLock(OpOf(t.terms)) in s.locks)
  }

  ghost predicate WalletHeld(db: Store, s: Session, w: WalletRow) {
    && WalletLock(w.id) in s.locks
    && if w.id in db.wallets then OwnerOf(db.wallets[w.id]) == OwnerOf(w)
       else w.id == s.env.walletId && OwnerLock(OwnerOf(w)) in s.locks
  }

  /** New entries and events carry the identifiers drawn for this attempt. */
  ghost predicate OwnIds(d: Writes, env: Env) {
    && (d.entry.Some? ==> d.entry.value.id == env.entryId)
    && (forall e | e in d.events :: e.id == env.event1 || e.id == env.event2)
  }

  ghost predicate WritesHeld(db: Store, s: Session) {
    && (s.writes.tx.Some? ==> TxHeld(db, s, s.writes.tx.value))
    && (s.writes.wallet.Some? ==> WalletHeld(db, s, s.writes.wallet.value))
    && OwnIds(s.writes, s.env)
    && (s.writes.inbox.Some? ==> InboxLock(s.writes.inbox.value.0) in s.locks)
  }

  // ---------------------------------------------------------------- held writes leave everything else alone

  lemma UsedOnlyByOwn(db: Store, s: Session, id: Id)
    requires WritesHeld(db, s) && HoldsIds(s)
    requires !(IdLock(id) in s.locks)
    ensures Used(Apply(db, s.writes), id) == Used(db, id)
  {
    assert forall l | l in IdLocks(s.env) :: l in s.locks;
    assert IdLock(s.env.txId) in IdLocks(s.env) && IdLock(s.env.walletId) in IdLocks(s.env);
    assert IdLock(s.env.entryId) in IdLocks(s.env);
    assert IdLock(s.env.event1) in IdLocks(s.env) && IdLock(s.env.event2) in IdLocks(s.env);
    var after := Apply(db, s.writes);
    if e :| e in db.ledger && e.id == id {
      assert e in after.ledger;
    }
    if e :| e in db.outbox && e.id == id {
      assert e in after.outbox;
    }
  }

  /** The contents behind every lock the session does not hold stay as they are. */
  lemma OthersUntouched(db: Store, s: Session, l: Lock)
    requires Indexed(db) && WritesHeld(db, s) && HoldsIds(s) && l !in s.locks
    ensures Content(Apply(db, s.writes), l) == Content(db, l)
  {
    hide HoldsIds, OwnIds, Used;
    if l.IdLock? {
      UsedOnlyByOwn(db, s, l.id);
    }
  }

  // ---------------------------------------------------------------- each commit's writes are held

  lemma OutcomeIds(t: TxRow, w: WalletRow, w': WalletRow, code: FailureCode, direction: Direction, env: Env)
    ensures Reject(t, w, code, env).Committed? ==> OwnIds(Reject(t, w, code, env).writes, env)
    ensures Park(t, w, env).Committed? ==> OwnIds(Park(t, w, env).writes, env)
    ensures Note(t, w, env).Committed? ==> OwnIds(Note(t, w, env).writes, env)
    ensures Wait(t, env).Committed? ==> OwnIds(Wait(t, env).writes, env)
    ensures Settle(t, w, w', direction, env).Committed? ==>
      OwnIds(Settle(t, w, w', direction, env).writes, env) && Settle(t, w, w', direction, env).writes.wallet == Some(w')
  {
  }

  lemma NoWallet(t: TxRow, w: WalletRow, code: FailureCode, env: Env)
    ensures Reject(t, w, code, env).Committed? ==> Reject(t, w, code, env).writes.wallet == None
    ensures Park(t, w, env).Committed? ==> Park(t, w, env).writes.wallet == None
    ensures Note(t, w, env).Committed? ==> Note(t, w, env).writes.wallet == None
    ensures Wait(t, env).Committed? ==> Wait(t, env).writes.wallet == None
  {
  }

  lemma WritingIds(s: Session, o: Outcome)
    requires Writing(s, o) && OwnIds(o.writes, s.env)
    ensures OwnIds(s.writes, s.env) && s.writes.wallet == o.writes.wallet && s.writes.tx == o.writes.tx
  {
  }

  /** The row in hand is locked, under its keys when it is new. */
  lemma RowHeld(db: Store, s: Session, w: WalletRow, t: TxRow, t': TxRow)
    requires Guard(db, s) && RowInHand(s, w, t) && t'.id == t.id && t'.terms == t.terms
    ensures TxHeld(db, s, t')
  {
    hide Guard, NewExternal;
    if IsAttempt(s.op) {
      NewRowNamed(s.env.txId, s.op.input, w, s.env.now);
    }
    HeldRow(db, s, t.id);
  }

  lemma NewRowNamed(id: Id, i: Input, w: WalletRow, now: Time)
    requires NewExternal(id, i, w, now).Ok?
    ensures NewExternal(id, i, w, now).value.id == id
  {
  }

  lemma InboxRowHeld(log: seq<Store>, s: Session)
    requires log != [] && InboxHeld(log, s) && s.writes.inbox.Some?
    ensures InboxLock(s.writes.inbox.value.0) in s.locks
  {
  }

  ghost predicate Ids(s: Session, t: TxRow) {
    OwnIds(s.writes, s.env) && s.writes.tx.Some? && s.writes.tx.value.id == t.id && s.writes.tx.value.terms == t.terms
  }

  lemma HeldWithoutWallet(log: seq<Store>, s: Session, w: WalletRow, t: TxRow)
    requires log != [] && Guard(Db(log), s) && InboxHeld(log, s) && RowInHand(s, w, t)
    requires Ids(s, t) && s.writes.wallet == None
    ensures WritesHeld(Db(log), s)
  {
    hide Guard, InboxHeld, RowInHand, TxHeld, OwnIds;
    RowHeld(Db(log), s, w, t, s.writes.tx.value);
    if s.writes.inbox.Some? {
      InboxRowHeld(log, s);
    }
  }

  lemma DeclinedHeld(log: seq<Store>, s: Session, w: WalletRow, rw: nat, t: TxRow, code: FailureCode, cause: Cause)
    requires LogOk(log) && Guard(Db(log), s) && HoldsIds(s) && DeclinedOk(log, s, w, rw, t, code, cause)
    ensures Ids(s, t) && s.writes.wallet == None
  {
    hide StoreInv, Extends, Guard, HoldsIds, RowInHand, WalletSeen, RowCommit, MoveCommit, Justified, Reject, OwnIds;
    var t' := RejectedAs(t, cause, s.env.now);
    RejectedVariant(t, cause, s.env.now);
    OutcomeIds(t', w, w, code, Debit, s.env);
    NoWallet(t', w, code, s.env);
    WritingIds(s, Reject(t', w, code, s.env));
    DeclinedLands(log, s, w, rw, t, code, cause);
    LandsWrites(Db(log), s, t);
  }

  lemma PlainEndHeld(log: seq<Store>, s: Session, w: WalletRow, rw: nat, t: TxRow)
    requires LogOk(log) && Guard(Db(log), s) && HoldsIds(s)
    requires ParkedOk(log, s, w, rw, t) || NotedOk(log, s, w, rw, t) || WaitedOk(log, s, w, rw, t)
    ensures Ids(s, t) && s.writes.wallet == None
  {
    hide StoreInv, Extends, Guard, HoldsIds, RowInHand, WalletSeen, RowCommit, MoveCommit, Park, Note, Wait, OwnIds;
    if ParkedOk(log, s, w, rw, t) {
      OutcomeIds(t, w, w, NoCode, Debit, s.env);
      NoWallet(t, w, NoCode, s.env);
      WritingIds(s, Park(t, w, s.env));
      ParkedLands(log, s, w, rw, t);
    } else if WaitedOk(log, s, w, rw, t) {
      OutcomeIds(t, w, w, NoCode, Debit, s.env);
      NoWallet(t, w, NoCode, s.env);
      WritingIds(s, Wait(t, s.env));
      WaitedLands(log, s, w, rw, t);
    } else {
      var t' :| NotedAs(s, w, t, t');
      OutcomeIds(t', w, w, NoCode, Debit, s.env);
      NoWallet(t', w, NoCode, s.env);
      WritingIds(s, Note(t', w, s.env));
      NotedLands(log, s, w, rw, t);
    }
    LandsWrites(Db(log), s, t);
  }

  lemma SettledHeld(log: seq<Store>, s: Session, w: WalletRow, rw: nat, t: TxRow, ref: Option<TxRow>, rr: nat, rc: nat,
                    w': WalletRow, direction: Direction)
    requires LogOk(log) && Guard(Db(log), s) && HoldsIds(s) && InboxHeld(log, s)
    requires SettledOk(log, s, w, rw, t, ref, rr, rc, w', direction)
    ensures WritesHeld(Db(log), s)
  {
    hide StoreInv, Extends, Guard, HoldsIds, InboxHeld, Clear, RowCommit, MoveCommit, Moved, ResolvedRow, Settle,
         TxHeld, OwnIds, RowInHand;
    var db, r := Db(log), ResolvedRow(t, ref, s.env.now);
    OutcomeIds(r, w, w', NoCode, direction, s.env);
    WritingIds(s, Settle(r, w, w', direction, s.env));
    SettledLands(log, s, w, rw, t, ref, rr, rc, w', direction);
    LandsWrites(db, s, t);
    ClearFacts(log, s, w, rw, t, ref, rr, rc);
    RowHeld(db, s, w, t, s.writes.tx.value);
    HeldWalletIsCommitted(db, s, w);
    SeenWalletIsThere(log, s, w, rw);
    Endings.MovedFacts(w, direction, t.terms.money, s.env.now);
    if s.writes.inbox.Some? {
      InboxRowHeld(log, s);
    }
  }

  lemma ExpiredHeld(log: seq<Store>, s: Session, t: TxRow, at: nat)
    requires LogOk(log) && Guard(Db(log), s) && HoldsIds(s) && InboxHeld(log, s) && ExpiredOk(log, s, t, at)
    ensures WritesHeld(Db(log), s)
  {
    hide StoreInv, Extends, Guard, HoldsIds, InboxHeld, RowCommit, MoveCommit, Expire, OwnIds;
    var db := Db(log);
    ExpiredLands(log, s, t, at);
    LandsWrites(db, s, t);
    ExpireIds(db, t.id, s.env);
    WritingIds(s, Process.Expire(db, t.id, s.env));
    HeldRow(db, s, t.id);
    if s.writes.inbox.Some? {
      InboxRowHeld(log, s);
    }
  }

  lemma ExpireIds(db: Store, id: Id, env: Env)
    requires Process.Expire(db, id, env).Committed?
    ensures OwnIds(Process.Expire(db, id, env).writes, env) && Process.Expire(db, id, env).writes.wallet == None
  {
  }

  lemma OpenIds(db: Store, playerId: Id, balance: Money, env: Env)
    requires Process.Open(db, playerId, balance, env).Committed?
    ensures var d := Process.Open(db, playerId, balance, env).writes;
      && OwnIds(d, env) && d.wallet.Some? && d.wallet.value.id == env.walletId && OwnerOf(d.wallet.value) == (playerId, balance.currency)
      && (d.tx.Some? ==> d.tx.value.id == env.txId && d.tx.value.terms.idempotencyKey == "" && d.tx.value.terms.providerId == "")
      && env.walletId !in db.wallets
  {
  }

  lemma OpenedHeld(log: seq<Store>, s: Session, at: nat)
    requires LogOk(log) && Guard(Db(log), s) && HoldsIds(s) && InboxHeld(log, s) && OpenedOk(log, s, at)
    ensures WritesHeld(Db(log), s)
  {
    hide StoreInv, Extends, Guard, HoldsIds, InboxHeld, Open, OwnIds, OpenCommit;
    OpenedCommits(log, s, at);
    OpenIds(Db(log), s.op.playerId, s.op.balance, s.env);
    WritingIds(s, Process.Open(Db(log), s.op.playerId, s.op.balance, s.env));
    FreshRow(Db(log), s);
    if s.writes.inbox.Some? {
      InboxRowHeld(log, s);
    }
  }

  lemma SilentHeld(log: seq<Store>, s: Session)
    requires log != [] && InboxHeld(log, s) && PlainWrites(s)
    ensures WritesHeld(Db(log), s)
  {
    hide InboxHeld;
    if s.writes.inbox.Some? {
      InboxRowHeld(log, s);
    }
  }

  /** Whatever a session is about to commit, it holds. */
  lemma CommitIsHeld(log: seq<Store>, s: Session)
    requires LogOk(log) && Running(log, s) && s.phase.Decided? && PhaseOk(log, s)
    ensures WritesHeld(Db(log), s)
  {
    hide StoreInv, Extends, Guard, HoldsIds, WalletSeen, RowInHand, Justified, HoldsWallet, InboxHeld, Moved, HoldsRow, Writing,
         ReferenceUsable, WritesHeld, Ids, Clear;
    var d, rw, rr, rc := s.phase.decision, s.phase.rw, s.phase.rr, s.phase.rc;
    match d {
      case Silent => SilentHeld(log, s);
      case Settled(w, t, ref, w', direction) => SettledHeld(log, s, w, rw, t, ref, rr, rc, w', direction);
      case Declined(w, readAt, t, code, cause) =>
        DeclinedHeld(log, s, w, readAt, t, code, cause);
        HeldWithoutWallet(log, s, w, t);
      case Parked(w, t) =>
        PlainEndHeld(log, s, w, rw, t);
        HeldWithoutWallet(log, s, w, t);
      case Noted(w, t) =>
        PlainEndHeld(log, s, w, rw, t);
        HeldWithoutWallet(log, s, w, t);
      case Waited(w, t) =>
        PlainEndHeld(log, s, w, rw, t);
        HeldWithoutWallet(log, s, w, t);
      case Expired(t) => ExpiredHeld(log, s, t, rw);
      case Opened => OpenedHeld(log, s, rw);
    }
  }
}
