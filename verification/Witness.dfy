/** A concrete run in which a rejection is not what the same call, run alone, would come to: a bet is decided on an empty
    wallet, a win is committed, and the bet is rejected all the same. */
module Witness {
  import opened Wrappers
  import opened Money
  import opened Wallet
  import opened WagerTx
  import opened Ledger
  import opened Store
  import opened Process
  import opened Invariants
  import opened Machine
  import opened Sessions
  import opened Undisturbed
  import Int64
  import Endings
  import Commits
  import Safety
  import Interleaving

  const OPENING := Env("opening", "wallet", "entry-0", "event-0", "event-1", 0)
  const BETTING := Env("bet-row", "unused-1", "entry-1", "event-2", "event-3", 0)
  const WINNING := Env("win-row", "unused-2", "entry-2", "event-4", "event-5", 0)

  const BET := Input("provider", "bet", "bet-key", "player", "wallet", "round", "game", Bet, Money(5, "BRL"), "")
  const WIN := Input("provider", "win", "win-key", "player", "wallet", "round", "game", Win, Money(10, "BRL"), "")

  // ---------------------------------------------------------------- bets and wins without a reference

  /** The request is a first one, plain and for this wallet. */
  ghost predicate Plain(db: Store, i: Input, env: Env, w: WalletRow) {
    && Indexed(db) && WalletOk(w) && i.walletId in db.wallets && db.wallets[i.walletId] == w && w.id == i.walletId
    && env.txId != "" && env.entryId != "" && env.txId !in db.txs
    && i.idempotencyKey != "" && i.idempotencyKey !in db.byKey
    && i.providerId != "" && i.externalId != "" && (i.providerId, i.externalId) !in db.byOp
    && i.playerId == w.playerId && i.roundId != "" && i.gameId != ""
    && (i.kind == Bet || i.kind == Win) && i.referenceExternalId == ""
    && i.money.currency == w.balance.currency && i.money.minorUnits > 0
  }

  lemma PlainComesToMovement(db: Store, i: Input, env: Env, w: WalletRow)
    requires Plain(db, i, env, w)
    ensures NewExternal(env.txId, i, w, env.now).Ok?
    ensures var t := NewExternal(env.txId, i, w, env.now).value;
      && Attempt(db, i, env) == Finish(w, t, None, env)
      && t.status == Pending && t.terms.money == i.money && t.terms.kind == i.kind && t.id == env.txId
  {
    hide Attempt, Finish;
    var t := NewExternal(env.txId, i, w, env.now).value;
    Commits.AttemptInsertsRow(db, i, w, t, env);
    Commits.InsertedFinishes(db, w, t, None, env);
  }

  /** A bet is rejected below its amount and processed from there on. */
  lemma BetByBalance(db: Store, i: Input, env: Env, w: WalletRow)
    requires Plain(db, i, env, w) && i.kind == Bet
    ensures Attempt(db, i, env).Committed?
    ensures Attempt(db, i, env).out.status == if w.balance.minorUnits < i.money.minorUnits then Rejected else Processed
    ensures w.balance.minorUnits < i.money.minorUnits ==> Attempt(db, i, env).writes.wallet == None
  {
    hide Attempt, NewExternal, Indexed;
    PlainComesToMovement(db, i, env, w);
    var t := NewExternal(env.txId, i, w, env.now).value;
    if w.balance.minorUnits < i.money.minorUnits {
      ShortBet(w, t, env);
    } else {
      CoveredBet(w, t, env);
    }
  }

  lemma ShortBet(w: WalletRow, t: TxRow, env: Env)
    requires WalletOk(w) && t.status == Pending && t.terms.kind == Bet && t.terms.money.currency == w.balance.currency
    requires w.balance.minorUnits < t.terms.money.minorUnits
    ensures Finish(w, t, None, env) == Reject(t, w, InsufficientBalance, env)
    ensures var o := Reject(t, w, InsufficientBalance, env); o.Committed? && o.out.status == Rejected && o.writes.wallet == None
  {
  }

  lemma CoveredBet(w: WalletRow, t: TxRow, env: Env)
    requires WalletOk(w) && t.status == Pending && t.id != "" && t.terms.kind == Bet && t.terms.money.currency == w.balance.currency
    requires 0 < t.terms.money.minorUnits <= w.balance.minorUnits && env.entryId != ""
    ensures Finish(w, t, None, env).Committed? && Finish(w, t, None, env).out.status == Processed
  {
    Endings.SettleCommits(w, t, Debit, env);
  }

  /** A win that fits is credited to the wallet, and writes its own row. */
  lemma WinCredits(db: Store, i: Input, env: Env, w: WalletRow)
    requires Plain(db, i, env, w) && i.kind == Win && Int64.Fits(w.balance.minorUnits + i.money.minorUnits)
    ensures var o := Attempt(db, i, env);
      && o.Committed? && o.writes.wallet.Some? && o.writes.tx.Some?
      && o.writes.wallet.value.id == w.id && o.writes.wallet.value.playerId == w.playerId && WalletOk(o.writes.wallet.value)
      && o.writes.wallet.value.balance == Money(w.balance.minorUnits + i.money.minorUnits, w.balance.currency)
      && o.writes.tx.value.id == env.txId && o.writes.tx.value.terms.idempotencyKey == i.idempotencyKey
      && OpOf(o.writes.tx.value.terms) == (i.providerId, i.externalId)
  {
    hide Attempt, NewExternal, Indexed, Settle;
    PlainComesToMovement(db, i, env, w);
    Commits.NewRowNames(env.txId, i, w, env.now);
    var t := NewExternal(env.txId, i, w, env.now).value;
    CreditedWin(w, t, env);
  }

  lemma CreditedWin(w: WalletRow, t: TxRow, env: Env)
    requires WalletOk(w) && t.status == Pending && t.id != "" && t.terms.kind == Win && t.terms.money.currency == w.balance.currency
    requires t.terms.money.minorUnits > 0 && Int64.Fits(w.balance.minorUnits + t.terms.money.minorUnits) && env.entryId != ""
    ensures var o := Finish(w, t, None, env);
      && o.Committed? && o.writes.wallet.Some? && o.writes.tx.Some?
      && o.writes.wallet.value.id == w.id && o.writes.wallet.value.playerId == w.playerId && WalletOk(o.writes.wallet.value)
      && o.writes.wallet.value.balance == Money(w.balance.minorUnits + t.terms.money.minorUnits, w.balance.currency)
      && o.writes.tx.value.id == t.id && o.writes.tx.value.terms == t.terms
  {
    Endings.SettleCommits(w, t, Credit, env);
  }

  // ---------------------------------------------------------------- the run

  /** Nothing is known under these identifiers. */
  lemma UnusedIds(m: Machine, sid: nat, env: Env)
    requires m.log != [] && env.txId != "" && env.walletId != "" && env.entryId != "" && env.event1 != env.event2
    requires forall id | id in {env.txId, env.walletId, env.entryId, env.event1, env.event2} :: !Used(Db(m.log), id)
    requires forall other | other in m.sessions && other != sid :: m.sessions[other].locks.Keys !! OwnIdLocks(env)
    ensures FreshIds(m, sid, env)
  {
    hide Used;
  }

  /** The database after the opening: one empty wallet and nothing else. */
  const PURSE := WalletRow("wallet", "player", Money(0, "BRL"), 1, 0, 0)
  const OPENED := Apply(EMPTY, Writes(Some(PURSE), None, None, [], None))

  lemma OpeningLeaves()
    ensures OutcomeOf(EMPTY, OpenAccount("player", Money(0, "BRL")), OPENING).Committed?
    ensures Left(EMPTY, OutcomeOf(EMPTY, OpenAccount("player", Money(0, "BRL")), OPENING), None) == OPENED
  {
  }

  lemma OpenedIsPlain()
    ensures Plain(OPENED, BET, BETTING, PURSE) && Plain(OPENED, WIN, WINNING, PURSE)
    ensures forall id | id in OPENED.txs || id in OPENED.wallets :: id == "wallet"
    ensures OPENED.ledger == [] && OPENED.outbox == [] && OPENED.inbox == map[]
  {
  }

  /** A session that is done holds nothing. */
  lemma DoneHoldsNothing(m: Machine, sid: nat)
    requires Reachable(m) && sid in m.sessions && m.sessions[sid].phase.Done?
    ensures m.log != [] && m.sessions[sid].locks == map[]
  {
    hide Reachable, StoreInv, Extends, Running, PhaseOk;
    Safety.ReachableSafe(m);
    assert SessionOk(m.log, m.sessions[sid]);
  }

  /** First part: the wallet is open. */
  lemma WalletOpened() returns (m: Machine)
    ensures Reachable(m) && m.log != [] && Db(m.log) == OPENED && m.sessions.Keys == {0} && m.sessions[0].locks == map[]
  {
    hide Reachable, OwnLocks, OutcomeOf, Left, IdLocks;
    assert Reachable(INIT) by { InitReachable(); }
    UnusedIds(INIT, 0, OPENING);
    m := UnhinderedCallsComplete(INIT, 0, OpenAccount("player", Money(0, "BRL")), OPENING);
    OpeningLeaves();
    DoneHoldsNothing(m, 0);
  }

  lemma InitReachable()
    ensures Reachable(INIT)
  {
    assert IsRun([INIT]);
  }

  lemma OpenedUsesOnlyWallet(id: Id)
    requires id != "wallet"
    ensures !Used(OPENED, id)
  {
    OpenedIsPlain();
  }

  /** Second part: the bet has been decided on the empty wallet, and waits to commit. */
  lemma BetDecided() returns (m: Machine)
    ensures Reachable(m) && m.log != [] && Db(m.log) == OPENED && m.sessions.Keys == {0, 1} && m.sessions[0].locks == map[]
    ensures var s := m.sessions[1];
      && s.op == HttpCall(BET) && s.env == BETTING && s.phase.Decided? && s.phase.out.status == Rejected
      && s.locks.Keys <= OwnLocks(OPENED, HttpCall(BET), BETTING) && forall x :: WalletLock(x) !in s.locks
  {
    hide Reachable, OwnLocks, Attempt, IdLocks;
    var m0 := WalletOpened();
    forall id | id in {BETTING.txId, BETTING.walletId, BETTING.entryId, BETTING.event1, BETTING.event2}
      ensures !Used(OPENED, id)
    {
      OpenedUsesOnlyWallet(id);
    }
    UnusedIds(m0, 1, BETTING);
    var m1, s := ComesToDecision(m0, 1, HttpCall(BET), BETTING);
    m := m1;
    OpenedIsPlain();
    BetByBalance(OPENED, BET, BETTING, PURSE);
    RejectedHoldsNoWallet(s, Attempt(OPENED, BET, BETTING));
  }

  lemma RejectedHoldsNoWallet(s: Session, o: Outcome)
    requires o.Committed? && o.writes.wallet == None && EndsLike(s, o, None) && Thrifty(s)
    ensures s.phase.Decided? && s.phase.out == o.out && forall x :: WalletLock(x) !in s.locks
  {
  }

  /** The two requests want different things locked, but for the wallet. */
  lemma LocksApart(locks: set<Lock>)
    requires locks <= OwnLocks(OPENED, HttpCall(BET), BETTING) && forall x :: WalletLock(x) !in locks
    ensures locks !! OwnLocks(OPENED, HttpCall(WIN), WINNING) && locks !! OwnIdLocks(WINNING)
  {
  }

  /** Third part: a win has been committed meanwhile. */
  lemma WinCommitted() returns (m: Machine)
    ensures Reachable(m) && m.log != [] && 1 in m.sessions
    ensures var s := m.sessions[1]; s.op == HttpCall(BET) && s.env == BETTING && s.phase.Decided? && s.phase.out.status == Rejected
    ensures Attempt(OPENED, WIN, WINNING).Committed? && Db(m.log) == Apply(OPENED, Attempt(OPENED, WIN, WINNING).writes.(inbox := None))
  {
    hide Reachable, OwnLocks, Attempt, IdLocks, Apply, Used, OwnIdLocks, FreshIds, Plain;
    var m1 := BetDecided();
    LocksApart(m1.sessions[1].locks.Keys);
    forall id | id in {WINNING.txId, WINNING.walletId, WINNING.entryId, WINNING.event1, WINNING.event2}
      ensures !Used(OPENED, id)
    {
      OpenedUsesOnlyWallet(id);
    }
    UnusedIds(m1, 2, WINNING);
    m := UnhinderedCallsComplete(m1, 2, HttpCall(WIN), WINNING);
    OpenedIsPlain();
    WinCredits(OPENED, WIN, WINNING, PURSE);
  }

  /** After the win the bet, run alone, would be processed. */
  lemma BetWouldPass(db: Store)
    requires Attempt(OPENED, WIN, WINNING).Committed? && db == Apply(OPENED, Attempt(OPENED, WIN, WINNING).writes.(inbox := None))
    requires Indexed(db)
    ensures Attempt(db, BET, BETTING).Committed? && Attempt(db, BET, BETTING).out.status == Processed
  {
    hide Attempt, Indexed;
    OpenedIsPlain();
    WinCredits(OPENED, WIN, WINNING, PURSE);
    var w := db.wallets["wallet"];
    assert Plain(db, BET, BETTING, w);
    BetByBalance(db, BET, BETTING, w);
  }

  /** Rejections are not serialisable: in some reachable state a bet commits as rejected although, run alone on that very
      state, it would be processed. */
  lemma RejectionNotSerialisable()
    ensures exists m, sid, m' ::
      && Reachable(m) && Next(m, Commit(sid), m') && m.sessions[sid].phase.out.status == Rejected
      && !Interleaving.ActsAlone(Db(m.log), m.sessions[sid], Db(m'.log))
  {
    hide Reachable, Attempt, Apply, StoreInv, Extends, SessionOk;
    var m := WinCommitted();
    var s := m.sessions[1];
    var m' := AfterCommit(m, 1);
    assert Next(m, Commit(1), m');
    Safety.ReachableSafe(m);
    GoodFacts(Db(m.log)) by { assert StoreInv(Db(m.log)); }
    BetWouldPass(Db(m.log));
  }
}
