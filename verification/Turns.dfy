/** The resume worker's turns: rows that were tried stand back for the retry delay, so the thirty-two places of a listing
    come round to every due row. */
module Turns {
  import opened Wrappers
  import opened Wallet
  import opened WagerTx
  import opened Ledger
  import opened Store
  import opened Process
  import opened Invariants
  import opened Expiry
  import Int64
  import Backoff
  import Endings
  import Atomic
  import LateReference
  import Decisions

  /** The row's next try is at this time or later. */
  ghost predicate NotBefore(s: Store, id: Id, at: Time) {
    id in s.txs && s.txs[id].nextRetryAt.Some? && s.txs[id].nextRetryAt.value >= at
  }

  /** Nobody goes back to waiting, and the next try of a waiting row is never moved forward. */
  ghost predicate OnlyPostponed(s: Store, s': Store) {
    && NoReturn(s, s')
    && forall id, at | id in s.txs && Waits(s', id) && NotBefore(s, id, at) :: NotBefore(s', id, at)
  }

  /** Every row the pass listed is settled when it ends, or not due again before the delay is over; a call that fails
      leaves its row due, and the pass is none of these (`TryPostpones`, `TryFailsExactlyWhen`). */
  ghost predicate AllTried(p: Pass, delay: int) {
    && OldestOf(p.before, Due(p.before, p.now), LIST_LIMIT, p.ids)
    && OnlyPostponed(p.before, p.after)
    && forall id | id in p.ids :: !Waits(p.after, id) || NotBefore(p.after, id, p.now + delay)
  }

  /** Successive passes that tried all they listed, with any commits in between that move no try forward. */
  ghost predicate Rounds(ps: seq<Pass>, delay: int)
    requires ps != []
  {
    var n := |ps| - 1;
    && AllTried(ps[n], delay)
    && (n > 0 ==> Rounds(ps[..n], delay) && OnlyPostponed(ps[n - 1].after, ps[n].before))
  }

  /** All of them lie within one retry delay. */
  ghost predicate WithinDelay(ps: seq<Pass>, start: Time, delay: int) {
    forall p | p in ps :: start <= p.now < start + delay
  }

  // ---------------------------------------------------------------- rows that were tried

  lemma StillPostponed(s: Store, s': Store, id: Id, at: Time)
    requires OnlyPostponed(s, s') && id in s.txs && (!Waits(s, id) || NotBefore(s, id, at))
    ensures id in s'.txs && (!Waits(s', id) || NotBefore(s', id, at))
  {
  }

  lemma ListedExist(p: Pass, delay: int)
    requires AllTried(p, delay)
    ensures forall x | x in p.ids :: x in p.before.txs && x in p.after.txs
  {
    assert forall x | x in p.ids :: x in Due(p.before, p.now);
  }

  lemma {:induction false} ListedStandBack(ps: seq<Pass>, start: Time, delay: int, next: Store)
    requires ps != [] && Rounds(ps, delay) && WithinDelay(ps, start, delay) && OnlyPostponed(ps[|ps| - 1].after, next)
    ensures forall x | x in Listed(ps) :: x in next.txs && (!Waits(next, x) || NotBefore(next, x, start + delay))
  {
    hide OldestOf, Waits, NotBefore, OnlyPostponed;
    var n := |ps| - 1;
    var front, last := ps[..n], ps[n];
    ListedExist(last, delay);
    assert last in ps;
    if n > 0 {
      ListedStandBack(front, start, delay, last.before);
    }
    assert Listed(ps) == Listed(front) + ListedBy(last);
    forall x | x in Listed(ps)
      ensures x in next.txs && (!Waits(next, x) || NotBefore(next, x, start + delay))
    {
      if x in ListedBy(last) {
        LaterStill(last.after, x, start + delay, last.now + delay);
      } else if n > 0 {
        StillPostponed(last.before, last.after, x, start + delay);
      }
      StillPostponed(last.after, next, x, start + delay);
    }
  }

  lemma LaterStill(s: Store, id: Id, at: Time, later: Time)
    requires at <= later && (!Waits(s, id) || NotBefore(s, id, later))
    ensures !Waits(s, id) || NotBefore(s, id, at)
  {
  }

  /** A due row that a pass leaves out saw thirty-two older ones take the places. */
  lemma LeftOutSeesElders(p: Pass, delay: int, id: Id)
    requires AllTried(p, delay) && id in Due(p.before, p.now) && id !in p.ids
    ensures |ListedBy(p)| == LIST_LIMIT && ListedBy(p) <= Older(p.before, id)
  {
    Distinct(p.ids);
    forall x | x in ListedBy(p)
      ensures x in Older(p.before, id)
    {
      assert x in Due(p.before, p.now);
    }
  }

  lemma NotDueBefore(s: Store, id: Id, at: Time, now: Time)
    requires now < at && (!Waits(s, id) || NotBefore(s, id, at))
    ensures id !in Due(s, now)
  {
  }

  lemma ListedWereDue(p: Pass, delay: int)
    requires AllTried(p, delay)
    ensures ListedBy(p) <= Due(p.before, p.now)
  {
    assert forall x | x in p.ids :: x in Due(p.before, p.now);
  }

  /** What was tried within the delay is not listed again. */
  lemma ListedApart(front: seq<Pass>, last: Pass, start: Time, delay: int)
    requires front != [] && Rounds(front, delay) && WithinDelay(front, start, delay) && OnlyPostponed(front[|front| - 1].after, last.before)
    requires AllTried(last, delay) && last.now < start + delay
    ensures Listed(front) !! ListedBy(last)
  {
    hide AllTried, Rounds, WithinDelay, OnlyPostponed, Due, NotBefore, Waits, Listed, ListedBy;
    ListedStandBack(front, start, delay, last.before);
    ListedWereDue(last, delay);
    forall x | x in Listed(front)
      ensures x !in ListedBy(last)
    {
      NotDueBefore(last.before, x, start + delay, last.now);
    }
  }

  lemma CountAdded(front: set<Id>, last: set<Id>, elders: set<Id>, older: set<Id>, n: nat)
    requires front !! last && |front| == LIST_LIMIT * n && |last| == LIST_LIMIT && front <= elders && last <= older
    ensures |front + last| == LIST_LIMIT * (n + 1) && front + last <= elders + older
  {
  }

  /** Each pass that leaves the due row out tries thirty-two older ones that no other of the passes tried. */
  lemma {:induction false} LeftOutByAll(ps: seq<Pass>, start: Time, delay: int, id: Id)
    requires ps != [] && Rounds(ps, delay) && WithinDelay(ps, start, delay)
    requires forall p | p in ps :: id in Due(p.before, p.now) && id !in p.ids
    ensures |Listed(ps)| == LIST_LIMIT * |ps| && Listed(ps) <= Elders(ps, id)
  {
    hide AllTried, Older, OnlyPostponed, Due, NotBefore, ListedBy;
    var n := |ps| - 1;
    var front, last := ps[..n], ps[n];
    assert last in ps;
    LeftOutSeesElders(last, delay, id);
    if n == 0 {
      assert front == [];
    } else {
      LeftOutByAll(front, start, delay, id);
      ListedApart(front, last, start, delay);
    }
    CountAdded(Listed(front), ListedBy(last), Elders(front, id), Older(last.before, id), n);
  }

  // ---------------------------------------------------------------- the theorems

  /** A row that is due whenever a pass begins is tried by one of them, as soon as the passes within one retry delay
      exceed a thirty-second of the older rows they meet. */
  lemma TriedOnceEldersRunOut(ps: seq<Pass>, start: Time, delay: int, id: Id)
    requires ps != [] && Rounds(ps, delay) && WithinDelay(ps, start, delay) && (forall p | p in ps :: id in Due(p.before, p.now))
    requires |ps| >= |Elders(ps, id)| / LIST_LIMIT + 1
    ensures exists p | p in ps :: id in p.ids
  {
    hide Rounds, WithinDelay, Due, Listed, Elders;
    if forall p | p in ps :: id !in p.ids {
      LeftOutByAll(ps, start, delay, id);
      SubsetCount(Listed(ps), Elders(ps, id));
    }
  }

  lemma {:induction false} RoundsSucceed(ps: seq<Pass>, delay: int)
    requires ps != [] && Rounds(ps, delay)
    ensures Succession(ps)
  {
    hide OldestOf, NoReturn, NotBefore, Waits;
    if |ps| > 1 {
      RoundsSucceed(ps[..|ps| - 1], delay);
    }
  }

  /** When nobody overtakes, a due row with `p` older ones waiting is tried within p / 32 + 1 such passes. */
  lemma TriedWithinPasses(ps: seq<Pass>, start: Time, delay: int, id: Id)
    requires ps != [] && Rounds(ps, delay) && WithinDelay(ps, start, delay) && (forall p | p in ps :: id in Due(p.before, p.now))
    requires NobodyOvertakes(ps, id) && |ps| >= |Older(ps[0].before, id)| / LIST_LIMIT + 1
    ensures exists p | p in ps :: id in p.ids
  {
    hide Rounds, WithinDelay, Older, Succession;
    RoundsSucceed(ps, delay);
    EldersAreThere(ps, id);
    SubsetCount(Elders(ps, id), Older(ps[0].before, id));
    TriedOnceEldersRunOut(ps, start, delay, id);
  }

  // ---------------------------------------------------------------- what one try does

  const SHORTEST_DELAY: int := 2 * SECOND

  /** However often a row was tried, waiting again counts one more try and postpones it, by two seconds at least and by
      thirty from the fifth try on; nothing else of it changes. */
  lemma WaitPostpones(t: TxRow, env: Env)
    requires t.status == PendingReference
    ensures Wait(t, env).Committed? && Wait(t, env).writes.tx.Some?
    ensures var t' := Wait(t, env).writes.tx.value;
      && t'.nextRetryAt == Some(env.now + ReferenceRetryBackoff(t.retryAttempts + 1))
      && t' == t.(retryAttempts := t.retryAttempts + 1, nextRetryAt := t'.nextRetryAt, updatedAt := env.now)
    ensures ReferenceRetryBackoff(t.retryAttempts + 1) >= if t.retryAttempts >= 4 then 30 * SECOND else SHORTEST_DELAY
  {
    RetryDelayMonotone(1, t.retryAttempts + 1);
    RetryDelayExact(1);
    if t.retryAttempts >= 4 {
      RetryDelayMonotone(5, t.retryAttempts + 1);
      RetryDelayExact(5);
    }
  }

  /** A request that is parked is due at once, whatever the worker's clock, and stale strictly after its time-to-live. */
  lemma ParkedIsDueAtOnce(s: Store, i: Input, env: Env, ref: Option<TxRow>, now: Time, ttl: int)
    requires Indexed(s) && Rows(s) && Endings.Fresh(s, env) && Decisions.IsAdmissible(s, i, env)
    requires var w := s.wallets[i.walletId]; var t := Decisions.Asked(i, w, env).terms;
      Decisions.IsNamed(s, t, ref) && Decisions.OnArrival(s, t, ref, w) == Decisions.Waits
    ensures var s' := Atomic.After(s, Attempt(s, i, env));
      && env.txId in Due(s', now)
      && (env.txId in Stale(s', now - ttl) <==> now > env.now + ttl)
  {
    hide Attempt, Decisions.OnArrival, Decisions.IsNamed, Decisions.IsAdmissible;
    Decisions.ArrivalDecided(s, i, env, ref);
  }

  /** A row that waited again is due from exactly its next try on: min(2^n, 30) seconds later, after `n` tries. */
  lemma WaitedIsDueExactlyFrom(s: Store, id: Id, env: Env, ref: Option<TxRow>, now: Time)
    requires Indexed(s) && Rows(s) && Endings.Fresh(s, env) && Waits(s, id) && Decisions.IsNamed(s, s.txs[id].terms, ref)
    requires ref.None? || ref.value.status != Processed
    ensures var s', n := Atomic.After(s, Resume(s, id, env)), s.txs[id].retryAttempts + 1;
      id in Due(s', now) <==> now >= env.now + (if n <= 4 then Backoff.Pow2(n) else 30) * SECOND
  {
    hide Resume, Decisions.IsNamed, Decisions.Carries, Decisions.OnResume, Due, Rows, Endings.Fresh, Atomic.After, ReferenceRetryBackoff;
    Decisions.FreshEntry(s, env);
    Decisions.ResumeDecided(s, id, env, ref);
    RetryDelayExact(s.txs[id].retryAttempts + 1);
    UnderItsId(s, id);
    var t := s.txs[id];
    var w := s.wallets[t.terms.walletId];
    WaitsOn(s, t.terms, ref, w);
    WaitedWrites(Resume(s, id, env), t, ref, w, env);
    WrittenIsDue(s, Resume(s, id, env), id, now);
  }

  lemma WaitsOn(s: Store, t: Terms, ref: Option<TxRow>, w: WalletRow)
    requires ref.None? || ref.value.status != Processed
    ensures Decisions.OnResume(s, t, ref, w) == Decisions.Waits
  {
  }

  lemma WaitedWrites(o: Outcome, t: TxRow, ref: Option<TxRow>, w: WalletRow, env: Env)
    requires t.status == PendingReference && Decisions.Carries(o, Decisions.Waits, t, ref, w, env)
    ensures o.Committed? && o.writes.tx.Some?
    ensures var row := o.writes.tx.value;
      row.id == t.id && row.status == PendingReference && row.nextRetryAt == Some(env.now + ReferenceRetryBackoff(t.retryAttempts + 1))
  {
    hide ReferenceRetryBackoff;
  }

  /** A row just written to wait is due exactly when it has no next try, or that has come. */
  lemma WrittenIsDue(s: Store, o: Outcome, id: Id, now: Time)
    requires o.Committed? && o.writes.tx.Some? && o.writes.tx.value.id == id && o.writes.tx.value.status == PendingReference
    ensures var next := o.writes.tx.value.nextRetryAt;
      id in Due(Atomic.After(s, o), now) <==> next.None? || next.value <= now
  {
  }

  /** A try of a due row settles the row or postpones it, unless it fails: then the row keeps its place. */
  lemma TryPostpones(s: Store, id: Id, now: Time, env: Env)
    requires Indexed(s) && id in Due(s, now) && now <= env.now
    ensures var s' := Atomic.After(s, Resume(s, id, env));
      (!Waits(s', id) || NotBefore(s', id, now + SHORTEST_DELAY)) <==> !Resume(s, id, env).Refused?
  {
    hide Wait, WithReference, FindByOp, Indexed;
    var t := s.txs[id];
    UnderItsId(s, id);
    WaitPostpones(t, env);
    var found := FindByOp(s, t.terms.providerId, t.terms.referenceExternalId);
    if found.Some? && t.terms.walletId in s.wallets {
      LateReference.WithReferenceEnds(s, s.wallets[t.terms.walletId], t, found.value, env);
    }
  }

  lemma UnderItsId(s: Store, id: Id)
    requires Indexed(s) && id in s.txs
    ensures s.txs[id].id == id
  {
  }

  /** Everything about the row's reference is in order, and the credit does not fit the wallet. */
  predicate CreditOverflows(s: Store, t: TxRow)
    requires t.terms.walletId in s.wallets
  {
    var found := FindByOp(s, t.terms.providerId, t.terms.referenceExternalId);
    && found.Some? && found.value.status == Processed
    && ValidateReference(t.terms, found.value.terms) == NoCode
    && !((t.terms.kind == Refund || t.terms.kind == Rollback) && HasProcessedReversal(s, found.value.id))
    && DirectionOf(t.terms.kind, Some(found.value.terms.kind)) == Some(Credit)
    && !Int64.Fits(s.wallets[t.terms.walletId].balance.minorUnits + t.terms.money.minorUnits)
  }

  /** The row, its wallet and its terms as every good state has them. */
  ghost predicate InOrder(t: TxRow, w: WalletRow) {
    && t.status == PendingReference && TermsOk(t.terms) && t.terms.referenceExternalId != "" && t.terms.kind != Opening
    && t.id != "" && WalletOk(w) && w.balance.currency == t.terms.money.currency
  }

  lemma WaitingInOrder(s: Store, id: Id)
    requires Indexed(s) && Rows(s) && Waits(s, id)
    ensures s.txs[id].id == id && s.txs[id].terms.walletId in s.wallets && InOrder(s.txs[id], s.wallets[s.txs[id].terms.walletId])
  {
    assert RowOk(s, s.txs[id]);
  }

  /** A movement that is in order fails only as a shortfall of a debit, or as an overflow of a credit. */
  lemma MovementFails(w: WalletRow, t: TxRow, direction: Direction, now: Time)
    requires InOrder(t, w)
    ensures direction == Debit && Moved(w, direction, t.terms.money, now).Err? ==>
      Moved(w, direction, t.terms.money, now).error == ErrInsufficientBalance
    ensures direction == Credit ==>
      && (Moved(w, direction, t.terms.money, now).Err? <==> !Int64.Fits(w.balance.minorUnits + t.terms.money.minorUnits))
      && Moved(w, direction, t.terms.money, now) != Err(ErrInsufficientBalance)
  {
  }

  lemma FinishFails(w: WalletRow, t: TxRow, ref: TxRow, env: Env)
    requires InOrder(t, w) && env.entryId != ""
    ensures Finish(w, t, Some(ref), env).Refused? <==>
      DirectionOf(t.terms.kind, Some(ref.terms.kind)) == Some(Credit) && !Int64.Fits(w.balance.minorUnits + t.terms.money.minorUnits)
  {
    hide Moved, Settle, WalletOk;
    var direction := DirectionOf(t.terms.kind, Some(ref.terms.kind));
    assert direction.Some?;
    MovementFails(w, t, direction.value, env.now);
    if Moved(w, direction.value, t.terms.money, env.now).Ok? {
      Endings.SettleCommits(w, t, direction.value, env);
    }
  }

  /** A try fails, and keeps its row in its place, exactly when the credit does not fit the wallet. */
  lemma TryFailsExactlyWhen(s: Store, id: Id, env: Env)
    requires Indexed(s) && Rows(s) && Endings.Fresh(s, env) && Waits(s, id)
    ensures s.txs[id].terms.walletId in s.wallets
    ensures Resume(s, id, env).Refused? <==> CreditOverflows(s, s.txs[id])
  {
    hide Wait, Finish, FindByOp, HasProcessedReversal, ValidateReference, Rows, InOrder, Reject;
    WaitingInOrder(s, id);
    var t, w := s.txs[id], s.wallets[s.txs[id].terms.walletId];
    WaitPostpones(t, env);
    var found := FindByOp(s, t.terms.providerId, t.terms.referenceExternalId);
    if found.Some? && found.value.status == Processed {
      FoundHasId(s, t);
      var code := ValidateReference(t.terms, found.value.terms);
      RejectCommits(t, w, code, env);
      RejectCommits(t, w, ReferenceAlreadyReversed, env);
      var r := ReferenceResolved(t, found.value.id, env.now).value;
      StillInOrder(t, r, w);
      FinishFails(w, r, found.value, env);
    }
  }

  lemma FoundHasId(s: Store, t: TxRow)
    requires Indexed(s)
    ensures var found := FindByOp(s, t.terms.providerId, t.terms.referenceExternalId); found.Some? ==> found.value.id != ""
  {
  }

  lemma RejectCommits(t: TxRow, w: WalletRow, code: FailureCode, env: Env)
    requires t.status == PendingReference
    ensures code != NoCode ==> Reject(t, w, code, env).Committed?
  {
  }

  lemma StillInOrder(t: TxRow, r: TxRow, w: WalletRow)
    requires InOrder(t, w) && r.terms == t.terms && r.id == t.id && r.status == t.status
    ensures InOrder(r, w)
  {
  }
}
