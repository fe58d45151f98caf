/** Waiting rows do not wait for ever: how many expiry passes a row can survive, and the retry delay between. */
module Expiry {
  import opened Wrappers
  import opened Wallet
  import opened WagerTx
  import opened Store
  import opened Process
  import opened Invariants
  import Backoff
  import Paging

  // ---------------------------------------------------------------- the two listings

  const LIST_LIMIT := 32

  function AgeKey(s: Store, id: Id): Paging.Key
    requires id in s.txs
  {
    Paging.Key(s.txs[id].terms.createdAt, id)
  }

  /** Rows that have waited since before the cutoff. */
  ghost function Stale(s: Store, cutoff: Time): set<Id> {
    set id | id in s.txs && s.txs[id].status == PendingReference && s.txs[id].terms.createdAt < cutoff
  }

  /** Rows whose next attempt is due. */
  ghost function Due(s: Store, now: Time): set<Id> {
    set id | id in s.txs && s.txs[id].status == PendingReference
             && (s.txs[id].nextRetryAt == None || s.txs[id].nextRetryAt.value <= now)
  }

  /** The ids are the oldest of the candidates, up to the limit. */
  ghost predicate OldestOf(s: Store, candidates: set<Id>, limit: nat, ids: seq<Id>)
    requires candidates <= s.txs.Keys
  {
    && (forall i, j | 0 <= i < j < |ids| :: ids[i] != ids[j])
    && (forall id | id in ids :: id in candidates)
    && |ids| <= limit
    && (forall id | id in candidates && id !in ids ::
          |ids| == limit && forall x | x in ids :: Paging.KeyLess(AgeKey(s, x), AgeKey(s, id)))
  }

  // ---------------------------------------------------------------- passes

  ghost predicate Waits(s: Store, id: Id) {
    id in s.txs && s.txs[id].status == PendingReference
  }

  /** Rows stay, with their terms, and a row that is waiting later was waiting before. */
  ghost predicate NoReturn(s: Store, s': Store) {
    forall id | id in s.txs :: id in s'.txs && s'.txs[id].terms == s.txs[id].terms && (Waits(s', id) ==> Waits(s, id))
  }

  /** Committed states never send a settled row back to waiting. */
  lemma GrowthNeverReturns(s: Store, s': Store)
    requires RowsGrow(s, s') && Rows(s)
    ensures NoReturn(s, s')
  {
    forall id | id in s.txs
      ensures id in s'.txs && s'.txs[id].terms == s.txs[id].terms && (Waits(s', id) ==> Waits(s, id))
    {
      assert TxGrows(s.txs[id], s'.txs[id]) && RowOk(s, s.txs[id]);
    }
  }

  lemma NoReturnTransitive(a: Store, b: Store, c: Store)
    requires NoReturn(a, b) && NoReturn(b, c)
    ensures NoReturn(a, c)
  {
  }

  /** One pass of the expiry worker: its clock, what it met, what it listed, what it left. */
  datatype Pass = Pass(now: Time, before: Store, ids: seq<Id>, after: Store)

  /** Every row the pass listed is settled when it ends, by the pass or by somebody else. */
  ghost predicate Successful(p: Pass, ttl: int) {
    && OldestOf(p.before, Stale(p.before, p.now - ttl), LIST_LIMIT, p.ids)
    && NoReturn(p.before, p.after)
    && (forall id | id in p.ids :: !Waits(p.after, id))
  }

  /** Successive successful passes, with any commits before, between and during them. */
  ghost predicate Passes(ps: seq<Pass>, ttl: int)
    requires ps != []
  {
    var n := |ps| - 1;
    && Successful(ps[n], ttl)
    && (n > 0 ==> Passes(ps[..n], ttl) && NoReturn(ps[n - 1].after, ps[n].before))
  }

  /** The pass begins past the row's time. */
  ghost predicate Overdue(p: Pass, ttl: int, id: Id) {
    id in p.before.txs && p.before.txs[id].terms.createdAt < p.now - ttl
  }

  /** The waiting rows that are older than this one. */
  ghost function Older(s: Store, id: Id): set<Id> {
    set x | x in s.txs && id in s.txs && Waits(s, x) && Paging.KeyLess(AgeKey(s, x), AgeKey(s, id))
  }

  /** The waiting rows older than this one that the passes meet, those that arrive between them included. */
  ghost function Elders(ps: seq<Pass>, id: Id): set<Id> {
    if ps == [] then {} else Elders(ps[..|ps| - 1], id) + Older(ps[|ps| - 1].before, id)
  }

  /** What one pass lists, and what the passes list together. */
  ghost function ListedBy(p: Pass): set<Id> {
    set x | x in p.ids
  }

  ghost function Listed(ps: seq<Pass>): set<Id> {
    if ps == [] then {} else Listed(ps[..|ps| - 1]) + ListedBy(ps[|ps| - 1])
  }

  lemma {:induction false} Distinct(ids: seq<Id>)
    requires forall i, j | 0 <= i < j < |ids| :: ids[i] != ids[j]
    ensures |set x | x in ids| == |ids|
  {
    if ids == [] {
      assert (set x | x in ids) == {};
    } else {
      var front, last := ids[..|ids| - 1], ids[|ids| - 1];
      Distinct(front);
      assert (set x | x in ids) == (set x | x in front) + {last};
    }
  }

  lemma {:induction false} SubsetCount<T>(a: set<T>, b: set<T>)
    requires a <= b
    ensures |a| <= |b|
  {
    if a != {} {
      var x :| x in a;
      SubsetCount(a - {x}, b - {x});
    }
  }

  /** A row that survives a pass past its time saw thirty-two older ones go. */
  lemma SurvivorLosesElders(p: Pass, ttl: int, id: Id)
    requires Successful(p, ttl) && Overdue(p, ttl, id) && Waits(p.before, id) && Waits(p.after, id)
    ensures |ListedBy(p)| == LIST_LIMIT && ListedBy(p) <= Older(p.before, id)
  {
    assert id in Stale(p.before, p.now - ttl) && id !in p.ids;
    Distinct(p.ids);
    forall x | x in ListedBy(p)
      ensures x in Older(p.before, id)
    {
      assert x in Stale(p.before, p.now - ttl);
    }
  }

  /** What a pass has listed is settled for good. */
  lemma {:induction false} ListedStaySettled(ps: seq<Pass>, ttl: int, next: Store)
    requires ps != [] && Passes(ps, ttl) && NoReturn(ps[|ps| - 1].after, next)
    ensures forall x | x in Listed(ps) :: x in next.txs && !Waits(next, x)
  {
    hide OldestOf;
    var n := |ps| - 1;
    var last := ps[n];
    ListedExist(last, ttl);
    if n > 0 {
      ListedStaySettled(ps[..n], ttl, last.before);
    } else {
      assert ps[..n] == [];
    }
  }

  lemma ListedExist(p: Pass, ttl: int)
    requires Successful(p, ttl)
    ensures forall x | x in p.ids :: x in p.before.txs
  {
    assert forall x | x in p.ids :: x in Stale(p.before, p.now - ttl);
  }

  /** Waiting at the end of a pass means waiting at its beginning and at the end of the one before. */
  lemma WaitingThroughout(prev: Pass, last: Pass, ttl: int, id: Id)
    requires Successful(prev, ttl) && Successful(last, ttl) && NoReturn(prev.after, last.before)
    requires id in prev.before.txs && Waits(last.after, id)
    ensures Waits(last.before, id) && Waits(prev.after, id)
  {
    hide OldestOf;
  }

  /** Whatever arrives meanwhile, each pass a row survives settles thirty-two older ones that no other pass settled. */
  lemma {:induction false} EldersAfterPasses(ps: seq<Pass>, ttl: int, id: Id)
    requires ps != [] && Passes(ps, ttl) && (forall p | p in ps :: Overdue(p, ttl, id)) && Waits(ps[|ps| - 1].after, id)
    ensures |Listed(ps)| == LIST_LIMIT * |ps| && Listed(ps) <= Elders(ps, id)
  {
    hide Successful, Older, NoReturn, Overdue;
    var n := |ps| - 1;
    var front, last := ps[..n], ps[n];
    WaitsAtStart(last, ttl, id);
    SurvivorLosesElders(last, ttl, id);
    if n == 0 {
      assert front == [];
    } else {
      InBefore(ps[n - 1], ttl, id);
      WaitingThroughout(ps[n - 1], last, ttl, id);
      EldersAfterPasses(front, ttl, id);
      ListedStaySettled(front, ttl, last.before);
      OlderWait(last.before, id);
      assert Listed(front) !! ListedBy(last);
    }
  }

  lemma WaitsAtStart(p: Pass, ttl: int, id: Id)
    requires Successful(p, ttl) && Overdue(p, ttl, id) && Waits(p.after, id)
    ensures Waits(p.before, id)
  {
    hide OldestOf;
  }

  lemma InBefore(p: Pass, ttl: int, id: Id)
    requires Overdue(p, ttl, id)
    ensures id in p.before.txs
  {
  }

  lemma OlderWait(s: Store, id: Id)
    ensures forall x | x in Older(s, id) :: Waits(s, x)
  {
  }

  /** A waiting row is settled as soon as the successful passes past its time exceed a thirty-second of the older rows
      they meet. Nothing is asked of what commits between and during the passes. */
  lemma SettledOnceEldersRunOut(ps: seq<Pass>, ttl: int, id: Id)
    requires ps != [] && Passes(ps, ttl) && (forall p | p in ps :: Overdue(p, ttl, id))
    requires |ps| >= |Elders(ps, id)| / LIST_LIMIT + 1
    ensures !Waits(ps[|ps| - 1].after, id)
  {
    hide Successful, Passes, Overdue;
    if Waits(ps[|ps| - 1].after, id) {
      EldersAfterPasses(ps, ttl, id);
      SubsetCount(Listed(ps), Elders(ps, id));
    }
  }

  // ---------------------------------------------------------------- newcomers

  /** Rows that the later passes meet and the first did not are not older than this one. */
  ghost predicate NobodyOvertakes(ps: seq<Pass>, id: Id)
    requires ps != []
  {
    forall p, x | p in ps && x in p.before.txs && x !in ps[0].before.txs && id in p.before.txs ::
      !Paging.KeyLess(AgeKey(p.before, x), AgeKey(p.before, id))
  }

  /** Passes one after the other, of whatever kind, with any commits in between. */
  ghost predicate Succession(ps: seq<Pass>)
    requires ps != []
  {
    var n := |ps| - 1;
    && NoReturn(ps[n].before, ps[n].after)
    && (n > 0 ==> Succession(ps[..n]) && NoReturn(ps[n - 1].after, ps[n].before))
  }

  lemma {:induction false} PassesSucceed(ps: seq<Pass>, ttl: int)
    requires ps != [] && Passes(ps, ttl)
    ensures Succession(ps)
  {
    hide OldestOf, NoReturn;
    if |ps| > 1 {
      PassesSucceed(ps[..|ps| - 1], ttl);
    }
  }

  lemma {:induction false} NobodyReturns(ps: seq<Pass>)
    requires ps != [] && Succession(ps)
    ensures NoReturn(ps[0].before, ps[|ps| - 1].before)
  {
    hide NoReturn;
    var n := |ps| - 1;
    if n == 0 {
      NoReturnReflexive(ps[0].before);
    } else {
      NobodyReturns(ps[..n]);
      NoReturnTransitive(ps[0].before, ps[n - 1].before, ps[n - 1].after);
      NoReturnTransitive(ps[0].before, ps[n - 1].after, ps[n].before);
    }
  }

  lemma NoReturnReflexive(s: Store)
    ensures NoReturn(s, s)
  {
  }

  lemma OlderShrinks(s: Store, s': Store, id: Id)
    requires NoReturn(s, s') && id in s.txs
    requires forall x | x in s'.txs && x !in s.txs :: !Paging.KeyLess(AgeKey(s', x), AgeKey(s', id))
    ensures Older(s', id) <= Older(s, id)
  {
  }

  lemma {:induction false} EldersAreThere(ps: seq<Pass>, id: Id)
    requires ps != [] && Succession(ps) && (forall p | p in ps :: id in p.before.txs) && NobodyOvertakes(ps, id)
    ensures Elders(ps, id) <= Older(ps[0].before, id)
  {
    hide NoReturn, Older;
    var n := |ps| - 1;
    NobodyReturns(ps);
    assert ps[0] in ps && ps[n] in ps;
    OlderShrinks(ps[0].before, ps[n].before, id);
    if n > 0 {
      EldersAreThere(ps[..n], id);
    } else {
      assert ps[..n] == [];
    }
  }

  /** When nobody overtakes, a row with `p` older ones waiting is settled after p / 32 + 1 passes past its time. */
  lemma SettledWithinPasses(ps: seq<Pass>, ttl: int, id: Id)
    requires ps != [] && Passes(ps, ttl) && (forall p | p in ps :: Overdue(p, ttl, id)) && NobodyOvertakes(ps, id)
    requires |ps| >= |Older(ps[0].before, id)| / LIST_LIMIT + 1
    ensures !Waits(ps[|ps| - 1].after, id)
  {
    hide Passes, Older, Succession;
    PassesSucceed(ps, ttl);
    EldersAreThere(ps, id);
    SubsetCount(Elders(ps, id), Older(ps[0].before, id));
    SettledOnceEldersRunOut(ps, ttl, id);
  }

  /** Attempts read the clock before they insert, so a row may be committed after a pass began and be older than the
      pass; it overtakes nobody unless its attempt took longer than the time-to-live. */
  lemma ArrivalsDoNotOvertake(ps: seq<Pass>, ttl: int, id: Id)
    requires ps != [] && Passes(ps, ttl) && Overdue(ps[0], ttl, id)
    requires forall p, x | p in ps && x in p.before.txs && x !in ps[0].before.txs ::
      p.before.txs[x].terms.createdAt >= ps[0].now - ttl
    ensures NobodyOvertakes(ps, id)
  {
    hide Passes, NoReturn, Succession;
    PassesSucceed(ps, ttl);
    forall p, x | p in ps && x in p.before.txs && x !in ps[0].before.txs && id in p.before.txs
      ensures !Paging.KeyLess(AgeKey(p.before, x), AgeKey(p.before, id))
    {
      var k :| 0 <= k < |ps| && ps[k] == p;
      SuccessionUpTo(ps, k);
      NobodyReturns(ps[..k + 1]);
      TermsStay(ps[0].before, p.before, id);
    }
  }

  lemma TermsStay(s: Store, s': Store, id: Id)
    requires NoReturn(s, s') && id in s.txs
    ensures id in s'.txs && s'.txs[id].terms == s.txs[id].terms
  {
  }

  lemma {:induction false} SuccessionUpTo(ps: seq<Pass>, k: nat)
    requires k < |ps| && Succession(ps)
    ensures Succession(ps[..k + 1])
  {
    hide NoReturn;
    if k + 1 == |ps| {
      assert ps[..k + 1] == ps;
    } else {
      SuccessionUpTo(ps[..|ps| - 1], k);
      assert ps[..|ps| - 1][..k + 1] == ps[..k + 1];
    }
  }

  // ---------------------------------------------------------------- the delay between attempts

  /** The delay before the next attempt at a reference: one second, then 2^n seconds, at most thirty. */
  lemma RetryDelayExact(n: int)
    ensures ReferenceRetryBackoff(n) == (if n < 1 then 1 else if n <= 4 then Backoff.Pow2(n) else 30) * Backoff.SECOND
    ensures n >= 1 ==> ReferenceRetryBackoff(n) == (if Backoff.Pow2(n) < 30 then Backoff.Pow2(n) else 30) * Backoff.SECOND
  {
    if 1 <= n <= 5 {
      assert DoubledSeconds(0) == Backoff.SECOND;
      assert DoubledSeconds(5) == 32 * Backoff.SECOND && DoubledSeconds(4) == 16 * Backoff.SECOND;
    }
    if n >= 5 {
      assert Backoff.Pow2(4) == 16 && Backoff.Pow2(5) == 32;
      Backoff.Pow2Grows(5, n);
    }
  }

  lemma RetryDelayMonotone(a: int, b: int)
    requires a <= b
    ensures Backoff.SECOND <= ReferenceRetryBackoff(a) <= ReferenceRetryBackoff(b) <= 30 * Backoff.SECOND
  {
    RetryDelayExact(a);
    RetryDelayExact(b);
    if 1 <= a {
      Backoff.Pow2Grows(a, b);
    }
  }
}
