/** What the books prove: balance events rebuild the balance in any delivery order, and reconciliation finds no
    difference on any committed state. */
module Audit {
  import opened Wrappers
  import opened Money
  import opened Wallet
  import opened Ledger
  import opened Store
  import opened Invariants
  import opened Machine
  import opened Sessions
  import opened Safety
  import Int64
  import Steps
  import Interleaving
  import Paging

  // ---------------------------------------------------------------- versions

  /** The first version a wallet's balance events carry: its opening is announced only if it was positive. */
  ghost function FirstVersion(s: Store, walletId: Id): nat {
    if OpenedPositive(s, walletId) then 1 else 2
  }

  /** The balance events of a wallet, in commit order, carry exactly its versions from the first on, once each. */
  lemma VersionsAnnounced(s: Store, id: Id)
    requires StoreInv(s) && id in s.wallets
    ensures var evs := BalanceEventsOf(s.outbox, id);
      && |evs| == s.wallets[id].version + 1 - FirstVersion(s, id)
      && (forall i | 0 <= i < |evs| :: evs[i].data.WalletBalanceChanged? && evs[i].data.walletVersion == FirstVersion(s, id) + i)
  {
    hide Indexed, Rows, OneReversal, Entries, Events, InboxBacked, OpenedPositive;
    assert Books(s, s.wallets[id]) && Announced(s, s.wallets[id]);
    assert s.wallets[id].id == id by { assert Indexed(s); WalletUnderItsId(s, id); }
  }

  lemma WalletUnderItsId(s: Store, id: Id)
    requires Indexed(s) && id in s.wallets
    ensures s.wallets[id].id == id
  {
  }

  /** The version counts the movements after the opening. */
  lemma VersionCountsMovements(s: Store, id: Id)
    requires StoreInv(s) && id in s.wallets
    ensures s.wallets[id].version - 1 == |EntriesOf(s.ledger, id)| - (if OpenedPositive(s, id) then 1 else 0)
    ensures var es := EntriesOf(s.ledger, id); forall i | 0 <= i < |es| :: IsOpening(s, es[i].transactionId) ==> i == 0 && OpenedPositive(s, id)
  {
    hide Rows, OneReversal, Entries, Events, InboxBacked, Chained;
    WalletUnderItsId(s, id);
    assert Books(s, s.wallets[id]);
  }

  // ---------------------------------------------------------------- rebuilding the balance

  function SignedOf(e: Event): int
    requires e.data.WalletBalanceChanged?
  {
    Signed(e.data.direction, e.data.money)
  }

  ghost predicate AllBalance(evs: seq<Event>) {
    forall i | 0 <= i < |evs| :: evs[i].data.WalletBalanceChanged?
  }

  function Fold(evs: seq<Event>): int
    requires AllBalance(evs)
  {
    if evs == [] then 0 else Fold(evs[..|evs| - 1]) + SignedOf(evs[|evs| - 1])
  }

  lemma ChainPrefix(es: seq<Entry>, n: nat, currency: string)
    requires n <= |es| && Chained(es, currency)
    ensures Chained(es[..n], currency)
  {
    forall i | 0 <= i < n
      ensures Link(es[..n], i, currency)
    {
      assert Link(es, i, currency);
    }
  }

  /** In commit order, which is version order, each event starts where the fold so far has come to. */
  lemma {:induction false} FoldFollowsChain(evs: seq<Event>, es: seq<Entry>, first: nat, currency: string)
    requires |evs| == |es| && Chained(es, currency)
    requires forall i | 0 <= i < |es| :: Announces(evs[i], es[i], i + first)
    ensures AllBalance(evs) && Fold(evs) == BalanceAt(es, |es|)
  {
    if es != [] {
      var n := |es| - 1;
      ChainPrefix(es, n, currency);
      FoldFollowsChain(evs[..n], es[..n], first, currency);
      assert Link(es, n, currency) && Announces(evs[n], es[n], n + first);
    }
  }

  lemma FoldIsBalance(s: Store, id: Id)
    requires StoreInv(s) && id in s.wallets
    ensures AllBalance(BalanceEventsOf(s.outbox, id))
    ensures Fold(BalanceEventsOf(s.outbox, id)) == s.wallets[id].balance.minorUnits
  {
    hide StoreInv, Chained, Fold, Announces, OpenedPositive, EntriesOf, BalanceEventsOf;
    AccountFacts(s, id);
    FoldFollowsChain(BalanceEventsOf(s.outbox, id), EntriesOf(s.ledger, id), FirstVersion(s, id), s.wallets[id].balance.currency);
  }

  lemma AccountFacts(s: Store, id: Id)
    requires StoreInv(s) && id in s.wallets
    ensures var w, es, evs := s.wallets[id], EntriesOf(s.ledger, id), BalanceEventsOf(s.outbox, id);
      && Chained(es, w.balance.currency) && w.balance.minorUnits == BalanceAt(es, |es|)
      && |evs| == |es| && forall i | 0 <= i < |es| :: Announces(evs[i], es[i], i + FirstVersion(s, id))
  {
    hide Indexed, Rows, OneReversal, Entries, Events, InboxBacked, Chained, Announces, OpenedPositive, EntriesOf,
         BalanceEventsOf, IsOpening;
    assert Indexed(s);
    WalletUnderItsId(s, id);
    assert Books(s, s.wallets[id]) && Announced(s, s.wallets[id]);
  }

  function IdsOf(evs: seq<Event>): set<Id> {
    set e | e in evs :: e.id
  }

  /** The deliveries without the copies of events already seen. */
  function FirstCopies(deliveries: seq<Event>): (r: seq<Event>)
    requires AllBalance(deliveries)
    ensures AllBalance(r)
  {
    if deliveries == [] then []
    else
      var front, last := deliveries[..|deliveries| - 1], deliveries[|deliveries| - 1];
      FirstCopies(front) + if last.id in IdsOf(front) then [] else [last]
  }

  ghost predicate DistinctIds(evs: seq<Event>) {
    forall i, j | 0 <= i < j < |evs| :: evs[i].id != evs[j].id
  }

  lemma IdsAdded(evs: seq<Event>, e: Event)
    ensures IdsOf(evs + [e]) == IdsOf(evs) + {e.id}
  {
    assert forall x :: x in evs + [e] <==> x in evs || x == e;
  }

  /** One more delivery: a copy changes nothing, a first copy adds its amount. */
  lemma CopyAdded(evs: seq<Event>, e: Event)
    requires AllBalance(evs) && e.data.WalletBalanceChanged?
    ensures AllBalance(evs + [e]) && IdsOf(evs + [e]) == IdsOf(evs) + {e.id}
    ensures FirstCopies(evs + [e]) == FirstCopies(evs) + if e.id in IdsOf(evs) then [] else [e]
    ensures Fold(FirstCopies(evs + [e])) == Fold(FirstCopies(evs)) + if e.id in IdsOf(evs) then 0 else SignedOf(e)
  {
    hide Fold, IdsOf;
    IdsAdded(evs, e);
    assert (evs + [e])[..|evs|] == evs;
    if e.id in IdsOf(evs) {
      assert FirstCopies(evs + [e]) == FirstCopies(evs);
    } else {
      FoldAppended(FirstCopies(evs), e);
    }
  }

  lemma FoldAppended(evs: seq<Event>, e: Event)
    requires AllBalance(evs) && e.data.WalletBalanceChanged?
    ensures AllBalance(evs + [e]) && Fold(evs + [e]) == Fold(evs) + SignedOf(e)
  {
    assert (evs + [e])[..|evs|] == evs;
  }

  lemma {:induction false} FirstCopiesCover(deliveries: seq<Event>)
    requires AllBalance(deliveries)
    ensures IdsOf(FirstCopies(deliveries)) == IdsOf(deliveries) && DistinctIds(FirstCopies(deliveries))
    ensures forall e | e in FirstCopies(deliveries) :: e in deliveries
  {
    hide Fold, SignedOf;
    if deliveries == [] {
    } else {
      hide IdsOf, DistinctIds, FirstCopies;
      var front, last := deliveries[..|deliveries| - 1], deliveries[|deliveries| - 1];
      assert deliveries == front + [last];
      FirstCopiesCover(front);
      CopyAdded(front, last);
      IdsAdded(FirstCopies(front), last);
      DistinctAdded(FirstCopies(front), last);
    }
  }

  lemma DistinctAdded(evs: seq<Event>, e: Event)
    requires DistinctIds(evs)
    ensures e.id !in IdsOf(evs) ==> DistinctIds(evs + [e])
  {
    if e.id !in IdsOf(evs) {
      forall i | 0 <= i < |evs|
        ensures evs[i].id != e.id
      {
        assert evs[i] in evs;
      }
    }
  }

  lemma {:induction false} FoldRemoves(evs: seq<Event>, k: nat)
    requires AllBalance(evs) && k < |evs|
    ensures AllBalance(evs[..k] + evs[k + 1..]) && Fold(evs) == Fold(evs[..k] + evs[k + 1..]) + SignedOf(evs[k])
  {
    var n := |evs| - 1;
    if k == n {
      assert evs[..k] + evs[k + 1..] == evs[..n];
    } else {
      FoldRemoves(evs[..n], k);
      var rest := evs[..k] + evs[k + 1..];
      assert rest[..n - 1] == evs[..n][..k] + evs[..n][k + 1..];
      assert rest[n - 1] == evs[n];
    }
  }

  lemma EmptyOrNot(evs: seq<Event>)
    ensures evs == [] || exists e :: e in evs
  {
    if evs != [] {
      assert evs[0] in evs;
    }
  }

  /** The fold depends only on which events there are, not on their order. */
  lemma {:induction false} FoldIgnoresOrder(a: seq<Event>, b: seq<Event>)
    requires AllBalance(a) && AllBalance(b) && DistinctIds(a) && DistinctIds(b)
    requires forall e :: e in a <==> e in b
    ensures Fold(a) == Fold(b)
  {
    if a == [] {
      EmptyOrNot(b);
    } else {
      var n := |a| - 1;
      var last := a[n];
      assert last in b;
      var k :| 0 <= k < |b| && b[k] == last;
      var rest := b[..k] + b[k + 1..];
      FoldRemoves(b, k);
      forall e
        ensures e in a[..n] <==> e in rest
      {
        SplitAt(a, n, e);
        SplitAt(b, k, e);
      }
      FoldIgnoresOrder(a[..n], rest);
    }
  }

  lemma SplitAt(evs: seq<Event>, k: nat, e: Event)
    requires k < |evs| && DistinctIds(evs)
    ensures e in evs[..k] + evs[k + 1..] <==> e in evs && e != evs[k]
  {
    var rest := evs[..k] + evs[k + 1..];
    if e in evs && e != evs[k] {
      var i :| 0 <= i < |evs| && evs[i] == e;
      assert if i < k then rest[i] == e else rest[i - 1] == e;
    }
  }

  /** Whatever the order and however many copies: a consumer that received every balance event of a wallet at least
      once, and nothing else, and drops repeated ids, holds the stored balance. */
  lemma AnyDeliveryRebuilds(s: Store, id: Id, deliveries: seq<Event>)
    requires StoreInv(s) && id in s.wallets
    requires forall e :: e in deliveries <==> e in BalanceEventsOf(s.outbox, id)
    ensures AllBalance(deliveries) && Fold(FirstCopies(deliveries)) == s.wallets[id].balance.minorUnits
  {
    hide Indexed, Rows, OneReversal, Accounts, Entries, InboxBacked, Fold;
    var evs := BalanceEventsOf(s.outbox, id);
    FoldIsBalance(s, id);
    assert AllBalance(deliveries) by {
      assert forall i | 0 <= i < |deliveries| :: deliveries[i] in evs;
    }
    FirstCopiesCover(deliveries);
    var r := FirstCopies(deliveries);
    BalanceEventsDistinct(s.outbox, id) by { assert Events(s); }
    forall e | e in evs
      ensures e in r
    {
      assert e.id in IdsOf(deliveries);
      var f :| f in r && f.id == e.id;
      assert f in evs && f in s.outbox && e in s.outbox;
      SameIdSameEvent(s, e, f);
    }
    FoldIgnoresOrder(r, evs);
  }

  lemma SameIdSameEvent(s: Store, e: Event, f: Event)
    requires Events(s) && e in s.outbox && f in s.outbox && e.id == f.id
    ensures e == f
  {
  }

  lemma {:induction false} BalanceEventsDistinct(outbox: seq<Event>, walletId: Id)
    requires DistinctIds(outbox)
    ensures DistinctIds(BalanceEventsOf(outbox, walletId))
  {
    if outbox != [] {
      var front, last := outbox[..|outbox| - 1], outbox[|outbox| - 1];
      BalanceEventsDistinct(front, walletId);
      var r := BalanceEventsOf(front, walletId);
      forall i | 0 <= i < |r|
        ensures r[i].id != last.id
      {
        assert r[i] in r;
        assert r[i] in front;
      }
    }
  }

  // ---------------------------------------------------------------- reconciliation

  function SignedSum(es: seq<Entry>): int {
    if es == [] then 0 else SignedSum(es[..|es| - 1]) + Signed(es[|es| - 1].direction, es[|es| - 1].amount)
  }

  function MaxCurrency(es: seq<Entry>): Currency {
    if es == [] then ""
    else
      var rest, last := MaxCurrency(es[..|es| - 1]), es[|es| - 1].amount.currency;
      if Paging.IdLess(rest, last) then last else rest
  }

  /** The aggregate over a wallet's entries: the sum is exact, and reading it fails beyond 64 bits. */
  function SumByWallet(s: Store, walletId: Id): Result<Money> {
    var es := EntriesOf(s.ledger, walletId);
    var currency := MaxCurrency(es);
    if !Int64.Fits(SignedSum(es)) then Err(ErrOverflow)
    else if currency == "" then Err(ErrNotFound)
    else Ok(Money(SignedSum(es), currency))
  }

  datatype Reconciliation = Reconciliation(
    walletId: Id, stored: Money, calculated: Money, difference: Money, consistent: bool, checkedEntries: nat)

  /** Compares the stored balance with the ledger on one snapshot. */
  method Reconcile(snapshot: Store, walletId: Id) returns (r: Result<Reconciliation>)
    ensures walletId !in snapshot.wallets ==> r == Err(ErrNotFound)
    ensures r.Ok? ==>
      && walletId in snapshot.wallets && r.value.stored == snapshot.wallets[walletId].balance
      && r.value.checkedEntries == |EntriesOf(snapshot.ledger, walletId)|
      && r.value.difference.minorUnits == r.value.stored.minorUnits - SignedSum(EntriesOf(snapshot.ledger, walletId))
      && (r.value.consistent <==> r.value.stored.minorUnits == SignedSum(EntriesOf(snapshot.ledger, walletId)))
    ensures StoreInv(snapshot) && walletId in snapshot.wallets ==>
      && r.Ok? && r.value.consistent && r.value.difference.minorUnits == 0
      && r.value.calculated == r.value.stored
  {
    if walletId !in snapshot.wallets {
      return Err(ErrNotFound);
    }
    if StoreInv(snapshot) {
      SumIsBalance(snapshot, walletId);
    }
    var stored := snapshot.wallets[walletId].balance;
    var checkedEntries := |EntriesOf(snapshot.ledger, walletId)|;
    var calculated := Money(0, stored.currency);
    if checkedEntries != 0 {
      var sum := SumByWallet(snapshot, walletId);
      if sum.Err? {
        return Err(sum.error);
      }
      calculated := sum.value;
    }
    var difference := Sub(stored, calculated);
    if difference.Err? {
      return Err(difference.error);
    }
    return Ok(Reconciliation(walletId, stored, calculated, difference.value, difference.value.IsZero(), checkedEntries));
  }

  lemma {:induction false} ChainTelescopes(es: seq<Entry>, currency: string)
    requires Chained(es, currency) && currency != ""
    ensures SignedSum(es) == BalanceAt(es, |es|)
    ensures es != [] ==> MaxCurrency(es) == currency
  {
    if es != [] {
      var n := |es| - 1;
      ChainPrefix(es, n, currency);
      ChainTelescopes(es[..n], currency);
      assert Link(es, n, currency);
      Paging.IdOrder(currency, currency);
    }
  }

  lemma SumIsBalance(s: Store, id: Id)
    requires StoreInv(s) && id in s.wallets
    ensures s.wallets[id].balance.currency != ""
    ensures var es := EntriesOf(s.ledger, id);
      && SignedSum(es) == s.wallets[id].balance.minorUnits
      && (es != [] ==> SumByWallet(s, id) == Ok(s.wallets[id].balance))
  {
    hide OneReversal, Entries, Events, InboxBacked, Chained, RowOk, ReferenceOk, OpenedPositive;
    WalletUnderItsId(s, id);
    var w := s.wallets[id];
    assert Books(s, w) && WalletOk(w);
    ChainTelescopes(EntriesOf(s.ledger, id), w.balance.currency);
  }

  /** On every snapshot of every run: reconciliation of an existing wallet succeeds and shows no difference. */
  lemma SnapshotsReconcile(m: Machine, at: nat, id: Id)
    requires Reachable(m) && at < |m.log| && id in m.log[at].wallets
    ensures SignedSum(EntriesOf(m.log[at].ledger, id)) == m.log[at].wallets[id].balance.minorUnits
    ensures StoreInv(m.log[at])
  {
    hide Reachable, Extends, SessionOk, Disjoint, SignedSum;
    ReachableSafe(m);
    assert StoreInv(m.log[at]);
    SumIsBalance(m.log[at], id);
  }

  /** Once the wallet is saved nothing can fail: in particular the entry's own checks always hold. */
  lemma SettlementNeverFails(m: Machine, sid: nat)
    requires Reachable(m) && sid in m.sessions && m.sessions[sid].phase.Saved?
    ensures m.log != [] && Advance(m.log, m.sessions[sid]).phase.Decided?
  {
    hide Reachable, StoreInv, Extends, Guard, HoldsIds, InboxHeld, SavedOk, SettledOk, StepSaved;
    ReachableSafe(m);
    Interleaving.KnownRunning(m, sid);
    SavedReady(m.log, m.sessions[sid]);
    Steps.SavedStep(m.log, m.sessions[sid]);
  }
}
