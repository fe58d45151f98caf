/** What reversals amount to: references form chains of at most three, each bet or win counts fully or not at all,
    and a balance is its opening plus the standing wins minus the standing bets. */
module NetEffect {
  import opened Wrappers
  import opened Wallet
  import opened WagerTx
  import opened Ledger
  import opened Store
  import opened Invariants
  import opened Preservation
  import opened Machine
  import opened Sessions
  import Commits
  import Safety
  import Interleaving

  // ---------------------------------------------------------------- references are acyclic

  function Rank(kind: Kind): nat {
    match kind
    case Win => 1
    case Refund => 1
    case Rollback => 2
    case _ => 0
  }

  /** A processed row that names a reference. */
  predicate Refers(s: Store, id: Id) {
    id in s.txs && s.txs[id].status == Processed && s.txs[id].terms.referenceExternalId != ""
  }

  lemma RankDrops(s: Store, id: Id)
    requires Rows(s) && Refers(s, id)
    ensures var t := s.txs[id];
      && t.resolvedReferenceId in s.txs
      && s.txs[t.resolvedReferenceId].status == Processed && s.txs[t.resolvedReferenceId].terms.money == t.terms.money
      && s.txs[t.resolvedReferenceId].terms.walletId == t.terms.walletId
      && Rank(s.txs[t.resolvedReferenceId].terms.kind) < Rank(t.terms.kind)
      && (s.txs[t.resolvedReferenceId].terms.kind in {Bet, Win, Refund})
  {
    assert RowOk(s, s.txs[id]) && ReferenceOk(s, s.txs[id]);
  }

  lemma ReversalsRefer(s: Store, id: Id)
    requires Rows(s) && id in s.txs && IsReversal(s.txs[id])
    ensures Refers(s, id)
  {
    assert RowOk(s, s.txs[id]);
  }

  /** A path along resolved references. */
  ghost predicate Path(s: Store, path: seq<Id>) {
    && (forall i | 0 <= i < |path| :: path[i] in s.txs)
    && (forall i | 0 <= i < |path| - 1 :: Refers(s, path[i]) && path[i + 1] == s.txs[path[i]].resolvedReferenceId)
  }

  /** Ranks fall along every path, so no path returns to a row it has left, and none is longer than three. */
  lemma {:induction false} PathsDescend(s: Store, path: seq<Id>)
    requires Rows(s) && Path(s, path) && path != []
    ensures |path| <= 3
    ensures Rank(s.txs[path[0]].terms.kind) >= Rank(s.txs[path[|path| - 1]].terms.kind) + |path| - 1
  {
    if |path| > 1 {
      RankDrops(s, path[0]);
      PathsDescend(s, path[1..]);
    }
  }

  lemma ReferencesAcyclic(s: Store, path: seq<Id>, i: nat, j: nat)
    requires Rows(s) && Path(s, path) && i < j < |path|
    ensures path[i] != path[j]
  {
    hide Rows, Refers;
    var part := path[i..j + 1];
    assert forall k | 0 <= k < |part| :: part[k] == path[i + k];
    PathsDescend(s, path[i..j + 1]);
  }

  // ---------------------------------------------------------------- chains of reversals

  /** The row is the root, or a processed reversal of a row that belongs to it. */
  ghost predicate Belongs(s: Store, id: Id, root: Id)
    requires Rows(s)
    decreases if id in s.txs then Rank(s.txs[id].terms.kind) else 0
  {
    id == root
    || (id in s.txs && IsReversal(s.txs[id])
        && (ReversalsRefer(s, id); RankDrops(s, id); Belongs(s, s.txs[id].resolvedReferenceId, root)))
  }

  /** The effect of the row stands: every processed reversal of it has been reversed in turn. */
  ghost predicate Stands(s: Store, id: Id) {
    forall r | r in s.txs && Reverses(s.txs[r], id) :: HasProcessedReversal(s, r)
  }

  /** The signed sum of the entries whose rows are in the set. */
  ghost function SumOver(ledger: seq<Entry>, ids: iset<Id>): int {
    if ledger == [] then 0
    else
      var last := ledger[|ledger| - 1];
      SumOver(ledger[..|ledger| - 1], ids) + if last.transactionId in ids then Signed(last.direction, last.amount) else 0
  }

  ghost predicate OnceEach(ledger: seq<Entry>) {
    forall i, j | 0 <= i < j < |ledger| :: ledger[i].transactionId != ledger[j].transactionId
  }

  lemma {:induction false} SumOfNone(ledger: seq<Entry>, ids: iset<Id>)
    requires forall i | 0 <= i < |ledger| :: ledger[i].transactionId !in ids
    ensures SumOver(ledger, ids) == 0
  {
    if ledger != [] {
      SumOfNone(ledger[..|ledger| - 1], ids);
    }
  }

  lemma {:induction false} SumSplits(ledger: seq<Entry>, a: iset<Id>, b: iset<Id>)
    requires a !! b
    ensures SumOver(ledger, a + b) == SumOver(ledger, a) + SumOver(ledger, b)
  {
    if ledger != [] {
      SumSplits(ledger[..|ledger| - 1], a, b);
    }
  }

  lemma {:induction false} SumOfOne(ledger: seq<Entry>, id: Id, k: nat)
    requires OnceEach(ledger) && k < |ledger| && ledger[k].transactionId == id
    ensures SumOver(ledger, iset{id}) == Signed(ledger[k].direction, ledger[k].amount)
  {
    var front := ledger[..|ledger| - 1];
    if k == |front| {
      SumOfNone(front, iset{id});
    } else {
      SumOfOne(front, id, k);
    }
  }

  /** What a processed moving row adds to its wallet. */
  ghost function Effect(s: Store, id: Id): int
    requires id in s.txs
  {
    var t := s.txs[id];
    if DirectionOfRow(s, t).Some? then Signed(DirectionOfRow(s, t).value, t.terms.money) else 0
  }

  lemma EntryShowsEffect(s: Store, id: Id)
    requires Entries(s) && id in s.txs && Moves(s.txs[id])
    ensures SumOver(s.ledger, iset{id}) == Effect(s, id)
  {
    assert HasEntry(s, id);
    var k :| 0 <= k < |s.ledger| && s.ledger[k].transactionId == id;
    assert s.ledger[k] in s.ledger && EntryOk(s, s.ledger[k]);
    SumOfOne(s.ledger, id, k);
  }

  ghost function Chain(s: Store, root: Id): iset<Id>
    requires Rows(s)
  {
    iset id | Belongs(s, id, root)
  }

  /** A reversal undoes exactly what its reference did. */
  lemma ReversalOpposes(s: Store, r: Id)
    requires Rows(s) && r in s.txs && IsReversal(s.txs[r])
    ensures s.txs[r].resolvedReferenceId in s.txs && Effect(s, r) == -Effect(s, s.txs[r].resolvedReferenceId)
    ensures Moves(s.txs[r]) && Moves(s.txs[s.txs[r].resolvedReferenceId])
    ensures s.txs[r].terms.kind == Refund ==> s.txs[s.txs[r].resolvedReferenceId].terms.kind == Bet
  {
    ReversalsRefer(s, r);
    RankDrops(s, r);
    assert RowOk(s, s.txs[r]) && ReferenceOk(s, s.txs[r]);
    var ref := s.txs[r].resolvedReferenceId;
    if s.txs[ref].terms.kind == Refund {
      assert RowOk(s, s.txs[ref]) && ReferenceOk(s, s.txs[ref]);
    }
  }

  /** A rollback is never reversed: nothing may refer to it. */
  lemma RollbacksAreFinal(s: Store, id: Id)
    requires Rows(s) && id in s.txs && s.txs[id].terms.kind == Rollback
    ensures !HasProcessedReversal(s, id)
  {
    if HasProcessedReversal(s, id) {
      var r :| r in s.txs && Reverses(s.txs[r], id);
      ReversalsRefer(s, r);
      RankDrops(s, r);
    }
  }

  lemma OnlyReversal(s: Store, id: Id, r: Id, q: Id)
    requires OneReversal(s) && r in s.txs && Reverses(s.txs[r], id) && q in s.txs && Reverses(s.txs[q], id)
    ensures q == r
  {
  }

  /** The chain above a row is the row and the chain above its only reversal. */
  lemma ChainUnfolds(s: Store, root: Id, r: Id)
    requires Rows(s) && OneReversal(s) && root in s.txs && r in s.txs && Reverses(s.txs[r], root)
    ensures r != root && root !in Chain(s, r) && Chain(s, root) == iset{root} + Chain(s, r)
  {
    ReversalsRefer(s, r);
    RankDrops(s, r);
    RootIsBelow(s, root, r);
    forall id
      ensures Belongs(s, id, root) <==> id == root || Belongs(s, id, r)
    {
      ChainMember(s, id, root, r);
    }
  }

  lemma {:induction false} RootIsBelow(s: Store, id: Id, r: Id)
    requires Rows(s) && id in s.txs && r in s.txs && Rank(s.txs[id].terms.kind) < Rank(s.txs[r].terms.kind)
    ensures !Belongs(s, id, r)
    decreases Rank(s.txs[id].terms.kind)
  {
    if IsReversal(s.txs[id]) {
      ReversalsRefer(s, id);
      RankDrops(s, id);
      RootIsBelow(s, s.txs[id].resolvedReferenceId, r);
    }
  }

  lemma {:induction false} ChainMember(s: Store, id: Id, root: Id, r: Id)
    requires Rows(s) && OneReversal(s) && root in s.txs && r in s.txs && Reverses(s.txs[r], root) && r != root
    ensures Belongs(s, id, root) <==> id == root || Belongs(s, id, r)
    decreases if id in s.txs then Rank(s.txs[id].terms.kind) else 0
  {
    if id in s.txs && IsReversal(s.txs[id]) && id != root && id != r {
      ReversalsRefer(s, id);
      RankDrops(s, id);
      var ref := s.txs[id].resolvedReferenceId;
      ChainMember(s, ref, root, r);
      if ref == root {
        OnlyReversal(s, root, r, id);
      }
    }
  }

  lemma ChainOfUnreversed(s: Store, root: Id)
    requires Rows(s) && root in s.txs && !HasProcessedReversal(s, root)
    ensures Chain(s, root) == iset{root}
  {
    forall id | id != root
      ensures !Belongs(s, id, root)
    {
      NothingAbove(s, id, root);
    }
  }

  lemma {:induction false} NothingAbove(s: Store, id: Id, root: Id)
    requires Rows(s) && !HasProcessedReversal(s, root) && id != root
    ensures !Belongs(s, id, root)
    decreases if id in s.txs then Rank(s.txs[id].terms.kind) else 0
  {
    if id in s.txs && IsReversal(s.txs[id]) {
      ReversalsRefer(s, id);
      RankDrops(s, id);
      RefersElsewhere(s, id, root);
      NothingAbove(s, s.txs[id].resolvedReferenceId, root);
    }
  }

  lemma RefersElsewhere(s: Store, id: Id, root: Id)
    requires !HasProcessedReversal(s, root) && id in s.txs && IsReversal(s.txs[id])
    ensures s.txs[id].resolvedReferenceId != root
  {
    assert !Reverses(s.txs[id], root);
  }

  /** The entries of a processed moving row and of everything reversing it sum to its own effect if it stands, and to
      nothing otherwise. */
  lemma {:induction false} ChainSum(s: Store, root: Id)
    requires Rows(s) && OneReversal(s) && Entries(s) && root in s.txs && Moves(s.txs[root])
    ensures SumOver(s.ledger, Chain(s, root)) == if Stands(s, root) then Effect(s, root) else 0
    decreases 2 - Rank(s.txs[root].terms.kind)
  {
    hide Rows, OneReversal, Entries, Effect, SumOver, Chain;
    EntryShowsEffect(s, root);
    if HasProcessedReversal(s, root) {
      var r :| r in s.txs && Reverses(s.txs[r], root);
      ReversalsRefer(s, r);
      RankDrops(s, r);
      ReversalOpposes(s, r);
      ChainSum(s, r);
      ChainUnfolds(s, root, r);
      SumSplits(s.ledger, iset{root}, Chain(s, r));
      StandsUnfolds(s, root, r);
    } else {
      ChainOfUnreversed(s, root);
    }
  }

  lemma StandsUnfolds(s: Store, root: Id, r: Id)
    requires Rows(s) && OneReversal(s) && r in s.txs && Reverses(s.txs[r], root)
    ensures Stands(s, root) <==> !Stands(s, r)
  {
    if HasProcessedReversal(s, r) {
      var q :| q in s.txs && Reverses(s.txs[q], r);
      ReversalsRefer(s, q);
      RankDrops(s, q);
      ReversalsRefer(s, r);
      RankDrops(s, r);
      RollbacksAreFinal(s, q);
      forall p | p in s.txs && Reverses(s.txs[p], root)
        ensures HasProcessedReversal(s, p)
      {
        OnlyReversal(s, root, r, p);
      }
    }
  }

  /** A processed bet, with everything that reverses it, has moved its wallet by minus its amount or not at all; a
      win by its amount or not at all. */
  lemma BetsCountFullyOrNot(s: Store, id: Id)
    requires StoreInv(s) && id in s.txs && s.txs[id].status == Processed
    requires s.txs[id].terms.kind == Bet || s.txs[id].terms.kind == Win
    ensures var amount: int := s.txs[id].terms.money.minorUnits;
      SumOver(s.ledger, Chain(s, id)) ==
        if !Stands(s, id) then 0 else if s.txs[id].terms.kind == Bet then -amount else amount
  {
    hide Indexed, Accounts, Events, InboxBacked;
    ChainSum(s, id);
  }

  // ---------------------------------------------------------------- the balance

  /** What an entry still counts for: openings, standing wins and standing bets. */
  ghost function Weight(s: Store, e: Entry): int
    requires e.transactionId in s.txs
  {
    var units: int := e.amount.minorUnits;
    match s.txs[e.transactionId].terms.kind
    case Opening => units
    case Win => if Stands(s, e.transactionId) then units else 0
    case Bet => if Stands(s, e.transactionId) then -units else 0
    case _ => 0
  }

  ghost predicate Recorded(s: Store, es: seq<Entry>) {
    forall i | 0 <= i < |es| :: es[i].transactionId in s.txs
  }

  ghost function LiveSum(s: Store, es: seq<Entry>): int
    requires Recorded(s, es)
  {
    if es == [] then 0 else LiveSum(s, es[..|es| - 1]) + Weight(s, es[|es| - 1])
  }

  lemma EntriesRecorded(s: Store, walletId: Id)
    requires Entries(s)
    ensures Recorded(s, EntriesOf(s.ledger, walletId))
  {
    var es := EntriesOf(s.ledger, walletId);
    forall i | 0 <= i < |es|
      ensures es[i].transactionId in s.txs
    {
      assert es[i] in es;
      assert EntryOk(s, es[i]);
    }
  }

  /** Every balance is the opening plus the standing wins minus the standing bets of its wallet. */
  ghost predicate Balanced(s: Store)
    requires Entries(s)
  {
    forall id | id in s.wallets ::
      (EntriesRecorded(s, id); s.wallets[id].balance.minorUnits == LiveSum(s, EntriesOf(s.ledger, id)))
  }

  ghost predicate IsReversalOf(s: Store, r: Id, id: Id) {
    r in s.txs && Reverses(s.txs[r], id)
  }

  ghost predicate SameReversals(s: Store, s': Store) {
    forall r, id :: IsReversalOf(s', r, id) <==> IsReversalOf(s, r, id)
  }

  ghost predicate OneMore(s: Store, s': Store, q: Id, ref: Id) {
    forall r, id :: IsReversalOf(s', r, id) <==> IsReversalOf(s, r, id) || (r == q && id == ref)
  }

  lemma StandsByReversals(s: Store, id: Id)
    ensures Stands(s, id) <==> forall r :: IsReversalOf(s, r, id) ==> exists q :: IsReversalOf(s, q, r)
  {
    forall r
      ensures HasProcessedReversal(s, r) <==> exists q :: IsReversalOf(s, q, r)
    {
      if HasProcessedReversal(s, r) {
        var q :| q in s.txs && Reverses(s.txs[q], r);
        assert IsReversalOf(s, q, r);
      }
    }
    assert forall r :: IsReversalOf(s, r, id) <==> r in s.txs && Reverses(s.txs[r], id);
  }

  lemma StandsSame(s: Store, s': Store, id: Id)
    requires SameReversals(s, s')
    ensures Stands(s', id) == Stands(s, id)
  {
    hide Stands, IsReversalOf;
    StandsByReversals(s, id);
    StandsByReversals(s', id);
  }

  /** The one row whose standing a new reversal of `ref` changes. */
  function Flipped(s: Store, ref: Id): Id
    requires ref in s.txs
  {
    if IsReversal(s.txs[ref]) then s.txs[ref].resolvedReferenceId else ref
  }

  lemma StandsFlips(s: Store, s': Store, q: Id, ref: Id)
    requires OneReversal(s) && OneMore(s, s', q, ref) && ref in s.txs && !HasProcessedReversal(s, ref)
    requires q != ref && (forall r :: !IsReversalOf(s, r, q)) && Flipped(s, ref) != q
    ensures Stands(s', Flipped(s, ref)) == !Stands(s, Flipped(s, ref))
    ensures Stands(s, Flipped(s, ref)) == !IsReversal(s.txs[ref])
  {
    var id := Flipped(s, ref);
    assert forall r :: !IsReversalOf(s, r, ref);
    StandsByReversals(s, id);
    StandsByReversals(s', id);
    if IsReversal(s.txs[ref]) {
      assert IsReversalOf(s, ref, id) && IsReversalOf(s', q, ref);
      forall r | IsReversalOf(s', r, id)
        ensures exists p :: IsReversalOf(s', p, r)
      {
        assert r == ref;
      }
    } else {
      assert IsReversalOf(s', q, ref);
      assert forall p :: !IsReversalOf(s', p, q);
    }
  }

  lemma StandsStays(s: Store, s': Store, q: Id, ref: Id, id: Id)
    requires OneMore(s, s', q, ref) && ref in s.txs && id != ref
    requires forall r :: !IsReversalOf(s, r, q)
    requires !IsReversalOf(s, ref, id)
    ensures Stands(s', id) == Stands(s, id)
  {
    hide Stands;
    StandsByReversals(s, id);
    StandsByReversals(s', id);
    forall r | IsReversalOf(s, r, id)
      ensures (exists p :: IsReversalOf(s', p, r)) == (exists p :: IsReversalOf(s, p, r))
    {
      assert r != ref;
    }
  }

  lemma {:induction false} LiveSumSame(s: Store, s': Store, es: seq<Entry>)
    requires Recorded(s, es) && Recorded(s', es)
    requires forall i | 0 <= i < |es| :: Weight(s', es[i]) == Weight(s, es[i])
    ensures LiveSum(s', es) == LiveSum(s, es)
  {
    hide Weight;
    if es != [] {
      LiveSumSame(s, s', es[..|es| - 1]);
    }
  }

  /** One weight changes, and the sum changes by as much. */
  lemma {:induction false} LiveSumFlips(s: Store, s': Store, es: seq<Entry>, k: nat)
    requires Recorded(s, es) && Recorded(s', es) && k < |es|
    requires forall i | 0 <= i < |es| && i != k :: Weight(s', es[i]) == Weight(s, es[i])
    ensures LiveSum(s', es) == LiveSum(s, es) + Weight(s', es[k]) - Weight(s, es[k])
  {
    hide Weight;
    var front := es[..|es| - 1];
    if k == |front| {
      LiveSumSame(s, s', front);
    } else {
      LiveSumFlips(s, s', front, k);
    }
  }

  lemma LiveSumAppended(s: Store, es: seq<Entry>, e: Entry)
    requires Recorded(s, es) && e.transactionId in s.txs
    ensures Recorded(s, es + [e]) && LiveSum(s, es + [e]) == LiveSum(s, es) + Weight(s, e)
  {
    hide Weight;
    assert (es + [e])[..|es|] == es;
  }

  lemma {:induction false} EntriesOnce(ledger: seq<Entry>, walletId: Id)
    requires OnceEach(ledger)
    ensures OnceEach(EntriesOf(ledger, walletId))
  {
    if ledger != [] {
      var front, last := ledger[..|ledger| - 1], ledger[|ledger| - 1];
      EntriesOnce(front, walletId);
      var es := EntriesOf(front, walletId);
      forall i | 0 <= i < |es|
        ensures es[i].transactionId != last.transactionId
      {
        assert es[i] in es;
        assert es[i] in front;
      }
    }
  }

  /** The same row, by its kind and its standing, weighs the same. */
  lemma WeightSame(s: Store, s': Store, e: Entry)
    requires e.transactionId in s.txs && e.transactionId in s'.txs
    requires s'.txs[e.transactionId].terms == s.txs[e.transactionId].terms
    requires Stands(s', e.transactionId) == Stands(s, e.transactionId)
    ensures Weight(s', e) == Weight(s, e)
  {
    hide Stands;
  }

  lemma WeightsSame(s: Store, s': Store, es: seq<Entry>)
    requires Recorded(s, es) && RowsGrow(s, s') && SameReversals(s, s')
    ensures Recorded(s', es) && LiveSum(s', es) == LiveSum(s, es)
  {
    hide Stands, SameReversals, Weight;
    forall i | 0 <= i < |es|
      ensures es[i].transactionId in s'.txs && Weight(s', es[i]) == Weight(s, es[i])
    {
      assert TxGrows(s.txs[es[i].transactionId], s'.txs[es[i].transactionId]);
      StandsSame(s, s', es[i].transactionId);
      WeightSame(s, s', es[i]);
    }
    LiveSumSame(s, s', es);
  }

  // ---------------------------------------------------------------- commits keep the balance

  lemma QuietReversals(s: Store, d: Writes)
    requires d.tx.Some? ==> !IsReversal(d.tx.value)
    requires d.tx.Some? && d.tx.value.id in s.txs ==> !IsReversal(s.txs[d.tx.value.id])
    ensures SameReversals(s, Apply(s, d))
  {
  }

  lemma OneMoreReversal(s: Store, d: Writes)
    requires d.tx.Some? && IsReversal(d.tx.value)
    requires d.tx.value.id in s.txs ==> !IsReversal(s.txs[d.tx.value.id])
    ensures OneMore(s, Apply(s, d), d.tx.value.id, d.tx.value.resolvedReferenceId)
  {
  }

  /** Nothing refers to a row that is not processed. */
  lemma UnprocessedUnreferenced(s: Store, id: Id)
    requires Rows(s) && (id in s.txs ==> s.txs[id].status != Processed)
    ensures forall r :: !IsReversalOf(s, r, id)
  {
    forall r | IsReversalOf(s, r, id)
      ensures false
    {
      ReversalsRefer(s, r);
      RankDrops(s, r);
    }
  }

  lemma UnreferencedStands(s: Store, id: Id)
    requires forall r :: !IsReversalOf(s, r, id)
    ensures Stands(s, id)
  {
    StandsByReversals(s, id);
  }

  /** What a movement adds: an entry whose row is a bet or win that stands, or a reversal that turns one over. */
  lemma MovedWeight(s: Store, d: Writes, es: seq<Entry>)
    requires Rows(s) && OneReversal(s) && Entries(s) && MoveCommit(s, d) && RowsGrow(s, Apply(s, d))
    requires es == EntriesOf(s.ledger, d.tx.value.terms.walletId) && Recorded(s, es)
    ensures var s', e := Apply(s, d), d.entry.value;
      && Recorded(s', es) && e.transactionId in s'.txs
      && LiveSum(s', es) + Weight(s', e) == LiveSum(s, es) + Signed(e.direction, e.amount)
  {
    hide Rows, OneReversal, Entries, Stands, SameReversals, OneMore, IsReversalOf, LiveSum, NewEvents, Announces, RowsGrow;
    var s', t, e := Apply(s, d), d.tx.value, d.entry.value;
    UnprocessedUnreferenced(s, t.id);
    if IsReversal(t) {
      ReversalWeight(s, d, es);
    } else {
      QuietReversals(s, d);
      WeightsSame(s, s', es);
      StillUnreferenced(s, s', t.id);
      UnreferencedStands(s', t.id);
    }
  }

  lemma StillUnreferenced(s: Store, s': Store, id: Id)
    requires SameReversals(s, s') && forall r :: !IsReversalOf(s, r, id)
    ensures forall r :: !IsReversalOf(s', r, id)
  {
    hide IsReversalOf;
  }

  /** The entry of a row that moved money, among its wallet's entries. */
  lemma EntryIndex(s: Store, id: Id, walletId: Id) returns (k: nat)
    requires Entries(s) && id in s.txs && Moves(s.txs[id]) && s.txs[id].terms.walletId == walletId
    ensures k < |EntriesOf(s.ledger, walletId)| && EntriesOf(s.ledger, walletId)[k].transactionId == id
    ensures EntriesOf(s.ledger, walletId)[k].amount == s.txs[id].terms.money
    ensures forall i | 0 <= i < |EntriesOf(s.ledger, walletId)| && i != k :: EntriesOf(s.ledger, walletId)[i].transactionId != id
  {
    assert HasEntry(s, id);
    var j :| 0 <= j < |s.ledger| && s.ledger[j].transactionId == id;
    assert s.ledger[j] in s.ledger && EntryOk(s, s.ledger[j]);
    var es := EntriesOf(s.ledger, walletId);
    assert s.ledger[j] in es;
    k :| 0 <= k < |es| && es[k] == s.ledger[j];
    EntriesOnce(s.ledger, walletId);
  }

  /** What is known of the reference of a reversal that is about to be recorded. */
  lemma ReferenceFacts(s: Store, d: Writes)
    requires Rows(s) && MoveCommit(s, d) && IsReversal(d.tx.value)
    ensures var t, ref, e := d.tx.value, d.tx.value.resolvedReferenceId, d.entry.value;
      && ref in s.txs && s.txs[ref].status == Processed && ref != t.id && !HasProcessedReversal(s, ref)
      && s.txs[ref].terms.walletId == t.terms.walletId && s.txs[ref].terms.money == t.terms.money == e.amount
      && (s.txs[ref].terms.kind == Bet ==> e.direction == Credit)
      && (s.txs[ref].terms.kind == Win || s.txs[ref].terms.kind == Refund ==> e.direction == Debit)
      && (s.txs[ref].terms.kind in {Bet, Win, Refund})
      && (t.id in s.txs ==> s.txs[t.id].status != Processed)
      && (IsReversal(s.txs[ref]) <==> s.txs[ref].terms.kind == Refund)
  {
    hide Rows, NewEvents, Announces, HasProcessedReversal;
    var t := d.tx.value;
    assert RowOk(s, t) && ReferenceOk(s, t);
    assert TermsOk(t.terms);
  }

  /** The root whose standing flips is a bet or a win of the same wallet and amount. */
  lemma FlippedFacts(s: Store, ref: Id)
    requires Rows(s) && ref in s.txs && s.txs[ref].status == Processed && s.txs[ref].terms.kind in {Bet, Win, Refund}
    ensures var root := Flipped(s, ref);
      && root in s.txs && Moves(s.txs[root]) && s.txs[root].terms.walletId == s.txs[ref].terms.walletId
      && s.txs[root].terms.money == s.txs[ref].terms.money
      && s.txs[root].terms.kind == (if s.txs[ref].terms.kind == Refund then Bet else s.txs[ref].terms.kind)
      && (IsReversal(s.txs[ref]) ==> IsReversalOf(s, ref, root))
  {
    if IsReversal(s.txs[ref]) {
      ReversalOpposes(s, ref);
      ReversalsRefer(s, ref);
      RankDrops(s, ref);
    }
  }

  lemma ReversalWeight(s: Store, d: Writes, es: seq<Entry>)
    requires Rows(s) && OneReversal(s) && Entries(s) && MoveCommit(s, d) && RowsGrow(s, Apply(s, d)) && IsReversal(d.tx.value)
    requires es == EntriesOf(s.ledger, d.tx.value.terms.walletId) && Recorded(s, es)
    ensures var s', e := Apply(s, d), d.entry.value;
      && Recorded(s', es) && e.transactionId in s'.txs
      && LiveSum(s', es) + Weight(s', e) == LiveSum(s, es) + Signed(e.direction, e.amount)
  {
    hide Rows, OneReversal, Entries, Stands, OneMore, IsReversalOf, LiveSum, NewEvents, Announces, RowOk, ReferenceOk,
         HasProcessedReversal,
         DirectionOfRow, MayWrite;
    var s', t, e := Apply(s, d), d.tx.value, d.entry.value;
    var ref := t.resolvedReferenceId;
    ReferenceFacts(s, d);
    FlippedFacts(s, ref);
    var root := Flipped(s, ref);
    UnprocessedUnreferenced(s, t.id);
    OneMoreReversal(s, d);
    StandsFlips(s, s', t.id, ref);
    var k := EntryIndex(s, root, t.terms.walletId);
    forall i | 0 <= i < |es|
      ensures es[i].transactionId in s'.txs && (i != k ==> Weight(s', es[i]) == Weight(s, es[i]))
    {
      assert TxGrows(s.txs[es[i].transactionId], s'.txs[es[i].transactionId]);
      if i != k {
        UnflippedWeight(s, s', t.id, ref, es[i]);
      }
    }
    LiveSumFlips(s, s', es, k);
    assert TxGrows(s.txs[root], s'.txs[root]);
  }

  /** Every other weight stays: the row is not the one that flips, or it is a reversal, which weighs nothing. */
  lemma UnflippedWeight(s: Store, s': Store, q: Id, ref: Id, e: Entry)
    requires OneReversal(s) && OneMore(s, s', q, ref) && ref in s.txs && (forall r :: !IsReversalOf(s, r, q))
    requires e.transactionId in s.txs && e.transactionId in s'.txs && s'.txs[e.transactionId].terms == s.txs[e.transactionId].terms
    requires e.transactionId != Flipped(s, ref)
    requires IsReversal(s.txs[ref]) <==> s.txs[ref].terms.kind == Refund
    ensures Weight(s', e) == Weight(s, e)
  {
    hide Stands, OneMore, OneReversal;
    if e.transactionId != ref {
      StandsStays(s, s', q, ref, e.transactionId);
    }
  }

  lemma OpeningWeight(s: Store, e: Entry)
    requires e.transactionId in s.txs && s.txs[e.transactionId].terms.kind == Opening
    ensures Weight(s, e) == e.amount.minorUnits
  {
  }

  lemma OpenedBalance(s: Store, d: Writes)
    requires Entries(s) && Events(s) && OpenCommit(s, d)
    ensures var s', id := Apply(s, d), d.wallet.value.id;
      Recorded(s', EntriesOf(s'.ledger, id)) && LiveSum(s', EntriesOf(s'.ledger, id)) == d.wallet.value.balance.minorUnits
  {
    hide Entries, Events, NewEvents, Announces, Weight;
    var s', id := Apply(s, d), d.wallet.value.id;
    NothingYet(s, id);
    if d.entry.Some? {
      EntriesAppended(s.ledger, d.entry.value, id);
      OpeningWeight(s', d.entry.value);
      LiveSumAppended(s', [], d.entry.value);
      assert [] + [d.entry.value] == [d.entry.value];
    }
  }

  lemma MovedBalance(s: Store, d: Writes)
    requires Rows(s) && OneReversal(s) && Entries(s) && Balanced(s) && MoveCommit(s, d) && RowsGrow(s, Apply(s, d))
    ensures var s', id := Apply(s, d), d.wallet.value.id;
      Recorded(s', EntriesOf(s'.ledger, id)) && LiveSum(s', EntriesOf(s'.ledger, id)) == d.wallet.value.balance.minorUnits
  {
    hide Rows, OneReversal, Entries, NewEvents, Announces, Weight, RowsGrow, LiveSum, RowOk, ReferenceOk, MayWrite,
         DirectionOfRow;
    var s', id, e := Apply(s, d), d.wallet.value.id, d.entry.value;
    var es := EntriesOf(s.ledger, id);
    EntriesRecorded(s, id);
    MoveOnWallet(s, d);
    MovedWeight(s, d, es);
    EntriesAppended(s.ledger, e, id);
    LiveSumAppended(s', es, e);
  }

  lemma MoveOnWallet(s: Store, d: Writes)
    requires MoveCommit(s, d)
    ensures d.wallet.value.id == d.tx.value.terms.walletId == d.entry.value.walletId && d.wallet.value.id in s.wallets
    ensures d.wallet.value.balance.minorUnits
         == s.wallets[d.wallet.value.id].balance.minorUnits + Signed(d.entry.value.direction, d.entry.value.amount)
  {
  }

  lemma QuietCommit(s: Store, d: Writes)
    requires Legal(s, d) && !MoveCommit(s, d)
    ensures SameReversals(s, Apply(s, d))
  {
    hide SameReversals, NewEvents, Announces, RowFor, RowOk, MoveCommit;
    QuietReversals(s, d);
  }

  /** A wallet a movement does not touch keeps its sum: the row that flips is the moved wallet's. */
  lemma OtherSum(s: Store, d: Writes, id: Id)
    requires Rows(s) && OneReversal(s) && Entries(s) && MoveCommit(s, d) && RowsGrow(s, Apply(s, d))
    requires id != d.wallet.value.id
    ensures var s', es := Apply(s, d), EntriesOf(s.ledger, id);
      Recorded(s, es) && Recorded(s', es) && LiveSum(s', es) == LiveSum(s, es)
  {
    hide Rows, OneReversal, Stands, OneMore, SameReversals, IsReversalOf, LiveSum, Weight, NewEvents, Announces, RowOk,
         ReferenceOk,
         HasProcessedReversal, DirectionOfRow, RowsGrow, Entries;
    var s', t, es := Apply(s, d), d.tx.value, EntriesOf(s.ledger, id);
    EntriesRecorded(s, id);
    MoveOnWallet(s, d);
    if IsReversal(t) {
      OtherWeights(s, d, es, id);
      LiveSumSame(s, s', es);
    } else {
      QuietReversals(s, d);
      WeightsSame(s, s', es);
    }
  }

  lemma OtherWeights(s: Store, d: Writes, es: seq<Entry>, id: Id)
    requires Rows(s) && OneReversal(s) && Entries(s) && MoveCommit(s, d) && RowsGrow(s, Apply(s, d)) && IsReversal(d.tx.value)
    requires id != d.tx.value.terms.walletId && es == EntriesOf(s.ledger, id) && Recorded(s, es)
    ensures Recorded(Apply(s, d), es) && forall i | 0 <= i < |es| :: Weight(Apply(s, d), es[i]) == Weight(s, es[i])
  {
    hide Rows, OneReversal, Entries, Stands, OneMore, IsReversalOf, MoveCommit, HasProcessedReversal, Weight;
    MoveWrites(s, d);
    var s', t := Apply(s, d), d.tx.value;
    var ref := t.resolvedReferenceId;
    ReferenceFacts(s, d);
    FlippedFacts(s, ref);
    UnprocessedUnreferenced(s, t.id);
    OneMoreReversal(s, d);
    forall i | 0 <= i < |es|
      ensures es[i].transactionId in s'.txs && Weight(s', es[i]) == Weight(s, es[i])
    {
      assert TxGrows(s.txs[es[i].transactionId], s'.txs[es[i].transactionId]);
      EntryOfWallet(s, id, es[i]);
      UnflippedWeight(s, s', t.id, ref, es[i]);
    }
  }

  lemma EntryOfWallet(s: Store, id: Id, e: Entry)
    requires Entries(s) && e in EntriesOf(s.ledger, id)
    ensures e.transactionId in s.txs && s.txs[e.transactionId].terms.walletId == id
  {
    assert EntryOk(s, e);
  }

  /** Every legal commit keeps every balance at its opening plus standing wins minus standing bets. */
  lemma LegalKeepsBalanced(s: Store, d: Writes)
    requires StoreInv(s) && Legal(s, d) && Balanced(s)
    ensures Entries(Apply(s, d)) && Balanced(Apply(s, d))
  {
    hide Rows, Indexed, OneReversal, Accounts, Entries, Events, InboxBacked, MoveCommit, OpenCommit, Legal, LiveSum,
         RowsGrow, Within,
         ReversalMovesWallet;
    var s' := Apply(s, d);
    LegalKeepsInv(s, d);
    forall id | id in s'.wallets
      ensures Recorded(s', EntriesOf(s'.ledger, id)) && s'.wallets[id].balance.minorUnits == LiveSum(s', EntriesOf(s'.ledger, id))
    {
      if d.wallet.Some? && d.wallet.value.id == id {
        WrittenBalance(s, d);
      } else {
        UnwrittenBalance(s, d, id);
      }
    }
  }

  lemma WrittenBalance(s: Store, d: Writes)
    requires Rows(s) && OneReversal(s) && Entries(s) && Events(s) && Balanced(s) && Legal(s, d) && RowsGrow(s, Apply(s, d)) && d.wallet.Some?
    ensures var s', id := Apply(s, d), d.wallet.value.id;
      Recorded(s', EntriesOf(s'.ledger, id)) && LiveSum(s', EntriesOf(s'.ledger, id)) == d.wallet.value.balance.minorUnits
  {
    hide Rows, OneReversal, Entries, Events, MoveCommit, OpenCommit, LiveSum, RowsGrow, RowFor, RowOk;
    if MoveCommit(s, d) {
      MovedBalance(s, d);
    } else {
      OpenedBalance(s, d);
    }
  }

  lemma UnwrittenBalance(s: Store, d: Writes, id: Id)
    requires Rows(s) && OneReversal(s) && Entries(s) && Balanced(s) && Legal(s, d) && RowsGrow(s, Apply(s, d))
    requires !(d.wallet.Some? && d.wallet.value.id == id) && id in s.wallets
    ensures var s' := Apply(s, d);
      Recorded(s', EntriesOf(s'.ledger, id)) && LiveSum(s', EntriesOf(s'.ledger, id)) == s.wallets[id].balance.minorUnits
  {
    hide Rows, OneReversal, Entries, MoveCommit, LiveSum, RowsGrow, Legal;
    OtherAccountUntouched(s, d, id);
    EntriesRecorded(s, id);
    if MoveCommit(s, d) {
      MoveWrites(s, d);
      OtherSum(s, d, id);
    } else {
      QuietCommit(s, d);
      WeightsSame(s, Apply(s, d), EntriesOf(s.ledger, id));
    }
  }

  lemma MoveWrites(s: Store, d: Writes)
    requires MoveCommit(s, d)
    ensures d.wallet.Some? && d.tx.Some?
  {
  }

  // ---------------------------------------------------------------- runs

  ghost predicate LastBalanced(m: Machine) {
    m.log != [] && Entries(Db(m.log)) && Balanced(Db(m.log))
  }

  lemma CommitBalanced(m: Machine, sid: nat, m': Machine)
    requires MachineInv(m) && LastBalanced(m) && Next(m, Commit(sid), m')
    ensures LastBalanced(m')
  {
    hide StoreInv, Extends, Running, PhaseOk, Legal, Balanced, Entries, Disjoint;
    Interleaving.KnownRunning(m, sid);
    Commits.CommitLegal(m.log, m.sessions[sid]);
    LegalKeepsBalanced(Db(m.log), m.sessions[sid].writes);
  }

  lemma NextBalanced(m: Machine, l: Label, m': Machine)
    requires MachineInv(m) && LastBalanced(m) && Next(m, l, m')
    ensures LastBalanced(m')
  {
    hide LogOk, SessionOk, Disjoint, Advance, Balanced, Entries, Content, IdLocks;
    if l.Commit? {
      CommitBalanced(m, l.sid, m');
    }
  }

  lemma {:induction false} RunBalanced(run: seq<Machine>)
    requires IsRun(run)
    ensures LastBalanced(run[|run| - 1])
  {
    hide MachineInv, Next;
    if |run| > 1 {
      var front := run[..|run| - 1];
      RunBalanced(front);
      Safety.RunSafe(front);
      var m, m' := run[|run| - 2], run[|run| - 1];
      assert front[|front| - 1] == m;
      var l :| Next(m, l, m');
      NextBalanced(m, l, m');
    }
  }

  /** In every reachable state every balance is its opening plus the standing wins minus the standing bets. */
  lemma BalancesAreExplained(m: Machine)
    requires Reachable(m)
    ensures LastBalanced(m)
  {
    hide LastBalanced, Next;
    var run :| IsRun(run) && run[|run| - 1] == m;
    RunBalanced(run);
  }
}
