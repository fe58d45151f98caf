/** The outbox protocol: leased claims by any number of publishers, sends that may fail, and crashes at any step. */
module Outbox {
  import opened Wrappers
  import opened Wallet
  import opened Ledger
  import Backoff

  const LOCK_TTL: int := 30 * Backoff.SECOND
  const CLAIM_BATCH_SIZE := 20

  datatype Lease = Lease(worker: string, at: Time)

  datatype OutRow = OutRow(
    event: Event, attempts: nat, nextAttemptAt: Time, lease: Option<Lease>, publishedAt: Option<Time>)

  /** What a claim hands to the publisher. */
  datatype Record = Record(id: Id, event: Event, attempts: nat)

  function RecordOf(id: Id, r: OutRow): Record {
    Record(id, r.event, r.attempts)
  }

  // ---------------------------------------------------------------- the statements of the repository

  predicate Claimable(r: OutRow, at: Time) {
    && r.publishedAt == None
    && r.nextAttemptAt <= at
    && (r.lease == None || r.lease.value.at < at - LOCK_TTL)
  }

  function Leased(r: OutRow, worker: string, at: Time): OutRow {
    r.(lease := Some(Lease(worker, at)))
  }

  function MarkedPublished(r: OutRow, at: Time): OutRow {
    r.(publishedAt := Some(at), lease := None)
  }

  /** No check of who holds the lease. */
  function MarkedFailed(r: OutRow, next: Time): OutRow {
    r.(attempts := r.attempts + 1, nextAttemptAt := next, lease := None)
  }

  // ---------------------------------------------------------------- the machine

  /** Where a publisher is: idle, inside a claim that has locked some rows, or working off its records. */
  datatype Worker =
    | Idle
    | Claiming(startedAt: Time, picked: set<Id>)
    | Holding(records: seq<Record>)
    | Sent(record: Record, rest: seq<Record>)
    | NotSent(record: Record, rest: seq<Record>)

  /** What happened, in order. */
  datatype Happening =
    | Claimed(id: Id, worker: string, at: Time)
    | Failed(id: Id)
    | Published(id: Id)

  datatype State = State(
    now: Time, rows: map<Id, OutRow>, workers: map<string, Worker>, queue: seq<(Id, Event)>, history: seq<Happening>)

  ghost predicate LockedByClaim(s: State, id: Id) {
    exists w | w in s.workers :: s.workers[w].Claiming? && id in s.workers[w].picked
  }

  function PickedBy(s: State, w: string): set<Id> {
    if w in s.workers && s.workers[w].Claiming? then s.workers[w].picked else {}
  }

  datatype Label =
    | Tick(t: Time)
    | Insert(id: Id, event: Event)
    | Start(w: string)                                  // the claim's clock is read once, here
    | Pick(w: string, id: Id)                           // FOR UPDATE SKIP LOCKED, on the row as committed now
    | Commit(w: string, order: seq<Id>)
    | Send(w: string, delivered: bool, acknowledged: bool)
    | Confirm(w: string)
    | Retry(w: string, p: Backoff.Processor)
    | Skip(w: string)                                   // the database call failed: the publisher moves on
    | Crash(w: string)

  /** The records come back in some order. */
  predicate Arranges(order: seq<Id>, ids: set<Id>) {
    (set id | id in order) == ids && forall i, j | 0 <= i < j < |order| :: order[i] != order[j]
  }

  function ClaimedAll(order: seq<Id>, w: string, at: Time): seq<Happening> {
    seq(|order|, i requires 0 <= i < |order| => Claimed(order[i], w, at))
  }

  function LeaseAll(rows: map<Id, OutRow>, ids: set<Id>, w: string, at: Time): map<Id, OutRow> {
    map id | id in rows :: if id in ids then Leased(rows[id], w, at) else rows[id]
  }

  function RecordsOf(rows: map<Id, OutRow>, order: seq<Id>): seq<Record>
    requires forall id | id in order :: id in rows
  {
    seq(|order|, i requires 0 <= i < |order| => RecordOf(order[i], rows[order[i]]))
  }

  /** A publisher goes on with its remaining records. */
  function Next(rest: seq<Record>): Worker {
    if rest == [] then Idle else Holding(rest)
  }

  ghost predicate Step(s: State, l: Label, s': State) {
    match l
    case Tick(t) => t >= s.now && s' == s.(now := t)
    case Insert(id, event) =>
      id !in s.rows && event.id == id && s' == s.(rows := s.rows[id := OutRow(event, 0, s.now, None, None)])
    case Start(w) =>
      (w in s.workers ==> s.workers[w] == Idle) && s' == s.(workers := s.workers[w := Claiming(s.now, {})])
    case Pick(w, id) =>
      && w in s.workers && s.workers[w].Claiming? && |s.workers[w].picked| < CLAIM_BATCH_SIZE
      && id in s.rows && Claimable(s.rows[id], s.workers[w].startedAt) && !LockedByClaim(s, id)
      && s' == s.(workers := s.workers[w := Claiming(s.workers[w].startedAt, s.workers[w].picked + {id})])
    case Commit(w, order) =>
      && w in s.workers && s.workers[w].Claiming? && Arranges(order, s.workers[w].picked)
      && (forall id | id in order :: id in s.rows)
      && var at := s.workers[w].startedAt;
      s' == s.(rows := LeaseAll(s.rows, s.workers[w].picked, w, at), history := s.history + ClaimedAll(order, w, at),
               workers := s.workers[w := Next(RecordsOf(s.rows, order))])
    case Send(w, delivered, acknowledged) =>
      && w in s.workers && s.workers[w].Holding? && s.workers[w].records != []
      && (acknowledged ==> delivered)
      && var rec, rest := s.workers[w].records[0], s.workers[w].records[1..];
      s' == s.(queue := if delivered then s.queue + [(rec.id, rec.event)] else s.queue,
               workers := s.workers[w := if acknowledged then Sent(rec, rest) else NotSent(rec, rest)])
    case Confirm(w) =>
      && w in s.workers && s.workers[w].Sent? && s.workers[w].record.id in s.rows && !LockedByClaim(s, s.workers[w].record.id)
      && var id := s.workers[w].record.id;
      s' == s.(rows := s.rows[id := MarkedPublished(s.rows[id], s.now)], history := s.history + [Published(id)],
               workers := s.workers[w := Next(s.workers[w].rest)])
    case Retry(w, p) =>
      && w in s.workers && s.workers[w].NotSent? && s.workers[w].record.id in s.rows && !LockedByClaim(s, s.workers[w].record.id)
      && var id := s.workers[w].record.id;
      s' == s.(rows := s.rows[id := MarkedFailed(s.rows[id], s.now + Backoff.Delay(s.workers[w].record.attempts, p))],
               history := s.history + [Failed(id)], workers := s.workers[w := Next(s.workers[w].rest)])
    case Skip(w) =>
      && w in s.workers && (s.workers[w].Sent? || s.workers[w].NotSent?)
      && s' == s.(workers := s.workers[w := Next(s.workers[w].rest)])
    case Crash(w) =>
      w in s.workers && s' == s.(workers := s.workers - {w})
  }

  const INIT := State(0, map[], map[], [], [])

  ghost predicate Follows(s: State, s': State) {
    exists l :: Step(s, l, s')
  }

  ghost predicate IsRun(run: seq<State>) {
    run != [] && if |run| == 1 then run[0] == INIT
                 else IsRun(run[..|run| - 1]) && Follows(run[|run| - 2], run[|run| - 1])
  }

  // ---------------------------------------------------------------- invariants

  /** The place in the history of the last thing that happened to the row, or -1. */
  ghost function LastOn(h: seq<Happening>, id: Id): int
    ensures -1 <= LastOn(h, id) < |h|
    ensures LastOn(h, id) >= 0 ==> h[LastOn(h, id)].id == id
    ensures forall k | LastOn(h, id) < k < |h| :: h[k].id != id
  {
    if h == [] then -1
    else if h[|h| - 1].id == id then |h| - 1
    else LastOn(h[..|h| - 1], id)
  }

  /** A lease stands exactly when the last thing that happened to the row is the claim that took it. */
  ghost predicate LeaseTold(h: seq<Happening>, id: Id, r: OutRow) {
    var k := LastOn(h, id);
    && (r.lease.Some? ==> k >= 0 && h[k] == Claimed(id, r.lease.value.worker, r.lease.value.at))
    && (r.lease.None? ==> k < 0 || !h[k].Claimed?)
  }

  /** Between two claims of a row lies a failure of it, or the lease time. */
  ghost predicate Spaced(h: seq<Happening>) {
    forall i, j | 0 <= i < j < |h| && h[i].Claimed? && h[j].Claimed? && h[i].id == h[j].id ::
      FailedBetween(h, i, j) || h[j].at > h[i].at + LOCK_TTL
  }

  ghost predicate FailedBetween(h: seq<Happening>, i: int, j: int)
    requires 0 <= i <= j <= |h|
  {
    exists k | i < k < j :: h[k] == Failed(h[i].id)
  }

  ghost predicate PublishedIsLast(h: seq<Happening>) {
    forall i, j | 0 <= i < j < |h| && h[i].Published? && h[j].Claimed? :: h[i].id != h[j].id
  }

  /** A publisher's records are those of rows that exist, with their own events. */
  ghost predicate RecordOk(s: State, rec: Record) {
    rec.id in s.rows && s.rows[rec.id].event == rec.event
  }

  ghost predicate WorkerOk(s: State, w: string)
    requires w in s.workers
  {
    match s.workers[w]
    case Idle => true
    case Claiming(at, picked) => at <= s.now && forall id | id in picked :: id in s.rows && Claimable(s.rows[id], at)
    case Holding(records) => forall rec | rec in records :: RecordOk(s, rec)
    case Sent(rec, rest) => RecordOk(s, rec) && (rec.id, rec.event) in s.queue && forall r | r in rest :: RecordOk(s, r)
    case NotSent(rec, rest) => RecordOk(s, rec) && forall r | r in rest :: RecordOk(s, r)
  }

  ghost predicate RowTold(s: State, id: Id)
    requires id in s.rows
  {
    var r := s.rows[id];
    && r.event.id == id && LeaseTold(s.history, id, r)
    && (r.publishedAt.Some? ==> (id, r.event) in s.queue)
    && (r.publishedAt.Some? <==> Published(id) in s.history)
    && (r.lease.Some? ==> r.lease.value.at <= s.now)
  }

  ghost predicate Apart(s: State) {
    forall a, b | a in s.workers && b in s.workers && a != b :: PickedBy(s, a) !! PickedBy(s, b)
  }

  ghost predicate Inv(s: State) {
    && (forall id | id in s.rows :: RowTold(s, id))
    && (forall w | w in s.workers :: WorkerOk(s, w))
    && Apart(s)
    && (forall k | 0 <= k < |s.history| :: s.history[k].id in s.rows)
    && (forall m | m in s.queue :: m.0 in s.rows && s.rows[m.0].event == m.1)
    && Spaced(s.history) && PublishedIsLast(s.history)
  }

  // ---------------------------------------------------------------- the history grows

  lemma {:induction false} LastOnAppended(h: seq<Happening>, e: Happening, id: Id)
    ensures LastOn(h + [e], id) == if e.id == id then |h| else LastOn(h, id)
  {
    assert (h + [e])[..|h|] == h;
  }

  lemma {:induction false} LastOnBlock(h: seq<Happening>, order: seq<Id>, w: string, at: Time, id: Id)
    requires forall i, j | 0 <= i < j < |order| :: order[i] != order[j]
    ensures var h' := h + ClaimedAll(order, w, at); var k := LastOn(h', id);
      if id in order then k >= |h| && h'[k] == Claimed(id, w, at) else k == LastOn(h, id)
  {
    hide LastOn;
    if order == [] {
      assert h + ClaimedAll(order, w, at) == h;
    } else {
      var n := |order| - 1;
      var front := order[..n];
      LastOnBlock(h, front, w, at, id);
      var last := Claimed(order[n], w, at);
      assert ClaimedAll(order, w, at) == ClaimedAll(front, w, at) + [last];
      assert h + ClaimedAll(order, w, at) == (h + ClaimedAll(front, w, at)) + [last];
      LastOnAppended(h + ClaimedAll(front, w, at), last, id);
      assert id in order <==> id in front || id == order[n];
    }
  }

  lemma FailedBetweenStays(h: seq<Happening>, e: seq<Happening>, i: int, j: int)
    requires 0 <= i < j <= |h|
    ensures FailedBetween(h, i, j) ==> FailedBetween(h + e, i, j)
  {
    if FailedBetween(h, i, j) {
      var k :| i < k < j && h[k] == Failed(h[i].id);
      assert (h + e)[k] == Failed((h + e)[i].id);
    }
  }

  /** Something other than a claim keeps the spacing. */
  lemma SpacedNoClaim(h: seq<Happening>, e: Happening)
    requires Spaced(h) && !e.Claimed?
    ensures Spaced(h + [e])
  {
    hide FailedBetween;
    var h' := h + [e];
    forall i, j | 0 <= i < j < |h'| && h'[i].Claimed? && h'[j].Claimed? && h'[i].id == h'[j].id
      ensures FailedBetween(h', i, j) || h'[j].at > h'[i].at + LOCK_TTL
    {
      FailedBetweenStays(h, [e], i, j);
    }
  }

  /** The row a claim takes was last claimed long enough ago, or has failed since. */
  lemma ClaimIsSpaced(h: seq<Happening>, block: seq<Happening>, id: Id, r: OutRow, at: Time, i: nat, j: nat)
    requires Spaced(h) && LeaseTold(h, id, r) && Claimable(r, at) && !(Published(id) in h)
    requires i < |h| <= j < |h + block| && h[i].Claimed? && h[i].id == id
    ensures FailedBetween(h + block, i, j) || at > h[i].at + LOCK_TTL
  {
    var k := LastOn(h, id);
    assert i <= k;
    if r.lease.Some? {
      if i < k {
        FailedBetweenUpTo(h, block, i, k, j);
      }
    } else {
      assert h[k] != Published(id);
      assert h[k] == Failed(id);
      assert (h + block)[k] == Failed((h + block)[i].id);
    }
  }

  lemma FailedBetweenUpTo(h: seq<Happening>, block: seq<Happening>, i: nat, k: nat, j: nat)
    requires i < k < |h| <= j < |h + block|
    ensures FailedBetween(h, i, k) ==> FailedBetween(h + block, i, j)
  {
    if FailedBetween(h, i, k) {
      var x :| i < x < k && h[x] == Failed(h[i].id);
      assert (h + block)[x] == Failed((h + block)[i].id);
    }
  }

  /** All rows a claim takes are claimable at its clock. */
  ghost predicate Takes(s: State, order: seq<Id>, at: Time) {
    && (forall i, j | 0 <= i < j < |order| :: order[i] != order[j])
    && (forall id | id in order :: id in s.rows && Claimable(s.rows[id], at) && LeaseTold(s.history, id, s.rows[id])
                                   && !(Published(id) in s.history))
  }

  lemma SpacedByClaim(s: State, order: seq<Id>, w: string, at: Time)
    requires Spaced(s.history) && Takes(s, order, at)
    ensures Spaced(s.history + ClaimedAll(order, w, at))
  {
    hide FailedBetween, LeaseTold, Claimable;
    var h, block := s.history, ClaimedAll(order, w, at);
    var h' := h + block;
    forall i, j | 0 <= i < j < |h'| && h'[i].Claimed? && h'[j].Claimed? && h'[i].id == h'[j].id
      ensures FailedBetween(h', i, j) || h'[j].at > h'[i].at + LOCK_TTL
    {
      if j < |h| {
        FailedBetweenStays(h, block, i, j);
      } else {
        var id := order[j - |h|];
        assert h'[j] == Claimed(id, w, at);
        if i < |h| {
          ClaimIsSpaced(h, block, id, s.rows[id], at, i, j);
        }
      }
    }
  }

  lemma PublishedLastByClaim(s: State, order: seq<Id>, w: string, at: Time)
    requires PublishedIsLast(s.history) && Takes(s, order, at)
    ensures PublishedIsLast(s.history + ClaimedAll(order, w, at))
  {
    hide LeaseTold, Claimable;
    var h, block := s.history, ClaimedAll(order, w, at);
    var h' := h + block;
    forall i, j | 0 <= i < j < |h'| && h'[i].Published? && h'[j].Claimed?
      ensures h'[i].id != h'[j].id
    {
      if j >= |h| {
        var id := order[j - |h|];
        assert h'[j] == Claimed(id, w, at);
        if i < |h| {
          NotPublished(h, i, id);
        }
      }
    }
  }

  lemma NotPublished(h: seq<Happening>, i: nat, id: Id)
    requires i < |h| && h[i].Published? && !(Published(id) in h)
    ensures h[i].id != id
  {
    assert h[i] in h;
  }

  // ---------------------------------------------------------------- every step keeps the invariant

  /** Rows only gain: they stay, with their events, and stay published. */
  ghost predicate RowsGrow(s: State, s': State) {
    forall id | id in s.rows :: id in s'.rows && s'.rows[id].event == s.rows[id].event
                                && (s.rows[id].publishedAt.Some? ==> s'.rows[id].publishedAt.Some?)
  }

  lemma CommitTakes(s: State, w: string, order: seq<Id>, s': State)
    requires Inv(s) && Step(s, Commit(w, order), s')
    ensures Takes(s, order, s.workers[w].startedAt) && (forall id :: id in order <==> id in s.workers[w].picked)
    ensures s.workers[w].startedAt <= s.now
  {
    hide Spaced, PublishedIsLast, Apart, LeaseTold, Claimable;
    var picked := s.workers[w].picked;
    assert WorkerOk(s, w);
    assert forall id :: id in order <==> id in (set x | x in order);
    forall id | id in order
      ensures id in s.rows && Claimable(s.rows[id], s.workers[w].startedAt) && LeaseTold(s.history, id, s.rows[id])
              && !(Published(id) in s.history)
    {
      assert RowTold(s, id);
      ClaimableUnpublished(s.rows[id], s.workers[w].startedAt);
    }
  }

  lemma ClaimableUnpublished(r: OutRow, at: Time)
    requires Claimable(r, at)
    ensures r.publishedAt == None
  {
  }

  lemma CommitRow(s: State, w: string, order: seq<Id>, s': State, id: Id)
    requires Inv(s) && Step(s, Commit(w, order), s') && id in s.rows
    ensures id in s'.rows && RowTold(s', id)
  {
    hide Spaced, PublishedIsLast, Apart, Claimable, LockedByClaim;
    var at := s.workers[w].startedAt;
    CommitTakes(s, w, order, s');
    LastOnBlock(s.history, order, w, at, id);
    assert RowTold(s, id);
    var block := ClaimedAll(order, w, at);
    assert Published(id) in s.history + block <==> Published(id) in s.history by {
      assert forall k | 0 <= k < |block| :: block[k].Claimed?;
    }
  }

  lemma CommitWorker(s: State, w: string, order: seq<Id>, s': State, v: string)
    requires Inv(s) && Step(s, Commit(w, order), s') && v in s'.workers
    ensures WorkerOk(s', v)
  {
    hide Spaced, PublishedIsLast, LeaseTold, LockedByClaim;
    if v == w {
      var records := RecordsOf(s.rows, order);
      forall rec | rec in records
        ensures RecordOk(s', rec)
      {
        var i :| 0 <= i < |records| && records[i] == rec;
        assert order[i] in order;
      }
    } else {
      assert WorkerOk(s, v);
      assert PickedBy(s, v) !! PickedBy(s, w);
    }
  }

  lemma CommitKeeps(s: State, w: string, order: seq<Id>, s': State)
    requires Inv(s) && Step(s, Commit(w, order), s')
    ensures Inv(s') && RowsGrow(s, s')
  {
    hide RowTold, WorkerOk, Spaced, PublishedIsLast, Claimable, LeaseTold, LockedByClaim, FailedBetween;
    CommitTakes(s, w, order, s');
    var at := s.workers[w].startedAt;
    SpacedByClaim(s, order, w, at);
    PublishedLastByClaim(s, order, w, at);
    forall id | id in s'.rows
      ensures RowTold(s', id)
    {
      CommitRow(s, w, order, s', id);
    }
    forall v | v in s'.workers
      ensures WorkerOk(s', v)
    {
      CommitWorker(s, w, order, s', v);
    }
  }

  /** Confirm and retry change one row that no claim has locked. */
  lemma MarkKeeps(s: State, w: string, id: Id, r: OutRow, e: Happening, s': State)
    requires Inv(s) && id in s.rows && !LockedByClaim(s, id) && w in s.workers && (s.workers[w].Sent? || s.workers[w].NotSent?)
    requires e.id == id && !e.Claimed? && r.event == s.rows[id].event && r.lease == None
    requires if e.Published? then r.publishedAt.Some? && (id, r.event) in s.queue else e.Failed? && r.publishedAt == s.rows[id].publishedAt
    requires s' == s.(rows := s.rows[id := r], history := s.history + [e], workers := s.workers[w := Next(s.workers[w].rest)])
    ensures Inv(s') && RowsGrow(s, s')
  {
    hide Spaced, PublishedIsLast, Claimable, LeaseTold, FailedBetween, LockedByClaim;
    SpacedNoClaim(s.history, e);
    PublishedLastNoClaim(s.history, e);
    forall x | x in s'.rows
      ensures RowTold(s', x)
    {
      MarkedRow(s, id, r, e, s', x);
    }
    forall v | v in s'.workers
      ensures WorkerOk(s', v)
    {
      MarkedWorker(s, w, id, r, s', v);
    }
  }

  lemma PublishedLastNoClaim(h: seq<Happening>, e: Happening)
    requires PublishedIsLast(h) && !e.Claimed?
    ensures PublishedIsLast(h + [e])
  {
  }

  lemma MarkedRow(s: State, id: Id, r: OutRow, e: Happening, s': State, x: Id)
    requires Inv(s) && id in s.rows && x in s.rows
    requires e.id == id && !e.Claimed? && r.event == s.rows[id].event && r.lease == None
    requires if e.Published? then r.publishedAt.Some? && (id, r.event) in s.queue else e.Failed? && r.publishedAt == s.rows[id].publishedAt
    requires s'.rows == s.rows[id := r] && s'.history == s.history + [e] && s'.queue == s.queue && s'.now == s.now
    ensures RowTold(s', x)
  {
    hide Spaced, PublishedIsLast, WorkerOk, Apart;
    assert RowTold(s, x);
    LastOnAppended(s.history, e, x);
    assert Published(x) in s'.history <==> Published(x) in s.history || e == Published(x);
  }

  lemma MarkedWorker(s: State, w: string, id: Id, r: OutRow, s': State, v: string)
    requires Inv(s) && id in s.rows && !LockedByClaim(s, id) && w in s.workers && (s.workers[w].Sent? || s.workers[w].NotSent?)
    requires r.event == s.rows[id].event && v in s'.workers
    requires s'.rows == s.rows[id := r] && s'.queue == s.queue && s'.now == s.now && s'.workers == s.workers[w := Next(s.workers[w].rest)]
    ensures WorkerOk(s', v)
  {
    hide Spaced, PublishedIsLast, RowTold, Apart;
    assert WorkerOk(s, v) && WorkerOk(s, w);
    if v != w && s.workers[v].Claiming? {
      assert id !in s.workers[v].picked;
    }
  }

  /** A claim in progress picks only rows that no other has picked. */
  lemma PickApart(s: State, w: string, id: Id, s': State)
    requires Apart(s) && Step(s, Pick(w, id), s')
    ensures Apart(s')
  {
    hide Claimable;
    forall a, b | a in s'.workers && b in s'.workers && a != b
      ensures PickedBy(s', a) !! PickedBy(s', b)
    {
      assert PickedBy(s, a) !! PickedBy(s, b);
      if a == w {
        assert id !in PickedBy(s, b);
      } else if b == w {
        assert id !in PickedBy(s, a);
      }
    }
  }

  lemma PickedWorker(s: State, w: string, id: Id, s': State, v: string)
    requires Step(s, Pick(w, id), s') && v in s.workers && WorkerOk(s, v)
    ensures WorkerOk(s', v)
  {
    hide Claimable, LockedByClaim;
  }

  lemma PickKeeps(s: State, w: string, id: Id, s': State)
    requires Inv(s) && Step(s, Pick(w, id), s')
    ensures Inv(s') && RowsGrow(s, s')
  {
    hide Spaced, PublishedIsLast, Claimable, LeaseTold, WorkerOk, Apart, LockedByClaim;
    PickApart(s, w, id, s');
    forall x | x in s'.rows
      ensures RowTold(s', x)
    {
      assert RowTold(s, x);
    }
    forall v | v in s'.workers
      ensures WorkerOk(s', v)
    {
      PickedWorker(s, w, id, s', v);
    }
  }

  /** Rows and history as they were, a queue that only grew and a clock that went on. */
  ghost predicate Calm(s: State, s': State) {
    && s'.history == s.history && s'.now >= s.now
    && (forall id | id in s.rows :: id in s'.rows && s'.rows[id] == s.rows[id])
    && (forall m | m in s.queue :: m in s'.queue)
  }

  lemma CalmRow(s: State, s': State, id: Id)
    requires Calm(s, s') && id in s.rows && RowTold(s, id)
    ensures RowTold(s', id)
  {
    hide LeaseTold;
  }

  lemma CalmWorker(s: State, s': State, w: string)
    requires Calm(s, s') && w in s.workers && WorkerOk(s, w) && w in s'.workers && s'.workers[w] == s.workers[w]
    ensures WorkerOk(s', w)
  {
    hide Claimable;
  }

  lemma CalmKeeps(s: State, s': State)
    requires Inv(s) && Calm(s, s')
    requires forall id | id in s'.rows && id !in s.rows :: RowTold(s', id)
    requires forall w | w in s'.workers && !(w in s.workers && s'.workers[w] == s.workers[w]) :: WorkerOk(s', w)
    requires Apart(s') && forall m | m in s'.queue :: m.0 in s'.rows && s'.rows[m.0].event == m.1
    ensures Inv(s') && RowsGrow(s, s')
  {
    hide Spaced, PublishedIsLast, RowTold, WorkerOk, Apart;
    forall id | id in s'.rows
      ensures RowTold(s', id)
    {
      if id in s.rows {
        CalmRow(s, s', id);
      }
    }
    forall w | w in s'.workers
      ensures WorkerOk(s', w)
    {
      if w in s.workers && s'.workers[w] == s.workers[w] {
        CalmWorker(s, s', w);
      }
    }
  }

  lemma ApartStays(s: State, s': State)
    requires Apart(s) && forall w | w in s'.workers :: PickedBy(s', w) <= PickedBy(s, w)
    ensures Apart(s')
  {
    forall a, b | a in s'.workers && b in s'.workers && a != b
      ensures PickedBy(s', a) !! PickedBy(s', b)
    {
      assert a in s.workers && b in s.workers ==> PickedBy(s, a) !! PickedBy(s, b);
    }
  }

  lemma SendKeeps(s: State, w: string, delivered: bool, acknowledged: bool, s': State)
    requires Inv(s) && Step(s, Send(w, delivered, acknowledged), s')
    ensures Inv(s') && RowsGrow(s, s')
  {
    hide Spaced, PublishedIsLast, RowTold, Apart;
    var rec := s.workers[w].records[0];
    assert WorkerOk(s, w) && rec in s.workers[w].records && RecordOk(s, rec);
    var rest := s.workers[w].records[1..];
    assert forall r | r in rest :: r in s.workers[w].records;
    assert delivered ==> (rec.id, rec.event) in s'.queue;
    assert WorkerOk(s', w);
    ApartStays(s, s');
    CalmKeeps(s, s');
  }

  lemma InsertKeeps(s: State, id: Id, event: Event, s': State)
    requires Inv(s) && Step(s, Insert(id, event), s')
    ensures Inv(s') && RowsGrow(s, s')
  {
    hide Spaced, PublishedIsLast, WorkerOk, Apart;
    assert LastOn(s.history, id) < 0;
    ApartStays(s, s');
    CalmKeeps(s, s');
  }

  lemma SkipKeeps(s: State, w: string, s': State)
    requires Inv(s) && Step(s, Skip(w), s')
    ensures Inv(s') && RowsGrow(s, s')
  {
    hide Spaced, PublishedIsLast, RowTold, Apart;
    assert WorkerOk(s, w);
    ApartStays(s, s');
    CalmKeeps(s, s');
  }

  lemma QuietKeeps(s: State, l: Label, s': State)
    requires Inv(s) && Step(s, l, s') && (l.Tick? || l.Start? || l.Crash?)
    ensures Inv(s') && RowsGrow(s, s')
  {
    hide Spaced, PublishedIsLast, RowTold, Apart;
    ApartStays(s, s');
    CalmKeeps(s, s');
  }

  lemma StepKeeps(s: State, l: Label, s': State)
    requires Inv(s) && Step(s, l, s')
    ensures Inv(s') && RowsGrow(s, s')
  {
    hide Inv, RowsGrow;
    match l {
      case Insert(id, event) => InsertKeeps(s, id, event, s');
      case Pick(w, id) => PickKeeps(s, w, id, s');
      case Commit(w, order) => CommitKeeps(s, w, order, s');
      case Send(w, delivered, acknowledged) => SendKeeps(s, w, delivered, acknowledged, s');
      case Confirm(w) =>
        var id := s.workers[w].record.id;
        assert (id, s.rows[id].event) in s.queue by { SentIsQueued(s, w); }
        MarkKeeps(s, w, id, MarkedPublished(s.rows[id], s.now), Published(id), s');
      case Retry(w, p) =>
        var id := s.workers[w].record.id;
        MarkKeeps(s, w, id, MarkedFailed(s.rows[id], s.now + Backoff.Delay(s.workers[w].record.attempts, p)), Failed(id), s');
      case Skip(w) => SkipKeeps(s, w, s');
      case _ => QuietKeeps(s, l, s');
    }
  }

  lemma SentIsQueued(s: State, w: string)
    requires Inv(s) && w in s.workers && s.workers[w].Sent? && s.workers[w].record.id in s.rows
    ensures (s.workers[w].record.id, s.rows[s.workers[w].record.id].event) in s.queue
  {
    assert WorkerOk(s, w);
  }

  lemma {:induction false} RunKeeps(run: seq<State>)
    requires IsRun(run)
    ensures Inv(run[|run| - 1])
  {
    hide Inv, Step;
    if |run| == 1 {
      assert Inv(INIT) by { InitOk(); }
    } else {
      var front := run[..|run| - 1];
      RunKeeps(front);
      var l :| Step(run[|run| - 2], l, run[|run| - 1]);
      assert front[|front| - 1] == run[|run| - 2];
      StepKeeps(run[|run| - 2], l, run[|run| - 1]);
    }
  }

  lemma InitOk()
    ensures Inv(INIT)
  {
  }

  // ---------------------------------------------------------------- theorems

  /** No committed event is ever lost or altered, and published is for good. */
  lemma {:induction false} NothingIsLost(run: seq<State>, i: nat)
    requires IsRun(run) && i < |run|
    ensures RowsGrow(run[i], run[|run| - 1])
  {
    hide Inv, Step;
    if i < |run| - 1 {
      var front := run[..|run| - 1];
      NothingIsLost(front, i);
      RunKeeps(front);
      assert front[|front| - 1] == run[|run| - 2] && front[i] == run[i];
      var l :| Step(run[|run| - 2], l, run[|run| - 1]);
      StepKeeps(run[|run| - 2], l, run[|run| - 1]);
    }
  }

  /** A published row was sent, under its own id and with its own event, and everything sent is a committed row's. */
  lemma PublishedWasSent(run: seq<State>, id: Id)
    requires IsRun(run) && id in run[|run| - 1].rows
    ensures var s := run[|run| - 1];
      && (s.rows[id].publishedAt.Some? ==> (id, s.rows[id].event) in s.queue)
      && (forall m | m in s.queue :: m.0 in s.rows && s.rows[m.0].event == m.1)
  {
    hide Step, Spaced, PublishedIsLast, WorkerOk, Apart, LeaseTold, Follows;
    RunKeeps(run);
    assert RowTold(run[|run| - 1], id);
  }

  /** Between two claims of one row, by whichever publishers, it was marked failed or the lease time passed; and no row
      is claimed after it was published. */
  lemma ClaimsAreSpaced(run: seq<State>, i: nat, j: nat)
    requires IsRun(run) && i < j < |run[|run| - 1].history|
    requires var h := run[|run| - 1].history; h[j].Claimed? && h[i].id == h[j].id
    ensures var h := run[|run| - 1].history;
      && !h[i].Published?
      && (h[i].Claimed? ==> h[j].at > h[i].at + LOCK_TTL || exists k | i < k < j :: h[k] == Failed(h[i].id))
  {
    hide Step, RowTold, WorkerOk, Apart, Follows;
    RunKeeps(run);
    var h := run[|run| - 1].history;
    if h[i].Claimed? {
      assert FailedBetween(h, i, j) || h[j].at > h[i].at + LOCK_TTL;
    }
  }

  /** Claims in progress at the same time hold different rows. */
  lemma ConcurrentClaimsDiffer(run: seq<State>, a: string, b: string)
    requires IsRun(run) && a != b && a in run[|run| - 1].workers && b in run[|run| - 1].workers
    ensures PickedBy(run[|run| - 1], a) !! PickedBy(run[|run| - 1], b)
  {
    hide Step, RowTold, WorkerOk, Spaced, PublishedIsLast, Follows;
    RunKeeps(run);
  }

  /** From when on a row can be claimed, if nothing else happens to it. */
  function FreeAt(r: OutRow): Time {
    if r.lease.Some? && r.lease.value.at + LOCK_TTL >= r.nextAttemptAt then r.lease.value.at + LOCK_TTL + 1 else r.nextAttemptAt
  }

  lemma ClaimableExactlyFromThen(r: OutRow, at: Time)
    requires r.publishedAt == None
    ensures Claimable(r, at) <==> at >= FreeAt(r)
  {
  }

  /** An unpublished row never gets stuck: whatever crashed before, once its lease and delay are over any idle
      publisher can claim it, and then holds exactly its record. */
  lemma UnpublishedIsClaimable(s: State, id: Id, w: string, t: Time)
    requires id in s.rows && s.rows[id].publishedAt == None && !LockedByClaim(s, id)
    requires (w in s.workers ==> s.workers[w] == Idle) && t >= s.now && t >= FreeAt(s.rows[id])
    ensures exists s1, s2, s3, s4 ::
      && Step(s, Tick(t), s1) && Step(s1, Start(w), s2) && Step(s2, Pick(w, id), s3) && Step(s3, Commit(w, [id]), s4)
      && w in s4.workers && s4.workers[w] == Holding([RecordOf(id, s.rows[id])])
  {
    var s1 := s.(now := t);
    var s2 := s1.(workers := s1.workers[w := Claiming(t, {})]);
    var s3 := s2.(workers := s2.workers[w := Claiming(t, {} + {id})]);
    assert Step(s, Tick(t), s1);
    assert Step(s1, Start(w), s2);
    NotLocked(s, s2, id, w);
    ClaimableExactlyFromThen(s.rows[id], t);
    assert Step(s2, Pick(w, id), s3);
    assert (set x | x in [id]) == {id};
    var s4 := s3.(rows := LeaseAll(s3.rows, {id}, w, t), history := s3.history + ClaimedAll([id], w, t),
                  workers := s3.workers[w := Next(RecordsOf(s3.rows, [id]))]);
    assert s3.workers[w].picked == {id};
    assert Step(s3, Commit(w, [id]), s4);
    assert RecordsOf(s3.rows, [id]) == [RecordOf(id, s.rows[id])];
  }

  lemma NotLocked(s: State, s': State, id: Id, w: string)
    requires !LockedByClaim(s, id) && s'.workers == s.workers[w := Claiming(s'.now, {})]
    ensures !LockedByClaim(s', id)
  {
  }
}
