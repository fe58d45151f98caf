/** The outbox repository and one publisher's poll, as they change the stored rows step by step. */
module Publisher {
  import opened Wrappers
  import opened Wallet
  import opened Ledger
  import opened Outbox
  import Backoff

  /** Rows a claim at this time may take; rows another claim has locked are skipped. */
  ghost function Available(rows: map<Id, OutRow>, skip: set<Id>, now: Time): set<Id> {
    set id | id in rows && id !in skip && Claimable(rows[id], now)
  }

  function IdsOf(records: seq<Record>): set<Id> {
    set r | r in records :: r.id
  }

  /** The records are those of distinct rows, as they were before the claim. */
  ghost predicate TrueRecords(rows: map<Id, OutRow>, records: seq<Record>) {
    && (forall i, j | 0 <= i < j < |records| :: records[i].id != records[j].id)
    && (forall i | 0 <= i < |records| :: records[i].id in rows && records[i] == RecordOf(records[i].id, rows[records[i].id]))
  }

  ghost predicate OldestFirst(rows: map<Id, OutRow>, taken: set<Id>, left: set<Id>)
    requires taken <= rows.Keys && left <= rows.Keys
  {
    forall p, q | p in taken && q in left :: rows[p].event.occurredAt <= rows[q].event.occurredAt
  }

  /** A claim in progress: the rows before it, the rows now, what it has taken and what it could still take. */
  ghost predicate InClaim(before: map<Id, OutRow>, rows: map<Id, OutRow>, records: seq<Record>, left: set<Id>, skip: set<Id>,
                          worker: string, now: Time) {
    && IdsOf(records) !! left && IdsOf(records) + left == Available(before, skip, now)
    && TrueRecords(before, records)
    && IdsOf(records) <= before.Keys && left <= before.Keys
    && rows == LeaseAll(before, IdsOf(records), worker, now)
    && OldestFirst(before, IdsOf(records), left)
  }

  lemma ClaimsOne(before: map<Id, OutRow>, rows: map<Id, OutRow>, records: seq<Record>, left: set<Id>, skip: set<Id>,
                  worker: string, now: Time, id: Id)
    requires InClaim(before, rows, records, left, skip, worker, now) && id in left
    requires forall other | other in left :: before[id].event.occurredAt <= before[other].event.occurredAt
    ensures id in rows && rows[id] == before[id]
    ensures InClaim(before, rows[id := Leased(rows[id], worker, now)], records + [RecordOf(id, rows[id])], left - {id}, skip, worker, now)
  {
    var record := RecordOf(id, rows[id]);
    IdsAdded(records, record);
    forall i | 0 <= i < |records|
      ensures records[i].id != id
    {
      assert records[i].id in IdsOf(records);
    }
    assert rows[id := Leased(rows[id], worker, now)] == LeaseAll(before, IdsOf(records) + {id}, worker, now);
  }

  lemma IdsAdded(records: seq<Record>, r: Record)
    ensures IdsOf(records + [r]) == IdsOf(records) + {r.id}
  {
    assert forall x :: x in records + [r] <==> x in records || x == r;
  }

  class OutboxRepository {
    var rows: map<Id, OutRow>

    constructor ()
      ensures rows == map[]
    {
      rows := map[];
    }

    method Create(id: Id, event: Event, now: Time) returns (err: Option<Error>)
      modifies this
      ensures id in old(rows) ==> err == Some(ErrAlreadyExists) && rows == old(rows)
      ensures id !in old(rows) ==> err == None && rows == old(rows)[id := OutRow(event, 0, now, None, None)]
    {
      if id in rows {
        return Some(ErrAlreadyExists);
      }
      rows := rows[id := OutRow(event, 0, now, None, None)];
      return None;
    }

    method Oldest(ids: set<Id>) returns (oldest: Id)
      requires ids != {} && forall id | id in ids :: id in rows
      ensures oldest in ids
      ensures forall id | id in ids :: rows[oldest].event.occurredAt <= rows[id].event.occurredAt
    {
      oldest :| oldest in ids;
      var rest := ids - {oldest};
      while rest != {}
        invariant rest <= ids && oldest in ids
        invariant forall id | id in ids - rest :: rows[oldest].event.occurredAt <= rows[id].event.occurredAt
        decreases |rest|
      {
        var next :| next in rest;
        if rows[next].event.occurredAt < rows[oldest].event.occurredAt {
          oldest := next;
        }
        rest := rest - {next};
      }
    }

    /** Leases the oldest claimable rows to the worker, at most `limit` of them, and leaves all others as they were. */
    method Claim(worker: string, limit: nat, now: Time, skip: set<Id>) returns (records: seq<Record>)
      modifies this
      ensures IdsOf(records) <= Available(old(rows), skip, now) && TrueRecords(old(rows), records)
      ensures rows == LeaseAll(old(rows), IdsOf(records), worker, now)
      ensures |records| <= limit
      ensures |records| < limit ==> IdsOf(records) == Available(old(rows), skip, now)
      ensures OldestFirst(old(rows), IdsOf(records), Available(old(rows), skip, now) - IdsOf(records))
    {
      var candidates := set id | id in rows && id !in skip && Claimable(rows[id], now);
      records := [];
      assert rows == LeaseAll(rows, {}, worker, now);
      while |records| < limit && candidates != {}
        invariant InClaim(old(rows), rows, records, candidates, skip, worker, now)
        invariant |records| <= limit
        decreases |candidates|
      {
        hide TrueRecords, Claimable;
        var id := Oldest(candidates);
        ClaimsOne(old(rows), rows, records, candidates, skip, worker, now, id);
        records := records + [RecordOf(id, rows[id])];
        rows := rows[id := rows[id].(lease := Some(Lease(worker, now)))];
        candidates := candidates - {id};
      }
      assert Available(old(rows), skip, now) - IdsOf(records) == candidates;
    }

    method MarkPublished(id: Id, now: Time) returns (err: Option<Error>)
      modifies this
      ensures id !in old(rows) ==> err == Some(ErrNotFound) && rows == old(rows)
      ensures id in old(rows) ==> err == None && rows == old(rows)[id := MarkedPublished(old(rows)[id], now)]
    {
      if id !in rows {
        return Some(ErrNotFound);
      }
      rows := rows[id := rows[id].(publishedAt := Some(now), lease := None)];
      return None;
    }

    method MarkFailed(id: Id, nextAttemptAt: Time) returns (err: Option<Error>)
      modifies this
      ensures id !in old(rows) ==> err == Some(ErrNotFound) && rows == old(rows)
      ensures id in old(rows) ==> err == None && rows == old(rows)[id := MarkedFailed(old(rows)[id], nextAttemptAt)]
    {
      if id !in rows {
        return Some(ErrNotFound);
      }
      rows := rows[id := rows[id].(attempts := rows[id].attempts + 1, nextAttemptAt := nextAttemptAt, lease := None)];
      return None;
    }
  }

  // ---------------------------------------------------------------- one poll

  /** What becomes of a message and of the call that records it: sent or not, its acknowledgement received or lost, the
      row then saved or not. */
  datatype Fate = Lost(saved: bool) | Unheard(saved: bool) | Heard(saved: bool)

  /** The row after its record was worked off: untouched if the recording call failed, published if the queue was heard
      to have the message, otherwise failed once more. */
  function After(r: OutRow, attempts: nat, fate: Fate, now: Time): OutRow {
    if !fate.saved then r
    else if fate.Heard? then MarkedPublished(r, now)
    else MarkedFailed(r, now + Backoff.Capped(attempts))
  }

  /** In columns: a recording call that fails changes nothing; an acknowledged message is published; any other is one
      more failed attempt, due again after min(2^n, 300) seconds, and no more published than before. */
  lemma AfterInColumns(r: OutRow, attempts: nat, fate: Fate, now: Time)
    ensures var r' := After(r, attempts, fate, now);
      && r'.event == r.event
      && (!fate.saved ==> r' == r)
      && (fate.saved && fate.Heard? ==>
            r'.publishedAt == Some(now) && r'.lease == None && r'.attempts == r.attempts && r'.nextAttemptAt == r.nextAttemptAt)
      && (fate.saved && !fate.Heard? ==>
            && r'.publishedAt == r.publishedAt && r'.lease == None && r'.attempts == r.attempts + 1
            && r'.nextAttemptAt == now + (if Backoff.Pow2(attempts) < 300 then Backoff.Pow2(attempts) else 300) * Backoff.SECOND)
  {
  }

  function MessageOf(r: Record, fate: Fate): seq<(Id, Event)> {
    if fate.Lost? then [] else [(r.id, r.event)]
  }

  /** The messages of the records that arrive, in order. */
  function Messages(records: seq<Record>, fates: Id -> Fate): seq<(Id, Event)> {
    if records == [] then []
    else
      var last := records[|records| - 1];
      Messages(records[..|records| - 1], fates) + MessageOf(last, fates(last.id))
  }

  class Publisher {
    const repo: OutboxRepository
    const workerId: string
    const processor: Backoff.Processor
    var queue: seq<(Id, Event)>

    constructor (repo: OutboxRepository, workerId: string, processor: Backoff.Processor)
      ensures this.repo == repo && this.workerId == workerId && this.processor == processor && queue == []
    {
      this.repo, this.workerId, this.processor, queue := repo, workerId, processor, [];
    }

    /** Sends one record and records the outcome on its row, if the row is there and the call goes through. */
    method PublishOne(record: Record, fate: Fate, now: Time)
      modifies this`queue, repo
      ensures record.id in old(repo.rows) ==>
        repo.rows == old(repo.rows)[record.id := After(old(repo.rows)[record.id], record.attempts, fate, now)]
      ensures record.id !in old(repo.rows) ==> repo.rows == old(repo.rows)
      ensures queue == old(queue) + if fate.Lost? then [] else [(record.id, record.event)]
      ensures forall id | id in repo.rows && repo.rows[id].publishedAt.Some? && old(repo.rows)[id].publishedAt.None? ::
        id == record.id && (record.id, record.event) in queue
    {
      if !fate.Lost? {
        queue := queue + [(record.id, record.event)];
      }
      if !fate.Heard? {
        Backoff.DelayExact(record.attempts, processor);
        if fate.saved {
          var _ := repo.MarkFailed(record.id, now + Backoff.Delay(record.attempts, processor));
        }
        return;
      }
      if fate.saved {
        var _ := repo.MarkPublished(record.id, now);
      }
    }

    /** Works off claimed records one by one. */
    method WorkOff(records: seq<Record>, now: Time, fates: Id -> Fate)
      requires Ready(repo.rows, records)
      modifies this`queue, repo
      ensures PolledTo(old(repo.rows), repo.rows, records, fates, now)
      ensures queue == old(queue) + Messages(records, fates)
    {
      hide PolledTo, Messages, After, IdsOf, Ready;
      NothingPolled(repo.rows, fates, now);
      for i := 0 to |records|
        invariant PolledTo(old(repo.rows), repo.rows, records[..i], fates, now)
        invariant queue == old(queue) + Messages(records[..i], fates)
      {
        var r := records[i];
        ghost var sent := Messages(records[..i], fates);
        ReadyAt(old(repo.rows), repo.rows, records, i, fates, now);
        PublishOne(r, fates(r.id), now);
        assert queue == old(queue) + (sent + MessageOf(r, fates(r.id)));
      }
      assert records[..|records|] == records;
    }

    /** One poll: a claim that fails changes nothing. Otherwise the records are worked off in order until the publisher is
        told to stop: each row whose recording call goes through ends published with its message sent, or failed with
        one more attempt and its delay; all others keep what they were, the claimed ones with their lease. */
    method PublishPending(now: Time, skip: set<Id>, claims: bool, stopsAt: nat, fates: Id -> Fate)
      returns (ghost records: seq<Record>, ghost done: nat)
      modifies this`queue, repo
      ensures !claims ==> records == [] && repo.rows == old(repo.rows)
      ensures IdsOf(records) <= Available(old(repo.rows), skip, now) && |records| <= CLAIM_BATCH_SIZE
      ensures claims && |records| < CLAIM_BATCH_SIZE ==> IdsOf(records) == Available(old(repo.rows), skip, now)
      ensures TrueRecords(old(repo.rows), records) && done == if stopsAt < |records| then stopsAt else |records|
      ensures PolledTo(LeaseAll(old(repo.rows), IdsOf(records), workerId, now), repo.rows, records[..done], fates, now)
      ensures queue == old(queue) + Messages(records[..done], fates)
      ensures OnlySentIsPublished(old(repo.rows), repo.rows, queue)
      ensures forall k | 0 <= k < done :: EndsInColumns(old(repo.rows), repo.rows, records[k], fates(records[k].id), workerId, now)
    {
      records, done := [], 0;
      if !claims {
        NothingClaimed(repo.rows, workerId, fates, now);
        return;
      }
      hide PolledTo, Messages, After, IdsOf, TrueRecords, LeaseAll, Available, OldestFirst, OnlySentIsPublished, EndsInColumns;
      var claimed := repo.Claim(workerId, CLAIM_BATCH_SIZE, now, skip);
      records := claimed;
      var n := if stopsAt < |claimed| then stopsAt else |claimed|;
      done := n;
      RecordsInRows(old(repo.rows), repo.rows, claimed, workerId, now, n);
      ClaimedUnpublished(old(repo.rows), claimed, skip, now);
      WorkOff(claimed[..n], now, fates);
      PollPublishesSent(old(repo.rows), repo.rows, claimed, n, workerId, fates, now, old(queue), queue);
      PollInColumns(old(repo.rows), repo.rows, claimed, n, workerId, fates, now);
    }
  }

  /** Whatever has become published has its own id and event in the queue. */
  ghost predicate OnlySentIsPublished(before: map<Id, OutRow>, rows: map<Id, OutRow>, queue: seq<(Id, Event)>) {
    forall id | id in rows && rows[id].publishedAt.Some? && (id in before ==> before[id].publishedAt.None?) :: (id, rows[id].event) in queue
  }

  /** What a poll makes of the row of a record it has worked off. */
  ghost predicate EndsInColumns(before: map<Id, OutRow>, rows: map<Id, OutRow>, r: Record, fate: Fate, worker: string, now: Time) {
    && r.id in before && r.id in rows && before[r.id].publishedAt == None && rows[r.id].event == before[r.id].event == r.event
    && (!fate.saved ==> rows[r.id] == before[r.id].(lease := Some(Lease(worker, now))))
    && (fate.saved && fate.Heard? ==> rows[r.id].publishedAt == Some(now) && rows[r.id].lease == None)
    && (fate.saved && !fate.Heard? ==>
          && rows[r.id].publishedAt == None && rows[r.id].lease == None && rows[r.id].attempts == before[r.id].attempts + 1
          && rows[r.id].nextAttemptAt
             == now + (if Backoff.Pow2(r.attempts) < 300 then Backoff.Pow2(r.attempts) else 300) * Backoff.SECOND)
  }

  lemma {:induction false} HeardIsSent(records: seq<Record>, fates: Id -> Fate, r: Record)
    requires r in records && !fates(r.id).Lost?
    ensures (r.id, r.event) in Messages(records, fates)
  {
    var n := |records| - 1;
    if records[n] != r {
      assert r in records[..n];
      HeardIsSent(records[..n], fates, r);
    }
  }

  lemma PollPublishesSent(before: map<Id, OutRow>, rows: map<Id, OutRow>, records: seq<Record>, n: nat, worker: string,
                          fates: Id -> Fate, now: Time, sent: seq<(Id, Event)>, queue: seq<(Id, Event)>)
    requires n <= |records| && TrueRecords(before, records)
    requires PolledTo(LeaseAll(before, IdsOf(records), worker, now), rows, records[..n], fates, now)
    requires queue == sent + Messages(records[..n], fates)
    ensures OnlySentIsPublished(before, rows, queue)
  {
    hide TrueRecords, Messages;
    forall id | id in rows && rows[id].publishedAt.Some? && (id in before ==> before[id].publishedAt.None?)
      ensures (id, rows[id].event) in queue
    {
      var r :| r in records[..n] && r.id == id;
      assert r in records;
      var k :| 0 <= k < |records| && records[k] == r;
      RecordIsTrue(before, records, k);
      HeardIsSent(records[..n], fates, r);
    }
  }

  lemma RecordIsTrue(before: map<Id, OutRow>, records: seq<Record>, k: nat)
    requires TrueRecords(before, records) && k < |records|
    ensures records[k].id in before && records[k] == RecordOf(records[k].id, before[records[k].id])
  {
  }

  lemma ClaimedUnpublished(rows: map<Id, OutRow>, records: seq<Record>, skip: set<Id>, now: Time)
    requires IdsOf(records) <= Available(rows, skip, now)
    ensures forall id | id in IdsOf(records) :: id in rows && rows[id].publishedAt == None
  {
    hide IdsOf;
  }

  lemma PollInColumns(before: map<Id, OutRow>, rows: map<Id, OutRow>, records: seq<Record>, n: nat, worker: string, fates: Id -> Fate, now: Time)
    requires n <= |records| && TrueRecords(before, records) && (forall id | id in IdsOf(records) :: id in before && before[id].publishedAt == None)
    requires PolledTo(LeaseAll(before, IdsOf(records), worker, now), rows, records[..n], fates, now)
    ensures forall k | 0 <= k < n :: EndsInColumns(before, rows, records[k], fates(records[k].id), worker, now)
  {
    hide TrueRecords, After;
    forall k | 0 <= k < n
      ensures EndsInColumns(before, rows, records[k], fates(records[k].id), worker, now)
    {
      RecordIsTrue(before, records, k);
      var r := records[k];
      assert r in records && r in records[..n];
      assert r.id in IdsOf(records) && r.id in IdsOf(records[..n]);
      AfterInColumns(Leased(before[r.id], worker, now), before[r.id].attempts, fates(r.id), now);
    }
  }

  lemma NothingClaimed(rows: map<Id, OutRow>, worker: string, fates: Id -> Fate, now: Time)
    ensures PolledTo(LeaseAll(rows, IdsOf([]), worker, now), rows, [], fates, now)
  {
  }

  lemma NothingPolled(rows: map<Id, OutRow>, fates: Id -> Fate, now: Time)
    ensures PolledTo(rows, rows, [], fates, now) && Messages([], fates) == []
  {
  }

  /** The records belong to distinct rows, and know how often those were tried. */
  ghost predicate Ready(rows: map<Id, OutRow>, records: seq<Record>) {
    && (forall i, j | 0 <= i < j < |records| :: records[i].id != records[j].id)
    && (forall i | 0 <= i < |records| :: records[i].id in rows && records[i].attempts == rows[records[i].id].attempts)
  }

  /** The next record finds its row as leased, and working it off is one step of the poll. */
  lemma ReadyAt(leased: map<Id, OutRow>, rows: map<Id, OutRow>, records: seq<Record>, i: nat, fates: Id -> Fate, now: Time)
    requires Ready(leased, records) && i < |records| && PolledTo(leased, rows, records[..i], fates, now)
    ensures var r := records[i];
      && r.id in rows && PolledTo(leased, rows[r.id := After(rows[r.id], r.attempts, fates(r.id), now)], records[..i + 1], fates, now)
      && Messages(records[..i + 1], fates) == Messages(records[..i], fates) + MessageOf(r, fates(r.id))
  {
    hide After, Messages, MessageOf;
    var r := records[i];
    assert records[..i + 1] == records[..i] + [r];
    Distinct(records, i);
    PollsOne(leased, rows, records[..i], fates, now, r);
    MessageAdded(records[..i], r, fates);
  }

  /** The rows once these records are worked off. */
  ghost predicate PolledTo(leased: map<Id, OutRow>, rows: map<Id, OutRow>, records: seq<Record>, fates: Id -> Fate, now: Time) {
    rows == map id | id in leased :: if id in IdsOf(records) then After(leased[id], leased[id].attempts, fates(id), now) else leased[id]
  }

  lemma PollsOne(leased: map<Id, OutRow>, rows: map<Id, OutRow>, records: seq<Record>, fates: Id -> Fate, now: Time, r: Record)
    requires PolledTo(leased, rows, records, fates, now) && r.id in leased && r.id !in IdsOf(records)
    ensures r.id in rows && rows[r.id] == leased[r.id]
    ensures PolledTo(leased, rows[r.id := After(leased[r.id], leased[r.id].attempts, fates(r.id), now)], records + [r], fates, now)
  {
    IdsAdded(records, r);
  }

  lemma RecordsInRows(before: map<Id, OutRow>, leased: map<Id, OutRow>, records: seq<Record>, worker: string, now: Time, n: nat)
    requires TrueRecords(before, records) && leased == LeaseAll(before, IdsOf(records), worker, now) && n <= |records|
    ensures Ready(leased, records[..n])
  {
  }

  lemma Distinct(records: seq<Record>, i: nat)
    requires i < |records| && forall a, b | 0 <= a < b < |records| :: records[a].id != records[b].id
    ensures records[i].id !in IdsOf(records[..i])
  {
  }

  lemma MessageAdded(records: seq<Record>, r: Record, fates: Id -> Fate)
    ensures Messages(records + [r], fates) == Messages(records, fates) + MessageOf(r, fates(r.id))
  {
    assert (records + [r])[..|records|] == records;
  }
}
