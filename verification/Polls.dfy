/** One poll of the publisher's code is a run of the outbox protocol: what is proved of every run holds of the code. */
module Polls {
  import opened Wrappers
  import opened Wallet
  import opened Outbox
  import opened Publisher
  import Backoff

  // ---------------------------------------------------------------- stretches of a run

  /** Some steps of the protocol lead from the one state to the other. */
  ghost predicate IsStretch(run: seq<State>, s: State, s': State) {
    run != [] && run[0] == s && run[|run| - 1] == s' && forall k | 0 <= k < |run| - 1 :: Follows(run[k], run[k + 1])
  }

  ghost predicate Leads(s: State, s': State) {
    exists run :: IsStretch(run, s, s')
  }

  lemma Stays(s: State)
    ensures Leads(s, s)
  {
    assert IsStretch([s], s, s);
  }

  lemma LeadsOn(s: State, s': State, l: Label, s'': State)
    requires Leads(s, s') && Step(s', l, s'')
    ensures Leads(s, s'')
  {
    hide Step;
    var run :| IsStretch(run, s, s');
    var longer := run + [s''];
    assert Follows(s', s'');
    forall k | 0 <= k < |longer| - 1
      ensures Follows(longer[k], longer[k + 1])
    {
      if k < |run| - 1 {
        assert Follows(run[k], run[k + 1]);
      }
    }
    assert IsStretch(longer, s, s'');
  }

  lemma {:induction false} StretchExtendsRun(before: seq<State>, stretch: seq<State>, s: State, s': State)
    requires IsRun(before) && before[|before| - 1] == s && IsStretch(stretch, s, s')
    ensures exists run :: IsRun(run) && run[|run| - 1] == s'
    decreases |stretch|
  {
    hide Follows;
    if |stretch| > 1 {
      var longer := before + [stretch[1]];
      assert longer[..|longer| - 1] == before;
      assert Follows(stretch[0], stretch[1]);
      forall k | 0 <= k < |stretch[1..]| - 1
        ensures Follows(stretch[1..][k], stretch[1..][k + 1])
      {
        assert Follows(stretch[k + 1], stretch[k + 2]);
      }
      StretchExtendsRun(longer, stretch[1..], stretch[1], s');
    } else {
      assert before[|before| - 1] == s';
    }
  }

  // ---------------------------------------------------------------- working off one record

  function StepFor(w: string, fate: Fate, p: Backoff.Processor): Label {
    if !fate.saved then Skip(w) else if fate.Heard? then Confirm(w) else Retry(w, p)
  }

  /** The state once a record is worked off as the code does it. */
  function WorkedOff(s: State, w: string, r: Record, rest: seq<Record>, fate: Fate): State
    requires r.id in s.rows
  {
    s.(rows := s.rows[r.id := After(s.rows[r.id], r.attempts, fate, s.now)], queue := s.queue + MessageOf(r, fate),
       workers := s.workers[w := Next(rest)],
       history := s.history + if !fate.saved then [] else if fate.Heard? then [Published(r.id)] else [Failed(r.id)])
  }

  function Between(s: State, w: string, r: Record, rest: seq<Record>, fate: Fate): State {
    s.(queue := s.queue + MessageOf(r, fate), workers := s.workers[w := if fate.Heard? then Sent(r, rest) else NotSent(r, rest)])
  }

  /** One record: a send, and then the protocol's confirmation, retry or skip, as its fate has it. */
  lemma PublishOneIsTwoSteps(s: State, w: string, records: seq<Record>, fate: Fate, p: Backoff.Processor)
    requires w in s.workers && s.workers[w] == Holding(records) && records != [] && records[0].id in s.rows
    requires !LockedByClaim(s, records[0].id)
    ensures var r, rest := records[0], records[1..];
      && Step(s, Send(w, !fate.Lost?, fate.Heard?), Between(s, w, r, rest, fate))
      && Step(Between(s, w, r, rest, fate), StepFor(w, fate, p), WorkedOff(s, w, r, rest, fate))
  {
    var r, rest := records[0], records[1..];
    var mid, end := Between(s, w, r, rest, fate), WorkedOff(s, w, r, rest, fate);
    assert s.queue + [] == s.queue && s.history + [] == s.history;
    assert Step(s, Send(w, !fate.Lost?, fate.Heard?), mid);
    StillUnlocked(s, mid, w, r.id);
    assert mid.workers[w := Next(rest)] == end.workers;
    if fate.saved {
      Backoff.DelayExact(r.attempts, p);
    } else {
      assert s.rows[r.id := s.rows[r.id]] == s.rows;
    }
  }

  lemma StillUnlocked(s: State, s': State, w: string, id: Id)
    requires !LockedByClaim(s, id) && w in s'.workers && !s'.workers[w].Claiming? && s'.workers.Keys == s.workers.Keys + {w}
    requires forall v | v in s.workers && v != w :: s'.workers[v] == s.workers[v]
    ensures !LockedByClaim(s', id)
  {
  }

  // ---------------------------------------------------------------- working off a batch

  ghost predicate NobodyClaims(s: State, records: seq<Record>) {
    forall r | r in records :: !LockedByClaim(s, r.id)
  }

  /** Working off the first `n` records one by one leads where the code's loop ends. */
  lemma {:induction false} WorkOffLeads(s: State, w: string, records: seq<Record>, n: nat, fates: Id -> Fate, p: Backoff.Processor)
    returns (s': State)
    requires w in s.workers && s.workers[w] == Next(records) && n <= |records| && Ready(s.rows, records) && NobodyClaims(s, records)
    ensures Leads(s, s') && s'.now == s.now && w in s'.workers && s'.workers[w] == Next(records[n..])
    ensures PolledTo(s.rows, s'.rows, records[..n], fates, s.now) && s'.queue == s.queue + Messages(records[..n], fates)
    ensures s'.workers.Keys == s.workers.Keys && forall v | v in s.workers && v != w :: s'.workers[v] == s.workers[v]
  {
    hide Leads, Step, After, Messages, LockedByClaim;
    if n == 0 {
      s' := s;
      Stays(s);
      NothingPolled(s.rows, fates, s.now);
      assert records[0..] == records && s.queue + [] == s.queue;
    } else {
      var m := n - 1;
      var mid := WorkOffLeads(s, w, records, m, fates, p);
      var r, rest := records[m], records[m..][1..];
      assert records[m..][0] == r && rest == records[n..];
      assert r in records;
      SameLocks(s, mid, w, r.id);
      RowIsThere(s.rows, mid.rows, records, m, fates, s.now);
      PublishOneIsTwoSteps(mid, w, records[m..], fates(r.id), p);
      s' := WorkedOff(mid, w, r, rest, fates(r.id));
      LeadsOn(s, mid, Send(w, !fates(r.id).Lost?, fates(r.id).Heard?), Between(mid, w, r, rest, fates(r.id)));
      LeadsOn(s, Between(mid, w, r, rest, fates(r.id)), StepFor(w, fates(r.id), p), s');
      ReadyAt(s.rows, mid.rows, records, m, fates, s.now);
      assert (s.queue + Messages(records[..m], fates)) + MessageOf(r, fates(r.id)) == s.queue + (Messages(records[..m], fates) + MessageOf(r, fates(r.id)));
    }
  }

  lemma RowIsThere(leased: map<Id, OutRow>, rows: map<Id, OutRow>, records: seq<Record>, m: nat, fates: Id -> Fate, now: Time)
    requires Ready(leased, records) && m < |records| && PolledTo(leased, rows, records[..m], fates, now)
    ensures records[m].id in rows
  {
  }

  lemma SameLocks(s: State, s': State, w: string, id: Id)
    requires !LockedByClaim(s, id) && s'.workers.Keys == s.workers.Keys && w in s'.workers && !s'.workers[w].Claiming?
    requires forall v | v in s.workers && v != w :: s'.workers[v] == s.workers[v]
    ensures !LockedByClaim(s', id)
  {
  }

  // ---------------------------------------------------------------- the claim

  function IdsFrom(records: seq<Record>): seq<Id> {
    seq(|records|, k requires 0 <= k < |records| => records[k].id)
  }

  /** The claim in progress, with the first `k` records picked. */
  function Picking(s: State, w: string, records: seq<Record>, k: nat): State
    requires k <= |records|
  {
    s.(workers := s.workers[w := Claiming(s.now, IdsOf(records[..k]))])
  }

  lemma StartsPicking(s: State, w: string, records: seq<Record>)
    requires w in s.workers ==> s.workers[w] == Idle
    ensures Step(s, Start(w), Picking(s, w, records, 0)) && IdsOf(records[..0]) == {}
  {
    assert IdsOf(records[..0]) == {};
  }

  lemma PicksOne(s: State, w: string, records: seq<Record>, k: nat)
    requires k < |records| <= CLAIM_BATCH_SIZE && |IdsOf(records[..k])| == k && records[k].id !in IdsOf(records[..k])
    requires records[k].id in s.rows && Claimable(s.rows[records[k].id], s.now) && !LockedByClaim(s, records[k].id)
    ensures Step(Picking(s, w, records, k), Pick(w, records[k].id), Picking(s, w, records, k + 1))
    ensures |IdsOf(records[..k + 1])| == k + 1
  {
    hide Claimable, LockedByClaim, IdsOf;
    var r, mid := records[k], Picking(s, w, records, k);
    assert records[..k + 1] == records[..k] + [r];
    IdsAdded(records[..k], r);
    NotPickedYet(s, mid, w, records[..k], r.id);
    assert mid.workers[w := Claiming(s.now, IdsOf(records[..k]) + {r.id})] == Picking(s, w, records, k + 1).workers;
  }

  lemma {:induction false} PicksLead(s: State, w: string, records: seq<Record>, k: nat)
    requires k <= |records| <= CLAIM_BATCH_SIZE && (w in s.workers ==> s.workers[w] == Idle)
    requires forall i, j | 0 <= i < j < |records| :: records[i].id != records[j].id
    requires forall r | r in records :: r.id in s.rows && Claimable(s.rows[r.id], s.now) && !LockedByClaim(s, r.id)
    ensures Leads(s, Picking(s, w, records, k)) && |IdsOf(records[..k])| == k
  {
    hide Leads, Claimable, LockedByClaim, Step, IdsOf, Picking;
    if k == 0 {
      Stays(s);
      StartsPicking(s, w, records);
      LeadsOn(s, s, Start(w), Picking(s, w, records, 0));
    } else {
      PicksLead(s, w, records, k - 1);
      Distinct(records, k - 1);
      PicksOne(s, w, records, k - 1);
      LeadsOn(s, Picking(s, w, records, k - 1), Pick(w, records[k - 1].id), Picking(s, w, records, k));
    }
  }

  lemma NotPickedYet(s: State, s': State, w: string, records: seq<Record>, id: Id)
    requires !LockedByClaim(s, id) && id !in IdsOf(records) && s'.workers == s.workers[w := Claiming(s.now, IdsOf(records))]
    ensures !LockedByClaim(s', id)
  {
    hide IdsOf;
  }

  lemma OrderArranges(records: seq<Record>)
    requires forall i, j | 0 <= i < j < |records| :: records[i].id != records[j].id
    ensures Arranges(IdsFrom(records), IdsOf(records))
  {
    var order := IdsFrom(records);
    forall id | id in IdsOf(records)
      ensures id in order
    {
      var r :| r in records && r.id == id;
      var k :| 0 <= k < |records| && records[k] == r;
      assert order[k] == id;
    }
    forall id | id in order
      ensures id in IdsOf(records)
    {
      var k :| 0 <= k < |order| && order[k] == id;
      assert records[k] in records;
    }
    assert (set id | id in order) == IdsOf(records);
  }

  /** The state once the claim is committed: the rows leased, the records in hand. */
  function ClaimedState(s: State, w: string, records: seq<Record>): State {
    s.(rows := LeaseAll(s.rows, IdsOf(records), w, s.now), history := s.history + ClaimedAll(IdsFrom(records), w, s.now),
       workers := s.workers[w := Next(records)])
  }

  lemma ClaimLeads(s: State, w: string, records: seq<Record>, skip: set<Id>)
    requires (w in s.workers ==> s.workers[w] == Idle) && |records| <= CLAIM_BATCH_SIZE && TrueRecords(s.rows, records)
    requires IdsOf(records) <= Available(s.rows, skip, s.now) && forall id | id in s.rows && LockedByClaim(s, id) :: id in skip
    ensures Leads(s, ClaimedState(s, w, records))
  {
    hide Leads, Claimable, LockedByClaim;
    forall r | r in records
      ensures r.id in s.rows && Claimable(s.rows[r.id], s.now) && !LockedByClaim(s, r.id)
    {
      assert r.id in IdsOf(records);
    }
    var n := |records|;
    PicksLead(s, w, records, n);
    assert records[..n] == records;
    OrderArranges(records);
    var mid, order := Picking(s, w, records, n), IdsFrom(records);
    OrderInRows(s.rows, records);
    assert RecordsOf(s.rows, order) == records;
    assert mid.workers[w := Next(records)] == ClaimedState(s, w, records).workers;
    assert Step(mid, Commit(w, order), ClaimedState(s, w, records));
    LeadsOn(s, mid, Commit(w, order), ClaimedState(s, w, records));
  }

  lemma OrderInRows(rows: map<Id, OutRow>, records: seq<Record>)
    requires TrueRecords(rows, records)
    ensures forall id | id in IdsFrom(records) :: id in rows
  {
  }

  // ---------------------------------------------------------------- the poll

  /** A poll of the code, whatever the fates of its messages and wherever it stops, is a stretch of a run of the protocol,
      and leaves the rows and the queue as that stretch does. */
  lemma PollIsStretch(s: State, w: string, records: seq<Record>, done: nat, skip: set<Id>, fates: Id -> Fate, p: Backoff.Processor)
    returns (s': State)
    requires (w in s.workers ==> s.workers[w] == Idle) && |records| <= CLAIM_BATCH_SIZE && TrueRecords(s.rows, records) && done <= |records|
    requires IdsOf(records) <= Available(s.rows, skip, s.now) && forall id | id in s.rows && LockedByClaim(s, id) :: id in skip
    ensures Leads(s, s') && s'.now == s.now && s'.queue == s.queue + Messages(records[..done], fates)
    ensures PolledTo(LeaseAll(s.rows, IdsOf(records), w, s.now), s'.rows, records[..done], fates, s.now)
  {
    hide Leads, LockedByClaim, Messages, PolledTo, Claimable;
    ClaimLeads(s, w, records, skip);
    var mid := ClaimedState(s, w, records);
    RecordsInRows(s.rows, mid.rows, records, w, s.now, |records|);
    assert records[..|records|] == records;
    forall r | r in records
      ensures !LockedByClaim(mid, r.id)
    {
      assert r.id in IdsOf(records);
      StillUnlocked(s, mid, w, r.id);
    }
    s' := WorkOffLeads(mid, w, records, done, fates, p);
    LeadsThrough(s, mid, s');
  }

  lemma LeadsThrough(a: State, b: State, c: State)
    requires Leads(a, b) && Leads(b, c)
    ensures Leads(a, c)
  {
    hide Follows;
    var run :| IsStretch(run, a, b);
    var on :| IsStretch(on, b, c);
    var whole := run + on[1..];
    forall k | 0 <= k < |whole| - 1
      ensures Follows(whole[k], whole[k + 1])
    {
      if k < |run| - 1 {
        assert Follows(run[k], run[k + 1]);
      } else {
        var j := k - (|run| - 1);
        assert whole[k] == on[j] && whole[k + 1] == on[j + 1];
        assert Follows(on[j], on[j + 1]);
      }
    }
    assert IsStretch(whole, a, c);
  }

  /** So, starting from any state of any run, a poll leaves every published row sent, with its own id and event, and loses
      no row. */
  lemma PolledRowsWereSent(run: seq<State>, w: string, records: seq<Record>, done: nat, skip: set<Id>, fates: Id -> Fate, p: Backoff.Processor)
    returns (s': State)
    requires IsRun(run)
    requires var s := run[|run| - 1];
      && (w in s.workers ==> s.workers[w] == Idle) && |records| <= CLAIM_BATCH_SIZE && TrueRecords(s.rows, records) && done <= |records|
      && IdsOf(records) <= Available(s.rows, skip, s.now) && forall id | id in s.rows && LockedByClaim(s, id) :: id in skip
    ensures var s := run[|run| - 1];
      && PolledTo(LeaseAll(s.rows, IdsOf(records), w, s.now), s'.rows, records[..done], fates, s.now)
      && s'.queue == s.queue + Messages(records[..done], fates)
    ensures exists longer :: IsRun(longer) && longer[|longer| - 1] == s'
    ensures forall id | id in s'.rows && s'.rows[id].publishedAt.Some? :: (id, s'.rows[id].event) in s'.queue
  {
    hide Follows, LockedByClaim, Claimable, Messages, PolledTo, LeaseAll, IdsOf, TrueRecords, Available, IsStretch;
    var s := run[|run| - 1];
    s' := PollIsStretch(s, w, records, done, skip, fates, p);
    var stretch :| IsStretch(stretch, s, s');
    StretchExtendsRun(run, stretch, s, s');
    var longer :| IsRun(longer) && longer[|longer| - 1] == s';
    forall id | id in s'.rows && s'.rows[id].publishedAt.Some?
      ensures (id, s'.rows[id].event) in s'.queue
    {
      PublishedWasSent(longer, id);
    }
  }
}
