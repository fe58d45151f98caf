/** At-least-once delivery: how often a request can act, and what the removal of a message from the queue means. */
module Delivery {
  import opened Wallet
  import opened WagerTx
  import opened Store
  import opened Invariants
  import opened Machine
  import opened Sessions
  import opened Safety
  import Process
  import Interleaving

  /** The rows would collide in a unique index. */
  ghost predicate SameRequest(a: TxRow, b: TxRow) {
    || (a.terms.idempotencyKey != "" && a.terms.idempotencyKey == b.terms.idempotencyKey)
    || (a.terms.providerId != "" && OpOf(a.terms) == OpOf(b.terms))
  }

  /** However often a request is sent, over either channel and with any crashes, it has one row and one entry. */
  lemma ActsOnce(m: Machine, i: nat, j: nat, a: Id, b: Id)
    requires Reachable(m) && a in Db(m.log).txs && b in Db(m.log).txs
    requires SameRequest(Db(m.log).txs[a], Db(m.log).txs[b])
    ensures a == b
    ensures i < |Db(m.log).ledger| && j < |Db(m.log).ledger| && Db(m.log).ledger[i].transactionId == a && Db(m.log).ledger[j].transactionId == b ==>
      i == j
  {
    hide Reachable, Extends, SessionOk, Disjoint, Rows, OneReversal, Accounts, InboxBacked, OwnersOk, EntryOk;
    ReachableSafe(m);
    assert StoreInv(Db(m.log));
  }

  // ---------------------------------------------------------------- deletion

  /** Deliveries are faithful up to this state: every copy of a message carries the same body. */
  ghost predicate Faithful(m: Machine, body: string -> Input) {
    forall sid | sid in m.sessions && m.sessions[sid].op.SqsMessage? ::
      m.sessions[sid].op.input == body(m.sessions[sid].op.messageId)
  }

  ghost predicate AlwaysFaithful(run: seq<Machine>, body: string -> Input) {
    forall k | 0 <= k < |run| :: Faithful(run[k], body)
  }

  ghost predicate StoredFaithfully(m: Machine, body: string -> Input)
    requires m.log != []
  {
    && (forall id | id in Db(m.log).inbox :: Db(m.log).inbox[id] == body(id))
    && (forall d | d in m.deleted :: d.1 == body(d.0))
  }

  lemma CommitStores(m: Machine, sid: nat, m': Machine, body: string -> Input)
    requires MachineInv(m) && Next(m, Commit(sid), m') && Faithful(m, body) && StoredFaithfully(m, body)
    ensures StoredFaithfully(m', body)
  {
    hide LogOk, PhaseOk, Guard, HoldsIds;
    Interleaving.KnownRunning(m, sid);
    RunningFacts(m.log, m.sessions[sid]);
  }

  lemma NextStores(m: Machine, l: Label, m': Machine, body: string -> Input)
    requires MachineInv(m) && Next(m, l, m') && Faithful(m, body) && StoredFaithfully(m, body)
    ensures m'.log != [] && StoredFaithfully(m', body)
  {
    hide LogOk, SessionOk, Advance, Disjoint, Content, IdLocks;
    if l.Commit? {
      CommitStores(m, l.sid, m', body);
    }
  }

  lemma {:induction false} RunStores(run: seq<Machine>, body: string -> Input)
    requires IsRun(run) && AlwaysFaithful(run, body)
    ensures var m := run[|run| - 1]; m.log != [] && StoredFaithfully(m, body)
  {
    hide MachineInv, Next, Faithful;
    if |run| > 1 {
      var front := run[..|run| - 1];
      assert AlwaysFaithful(front, body);
      RunStores(front, body);
      RunSafe(front);
      var m, m' := run[|run| - 2], run[|run| - 1];
      assert front[|front| - 1] == m;
      var l :| Next(m, l, m');
      NextStores(m, l, m', body);
    }
  }

  /** A message is removed from the queue only once its inbox row is committed, and the request whose body that row
      stands for has its transaction row. */
  lemma DeletedIsStored(m: Machine, d: (string, Input))
    requires Reachable(m) && d in m.deleted
    ensures m.log != [] && d.0 in Db(m.log).inbox && RowFor(Db(m.log), Db(m.log).inbox[d.0])
  {
    hide Reachable, Extends, SessionOk, Disjoint, Rows, OneReversal, Accounts, Indexed, Entries, Events, RowFor;
    ReachableSafe(m);
    assert StoreInv(Db(m.log));
  }

  /** If every copy of a message carries the same body, no message is lost: a deleted one has its row. */
  lemma DeletedHasRow(run: seq<Machine>, body: string -> Input, d: (string, Input))
    requires IsRun(run) && AlwaysFaithful(run, body) && d in run[|run| - 1].deleted
    ensures run[|run| - 1].log != [] && RowFor(Db(run[|run| - 1].log), d.1)
  {
    hide Next, RowFor, AlwaysFaithful;
    assert Reachable(run[|run| - 1]);
    DeletedIsStored(run[|run| - 1], d);
    RunStores(run, body);
  }

  // ---------------------------------------------------------------- the body is not compared

  lemma ReachableNext(m: Machine, l: Label, m': Machine)
    requires Reachable(m) && Next(m, l, m')
    ensures Reachable(m')
  {
    hide Next;
    var run :| IsRun(run) && run[|run| - 1] == m;
    var longer := run + [m'];
    assert longer[..|longer| - 1] == run;
    assert Follows(m, m');
    assert IsRun(longer);
  }

  lemma NothingWritten(s: Store)
    ensures Apply(s, NO_WRITES) == s
  {
    assert s.outbox + [] == s.outbox;
  }

  /** The states through which a repeated message id goes. */
  ghost function Dropped(m: Machine, sid: nat, s: Session): Machine
    requires m.log != []
  {
    m.(sessions := m.sessions[sid := s])
  }

  /** A known message id with any other body is acknowledged and deleted, its request untouched: the stored hash is
      never compared. Faithful deliveries are therefore needed, and from every state that knows the id. */
  lemma OtherBodyIsDropped(m: Machine, sid: nat, env: Process.Env, messageId: string, other: Input)
    requires Reachable(m) && m.log != [] && sid !in m.sessions && FreshIds(m, sid, env)
    requires messageId != "" && messageId in Db(m.log).inbox
    ensures exists m' :: Reachable(m') && m'.log != [] && (messageId, other) in m'.deleted && Db(m'.log) == Db(m.log)
  {
    hide Reachable, FreshIds, Content, Available, IdLocks;
    var db, at := Db(m.log), |m.log| - 1;
    NothingWritten(db);
    var op := SqsMessage(messageId, other);
    var s0 := Start(op, env, at, IdLocks(env), []);
    var m0 := Dropped(m, sid, s0);
    assert Next(m, Begin(sid, op, env), m0);
    var s1 := StepArrived(db, s0);
    assert Advance(m0.log, s0) == s1;
    var m1 := Dropped(m0, sid, s1);
    StillAvailable(m, m0, sid, env);
    assert Next(m0, Step(sid), m1);
    var m2 := AfterCommit(m1, sid);
    assert Next(m1, Commit(sid), m2);
    var m3 := m2.(deleted := m2.deleted + {(messageId, other)});
    assert Next(m2, Delete(sid), m3);
    ReachableNext(m, Begin(sid, op, env), m0);
    ReachableNext(m0, Step(sid), m1);
    ReachableNext(m1, Commit(sid), m2);
    ReachableNext(m2, Delete(sid), m3);
  }

  lemma StillAvailable(m: Machine, m0: Machine, sid: nat, env: Process.Env)
    requires m.log != [] && FreshIds(m, sid, env)
    requires forall other | other != sid :: (other in m0.sessions <==> other in m.sessions)
                                            && (other in m.sessions ==> m0.sessions[other] == m.sessions[other])
    ensures Available(m0, sid, IdLocks(env))
  {
    hide IdLocks, Content;
  }
}
