/** Early or late: a request that waits for its reference, while anything else happens, ends as if it had arrived after. */
module Reordering {
  import opened Wrappers
  import opened Wallet
  import opened WagerTx
  import opened Store
  import opened Process
  import opened Invariants
  import opened Endings
  import opened Atomic
  import opened LateReference
  import Commits

  // ---------------------------------------------------------------- two histories

  /** One call with what the environment gives it. */
  datatype Step = Step(call: Call, env: Env)

  function RunAll(s: Store, steps: seq<Step>): Store
    decreases |steps|
  {
    if steps == [] then s else RunAll(After(s, Run(s, steps[0].call, steps[0].env)), steps[1..])
  }

  /** Every call's identifiers are unused when it runs. */
  ghost predicate FreshAll(s: Store, steps: seq<Step>)
    decreases |steps|
  {
    steps != [] ==> Fresh(s, steps[0].env) && FreshAll(After(s, Run(s, steps[0].call, steps[0].env)), steps[1..])
  }

  /** The call is about the waiting row: the request again, its key or operation used otherwise, or a worker at the row. */
  predicate Concerns(c: Call, id: Id, i: Input) {
    match c
    case CallAttempt(j) => j.idempotencyKey == i.idempotencyKey || (j.providerId, j.externalId) == (i.providerId, i.externalId)
    case CallResume(r) => r == id
    case CallExpire(r) => r == id
    case CallOpen(_, _) => false
  }

  /** The calls that are not about the waiting row. */
  function Others(steps: seq<Step>, id: Id, i: Input): seq<Step> {
    if steps == [] then []
    else (if Concerns(steps[0].call, id, i) then [] else [steps[0]]) + Others(steps[1..], id, i)
  }

  lemma {:induction false} RunAllGrows(s: Store, steps: seq<Step>)
    requires StoreInv(s) && FreshAll(s, steps)
    ensures StoreInv(RunAll(s, steps)) && Extends(s, RunAll(s, steps))
    decreases |steps|
  {
    hide StoreInv, Extends, Run, Fresh;
    if steps == [] {
      ExtendsReflexive(s);
    } else {
      var next := After(s, Run(s, steps[0].call, steps[0].env));
      RunKeepsInv(s, steps[0].call, steps[0].env);
      RunAllGrows(next, steps[1..]);
      ExtendsTransitive(s, next, RunAll(s, steps));
    }
  }

  // ---------------------------------------------------------------- the history with the waiting row, and the one without

  /** The second state is the first with one waiting row more; it may have announced more. */
  ghost predicate Ahead(s: Store, s': Store, t: TxRow) {
    && OneMoreWaiting(s, s', t) && s'.owners == s.owners && s'.ledger == s.ledger
    && forall e | e in s.outbox :: e in s'.outbox
  }

  ghost predicate IsFor(t: TxRow, i: Input) {
    t.terms.idempotencyKey == i.idempotencyKey && OpOf(t.terms) == (i.providerId, i.externalId)
  }

  ghost predicate Waiting(s: Store, id: Id) {
    id in s.txs && s.txs[id].status == PendingReference
  }

  /** The row has at most counted retries. */
  ghost predicate SameWait(t: TxRow, t': TxRow) {
    t' == t.(retryAttempts := t'.retryAttempts, nextRetryAt := t'.nextRetryAt, updatedAt := t'.updatedAt)
  }

  lemma FreshWithout(s: Store, s': Store, t: TxRow, env: Env)
    requires Ahead(s, s', t) && Fresh(s', env)
    ensures Fresh(s, env) && env.txId != t.id
  {
  }

  /** A call about something else ends the same on both states. */
  lemma OtherCallsUnaffected(s: Store, s': Store, t: TxRow, i: Input, c: Call, env: Env)
    requires Ahead(s, s', t) && Closed(s) && IsFor(t, i) && Fresh(s', env) && !Concerns(c, t.id, i)
    ensures Run(s', c, env) == Run(s, c, env)
  {
    hide OneMoreWaiting, Closed, Attempt, Resume, Expire, Open, Fresh;
    FreshWithout(s, s', t, env);
    match c {
      case CallAttempt(j) => AttemptUnaffected(s, s', t, j, env);
      case CallResume(r) => ResumeUnaffected(s, s', t, r, env);
      case CallExpire(r) => ExpireUnaffected(s, s', t, r, env);
      case CallOpen(p, b) => OpenUnaffected(s, s', t, c, env);
    }
  }

  lemma ExpireUnaffected(s: Store, s': Store, t: TxRow, id: Id, env: Env)
    requires OneMoreWaiting(s, s', t) && id != t.id
    ensures Expire(s', id, env) == Expire(s, id, env)
  {
    hide OneMoreWaiting;
    RowsShared(s, s', t, id);
  }

  lemma OpenUnaffected(s: Store, s': Store, t: TxRow, c: Call, env: Env)
    requires Ahead(s, s', t) && c.CallOpen?
    ensures Open(s', c.playerId, c.balance, env) == Open(s, c.playerId, c.balance, env)
  {
  }

  /** What the call writes is a row inserted beside the waiting one, or another row rewritten under its own terms. */
  ghost predicate Beside(s': Store, t: TxRow, d: Writes) {
    d.tx.Some? ==>
      var u := d.tx.value;
      !Taken(s', u) || (u.id != t.id && u.id in s'.txs && s'.txs[u.id].terms == u.terms)
  }

  lemma OthersWriteBeside(s': Store, t: TxRow, i: Input, c: Call, env: Env)
    requires Indexed(s') && Rows(s') && Fresh(s', env) && t.id in s'.txs && !Concerns(c, t.id, i)
    requires Run(s', c, env).Committed?
    ensures Beside(s', t, Run(s', c, env).writes)
  {
    hide Rows, RowOk, ReferenceOk, NewEvents, Announces, DirectionOfRow, HasProcessedReversal, RowFor, Taken,
         Attempt, Resume, Expire, Open;
    var d := Run(s', c, env).writes;
    match c {
      case CallAttempt(j) =>
        AttemptInsertsOwn(s', j, env);
      case CallResume(r) =>
        ResumeLegal(s', r, env);
        ResumedExists(s', r, env);
      case CallExpire(r) =>
        ExpireWrites(s', r, env);
      case CallOpen(p, b) =>
        OpenLegal(s', p, b, env);
        OpeningIsFree(s', d);
    }
  }

  lemma AttemptInsertsOwn(s: Store, j: Input, env: Env)
    requires Attempt(s, j, env).Committed?
    ensures Attempt(s, j, env).writes.tx.Some? && !Taken(s, Attempt(s, j, env).writes.tx.value)
  {
    hide NewExternal, AfterInsert;
    AttemptInserts(s, j, env);
    var w := s.wallets[j.walletId];
    var u := NewExternal(env.txId, j, w, env.now).value;
    InsertedWritesOwn(PutTx(s, u), w, u, env);
    TakenSame(s, u, Attempt(s, j, env).writes.tx.value);
  }

  lemma TakenSame(s: Store, a: TxRow, b: TxRow)
    requires a.id == b.id && a.terms == b.terms
    ensures Taken(s, a) == Taken(s, b)
  {
  }

  lemma ResumedExists(s: Store, id: Id, env: Env)
    requires Indexed(s) && Resume(s, id, env).Committed?
    ensures id in s.txs && s.txs[id].id == id
  {
  }

  lemma ExpireWrites(s: Store, id: Id, env: Env)
    requires Indexed(s) && Expire(s, id, env).Committed?
    ensures id in s.txs
    ensures var d := Expire(s, id, env).writes; d.tx.Some? && d.tx.value.id == id && d.tx.value.terms == s.txs[id].terms
    ensures Expire(s, id, env).writes.tx.value.status == Failed
  {
  }

  lemma OpeningIsFree(s: Store, d: Writes)
    requires OpenCommit(s, d)
    ensures d.tx.Some? ==> !Taken(s, d.tx.value)
  {
    hide Announces, NewEvents;
  }

  /** Such a commit keeps the second state ahead by the waiting row. */
  lemma CommitBoth(s: Store, s': Store, t: TxRow, d: Writes)
    requires Ahead(s, s', t) && Indexed(s) && Beside(s', t, d)
    ensures Ahead(Apply(s, d), Apply(s', d), t)
  {
    hide Taken, Indexed;
    if d.tx.Some? {
      var u := d.tx.value;
      if !Taken(s', u) {
        PutBoth(s, s', t, u);
      } else {
        RewriteBoth(s, s', t, u);
      }
      assert OneMoreWaiting(PutTx(s, u), PutTx(s', u), t);
      TakenByIndexes(PutTx(s, u), Apply(s, d), t);
    } else {
      TakenByIndexes(s, Apply(s, d), t);
    }
  }

  lemma TakenByIndexes(a: Store, b: Store, t: TxRow)
    requires a.txs == b.txs && a.byKey == b.byKey && a.byOp == b.byOp
    ensures Taken(a, t) == Taken(b, t)
  {
  }

  lemma RewriteBoth(s: Store, s': Store, t: TxRow, u: TxRow)
    requires OneMoreWaiting(s, s', t) && Indexed(s) && u.id != t.id && u.id in s'.txs && s'.txs[u.id].terms == u.terms
    ensures OneMoreWaiting(PutTx(s, u), PutTx(s', u), t)
  {
    hide Taken, Indexed;
    RowsShared(s, s', t, u.id);
    RewriteKeepsIndexes(s, u);
    TakenApartFrom(s, t, u);
    Swap(s.txs, t.id, t, u.id, u);
    assert PutTx(s, u).byKey == s.byKey && PutTx(s, u).byOp == s.byOp;
    assert u.terms.idempotencyKey != "" ==> u.terms.idempotencyKey in s.byKey;
    assert KeysWith(s'.byKey, u) == s'.byKey by { KeptApart(s.byKey, t.terms.idempotencyKey, t.id, u.terms.idempotencyKey, u.id); }
    assert OpsWith(s'.byOp, u) == s'.byOp by { KeptApart(s.byOp, OpOf(t.terms), t.id, OpOf(u.terms), u.id); }
    TakenElsewhere(s, t, u);
  }

  /** Rewriting a row under its own terms leaves both unique indexes alone. */
  lemma RewriteKeepsIndexes(s: Store, u: TxRow)
    requires Indexed(s) && u.id in s.txs && s.txs[u.id].terms == u.terms
    ensures KeysWith(s.byKey, u) == s.byKey && OpsWith(s.byOp, u) == s.byOp
    ensures u.terms.idempotencyKey != "" ==> u.terms.idempotencyKey in s.byKey && s.byKey[u.terms.idempotencyKey] == u.id
    ensures u.terms.providerId != "" ==> OpOf(u.terms) in s.byOp && s.byOp[OpOf(u.terms)] == u.id
  {
  }

  lemma TakenApartFrom(s: Store, t: TxRow, u: TxRow)
    requires !Taken(s, t) && t.terms.idempotencyKey != "" && t.terms.providerId != ""
    ensures t.terms.idempotencyKey !in s.byKey && OpOf(t.terms) !in s.byOp && t.id !in s.txs
  {
  }

  lemma KeptApart<K, V>(m: map<K, V>, a: K, x: V, b: K, y: V)
    ensures a !in m && b in m && m[b] == y ==> m[a := x][b := y] == m[a := x]
  {
  }

  lemma TakenElsewhere(s: Store, t: TxRow, u: TxRow)
    requires !Taken(s, t) && u.id != t.id && KeysWith(s.byKey, u) == s.byKey && OpsWith(s.byOp, u) == s.byOp
    ensures !Taken(PutTx(s, u), t)
  {
  }

  // ---------------------------------------------------------------- calls about the waiting row

  /** The request again, or its key or operation used otherwise: a replay or a conflict, never a commit. */
  lemma AgainIsNoCommit(s: Store, s': Store, t: TxRow, i: Input, j: Input, env: Env)
    requires OneMoreWaiting(s, s', t) && Closed(s) && IsFor(t, i) && Concerns(CallAttempt(j), t.id, i)
    ensures !Attempt(s', j, env).Committed?
  {
    hide NewExternal, AfterInsert, CanonicalOf;
    if j.idempotencyKey == i.idempotencyKey {
      assert FindByKey(s', j.idempotencyKey) == Some(t);
    } else {
      assert FindByOp(s', j.providerId, j.externalId) == Some(t);
    }
  }

  lemma WaitWrites(t: TxRow, env: Env)
    requires t.status == PendingReference
    ensures Wait(t, env).Committed? && Wait(t, env).writes.tx.Some?
    ensures Wait(t, env).writes == NO_WRITES.(tx := Some(Wait(t, env).writes.tx.value))
    ensures SameWait(t, Wait(t, env).writes.tx.value)
  {
    hide ReferenceRetryBackoff;
  }

  /** A resume that leaves the row waiting has counted a retry, or done nothing. */
  lemma ResumeWaits(s': Store, t: TxRow, env: Env)
    requires t.id in s'.txs && s'.txs[t.id] == t && t.status == PendingReference && Waiting(After(s', Resume(s', t.id, env)), t.id)
    ensures !Resume(s', t.id, env).Committed?
         || exists t' :: SameWait(t, t') && Resume(s', t.id, env).writes == NO_WRITES.(tx := Some(t'))
  {
    hide WithReference, Wait, FindByOp;
    if t.terms.walletId in s'.wallets {
      var w := s'.wallets[t.terms.walletId];
      WaitWrites(t, env);
      var found := FindByOp(s', t.terms.providerId, t.terms.referenceExternalId);
      if found.Some? {
        WithReferenceEnds(s', w, t, found.value, env);
      }
    }
  }

  lemma RecountedAhead(s: Store, s': Store, t: TxRow, t': TxRow)
    requires Ahead(s, s', t) && SameWait(t, t')
    ensures Ahead(s, Apply(s', NO_WRITES.(tx := Some(t'))), t')
  {
  }

  /** A call about the waiting row that leaves it waiting leaves everything else alone. */
  lemma ConcerningCalls(s: Store, s': Store, t: TxRow, i: Input, c: Call, env: Env)
    requires Ahead(s, s', t) && Closed(s) && Indexed(s') && IsFor(t, i) && Concerns(c, t.id, i)
    requires Waiting(After(s', Run(s', c, env)), t.id)
    ensures var next := After(s', Run(s', c, env)); Ahead(s, next, next.txs[t.id]) && SameWait(t, next.txs[t.id])
  {
    hide OneMoreWaiting, Closed, Attempt, Resume, Expire, Indexed;
    NotYetThere(s, s', t);
    match c {
      case CallAttempt(j) => AgainIsNoCommit(s, s', t, i, j, env);
      case CallResume(_) =>
        ResumeWaits(s', t, env);
        if Resume(s', t.id, env).Committed? {
          var t' :| SameWait(t, t') && Resume(s', t.id, env).writes == NO_WRITES.(tx := Some(t'));
          RecountedAhead(s, s', t, t');
        }
      case CallExpire(_) =>
        if Expire(s', t.id, env).Committed? {
          ExpireWrites(s', t.id, env);
        }
    }
  }

  // ---------------------------------------------------------------- the histories side by side

  /** A row that waits at the end has waited all along. */
  lemma WaitedBefore(s: Store, s': Store, id: Id)
    requires Rows(s) && RowsGrow(s, s') && id in s.txs && Waiting(s', id)
    ensures Waiting(s, id)
  {
    assert TxGrows(s.txs[id], s'.txs[id]) && RowOk(s, s.txs[id]);
  }

  /** How the two histories end: ahead by the row, which has at most counted retries. */
  ghost predicate SideBySide(s: Store, s': Store, t: TxRow, i: Input, steps: seq<Step>) {
    var late, early := RunAll(s, Others(steps, t.id, i)), RunAll(s', steps);
    t.id in early.txs && Ahead(late, early, early.txs[t.id]) && SameWait(t, early.txs[t.id]) && StoreInv(late) && Extends(s, late)
  }

  /** With the calls about the waiting row left out, the same history runs without it. */
  lemma {:induction false} StaysAhead(s: Store, s': Store, t: TxRow, i: Input, steps: seq<Step>)
    requires Ahead(s, s', t) && StoreInv(s) && StoreInv(s') && IsFor(t, i) && FreshAll(s', steps)
    requires Waiting(RunAll(s', steps), t.id)
    ensures SideBySide(s, s', t, i, steps)
    decreases |steps|
  {
    hide StoreInv, Extends, Run, Fresh, Ahead, Concerns, IsFor, SideBySide;
    if steps == [] {
      EndsSideBySide(s, s', t, i);
    } else {
      var c, env, rest := steps[0].call, steps[0].env, steps[1..];
      var next := After(s', Run(s', c, env));
      IsAhead(s, s', t);
      StillWaits(s', t, c, env, rest);
      RunKeepsInv(s', c, env);
      if Concerns(c, t.id, i) {
        GoodFacts(s);
        GoodIsClosed(s);
        GoodFacts(s');
        GoodIsClosed(s');
        ConcerningCalls(s, s', t, i, c, env);
        StillFor(t, next.txs[t.id], i);
        StaysAhead(s, next, next.txs[t.id], i, rest);
        SkipConcerning(s, s', t, i, steps);
      } else {
        BothStep(s, s', t, i, c, env);
        StaysAhead(After(s, Run(s, c, env)), next, t, i, rest);
        StepBoth(s, s', t, i, steps);
      }
    }
  }

  lemma EndsSideBySide(s: Store, s': Store, t: TxRow, i: Input)
    requires Ahead(s, s', t) && StoreInv(s)
    ensures SideBySide(s, s', t, i, [])
  {
    hide StoreInv, Extends, Ahead;
    ExtendsReflexive(s);
    IsAhead(s, s', t);
  }

  lemma SkipConcerning(s: Store, s': Store, t: TxRow, i: Input, steps: seq<Step>)
    requires steps != [] && Concerns(steps[0].call, t.id, i)
    requires var next := After(s', Run(s', steps[0].call, steps[0].env));
      t.id in next.txs && SameWait(t, next.txs[t.id]) && SideBySide(s, next, next.txs[t.id], i, steps[1..])
    ensures SideBySide(s, s', t, i, steps)
  {
    hide StoreInv, Extends, Ahead, Run, Concerns;
    assert Others(steps, t.id, i) == Others(steps[1..], t.id, i);
  }

  lemma StepBoth(s: Store, s': Store, t: TxRow, i: Input, steps: seq<Step>)
    requires steps != [] && !Concerns(steps[0].call, t.id, i)
    requires var next, without := After(s', Run(s', steps[0].call, steps[0].env)), After(s, Run(s, steps[0].call, steps[0].env));
      Extends(s, without) && SideBySide(without, next, t, i, steps[1..])
    ensures SideBySide(s, s', t, i, steps)
  {
    hide StoreInv, Extends, Ahead, Run, Concerns, SameWait;
    OthersStep(s, steps, t.id, i);
    ExtendsTransitive(s, After(s, Run(s, steps[0].call, steps[0].env)), RunAll(s, Others(steps, t.id, i)));
  }

  lemma OthersStep(s: Store, steps: seq<Step>, id: Id, i: Input)
    requires steps != [] && !Concerns(steps[0].call, id, i)
    ensures RunAll(s, Others(steps, id, i)) == RunAll(After(s, Run(s, steps[0].call, steps[0].env)), Others(steps[1..], id, i))
  {
    hide Run, Concerns;
    assert Others(steps, id, i)[1..] == Others(steps[1..], id, i);
  }

  lemma IsAhead(s: Store, s': Store, t: TxRow)
    requires Ahead(s, s', t)
    ensures t.id in s'.txs && s'.txs[t.id] == t && SameWait(t, t) && t.status == PendingReference
  {
  }

  lemma StillFor(t: TxRow, t': TxRow, i: Input)
    requires IsFor(t, i) && SameWait(t, t')
    ensures IsFor(t', i) && t'.id == t.id
  {
  }

  lemma StillWaits(s': Store, t: TxRow, c: Call, env: Env, rest: seq<Step>)
    requires StoreInv(s') && Fresh(s', env) && t.id in s'.txs
    requires var next := After(s', Run(s', c, env)); FreshAll(next, rest) && Waiting(RunAll(next, rest), t.id)
    ensures Waiting(After(s', Run(s', c, env)), t.id)
  {
    hide StoreInv, Run, Fresh, Within, ReversalMovesWallet, RowsGrow;
    var next := After(s', Run(s', c, env));
    RunKeepsInv(s', c, env);
    RunAllGrows(next, rest);
    GoodFacts(next);
    GoodIsClosed(next);
    RowStays(s', next, t.id);
    WaitedBefore(next, RunAll(next, rest), t.id);
  }

  lemma RowStays(s: Store, s': Store, id: Id)
    requires RowsGrow(s, s') && id in s.txs
    ensures id in s'.txs
  {
  }

  lemma BothStep(s: Store, s': Store, t: TxRow, i: Input, c: Call, env: Env)
    requires Ahead(s, s', t) && StoreInv(s) && StoreInv(s') && IsFor(t, i) && Fresh(s', env) && !Concerns(c, t.id, i)
    ensures var next, without := After(s', Run(s', c, env)), After(s, Run(s, c, env));
      Ahead(without, next, t) && StoreInv(without) && Extends(s, without)
  {
    hide StoreInv, Extends, Run, Fresh, Ahead, IsFor, Concerns, Beside;
    GoodFacts(s);
    GoodIsClosed(s);
    GoodFacts(s');
    GoodIsClosed(s');
    IsAhead(s, s', t);
    FreshWithout(s, s', t, env);
    RunKeepsInv(s, c, env);
    OtherCallsUnaffected(s, s', t, i, c, env);
    if Run(s', c, env).Committed? {
      OthersWriteBeside(s', t, i, c, env);
      CommitBoth(s, s', t, Run(s', c, env).writes);
    }
  }

  // ---------------------------------------------------------------- early or late

  /** The wallets after the two ends differ at most in their timestamps. */
  ghost predicate SameWallets(a: Store, b: Store) {
    && (forall id :: id in a.wallets <==> id in b.wallets)
    && (forall id | id in a.wallets :: a.wallets[id].balance == b.wallets[id].balance && a.wallets[id].version == b.wallets[id].version)
  }

  /** The ledgers record the same movements in the same order. */
  ghost predicate SameLedgers(a: Store, b: Store) {
    |a.ledger| == |b.ledger| && forall k | 0 <= k < |a.ledger| :: SameMovement(Some(a.ledger[k]), Some(b.ledger[k]))
  }

  lemma SameEndSameMoney(a: Store, b: Store, o: Outcome, p: Outcome)
    requires a.wallets == b.wallets && a.ledger == b.ledger && SameEnd(o, p)
    ensures SameWallets(After(a, o), After(b, p)) && SameLedgers(After(a, o), After(b, p))
  {
  }

  /** A request comes and waits, then the calls run, whatever they are. */
  function Early(s: Store, i: Input, parking: Env, steps: seq<Step>): Store {
    RunAll(After(s, Attempt(s, i, parking)), steps)
  }

  /** The same calls without the request, and without those about its row. */
  function Late(s: Store, i: Input, parking: Env, steps: seq<Step>): Store {
    RunAll(s, Others(steps, parking.txId, i))
  }

  /** The request was parked, the calls had unused identifiers, and its row still waits. */
  ghost predicate HasWaited(s: Store, i: Input, parking: Env, steps: seq<Step>) {
    && StoreInv(s) && Fresh(s, parking)
    && Attempt(s, i, parking).Committed? && Attempt(s, i, parking).out.status == PendingReference
    && FreshAll(After(s, Attempt(s, i, parking)), steps) && Waiting(Early(s, i, parking, steps), parking.txId)
  }

  function ReferenceOf(s: Store, i: Input): Option<TxRow> {
    FindByOp(s, i.providerId, i.referenceExternalId)
  }

  /** The waiting row on the one state, and what the request would build on the other, are one transaction. */
  ghost predicate Comparable(late: Store, early: Store, t: TxRow, i: Input, now: Time) {
    && Ahead(late, early, t) && Indexed(late) && Closed(late) && t.id in early.txs && early.txs[t.id] == t
    && IsFor(t, i) && t.status == PendingReference
    && i.walletId in late.wallets
    && var w := late.wallets[i.walletId];
    && w.playerId == i.playerId && Supported(i.kind) && NewExternal(t.id, i, w, now).Ok?
    && SameOpen(t, NewExternal(t.id, i, w, now).value)
    && t.terms.walletId == i.walletId && w.balance.currency == t.terms.money.currency
    && t.terms.referenceExternalId == i.referenceExternalId != ""
  }

  lemma HistoriesCompared(s: Store, i: Input, parking: Env, steps: seq<Step>, now: Time)
    requires HasWaited(s, i, parking, steps)
    ensures var early, late := Early(s, i, parking, steps), Late(s, i, parking, steps);
      parking.txId in early.txs && early.txs[parking.txId].id == parking.txId && Comparable(late, early, early.txs[parking.txId], i, now)
  {
    hide StoreInv, Extends, Attempt, NewExternal, OneMoreWaiting, Taken, Closed, SameOpen, Fresh, FreshAll, RunAll, Others, Indexed,
         SameWait;
    GoodFacts(s);
    GoodIsClosed(s);
    ParkedAhead(s, i, parking);
    var s1, w := Apply(s, Attempt(s, i, parking).writes), s.wallets[i.walletId];
    var t := NewExternal(parking.txId, i, w, parking.now).value.(status := PendingReference);
    RunKeepsInv(s, CallAttempt(i), parking);
    StaysAhead(s, s1, t, i, steps);
    var early, late := Early(s, i, parking, steps), Late(s, i, parking, steps);
    var t' := early.txs[t.id];
    GoodFacts(late);
    GoodIsClosed(late);
    WalletStaysFor(s, late, i.walletId);
    UnderItsId(s, i.walletId);
    StillFor(t, t', i);
    ReadyToCompare(late, t, t', i, w, parking, now);
  }

  lemma UnderItsId(s: Store, walletId: Id)
    requires Indexed(s) && walletId in s.wallets
    ensures s.wallets[walletId].id == walletId
  {
  }

  /** Early or late: a request comes before its reference and waits; then come any calls whatever, among them the ones
      that process the reference, and the row still waits. Resuming it now ends as the request would have ended, had it
      come only now, after all the calls that were not about it: same movement, row, failure code and answer, and the
      same wallets and ledger at the end. */
  lemma EarlyEqualsLate(s: Store, i: Input, parking: Env, steps: seq<Step>, resuming: Env, arriving: Env)
    requires HasWaited(s, i, parking, steps)
    requires var found := ReferenceOf(Early(s, i, parking, steps), i); found.Some? && found.value.status == Processed
    requires resuming.entryId != "" && arriving.entryId != "" && arriving.txId == parking.txId
    ensures var early, late := Early(s, i, parking, steps), Late(s, i, parking, steps);
      && SameEnd(Resume(early, parking.txId, resuming), Attempt(late, i, arriving))
      && SameWallets(After(early, Resume(early, parking.txId, resuming)), After(late, Attempt(late, i, arriving)))
      && SameLedgers(After(early, Resume(early, parking.txId, resuming)), After(late, Attempt(late, i, arriving)))
  {
    hide HasWaited, Attempt, NewExternal, Resume, SameEnd, SameWallets, SameLedgers, OneMoreWaiting, Closed, FindByOp, SameOpen,
         Early, Late, Indexed;
    var early, late := Early(s, i, parking, steps), Late(s, i, parking, steps);
    HistoriesCompared(s, i, parking, steps, arriving.now);
    var t := early.txs[parking.txId];
    WalletsShared(late, early, t);
    OthersFoundAlike(late, early, t, i.providerId, i.referenceExternalId);
    ResumeMatchesAttempt(late, early, t, i, resuming, arriving);
    SameEndSameMoney(early, late, Resume(early, t.id, resuming), Attempt(late, i, arriving));
  }

  // ---------------------------------------------------------------- references that end unprocessed

  /** The reference is there and has ended, but not as PROCESSED. */
  predicate EndedUnprocessed(s: Store, i: Input) {
    var found := ReferenceOf(s, i);
    found.Some? && IsTerminal(found.value.status) && found.value.status != Processed
  }

  /** The two ends move the same and leave the same row, whatever they answer: a resume answers nobody. */
  predicate SameEffect(a: Outcome, b: Outcome) {
    match (a, b)
    case (Committed(d, _), Committed(e, _)) =>
      && SameWallet(d.wallet, e.wallet) && SameMovement(d.entry, e.entry)
      && d.tx.Some? && e.tx.Some? && SameRow(d.tx.value, e.tx.value)
    case (Refused(e), Refused(f)) => e == f
    case _ => false
  }

  lemma SameEndSameEffect(a: Outcome, b: Outcome)
    requires SameEnd(a, b)
    ensures SameEffect(a, b)
  {
  }

  /** The outcome leaves the row with this status and code. */
  predicate Leaves(o: Outcome, id: Id, status: Status, code: FailureCode) {
    o.Committed? && o.writes.tx.Some? && o.writes.tx.value.id == id && o.writes.tx.value.status == status && o.writes.tx.value.failureCode == code
  }

  /** The order matters exactly for references that end unprocessed: then the resume goes on waiting, where the late
      request is rejected. In all other cases, the reference missing or open included, both leave the same. */
  lemma OrderMattersExactlyWhen(s: Store, i: Input, parking: Env, steps: seq<Step>, resuming: Env, arriving: Env)
    requires HasWaited(s, i, parking, steps)
    requires resuming.entryId != "" && arriving.entryId != "" && arriving.txId == parking.txId
    ensures var early, late := Early(s, i, parking, steps), Late(s, i, parking, steps);
      var resumed, arrived := Resume(early, parking.txId, resuming), Attempt(late, i, arriving);
      && (SameEffect(resumed, arrived) <==> !EndedUnprocessed(early, i))
      && (EndedUnprocessed(early, i) ==>
            && Leaves(resumed, parking.txId, PendingReference, NoCode)
            && Leaves(arrived, parking.txId, Rejected, ReferenceNotProcessable))
  {
    hide HasWaited, Attempt, NewExternal, Resume, SameEnd, SameWallets, SameLedgers, FindByOp, Early, Late, SameEffect, Comparable, Leaves;
    var early, late := Early(s, i, parking, steps), Late(s, i, parking, steps);
    var found := ReferenceOf(early, i);
    if found.Some? && found.value.status == Processed {
      EarlyEqualsLate(s, i, parking, steps, resuming, arriving);
      SameEndSameEffect(Resume(early, parking.txId, resuming), Attempt(late, i, arriving));
    } else {
      HistoriesCompared(s, i, parking, steps, arriving.now);
      var t := early.txs[parking.txId];
      ResumeGoesOnWaiting(late, early, t, i, resuming, arriving.now);
      ArrivalParksOrEnds(late, early, t, i, arriving);
      var u := NewRow(late, t, i, arriving.now);
      if EndedUnprocessed(early, i) {
        WaitAndRejection(t, u, late.wallets[i.walletId], resuming, arriving);
      } else {
        WaitAndParking(t, u, late.wallets[i.walletId], resuming, arriving);
      }
    }
  }

  /** What the request builds on the late state. */
  ghost function NewRow(late: Store, t: TxRow, i: Input, now: Time): TxRow
    requires i.walletId in late.wallets && NewExternal(t.id, i, late.wallets[i.walletId], now).Ok?
  {
    NewExternal(t.id, i, late.wallets[i.walletId], now).value
  }

  lemma ResumeGoesOnWaiting(late: Store, early: Store, t: TxRow, i: Input, env: Env, now: Time)
    requires Comparable(late, early, t, i, now)
    requires ReferenceOf(early, i).None? || ReferenceOf(early, i).value.status != Processed
    ensures Resume(early, t.id, env) == Wait(t, env)
  {
    hide OneMoreWaiting, Closed, NewExternal, SameOpen, FindByOp, Wait, WithReference, Indexed;
    WalletsShared(late, early, t);
  }

  lemma ArrivalParksOrEnds(late: Store, early: Store, t: TxRow, i: Input, env: Env)
    requires Comparable(late, early, t, i, env.now) && env.txId == t.id
    requires ReferenceOf(early, i).None? || ReferenceOf(early, i).value.status != Processed
    ensures i.walletId in late.wallets && NewExternal(t.id, i, late.wallets[i.walletId], env.now).Ok?
    ensures var u, w := NewRow(late, t, i, env.now), late.wallets[i.walletId];
      && SameOpen(t, u) && u.status == Pending && t.status == PendingReference && t.failureCode == NoCode
      && Attempt(late, i, env) == if EndedUnprocessed(early, i) then Reject(u, w, ReferenceNotProcessable, env) else Park(u, w, env)
  {
    hide OneMoreWaiting, Closed, NewExternal, FindByOp, Reject, Park, WithReference, Attempt, Taken, Indexed;
    var u, w := NewRow(late, t, i, env.now), late.wallets[i.walletId];
    Commits.NewRowNames(t.id, i, w, env.now);
    NewRowPlain(t.id, i, w, env.now);
    NotTakenBeside(late, early, t, u);
    Commits.AttemptInsertsRow(late, i, w, u, env);
    OthersFoundAlike(late, early, t, i.providerId, i.referenceExternalId);
    SeenBesideOwn(late, u, i.providerId, i.referenceExternalId);
    NotYetThere(late, early, t);
  }

  lemma NotTakenBeside(late: Store, early: Store, t: TxRow, u: TxRow)
    requires OneMoreWaiting(late, early, t) && SameOpen(t, u)
    ensures !Taken(late, u)
  {
  }

  lemma WaitAndParking(t: TxRow, u: TxRow, w: WalletRow, resuming: Env, arriving: Env)
    requires SameOpen(t, u) && t.status == PendingReference && u.status == Pending
    ensures SameEffect(Wait(t, resuming), Park(u, w, arriving))
  {
    hide ReferenceRetryBackoff;
  }

  lemma WaitAndRejection(t: TxRow, u: TxRow, w: WalletRow, resuming: Env, arriving: Env)
    requires SameOpen(t, u) && t.status == PendingReference && u.status == Pending && t.failureCode == NoCode
    ensures !SameEffect(Wait(t, resuming), Reject(u, w, ReferenceNotProcessable, arriving))
    ensures Leaves(Wait(t, resuming), t.id, PendingReference, NoCode)
    ensures Leaves(Reject(u, w, ReferenceNotProcessable, arriving), t.id, Rejected, ReferenceNotProcessable)
  {
    hide ReferenceRetryBackoff;
  }

  lemma SupportedCommits(s: Store, i: Input, env: Env)
    requires Attempt(s, i, env).Committed?
    ensures Supported(i.kind) && i.walletId in s.wallets && s.wallets[i.walletId].playerId == i.playerId
  {
  }

  /** The parked row is all that the parking adds, beside its event. */
  lemma ParkedAhead(s: Store, i: Input, env: Env)
    requires Closed(s) && Attempt(s, i, env).Committed? && Attempt(s, i, env).out.status == PendingReference
    ensures i.walletId in s.wallets && NewExternal(env.txId, i, s.wallets[i.walletId], env.now).Ok?
    ensures var w := s.wallets[i.walletId];
      var t := NewExternal(env.txId, i, w, env.now).value.(status := PendingReference);
      && Ahead(s, Apply(s, Attempt(s, i, env).writes), t) && IsFor(t, i) && t.id == env.txId
      && w.balance.currency == t.terms.money.currency && t.terms.referenceExternalId != ""
      && Supported(i.kind) && w.playerId == i.playerId
  {
    hide NewExternal, OneMoreWaiting, Closed, AfterInsert;
    ParkedRow(s, i, env);
    AttemptInserts(s, i, env);
    var w := s.wallets[i.walletId];
    var u := NewExternal(env.txId, i, w, env.now).value;
    Commits.NewRowNames(env.txId, i, w, env.now);
    OnlyParkWaits(PutTx(s, u), w, u, env);
    SupportedCommits(s, i, env);
  }

  lemma WalletStaysFor(s: Store, s': Store, id: Id)
    requires Extends(s, s') && id in s.wallets
    ensures id in s'.wallets && s'.wallets[id].id == s.wallets[id].id && s'.wallets[id].playerId == s.wallets[id].playerId
    ensures s'.wallets[id].balance.currency == s.wallets[id].balance.currency
  {
    assert WalletGrows(s.wallets[id], s'.wallets[id]);
  }

  /** What is needed to compare the waiting row with what the late attempt builds. */
  lemma ReadyToCompare(late: Store, t: TxRow, t': TxRow, i: Input, w: WalletRow, parking: Env, now: Time)
    requires SameWait(t, t')
    requires NewExternal(parking.txId, i, w, parking.now).Ok? && t == NewExternal(parking.txId, i, w, parking.now).value.(status := PendingReference)
    requires i.walletId in late.wallets && late.wallets[i.walletId].id == w.id && late.wallets[i.walletId].playerId == w.playerId
    ensures t'.id == parking.txId && t'.terms == t.terms && t'.status == PendingReference && t.terms.walletId == w.id
    ensures t.terms.referenceExternalId == i.referenceExternalId && t.terms.money == i.money
    ensures var w' := late.wallets[i.walletId];
      NewExternal(parking.txId, i, w', now).Ok? && SameOpen(t', NewExternal(parking.txId, i, w', now).value)
  {
    hide NewExternal;
    var w' := late.wallets[i.walletId];
    NewRowPlain(parking.txId, i, w, parking.now);
    SameRowLater(parking.txId, i, w, w', parking.now, now);
  }
}
