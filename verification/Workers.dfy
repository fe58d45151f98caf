/** Opening wallets, and the worker that resumes and expires waiting rows. */
module Workers {
  import opened Wrappers
  import opened Money
  import opened Wallet
  import opened WagerTx
  import opened Ledger
  import opened Store
  import opened Process
  import opened Invariants
  import opened Endings
  import opened Atomic
  import opened Database
  import opened UseCases
  import opened Expiry
  import opened Turns
  import Locking
  import LateReference
  import Paging

  // ---------------------------------------------------------------- opening

  class OpenWallet {
    const db: Database

    constructor (db: Database)
      ensures this.db == db
    {
      this.db := db;
    }

    /** Inside the open transaction: wallet, and for a positive balance its row, entry and two events. */
    method Create(w: Wallet, env: Env) returns (err: Option<Error>)
      modifies db`view
      ensures old(NewIds(db.view, env) && NoEntryYet(db.view, env.txId) && env.txId !in db.view.txs) ==>
        var row := w.Row();
        if row.balance.currency == "" then err == Some(ErrInvalidCurrency)
        else if row.id in old(db.view).wallets || OwnerOf(row) in old(db.view).owners then err == Some(ErrAlreadyExists)
        else
          match OpenEntries(row, env)
          case Committed(writes, _) => err == None && db.view == Apply(old(db.view), writes)
          case Refused(e) => err == Some(e)
          case _ => false
    {
      hide NewEntry;
      err := db.CreateWallet(w);
      if err.Some? {
        return;
      }
      if w.balance.IsZero() {
        assert db.view.outbox + [] == db.view.outbox;
        return;
      }
      var opening := NewOpening(env.txId, w.id, w.playerId, w.balance, env.now);
      if opening.Err? {
        return Some(opening.error);
      }
      var tx := new WagerTransaction.Rehydrate(opening.value);
      err := db.CreateTx(tx);
      if err.Some? {
        return;
      }
      var entry := NewEntry(env.entryId, w.id, tx.id, Credit, w.balance, Money(0, w.balance.currency), w.balance, env.now);
      if entry.Err? {
        return Some(entry.error);
      }
      EntryIsAsGiven(env.entryId, w.id, tx.id, Credit, w.balance, Money(0, w.balance.currency), w.balance, env.now);
      err := db.CreateEntry(entry.value);
      if err.Some? {
        return;
      }
      err := db.CreateEvent(ProcessedEvent(env.event1, tx.Row(), env.now));
      if err.Some? {
        return;
      }
      err := db.CreateEvent(BalanceEvent(env.event2, tx.Row(), entry.value, w.Row(), env.now));
    }

    /** Opens the wallet with its opening entry in one commit, or changes nothing. */
    method Execute(playerId: Id, initialBalance: Money, env: Env) returns (err: Option<Error>)
      modifies db
      ensures old(NewIds(db.committed, env) && NoEntryYet(db.committed, env.txId) && env.txId !in db.committed.txs) ==>
        && db.committed == After(old(db.committed), Process.Open(old(db.committed), playerId, initialBalance, env))
        && match Process.Open(old(db.committed), playerId, initialBalance, env)
           case Refused(e) => err == Some(e)
           case _ => err == None
      ensures err.Some? ==> db.committed == old(db.committed)
    {
      hide OpenEntries;
      var built := Opened(env.walletId, playerId, initialBalance, env.now);
      if built.Err? {
        return Some(built.error);
      }
      var w := new Wallet.Rehydrate(built.value);
      db.Begin();
      err := Create(w, env);
      OpeningErrors(built.value, env);
      if err.Some? {
        db.Rollback();
        return Some(if err == Some(ErrAlreadyExists) then ErrWalletAlreadyExists else err.value);
      }
      db.Commit();
    }
  }

  lemma OpeningErrors(w: WalletRow, env: Env)
    ensures var o := OpenEntries(w, env); (o.Committed? || o.Refused?) && o != Refused(ErrAlreadyExists)
  {
  }

  // ---------------------------------------------------------------- the worker

  /** Identifiers for a batch: unused, and each used at most once. */
  ghost predicate EnvsReady(s: Store, envs: seq<Env>) {
    && (forall k | 0 <= k < |envs| :: Fresh(s, envs[k]) && EntryIdNew(s, envs[k]))
    && (forall j, k | 0 <= j < k < |envs| :: Apart(envs[j], envs[k]))
  }

  predicate Apart(a: Env, b: Env) {
    a.txId != b.txId && a.entryId != b.entryId && {a.event1, a.event2} !! {b.event1, b.event2}
  }

  /** Resuming or expiring the rows one after the other. */
  ghost function All(s: Store, ids: seq<Id>, envs: seq<Env>, expire: bool): Store
    requires |ids| <= |envs|
  {
    if ids == [] then s
    else
      var n := |ids| - 1;
      After(All(s, ids[..n], envs, expire), Run(All(s, ids[..n], envs, expire), if expire then CallExpire(ids[n]) else CallResume(ids[n]), envs[n]))
  }

  /** The commit of a resume or expiry uses no identifiers but its own, and adds no wallets. */
  lemma OthersStayFresh(s: Store, id: Id, env: Env, other: Env, expire: bool)
    requires StoreInv(s) && Fresh(s, env) && Fresh(s, other) && EntryIdNew(s, other) && Apart(env, other)
    ensures var s' := After(s, Run(s, if expire then CallExpire(id) else CallResume(id), env)); Fresh(s', other) && EntryIdNew(s', other)
  {
    hide StoreInv, Process.Resume, Process.Expire, Fresh, EntryIdNew;
    var o := Run(s, if expire then CallExpire(id) else CallResume(id), env);
    if o.Committed? {
      CommitIds(s, id, env, expire);
      OwnIdsOnly(s, o.writes, env, other);
    }
  }

  ghost predicate OnlyOwn(s: Store, d: Writes, env: Env) {
    && (d.entry.Some? ==> d.entry.value.id == env.entryId)
    && (forall e | e in d.events :: e.id == env.event1 || e.id == env.event2)
    && (d.tx.Some? ==> d.tx.value.id in s.txs || d.tx.value.id == env.txId) && (d.wallet.Some? ==> d.wallet.value.id in s.wallets)
  }

  lemma OwnIdsOnly(s: Store, d: Writes, env: Env, other: Env)
    requires OnlyOwn(s, d, env) && Fresh(s, other) && EntryIdNew(s, other) && Apart(env, other)
    ensures Fresh(Apply(s, d), other) && EntryIdNew(Apply(s, d), other)
  {
  }

  lemma CommitIds(s: Store, id: Id, env: Env, expire: bool)
    requires StoreInv(s) && Fresh(s, env)
    requires Run(s, if expire then CallExpire(id) else CallResume(id), env).Committed?
    ensures OnlyOwn(s, Run(s, if expire then CallExpire(id) else CallResume(id), env).writes, env)
  {
    hide OneReversal, Accounts, Entries, Events, InboxBacked, Fresh;
    if expire {
      Locking.ExpireIds(s, id, env);
      ExpireWritesItsRow(s, id, env);
    } else {
      ResumeLegal(s, id, env);
      ResumeOwnIds(s, id, env);
    }
  }

  lemma ExpireWritesItsRow(s: Store, id: Id, env: Env)
    requires Process.Expire(s, id, env).Committed? && Indexed(s)
    ensures var d := Process.Expire(s, id, env).writes;
      d.tx.Some? && d.tx.value.id == id && id in s.txs && s.txs[id].status == PendingReference && d.tx.value.status == Failed && d.entry == None
  {
    hide KeysOk, OpsOk, OwnersOk;
  }

  lemma ResumeOwnIds(s: Store, id: Id, env: Env)
    requires Process.Resume(s, id, env).Committed? && Ends(s, s.txs[id], Process.Resume(s, id, env)) && Indexed(s) && Rows(s)
    ensures OnlyOwn(s, Process.Resume(s, id, env).writes, env)
  {
    hide KeysOk, OpsOk, OwnersOk, WithReference, Wait, RowOk, ReferenceOk, WalletOk, FindByOp;
    var t := s.txs[id];
    var w := s.wallets[t.terms.walletId];
    WaitIds(t, env);
    var found := FindByOp(s, t.terms.providerId, t.terms.referenceExternalId);
    if found.Some? && found.value.status == Processed {
      FollowIds(s, w, t, found.value, env);
    }
  }

  lemma WaitIds(t: TxRow, env: Env)
    ensures Process.Wait(t, env).Committed? ==>
      Locking.OwnIds(Process.Wait(t, env).writes, env) && Process.Wait(t, env).writes.wallet == None
      && Process.Wait(t, env).writes.tx.Some? && Process.Wait(t, env).writes.tx.value.id == t.id
  {
  }

  lemma FollowIds(s: Store, w: WalletRow, t: TxRow, ref: TxRow, env: Env)
    ensures var o := WithReference(s, w, t, ref, env);
      o.Committed? ==>
        && Locking.OwnIds(o.writes, env) && o.writes.tx.Some? && o.writes.tx.value.id == t.id
        && (o.writes.wallet.Some? ==> o.writes.wallet.value.id == w.id)
  {
    hide Process.Reject, Process.Settle, Process.Note, Moved, HasProcessedReversal, ValidateReference, Locking.OwnIds,
         LateReference.WritesOwn;
    var code := ValidateReference(t.terms, ref.terms);
    EndIds(t, w, w, code, Debit, env);
    EndIds(t, w, w, ReferenceAlreadyReversed, Debit, env);
    if ReferenceResolved(t, ref.id, env.now).Ok? {
      var r := ReferenceResolved(t, ref.id, env.now).value;
      EndIds(r, w, w, ShortfallCode(t.terms.kind), Debit, env);
      var direction := DirectionOf(t.terms.kind, Some(ref.terms.kind));
      if direction.Some? && Moved(w, direction.value, t.terms.money, env.now).Ok? {
        var w' := Moved(w, direction.value, t.terms.money, env.now).value;
        EndIds(r, w, w', NoCode, direction.value, env);
        SameId(w, direction.value, t.terms.money, env.now);
      }
    }
  }

  lemma SameId(w: WalletRow, direction: Direction, amount: Money, now: Time)
    ensures Moved(w, direction, amount, now).Ok? ==> Moved(w, direction, amount, now).value.id == w.id
  {
  }

  lemma EndIds(t: TxRow, w: WalletRow, w': WalletRow, code: FailureCode, direction: Direction, env: Env)
    ensures forall o | o in [Process.Reject(t, w, code, env), Process.Note(t, w, env), Process.Settle(t, w, w', direction, env)] && o.Committed? ::
      && Locking.OwnIds(o.writes, env) && o.writes.tx.Some? && o.writes.tx.value.id == t.id
      && (o.writes.wallet.Some? ==> o.writes.wallet.value == w')
  {
    hide NewEntry;
    Locking.OutcomeIds(t, w, w', code, direction, env);
  }

  /** After any part of a batch the state is good, extends the first, and the remaining identifiers are still unused. */
  lemma {:induction false} BatchIsSafe(s: Store, ids: seq<Id>, envs: seq<Env>, expire: bool)
    requires StoreInv(s) && EnvsReady(s, envs) && |ids| <= |envs|
    ensures StoreInv(All(s, ids, envs, expire)) && Extends(s, All(s, ids, envs, expire))
    ensures forall k | |ids| <= k < |envs| :: Fresh(All(s, ids, envs, expire), envs[k]) && EntryIdNew(All(s, ids, envs, expire), envs[k])
  {
    hide StoreInv, Extends, Fresh, EntryIdNew, Run;
    if ids == [] {
      ExtendsReflexive(s);
    } else {
      var n := |ids| - 1;
      var before := All(s, ids[..n], envs, expire);
      BatchIsSafe(s, ids[..n], envs, expire);
      RunKeepsInv(before, if expire then CallExpire(ids[n]) else CallResume(ids[n]), envs[n]);
      ExtendsTransitive(s, before, All(s, ids, envs, expire));
      forall k | |ids| <= k < |envs|
        ensures Fresh(All(s, ids, envs, expire), envs[k]) && EntryIdNew(All(s, ids, envs, expire), envs[k])
      {
        OthersStayFresh(before, ids[n], envs[n], envs[k], expire);
      }
    }
  }

  /** An expiry settles its row, unless somebody has already. */
  lemma ExpirySettles(s: Store, id: Id, env: Env)
    requires StoreInv(s) && Fresh(s, env)
    ensures !Waits(After(s, Process.Expire(s, id, env)), id)
  {
    hide OneReversal, Accounts, Entries, Events, InboxBacked, Fresh;
    if Waits(s, id) {
      WaitingIsWritable(s, id);
      ExpireLegal(s, id, env);
      ExpireWritesItsRow(s, id, env);
    } else {
      NothingToExpire(s, id, env);
    }
  }

  lemma NothingToExpire(s: Store, id: Id, env: Env)
    requires !Waits(s, id)
    ensures !Process.Expire(s, id, env).Committed?
  {
  }

  /** Every row of an expiry batch is settled when the batch is through. */
  lemma {:induction false} BatchSettles(s: Store, ids: seq<Id>, envs: seq<Env>)
    requires StoreInv(s) && EnvsReady(s, envs) && |ids| <= |envs|
    ensures forall id | id in ids && id in s.txs :: !Waits(All(s, ids, envs, true), id)
  {
    hide StoreInv, Extends, Fresh, EntryIdNew, Process.Expire, Waits;
    if ids != [] {
      var n := |ids| - 1;
      var before, after := All(s, ids[..n], envs, true), All(s, ids, envs, true);
      BatchIsSafe(s, ids[..n], envs, true);
      BatchSettles(s, ids[..n], envs);
      ExpirySettles(before, ids[n], envs[n]);
      RunKeepsInv(before, CallExpire(ids[n]), envs[n]);
      forall id | id in ids && id in s.txs
        ensures !Waits(after, id)
      {
        if id != ids[n] {
          assert id in ids[..n];
          StaysSettled(s, before, after, id);
        }
      }
    }
  }

  lemma StaysSettled(s: Store, before: Store, after: Store, id: Id)
    requires StoreInv(before) && Extends(s, before) && Extends(before, after) && id in s.txs && !Waits(before, id)
    ensures !Waits(after, id)
  {
    hide OneReversal, Accounts, Entries, Events, InboxBacked, Indexed;
    assert RowsGrow(s, before) && RowsGrow(before, after);
    GrowthNeverReturns(before, after);
    assert id in before.txs;
  }

  // ---------------------------------------------------------------- a batch of resumes

  /** None of the batch's calls fails. */
  ghost predicate GoesThrough(s: Store, ids: seq<Id>, envs: seq<Env>)
    requires |ids| <= |envs|
  {
    ids != [] ==>
      var n := |ids| - 1;
      GoesThrough(s, ids[..n], envs) && !Process.Resume(All(s, ids[..n], envs, false), ids[n], envs[n]).Refused?
  }

  /** A resume writes no transaction row but its own. */
  lemma ResumeSparesOthers(s: Store, id: Id, env: Env, other: Id)
    requires StoreInv(s) && Fresh(s, env) && other != id
    ensures var s' := After(s, Process.Resume(s, id, env));
      (other in s'.txs <==> other in s.txs) && (other in s.txs ==> s'.txs[other] == s.txs[other])
  {
    hide OneReversal, Accounts, Entries, Events, InboxBacked, Fresh, RowCommit, MoveCommit, Rows, KeysOk, OpsOk, OwnersOk, AfterWait;
    if Process.Resume(s, id, env).Committed? {
      ResumeLegal(s, id, env);
      WritesARow(s, s.txs[id], Process.Resume(s, id, env));
    }
  }

  lemma WritesARow(s: Store, t: TxRow, o: Outcome)
    requires Ends(s, t, o) && o.Committed?
    ensures o.writes.tx.Some? && o.writes.tx.value.id == t.id
  {
    hide MayWrite, RowOk, ReferenceOk, NewEvents, DirectionOfRow, Announces, HasProcessedReversal;
  }

  lemma PostponedTwice(a: Store, b: Store, c: Store)
    requires OnlyPostponed(a, b) && OnlyPostponed(b, c)
    ensures OnlyPostponed(a, c)
  {
    NoReturnTransitive(a, b, c);
    forall id, at | id in a.txs && Waits(c, id) && NotBefore(a, id, at)
      ensures NotBefore(c, id, at)
    {
      assert id in b.txs && Waits(b, id) && NotBefore(b, id, at);
    }
  }

  lemma NothingPostponed(s: Store)
    ensures OnlyPostponed(s, s)
  {
  }

  /** One call of the batch, on a row that is due: nobody's next try moves forward. */
  lemma ResumePostpones(s: Store, id: Id, now: Time, env: Env)
    requires StoreInv(s) && Fresh(s, env) && id in Due(s, now) && now <= env.now && !Process.Resume(s, id, env).Refused?
    ensures var s' := After(s, Process.Resume(s, id, env));
      OnlyPostponed(s, s') && id in s'.txs && (!Waits(s', id) || NotBefore(s', id, now + SHORTEST_DELAY))
  {
    hide StoreInv, Fresh, Process.Resume, Extends;
    var s' := After(s, Process.Resume(s, id, env));
    GoodFacts(s);
    TryPostpones(s, id, now, env);
    RunKeepsInv(s, CallResume(id), env);
    ExtendsNeverReturns(s, s');
    forall x, at | x in s.txs && Waits(s', x) && NotBefore(s, x, at)
      ensures NotBefore(s', x, at)
    {
      if x != id {
        ResumeSparesOthers(s, id, env, x);
      }
    }
  }

  /** A batch of resumes that goes through settles or postpones every row, and moves nobody's next try forward. */
  lemma {:induction false} BatchTries(s: Store, ids: seq<Id>, envs: seq<Env>, now: Time)
    requires StoreInv(s) && EnvsReady(s, envs) && |ids| <= |envs| && GoesThrough(s, ids, envs)
    requires (forall i, j | 0 <= i < j < |ids| :: ids[i] != ids[j]) && (forall id | id in ids :: id in Due(s, now))
    requires forall e | e in envs :: now <= e.now
    ensures OnlyPostponed(s, All(s, ids, envs, false))
    ensures forall id | id in ids :: var s' := All(s, ids, envs, false); id in s'.txs && (!Waits(s', id) || NotBefore(s', id, now + SHORTEST_DELAY))
    ensures forall x | x in s.txs && x !in ids :: x in All(s, ids, envs, false).txs && All(s, ids, envs, false).txs[x] == s.txs[x]
  {
    hide StoreInv, EnvsReady, Fresh, EntryIdNew, Extends, Process.Resume, NotBefore, OnlyPostponed, Waits;
    if ids == [] {
      NothingPostponed(s);
    } else {
      var n := |ids| - 1;
      var before, after := All(s, ids[..n], envs, false), All(s, ids, envs, false);
      BatchIsSafe(s, ids[..n], envs, false);
      BatchTries(s, ids[..n], envs, now);
      assert ids[n] in ids && ids[n] !in ids[..n] && envs[n] in envs;
      ResumePostpones(before, ids[n], now, envs[n]);
      PostponedTwice(s, before, after);
      forall id | id in ids
        ensures id in after.txs && (!Waits(after, id) || NotBefore(after, id, now + SHORTEST_DELAY))
      {
        if id != ids[n] {
          assert id in ids[..n];
          StillPostponed(before, after, id, now + SHORTEST_DELAY);
        }
      }
      forall x | x in s.txs && x !in ids
        ensures x in after.txs && after.txs[x] == s.txs[x]
      {
        ResumeSparesOthers(before, ids[n], envs[n], x);
      }
    }
  }

  class ReferenceRetryWorker {
    const process: ProcessWagerTransaction
    const ttl: int

    constructor (process: ProcessWagerTransaction, ttl: int)
      ensures this.process == process && this.ttl == ttl
    {
      this.process, this.ttl := process, ttl;
    }

    method Oldest(candidates: set<Id>) returns (oldest: Id)
      requires candidates != {} && candidates <= process.db.committed.txs.Keys
      ensures oldest in candidates
      ensures var s := process.db.committed;
        forall id | id in candidates && id != oldest :: Paging.KeyLess(AgeKey(s, oldest), AgeKey(s, id))
    {
      ghost var s := process.db.committed;
      oldest :| oldest in candidates;
      var rest := candidates - {oldest};
      while rest != {}
        invariant rest <= candidates && oldest in candidates && oldest !in rest
        invariant forall id | id in candidates - rest && id != oldest :: Paging.KeyLess(AgeKey(s, oldest), AgeKey(s, id))
        decreases |rest|
      {
        var next :| next in rest;
        Paging.KeyOrder(AgeKey(s, next), AgeKey(s, oldest));
        if Paging.KeyLess(AgeKey(process.db.committed, next), AgeKey(process.db.committed, oldest)) {
          forall id | id in candidates - rest && id != oldest
            ensures Paging.KeyLess(AgeKey(s, next), AgeKey(s, id))
          {
            Paging.KeyLessTransitive(AgeKey(s, next), AgeKey(s, oldest), AgeKey(s, id));
          }
          oldest := next;
        }
        rest := rest - {next};
      }
    }

    /** ORDER BY created_at, id LIMIT n over the candidates. */
    method List(candidates: set<Id>, limit: nat) returns (ids: seq<Id>)
      requires candidates <= process.db.committed.txs.Keys
      ensures OldestOf(process.db.committed, candidates, limit, ids)
    {
      ghost var s := process.db.committed;
      var left := candidates;
      ids := [];
      while |ids| < limit && left != {}
        invariant |ids| <= limit && left <= candidates
        invariant forall i, j | 0 <= i < j < |ids| :: ids[i] != ids[j]
        invariant forall id :: id in candidates <==> id in ids || id in left
        invariant forall id | id in ids :: id !in left
        invariant forall id, x | id in left && x in ids :: Paging.KeyLess(AgeKey(s, x), AgeKey(s, id))
        decreases |left|
      {
        var oldest := Oldest(left);
        ids := ids + [oldest];
        left := left - {oldest};
      }
    }

    /** Runs the batch; the source starts the calls at once, here they take their turns. */
    method RunBatch(ids: seq<Id>, envs: seq<Env>, expire: bool)
      requires StoreInv(process.db.committed) && EnvsReady(process.db.committed, envs) && |ids| <= |envs|
      modifies process.db
      ensures process.db.committed == All(old(process.db.committed), ids, envs, expire)
    {
      hide StoreInv, EnvsReady, FreshToResume, Process.Resume, Process.Expire, Fresh, EntryIdNew, Extends;
      ghost var s := process.db.committed;
      for k := 0 to |ids|
        invariant process.db.committed == All(s, ids[..k], envs, expire)
      {
        BatchIsSafe(s, ids[..k], envs, expire);
        GoodStatesSuffice(process.db.committed, ids[k], envs[k]);
        assert ids[..k + 1][..k] == ids[..k];
        if expire {
          var _ := process.ExpirePendingReference(ids[k], envs[k]);
        } else {
          var _ := process.ResumePendingReference(ids[k], envs[k]);
        }
      }
      assert ids[..|ids|] == ids;
    }

    /** The due rows, oldest first and at most thirty-two, are each tried once more; if no call fails, each of them is
        settled or stands back for two seconds at least. */
    method ResumeDue(now: Time, envs: seq<Env>) returns (ids: seq<Id>)
      requires StoreInv(process.db.committed) && EnvsReady(process.db.committed, envs) && |envs| == LIST_LIMIT
      modifies process.db
      ensures OldestOf(old(process.db.committed), Due(old(process.db.committed), now), LIST_LIMIT, ids)
      ensures process.db.committed == All(old(process.db.committed), ids, envs, false)
      ensures StoreInv(process.db.committed) && Extends(old(process.db.committed), process.db.committed)
      ensures (forall e | e in envs :: now <= e.now) && GoesThrough(old(process.db.committed), ids, envs) ==>
        AllTried(Pass(now, old(process.db.committed), ids, process.db.committed), SHORTEST_DELAY)
    {
      hide StoreInv, EnvsReady, Extends, All, NotBefore, OnlyPostponed, GoesThrough;
      var txs := process.db.committed.txs;
      var due := set id | id in txs && txs[id].status == PendingReference
                          && (txs[id].nextRetryAt == None || txs[id].nextRetryAt.value <= now);
      ids := List(due, LIST_LIMIT);
      ghost var s := process.db.committed;
      BatchIsSafe(s, ids, envs, false);
      if (forall e | e in envs :: now <= e.now) && GoesThrough(s, ids, envs) {
        BatchTries(s, ids, envs, now);
      }
      RunBatch(ids, envs, false);
    }

    /** Nothing without a positive time-to-live; otherwise a successful pass over the oldest stale rows. */
    method ExpireStale(now: Time, envs: seq<Env>) returns (ids: seq<Id>)
      requires StoreInv(process.db.committed) && EnvsReady(process.db.committed, envs) && |envs| == LIST_LIMIT
      modifies process.db
      ensures ttl <= 0 ==> ids == [] && process.db.committed == old(process.db.committed)
      ensures ttl > 0 ==> Successful(Pass(now, old(process.db.committed), ids, process.db.committed), ttl)
      ensures StoreInv(process.db.committed) && Extends(old(process.db.committed), process.db.committed)
    {
      hide StoreInv, EnvsReady, Extends, All;
      ids := [];
      if ttl <= 0 {
        ExtendsReflexive(process.db.committed);
        return;
      }
      var cutoff := now - ttl;
      var txs := process.db.committed.txs;
      var stale := set id | id in txs && txs[id].status == PendingReference && txs[id].terms.createdAt < cutoff;
      ids := List(stale, LIST_LIMIT);
      ghost var s := process.db.committed;
      BatchIsSafe(s, ids, envs, true);
      BatchSettles(s, ids, envs);
      RunBatch(ids, envs, true);
      ExtendsNeverReturns(s, process.db.committed);
    }
  }

  lemma ExtendsNeverReturns(s: Store, s': Store)
    requires StoreInv(s) && Extends(s, s')
    ensures NoReturn(s, s')
  {
    hide Indexed, OneReversal, Accounts, Entries, Events, InboxBacked;
    GrowthNeverReturns(s, s');
  }
}
