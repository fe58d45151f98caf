/** The SQS consumer: a batch of received messages, each handled in one transaction and deleted once that is through. */
module Consumer {
  import opened Wrappers
  import opened Wallet
  import opened WagerTx
  import opened Ledger
  import opened Store
  import opened Process
  import opened Invariants
  import opened Endings
  import opened UseCases
  import opened Workers
  import Preservation
  import Atomic
  import Steps
  import Locking

  datatype Message = Message(messageId: string, body: Input)

  // ---------------------------------------------------------------- what one message does to a good state

  /** A replay means the request has its row. */
  lemma ReplayHasRow(s: Store, i: Input, env: Env)
    requires Indexed(s) && Rows(s) && Process.Attempt(s, i, env).Replayed?
    ensures RowFor(s, i)
  {
    hide RowFor, OwnersOk, ReferenceOk, WalletOk, CanonicalOf, NewExternal, AfterInsert, Rows;
    if ResolveByKey(s, i).Some? {
      Steps.FoundIsRowFor(s, i, FindByKey(s, i.idempotencyKey).value);
    } else if ResolveByOp(s, i).Some? {
      Steps.FoundByOpIsRowFor(s, s, i);
    } else {
      InsertNeverReplays(s, i, env);
    }
  }

  lemma InsertNeverReplays(s: Store, i: Input, env: Env)
    requires ResolveByKey(s, i).None? && ResolveByOp(s, i).None?
    ensures !Process.Attempt(s, i, env).Replayed?
  {
    hide ResolveByKey, ResolveByOp, NewExternal, AfterInsert, Taken;
    if i.walletId in s.wallets && NewExternal(env.txId, i, s.wallets[i.walletId], env.now).Ok? {
      var t := NewExternal(env.txId, i, s.wallets[i.walletId], env.now).value;
      NeverReplays(PutTx(s, t), s.wallets[i.walletId], t, env);
    }
  }

  /** The writes of a handled message are legal: the inbox row is new and its request has its row. */
  lemma HandledIsLegal(s: Store, messageId: string, body: Input, env: Env)
    requires Indexed(s) && Rows(s) && Fresh(s, env) && messageId !in s.inbox
    ensures var o := Process.Attempt(s, body, env);
      && (o.Committed? ==> Legal(s, o.writes.(inbox := Some((messageId, body)))))
      && (o.Replayed? ==> Legal(s, NO_WRITES.(inbox := Some((messageId, body)))))
  {
    hide Process.Attempt, RowFor, RowCommit, MoveCommit, Rows, Fresh;
    var o := Process.Attempt(s, body, env);
    if o.Committed? {
      Atomic.AttemptLegal(s, body, env);
      InboxAside(s, o.writes, messageId, body);
    } else if o.Replayed? {
      ReplayHasRow(s, body, env);
      RowForSilent(s, messageId, body);
    }
  }

  lemma InboxAside(s: Store, d: Writes, messageId: string, body: Input)
    requires (RowCommit(s, d) || MoveCommit(s, d)) && RowFor(Apply(s, d), body)
    ensures var d' := d.(inbox := Some((messageId, body))); (RowCommit(s, d') || MoveCommit(s, d')) && RowFor(Apply(s, d'), body)
  {
    hide MayWrite, RowOk, ReferenceOk, NewEvents, DirectionOfRow, Announces, HasProcessedReversal, CanonicalOf;
  }

  lemma RowForSilent(s: Store, messageId: string, body: Input)
    requires RowFor(s, body)
    ensures RowFor(Apply(s, NO_WRITES.(inbox := Some((messageId, body)))), body)
  {
    hide CanonicalOf;
  }

  /** The message is stored with its body, and its request has its row. */
  ghost predicate Stored(s: Store, m: Message) {
    m.messageId in s.inbox && (s.inbox[m.messageId] == m.body ==> RowFor(s, m.body))
  }

  lemma StoredStays(s: Store, s': Store, m: Message)
    requires Extends(s, s') && Stored(s, m)
    ensures Stored(s', m)
  {
    hide RowsGrow, ReversalMovesWallet, RowFor;
    if s'.inbox[m.messageId] == m.body {
      Preservation.RowForGrows(s, s', m.body);
    }
  }

  lemma KnownIsStored(s: Store, m: Message)
    requires StoreInv(s) && m.messageId in s.inbox
    ensures Stored(s, m)
  {
    hide Indexed, Rows, OneReversal, Accounts, Entries, Events, RowFor;
  }

  /** Handling keeps a good state good, and a message handled without an error is stored. */
  lemma HandledIsSafe(s: Store, m: Message, env: Env, s': Store, err: Option<Error>)
    requires StoreInv(s) && Fresh(s, env) && m.messageId !in s.inbox
    requires Handled(s, m.messageId, m.body, Process.Attempt(s, m.body, env), s', err)
    ensures StoreInv(s') && Extends(s, s') && (err.None? ==> Stored(s', m))
  {
    hide StoreInv, Extends, Process.Attempt, Legal, Fresh;
    GoodFacts(s);
    HandledIsLegal(s, m.messageId, m.body, env);
    match Process.Attempt(s, m.body, env) {
      case Committed(d, _) =>
        Preservation.LegalKeepsInv(s, d.(inbox := Some((m.messageId, m.body))));
        KnownIsStored(s', m);
      case Replayed(_) =>
        Preservation.LegalKeepsInv(s, NO_WRITES.(inbox := Some((m.messageId, m.body))));
        KnownIsStored(s', m);
      case Refused(_) => ExtendsReflexive(s);
      case Unchanged =>
    }
  }

  // ---------------------------------------------------------------- identifiers of the messages still to come

  lemma AttemptIds(s: Store, i: Input, env: Env)
    requires Process.Attempt(s, i, env).Committed? && Indexed(s)
    ensures OnlyOwn(s, Process.Attempt(s, i, env).writes, env)
  {
    hide NewExternal, AfterInsert, KeysOk, OpsOk, OwnersOk, Locking.OwnIds;
    Atomic.AttemptInserts(s, i, env);
    var w := s.wallets[i.walletId];
    var t := NewExternal(env.txId, i, w, env.now).value;
    Locking.NewRowNamed(env.txId, i, w, env.now);
    InsertedIds(PutTx(s, t), w, t, env);
    OwnIdsSame(s, Process.Attempt(s, i, env).writes, env);
  }

  lemma OwnIdsSame(s: Store, d: Writes, env: Env)
    requires Locking.OwnIds(d, env) && d.tx.Some? && d.tx.value.id == env.txId && (d.wallet.Some? ==> d.wallet.value.id in s.wallets)
    ensures OnlyOwn(s, d, env)
  {
  }

  lemma InsertedIds(v: Store, w: WalletRow, t: TxRow, env: Env)
    ensures var o := AfterInsert(v, w, t, env);
      o.Committed? ==>
        && Locking.OwnIds(o.writes, env) && o.writes.tx.Some? && o.writes.tx.value.id == t.id
        && (o.writes.wallet.Some? ==> o.writes.wallet.value.id == w.id)
  {
    hide Process.Reject, Process.Park, Process.Note, Process.Settle, Moved, WithReference, FindByOp, Locking.OwnIds;
    EndIds(t, w, w, CurrencyMismatch, Debit, env);
    EndIds(t, w, w, ReferenceNotProcessable, Debit, env);
    EndIds(t, w, w, ShortfallCode(t.terms.kind), Debit, env);
    ParkIds(t, w, env);
    var found := FindByOp(v, t.terms.providerId, t.terms.referenceExternalId);
    if found.Some? {
      FollowIds(v, w, t, found.value, env);
    }
    var direction := DirectionOf(t.terms.kind, None);
    if direction.Some? && Moved(w, direction.value, t.terms.money, env.now).Ok? {
      EndIds(t, w, Moved(w, direction.value, t.terms.money, env.now).value, NoCode, direction.value, env);
      SameId(w, direction.value, t.terms.money, env.now);
    }
  }

  lemma ParkIds(t: TxRow, w: WalletRow, env: Env)
    ensures Process.Park(t, w, env).Committed? ==>
      Locking.OwnIds(Process.Park(t, w, env).writes, env) && Process.Park(t, w, env).writes.tx.Some?
      && Process.Park(t, w, env).writes.tx.value.id == t.id && Process.Park(t, w, env).writes.wallet == None
  {
  }

  lemma HandledStaysFresh(s: Store, m: Message, env: Env, s': Store, err: Option<Error>, other: Env)
    requires StoreInv(s) && Handled(s, m.messageId, m.body, Process.Attempt(s, m.body, env), s', err)
    requires Fresh(s, other) && EntryIdNew(s, other) && Apart(env, other)
    ensures Fresh(s', other) && EntryIdNew(s', other)
  {
    hide StoreInv, Process.Attempt, Fresh, EntryIdNew;
    GoodFacts(s);
    var o := Process.Attempt(s, m.body, env);
    if o.Committed? {
      AttemptIds(s, m.body, env);
      OwnIdsOnly(s, o.writes.(inbox := Some((m.messageId, m.body))), env, other);
    } else if o.Replayed? {
      OwnIdsOnly(s, NO_WRITES.(inbox := Some((m.messageId, m.body))), env, other);
    }
  }

  // ---------------------------------------------------------------- a batch

  /** The message is acknowledged: its id is known, or its attempt is not refused. */
  ghost predicate IsAcknowledged(s: Store, m: Message, env: Env) {
    m.messageId != "" && (m.messageId in s.inbox || !Process.Attempt(s, m.body, env).Refused?)
  }

  /** What a message leaves: the attempt's writes and the inbox row together, or nothing. */
  ghost function AfterMessage(s: Store, m: Message, env: Env): Store {
    if m.messageId == "" || m.messageId in s.inbox then s
    else
      match Process.Attempt(s, m.body, env)
      case Committed(d, _) => Apply(s, d.(inbox := Some((m.messageId, m.body))))
      case Replayed(_) => Apply(s, NO_WRITES.(inbox := Some((m.messageId, m.body))))
      case _ => s
  }

  /** The messages in order, each on the state the ones before it left. */
  ghost function AfterMessages(s: Store, messages: seq<Message>, envs: seq<Env>): Store
    requires |messages| <= |envs|
  {
    if messages == [] then s
    else
      var n := |messages| - 1;
      AfterMessage(AfterMessages(s, messages[..n], envs), messages[n], envs[n])
  }

  /** Those of them that are acknowledged, in order. */
  ghost function Acknowledged(s: Store, messages: seq<Message>, envs: seq<Env>): seq<Message>
    requires |messages| <= |envs|
  {
    if messages == [] then []
    else
      var n := |messages| - 1;
      Acknowledged(s, messages[..n], envs)
      + if IsAcknowledged(AfterMessages(s, messages[..n], envs), messages[n], envs[n]) then [messages[n]] else []
  }

  lemma AttemptWritesInbox(s: Store, m: Message, env: Env)
    requires m.messageId != "" && m.messageId !in s.inbox && !Process.Attempt(s, m.body, env).Unchanged?
    ensures AfterMessage(s, m, env).inbox
         == if Process.Attempt(s, m.body, env).Refused? then s.inbox else s.inbox[m.messageId := m.body]
  {
    hide Process.Attempt;
  }

  lemma NeverUnchanged(s: Store, i: Input, env: Env)
    ensures !Process.Attempt(s, i, env).Unchanged?
  {
    hide NewExternal, Taken, ResolveByKey, ResolveByOp, AfterInsert;
    ResolvedOnceOnly(s, i);
    if i.walletId in s.wallets && NewExternal(env.txId, i, s.wallets[i.walletId], env.now).Ok? {
      var t := NewExternal(env.txId, i, s.wallets[i.walletId], env.now).value;
      InsertedOnceOnly(PutTx(s, t), s.wallets[i.walletId], t, env);
    }
  }

  lemma ResolvedOnceOnly(s: Store, i: Input)
    ensures ResolveByKey(s, i) != Some(Unchanged) && ResolveByOp(s, i) != Some(Unchanged)
  {
    hide FindByKey, FindByOp, CanonicalOf;
  }

  lemma InsertedOnceOnly(v: Store, w: WalletRow, t: TxRow, env: Env)
    ensures !AfterInsert(v, w, t, env).Unchanged?
  {
    hide FindByOp, HasProcessedReversal, ValidateReference, Moved, NewEntry;
  }

  /** The place of a message that brought its id into the inbox. */
  ghost predicate Brings(s: Store, messages: seq<Message>, envs: seq<Env>, k: nat, id: string)
    requires |messages| <= |envs|
  {
    k < |messages| && messages[k].messageId == id && IsAcknowledged(AfterMessages(s, messages[..k], envs), messages[k], envs[k])
  }

  lemma BringsInFront(s: Store, messages: seq<Message>, envs: seq<Env>, k: nat, id: string)
    requires |messages| <= |envs| && k + 1 < |messages|
    ensures Brings(s, messages[..|messages| - 1], envs, k, id) == Brings(s, messages, envs, k, id)
  {
    assert messages[..|messages| - 1][..k] == messages[..k];
  }

  /** What a batch leaves in the inbox: the ids that were there, and those of the acknowledged messages; nothing of a message
      that failed. */
  lemma {:induction false} BatchFillsInbox(s: Store, messages: seq<Message>, envs: seq<Env>, id: string)
    requires |messages| <= |envs|
    ensures id in AfterMessages(s, messages, envs).inbox <==> id in s.inbox || exists k :: Brings(s, messages, envs, k, id)
    ensures id in s.inbox ==> AfterMessages(s, messages, envs).inbox[id] == s.inbox[id]
  {
    hide Process.Attempt, AfterMessage, IsAcknowledged;
    if messages != [] {
      var n := |messages| - 1;
      var front, before := messages[..n], AfterMessages(s, messages[..n], envs);
      BatchFillsInbox(s, front, envs, id);
      MessageFillsInbox(before, messages[n], envs[n]);
      if k: nat :| Brings(s, front, envs, k, id) {
        BringsInFront(s, messages, envs, k, id);
      }
      if k: nat :| Brings(s, messages, envs, k, id) {
        if k < n {
          BringsInFront(s, messages, envs, k, id);
        }
      }
      if id in AfterMessages(s, messages, envs).inbox && id !in before.inbox {
        assert Brings(s, messages, envs, n, id);
      }
    }
  }

  lemma MessageFillsInbox(s: Store, m: Message, env: Env)
    ensures IsAcknowledged(s, m, env) ==> m.messageId in AfterMessage(s, m, env).inbox
    ensures forall id :: id in AfterMessage(s, m, env).inbox <==> id in s.inbox || (id == m.messageId && IsAcknowledged(s, m, env))
    ensures forall id | id in s.inbox :: AfterMessage(s, m, env).inbox[id] == s.inbox[id]
  {
    hide Process.Attempt, AfterMessage;
    if m.messageId != "" && m.messageId !in s.inbox {
      NeverUnchanged(s, m.body, env);
      AttemptWritesInbox(s, m, env);
    } else {
      NothingLeft(s, m, env);
    }
  }

  lemma NothingLeft(s: Store, m: Message, env: Env)
    requires m.messageId == "" || m.messageId in s.inbox
    ensures AfterMessage(s, m, env) == s
  {
  }

  // ---------------------------------------------------------------- the receive loop

  class Consumer {
    const process: ProcessWagerTransaction
    /** The messages removed from the queue, in order. */
    var deleted: seq<Message>

    constructor (process: ProcessWagerTransaction)
      ensures this.process == process && deleted == []
    {
      this.process, deleted := process, [];
    }

    /** One received batch: every message is handled, in order, on what the ones before it left; exactly the acknowledged
        ones are deleted; one that fails leaves nothing and stays in the queue, and the loop goes on. Everything deleted is
        stored, and the database stays good throughout. */
    method Receive(messages: seq<Message>, envs: seq<Env>)
      requires StoreInv(process.db.committed) && EnvsReady(process.db.committed, envs) && |envs| == |messages|
      modifies this`deleted, process.db
      ensures process.db.committed == AfterMessages(old(process.db.committed), messages, envs)
      ensures deleted == old(deleted) + Acknowledged(old(process.db.committed), messages, envs)
      ensures StoreInv(process.db.committed) && Extends(old(process.db.committed), process.db.committed)
      ensures forall k | |old(deleted)| <= k < |deleted| :: deleted[k] in messages && Stored(process.db.committed, deleted[k])
    {
      hide StoreInv, Extends, Fresh, EntryIdNew, FreshFor, Handled, Stored, Process.Attempt, AfterMessage, IsAcknowledged;
      ghost var s := process.db.committed;
      ExtendsReflexive(s);
      for i := 0 to |messages|
        invariant StoreInv(process.db.committed) && Extends(s, process.db.committed)
        invariant process.db.committed == AfterMessages(s, messages[..i], envs)
        invariant deleted == old(deleted) + Acknowledged(s, messages[..i], envs)
        invariant forall k | i <= k < |envs| :: Fresh(process.db.committed, envs[k]) && EntryIdNew(process.db.committed, envs[k])
        invariant forall k | |old(deleted)| <= k < |deleted| :: deleted[k] in messages && Stored(process.db.committed, deleted[k])
      {
        var m := messages[i];
        ghost var before := process.db.committed;
        GoodStatesSuffice(before, "", envs[i]);
        var err, duplicate := process.Handle(m.messageId, m.body, envs[i]);
        ghost var after := process.db.committed;
        ReceivedOne(s, before, after, m, envs, i, err, duplicate);
        assert messages[..i + 1][..i] == messages[..i];
        forall k | |old(deleted)| <= k < |deleted|
          ensures Stored(after, deleted[k])
        {
          StoredStays(before, after, deleted[k]);
        }
        if err.None? {
          deleted := deleted + [m];
        }
      }
      assert messages[..|messages|] == messages;
    }
  }

  /** What one turn of the loop does and keeps. */
  lemma ReceivedOne(s: Store, before: Store, after: Store, m: Message, envs: seq<Env>, i: nat, err: Option<Error>, duplicate: bool)
    requires StoreInv(before) && Extends(s, before) && i < |envs|
    requires forall k | i <= k < |envs| :: Fresh(before, envs[k]) && EntryIdNew(before, envs[k])
    requires forall j, k | 0 <= j < k < |envs| :: Apart(envs[j], envs[k])
    requires duplicate == (m.messageId in before.inbox && m.messageId != "")
    requires m.messageId == "" ==> err == Some(ErrInvalidEnvelope)
    requires err.Some? ==> after == before
    requires duplicate ==> err == None && after == before
    requires m.messageId != "" && !duplicate ==> Handled(before, m.messageId, m.body, Process.Attempt(before, m.body, envs[i]), after, err)
    ensures StoreInv(after) && Extends(before, after) && Extends(s, after) && (err.None? ==> Stored(after, m))
    ensures after == AfterMessage(before, m, envs[i]) && (err.None? <==> IsAcknowledged(before, m, envs[i]))
    ensures forall k | i < k < |envs| :: Fresh(after, envs[k]) && EntryIdNew(after, envs[k])
  {
    hide StoreInv, Extends, Fresh, EntryIdNew, Stored, Process.Attempt;
    if m.messageId != "" && !duplicate {
      HandledIsSafe(before, m, envs[i], after, err);
      forall k | i < k < |envs|
        ensures Fresh(after, envs[k]) && EntryIdNew(after, envs[k])
      {
        HandledStaysFresh(before, m, envs[i], after, err, envs[k]);
      }
    } else {
      ExtendsReflexive(before);
      if duplicate {
        KnownIsStored(before, m);
      }
    }
    ExtendsTransitive(s, before, after);
  }
}
