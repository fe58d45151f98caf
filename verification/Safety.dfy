/** The invariant of the machine: it holds at the start, and every transition keeps it. */
module Safety {
  import opened Wrappers
  import opened Wallet
  import opened WagerTx
  import opened Store
  import opened Process
  import opened Invariants
  import opened Machine
  import opened Sessions
  import opened Steps
  import opened Commits
  import opened Locking
  import Preservation
  import Atomic

  // ---------------------------------------------------------------- one step of one session

  /** The step is one of the same transaction; an abort releases everything, and only an abort of a call that may
      be retried records a failure. */
  ghost predicate Continues(s: Session, s': Session) {
    && s'.op == s.op && s'.env == s.env && s'.began == s.began
    && (s'.phase.Aborted? ==> s'.locks == map[] && s'.writes == NO_WRITES)
    && (s'.fails == s.fails || (s'.phase.Aborted? && s.op.HttpCall? && exists f :: s'.fails == s.fails + [f]))
  }

  lemma OpStepContinues(v: Store, at: nat, s: Session)
    requires !s.phase.Aborted?
    ensures Continues(s, StepOfOp(v, at, s))
  {
    hide FindByKey, FindByOp, NewExternal, Taken, Open, Expire, CanonicalOf, Supported;
  }

  lemma LoadedContinues(v: Store, at: nat, s: Session)
    requires s.phase.Loaded?
    ensures Continues(s, StepLoaded(v, at, s))
  {
    hide FindByOp, ValidateReference, Reject, Park, Wait;
  }

  lemma ClearedContinues(v: Store, at: nat, s: Session)
    requires s.phase.Cleared?
    ensures Continues(s, StepCleared(v, at, s))
  {
    hide Moved, Reject, Note, DirectionOf, ResolvedRow;
  }

  lemma AdvanceContinues(log: seq<Store>, s: Session)
    requires log != [] && Active(s)
    ensures Continues(s, Advance(log, s))
  {
    hide Apply, StepOfOp, StepLoaded, StepCleared, HasProcessedReversal, ReferenceResolved, Reject, Settle, Replay, ResolvedRow;
    var v, at := Apply(Db(log), s.writes), |log| - 1;
    if s.phase.Loaded? {
      LoadedContinues(v, at, s);
    } else if s.phase.Cleared? {
      ClearedContinues(v, at, s);
    } else {
      OpStepContinues(v, at, s);
    }
  }

  /** The message's inbox row is inserted, or was there already. */
  lemma ArrivedStep(log: seq<Store>, s: Session)
    requires log != [] && Running(log, s) && s.phase == Arrived && s.op.SqsMessage? && PlainWrites(s)
    ensures var s' := StepArrived(Apply(Db(log), s.writes), s);
      || s'.phase.Aborted?
      || (Running(log, s') && (s'.phase == Begun || s'.phase.Decided?) && PhaseOk(log, s'))
  {
    hide Guard, HoldsIds, RowForSeen;
    var db, l := Db(log), InboxLock(s.op.messageId);
    var s' := StepArrived(Apply(db, s.writes), s);
    if s'.phase == Begun {
      assert Content(db, l) == Nothing;
      assert s'.locks == s.locks[l := Content(db, l)][l := Content(db, l)][l := Content(db, l)];
      LocksAdded(db, s, s', l, l, l);
      IdsKept(s, s');
    } else if s'.phase.Decided? {
      GuardSame(db, s, s');
      IdsKept(s, s');
    }
  }

  lemma IdsKept(s: Session, s': Session)
    requires HoldsIds(s) && s'.env == s.env
    requires forall l | l in s.locks :: l in s'.locks && s'.locks[l] == s.locks[l]
    ensures HoldsIds(s')
  {
    hide IdLocks;
  }

  /** The same transaction, further on, with the locks it had. */
  lemma SameLocksRun(log: seq<Store>, s: Session, s': Session)
    requires log != [] && Running(log, s) && Active(s) && s.phase != Arrived
    requires s'.op == s.op && s'.env == s.env && s'.began == s.began && s'.locks == s.locks && s'.writes.inbox == s.writes.inbox
    requires s'.phase != Arrived
    ensures Running(log, s')
  {
    hide Guard, HoldsIds, InboxHeld;
    assert Guard(Db(log), s) && HoldsIds(s);
    GuardSame(Db(log), s, s');
    RunningKept(log, s, s');
  }

  ghost predicate StepOk(log: seq<Store>, s: Session, s': Session)
    requires log != []
  {
    s'.phase.Aborted? || (Running(log, s') && !s'.phase.Done? && PhaseOk(log, s'))
  }

  lemma AttemptStepOk(log: seq<Store>, s: Session)
    requires LogOk(log) && Running(log, s) && Active(s) && PhaseOk(log, s) && IsAttempt(s.op)
    requires s.phase == Begun || s.phase.KeyMissed? || s.phase.OpMissed? || s.phase.WalletRead? || s.phase.Found?
    ensures StepOk(log, s, Advance(log, s))
  {
    hide StoreInv, Guard, HoldsIds, InboxHeld, Extends, Apply, StepBegun, StepKeyMissed, StepOpMissed, StepWalletRead, StepFound,
         LoadedOk, KeyMissedOk, FoundOk, WalletReadOk, SilentOk, Running;
    var s' := Advance(log, s);
    LastGood(log);
    RunningFacts(log, s);
    match s.phase {
      case Begun => BegunStep(log, s);
      case KeyMissed(_) => KeyMissedStep(log, s);
      case OpMissed => OpMissedStep(log, s);
      case WalletRead(_, _) => WalletReadStep(log, s);
      case Found(_) => FoundStep(log, s);
    }
    if !s'.phase.Aborted? {
      if s.phase.WalletRead? {
        RunningKept(log, s, s');
      } else {
        SameLocksRun(log, s, s');
      }
    }
  }

  lemma RunningFacts(log: seq<Store>, s: Session)
    requires log != [] && Running(log, s)
    ensures s.began < |log| && Guard(Db(log), s) && HoldsIds(s) && InboxHeld(log, s)
  {
    hide Guard, HoldsIds, InboxHeld;
  }

  lemma WorkerStepOk(log: seq<Store>, s: Session)
    requires LogOk(log) && Running(log, s) && Active(s) && PhaseOk(log, s)
    requires !IsAttempt(s.op) && (s.phase == Begun || s.phase.Locked?)
    ensures StepOk(log, s, Advance(log, s))
  {
    hide StoreInv, Guard, HoldsIds, InboxHeld, Extends, Apply, StepResume, StepExpire, StepOpen, StepLocked,
         LoadedOk, SilentOk, ExpiredOk, OpenedOk, Running, Rows, KeysOk, OpsOk, OwnersOk;
    var s' := Advance(log, s);
    LastGood(log);
    RunningFacts(log, s);
    if s.phase.Locked? {
      LockedStep(log, s);
    } else {
      match s.op {
        case ResumeRow(_) => ResumeStep(log, s);
        case ExpireRow(_) => ExpireStep(log, s);
        case OpenAccount(_, _) => OpenStep(log, s);
      }
    }
    if !s'.phase.Aborted? {
      if s.phase.Locked? {
        SameLocksRun(log, s, s');
      } else {
        RunningKept(log, s, s');
      }
    }
  }

  lemma SharedStepOk(log: seq<Store>, s: Session)
    requires LogOk(log) && Running(log, s) && PhaseOk(log, s)
    requires s.phase.Loaded? || s.phase.Referenced? || s.phase.Cleared? || s.phase.Saved?
    ensures StepOk(log, s, Advance(log, s))
  {
    hide StoreInv, Guard, HoldsIds, InboxHeld, Apply, StepLoaded, StepReferenced, StepCleared, StepSaved, Running,
         LoadedOk, ReferencedOk, Clear, SavedOk, DeclinedOk, ParkedOk, NotedOk, WaitedOk, SettledOk, Rows, Indexed,
         RowsGrow, ReversalMovesWallet, Within, RowWrites;
    var s' := Advance(log, s);
    LastGood(log);
    RunningFacts(log, s);
    match s.phase {
      case Loaded(_, _, _) =>
        LoadedStep(log, s);
        SameLocksRun(log, s, s');
      case Referenced(_, _, _, _, _) =>
        ReferencedStep(log, s);
        if !s'.phase.Aborted? {
          SameLocksRun(log, s, s');
        }
      case Cleared(_, _, _, _, _, _) =>
        ClearedStep(log, s);
        if !s'.phase.Aborted? {
          RunningKept(log, s, s');
        }
      case Saved(w, rw, t, ref, rr, rc, _, _) =>
        SavedReady(log, s);
        SavedStep(log, s);
        SameLocksRun(log, s, s');
    }
  }

  lemma SavedReady(log: seq<Store>, s: Session)
    requires LogOk(log) && s.phase.Saved? && PhaseOk(log, s) && HoldsIds(s) && Guard(Db(log), s)
    ensures WalletOk(s.phase.w) && s.env.entryId != "" && s.phase.t.id != ""
  {
    hide StoreInv, HoldsWallet, Moved, Extends, RowInHand, Guard;
    var w, rw, t := s.phase.w, s.phase.rw, s.phase.t;
    ClearFacts(log, s, w, rw, t, s.phase.ref, s.phase.rr, s.phase.rc);
    SeenWalletIsThere(log, s, w, rw);
    LastGood(log);
    InHandNamed(Db(log), s, w, t);
  }

  lemma InHandNamed(db: Store, s: Session, w: WalletRow, t: TxRow)
    requires Indexed(db) && RowInHand(s, w, t) && HoldsIds(s) && Guard(db, s)
    ensures t.id != "" && (IsAttempt(s.op) ==> t.id == s.env.txId)
  {
    hide Guard;
    if !IsAttempt(s.op) {
      HeldRow(db, s, t.id);
    }
  }

  /** One step of one session keeps all that is known about it. */
  lemma AdvanceOk(log: seq<Store>, s: Session)
    requires LogOk(log) && SessionOk(log, s) && Active(s)
    ensures SessionOk(log, Advance(log, s))
  {
    hide StoreInv, Extends, Running, PhaseOk, Advance;
    StepIsOk(log, s);
    if Advance(log, s).phase.Aborted? {
      AdvanceContinues(log, s);
    }
  }

  lemma StepIsOk(log: seq<Store>, s: Session)
    requires LogOk(log) && SessionOk(log, s) && Active(s)
    ensures StepOk(log, s, Advance(log, s))
  {
    hide StoreInv, Extends, Running, StepBegun, StepKeyMissed, StepOpMissed, StepWalletRead, StepFound, StepResume,
         StepExpire, StepOpen,
         StepLocked, StepLoaded, StepReferenced, StepCleared, StepSaved, LoadedOk, ReferencedOk, Clear, SavedOk, Apply;
    if s.phase == Arrived {
      ArrivedStep(log, s);
    } else if s.phase.Loaded? || s.phase.Referenced? || s.phase.Cleared? || s.phase.Saved? {
      SharedStepOk(log, s);
    } else if IsAttempt(s.op) {
      AttemptStepOk(log, s);
    } else {
      WorkerStepOk(log, s);
    }
  }

  // ---------------------------------------------------------------- a commit, seen from the others

  ghost predicate Prefix(log: seq<Store>, log': seq<Store>) {
    |log| <= |log'| && forall i | 0 <= i < |log| :: log'[i] == log[i]
  }

  /** What was read stays read: later commits change nothing about it. */
  lemma PhaseStays(log: seq<Store>, log': seq<Store>, s: Session)
    requires log != [] && Prefix(log, log') && PhaseOk(log, s)
    ensures PhaseOk(log', s)
  {
    hide RowInHand, HoldsWallet, Moved, Writing, RowFor, HasProcessedReversal, ValidateReference, Process.Open, Process.Expire,
         SilentOk, SettledOk, DeclinedOk, ParkedOk, NotedOk, WaitedOk, ExpiredOk, OpenedOk, RowWrites, Clear, RowForSeen;
    match s.phase {
      case Found(_) => RowForStays(log, log', InputOf(s.op));
      case Cleared(w, rw, t, ref, rr, rc) => ClearAtPrefix(log, log', s, w, rw, t, ref, rr, rc);
      case Saved(w, rw, t, ref, rr, rc, _, _) => ClearAtPrefix(log, log', s, w, rw, t, ref, rr, rc);
      case Decided(_, _, _, _, _) => DecisionStays(log, log', s);
      case _ =>
    }
  }

  lemma RowForStays(log: seq<Store>, log': seq<Store>, i: Input)
    requires Prefix(log, log')
    ensures RowForSeen(log, i) ==> RowForSeen(log', i)
  {
    hide RowFor;
    if RowForSeen(log, i) {
      var at: nat :| at < |log| && RowFor(log[at], i);
      assert RowFor(log'[at], i);
    }
  }

  lemma ClearAtPrefix(log: seq<Store>, log': seq<Store>, s: Session, w: WalletRow, rw: nat, t: TxRow, ref: Option<TxRow>, rr: nat, rc: nat)
    requires Prefix(log, log') && Clear(log, s, w, rw, t, ref, rr, rc)
    ensures Clear(log', s, w, rw, t, ref, rr, rc)
  {
    hide RowInHand, HasProcessedReversal, ValidateReference;
  }

  lemma DecisionStays(log: seq<Store>, log': seq<Store>, s: Session)
    requires log != [] && Prefix(log, log') && s.phase.Decided? && PhaseOk(log, s)
    ensures PhaseOk(log', s)
  {
    hide RowInHand, HoldsWallet, Moved, Writing, RowFor, HasProcessedReversal, ValidateReference, Process.Open,
         Process.Expire, Clear, RowForSeen;
    var d, rw, rr, rc := s.phase.decision, s.phase.rw, s.phase.rr, s.phase.rc;
    match d {
      case Silent => if s.writes.inbox.Some? { RowForStays(log, log', s.writes.inbox.value.1); }
      case Settled(w, t, ref, _, _) => ClearAtPrefix(log, log', s, w, rw, t, ref, rr, rc);
      case Declined(w, readAt, t, code, cause) =>
        JustifiedStays(log, log', s, w, readAt, t, code, cause);
        if cause.Shortfall? {
          ClearAtPrefix(log, log', s, w, readAt, t, cause.resolved, rr, rc);
        }
      case _ =>
    }
  }

  lemma JustifiedStays(log: seq<Store>, log': seq<Store>, s: Session, w: WalletRow, rw: nat, t: TxRow, code: FailureCode, cause: Cause)
    requires Prefix(log, log') && Justified(log, s, w, rw, t, code, cause)
    ensures Justified(log', s, w, rw, t, code, cause)
  {
    hide Moved, HasProcessedReversal, ValidateReference;
  }

  /** A session survives another session's commit: its locks were not touched. */
  lemma OtherStays(log: seq<Store>, next: Store, s: Session, other: Session)
    requires LogOk(log) && WritesHeld(Db(log), s) && HoldsIds(s) && next == Apply(Db(log), s.writes)
    requires Extends(Db(log), next)
    requires s.locks.Keys !! other.locks.Keys && SessionOk(log, other)
    ensures SessionOk(log + [next], other)
  {
    hide StoreInv, RowsGrow, ReversalMovesWallet, WritesHeld, HoldsIds, PhaseOk, Content, Apply;
    var db, log' := Db(log), log + [next];
    if !Stopped(log, other) {
      LastGood(log);
      forall l | l in other.locks
        ensures Content(next, l) == other.locks[l]
      {
        OthersUntouched(db, s, l);
      }
      PhaseStays(log, log', other);
    }
  }

  // ---------------------------------------------------------------- the transitions

  lemma LogGrows(log: seq<Store>, next: Store)
    requires LogOk(log) && StoreInv(next) && Extends(Db(log), next)
    ensures LogOk(log + [next])
  {
    hide StoreInv, Extends;
    var log' := log + [next];
    forall i, j | 0 <= i <= j < |log'|
      ensures Extends(log'[i], log'[j])
    {
      if i == |log| {
        ExtendsReflexive(next);
      } else if j == |log| {
        ExtendsTransitive(log[i], Db(log), next);
      }
    }
  }

  /** A commit adds a good state that extends every earlier one. */
  lemma CommitExtends(log: seq<Store>, s: Session)
    requires LogOk(log) && Running(log, s) && s.phase.Decided? && PhaseOk(log, s)
    ensures LogOk(log + [Apply(Db(log), s.writes)]) && Extends(Db(log), Apply(Db(log), s.writes))
  {
    hide StoreInv, Extends, Running, PhaseOk, Legal;
    CommitLegal(log, s);
    Preservation.LegalKeepsInv(Db(log), s.writes);
    LogGrows(log, Apply(Db(log), s.writes));
  }

  lemma CommitKeeps(m: Machine, sid: nat, m': Machine)
    requires MachineInv(m) && Next(m, Commit(sid), m')
    ensures MachineInv(m')
  {
    hide LogOk, Extends, Running, PhaseOk, InboxHeld, WritesHeld, HoldsIds, Guard;
    var s, db, next := m.sessions[sid], Db(m.log), Db(m'.log);
    CommitExtends(m.log, s);
    CommitIsHeld(m.log, s);
    RunningFacts(m.log, s);
    forall other | other in m'.sessions && other != sid
      ensures SessionOk(m'.log, m'.sessions[other])
    {
      OtherStays(m.log, next, s, m.sessions[other]);
    }
    DoneKnows(m.log, next, s, m'.sessions[sid]);
    InboxStays(db, next);
  }

  lemma InboxStays(db: Store, next: Store)
    requires Extends(db, next)
    ensures forall m | m in db.inbox :: m in next.inbox
  {
  }

  lemma DoneKnows(log: seq<Store>, next: Store, s: Session, s': Session)
    requires log != [] && next == Apply(Db(log), s.writes) && Extends(Db(log), next)
    requires s.phase.Decided? && InboxHeld(log, s)
    requires s' == s.(phase := Done(s.phase.out), writes := NO_WRITES, locks := map[])
    ensures Stopped(log + [next], s')
  {
    hide RowsGrow, ReversalMovesWallet;
  }

  lemma StepKeeps(m: Machine, sid: nat, m': Machine)
    requires MachineInv(m) && Next(m, Step(sid), m')
    ensures MachineInv(m')
  {
    hide StoreInv, Extends, SessionOk, Advance;
    AdvanceOk(m.log, m.sessions[sid]);
  }

  lemma StartOk(m: Machine, sid: nat, op: Op, env: Env, fails: seq<Failure>)
    requires m.log != [] && FreshIds(m, sid, env)
    ensures SessionOk(m.log, Start(op, env, |m.log| - 1, IdLocks(env), fails))
  {
    hide Content;
  }

  lemma StartKeeps(m: Machine, l: Label, m': Machine)
    requires MachineInv(m) && (l.Begin? || l.Again?) && Next(m, l, m')
    ensures MachineInv(m')
  {
    hide StoreInv, Extends, SessionOk, Content, IdLocks;
    var fails := if l.Begin? then [] else m.sessions[l.sid].fails;
    var op := if l.Begin? then l.op else m.sessions[l.sid].op;
    StartOk(m, l.sid, op, l.env, fails);
  }

  lemma LeaveKeeps(m: Machine, l: Label, m': Machine)
    requires MachineInv(m) && (l.Crash? || l.Delete?) && Next(m, l, m')
    ensures MachineInv(m')
  {
    hide StoreInv, Extends, Running, PhaseOk;
  }

  lemma NextKeeps(m: Machine, l: Label, m': Machine)
    requires MachineInv(m) && Next(m, l, m')
    ensures MachineInv(m')
  {
    hide MachineInv, Next;
    match l {
      case Step(sid) => StepKeeps(m, sid, m');
      case Commit(sid) => CommitKeeps(m, sid, m');
      case Begin(_, _, _) => StartKeeps(m, l, m');
      case Again(_, _) => StartKeeps(m, l, m');
      case Crash(_) => LeaveKeeps(m, l, m');
      case Delete(_) => LeaveKeeps(m, l, m');
    }
  }

  lemma {:induction false} RunSafe(run: seq<Machine>)
    requires IsRun(run)
    ensures MachineInv(run[|run| - 1])
  {
    hide MachineInv, Next;
    if |run| == 1 {
      InitSafe();
    } else {
      var front := run[..|run| - 1];
      RunSafe(front);
      var m, m' := run[|run| - 2], run[|run| - 1];
      assert front[|front| - 1] == m;
      var l :| Next(m, l, m');
      NextKeeps(m, l, m');
    }
  }

  lemma InitSafe()
    ensures MachineInv(INIT)
  {
    hide StoreInv, Extends;
    Atomic.EmptyStoreGood();
    ExtendsReflexive(EMPTY);
  }

  /** Every reachable state of the service, under any interleaving and any crashes, satisfies the invariant. */
  lemma ReachableSafe(m: Machine)
    requires Reachable(m)
    ensures MachineInv(m)
  {
    hide MachineInv, Next;
    var run :| IsRun(run) && run[|run| - 1] == m;
    RunSafe(run);
  }
}
