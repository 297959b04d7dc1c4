/** What every run keeps, with timeouts, cancellation and Close at any time: the life of lock channels, the waiters, and
    the close record. */
module ProtocolChannels {
  import opened Wrappers
  import opened Sockets
  import opened Protocol
  import opened ProtocolMoves

  // ---- Lock channels

  ghost predicate Pending(s: State, c: nat, lock: LockChannel) {
    c in s.contexts && PendingLock(s.contexts[c]) == Some(lock)
  }

  ghost predicate Held(s: State, lock: LockChannel) {
    exists id :: id in s.socket.locks && s.socket.locks[id] == lock
  }

  /** A channel is in the lock map under one ID, or deleted and about to be closed by one context, or closed, once. */
  ghost predicate LockChannels(s: State) {
    && (forall id :: id in s.socket.locks ==>
        s.socket.locks[id] < s.socket.nextLock && s.socket.locks[id] !in s.socket.closings)
    && (forall id, id' :: id in s.socket.locks && id' in s.socket.locks && s.socket.locks[id] == s.socket.locks[id'] ==>
        id == id')
    && (forall c: nat, lock: LockChannel :: Pending(s, c, lock) ==>
        lock < s.socket.nextLock && lock !in s.socket.closings && !Held(s, lock))
    && (forall c: nat, c': nat, lock: LockChannel :: Pending(s, c, lock) && Pending(s, c', lock) ==> c == c')
    && (forall lock: LockChannel :: s.socket.closings[lock] <= 1)
    && (forall lock: LockChannel :: lock in s.socket.closings ==> lock < s.socket.nextLock)
  }

  /** The channel a context waits on is the one in the map for the ID it waits for. */
  ghost predicate WaitsForLockOf(s: State, x: Context)
    requires x.phase.Waiting?
  {
    Wanted(x).Some? && Wanted(x).value in s.socket.locks && s.socket.locks[Wanted(x).value] == x.phase.lock
  }

  /** Whoever waits waits on the current channel of its ID, or will be woken, or the socket is closing. */
  ghost predicate Waked(s: State, c: nat)
    requires c in s.contexts && s.contexts[c].phase.Waiting?
  {
    var lock := s.contexts[c].phase.lock;
    || WaitsForLockOf(s, s.contexts[c])
    || lock in s.socket.closings
    || (exists c': nat :: Pending(s, c', lock))
    || s.socket.stage in {LocksReset, Cancelled}
  }

  ghost predicate NoStrandedWaiter(s: State) {
    forall c: nat :: c in s.contexts && s.contexts[c].phase.Waiting? ==> Waked(s, c)
  }

  ghost predicate SameLocks(s: State, t: State) {
    && t.socket.locks == s.socket.locks && t.socket.nextLock == s.socket.nextLock
    && t.socket.closings == s.socket.closings
    && (forall c: nat, lock: LockChannel :: Pending(t, c, lock) <==> Pending(s, c, lock))
  }

  lemma ApplyKeepsLocks(s: State, c: nat, m: Move)
    requires c in s.contexts && PendingLock(m.context) == PendingLock(s.contexts[c])
    requires m.socket.locks == s.socket.locks && m.socket.nextLock == s.socket.nextLock
    requires m.socket.closings == s.socket.closings
    ensures SameLocks(s, Apply(s, c, m))
  {}

  predicate Opens(e: Event) {
    e.On? && e.act.OpenHandlerSetsID?
  }

  lemma SocketKeepsLocks(s: State, act: SocketAction)
    requires SocketStep(s, act).Some? && act != ContinueClose && !act.OpenHandlerSetsID?
    ensures SameLocks(s, SocketStep(s, act).value)
  {}

  lemma OtherStepsKeepLocks(s: State, e: Event)
    requires Step(s, e).Some? && e != On(ContinueClose) && !Opens(e) && !(e.By? && LockAction(e.a))
    ensures SameLocks(s, Step(s, e).value)
  {
    match e
    case Arrive(c, data) =>
    case On(act) => SocketKeepsLocks(s, act);
    case By(c, a) =>
      MoveFramed(s, a, c);
      ApplyKeepsLocks(s, c, ContextStep(s, a, c).value);
  }

  lemma SameLocksKeep(s: State, t: State)
    requires LockChannels(s) && SameLocks(s, t)
    ensures LockChannels(t)
  {
    forall lock: LockChannel | Held(t, lock) ensures Held(s, lock) {}
  }

  lemma StepKeepsLockChannels(s: State, e: Event)
    requires LockChannels(s) && Step(s, e).Some?
    ensures LockChannels(Step(s, e).value)
  {
    var t := Step(s, e).value;
    if e == On(ContinueClose) {
      ClosingShape(s);
      FewerLocksKeep(s, t);
    } else if Opens(e) {
      AcquireKeeps(s, t, e.act.id);
    } else if e.By? && LockAction(e.a) {
      LockStepKeepsLockChannels(s, e.a, e.c);
    } else {
      OtherStepsKeepLocks(s, e);
      SameLocksKeep(s, t);
    }
  }

  lemma ClosingShape(s: State)
    requires Step(s, On(ContinueClose)).Some?
    ensures var t := Step(s, On(ContinueClose)).value;
            && t == s.(socket := t.socket)
            && t.socket.nextLock == s.socket.nextLock && t.socket.closings == s.socket.closings
            && t.socket.record == s.socket.record
            && t.socket.stage != NotClosed
            && ((t.socket.locks == s.socket.locks
                && (s.socket.stage in {LocksReset, Cancelled} ==> t.socket.stage == Cancelled))
                || (t.socket.locks == map[] && t.socket.stage == LocksReset))
            && (t.socket.receivers == s.socket.receivers || t.socket.receivers == map[])
  {}

  lemma FewerLocksKeep(s: State, t: State)
    requires LockChannels(s) && t.contexts == s.contexts
    requires t.socket.nextLock == s.socket.nextLock && t.socket.closings == s.socket.closings
    requires t.socket.locks == s.socket.locks || t.socket.locks == map[]
    ensures LockChannels(t)
  {
    assert forall c: nat, lock: LockChannel :: Pending(t, c, lock) <==> Pending(s, c, lock);
    forall lock: LockChannel | Held(t, lock) ensures Held(s, lock) {}
  }

  lemma LockStepKeepsLockChannels(s: State, a: Action, c: nat)
    requires LockChannels(s) && LockAction(a) && c in s.contexts && ContextStep(s, a, c).Some?
    ensures LockChannels(Apply(s, c, ContextStep(s, a, c).value))
  {
    var x, m := s.contexts[c], ContextStep(s, a, c).value;
    var t := Apply(s, c, m);
    LockMoves(s, a, c);
    if Acquires(s.socket, x, m) {
      AcquireKeeps(s, t, Wanted(x).value);
    } else if Deletes(s.socket, x, m) {
      DeleteKeeps(s, t, x.id.value, c, m.context);
    } else if Closes(s.socket, x, m) {
      CloseKeeps(s, t, c, m.context);
    } else {
      SameLocksKeep(s, t);
    }
  }

  lemma AcquireKeeps(s: State, t: State, id: string)
    requires LockChannels(s) && id !in s.socket.locks && t.socket == Acquire(s.socket, id)
    requires forall c: nat, lock: LockChannel :: Pending(t, c, lock) <==> Pending(s, c, lock)
    ensures LockChannels(t)
  {
    forall c': nat, lock: LockChannel | Pending(t, c', lock) ensures Pending(s, c', lock) && !Held(t, lock) {
      assert Pending(s, c', lock);
      if Held(t, lock) {
        var k :| k in t.socket.locks && t.socket.locks[k] == lock;
        assert k != id && s.socket.locks[k] == lock && Held(s, lock);
      }
    }
  }

  lemma DeleteKeeps(s: State, t: State, id: string, c: nat, y: Context)
    requires LockChannels(s) && c in s.contexts && id in s.socket.locks
    requires t.contexts == s.contexts[c := y] && PendingLock(y) == Some(s.socket.locks[id])
    requires PendingLock(s.contexts[c]).None?
    requires t.socket == DeleteLock(s.socket, id)
    ensures LockChannels(t)
  {
    assert Held(s, s.socket.locks[id]);
    forall c': nat, lock: LockChannel | Pending(t, c', lock)
      ensures !Held(t, lock) && (c' != c ==> Pending(s, c', lock)) && (c' == c ==> lock == s.socket.locks[id])
    {
      if c' != c { assert Pending(s, c', lock); }
      if Held(t, lock) {
        var k :| k in t.socket.locks && t.socket.locks[k] == lock;
        assert k != id && s.socket.locks[k] == lock && Held(s, lock);
      }
    }
  }

  lemma CloseKeeps(s: State, t: State, c: nat, y: Context)
    requires LockChannels(s) && c in s.contexts && PendingLock(s.contexts[c]).Some?
    requires t.contexts == s.contexts[c := y] && PendingLock(y).None?
    requires t.socket == CloseLock(s.socket, PendingLock(s.contexts[c]).value)
    ensures LockChannels(t)
  {
    var closing := PendingLock(s.contexts[c]).value;
    assert Pending(s, c, closing);
    forall id | id in s.socket.locks ensures s.socket.locks[id] != closing { assert Held(s, s.socket.locks[id]); }
    forall c': nat, lock: LockChannel | Pending(t, c', lock) ensures c' != c && Pending(s, c', lock) && !Held(t, lock) {
      assert Pending(s, c', lock);
      if Held(t, lock) {
        var k :| k in t.socket.locks && t.socket.locks[k] == lock;
        assert s.socket.locks[k] == lock && Held(s, lock);
      }
    }
  }

  lemma StepKeepsWaiters(s: State, e: Event)
    requires NoStrandedWaiter(s) && Step(s, e).Some?
    ensures NoStrandedWaiter(Step(s, e).value)
  {
    var t := Step(s, e).value;
    forall c: nat | c in t.contexts && t.contexts[c].phase.Waiting? ensures Waked(t, c) {
      if e != By(c, Locking(TryLock)) {
        WaiterStays(s, e, c);
        if e == On(ContinueClose) {
          ClosingShape(s);
          WaiterWithFewerLocks(s, t, c);
        } else if Opens(e) {
          WaiterWithMoreLocks(s, t, c, e.act.id);
        } else if e.By? && LockAction(e.a) {
          WaiterKept(s, e.a, e.c, c);
        } else {
          OtherStepsKeepLocks(s, e);
          WaiterSame(s, t, c);
        }
      }
    }
  }

  lemma WaiterStays(s: State, e: Event, c: nat)
    requires Step(s, e).Some? && c in Step(s, e).value.contexts && Step(s, e).value.contexts[c].phase.Waiting?
    requires e != By(c, Locking(TryLock))
    ensures c in s.contexts && s.contexts[c] == Step(s, e).value.contexts[c]
    ensures s.socket.stage in {LocksReset, Cancelled} ==> Step(s, e).value.socket.stage in {LocksReset, Cancelled}
  {
    if e.By? {
      MoveFramed(s, e.a, e.c);
    } else if e == On(ContinueClose) {
      ClosingShape(s);
    }
  }

  lemma WaiterSame(s: State, t: State, c: nat)
    requires c in s.contexts && c in t.contexts && s.contexts[c] == t.contexts[c] && s.contexts[c].phase.Waiting?
    requires SameLocks(s, t) && Waked(s, c)
    requires s.socket.stage in {LocksReset, Cancelled} ==> t.socket.stage in {LocksReset, Cancelled}
    ensures Waked(t, c)
  {
    var lock := s.contexts[c].phase.lock;
    if c': nat :| Pending(s, c', lock) { assert Pending(t, c', lock); }
  }

  lemma WaiterWithFewerLocks(s: State, t: State, c: nat)
    requires c in s.contexts && s.contexts[c].phase.Waiting? && Waked(s, c)
    requires t.contexts == s.contexts && t.socket.closings == s.socket.closings
    requires t.socket.locks == s.socket.locks || t.socket.stage == LocksReset
    requires s.socket.stage in {LocksReset, Cancelled} ==> t.socket.stage in {LocksReset, Cancelled}
    ensures Waked(t, c)
  {
    var lock := s.contexts[c].phase.lock;
    if c': nat :| Pending(s, c', lock) { assert Pending(t, c', lock); }
  }

  lemma WaiterWithMoreLocks(s: State, t: State, c: nat, id: string)
    requires c in s.contexts && s.contexts[c].phase.Waiting? && Waked(s, c)
    requires t.contexts == s.contexts && id !in s.socket.locks && t.socket == Acquire(s.socket, id)
    ensures Waked(t, c)
  {
    var lock := s.contexts[c].phase.lock;
    if c': nat :| Pending(s, c', lock) { assert Pending(t, c', lock); }
  }

  lemma WaiterKept(s: State, a: Action, actor: nat, c: nat)
    requires LockAction(a) && actor in s.contexts && ContextStep(s, a, actor).Some?
    requires c in s.contexts && s.contexts[c].phase.Waiting? && Waked(s, c)
    requires var t := Apply(s, actor, ContextStep(s, a, actor).value);
             && t.contexts[c] == s.contexts[c]
             && (s.socket.stage in {LocksReset, Cancelled} ==> t.socket.stage in {LocksReset, Cancelled})
    ensures Waked(Apply(s, actor, ContextStep(s, a, actor).value), c)
  {
    var x, m := s.contexts[actor], ContextStep(s, a, actor).value;
    var t := Apply(s, actor, m);
    var lock := s.contexts[c].phase.lock;
    LockMoves(s, a, actor);
    if c': nat :| Pending(s, c', lock) {
      if c' != actor { assert Pending(t, c', lock); }
      else if PendingLock(m.context) == PendingLock(x) { assert Pending(t, actor, lock); }
    }
    if Deletes(s.socket, x, m) {
      assert Pending(t, actor, s.socket.locks[x.id.value]);
    }
  }

  /** A socket that forgot its locks wakes its waiters through its own context: the last step of closing is possible. */
  ghost predicate CanWake(s: State, c: nat)
    requires c in s.contexts && s.contexts[c].phase.Waiting?
  {
    || Step(s, By(c, Locking(Wake))).Some?
    || Step(s, By(c, Locking(GiveUp))).Some?
    || (exists r: nat :: Pending(s, r, s.contexts[c].phase.lock)
           && (Step(s, By(r, Receiving(CloseAndPark))).Some? || Step(s, By(r, Leaving(CloseAndFinalize))).Some?))
    || (s.socket.stage == LocksReset && Step(s, On(ContinueClose)).Some?)
  }

  /** A waiter is stuck only while its ID's own channel is still in the lock map. */
  lemma WaiterIsWokenOrLockHeld(s: State, c: nat)
    requires NoStrandedWaiter(s) && c in s.contexts && s.contexts[c].phase.Waiting?
    ensures CanWake(s, c) || WaitsForLockOf(s, s.contexts[c])
  {
    var lock := s.contexts[c].phase.lock;
    if r: nat :| Pending(s, r, lock) {
      assert Step(s, By(r, Receiving(CloseAndPark))).Some? || Step(s, By(r, Leaving(CloseAndFinalize))).Some?;
    }
  }

  // ---- The close record

  /** The record is written once, the close chain runs on a closed socket, and the connection ends with the record. */
  ghost predicate Closing(s: State) {
    && (s.socket.stage == NotClosed <==> s.socket.record.None?)
    && (s.reader in {Stopped} || s.reader.Ended? ==> s.socket.stage == Cancelled)
    && (s.reader == Stopping ==> s.socket.stage != NotClosed)
    && (s.reader.Ended? ==>
          s.reader.status == s.socket.record.value.status && s.reader.reason == s.socket.record.value.reason)
  }

  lemma SocketKeepsClosing(s: State, act: SocketAction)
    requires Closing(s) && SocketStep(s, act).Some?
    ensures Closing(SocketStep(s, act).value)
    ensures s.socket.record.Some? ==> SocketStep(s, act).value.socket.record == s.socket.record
  {}

  lemma StepKeepsClosing(s: State, e: Event)
    requires Closing(s) && Step(s, e).Some?
    ensures Closing(Step(s, e).value)
    ensures s.socket.record.Some? ==> Step(s, e).value.socket.record == s.socket.record
  {
    match e
    case Arrive(c, data) =>
    case On(act) => SocketKeepsClosing(s, act);
    case By(c, a) => MoveFramed(s, a, c);
  }

  // ---- Runs

  ghost predicate EveryRun(s: State) {
    LockChannels(s) && NoStrandedWaiter(s) && Closing(s)
  }

  lemma {:induction false} RunKeeps(s: State, events: seq<Event>)
    requires EveryRun(s) && Exec(s, events).Some?
    ensures EveryRun(Exec(s, events).value)
    ensures s.socket.record.Some? ==> Exec(s, events).value.socket.record == s.socket.record
    decreases |events|
  {
    if |events| > 0 {
      StepKeepsLockChannels(s, events[0]);
      StepKeepsWaiters(s, events[0]);
      StepKeepsClosing(s, events[0]);
      RunKeeps(Step(s, events[0]).value, events[1..]);
    }
  }

  /** In every run, each lock channel is closed at most once, and never while it is in the map. */
  lemma LockChannelsCloseOnce(events: seq<Event>, lock: LockChannel)
    requires Exec(INITIAL, events).Some?
    ensures var s := Exec(INITIAL, events).value;
            && s.socket.closings[lock] <= 1 && (Held(s, lock) ==> lock !in s.socket.closings)
            && (forall c: nat, d: nat :: Pending(s, c, lock) && Pending(s, d, lock) ==> c == d)
            && (forall c: nat :: Pending(s, c, lock) ==> !Held(s, lock) && lock !in s.socket.closings)
  {
    RunKeeps(INITIAL, events);
  }

  /** In every run, whoever waits waits on the current channel of its ID, or on one that was closed or is about to be by
      some releaser, or the socket is closing; unless the lock is held, the step that wakes it is possible now. */
  lemma NoWaiterIsStranded(events: seq<Event>, c: nat)
    requires Exec(INITIAL, events).Some? && c in Exec(INITIAL, events).value.contexts
    requires Exec(INITIAL, events).value.contexts[c].phase.Waiting?
    ensures var s := Exec(INITIAL, events).value;
            Waked(s, c) && (CanWake(s, c) || Held(s, s.contexts[c].phase.lock))
  {
    RunKeeps(INITIAL, events);
    WaiterIsWokenOrLockHeld(Exec(INITIAL, events).value, c);
  }

  lemma {:induction false} ExecAfter(s: State, first: seq<Event>, more: seq<Event>)
    requires Exec(s, first).Some?
    ensures Exec(s, first + more) == Exec(Exec(s, first).value, more)
    decreases |first|
  {
    if |first| == 0 {
      assert first + more == more;
    } else {
      assert (first + more)[1..] == first[1..] + more;
      ExecAfter(Step(s, first[0]).value, first[1..], more);
    }
  }

  /** The first close wins: once there is a close record it never changes, the close chain starts on a cancelled socket
      only, and the connection ends with the recorded status and reason. */
  lemma FirstCloseWins(first: seq<Event>, more: seq<Event>)
    requires Exec(INITIAL, first).Some? && Exec(INITIAL, first + more).Some?
    ensures var s, t := Exec(INITIAL, first).value, Exec(INITIAL, first + more).value;
            && (s.socket.record.Some? ==> t.socket.record == s.socket.record)
            && (t.reader.Stopped? || t.reader.Ended? ==> t.socket.stage == Cancelled && t.socket.record.Some?)
            && (t.reader.Ended? ==> t.reader == Ended(t.socket.record.value.status, t.socket.record.value.reason))
  {
    RunKeeps(INITIAL, first);
    ExecAfter(INITIAL, first, more);
    RunKeeps(Exec(INITIAL, first).value, more);
  }
}
