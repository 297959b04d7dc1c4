/** What disciplined runs guarantee, and that, as long as no receiver is closed, no other run keeps every lock with its
    one holder. */
module ProtocolSafety {
  import opened Sockets
  import opened Protocol
  import opened ProtocolMoves
  import opened ProtocolLetters
  import opened ProtocolOwnership
  import opened ProtocolOwnershipSteps
  import ProtocolChannels

  /** No receive is cancelled before its message is there. */
  predicate PatientRun(s: State, events: seq<Event>)
    decreases |events|
  {
    |events| > 0 ==>
      && Patient(s, events[0])
      && (Step(s, events[0]).Some? ==> PatientRun(Step(s, events[0]).value, events[1..]))
  }

  /** No receive is cancelled before its message is there, and no receiver is closed. */
  predicate DisciplinedRun(s: State, events: seq<Event>)
    decreases |events|
  {
    |events| > 0 ==>
      && Disciplined(s, events[0])
      && (Step(s, events[0]).Some? ==> DisciplinedRun(Step(s, events[0]).value, events[1..]))
  }

  ghost predicate Safe(s: State) {
    Owned(s) && ProtocolLetters.EveryRun(s) && ProtocolChannels.EveryRun(s)
  }

  lemma InitiallySafe()
    ensures Safe(INITIAL)
  {
    InitialLetters();
    assert forall k: ReceiverChannel :: Box(INITIAL, k);
  }

  lemma StepKeepsSafe(s: State, e: Event)
    requires Safe(s) && Step(s, e).Some? && Disciplined(s, e)
    ensures Safe(Step(s, e).value)
  {
    StepKeepsOwned(s, e);
    StepKeeps(s, e);
    ProtocolChannels.RunKeeps(s, [e]);
    assert Exec(s, [e]) == Step(s, e) by { assert [e][1..] == []; }
  }

  lemma {:induction false} DisciplinedRunIsSafe(s: State, events: seq<Event>)
    requires Safe(s) && DisciplinedRun(s, events) && Exec(s, events).Some?
    ensures Safe(Exec(s, events).value)
    decreases |events|
  {
    if |events| > 0 {
      StepKeepsSafe(s, events[0]);
      DisciplinedRunIsSafe(Step(s, events[0]).value, events[1..]);
    }
  }

  /** Mutual exclusion: the lock map has an ID exactly while one context is past SetMessageID for it and neither
      parked, handed over nor finished, or is parked with a message not yet taken, or its lock was leaked; a leaked
      ID has no holder and there is never a second one. */
  lemma LockHasOneHolder(events: seq<Event>, id: string)
    requires DisciplinedRun(INITIAL, events) && Exec(INITIAL, events).Some?
    ensures var s := Exec(INITIAL, events).value;
            && (id in s.socket.locks <==> id in s.leaked || exists c: nat :: Holder(s, c, id))
            && (forall c: nat :: Holder(s, c, id) ==> id !in s.leaked)
            && (forall c: nat, d: nat :: Holder(s, c, id) && Holder(s, d, id) ==> c == d)
  {
    InitiallySafe();
    DisciplinedRunIsSafe(INITIAL, events);
    var s := Exec(INITIAL, events).value;
    assert id in s.socket.locks ==> id in s.leaked || id in Live(s);
  }

  /** A leaked lock stays: until receivers are closed, its ID is in the lock map and no message gets past
      SetMessageID for it any more. */
  lemma {:induction false} LeakedForGood(s: State, events: seq<Event>, id: string)
    requires Safe(s) && DisciplinedRun(s, events) && Exec(s, events).Some? && id in s.leaked
    ensures var t := Exec(s, events).value; id in t.leaked && id in t.socket.locks && forall c: nat :: !Holder(t, c, id)
    decreases |events|
  {
    if |events| > 0 {
      StepKeepsSafe(s, events[0]);
      LeakStep(s, events[0]);
      LeakedForGood(Step(s, events[0]).value, events[1..], id);
    } else {
      assert id !in Live(s);
    }
  }

  // ---- The discipline is exact

  /** A disciplined run in which no lock is leaked. */
  predicate LeaklessRun(s: State, events: seq<Event>)
    decreases |events|
  {
    |events| > 0 ==>
      && Disciplined(s, events[0]) && !Leaks(s, events[0])
      && (Step(s, events[0]).Some? ==> LeaklessRun(Step(s, events[0]).value, events[1..]))
  }

  /** Every live ID has its one holder, from here to the end of the run. */
  ghost predicate AlwaysExclusive(s: State, events: seq<Event>)
    decreases |events|
  {
    && Exclusive(s)
    && (|events| > 0 && Step(s, events[0]).Some? ==> AlwaysExclusive(Step(s, events[0]).value, events[1..]))
  }

  /** Every ID in the lock map has its one holder, from here to the end of the run. */
  ghost predicate AlwaysOneHolder(s: State, events: seq<Event>)
    decreases |events|
  {
    && OneHolderEach(s)
    && (|events| > 0 && Step(s, events[0]).Some? ==> AlwaysOneHolder(Step(s, events[0]).value, events[1..]))
  }

  /** Close may be called, but does not go on to close receivers. */
  predicate ClosesNothing(events: seq<Event>) {
    forall i :: 0 <= i < |events| ==> events[i] != On(ContinueClose)
  }

  lemma {:induction false} DisciplinedFrom(s: State, events: seq<Event>)
    requires Safe(s) && Exec(s, events).Some? && ClosesNothing(events)
    ensures DisciplinedRun(s, events) <==> AlwaysExclusive(s, events)
    decreases |events|
  {
    if |events| > 0 {
      var e, t := events[0], Step(s, events[0]).value;
      DisciplineIsExact(s, e);
      if Disciplined(s, e) {
        StepKeepsSafe(s, e);
        DisciplinedFrom(t, events[1..]);
      } else {
        assert !Exclusive(t);
      }
    }
  }

  lemma {:induction false} LeaklessFrom(s: State, events: seq<Event>)
    requires Safe(s) && OneHolderEach(s) && Exec(s, events).Some? && ClosesNothing(events)
    ensures LeaklessRun(s, events) <==> AlwaysOneHolder(s, events)
    decreases |events|
  {
    if |events| > 0 {
      var e, t := events[0], Step(s, events[0]).value;
      DisciplineIsExact(s, e);
      if Disciplined(s, e) && !Leaks(s, e) {
        StepKeepsSafe(s, e);
        LeaklessFrom(t, events[1..]);
      } else {
        assert !OneHolderEach(t);
      }
    }
  }

  /** As long as no receiver is closed: every live ID has one holder all along a run exactly if each cancelled
      receive already had its message; and every ID in the lock map has one exactly if, besides, each message sets
      its ID once and itself, that is, no lock is got for a copy of it below a mount, and none by an open handler. */
  lemma ExclusiveExactlyIfDisciplined(events: seq<Event>)
    requires Exec(INITIAL, events).Some? && ClosesNothing(events)
    ensures DisciplinedRun(INITIAL, events) <==> AlwaysExclusive(INITIAL, events)
    ensures LeaklessRun(INITIAL, events) <==> AlwaysOneHolder(INITIAL, events)
  {
    InitiallySafe();
    NothingLeaked(INITIAL);
    DisciplinedFrom(INITIAL, events);
    LeaklessFrom(INITIAL, events);
  }

  // ---- Progress

  /** The step that a holder can take next; leaving its chain is always open to running code. */
  function NextAction(x: Context): Action {
    match x.phase
    case Trying => Locking(TryLock)
    case Waiting(_) => Locking(Wake)
    case Found(_) => Chain(Remove)
    case Sending(_) => Chain(Send)
    case Registering => Receiving(Register)
    case Unlocking => Receiving(Unlock)
    case ClosingThenPark(_) => Receiving(CloseAndPark)
    case Parked => Receiving(Take)
    case Exiting => Leaving(Release)
    case _ => Leaving(Exit)
  }

  /** A holder is blocked only while it waits for another lock below a mount: otherwise the channel it sends on has room
      and is open, the message it is given is there. */
  lemma HolderCanStep(s: State, c: nat, id: string)
    requires Open(s) && Shapes(s) && Aims(s) && AllHeld(s) && Holder(s, c, id)
    ensures var x := s.contexts[c];
            Step(s, By(c, NextAction(x))).Some? <==> !(x.phase.Waiting? && x.phase.lock !in s.socket.closings)
  {
    var x := s.contexts[c];
    assert Shape(c, x) && AimedAt(s, x);
    if HasLetter(s, x) {
      var k := x.channel.value;
      assert Held(s, k) && Buffer(s, k)[0] in Buffer(s, k);
    }
  }

  /** Whoever cannot be woken waits for a leaked lock, or for one whose holder can step or waits below a mount
      itself. */
  lemma WaitsForHolder(s: State, c: nat)
    requires Safe(s) && c in s.contexts && s.contexts[c].phase.Waiting? && !ProtocolChannels.CanWake(s, c)
    ensures Wanted(s.contexts[c]).Some?
    ensures var id := Wanted(s.contexts[c]).value;
            id in s.leaked
            || exists d: nat :: Holder(s, d, id) && (CanStep(s, d) || SetsBelow(s.contexts[d]))
  {
    ProtocolChannels.WaiterIsWokenOrLockHeld(s, c);
    var id := Wanted(s.contexts[c]).value;
    if id !in s.leaked {
      assert id in Live(s);
      var d: nat :| Holder(s, d, id);
      HolderCanStep(s, d, id);
      assert CanStep(s, d) || SetsBelow(s.contexts[d]);
    }
  }

  predicate CanStep(s: State, c: nat) {
    c in s.contexts && Step(s, By(c, NextAction(s.contexts[c]))).Some?
  }

  /** No handler below a mount sets an ID. */
  predicate NothingBelow(events: seq<Event>) {
    forall i :: 0 <= i < |events| ==> !(events[i].By? && events[i].a.Locking? && events[i].a.locking.SetBelow?)
  }

  ghost predicate NoneBelow(s: State) {
    forall c: nat :: c in s.contexts ==> s.contexts[c].below.None?
  }

  lemma {:induction false} RunKeepsNoneBelow(s: State, events: seq<Event>)
    requires NoneBelow(s) && NothingBelow(events) && Exec(s, events).Some?
    ensures NoneBelow(Exec(s, events).value)
    decreases |events|
  {
    if |events| > 0 {
      StepKeepsNoneBelow(s, events[0]);
      RunKeepsNoneBelow(Step(s, events[0]).value, events[1..]);
    }
  }

  lemma StepKeepsNoneBelow(s: State, e: Event)
    requires NoneBelow(s) && Step(s, e).Some? && !(e.By? && e.a.Locking? && e.a.locking.SetBelow?)
    ensures NoneBelow(Step(s, e).value)
  {
    match e
    case Arrive(_, _) =>
    case On(act) => SocketKeepsContexts(s, act);
    case By(c, a) =>
      MoveFramed(s, a, c);
      if a.Locking? { LockingNoneBelow(s, a.locking, c); }
  }

  lemma LockingNoneBelow(s: State, a: LockingAction, c: nat)
    requires c in s.contexts && LockingStep(s, a, c).Some? && !a.SetBelow? && s.contexts[c].below.None?
    ensures LockingStep(s, a, c).value.context.below.None?
  {}

  /** No deadlock: in every disciplined run in which no handler below a mount sets an ID, a waiter can be woken now, or
      its lock was leaked, or another context holds it and can step. */
  lemma NoDeadlock(events: seq<Event>, c: nat)
    requires DisciplinedRun(INITIAL, events) && NothingBelow(events) && Exec(INITIAL, events).Some?
    requires var s := Exec(INITIAL, events).value; c in s.contexts && s.contexts[c].phase.Waiting?
    ensures var s := Exec(INITIAL, events).value;
            var id := s.contexts[c].id;
            || ProtocolChannels.CanWake(s, c)
            || (id.Some? && id.value in s.leaked)
            || (id.Some? && exists d: nat :: d != c && Holder(s, d, id.value) && CanStep(s, d))
  {
    var s := Exec(INITIAL, events).value;
    InitiallySafe();
    DisciplinedRunIsSafe(INITIAL, events);
    RunKeepsNoneBelow(INITIAL, events);
    if !ProtocolChannels.CanWake(s, c) { WaitsForHolder(s, c); }
  }

  // ---- Delivery, closing included

  lemma NotClosedBefore(s: State, e: Event)
    requires Step(s, e).Some? && Step(s, e).value.socket.stage.NotClosed?
    ensures s.socket.stage.NotClosed? && e != On(ContinueClose)
  {
    match e
    case Arrive(_, _) =>
    case On(act) => SocketNotClosedBefore(s, act);
    case By(c, a) => MoveFramed(s, a, c);
  }

  lemma SocketNotClosedBefore(s: State, act: SocketAction)
    requires SocketStep(s, act).Some? && SocketStep(s, act).value.socket.stage.NotClosed?
    ensures s.socket.stage.NotClosed? && !act.ContinueClose?
  {}

  lemma {:induction false} PatientIsDisciplined(s: State, events: seq<Event>)
    requires PatientRun(s, events) && Exec(s, events).Some? && Exec(s, events).value.socket.stage.NotClosed?
    ensures DisciplinedRun(s, events) && s.socket.stage.NotClosed?
    decreases |events|
  {
    if |events| > 0 {
      PatientIsDisciplined(Step(s, events[0]).value, events[1..]);
      NotClosedBefore(s, events[0]);
    }
  }

  /** Handing over never blocks, closing included: in every run without a receive cancelled too early, a context
      about to send can send, or drop its message, or panics on a closed channel, or the socket can go on closing. */
  lemma DeliveryNeverBlocks(events: seq<Event>, c: nat)
    requires PatientRun(INITIAL, events) && Exec(INITIAL, events).Some?
    requires var s := Exec(INITIAL, events).value; c in s.contexts && s.contexts[c].phase.Sending?
    ensures var s := Exec(INITIAL, events).value;
            || Step(s, By(c, Chain(Send))).Some? || Step(s, By(c, Chain(Drop))).Some?
            || Step(s, By(c, Chain(SendOnClosed))).Some? || Step(s, On(ContinueClose)).Some?
  {
    var s := Exec(INITIAL, events).value;
    if s.socket.stage.NotClosed? {
      PatientIsDisciplined(INITIAL, events);
      InitiallySafe();
      DisciplinedRunIsSafe(INITIAL, events);
      SenderCanSend(s, c);
    }
  }

  lemma SenderCanSend(s: State, c: nat)
    requires Open(s) && Aims(s) && c in s.contexts && s.contexts[c].phase.Sending?
    ensures Step(s, By(c, Chain(Send))).Some?
  {
    assert AimedAt(s, s.contexts[c]);
  }

  // ---- Messages

  lemma NeverDropped(s: State, c: nat, at: Location)
    requires Owned(s) && LocatedAt(s, c, at)
    ensures !at.Dropped?
  {}

  /** Whatever was sent is waited for or taken. */
  lemma SentIsAwaitedOrTaken(s: State, d: nat, k: ReceiverChannel)
    requires OneSender(s) && Letters(s) && Attended(s) && SentOn(s, d, k)
    ensures (Buffer(s, k) == [d] && WaitsOn(s, k)) || TakenFrom(s, k, d)
  {
    SentIsInOrTaken(s);
    assert Held(s, k);
    if k in s.taken { assert SentOn(s, s.taken[k], k); }
  }

  /** In every disciplined run no message is dropped and no two are sent on the same channel; without cancelled receives
      none is drained either, and one that is in a channel is waited for. */
  lemma DisciplinedMessagesArrive(events: seq<Event>, c: nat, at: Location)
    requires DisciplinedRun(INITIAL, events) && Exec(INITIAL, events).Some?
    requires LocatedAt(Exec(INITIAL, events).value, c, at)
    ensures var s := Exec(INITIAL, events).value;
            && !at.Dropped? && (forall d: nat, k :: SentOn(s, c, k) && SentOn(s, d, k) ==> c == d)
            && (Uncancelled(events) ==> !at.Drained? && (at.Buffered? ==> WaitsOn(s, at.channel)))
  {
    var s := Exec(INITIAL, events).value;
    InitiallySafe();
    DisciplinedRunIsSafe(INITIAL, events);
    NeverDropped(s, c, at);
    if Uncancelled(events) && (at.Buffered? || at.Drained?) {
      RunKeepsLetters(INITIAL, events);
      LocatedWhereSent(s, c, at);
      SentIsAwaitedOrTaken(s, c, at.channel);
      assert Held(s, at.channel);
    }
  }

  /** In every disciplined run without cancelled receives, each channel a handler registered has had its one message
      taken, or is the one it waits on: what the handler obtained is all that was sent to it, but for a last message
      on its way. */
  lemma DisciplinedStreamsMissNothing(events: seq<Event>, c: nat)
    requires DisciplinedRun(INITIAL, events) && Uncancelled(events)
    requires Exec(INITIAL, events).Some? && c in Exec(INITIAL, events).value.contexts
    ensures var s := Exec(INITIAL, events).value;
            && (forall k | k in s.registered && k.owner == c :: k in s.taken || WaitsOn(s, k))
            && (forall d: nat, k :: SentOn(s, d, k) && k.owner == c ==>
                  TakenFrom(s, k, d) || (Buffer(s, k) == [d] && WaitsOn(s, k)))
  {
    var s := Exec(INITIAL, events).value;
    InitiallySafe();
    DisciplinedRunIsSafe(INITIAL, events);
    RunKeepsLetters(INITIAL, events);
    forall d: nat, k | SentOn(s, d, k) && k.owner == c
      ensures TakenFrom(s, k, d) || (Buffer(s, k) == [d] && WaitsOn(s, k))
    {
      SentIsAwaitedOrTaken(s, d, k);
    }
  }
}
