/** What each operation of a connection comes to when nothing comes in between: from every state in which it is
    called, its steps are possible in turn and leave exactly this. */
module ProtocolWays {
  import opened Wrappers
  import opened Sockets
  import opened Protocol

  /** The next step of a way. */
  lemma Onwards(s: State, e: Event, rest: seq<Event>, t: State)
    requires Step(s, e) == Some(t)
    ensures Exec(s, [e] + rest) == Exec(t, rest)
  {
    assert ([e] + rest)[1..] == rest;
  }

  lemma OneStep(s: State, e: Event, t: State)
    requires Step(s, e) == Some(t)
    ensures Exec(s, [e]) == Some(t)
  {
    Onwards(s, e, [], t);
    assert [e] + [] == [e];
  }

  lemma TwoSteps(s: State, e: Event, t: State, f: Event, u: State)
    requires Step(s, e) == Some(t) && Step(t, f) == Some(u)
    ensures Exec(s, [e, f]) == Some(u)
  {
    OneStep(t, f, u);
    Onwards(s, e, [f], t);
    assert [e] + [f] == [e, f];
  }

  lemma FourSteps(s: State, e: Event, t: State, f: Event, u: State, g: Event, v: State, h: Event, w: State)
    requires Step(s, e) == Some(t) && Step(t, f) == Some(u) && Step(u, g) == Some(v) && Step(v, h) == Some(w)
    ensures Exec(s, [e, f, g, h]) == Some(w)
  {
    TwoSteps(u, g, v, h, w);
    Onwards(t, f, [g, h], u);
    Onwards(s, e, [f, g, h], t);
    assert [e] + [f, g, h] == [e, f, g, h] && [f] + [g, h] == [f, g, h];
  }

  lemma TwoAndTwo(s: State, e: Event, f: Event, t: State, g: Event, h: Event)
    requires Exec(s, [e, f]) == Some(t)
    ensures Exec(s, [e, f, g, h]) == Exec(t, [g, h])
  {
    assert [e, f][1..] == [f] && [f][1..] == [];
    var u := Step(s, e).value;
    assert Exec(Step(u, f).value, []) == Step(u, f);
    Onwards(u, f, [g, h], t);
    Onwards(s, e, [f, g, h], u);
    assert [e] + [f, g, h] == [e, f, g, h] && [f] + [g, h] == [f, g, h];
  }

  /** A state in which one context is another. */
  function With(s: State, c: nat, x: Context): State {
    s.(contexts := s.contexts[c := x])
  }

  predicate Runs(s: State, c: nat) {
    c in s.contexts && s.contexts[c].phase == Running
  }

  // ---- SetMessageID

  /** The IDs leaked by giving a message another ID. */
  function Renamed(s: State, x: Context): set<string> {
    if x.id.Some? then s.leaked + {x.id.value} else s.leaked
  }

  lemma AsksForLock(s: State, c: nat, id: string)
    requires Runs(s, c) && s.contexts[c].hasMessage
    ensures var x := s.contexts[c];
            && Step(s, By(c, Locking(SetID(id))))
               == Some(With(s, c, x.(id := Some(id), phase := Trying)).(leaked := Renamed(s, x)))
            && Step(s, By(c, Locking(SetBelow(id)))) == Some(With(s, c, x.(below := Some(id), phase := Trying)))
  {}

  /** The lock is taken exactly if the ID is not in the map; else its channel is waited on. */
  lemma TriesLock(s: State, c: nat, id: string)
    requires c in s.contexts && s.contexts[c].phase == Trying
    requires var x := s.contexts[c]; if x.below.Some? then x.below == Some(id) else x.id == Some(id)
    ensures var x, k := s.contexts[c], s.socket;
            Step(s, By(c, Locking(TryLock)))
            == Some(if id in k.locks then With(s, c, x.(phase := Waiting(k.locks[id])))
                    else With(s, c, x.(below := None, phase := Running))
                         .(socket := k.(locks := k.locks[id := k.nextLock], nextLock := k.nextLock + 1),
                           leaked := if x.below.Some? then s.leaked + {id} else s.leaked))
  {}

  /** On a free ID it takes the lock: the ID is mapped to a channel never used before. */
  lemma FreeLockIsTaken(s: State, c: nat, id: string)
    requires Runs(s, c) && s.contexts[c].hasMessage && s.contexts[c].below.None? && id !in s.socket.locks
    ensures var x, k := s.contexts[c], s.socket;
            Exec(s, [By(c, Locking(SetID(id))), By(c, Locking(TryLock))])
            == Some(With(s, c, x.(id := Some(id)))
                    .(socket := k.(locks := k.locks[id := k.nextLock], nextLock := k.nextLock + 1),
                      leaked := Renamed(s, x)))
  {
    var x := s.contexts[c];
    var trying := x.(id := Some(id), phase := Trying);
    var t := With(s, c, trying).(leaked := Renamed(s, x));
    AsksForLock(s, c, id);
    TriesLock(t, c, id);
    assert s.contexts[c := trying][c := x.(id := Some(id))] == s.contexts[c := x.(id := Some(id))];
    TwoSteps(s, By(c, Locking(SetID(id))), t, By(c, Locking(TryLock)), Step(t, By(c, Locking(TryLock))).value);
  }

  /** On a taken one it waits on the holder's channel, and changes nothing else. */
  lemma TakenLockIsAwaited(s: State, c: nat, id: string)
    requires Runs(s, c) && s.contexts[c].hasMessage && s.contexts[c].below.None? && id in s.socket.locks
    ensures var x := s.contexts[c];
            Exec(s, [By(c, Locking(SetID(id))), By(c, Locking(TryLock))])
            == Some(With(s, c, x.(id := Some(id), phase := Waiting(s.socket.locks[id]))).(leaked := Renamed(s, x)))
  {
    var x := s.contexts[c];
    var trying, waiting := x.(id := Some(id), phase := Trying),
        x.(id := Some(id), phase := Waiting(s.socket.locks[id]));
    var t := With(s, c, trying).(leaked := Renamed(s, x));
    AsksForLock(s, c, id);
    TriesLock(t, c, id);
    assert s.contexts[c := trying][c := waiting] == s.contexts[c := waiting];
    TwoSteps(s, By(c, Locking(SetID(id))), t, By(c, Locking(TryLock)), Step(t, By(c, Locking(TryLock))).value);
  }

  /** Below a mount it takes the lock as well, but the message keeps the ID it has. */
  lemma LockIsTakenBelow(s: State, c: nat, id: string)
    requires Runs(s, c) && s.contexts[c].hasMessage && s.contexts[c].below.None? && id !in s.socket.locks
    ensures var k := s.socket;
            Exec(s, [By(c, Locking(SetBelow(id))), By(c, Locking(TryLock))])
            == Some(s.(socket := k.(locks := k.locks[id := k.nextLock], nextLock := k.nextLock + 1),
                       leaked := s.leaked + {id}))
  {
    var x := s.contexts[c];
    var t := With(s, c, x.(below := Some(id), phase := Trying));
    AsksForLock(s, c, id);
    TriesLock(t, c, id);
    assert t.contexts[c := x] == s.contexts;
    TwoSteps(s, By(c, Locking(SetBelow(id))), t, By(c, Locking(TryLock)), Step(t, By(c, Locking(TryLock))).value);
  }

  /** A waiter is woken exactly when the channel it waits on is closed, and tries again. */
  lemma WaiterTriesAgain(s: State, c: nat, lock: LockChannel)
    requires c in s.contexts && s.contexts[c].phase == Waiting(lock)
    ensures Step(s, By(c, Locking(Wake)))
            == if lock in s.socket.closings then Some(With(s, c, s.contexts[c].(phase := Trying))) else None
  {}

  /** It gives up exactly when the socket is done, and goes on without the lock. */
  lemma WaiterGivesUp(s: State, c: nat, lock: LockChannel)
    requires c in s.contexts && s.contexts[c].phase == Waiting(lock)
    ensures Step(s, By(c, Locking(GiveUp)))
            == if s.socket.stage == Cancelled then Some(With(s, c, s.contexts[c].(below := None, phase := Running)))
                else None
  {}

  // ---- Receive

  /** The trigger is the first message obtained, unless it is empty. */
  lemma TriggerIsObtained(s: State, c: nat)
    requires Runs(s, c) && s.contexts[c].hasMessage && !s.contexts[c].firstReceiveDone
    ensures var x := s.contexts[c];
            Step(s, By(c, Receiving(TakeTrigger)))
            == if x.data == "" then None
               else Some(With(s, c, x.(firstReceiveDone := true, usedTrigger := true,
                   obtained := x.obtained + [x.data])))
  {}

  /** A request skips it. */
  lemma RequestSkipsTrigger(s: State, c: nat)
    requires Runs(s, c) && s.contexts[c].hasMessage
    ensures Step(s, By(c, Receiving(SkipTrigger))) == Some(With(s, c, s.contexts[c].(firstReceiveDone := true)))
  {}

  /** A further receive asks for a registration if the message has an ID; without one it fails, and the handler goes
      on. */
  lemma AsksForMore(s: State, c: nat)
    requires Runs(s, c) && s.contexts[c].hasMessage && (s.contexts[c].firstReceiveDone || s.contexts[c].data == "")
    ensures var x := s.contexts[c];
            Step(s, By(c, Receiving(Receive)))
            == Some(With(s, c, x.(firstReceiveDone := true, usedTrigger := x.usedTrigger || !x.firstReceiveDone,
                                  phase := if x.id.Some? then Registering else Running)))
  {}

  /** The context that waits, with the channel it made. */
  function Awaiter(x: Context, c: nat): Context {
    x.(channel := Some(ReceiverChannel(c, x.generation)), generation := x.generation + 1, firstReceiveDone := true,
       usedTrigger := x.usedTrigger || !x.firstReceiveDone, phase := Parked)
  }

  /** A further receive registers a new channel under the ID, at the handler that runs, then releases the lock, and
      parks. */
  lemma ReceiverParks(s: State, c: nat, id: string, p: Place)
    requires Runs(s, c) && s.contexts[c].hasMessage && (s.contexts[c].firstReceiveDone || s.contexts[c].data == "")
    requires s.contexts[c].id == Some(id) && s.contexts[c].cursor == At(p.node, p.index + 1) && id in s.socket.locks
    ensures var x, k := s.contexts[c], s.socket;
            var channel := ReceiverChannel(c, x.generation);
            Exec(s, [By(c, Receiving(Receive)), By(c, Receiving(Register)), By(c, Receiving(Unlock)),
                     By(c, Receiving(CloseAndPark))])
            == Some(With(s, c, Awaiter(x, c))
                    .(registered := s.registered[channel := (id, Some(p))],
                      socket := k.(receivers := k.receivers[id := ReceiverEntry(Some(p), channel)],
                                   locks := k.locks - {id}, closings := k.closings + multiset{k.locks[id]})))
  {
    var x, k := s.contexts[c], s.socket;
    var channel, lock := ReceiverChannel(c, x.generation), k.locks[id];
    var asking := x.(firstReceiveDone := true, usedTrigger := x.usedTrigger
        || !x.firstReceiveDone, phase := Registering);
    var listed := asking.(channel := Some(channel), generation := x.generation + 1, phase := Unlocking);
    var entered := k.(receivers := k.receivers[id := ReceiverEntry(Some(p), channel)]);
    var registered := s.registered[channel := (id, Some(p))];
    AsksForMore(s, c);
    RegisteringTo(With(s, c, asking), c, id, p);
    assert s.contexts[c := asking][c := listed] == s.contexts[c := listed];
    var t := With(s, c, listed).(registered := registered, socket := entered);
    TwoSteps(s, By(c, Receiving(Receive)), With(s, c, asking), By(c, Receiving(Register)), t);
    UnlockingParks(t, c, id);
    assert s.contexts[c := listed][c := Awaiter(x, c)] == s.contexts[c := Awaiter(x, c)];
    TwoAndTwo(s, By(c, Receiving(Receive)), By(c, Receiving(Register)), t,
              By(c, Receiving(Unlock)), By(c, Receiving(CloseAndPark)));
  }

  /** Registered, the lock is released and its channel closed. */
  lemma UnlockingParks(s: State, c: nat, id: string)
    requires c in s.contexts && s.contexts[c].phase == Unlocking && s.contexts[c].id == Some(id) && id in s.socket.locks
    ensures var x, k := s.contexts[c], s.socket;
            Exec(s, [By(c, Receiving(Unlock)), By(c, Receiving(CloseAndPark))])
            == Some(With(s, c, x.(phase := Parked))
                    .(socket := k.(locks := k.locks - {id}, closings := k.closings + multiset{k.locks[id]})))
  {
    var x, k := s.contexts[c], s.socket;
    var t := With(s, c, x.(phase := ClosingThenPark(k.locks[id]))).(socket := k.(locks := k.locks - {id}));
    UnlockingFrom(s, c, id);
    ClosingLock(t, c, k.locks[id]);
    assert s.contexts[c := x.(phase := ClosingThenPark(k.locks[id]))][c := x.(phase := Parked)]
        == s.contexts[c := x.(phase := Parked)];
    TwoSteps(s, By(c, Receiving(Unlock)), t, By(c, Receiving(CloseAndPark)),
        Step(t, By(c, Receiving(CloseAndPark))).value);
  }

  /** The channel of a released lock is closed by whoever deleted it. */
  lemma ClosingLock(s: State, c: nat, lock: LockChannel)
    requires c in s.contexts
    ensures var x, closed := s.contexts[c], s.(socket := s.socket.(closings := s.socket.closings + multiset{lock}));
            && (x.phase == ClosingThenPark(lock) ==>
                  Step(s, By(c, Receiving(CloseAndPark))) == Some(With(closed, c, x.(phase := Parked))))
            && (x.phase == ClosingThenFinalize(lock) ==>
                  Step(s, By(c, Leaving(CloseAndFinalize))) == Some(With(closed, c, x.(phase := Finalizing))))
  {}

  lemma RegisteringTo(s: State, c: nat, id: string, p: Place)
    requires c in s.contexts && s.contexts[c].phase == Registering && s.contexts[c].id == Some(id)
    requires s.contexts[c].cursor == At(p.node, p.index + 1)
    ensures var x, k := s.contexts[c], s.socket;
            var channel := ReceiverChannel(c, x.generation);
            Step(s, By(c, Receiving(Register)))
            == Some(With(s, c, x.(channel := Some(channel), generation := x.generation + 1, phase := Unlocking))
                    .(registered := s.registered[channel := (id, Some(p))],
                      socket := k.(receivers := k.receivers[id := ReceiverEntry(Some(p), channel)])))
  {}

  /** A lock that is gone already is not released. */
  lemma UnlockingFrom(s: State, c: nat, id: string)
    requires c in s.contexts && s.contexts[c].phase == Unlocking && s.contexts[c].id == Some(id)
    ensures var x, k := s.contexts[c], s.socket;
            Step(s, By(c, Receiving(Unlock)))
            == Some(if id in k.locks
                    then With(s, c, x.(phase := ClosingThenPark(k.locks[id]))).(socket := k.(locks := k.locks - {id}))
                    else With(s, c, x.(phase := Parked)))
  {}

  /** A parked handler with nothing in its channel registers again exactly when the channel was closed. */
  lemma ClosedReceiverRegistersAgain(s: State, c: nat, channel: ReceiverChannel)
    requires c in s.contexts && s.contexts[c].phase == Parked && s.contexts[c].channel == Some(channel)
    requires channel in s.buffers ==> s.buffers[channel] == []
    ensures Step(s, By(c, Receiving(TakeNil)))
            == if channel in s.socket.closedReceivers then Some(With(s, c, s.contexts[c].(phase := Registering)))
                else None
    ensures Step(s, By(c, Receiving(Take))) == None
  {}

  /** A parked handler takes the message that is in its channel. */
  lemma TakingFrom(s: State, r: nat, m: nat, k: ReceiverChannel)
    requires r in s.contexts && s.contexts[r].phase == Parked && s.contexts[r].channel == Some(k)
    requires k in s.buffers && s.buffers[k] == [m] && m in s.contexts
    ensures var y, data := s.contexts[r], s.contexts[m].data;
            var z := if data == "" then y.(phase := Registering)
                     else y.(obtained := y.obtained + [data], phase := Running);
            Step(s, By(r, Receiving(Take)))
            == Some(s.(contexts := s.contexts[r := z], buffers := s.buffers[k := []], taken := s.taken[k := m]))
  {
    assert [m][1..] == [];
  }

  /** It can be cancelled at any time, and goes on. */
  lemma ReceiveIsCancelled(s: State, c: nat)
    requires c in s.contexts && s.contexts[c].phase == Parked
    ensures Step(s, By(c, Receiving(CancelReceive))) == Some(With(s, c, s.contexts[c].(phase := Running)))
  {}

  // ---- Next

  /** At the end of the chain the receiver under the message's ID goes, if the context may have been meant for it. */
  lemma EndDropsReceiver(s: State, c: nat)
    requires Runs(s, c) && s.contexts[c].hasMessage
    ensures var x, k := s.contexts[c], s.socket;
            Step(s, By(c, Chain(ReachEnd)))
            == Some(With(s, c, x.(cursor := Past))
                    .(socket := if x.id.Some? && x.channel.None? then k.(receivers := k.receivers - {x.id.value})
                        else k))
  {
    assert s.socket.(receivers := s.socket.receivers) == s.socket;
  }

  /** What becomes of a message about to be sent: it is sent exactly if the channel is open and has room, dropped
      exactly if the socket is done; on a closed channel the send panics, and the message stays. */
  lemma SendingEnds(s: State, c: nat, channel: ReceiverChannel)
    requires c in s.contexts && s.contexts[c].phase == Sending(channel)
    ensures var x := s.contexts[c];
            && Step(s, By(c, Chain(Send)))
               == (if channel !in s.socket.closedReceivers && (channel in s.buffers ==> s.buffers[channel] == [])
                   then Some(With(s, c, x.(hasMessage := false, sentOn := Some(channel), phase := Running))
                             .(buffers := s.buffers[channel := [c]]))
                   else None)
            && Step(s, By(c, Chain(Drop)))
               == (if s.socket.stage == Cancelled then Some(With(s, c, x.(hasMessage := false, phase := Running)))
                   else None)
            && Step(s, By(c, Chain(SendOnClosed)))
               == (if channel in s.socket.closedReceivers then Some(With(s, c, x.(cursor := Past, phase := Running)))
                   else None)
  {}

  /** A handler that returns leaves the list. */
  lemma ReturningLeaves(s: State, c: nat)
    requires Runs(s, c)
    ensures Step(s, By(c, Chain(Unwind))) == Some(With(s, c, s.contexts[c].(cursor := Past)))
  {}

  // ---- The end of the goroutine

  /** What the end of a context leaves of its receiver: nothing registered under its ID, nothing in its channel. */
  function Drained(s: State, x: Context): State {
    if x.channel.None? then s
    else
      s.(buffers := s.buffers[x.channel.value := []],
         socket := if x.hasMessage && x.id.Some? then s.socket.(receivers := s.socket.receivers - {x.id.value})
             else s.socket)
  }

  /** A message that stayed releases the lock of its ID, and wakes those who wait for it; then the receiver goes. */
  lemma GoroutineReleases(s: State, c: nat, id: string)
    requires Runs(s, c) && s.contexts[c].hasMessage && s.contexts[c].id == Some(id) && id in s.socket.locks
    ensures var x, k := s.contexts[c], s.socket;
            var released := s.(socket := k.(locks := k.locks - {id}, closings := k.closings + multiset{k.locks[id]}));
            Exec(s, [By(c, Leaving(Exit)), By(c, Leaving(Release)), By(c, Leaving(CloseAndFinalize)),
                     By(c, Leaving(Finalize))])
            == Some(With(Drained(released, x), c, x.(cursor := Past, phase := Done)))
  {
    var x, k, lock := s.contexts[c], s.socket, s.socket.locks[id];
    var closing, done := x.(cursor := Past, phase := ClosingThenFinalize(lock)), x.(cursor := Past, phase := Done);
    var t := With(s, c, closing).(socket := k.(locks := k.locks - {id}));
    ReleaseBegins(s, c, id);
    ClosingEnds(t, c, lock);
    EndsAs(s, c, t, k.(locks := k.locks - {id}, closings := k.closings + multiset{lock}), closing, done);
    TwoAndTwo(s, By(c, Leaving(Exit)), By(c, Leaving(Release)), t,
              By(c, Leaving(CloseAndFinalize)), By(c, Leaving(Finalize)));
  }

  lemma EndsAs(s: State, c: nat, t: State, k: Socket, closing: Context, done: Context)
    requires c in s.contexts && closing == s.contexts[c].(cursor := Past, phase := closing.phase)
    requires t == With(s, c, closing).(socket := t.socket)
    ensures With(Drained(t.(socket := k), closing), c, done) == With(Drained(s.(socket := k), s.contexts[c]), c, done)
  {
    DrainedOf(s.(socket := k), s.contexts[c], closing);
    assert t.contexts[c := done] == s.contexts[c := done];
  }

  lemma ReleaseBegins(s: State, c: nat, id: string)
    requires Runs(s, c) && s.contexts[c].hasMessage && s.contexts[c].id == Some(id) && id in s.socket.locks
    ensures var x, k := s.contexts[c], s.socket;
            Exec(s, [By(c, Leaving(Exit)), By(c, Leaving(Release))])
            == Some(With(s, c, x.(cursor := Past, phase := ClosingThenFinalize(k.locks[id])))
                    .(socket := k.(locks := k.locks - {id})))
  {
    var exiting := s.contexts[c].(cursor := Past, phase := Phase.Exiting);
    var closing := exiting.(phase := ClosingThenFinalize(s.socket.locks[id]));
    Exiting(s, c);
    Releasing(With(s, c, exiting), c);
    assert s.contexts[c := exiting][c := closing] == s.contexts[c := closing];
    TwoSteps(s, By(c, Leaving(Exit)), With(s, c, exiting), By(c, Leaving(Release)),
             Step(With(s, c, exiting), By(c, Leaving(Release))).value);
  }

  lemma Exiting(s: State, c: nat)
    requires Runs(s, c)
    ensures Step(s, By(c, Leaving(Exit))) == Some(With(s, c, s.contexts[c].(cursor := Past, phase := Phase.Exiting)))
  {}

  lemma DrainedAgain(s: State, c: nat, x: Context)
    ensures var y := x.(phase := Finalizing);
            With(Drained(With(s, c, y), y), c, x.(phase := Done)) == With(Drained(s, x), c, x.(phase := Done))
  {
    assert s.contexts[c := x.(phase := Finalizing)][c := x.(phase := Done)] == s.contexts[c := x.(phase := Done)];
  }

  /** Neither the phase nor the cursor matter for what is drained. */
  lemma DrainedOf(s: State, x: Context, y: Context)
    requires y == x.(phase := y.phase, cursor := y.cursor)
    ensures Drained(s, y) == Drained(s, x)
  {}

  lemma ClosingEnds(s: State, c: nat, lock: LockChannel)
    requires c in s.contexts && s.contexts[c].phase == ClosingThenFinalize(lock)
    ensures var x, closed := s.contexts[c], s.(socket := s.socket.(closings := s.socket.closings + multiset{lock}));
            Exec(s, [By(c, Leaving(CloseAndFinalize)), By(c, Leaving(Finalize))])
            == Some(With(Drained(closed, x), c, x.(phase := Done)))
  {
    var x, closed := s.contexts[c], s.(socket := s.socket.(closings := s.socket.closings + multiset{lock}));
    var t := With(closed, c, x.(phase := Finalizing));
    ClosingLock(s, c, lock);
    FinalizingDrains(t, c);
    DrainedAgain(closed, c, x);
    TwoSteps(s, By(c, Leaving(CloseAndFinalize)), t, By(c, Leaving(Finalize)), Step(t, By(c, Leaving(Finalize))).value);
  }

  /** Only a message that stayed, has an ID and finds its lock releases it. */
  lemma Releasing(s: State, c: nat)
    requires c in s.contexts && s.contexts[c].phase == Phase.Exiting
    ensures var x, k := s.contexts[c], s.socket;
            Step(s, By(c, Leaving(Release)))
            == Some(if x.hasMessage && x.id.Some? && x.id.value in k.locks
                    then With(s, c, x.(phase := ClosingThenFinalize(k.locks[x.id.value])))
                         .(socket := k.(locks := k.locks - {x.id.value}))
                    else With(s, c, x.(phase := Finalizing)))
  {}

  lemma FinalizingDrains(s: State, c: nat)
    requires c in s.contexts && s.contexts[c].phase == Finalizing
    ensures Step(s, By(c, Leaving(Finalize)))
            == Some(With(Drained(s, s.contexts[c]), c, s.contexts[c].(phase := Done)))
  {}

  // ---- The socket

  /** The first call of Close: its record is kept, every registered channel is closed, no receiver and no lock is
      left. */
  lemma CloseClosesAll(s: State, record: CloseRecord)
    requires s.socket.stage == NotClosed
    ensures var k := s.socket;
            Exec(s, [On(BeginClose(record)), On(ContinueClose), On(ContinueClose), On(ContinueClose)])
            == Some(s.(socket := k.(stage := Cancelled, record := Some(record), receivers := map[], locks := map[],
                                    closedReceivers := k.closedReceivers + set id | id in k.receivers ::
                                        k.receivers[id].channel)))
  {
    var k := s.socket;
    var t1 := s.(socket := k.(stage := Recorded, record := Some(record)));
    var closed := k.closedReceivers + set id | id in k.receivers :: k.receivers[id].channel;
    var t2 := s.(socket := t1.socket.(stage := ReceiversClosed, receivers := map[], closedReceivers := closed));
    var t3 := s.(socket := t2.socket.(stage := LocksReset, locks := map[]));
    var t4 := s.(socket := t3.socket.(stage := Cancelled));
    assert Step(s, On(BeginClose(record))) == Some(t1);
    assert Step(t1, On(ContinueClose)) == Some(t2);
    assert Step(t2, On(ContinueClose)) == Some(t3) && Step(t3, On(ContinueClose)) == Some(t4);
    FourSteps(s, On(BeginClose(record)), t1, On(ContinueClose), t2, On(ContinueClose), t3, On(ContinueClose), t4);
  }

  /** Any later call changes nothing. */
  lemma LaterCloseChangesNothing(s: State, record: CloseRecord)
    requires s.socket.stage != NotClosed
    ensures Step(s, On(BeginClose(record))) == Some(s)
  {}

  /** A read that fails ends reading, and closes the socket if nobody has. */
  lemma FailedReadCloses(s: State, record: CloseRecord)
    ensures Step(s, On(ReadFails(record)))
            == if s.reader != Reading then None
               else Some(s.(reader := Stopping,
                            socket := if s.socket.stage == NotClosed
                                      then s.socket.(stage := Recorded, record := Some(record)) else s.socket))
  {
    assert s.(socket := s.socket) == s;
  }

  /** Once the socket is cancelled the reader runs the close chain and ends the connection with the record. */
  lemma ReaderEndsConnection(s: State, record: CloseRecord)
    requires s.reader == Stopping && s.socket.record == Some(record)
    ensures Exec(s, [On(StopReading), On(CloseChainDone)])
            == if s.socket.stage == Cancelled then Some(s.(reader := Ended(record.status, record.reason))) else None
  {
    if s.socket.stage == Cancelled {
      var t := s.(reader := Stopped);
      TwoSteps(s, On(StopReading), t, On(CloseChainDone), s.(reader := Ended(record.status, record.reason)));
    }
  }

  /** Messages arrive while the reader reads, each with a context of its own. */
  lemma MessagesArrive(s: State, c: nat, data: string)
    ensures Step(s, Arrive(c, data)).Some? <==> s.reader == Reading && c !in s.contexts
    ensures Step(s, Arrive(c, data)).Some? ==>
              var t := Step(s, Arrive(c, data)).value;
              && c in t.contexts && t == With(s, c, t.contexts[c])
              && var x := t.contexts[c];
                 x == Context(data, None, None, true, At(0, 0), [], None, 0, false, false, [], None, Running)
  {}

  /** The open chain comes first; while it runs, a free ID can be taken by one of its handlers. */
  lemma OpenChainRuns(s: State, id: string)
    ensures Step(s, On(OpenChainDone)) == if s.reader == Opening then Some(s.(reader := Reading)) else None
    ensures var k := s.socket;
            Step(s, On(OpenHandlerSetsID(id)))
            == if s.reader == Opening && id !in k.locks
               then Some(s.(leaked := s.leaked + {id},
                            socket := k.(locks := k.locks[id := k.nextLock], nextLock := k.nextLock + 1)))
               else None
  {}
}
