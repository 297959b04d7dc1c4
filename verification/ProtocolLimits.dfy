/** Runs in which a lock is leaked, and one in which a receive is cancelled before its message is there. */
module ProtocolLimits {
  import opened Wrappers
  import opened Sockets
  import opened Protocol
  import opened ProtocolChannels
  import opened ProtocolOwnership

  lemma Then(s: State, events: seq<Event>, e: Event, t: State)
    requires Exec(INITIAL, events) == Some(s) && Step(s, e) == Some(t)
    ensures Exec(INITIAL, events + [e]) == Some(t)
  {
    ExecAfter(INITIAL, events, [e]);
    assert [e][1..] == [];
  }

  function With(x: Context, phase: Phase): Context {
    x.(phase := phase)
  }

  /** A context that arrived with one byte of data, and one that set its ID. */
  const ARRIVED := Fresh("x")
  const NAMED := ARRIVED.(id := Some("a"))

  const READING := INITIAL.(reader := Reading)
  const UNHELD := FRESH.(nextLock := 1)
  const HELD := UNHELD.(locks := map["a" := 0])

  /** The connection with context 0 alone, nothing handed over yet. */
  function One(m: Move): State {
    READING.(socket := m.socket, contexts := map[0 := m.context], registered := m.registered, leaked := m.leaked)
  }

  function Plain(k: Socket, x: Context): Move {
    Move(x, k, map[], map[], map[], {})
  }

  /** One more step of the only context. */
  lemma Next(events: seq<Event>, a: Action, m: Move, m': Move)
    requires Exec(INITIAL, events) == Some(One(m))
    requires ContextStep(One(m), a, 0) == Some(m') && m'.buffers == map[] && m'.taken == map[]
    ensures Exec(INITIAL, events + [By(0, a)]) == Some(One(m'))
  {
    assert map[0 := m.context][0 := m'.context] == map[0 := m'.context];
    Then(One(m), events, By(0, a), One(m'));
  }

  const ARRIVAL: seq<Event> := [On(OpenChainDone), Arrive(0, "x")]
  const HOLDING := ARRIVAL + [By(0, Locking(SetID("a")))] + [By(0, Locking(TryLock))]

  lemma Arriving()
    ensures Exec(INITIAL, ARRIVAL) == Some(One(Plain(FRESH, ARRIVED)))
  {
    Then(INITIAL, [], On(OpenChainDone), READING);
    assert READING.contexts[0 := ARRIVED] == map[0 := ARRIVED] && [] + [On(OpenChainDone)] == [On(OpenChainDone)];
    Then(READING, [On(OpenChainDone)], Arrive(0, "x"), One(Plain(FRESH, ARRIVED)));
    assert [On(OpenChainDone)] + [Arrive(0, "x")] == ARRIVAL;
  }

  lemma Holding()
    ensures Exec(INITIAL, HOLDING) == Some(One(Plain(HELD, NAMED)))
  {
    Arriving();
    Next(ARRIVAL, Locking(SetID("a")), Plain(FRESH, ARRIVED), Plain(FRESH, With(NAMED, Trying)));
    assert FRESH.locks["a" := 0] == map["a" := 0];
    var e := ARRIVAL + [By(0, Locking(SetID("a")))];
    Next(e, Locking(TryLock), Plain(FRESH, With(NAMED, Trying)), Plain(HELD, NAMED));
  }

  // ---- Leaked locks

  const LEAKED := {"a"}

  function Leaky(k: Socket, x: Context): Move {
    Plain(k, x).(leaked := LEAKED)
  }

  const AGAIN := HOLDING + [By(0, Locking(SetID("a")))] + [By(0, Locking(TryLock))]

  /** Setting the same ID again waits for the own lock: the only context has no step left. */
  lemma SameIDTwiceWaitsOnItself()
    ensures var s := Exec(INITIAL, AGAIN);
            && s.Some? && s.value.contexts.Keys == {0} && s.value.contexts[0].phase == Waiting(0)
            && s.value.socket.locks == map["a" := 0] && forall a :: ContextStep(s.value, a, 0).None?
  {
    Holding();
    var trying, waiting := Leaky(HELD, With(NAMED, Trying)), Leaky(HELD, With(NAMED, Waiting(0)));
    assert {} + LEAKED == LEAKED;
    Next(HOLDING, Locking(SetID("a")), Plain(HELD, NAMED), trying);
    var e := HOLDING + [By(0, Locking(SetID("a")))];
    Next(e, Locking(TryLock), trying, waiting);
  }

  const RENAMED := NAMED.(id := Some("b"))
  const BOTH := HELD.(locks := map["a" := 0, "b" := 1], nextLock := 2)
  const LEFT := HELD.(nextLock := 2)
  const GONE := RENAMED.(cursor := Past)
  const CLOSED := LEFT.(closings := multiset{1})
  const RENAMING := HOLDING + [By(0, Locking(SetID("b")))] + [By(0, Locking(TryLock))]
  const LEAKING := RENAMING + [By(0, Leaving(Exit))] + [By(0, Leaving(Release))] + [By(0, Leaving(CloseAndFinalize))]
    + [By(0, Leaving(Finalize))]

  lemma Renaming()
    ensures Exec(INITIAL, RENAMING) == Some(One(Leaky(BOTH, RENAMED)))
  {
    Holding();
    var trying := Leaky(HELD, With(RENAMED, Trying));
    assert {} + LEAKED == LEAKED;
    Next(HOLDING, Locking(SetID("b")), Plain(HELD, NAMED), trying);
    assert HELD.locks["b" := 1] == BOTH.locks;
    var e := HOLDING + [By(0, Locking(SetID("b")))];
    Next(e, Locking(TryLock), trying, Leaky(BOTH, RENAMED));
  }

  /** Setting a second ID leaks the lock of the first: it is still in the map when the goroutine has ended. */
  lemma SecondIDLeaksLock()
    ensures var s := Exec(INITIAL, LEAKING);
            && s.Some? && s.value.contexts.Keys == {0} && s.value.contexts[0].phase.Done?
            && s.value.socket.locks == map["a" := 0]
  {
    Renaming();
    var e1 := RENAMING + [By(0, Leaving(Exit))];
    var e2 := e1 + [By(0, Leaving(Release))];
    var e3 := e2 + [By(0, Leaving(CloseAndFinalize))];
    var exiting := Leaky(BOTH, With(GONE, Exiting));
    var releasing := Leaky(LEFT, With(GONE, ClosingThenFinalize(1)));
    var finalizing := Leaky(CLOSED, With(GONE, Finalizing));
    Next(RENAMING, Leaving(Exit), Leaky(BOTH, RENAMED), exiting);
    assert BOTH.locks - {"b"} == LEFT.locks;
    Next(e1, Leaving(Release), exiting, releasing);
    assert LEFT.closings + multiset{1} == multiset{1};
    Next(e2, Leaving(CloseAndFinalize), releasing, finalizing);
    Next(e3, Leaving(Finalize), finalizing, Leaky(CLOSED, With(GONE, Done)));
  }

  const BELOW := ARRIVAL + [By(0, Locking(SetBelow("a")))] + [By(0, Locking(TryLock))] + [By(0, Leaving(Exit))]
    + [By(0, Leaving(Release))] + [By(0, Leaving(Finalize))]

  /** An ID set once, by a handler below a mount, leaks its lock: the goroutine ends without releasing it. */
  lemma IDSetBelowMountLeaksLock()
    ensures var s := Exec(INITIAL, BELOW);
            && s.Some? && s.value.contexts.Keys == {0} && s.value.contexts[0].phase.Done?
            && s.value.socket.locks == map["a" := 0]
  {
    Arriving();
    var e1 := ARRIVAL + [By(0, Locking(SetBelow("a")))];
    var e2 := e1 + [By(0, Locking(TryLock))];
    var e3 := e2 + [By(0, Leaving(Exit))];
    var e4 := e3 + [By(0, Leaving(Release))];
    var asking := ARRIVED.(below := Some("a"), phase := Trying);
    var ended := ARRIVED.(cursor := Past);
    Next(ARRIVAL, Locking(SetBelow("a")), Plain(FRESH, ARRIVED), Plain(FRESH, asking));
    assert FRESH.locks["a" := 0] == map["a" := 0] && {} + LEAKED == LEAKED;
    Next(e1, Locking(TryLock), Plain(FRESH, asking), Leaky(HELD, ARRIVED));
    Next(e2, Leaving(Exit), Leaky(HELD, ARRIVED), Leaky(HELD, With(ended, Exiting)));
    Next(e3, Leaving(Release), Leaky(HELD, With(ended, Exiting)), Leaky(HELD, With(ended, Finalizing)));
    Next(e4, Leaving(Finalize), Leaky(HELD, With(ended, Finalizing)), Leaky(HELD, With(ended, Done)));
  }

  /** And so does an ID set by an open handler. */
  lemma IDSetInOpenHandlerLeaksLock()
    ensures var s := Exec(INITIAL, [On(OpenHandlerSetsID("a"))] + [On(OpenChainDone)]);
            s.Some? && s.value.contexts == map[] && s.value.reader == Reading && s.value.socket.locks == map["a" := 0]
  {
    var after := INITIAL.(socket := HELD, leaked := LEAKED);
    assert FRESH.locks["a" := 0] == map["a" := 0] && {} + LEAKED == LEAKED;
    assert [] + [On(OpenHandlerSetsID("a"))] == [On(OpenHandlerSetsID("a"))];
    Then(INITIAL, [], On(OpenHandlerSetsID("a")), after);
    Then(after, [On(OpenHandlerSetsID("a"))], On(OpenChainDone), after.(reader := Reading));
  }

  // ---- A cancelled receive

  const P := Place(0, 0)
  const K := ReceiverChannel(0, 0)
  const REGISTERED: map<ReceiverChannel, (string, Option<Place>)> := map[K := ("a", Some(P))]
  const ENTERED := NAMED.(cursor := At(0, 1), entered := [P])
  const ASKING := ENTERED.(firstReceiveDone := true)
  const RECEIVER := ASKING.(channel := Some(K), generation := 1)
  const PARKED := UNHELD.(receivers := map["a" := ReceiverEntry(Some(P), K)], closings := multiset{0})
  const PARKING := HOLDING + [By(0, Chain(Reach(P)))] + [By(0, Receiving(SkipTrigger))] + [By(0, Receiving(Receive))]
    + [By(0, Receiving(Register))] + [By(0, Receiving(Unlock))] + [By(0, Receiving(CloseAndPark))]

  function Receiver(k: Socket, phase: Phase): Move {
    Plain(k, With(RECEIVER, phase)).(registered := REGISTERED)
  }

  lemma Parking()
    ensures Exec(INITIAL, PARKING) == Some(One(Receiver(PARKED, Parked)))
  {
    Holding();
    var e0 := HOLDING + [By(0, Chain(Reach(P)))];
    assert [] + [P] == [P];
    Next(HOLDING, Chain(Reach(P)), Plain(HELD, NAMED), Plain(HELD, ENTERED));
    var e1 := e0 + [By(0, Receiving(SkipTrigger))];
    Next(e0, Receiving(SkipTrigger), Plain(HELD, ENTERED), Plain(HELD, ASKING));
    var e2 := e1 + [By(0, Receiving(Receive))];
    Next(e1, Receiving(Receive), Plain(HELD, ASKING), Plain(HELD, With(ASKING, Registering)));
    var e3 := e2 + [By(0, Receiving(Register))];
    var listed := HELD.(receivers := map["a" := ReceiverEntry(Some(P), K)]);
    assert HELD.receivers["a" := ReceiverEntry(Some(P), K)] == listed.receivers;
    assert map[][K := ("a", Some(P))] == REGISTERED;
    Next(e2, Receiving(Register), Plain(HELD, With(ASKING, Registering)), Receiver(listed, Unlocking));
    ParkingEnds(e3, listed);
  }

  lemma ParkingEnds(events: seq<Event>, listed: Socket)
    requires listed == HELD.(receivers := map["a" := ReceiverEntry(Some(P), K)])
    requires Exec(INITIAL, events) == Some(One(Receiver(listed, Unlocking)))
    ensures Exec(INITIAL, events + [By(0, Receiving(Unlock))] + [By(0, Receiving(CloseAndPark))])
            == Some(One(Receiver(PARKED, Parked)))
  {
    var unlocked := PARKED.(closings := multiset{});
    assert listed.locks - {"a"} == map[] && multiset{} + multiset{0} == PARKED.closings;
    Next(events, Receiving(Unlock), Receiver(listed, Unlocking), Receiver(unlocked, ClosingThenPark(0)));
    var e := events + [By(0, Receiving(Unlock))];
    Next(e, Receiving(CloseAndPark), Receiver(unlocked, ClosingThenPark(0)), Receiver(PARKED, Parked));
  }

  const JOINING := PARKING + [Arrive(1, "x")] + [By(1, Locking(SetID("a")))] + [By(1, Locking(TryLock))]

  function Two(k: Socket, x: Context, y: Context): State {
    READING.(socket := k, contexts := map[0 := x, 1 := y], registered := REGISTERED)
  }

  lemma Joining()
    ensures Exec(INITIAL, JOINING) == Some(Two(Acquire(PARKED, "a"), With(RECEIVER, Parked), NAMED))
  {
    Parking();
    var x := With(RECEIVER, Parked);
    var e1 := PARKING + [Arrive(1, "x")];
    assert map[0 := x][1 := ARRIVED] == map[0 := x, 1 := ARRIVED];
    Then(One(Receiver(PARKED, Parked)), PARKING, Arrive(1, "x"), Two(PARKED, x, ARRIVED));
    Second(e1, Locking(SetID("a")), PARKED, x, ARRIVED, PARKED, With(NAMED, Trying));
    var e2 := e1 + [By(1, Locking(SetID("a")))];
    Second(e2, Locking(TryLock), PARKED, x, With(NAMED, Trying), Acquire(PARKED, "a"), NAMED);
  }

  lemma Second(events: seq<Event>, a: Action, k: Socket, x: Context, y: Context, k': Socket, y': Context)
    requires Exec(INITIAL, events) == Some(Two(k, x, y))
    requires ContextStep(Two(k, x, y), a, 1) == Some(Move(y', k', map[], REGISTERED, map[], {}))
    ensures Exec(INITIAL, events + [By(1, a)]) == Some(Two(k', x, y'))
  {
    assert map[0 := x, 1 := y][1 := y'] == map[0 := x, 1 := y'];
    Then(Two(k, x, y), events, By(1, a), Two(k', x, y'));
  }

  /** A handler whose receive is cancelled goes on with an ID whose lock another context holds by now. */
  lemma CancelledReceiverRunsWithoutLock()
    ensures var s := Exec(INITIAL, JOINING + [By(0, Receiving(CancelReceive))]);
            s.Some? && Holder(s.value, 0, "a") && Holder(s.value, 1, "a")
  {
    Joining();
    var s, x := Two(Acquire(PARKED, "a"), With(RECEIVER, Parked), NAMED), With(RECEIVER, Parked);
    assert map[0 := x, 1 := NAMED][0 := RECEIVER] == map[0 := RECEIVER, 1 := NAMED];
    Then(s, JOINING, By(0, Receiving(CancelReceive)), Two(s.socket, RECEIVER, NAMED));
  }
}
