/** Where messages are delivered, in every run. */
module ProtocolDelivery {
  import opened Wrappers
  import opened Sockets
  import opened Protocol
  import opened ProtocolMoves

  // ---- One context on its own

  ghost predicate Passed(cursor: Cursor, p: Place) {
    cursor.At? ==> p.node < cursor.node || (p.node == cursor.node && p.index < cursor.index)
  }

  /** The places entered so far, in strictly increasing order, all behind the cursor. */
  ghost predicate EnteredInOrder(x: Context) {
    && (forall i, j :: 0 <= i < j < |x.entered| ==> Before(x.entered[i], x.entered[j]))
    && (forall i :: 0 <= i < |x.entered| ==> Passed(x.cursor, x.entered[i]))
  }

  function Target(x: Context): Option<ReceiverChannel> {
    match x.phase
    case Found(target) => Some(target)
    case Sending(target) => Some(target)
    case _ => None
  }

  ghost predicate WaitsForMessage(x: Context) {
    x.phase.Unlocking? || x.phase.Parked? || x.phase.ClosingThenPark?
  }

  /** The channel is the latest one made; nothing is received before the first receive. */
  ghost predicate ReceiveShape(c: nat, x: Context) {
    && (x.channel.Some? ==> x.generation > 0 && x.channel == Some(ReceiverChannel(c, x.generation - 1)))
    && (x.channel.None? ==> x.generation == 0)
    && (WaitsForMessage(x) ==> x.channel.Some?)
    && (!x.firstReceiveDone ==> x.generation == 0 && |x.obtained| == 0 && !x.usedTrigger && !x.phase.Registering?)
    && (x.sentOn.Some? ==> !x.hasMessage)
    && (Target(x).Some? ==> x.hasMessage)
  }

  ghost predicate ContextsOk(s: State) {
    forall c: nat :: c in s.contexts ==> EnteredInOrder(s.contexts[c]) && ReceiveShape(c, s.contexts[c])
  }

  /** Only reaching a place moves the cursor forward; it enters the place or stops before it. */
  ghost predicate Walks(a: Action, x: Context, y: Context) {
    if a.Chain? && a.chain.Reach? then
      var p := a.chain.place;
      && Ahead(x.cursor, p)
      && ((y.entered == x.entered && y.cursor == At(p.node, p.index))
          || (y.entered == x.entered + [p] && y.cursor == At(p.node, p.index + 1)))
    else y.entered == x.entered && (y.cursor == x.cursor || y.cursor == Past)
  }

  lemma WalkKeepsOrder(a: Action, x: Context, y: Context)
    requires EnteredInOrder(x) && Walks(a, x, y)
    ensures EnteredInOrder(y)
  {}

  /** How a context comes to a target, and to having handed over. */
  ghost predicate Targets(s: State, x: Context, y: Context) {
    && (y.sentOn != x.sentOn ==> x.phase.Sending? && y.sentOn == Some(x.phase.target) && y.id == x.id)
    && (x.sentOn.Some? && !x.hasMessage ==> y.sentOn == x.sentOn && y.id == x.id)
    && (Target(y).Some? ==> y.id == x.id)
    && (Target(y).Some? && Target(x).Some? ==> Target(y) == Target(x) && y.cursor == x.cursor)
    && (Target(y).Some? && Target(x).None? ==>
          x.id.Some? && y.cursor.At?
          && ReceiverAt(s.socket, x.id.value, Place(y.cursor.node, y.cursor.index)) == Target(y))
  }

  /** The part of a step that the laws below look at. */
  ghost predicate Regular(s: State, a: Action, c: nat, x: Context, y: Context) {
    && Walks(a, x, y)
    && (x.sentOn.Some? && !x.hasMessage ==> y.entered == x.entered)
    && (x.phase.Sending? ==> y.entered == x.entered)
    && ReceiveShape(c, y)
    && Targets(s, x, y)
  }

  lemma ChangingOnlyPlace(s: State, a: Action, c: nat, x: Context, y: Context)
    requires ReceiveShape(c, x) && y == x.(id := y.id, below := y.below, cursor := y.cursor, phase := y.phase)
    requires !(a.Chain? && a.chain.Reach?) && (y.cursor == x.cursor || y.cursor == Past)
    requires y.id == x.id || x.hasMessage
    requires Target(y).None? && !WaitsForMessage(y) && !y.phase.Registering?
    ensures Regular(s, a, c, x, y)
  {}

  lemma LockingRegular(s: State, a: LockingAction, c: nat)
    requires c in s.contexts && LockingStep(s, a, c).Some? && ReceiveShape(c, s.contexts[c])
    ensures Regular(s, Locking(a), c, s.contexts[c], LockingStep(s, a, c).value.context)
  {
    LockingOnly(s, a, c);
    ChangingOnlyPlace(s, Locking(a), c, s.contexts[c], LockingStep(s, a, c).value.context);
  }

  lemma ReachRegular(s: State, p: Place, c: nat)
    requires c in s.contexts && ChainStep(s, Reach(p), c).Some? && ReceiveShape(c, s.contexts[c])
    ensures Regular(s, Chain(Reach(p)), c, s.contexts[c], ChainStep(s, Reach(p), c).value.context)
  {}

  lemma ChainRegular(s: State, a: ChainAction, c: nat)
    requires c in s.contexts && ChainStep(s, a, c).Some? && ReceiveShape(c, s.contexts[c])
    ensures Regular(s, Chain(a), c, s.contexts[c], ChainStep(s, a, c).value.context)
  {
    if a.Reach? { ReachRegular(s, a.place, c); }
  }

  lemma TakingShape(s: State, c: nat)
    requires c in s.contexts && ReceivingStep(s, Take, c).Some? && ReceiveShape(c, s.contexts[c])
    ensures ReceiveShape(c, ReceivingStep(s, Take, c).value.context)
  {}

  lemma RegisteringShape(s: State, c: nat)
    requires c in s.contexts && ReceivingStep(s, Register, c).Some? && ReceiveShape(c, s.contexts[c])
    ensures ReceiveShape(c, ReceivingStep(s, Register, c).value.context)
  {}

  lemma ReceivingShape(s: State, a: ReceivingAction, c: nat)
    requires c in s.contexts && ReceivingStep(s, a, c).Some? && ReceiveShape(c, s.contexts[c])
    ensures ReceiveShape(c, ReceivingStep(s, a, c).value.context)
  {
    if a.Take? { TakingShape(s, c); }
    if a.Register? { RegisteringShape(s, c); }
  }

  /** Receiving leaves the walk and the message as they are, and comes to no target. */
  ghost predicate StaysPut(x: Context, y: Context) {
    y.entered == x.entered && y.cursor == x.cursor && y.sentOn == x.sentOn && y.id == x.id && Target(y).None?
  }

  lemma TakeStaysPut(s: State, c: nat)
    requires c in s.contexts && ReceivingStep(s, Take, c).Some?
    ensures StaysPut(s.contexts[c], ReceivingStep(s, Take, c).value.context)
  {}

  lemma RegisterStaysPut(s: State, c: nat)
    requires c in s.contexts && ReceivingStep(s, Register, c).Some?
    ensures StaysPut(s.contexts[c], ReceivingStep(s, Register, c).value.context)
  {}

  lemma ReceivingStaysPut(s: State, a: ReceivingAction, c: nat)
    requires c in s.contexts && ReceivingStep(s, a, c).Some?
    ensures StaysPut(s.contexts[c], ReceivingStep(s, a, c).value.context)
  {
    if a.Take? { TakeStaysPut(s, c); }
    if a.Register? { RegisterStaysPut(s, c); }
  }

  lemma ReceivingRegular(s: State, a: ReceivingAction, c: nat)
    requires c in s.contexts && ReceivingStep(s, a, c).Some? && ReceiveShape(c, s.contexts[c])
    ensures Regular(s, Receiving(a), c, s.contexts[c], ReceivingStep(s, a, c).value.context)
  {
    ReceivingShape(s, a, c);
    ReceivingStaysPut(s, a, c);
  }

  lemma LeavingRegular(s: State, a: LeavingAction, c: nat)
    requires c in s.contexts && LeavingStep(s, a, c).Some? && ReceiveShape(c, s.contexts[c])
    ensures Regular(s, Leaving(a), c, s.contexts[c], LeavingStep(s, a, c).value.context)
  {
    LeavingOnly(s, a, c);
    ChangingOnlyPlace(s, Leaving(a), c, s.contexts[c], LeavingStep(s, a, c).value.context);
  }

  lemma MoveIsRegular(s: State, a: Action, c: nat)
    requires c in s.contexts && ContextStep(s, a, c).Some? && ReceiveShape(c, s.contexts[c])
    ensures Regular(s, a, c, s.contexts[c], ContextStep(s, a, c).value.context)
  {
    match a
    case Locking(a') => LockingRegular(s, a', c);
    case Chain(a') => ChainRegular(s, a', c);
    case Receiving(a') => ReceivingRegular(s, a', c);
    case Leaving(a') => LeavingRegular(s, a', c);
  }

  // ---- Registrations

  ghost predicate RegisteredFor(s: State, channel: ReceiverChannel, id: Option<string>, at: Place) {
    channel in s.registered && id.Some? && s.registered[channel] == (id.value, Some(at))
  }

  /** A context about to hand over stands at exactly the place its target was registered for, under its own ID; a
      context that handed over had entered only handlers before that place. */
  ghost predicate AtRegisteredPlace(s: State, x: Context) {
    && (Target(x).Some? ==>
          x.cursor.At? && RegisteredFor(s, Target(x).value, x.id, Place(x.cursor.node, x.cursor.index)))
    && (x.sentOn.Some? ==> exists at :: RegisteredFor(s, x.sentOn.value, x.id, at)
                                       && forall i :: 0 <= i < |x.entered| ==> Before(x.entered[i], at))
  }

  ghost predicate Registrations(s: State) {
    && (forall id :: id in s.socket.receivers ==>
          s.socket.receivers[id].channel in s.registered
          && s.registered[s.socket.receivers[id].channel] == (id, s.socket.receivers[id].at))
    && (forall t :: t in s.registered ==> t.owner in s.contexts && t.generation < s.contexts[t.owner].generation)
    && (forall c: nat :: c in s.contexts ==> AtRegisteredPlace(s, s.contexts[c]))
  }

  lemma RegisteredStays(s: State, t: State, x: Context)
    requires AtRegisteredPlace(s, x)
    requires forall k :: k in s.registered ==> k in t.registered && t.registered[k] == s.registered[k]
    ensures AtRegisteredPlace(t, x)
  {
    if x.sentOn.Some? {
      var at :| && RegisteredFor(s, x.sentOn.value, x.id, at)
                && forall i :: 0 <= i < |x.entered| ==> Before(x.entered[i], at);
      assert RegisteredFor(t, x.sentOn.value, x.id, at);
    }
  }

  lemma MoveKeepsOwnPlace(s: State, a: Action, c: nat, y: Context)
    requires Registrations(s) && ContextsOk(s) && c in s.contexts && Regular(s, a, c, s.contexts[c], y)
    ensures AtRegisteredPlace(s, y)
  {
    var x := s.contexts[c];
    assert AtRegisteredPlace(s, x) && ReceiveShape(c, x) && EnteredInOrder(x);
    if y.sentOn.Some? && y.sentOn != x.sentOn {
      var at := Place(x.cursor.node, x.cursor.index);
      assert RegisteredFor(s, y.sentOn.value, y.id, at);
    } else if y.sentOn.Some? {
      var at :| && RegisteredFor(s, x.sentOn.value, x.id, at)
                && forall i :: 0 <= i < |x.entered| ==> Before(x.entered[i], at);
      assert RegisteredFor(s, y.sentOn.value, y.id, at);
    }
  }

  lemma RegistryKeeps(s: State, c: nat, m: Move)
    requires Registrations(s) && c in s.contexts && RegistryMove(s, c, s.contexts[c], m)
    ensures var t := Apply(s, c, m);
            && (forall k :: k in s.registered ==> k in t.registered && t.registered[k] == s.registered[k])
            && (forall id :: id in t.socket.receivers ==>
                  t.socket.receivers[id].channel in t.registered
                  && t.registered[t.socket.receivers[id].channel] == (id, t.socket.receivers[id].at))
            && (forall k :: k in t.registered ==>
                k.owner in t.contexts && k.generation < t.contexts[k.owner].generation)
  {}

  lemma MoveKeepsRegistrations(s: State, a: Action, c: nat, m: Move)
    requires Registrations(s) && ContextsOk(s) && c in s.contexts
    requires Regular(s, a, c, s.contexts[c], m.context) && RegistryMove(s, c, s.contexts[c], m)
    ensures Registrations(Apply(s, c, m))
  {
    var t := Apply(s, c, m);
    MoveKeepsOwnPlace(s, a, c, m.context);
    RegistryKeeps(s, c, m);
    forall c': nat | c' in t.contexts ensures AtRegisteredPlace(t, t.contexts[c']) {
      RegisteredStays(s, t, t.contexts[c']);
    }
  }

  lemma ArrivalKeepsRegistrations(s: State, c: nat, data: string)
    requires Registrations(s) && ContextsOk(s) && c !in s.contexts
    ensures Registrations(Apply(s, c, Keep(s, Fresh(data)))) && ContextsOk(Apply(s, c, Keep(s, Fresh(data))))
  {
    var t := Apply(s, c, Keep(s, Fresh(data)));
    forall c': nat | c' in t.contexts ensures AtRegisteredPlace(t, t.contexts[c']) {
      if c' != c { RegisteredStays(s, t, t.contexts[c']); }
    }
  }

  lemma SocketKeepsRegistrations(s: State, act: SocketAction)
    requires Registrations(s) && SocketStep(s, act).Some?
    ensures Registrations(SocketStep(s, act).value) && SocketStep(s, act).value.contexts == s.contexts
  {
    var t := SocketStep(s, act).value;
    SocketKeepsContexts(s, act);
    assert t.socket.receivers == s.socket.receivers || t.socket.receivers == map[];
    forall c: nat | c in t.contexts ensures AtRegisteredPlace(t, t.contexts[c]) {
      RegisteredStays(s, t, t.contexts[c]);
    }
  }

  lemma StepKeepsRegistrations(s: State, e: Event)
    requires Registrations(s) && ContextsOk(s) && Step(s, e).Some?
    ensures Registrations(Step(s, e).value) && ContextsOk(Step(s, e).value)
  {
    match e
    case Arrive(c, data) => ArrivalKeepsRegistrations(s, c, data);
    case On(act) => SocketKeepsRegistrations(s, act);
    case By(c, a) =>
      var m := ContextStep(s, a, c).value;
      MoveIsRegular(s, a, c);
      MoveIsRegistryMove(s, a, c);
      WalkKeepsOrder(a, s.contexts[c], m.context);
      MoveKeepsRegistrations(s, a, c, m);
  }
  // ---- Runs

  ghost predicate EveryRun(s: State) {
    ContextsOk(s) && Registrations(s)
  }

  lemma {:induction false} RunKeepsDelivery(s: State, events: seq<Event>)
    requires EveryRun(s) && Exec(s, events).Some?
    ensures EveryRun(Exec(s, events).value)
    decreases |events|
  {
    if |events| > 0 {
      StepKeepsRegistrations(s, events[0]);
      RunKeepsDelivery(Step(s, events[0]).value, events[1..]);
    }
  }

  /** A message put on a receiver channel was registered under its ID, its sender entered only handlers before the
      registered place, and, it having no message any more, enters none after. */
  lemma DeliveredAtRegisteredPlace(events: seq<Event>, c: nat)
    requires Exec(INITIAL, events).Some? && c in Exec(INITIAL, events).value.contexts
    requires Exec(INITIAL, events).value.contexts[c].sentOn.Some?
    ensures var s := Exec(INITIAL, events).value;
            var x := s.contexts[c];
            exists at :: RegisteredFor(s, x.sentOn.value, x.id, at)
                         && forall i :: 0 <= i < |x.entered| ==> Before(x.entered[i], at)
  {
    RunKeepsDelivery(INITIAL, events);
    assert AtRegisteredPlace(Exec(INITIAL, events).value, Exec(INITIAL, events).value.contexts[c]);
  }

  lemma StepEntersNothing(s: State, e: Event, c: nat)
    requires ContextsOk(s) && Registrations(s) && Step(s, e).Some? && c in s.contexts && s.contexts[c].sentOn.Some?
    ensures var t := Step(s, e).value;
            c in t.contexts && t.contexts[c].sentOn == s.contexts[c].sentOn
                && t.contexts[c].entered == s.contexts[c].entered
  {
    match e
    case Arrive(d, data) =>
    case On(act) => SocketKeepsContexts(s, act);
    case By(d, a) => if d == c { MoveIsRegular(s, a, c); }
  }

  /** A context that handed its message over enters no handler any more, and hands over no second time. */
  lemma {:induction false} HandedOverForGood(s: State, events: seq<Event>, c: nat)
    requires ContextsOk(s) && Registrations(s) && Exec(s, events).Some? && c in s.contexts && s.contexts[c].sentOn.Some?
    ensures var t := Exec(s, events).value;
            c in t.contexts && t.contexts[c].sentOn == s.contexts[c].sentOn
                && t.contexts[c].entered == s.contexts[c].entered
    decreases |events|
  {
    if |events| > 0 {
      StepEntersNothing(s, events[0], c);
      StepKeepsRegistrations(s, events[0]);
      HandedOverForGood(Step(s, events[0]).value, events[1..], c);
    }
  }
}
