/** Where every inbound message is, in every run: with its own context, in one receiver's channel, taken from one,
    dropped by a closed socket, or drained from the channel of a finished receiver. */
module ProtocolLetters {
  import opened Wrappers
  import opened Sockets
  import opened Protocol
  import opened ProtocolMoves
  import opened ProtocolDelivery
  import opened ProtocolStreams

  ghost predicate TakenFrom(s: State, channel: ReceiverChannel, c: nat) {
    channel in s.taken && s.taken[channel] == c
  }

  /** The owner of the channel has ended, and drained it then. */
  ghost predicate Emptied(s: State, channel: ReceiverChannel) {
    && channel.owner in s.contexts && s.contexts[channel.owner].phase.Done?
    && s.contexts[channel.owner].channel == Some(channel)
  }

  ghost predicate SentOn(s: State, c: nat, channel: ReceiverChannel) {
    c in s.contexts && s.contexts[c].sentOn == Some(channel)
  }

  /** A channel holds at most one message, sent on it and not yet taken from it. */
  ghost predicate Held(s: State, channel: ReceiverChannel) {
    |Buffer(s, channel)| <= 1
    && forall m | m in Buffer(s, channel) :: SentOn(s, m, channel) && !TakenFrom(s, channel, m)
  }

  /** A message that was sent is in the channel, taken from it, or drained; one that is gone unsent was dropped. */
  ghost predicate Arrived(s: State, c: nat)
    requires c in s.contexts
  {
    var x := s.contexts[c];
    && (x.sentOn.Some? ==>
          c in Buffer(s, x.sentOn.value) || TakenFrom(s, x.sentOn.value, c) || Emptied(s, x.sentOn.value))
    && (!x.hasMessage && x.sentOn.None? ==> s.socket.stage.Cancelled?)
  }

  ghost predicate AllHeld(s: State) {
    && (forall k: ReceiverChannel :: Held(s, k))
    && (forall k :: k in s.taken ==> SentOn(s, s.taken[k], k))
  }

  ghost predicate Letters(s: State) {
    AllHeld(s) && (forall c: nat :: c in s.contexts ==> Arrived(s, c))
  }

  // ---- What a step of one context does to messages

  ghost predicate SameMessage(x: Context, y: Context) {
    y.hasMessage == x.hasMessage && y.sentOn == x.sentOn
  }

  ghost predicate LeavesLetters(s: State, x: Context, m: Move) {
    m.buffers == s.buffers && m.taken == s.taken && SameMessage(x, m.context)
  }

  ghost predicate SendsLetter(s: State, c: nat, x: Context, m: Move) {
    && x.phase.Sending? && Buffer(s, x.phase.target) == [] && !m.context.hasMessage
    && m.context.sentOn == Some(x.phase.target)
    && m.buffers == s.buffers[x.phase.target := [c]] && m.taken == s.taken
  }

  ghost predicate DropsLetter(s: State, x: Context, m: Move) {
    && s.socket.stage.Cancelled? && !m.context.hasMessage && m.context.sentOn == x.sentOn
    && m.buffers == s.buffers && m.taken == s.taken
  }

  ghost predicate TakesLetter(s: State, x: Context, m: Move) {
    && x.phase.Parked? && x.channel.Some? && |Buffer(s, x.channel.value)| > 0 && SameMessage(x, m.context)
    && m.buffers == s.buffers[x.channel.value := Buffer(s, x.channel.value)[1..]]
    && m.taken == s.taken[x.channel.value := Buffer(s, x.channel.value)[0]]
  }

  ghost predicate DrainsLetters(s: State, x: Context, m: Move) {
    && x.channel.Some? && m.context.phase.Done? && m.context.channel == x.channel && SameMessage(x, m.context)
    && m.buffers == s.buffers[x.channel.value := []] && m.taken == s.taken
  }

  ghost predicate LetterMove(s: State, c: nat, x: Context, m: Move) {
    && !x.phase.Done? && m.socket.stage == s.socket.stage
    && (LeavesLetters(s, x, m) || SendsLetter(s, c, x, m) || DropsLetter(s, x, m) || TakesLetter(s, x, m)
        || DrainsLetters(s, x, m))
  }

  lemma LockingLetters(s: State, a: LockingAction, c: nat)
    requires c in s.contexts && LockingStep(s, a, c).Some?
    ensures LetterMove(s, c, s.contexts[c], LockingStep(s, a, c).value)
  {}

  lemma ChainLetters(s: State, a: ChainAction, c: nat)
    requires c in s.contexts && ChainStep(s, a, c).Some?
    ensures LetterMove(s, c, s.contexts[c], ChainStep(s, a, c).value)
  {}

  lemma ReceivingLetters(s: State, a: ReceivingAction, c: nat)
    requires c in s.contexts && ReceivingStep(s, a, c).Some?
    ensures LetterMove(s, c, s.contexts[c], ReceivingStep(s, a, c).value)
  {}

  lemma LeavingLetters(s: State, a: LeavingAction, c: nat)
    requires c in s.contexts && LeavingStep(s, a, c).Some?
    ensures LetterMove(s, c, s.contexts[c], LeavingStep(s, a, c).value)
  {}

  lemma MoveIsLetterMove(s: State, a: Action, c: nat)
    requires c in s.contexts && ContextStep(s, a, c).Some?
    ensures LetterMove(s, c, s.contexts[c], ContextStep(s, a, c).value)
  {
    match a
    case Locking(a') => LockingLetters(s, a', c);
    case Chain(a') => ChainLetters(s, a', c);
    case Receiving(a') => ReceivingLetters(s, a', c);
    case Leaving(a') => LeavingLetters(s, a', c);
  }

  /** Messages stay sent, finished contexts stay finished. */
  lemma MoveKeepsSent(s: State, c: nat, m: Move)
    requires ContextsOk(s) && c in s.contexts && LetterMove(s, c, s.contexts[c], m)
    ensures var t := Apply(s, c, m);
            && (forall d: nat, k :: SentOn(s, d, k) ==> SentOn(t, d, k))
            && (forall k :: Emptied(s, k) ==> Emptied(t, k))
  {
    assert ReceiveShape(c, s.contexts[c]);
  }

  /** What a step of `c` leaves of the messages other contexts and channels have. */
  ghost predicate Keeps(s: State, c: nat, m: Move) {
    && Letters(s) && TakenOk(s) && c in s.contexts && ReceiveShape(c, s.contexts[c])
    && (forall d: nat, k :: SentOn(s, d, k) ==> SentOn(Apply(s, c, m), d, k))
    && (forall k :: Emptied(s, k) ==> Emptied(Apply(s, c, m), k))
  }

  lemma SameHeld(s: State, c: nat, m: Move)
    requires Keeps(s, c, m) && (LeavesLetters(s, s.contexts[c], m) || DropsLetter(s, s.contexts[c], m))
    ensures AllHeld(Apply(s, c, m))
  {
    forall k: ReceiverChannel ensures Held(Apply(s, c, m), k) { assert Held(s, k); }
  }

  lemma SendingHeld(s: State, c: nat, m: Move)
    requires Keeps(s, c, m) && SendsLetter(s, c, s.contexts[c], m)
    ensures AllHeld(Apply(s, c, m))
  {
    forall k: ReceiverChannel ensures Held(Apply(s, c, m), k) {
      assert Held(s, k);
      assert TakenFrom(s, k, c) ==> SentOn(s, c, k);
    }
  }

  lemma TakingHeld(s: State, c: nat, m: Move)
    requires Keeps(s, c, m) && TakesLetter(s, s.contexts[c], m)
    ensures AllHeld(Apply(s, c, m))
  {
    assert Held(s, s.contexts[c].channel.value);
    forall k: ReceiverChannel ensures Held(Apply(s, c, m), k) { assert Held(s, k); }
  }

  lemma DrainingHeld(s: State, c: nat, m: Move)
    requires Keeps(s, c, m) && DrainsLetters(s, s.contexts[c], m)
    ensures AllHeld(Apply(s, c, m))
  {
    forall k: ReceiverChannel ensures Held(Apply(s, c, m), k) { assert Held(s, k); }
  }

  lemma MoveKeepsHeld(s: State, c: nat, m: Move)
    requires Keeps(s, c, m) && LetterMove(s, c, s.contexts[c], m)
    ensures AllHeld(Apply(s, c, m))
  {
    var x := s.contexts[c];
    if SendsLetter(s, c, x, m) { SendingHeld(s, c, m); }
    else if TakesLetter(s, x, m) { TakingHeld(s, c, m); }
    else if DrainsLetters(s, x, m) { DrainingHeld(s, c, m); }
    else { SameHeld(s, c, m); }
  }

  /** The steps that move the stepping context's own message. */
  lemma OwnArrived(s: State, c: nat, m: Move)
    requires Keeps(s, c, m) && (SendsLetter(s, c, s.contexts[c], m) || DropsLetter(s, s.contexts[c], m))
    requires m.socket.stage == s.socket.stage
    ensures Arrived(Apply(s, c, m), c)
  {
    assert Arrived(s, c);
  }

  lemma OthersArrived(s: State, c: nat, m: Move, d: nat)
    requires Keeps(s, c, m) && m.socket.stage == s.socket.stage && d in s.contexts && d != c
    requires SendsLetter(s, c, s.contexts[c], m) || DropsLetter(s, s.contexts[c], m)
    ensures Arrived(Apply(s, c, m), d)
  {
    assert Arrived(s, d);
  }

  lemma SameArrived(s: State, c: nat, m: Move, d: nat)
    requires Keeps(s, c, m) && m.socket.stage == s.socket.stage && d in s.contexts && LeavesLetters(s, s.contexts[c], m)
    ensures Arrived(Apply(s, c, m), d)
  {
    assert Arrived(s, d);
  }

  lemma TakingArrived(s: State, c: nat, m: Move, d: nat)
    requires Keeps(s, c, m) && m.socket.stage == s.socket.stage && d in s.contexts && TakesLetter(s, s.contexts[c], m)
    ensures Arrived(Apply(s, c, m), d)
  {
    assert Arrived(s, d) && Held(s, s.contexts[c].channel.value);
  }

  lemma DrainingArrived(s: State, c: nat, m: Move, d: nat)
    requires Keeps(s, c, m) && m.socket.stage == s.socket.stage && d in s.contexts && DrainsLetters(s, s.contexts[c], m)
    ensures Arrived(Apply(s, c, m), d)
  {
    assert Arrived(s, d);
  }

  lemma MoveKeepsArrived(s: State, c: nat, m: Move, d: nat)
    requires Keeps(s, c, m) && LetterMove(s, c, s.contexts[c], m) && d in s.contexts
    ensures Arrived(Apply(s, c, m), d)
  {
    var x := s.contexts[c];
    if TakesLetter(s, x, m) { TakingArrived(s, c, m, d); }
    else if DrainsLetters(s, x, m) { DrainingArrived(s, c, m, d); }
    else if LeavesLetters(s, x, m) { SameArrived(s, c, m, d); }
    else if d == c { OwnArrived(s, c, m); }
    else { OthersArrived(s, c, m, d); }
  }

  lemma MoveKeepsLetters(s: State, c: nat, m: Move)
    requires Letters(s) && ContextsOk(s) && TakenOk(s) && c in s.contexts && LetterMove(s, c, s.contexts[c], m)
    ensures Letters(Apply(s, c, m))
  {
    MoveKeepsSent(s, c, m);
    MoveKeepsHeld(s, c, m);
    forall d: nat | d in s.contexts ensures Arrived(Apply(s, c, m), d) {
      MoveKeepsArrived(s, c, m, d);
    }
  }

  /** A step that moves no message. */
  lemma UntouchedLetters(s: State, t: State)
    requires Letters(s) && t.taken == s.taken && t.buffers == s.buffers
    requires s.socket.stage.Cancelled? ==> t.socket.stage.Cancelled?
    requires forall c: nat :: c in s.contexts ==> c in t.contexts && t.contexts[c] == s.contexts[c]
    requires forall c: nat :: c in t.contexts && c !in s.contexts ==> exists data :: t.contexts[c] == Fresh(data)
    ensures Letters(t)
  {
    forall k: ReceiverChannel ensures Held(t, k) { assert Held(s, k); }
    forall c: nat | c in t.contexts ensures Arrived(t, c) {
      if c in s.contexts { assert Arrived(s, c); }
    }
  }

  lemma StepKeepsLetters(s: State, e: Event)
    requires Letters(s) && ContextsOk(s) && TakenOk(s) && Step(s, e).Some?
    ensures Letters(Step(s, e).value)
  {
    match e
    case Arrive(c, data) => UntouchedLetters(s, Step(s, e).value);
    case On(act) =>
      SocketKeepsContexts(s, act);
      UntouchedLetters(s, Step(s, e).value);
    case By(c, a) =>
      MoveIsLetterMove(s, a, c);
      MoveKeepsLetters(s, c, ContextStep(s, a, c).value);
  }

  // ---- Without cancelled receives

  /** No receive is cancelled; the socket may be closed at any time. */
  predicate Uncancelled(events: seq<Event>) {
    forall i :: 0 <= i < |events| ==> !Cancels(events[i])
  }

  predicate Cancels(e: Event) {
    e.By? && e.a == Receiving(CancelReceive)
  }

  ghost predicate WaitsOn(s: State, channel: ReceiverChannel) {
    && channel.owner in s.contexts && s.contexts[channel.owner].channel == Some(channel)
    && WaitsForMessage(s.contexts[channel.owner])
  }

  /** A registered channel is waited on until a message was taken from it or it is closed, and nothing sent on it is
      left behind unless another message was taken. */
  ghost predicate Attended(s: State) {
    && (forall k :: k in s.registered ==> WaitsOn(s, k) || k in s.taken || k in s.socket.closedReceivers)
    && (forall k: ReceiverChannel :: |Buffer(s, k)| > 0 ==> WaitsOn(s, k) || k in s.taken)
    && (forall c: nat, k :: SentOn(s, c, k) ==> c in Buffer(s, k) || k in s.taken)
  }

  /** How a context stops to wait, and what it can send on, drain and register. */
  ghost predicate AttendingMove(s: State, c: nat, x: Context, m: Move) {
    && (forall k: ReceiverChannel :: x.channel == Some(k) && WaitsForMessage(x) ==>
          || (m.context.channel == Some(k) && WaitsForMessage(m.context))
          || k in m.taken || (k in s.socket.closedReceivers && Buffer(s, k) == []))
    && (SendsLetter(s, c, x, m) ==> x.phase.target !in s.socket.closedReceivers)
    && (DrainsLetters(s, x, m) ==> !WaitsForMessage(x))
    && (forall k :: k in m.registered ==>
          k in s.registered || (k.owner == c && m.context.channel == Some(k) && WaitsForMessage(m.context)))
  }

  lemma LockingAttends(s: State, a: LockingAction, c: nat)
    requires c in s.contexts && LockingStep(s, a, c).Some?
    ensures AttendingMove(s, c, s.contexts[c], LockingStep(s, a, c).value)
  {}

  lemma ChainAttends(s: State, a: ChainAction, c: nat)
    requires c in s.contexts && ChainStep(s, a, c).Some?
    ensures AttendingMove(s, c, s.contexts[c], ChainStep(s, a, c).value)
  {}

  lemma ReceivingAttends(s: State, a: ReceivingAction, c: nat)
    requires c in s.contexts && ReceivingStep(s, a, c).Some? && !a.CancelReceive? && ReceiveShape(c, s.contexts[c])
    ensures AttendingMove(s, c, s.contexts[c], ReceivingStep(s, a, c).value)
  {}

  lemma LeavingAttends(s: State, a: LeavingAction, c: nat)
    requires c in s.contexts && LeavingStep(s, a, c).Some?
    ensures AttendingMove(s, c, s.contexts[c], LeavingStep(s, a, c).value)
  {}

  lemma MoveAttends(s: State, a: Action, c: nat)
    requires c in s.contexts && ContextStep(s, a, c).Some? && !Cancels(By(c, a)) && ReceiveShape(c, s.contexts[c])
    ensures AttendingMove(s, c, s.contexts[c], ContextStep(s, a, c).value)
  {
    match a
    case Locking(a') => LockingAttends(s, a', c);
    case Chain(a') => ChainAttends(s, a', c);
    case Receiving(a') => ReceivingAttends(s, a', c);
    case Leaving(a') => LeavingAttends(s, a', c);
  }

  /** A channel that was waited on still is, or was taken from, or is closed and empty. */
  lemma WaitingEnds(s: State, c: nat, m: Move, k: ReceiverChannel)
    requires c in s.contexts && AttendingMove(s, c, s.contexts[c], m) && WaitsOn(s, k)
    ensures WaitsOn(Apply(s, c, m), k) || k in m.taken || (k in s.socket.closedReceivers && Buffer(s, k) == [])
  {}

  /** A target is registered, so unless it is closed it is waited on or was taken from. */
  lemma TargetAttended(s: State, c: nat)
    requires Attended(s) && Registrations(s) && c in s.contexts && Target(s.contexts[c]).Some?
    requires Target(s.contexts[c]).value !in s.socket.closedReceivers
    ensures var k := Target(s.contexts[c]).value; WaitsOn(s, k) || k in s.taken
  {
    assert AtRegisteredPlace(s, s.contexts[c]);
  }

  lemma MoveKeepsRegisteredAttended(s: State, c: nat, m: Move)
    requires Attended(s) && c in s.contexts && AttendingMove(s, c, s.contexts[c], m)
    requires m.socket.closedReceivers == s.socket.closedReceivers && forall k :: k in s.taken ==> k in m.taken
    ensures var t := Apply(s, c, m);
            forall k :: k in t.registered ==> WaitsOn(t, k) || k in t.taken || k in t.socket.closedReceivers
  {
    var t := Apply(s, c, m);
    forall k | k in t.registered ensures WaitsOn(t, k) || k in t.taken || k in t.socket.closedReceivers {
      if k in s.registered && WaitsOn(s, k) { WaitingEnds(s, c, m, k); }
    }
  }

  lemma MoveKeepsBuffersAttended(s: State, c: nat, m: Move)
    requires Attended(s) && Registrations(s) && c in s.contexts && ReceiveShape(c, s.contexts[c])
    requires AttendingMove(s, c, s.contexts[c], m) && LetterMove(s, c, s.contexts[c], m)
    requires forall k :: k in s.taken ==> k in m.taken
    ensures var t := Apply(s, c, m); forall k: ReceiverChannel :: |Buffer(t, k)| > 0 ==> WaitsOn(t, k) || k in t.taken
  {
    var x, t := s.contexts[c], Apply(s, c, m);
    forall k: ReceiverChannel | |Buffer(t, k)| > 0 ensures WaitsOn(t, k) || k in t.taken {
      if SendsLetter(s, c, x, m) && k == x.phase.target { TargetAttended(s, c); }
      if WaitsOn(s, k) { WaitingEnds(s, c, m, k); }
    }
  }

  lemma MoveKeepsSentAttended(s: State, c: nat, m: Move)
    requires Attended(s) && Letters(s) && c in s.contexts && ReceiveShape(c, s.contexts[c])
    requires AttendingMove(s, c, s.contexts[c], m) && LetterMove(s, c, s.contexts[c], m)
    requires forall k :: k in s.taken ==> k in m.taken
    ensures var t := Apply(s, c, m); forall d: nat, k :: SentOn(t, d, k) ==> d in Buffer(t, k) || k in t.taken
  {
    var x, t := s.contexts[c], Apply(s, c, m);
    forall d: nat, k | SentOn(t, d, k) ensures d in Buffer(t, k) || k in t.taken {
      assert Held(s, k);
      if !SendsLetter(s, c, x, m) || d != c { assert SentOn(s, d, k); }
    }
  }

  lemma MoveKeepsAttended(s: State, a: Action, c: nat)
    requires Attended(s) && Letters(s) && ContextsOk(s) && Registrations(s) && Streams(s)
    requires c in s.contexts && ContextStep(s, a, c).Some? && !Cancels(By(c, a))
    ensures Attended(Apply(s, c, ContextStep(s, a, c).value))
  {
    var m := ContextStep(s, a, c).value;
    MoveIsLetterMove(s, a, c);
    MoveAttends(s, a, c);
    ClosedAndTaken(s, a, c);
    MoveKeepsRegisteredAttended(s, c, m);
    MoveKeepsBuffersAttended(s, c, m);
    MoveKeepsSentAttended(s, c, m);
  }

  lemma ClosedAndTaken(s: State, a: Action, c: nat)
    requires c in s.contexts && ContextStep(s, a, c).Some?
    ensures var m := ContextStep(s, a, c).value;
            m.socket.closedReceivers == s.socket.closedReceivers && forall k :: k in s.taken ==> k in m.taken
  {
    MoveFramed(s, a, c);
    MoveIsLetterMove(s, a, c);
  }

  /** A step of no context. */
  lemma UntouchedAttended(s: State, t: State)
    requires Attended(s) && t.taken == s.taken && t.buffers == s.buffers && t.registered == s.registered
    requires s.socket.closedReceivers <= t.socket.closedReceivers
    requires forall c: nat :: c in s.contexts ==> c in t.contexts && t.contexts[c] == s.contexts[c]
    requires forall c: nat, k :: SentOn(t, c, k) ==> SentOn(s, c, k)
    ensures Attended(t)
  {
    forall k | WaitsOn(s, k) ensures WaitsOn(t, k) {}
    forall c: nat, k | SentOn(t, c, k) ensures c in Buffer(t, k) || k in t.taken { assert SentOn(s, c, k); }
  }

  lemma StepKeepsAttended(s: State, e: Event)
    requires Attended(s) && Letters(s) && ContextsOk(s) && Registrations(s) && Streams(s)
    requires Step(s, e).Some? && !Cancels(e)
    ensures Attended(Step(s, e).value)
  {
    match e
    case Arrive(c, data) => UntouchedAttended(s, Step(s, e).value);
    case On(act) =>
      SocketKeepsContexts(s, act);
      SocketOnlyCloses(s, act);
      UntouchedAttended(s, Step(s, e).value);
    case By(c, a) => MoveKeepsAttended(s, a, c);
  }

  lemma SocketOnlyCloses(s: State, act: SocketAction)
    requires SocketStep(s, act).Some?
    ensures s.socket.closedReceivers <= SocketStep(s, act).value.socket.closedReceivers
  {}

  // ---- Runs

  ghost predicate EveryRun(s: State) {
    ContextsOk(s) && Registrations(s) && Streams(s) && Letters(s)
  }

  lemma InitialLetters()
    ensures EveryRun(INITIAL) && Attended(INITIAL)
  {}

  lemma StepKeeps(s: State, e: Event)
    requires EveryRun(s) && Step(s, e).Some?
    ensures EveryRun(Step(s, e).value)
  {
    StepKeepsRegistrations(s, e);
    StepKeepsStreams(s, e);
    StepKeepsLetters(s, e);
  }

  lemma {:induction false} RunKeepsLetters(s: State, events: seq<Event>)
    requires EveryRun(s) && Exec(s, events).Some?
    ensures EveryRun(Exec(s, events).value)
    ensures Attended(s) && Uncancelled(events) ==> Attended(Exec(s, events).value)
    decreases |events|
  {
    if |events| > 0 {
      StepKeeps(s, events[0]);
      if Attended(s) && Uncancelled(events) { StepKeepsAttended(s, events[0]); }
      RunKeepsLetters(Step(s, events[0]).value, events[1..]);
    }
  }

  // ---- Conservation

  datatype Location =
    | OwnContext
    | Buffered(channel: ReceiverChannel)
    | TakenBy(channel: ReceiverChannel)
    | Dropped                              // sent when the socket was done
    | Drained(channel: ReceiverChannel)    // left behind by a receiver that ended

  ghost predicate LocatedAt(s: State, c: nat, at: Location) {
    c in s.contexts &&
    match at
    case OwnContext => s.contexts[c].hasMessage
    case Buffered(k) => c in Buffer(s, k)
    case TakenBy(k) => TakenFrom(s, k, c)
    case Dropped => !s.contexts[c].hasMessage && s.contexts[c].sentOn.None? && s.socket.stage.Cancelled?
    case Drained(k) => SentOn(s, c, k) && c !in Buffer(s, k) && !TakenFrom(s, k, c) && Emptied(s, k)
  }

  lemma MessageIsSomewhere(s: State, c: nat)
    requires Letters(s) && c in s.contexts
    ensures exists at :: LocatedAt(s, c, at)
  {
    var x := s.contexts[c];
    assert Arrived(s, c);
    if x.hasMessage {
      assert LocatedAt(s, c, OwnContext);
    } else if x.sentOn.None? {
      assert LocatedAt(s, c, Dropped);
    } else {
      var k := x.sentOn.value;
      assert LocatedAt(s, c, Buffered(k)) || LocatedAt(s, c, TakenBy(k)) || LocatedAt(s, c, Drained(k));
    }
  }

  /** A message in a channel, taken or drained was sent on that channel, and is not its own context's any more. */
  lemma LocatedWhereSent(s: State, c: nat, at: Location)
    requires AllHeld(s) && ContextsOk(s) && LocatedAt(s, c, at)
    ensures at.Buffered? || at.TakenBy? || at.Drained? <==> s.contexts[c].sentOn.Some?
    ensures s.contexts[c].sentOn.Some? ==> s.contexts[c].sentOn == Some(at.channel) && !s.contexts[c].hasMessage
  {
    assert ReceiveShape(c, s.contexts[c]);
    if at.Buffered? { assert Held(s, at.channel); }
  }

  lemma MessageIsNowhereElse(s: State, c: nat, at: Location, at': Location)
    requires AllHeld(s) && ContextsOk(s) && LocatedAt(s, c, at) && LocatedAt(s, c, at')
    ensures at == at'
  {
    LocatedWhereSent(s, c, at);
    LocatedWhereSent(s, c, at');
    if s.contexts[c].sentOn.Some? { assert Held(s, s.contexts[c].sentOn.value); }
  }

  /** Conservation, in every run: each inbound message is in exactly one place, and no channel ever holds two. */
  lemma MessagesAreConserved(events: seq<Event>, c: nat)
    requires Exec(INITIAL, events).Some? && c in Exec(INITIAL, events).value.contexts
    ensures var s := Exec(INITIAL, events).value;
            && (exists at :: LocatedAt(s, c, at))
            && (forall at, at' :: LocatedAt(s, c, at) && LocatedAt(s, c, at') ==> at == at')
            && (forall k: ReceiverChannel :: |Buffer(s, k)| <= 1)
  {
    var s := Exec(INITIAL, events).value;
    InitialLetters();
    RunKeepsLetters(INITIAL, events);
    MessageIsSomewhere(s, c);
    forall at, at' | LocatedAt(s, c, at) && LocatedAt(s, c, at') ensures at == at' {
      MessageIsNowhereElse(s, c, at, at');
    }
    forall k: ReceiverChannel ensures |Buffer(s, k)| <= 1 { assert Held(s, k); }
  }

  /** Without cancelled receives, closing the socket included: a message in a channel is waited for or follows one
      that was taken, and a message is drained only from a channel from which another one was taken. */
  lemma UncancelledMessagesArrive(events: seq<Event>, c: nat, at: Location)
    requires Uncancelled(events) && Exec(INITIAL, events).Some? && LocatedAt(Exec(INITIAL, events).value, c, at)
    ensures var s := Exec(INITIAL, events).value;
            && (at.Buffered? ==> WaitsOn(s, at.channel) || at.channel in s.taken)
            && (at.Drained? ==>
                  && at.channel in s.taken && s.taken[at.channel] != c
                  && SentOn(s, s.taken[at.channel], at.channel))
  {
    InitialLetters();
    RunKeepsLetters(INITIAL, events);
  }

  // ---- Streams

  /** In every run, what a handler obtained is the non-empty part of its trigger, unless skipped, and of the messages
      taken from its channels, in order. Those are messages sent on these channels, and every message sent on one of
      them is taken from it, still in it, or drained after the handler ended. */
  lemma HandlersObtainTheirStream(events: seq<Event>, c: nat)
    requires Exec(INITIAL, events).Some? && c in Exec(INITIAL, events).value.contexts
    ensures var s := Exec(INITIAL, events).value;
            && Stream(s, c) && (forall data | data in s.contexts[c].obtained :: |data| > 0)
            && (forall k | k in s.taken && k.owner == c :: SentOn(s, s.taken[k], k))
            && (forall d: nat, k :: SentOn(s, d, k) && k.owner == c ==>
                  TakenFrom(s, k, d) || Buffer(s, k) == [d] || Emptied(s, k))
  {
    InitialLetters();
    RunKeepsLetters(INITIAL, events);
    var s := Exec(INITIAL, events).value;
    var x := s.contexts[c];
    NoneIsEmpty((if x.usedTrigger then [x.data] else []) + Delivered(s, c, x.generation));
    SentIsSomewhere(s);
  }

  lemma SentIsSomewhere(s: State)
    requires Letters(s)
    ensures forall d: nat, k :: SentOn(s, d, k) ==> TakenFrom(s, k, d) || Buffer(s, k) == [d] || Emptied(s, k)
  {
    forall d: nat, k | SentOn(s, d, k) ensures TakenFrom(s, k, d) || Buffer(s, k) == [d] || Emptied(s, k) {
      assert Arrived(s, d) && Held(s, k);
    }
  }

  /** Without cancelled receives: a channel the handler registered is waited on, closed, or one of the messages sent
      on it was taken; so a handler misses a message only to another one it took from the same channel. */
  lemma UncancelledStreamsMissNothing(events: seq<Event>, c: nat)
    requires Uncancelled(events) && Exec(INITIAL, events).Some? && c in Exec(INITIAL, events).value.contexts
    ensures var s := Exec(INITIAL, events).value;
            && (forall k | k in s.registered && k.owner == c ::
                  WaitsOn(s, k) || k in s.taken || k in s.socket.closedReceivers)
            && (forall d: nat, k :: SentOn(s, d, k) && k.owner == c ==> Buffer(s, k) == [d] || k in s.taken)
  {
    InitialLetters();
    RunKeepsLetters(INITIAL, events);
    SentIsInOrTaken(Exec(INITIAL, events).value);
  }

  lemma SentIsInOrTaken(s: State)
    requires AllHeld(s) && Attended(s)
    ensures forall d: nat, k :: SentOn(s, d, k) ==> Buffer(s, k) == [d] || k in s.taken
  {
    forall d: nat, k | SentOn(s, d, k) ensures Buffer(s, k) == [d] || k in s.taken {
      assert Held(s, k);
    }
  }
}
