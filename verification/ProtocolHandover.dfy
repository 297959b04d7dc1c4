/** That a message reaching a parked handler is handed over: from every state what reaching a place does, in every
    run who enters it, and from every state with a parked receiver the way of a message into the handler's hands. */
module ProtocolHandover {
  import opened Wrappers
  import opened Sockets
  import opened Protocol
  import ProtocolMoves
  import opened ProtocolDelivery
  import opened ProtocolStreams
  import opened ProtocolLetters
  import opened ProtocolOwnership
  import opened ProtocolWays

  /** A receiver is registered under this ID at this place. */
  predicate StandsAt(s: State, id: string, p: Place) {
    id in s.socket.receivers && s.socket.receivers[id].at == Some(p)
  }

  /** Code of a context runs, its message is there, and the place is ahead of it. */
  predicate CanReach(s: State, c: nat, p: Place) {
    && c in s.contexts && s.contexts[c].phase == Running && s.contexts[c].hasMessage
    && match s.contexts[c].cursor
       case At(node, index) => node < p.node || (node == p.node && index <= p.index)
       case Past => false
  }

  /** The context's message has an ID, the context no channel of its own, and a receiver for the ID stands at the
      place. */
  predicate MeantFor(s: State, c: nat, p: Place)
    requires c in s.contexts
  {
    var x := s.contexts[c];
    x.id.Some? && x.channel.None? && StandsAt(s, x.id.value, p)
  }

  /** Reaching a place is always possible for what is ahead, and stops before the handler, aimed at its receiver,
      exactly if one stands there under the message's ID; otherwise the handler is entered. The registry is left
      alone so far. */
  lemma ReachStopsAtReceiver(s: State, c: nat, p: Place)
    requires CanReach(s, c, p)
    ensures var next, x := Step(s, By(c, Chain(Reach(p)))), s.contexts[c];
            && next.Some? && next.value.socket == s.socket && next.value.buffers == s.buffers
            && c in next.value.contexts
            && var y := next.value.contexts[c];
               && next.value.contexts == s.contexts[c := y]
               && if MeantFor(s, c, p)
                  then y == x.(cursor := At(p.node, p.index),
                      phase := Phase.Found(s.socket.receivers[x.id.value].channel))
                  else y == x.(cursor := At(p.node, p.index + 1), entered := x.entered + [p])
  {}

  /** Nothing is reached behind the cursor, by code that does not run, or without a message. */
  lemma ReachesOnlyAhead(s: State, c: nat, p: Place)
    requires Step(s, By(c, Chain(Reach(p)))).Some?
    ensures CanReach(s, c, p)
  {}

  /** In every run: whoever enters a place does so with no receiver standing there under the ID it listens for. */
  lemma NobodyPassesItsReceiver(events: seq<Event>, e: Event, c: nat)
    requires Exec(INITIAL, events).Some? && c in Exec(INITIAL, events).value.contexts
    requires Step(Exec(INITIAL, events).value, e).Some?
    ensures var s := Exec(INITIAL, events).value;
            var t := Step(s, e).value;
            && c in t.contexts
            && (t.contexts[c].entered == s.contexts[c].entered
                || exists p :: t.contexts[c].entered == s.contexts[c].entered + [p] && !MeantFor(s, c, p))
  {
    StepPassesNoReceiver(Exec(INITIAL, events).value, e, c);
  }

  lemma StepPassesNoReceiver(s: State, e: Event, c: nat)
    requires Step(s, e).Some? && c in s.contexts
    ensures var t := Step(s, e).value;
            && c in t.contexts
            && (t.contexts[c].entered == s.contexts[c].entered
                || exists p :: t.contexts[c].entered == s.contexts[c].entered + [p] && !MeantFor(s, c, p))
  {
    match e
    case Arrive(_, _) =>
    case On(act) => ProtocolMoves.SocketKeepsContexts(s, act);
    case By(d, a) =>
      if d == c {
        if a.Chain? && a.chain.Reach? {
          ReachesOnlyAhead(s, c, a.chain.place);
          ReachStopsAtReceiver(s, c, a.chain.place);
        } else {
          OthersEnterNothing(s, a, c);
        }
      }
  }

  lemma OthersEnterNothing(s: State, a: Action, c: nat)
    requires c in s.contexts && ContextStep(s, a, c).Some? && !(a.Chain? && a.chain.Reach?)
    ensures ContextStep(s, a, c).value.context.entered == s.contexts[c].entered
  {
    match a
    case Locking(a') => ProtocolMoves.LockingOnly(s, a', c);
    case Chain(_) =>
    case Receiving(a') => ReceivingStaysPut(s, a', c);
    case Leaving(a') => ProtocolMoves.LeavingOnly(s, a', c);
  }

  // ---- From the sender into the handler's hands

  /** The handler that waits at the place, and the message on its way to it. */
  ghost predicate OnItsWay(s: State, h: nat, r: nat, p: Place) {
    && CanReach(s, h, p) && MeantFor(s, h, p)
    && var entry := s.socket.receivers[s.contexts[h].id.value];
       r == entry.channel.owner && r in s.contexts && s.contexts[r].phase.Parked?
  }

  /** What the four steps leave: the message has left its context and the registry its receiver, and the handler has
      it. */
  function HandedOver(s: State, h: nat, r: nat, p: Place): State
    requires h in s.contexts && r in s.contexts && s.contexts[h].id.Some? && s.contexts[r].channel.Some?
  {
    var x, y, k := s.contexts[h], s.contexts[r], s.contexts[r].channel.value;
    var sender := x.(cursor := At(p.node, p.index), hasMessage := false, sentOn := Some(k), phase := Running);
    var handler := if x.data == "" then y.(phase := Registering)
        else y.(obtained := y.obtained + [x.data], phase := Running);
    s.(contexts := s.contexts[h := sender][r := handler],
       socket := s.socket.(receivers := s.socket.receivers - {x.id.value}),
       buffers := s.buffers[k := []], taken := s.taken[k := h])
  }

  function AtPlace(s: State, h: nat, p: Place, k: ReceiverChannel): State
    requires h in s.contexts
  {
    s.(contexts := s.contexts[h := s.contexts[h].(cursor := At(p.node, p.index), phase := Phase.Found(k))])
  }

  function Removed(s: State, h: nat, id: string, k: ReceiverChannel): State
    requires h in s.contexts
  {
    s.(contexts := s.contexts[h := s.contexts[h].(phase := Sending(k))],
       socket := s.socket.(receivers := s.socket.receivers - {id}))
  }

  function Sent(s: State, h: nat, k: ReceiverChannel): State
    requires h in s.contexts
  {
    s.(contexts := s.contexts[h := s.contexts[h].(hasMessage := false, sentOn := Some(k), phase := Running)],
       buffers := s.buffers[k := [h]])
  }

  lemma Removing(s: State, h: nat, id: string, k: ReceiverChannel)
    requires h in s.contexts && s.contexts[h].phase == Phase.Found(k) && s.contexts[h].id == Some(id)
    ensures Step(s, By(h, Chain(Remove))) == Some(Removed(s, h, id, k))
  {}

  /** The way of the sender, to any receiver that stands at the place, as long as its channel is open and has room. */
  lemma SenderSends(s: State, h: nat, p: Place, id: string, k: ReceiverChannel)
    requires CanReach(s, h, p) && MeantFor(s, h, p) && s.contexts[h].id == Some(id)
    requires s.socket.receivers[id].channel == k
    requires k !in s.socket.closedReceivers && (k in s.buffers ==> s.buffers[k] == [])
    ensures var t1 := AtPlace(s, h, p, k);
            var t2 := Removed(t1, h, id, k);
            && Step(s, By(h, Chain(Reach(p)))) == Some(t1) && Step(t1, By(h, Chain(Remove))) == Some(t2)
            && Step(t2, By(h, Chain(Send))) == Some(Sent(t2, h, k))
  {
    var t1 := AtPlace(s, h, p, k);
    ReachStopsAtReceiver(s, h, p);
    ReachChangesContext(s, h, p);
    Removing(t1, h, id, k);
    SendingEnds(Removed(t1, h, id, k), h, k);
  }

  /** From every owned state with a parked receiver and its ID's message on the way before its place: reaching the
      place, removing the receiver, sending and taking are possible in turn, and give the handler the message's data;
      an empty message it does not obtain, and waits again. */
  lemma ParkedHandlerIsHanded(s: State, h: nat, r: nat, p: Place)
    requires Owned(s) && OnItsWay(s, h, r, p)
    ensures s.contexts[r].channel.Some?
    ensures Exec(s, [By(h, Chain(Reach(p))), By(h, Chain(Remove)), By(h, Chain(Send)), By(r, Receiving(Take))])
            == Some(HandedOver(s, h, r, p))
  {
    var id := s.contexts[h].id.value;
    var k := s.socket.receivers[id].channel;
    assert AwaitedOn(s, k, Some(id)) && r != h;
    var t1 := AtPlace(s, h, p, k);
    var t2 := Removed(t1, h, id, k);
    var t3 := Sent(t2, h, k);
    SenderSends(s, h, p, id, k);
    TakingFrom(t3, r, h, k);
    HandedOverIs(s, h, r, p, k);
    FourSteps(s, By(h, Chain(Reach(p))), t1, By(h, Chain(Remove)), t2, By(h, Chain(Send)), t3, By(r, Receiving(Take)),
              HandedOver(s, h, r, p));
  }

  lemma HandedOverIs(s: State, h: nat, r: nat, p: Place, k: ReceiverChannel)
    requires h in s.contexts && r in s.contexts && r != h && s.contexts[h].id.Some? && s.contexts[r].channel == Some(k)
    ensures var t := Sent(Removed(AtPlace(s, h, p, k), h, s.contexts[h].id.value, k), h, k);
            var y, data := t.contexts[r], t.contexts[h].data;
            var z := if data == "" then y.(phase := Registering)
                     else y.(obtained := y.obtained + [data], phase := Running);
            t.(contexts := t.contexts[r := z], buffers := t.buffers[k := []], taken := t.taken[k := h])
            == HandedOver(s, h, r, p)
  {}

  lemma ReachChangesContext(s: State, c: nat, p: Place)
    requires CanReach(s, c, p)
    ensures var t := Step(s, By(c, Chain(Reach(p)))).value; t == s.(contexts := t.contexts)
  {}
}
