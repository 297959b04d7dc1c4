/** The context as the program keeps it: a saved node, a saved handler index, a cached match, a message that
    may be gone. `Next` walks the list with these and is proved to do what `Chain.Next` says. */
module Contexts {
  import opened Wrappers
  import opened Chain

  /** `hasSetPath` asks the next call of Next to match the current node again. */
  datatype InboundMessage = InboundMessage(hasSetID: bool, hasSetPath: bool, id: string, path: string)

  ghost function Seen(message: Option<InboundMessage>): Option<Message> {
    if message.None? then None else Some(Message(message.value.hasSetID, message.value.id, message.value.path))
  }

  /** The slots not passed yet, from a saved node and index. */
  ghost function Rest(node: seq<Node>, index: nat): seq<Slot>
    requires |node| > 0 ==> index <= |node[0].handlers|
  {
    if |node| == 0 then [] else NodeSlots(node[0], index) + Slots(node[1..])
  }

  lemma {:induction false} SkipPast(a: seq<Slot>, b: seq<Slot>, path: string)
    requires forall s | s in a :: !Matches(s.pattern, path)
    ensures Skip(a + b, path) == Skip(b, path)
  {
    if |a| == 0 {
      assert a + b == b;
    } else {
      assert a[0] in a && (a + b)[1..] == a[1..] + b;
      SkipPast(a[1..], b, path);
    }
  }

  lemma {:induction false} NodeSlotsOf(node: Node, from: nat)
    requires from <= |node.handlers|
    ensures forall s | s in NodeSlots(node, from) :: s.pattern == node.pattern
    decreases |node.handlers| - from
  {
    if from < |node.handlers| { NodeSlotsOf(node, from + 1); }
  }

  /** A node that does not match can be left out of the walk as a whole. */
  lemma {:induction false} SkipNode(node: seq<Node>, index: nat, path: string)
    requires |node| > 0 && index <= |node[0].handlers| && !Matches(node[0].pattern, path)
    ensures Skip(Rest(node, index), path) == Skip(Rest(node[1..], 0), path)
  {
    NodeSlotsOf(node[0], index);
    SkipPast(NodeSlots(node[0], index), Slots(node[1..]), path);
  }

  /** A node with no handler left adds nothing. */
  lemma {:induction false} LeaveNode(node: seq<Node>)
    requires |node| > 0
    ensures Rest(node, |node[0].handlers|) == Rest(node[1..], 0)
  {
    assert NodeSlots(node[0], |node[0].handlers|) == [];
  }

  /** A matching node with a handler left is where the walk stops. */
  lemma {:induction false} StopAt(node: seq<Node>, index: nat, path: string)
    requires |node| > 0 && index < |node[0].handlers| && Matches(node[0].pattern, path)
    ensures var rest := Rest(node, index);
            && Skip(rest, path) == rest
            && rest[0] == Slot(Position(node[0].ref, index), node[0].bindType, node[0].pattern, node[0].handlers[index])
            && rest[1..] == Rest(node, index + 1)
  {
    var slot := Slot(Position(node[0].ref, index), node[0].bindType, node[0].pattern, node[0].handlers[index]);
    AppendFirst(slot, NodeSlots(node[0], index + 1), Slots(node[1..]));
  }

  lemma {:induction false} AppendFirst(slot: Slot, a: seq<Slot>, b: seq<Slot>)
    ensures ([slot] + a) + b == [slot] + (a + b) && ([slot] + (a + b))[1..] == a + b
  {}

  lemma {:induction false} NextWhenGated(v: View, w: World)
    requires Gated(v, w)
    ensures Chain.Next(v, w) == Outcome(v, w, false)
  {}

  lemma {:induction false} NextWhenHandedOver(v: View, w: World)
    requires !Gated(v, w) && v.message.None?
    ensures Chain.Next(v, w) == Outcome(v, w, true)
  {}

  /** `Chain.Next` from the moment the walk has stopped. */
  ghost function Arrived(v: View, w: World): Outcome
    requires v.message.Some?
  {
    if |v.slots| == 0 then Outcome(v.(beyondEnd := true), WithoutReceiver(v, w), false)
    else if HandsOver(v, w, v.slots[0].at) then Outcome(v.(message := None), WithoutReceiver(v, w), false)
    else Chain.Dispatch(v, w)
  }

  lemma {:induction false} NextArrives(v: View, w: World, at: View)
    requires !Gated(v, w) && v.message.Some?
    requires at == v.(slots := Skip(v.slots, v.message.value.path), current := at.current)
    requires at.current == if |at.slots| == 0 then None else Some(at.slots[0].bindType)
    ensures Chain.Next(v, w) == Arrived(at, w)
  {}

  /** The part of a socket that its chains look at. */
  class SocketView {
    var closed: bool
    var receivers: map<string, Position>
    ghost var trace: seq<Entry>

    ghost function Seen(): World
      reads this
    {
      World(closed, receivers, trace)
    }
  }

  class Context {
    const parentContext: Context?
    const socket: SocketView

    var currentHandlerNode: seq<Node>   // the list from the node on, empty for nil
    var currentHandlerNodeMatches: bool
    var currentHandlerIndex: nat
    var currentHandler: Option<Handler>
    var message: Option<InboundMessage>
    var params: Params
    var error: bool
    var nextBeyondEnd: bool
    var receiverOpen: bool
    var ownsReceiver: bool

    ghost function Parents(): set<Context> {
      if parentContext == null then {} else {parentContext}
    }

    ghost predicate Valid()
      reads this
    {
      && parentContext != this
      && (!currentHandlerNodeMatches ==> currentHandlerIndex == 0 && currentHandler.None?)
      && (|currentHandlerNode| == 0 ==> !currentHandlerNodeMatches)
      && (currentHandlerNodeMatches ==> currentHandlerIndex <= |currentHandlerNode[0].handlers|)
      && (currentHandlerNodeMatches && message.Some? && !message.value.hasSetPath && currentHandlerNode[0].pattern.Some?
          ==> Captures(currentHandlerNode[0].pattern.value, message.value.path) == Some(params))
    }

    /** The slots ahead of the cursor. */
    ghost function Ahead(): seq<Slot>
      requires Valid()
      reads this
    {
      Rest(currentHandlerNode, currentHandlerIndex)
    }

    ghost function View(): Chain.View
      requires Valid()
      reads this
    {
      Chain.View(Ahead(),
                 if |currentHandlerNode| == 0 then None else Some(currentHandlerNode[0].bindType),
                 Seen(message), error, nextBeyondEnd, receiverOpen, ownsReceiver)
    }

    /** A context for an inbound message at the start of a list. */
    constructor (socket: SocketView, message: InboundMessage, firstHandlerNode: seq<Node>)
      ensures Valid() && parentContext == null && this.socket == socket
      ensures View() == Chain.View(Slots(firstHandlerNode),
                                   if |firstHandlerNode| == 0 then None else Some(firstHandlerNode[0].bindType),
                                   Seen(Some(message)), false, false, false, false)
    {
      parentContext, this.socket := null, socket;
      currentHandlerNode, currentHandlerNodeMatches, currentHandlerIndex, currentHandler := firstHandlerNode, false, 0,
          None;
      this.message, params, error, nextBeyondEnd := Some(message), map[], false, false;
      receiverOpen, ownsReceiver := false, false;
    }

    /** A context for a mounted router, with its own copy of the parent's message and parameters; its receiver is
        shared. */
    constructor Sub(parent: Context, firstHandlerNode: seq<Node>)
      requires parent.Valid() && parent.message.Some?
      ensures Valid() && parentContext == parent && socket == parent.socket
      ensures View() == SubView(parent.View(), firstHandlerNode)
      ensures message == parent.message && params == parent.params && error == parent.error
      ensures receiverOpen == parent.receiverOpen && !ownsReceiver && !nextBeyondEnd
      ensures currentHandlerNode == firstHandlerNode && currentHandlerIndex == 0 && !currentHandlerNodeMatches
    {
      parentContext, socket := parent, parent.socket;
      currentHandlerNode, currentHandlerNodeMatches, currentHandlerIndex, currentHandler := firstHandlerNode, false, 0,
          None;
      message, params, error, nextBeyondEnd := parent.message, parent.params, parent.error, false;
      receiverOpen, ownsReceiver := parent.receiverOpen, false;
    }

    /** Matches the current path against the current node, keeping the captures on success only. */
    method TryMatch() returns (matched: bool)
      requires |currentHandlerNode| > 0 && message.Some?
      modifies this`params
      ensures matched == Matches(currentHandlerNode[0].pattern, message.value.path)
      ensures matched && currentHandlerNode[0].pattern.Some?
              ==> Captures(currentHandlerNode[0].pattern.value, message.value.path) == Some(params)
      ensures !matched ==> params == old(params)
    {
      if currentHandlerNode[0].pattern.None? { return true; }
      match Captures(currentHandlerNode[0].pattern.value, message.value.path)
      case None => matched := false;
      case Some(captures) => params, matched := captures, true;
    }

    method LeaveCurrentNode()
      requires |currentHandlerNode| > 0
      modifies this`currentHandlerNode, this`currentHandlerNodeMatches, this`currentHandlerIndex, this`currentHandler
      ensures currentHandlerNode == old(currentHandlerNode)[1..]
      ensures !currentHandlerNodeMatches && currentHandlerIndex == 0 && currentHandler.None?
    {
      currentHandlerNode := currentHandlerNode[1..];
      currentHandlerNodeMatches, currentHandlerIndex, currentHandler := false, 0, None;
    }

    /** If the path was set, the cached match counts only if it still holds. */
    method Recheck()
      requires Valid() && message.Some?
      modifies this`currentHandlerNode, this`currentHandlerNodeMatches, this`currentHandlerIndex, this`currentHandler,
               this`params, this`message
      ensures Valid() && message == Some(old(message.value).(hasSetPath := false))
      ensures Skip(Ahead(), message.value.path) == Skip(old(Ahead()), message.value.path)
    {
      if message.value.hasSetPath {
        if currentHandlerNodeMatches {
          var still := TryMatch();
          if !still {
            SkipNode(currentHandlerNode, currentHandlerIndex, message.value.path);
            LeaveCurrentNode();
          }
        }
        message := Some(message.value.(hasSetPath := false));
      }
    }

    /** Moves on to the next node that matches, unless the current one already does. */
    method FindMatchingNode()
      requires Valid() && message.Some? && !message.value.hasSetPath && |currentHandlerNode| > 0
      modifies this`currentHandlerNode, this`currentHandlerNodeMatches, this`params
      ensures Valid() && (currentHandlerNodeMatches || |currentHandlerNode| == 0)
      ensures |currentHandlerNode| <= old(|currentHandlerNode|)
      ensures Skip(Ahead(), message.value.path) == Skip(old(Ahead()), message.value.path)
    {
      ghost var all := Skip(Ahead(), message.value.path);
      while !currentHandlerNodeMatches && |currentHandlerNode| > 0
        invariant Valid() && |currentHandlerNode| <= old(|currentHandlerNode|)
        invariant Skip(Ahead(), message.value.path) == all
        decreases !currentHandlerNodeMatches, |currentHandlerNode|
      {
        var matched := TryMatch();
        if matched {
          currentHandlerNodeMatches := true;
        } else {
          SkipNode(currentHandlerNode, 0, message.value.path);
          currentHandlerNode := currentHandlerNode[1..];
        }
      }
    }

    /** Walks to the next handler of a matching node; stands before it, or at the end of the list. */
    method Walk()
      requires Valid() && message.Some? && !message.value.hasSetPath
      modifies this`currentHandlerNode, this`currentHandlerNodeMatches, this`currentHandlerIndex, this`currentHandler,
          this`params
      ensures Valid()
      ensures Ahead() == Skip(old(Ahead()), message.value.path)
      ensures |currentHandlerNode| > 0 ==>
              currentHandlerNodeMatches && currentHandlerIndex < |currentHandlerNode[0].handlers|
              && Matches(currentHandlerNode[0].pattern, message.value.path)
    {
      while |currentHandlerNode| > 0
        invariant Valid()
        invariant Skip(Ahead(), message.value.path) == Skip(old(Ahead()), message.value.path)
        decreases |currentHandlerNode|
      {
        FindMatchingNode();
        if !currentHandlerNodeMatches { break; }
        if currentHandlerIndex < |currentHandlerNode[0].handlers| {
          StopAt(currentHandlerNode, currentHandlerIndex, message.value.path);
          return;
        }
        LeaveNode(currentHandlerNode);
        LeaveCurrentNode();
      }
    }

    /** Whether the receiver registered under the message's ID waits at exactly this handler. */
    predicate ReceiverHere()
      requires |currentHandlerNode| > 0 && message.Some?
      reads this, socket
    {
      message.value.hasSetID && !receiverOpen && message.value.id in socket.receivers
      && socket.receivers[message.value.id] == Position(currentHandlerNode[0].ref, currentHandlerIndex)
    }

    method RemoveReceiver()
      requires Valid() && message.Some?
      modifies socket
      ensures socket.Seen() == WithoutReceiver(View(), old(socket.Seen()))
      ensures socket.receivers == if message.value.hasSetID && !receiverOpen
                                  then old(socket.receivers) - {message.value.id} else old(socket.receivers)
    {
      if message.value.hasSetID && !receiverOpen {
        socket.receivers := socket.receivers - {message.value.id};
      }
    }

    /** At the end of the list an unmatched receiver of this ID is dropped. */
    method ReachEnd()
      requires Valid() && message.Some?
      modifies this`nextBeyondEnd, socket
      ensures Valid() && View() == old(View()).(beyondEnd := true)
      ensures socket.Seen() == WithoutReceiver(old(View()), old(socket.Seen()))
      ensures socket.receivers == if message.value.hasSetID && !receiverOpen
                                  then old(socket.receivers) - {message.value.id} else old(socket.receivers)
    {
      RemoveReceiver();
      nextBeyondEnd := true;
    }

    /** The message goes to the waiting receiver and is no longer this context's. */
    method HandOver()
      requires Valid() && message.Some?
      modifies this`message, socket
      ensures Valid() && View() == old(View()).(message := None)
      ensures socket.Seen() == WithoutReceiver(old(View()), old(socket.Seen()))
      ensures message == None
      ensures old(message.value.hasSetID) && !receiverOpen ==>
                socket.receivers == old(socket.receivers) - {old(message.value.id)}
    {
      RemoveReceiver();
      message := None;
    }

    /** Continues the chain; true when it panicked on a message that was handed over. */
    method Next() returns (panicked: bool)
      requires Valid()
      modifies this, socket, Parents()`error
      ensures Valid()
      ensures var o := Chain.Next(old(View()), old(socket.Seen()));
              View() == o.view && socket.Seen() == o.world && panicked == o.panicked
      ensures parentContext != null ==> parentContext.error == error
      decreases Weight(Ahead()), 3, 2
    {
      panicked := Advance();
      if parentContext != null { parentContext.error := error; }
    }

    method Advance() returns (panicked: bool)
      requires Valid()
      modifies this, socket, Parents()`error
      ensures Valid()
      ensures var o := Chain.Next(old(View()), old(socket.Seen()));
              View() == o.view && socket.Seen() == o.world && panicked == o.panicked
      decreases Weight(Ahead()), 3, 1
    {
      ghost var v, w := View(), socket.Seen();
      var isCloseHandler := |currentHandlerNode| > 0 && currentHandlerNode[0].bindType == CloseBind;
      if !isCloseHandler && (error || socket.closed) {
        NextWhenGated(v, w);
        return false;
      }
      if message.None? {
        NextWhenHandedOver(v, w);
        return true;
      }
      Settle();
      NextArrives(v, w, View());
      panicked := Arrive();
    }

    /** Brings the cursor to where the current path takes it. */
    method Settle()
      requires Valid() && message.Some?
      modifies this`currentHandlerNode, this`currentHandlerNodeMatches, this`currentHandlerIndex, this`currentHandler,
               this`params, this`message
      ensures Valid() && message.Some? && !message.value.hasSetPath
      ensures View() == old(View()).(slots := Skip(old(Ahead()), old(message.value.path)), current := View().current)
      ensures View().current == if |Ahead()| == 0 then None else Some(Ahead()[0].bindType)
      ensures |currentHandlerNode| > 0 ==>
              currentHandlerNodeMatches && currentHandlerIndex < |currentHandlerNode[0].handlers|
              && Matches(currentHandlerNode[0].pattern, message.value.path)
    {
      Recheck();
      Walk();
      if |currentHandlerNode| > 0 { StopAt(currentHandlerNode, currentHandlerIndex, message.value.path); }
    }

    /** The cursor stands before a handler or at the end: nothing to do, hand over, or enter. */
    method Arrive() returns (panicked: bool)
      requires Valid() && message.Some? && !message.value.hasSetPath
      requires |currentHandlerNode| > 0 ==>
               currentHandlerNodeMatches && currentHandlerIndex < |currentHandlerNode[0].handlers|
               && Matches(currentHandlerNode[0].pattern, message.value.path)
      modifies this, socket, Parents()`error
      ensures Valid()
      ensures var o := Arrived(old(View()), old(socket.Seen()));
              View() == o.view && socket.Seen() == o.world && panicked == o.panicked
      decreases Weight(Ahead()), 3, 0
    {
      if |currentHandlerNode| == 0 {
        ReachEnd();
        return false;
      }
      StopAt(currentHandlerNode, currentHandlerIndex, message.value.path);
      if ReceiverHere() {
        HandOver();
        return false;
      }
      panicked := Dispatch();
    }

    /** Takes the handler the cursor stands before and moves the index past it. */
    method Select()
      requires Valid() && message.Some? && !message.value.hasSetPath
      requires |currentHandlerNode| > 0 && currentHandlerNodeMatches
      requires currentHandlerIndex < |currentHandlerNode[0].handlers|
      requires Matches(currentHandlerNode[0].pattern, message.value.path)
      modifies this`currentHandler, this`currentHandlerIndex
      ensures Valid() && |old(Ahead())| > 0 && Running(old(Ahead())[0])
      ensures View() == old(View()).(slots := old(Ahead())[1..])
    {
      StopAt(currentHandlerNode, currentHandlerIndex, message.value.path);
      currentHandler := Some(currentHandlerNode[0].handlers[currentHandlerIndex]);
      currentHandlerIndex := currentHandlerIndex + 1;
    }

    /** Enters the handler the cursor stands before, advances lifecycle chains, and leaves the list. */
    method Dispatch() returns (panicked: bool)
      requires Valid() && message.Some? && !message.value.hasSetPath
      requires |currentHandlerNode| > 0 && currentHandlerNodeMatches
      requires currentHandlerIndex < |currentHandlerNode[0].handlers|
      requires Matches(currentHandlerNode[0].pattern, message.value.path)
      modifies this, socket, Parents()`error
      ensures Valid()
      ensures var o := Chain.Dispatch(old(View()), old(socket.Seen()));
              View() == o.view && socket.Seen() == o.world && panicked == o.panicked
      decreases Weight(Ahead()), 2, 0
    {
      var bindType := currentHandlerNode[0].bindType;
      ghost var slot := Ahead()[0];
      Select();
      Execute(slot);
      panicked := Continue(bindType);
    }

    /** Open and close chains go on by themselves; then the list is left, so that Next does nothing more. */
    method Continue(bindType: BindType) returns (panicked: bool)
      requires Valid()
      modifies this, socket, Parents()`error
      ensures Valid()
      ensures var e := Outcome(old(View()), old(socket.Seen()), false);
              var o := if AutoAdvances(bindType, e.world) then Chain.Next(e.view, e.world) else e;
              View() == (if o.panicked then o.view else Left(o.view)) && socket.Seen() == o.world
                  && panicked == o.panicked
      decreases Weight(Ahead()), 3, 3
    {
      if (bindType == OpenBind && !socket.closed) || bindType == CloseBind {
        panicked := Next();
        if panicked { return; }
      }
      currentHandlerNode, currentHandlerNodeMatches, currentHandlerIndex, currentHandler := [], false, 0, None;
      return false;
    }

    ghost predicate Running(slot: Slot)
      requires Valid()
      reads this
    {
      && message.Some? && !message.value.hasSetPath && currentHandler == Some(slot.handler)
      && |currentHandlerNode| > 0 && currentHandlerNodeMatches
      && slot.bindType == currentHandlerNode[0].bindType && slot.pattern == currentHandlerNode[0].pattern
    }

    /** Notes that a handler function is entered; the captures are the ones kept from matching. */
    ghost method NoteEntry(tag: nat, slot: Slot)
      requires Valid() && Running(slot) && slot.handler.Func? && slot.handler.tag == tag
      modifies socket`trace
      ensures socket.Seen() == Record(slot, View(), old(socket.Seen()))
    {
      var node := currentHandlerNode[0];
      socket.trace := socket.trace + [Entry(tag, node.bindType, node.pattern, message.value.path,
                                            if node.pattern.Some? then Some(params) else None, socket.closed, error)];
    }

    /** Runs the current handler, turning a panic into the context's error. */
    method Execute(ghost slot: Slot)
      requires Valid() && Running(slot)
      modifies this, socket, Parents()`error
      ensures Valid()
      ensures var o := Chain.Enter(slot, old(View()), old(socket.Seen()));
              View() == o.view && socket.Seen() == o.world
      decreases HandlerWeight(slot.handler) + Weight(Ahead()), 1, 0
    {
      var panicked: bool;
      match currentHandler.value
      case Func(tag, program) =>
        NoteEntry(tag, slot);
        panicked := RunProgram(program);
        if panicked { error := true; }
      case Mount(chain) =>
        panicked := HandleRouter(chain);
        if panicked { error := true; }
    }

    /** A mounted router as a handler: its chain in a sub-context, then the rest of this one if it ran off the end. */
    method HandleRouter(chain: seq<Node>) returns (panicked: bool)
      requires Valid() && message.Some?
      modifies this, socket, Parents()`error
      ensures Valid()
      ensures var v, w := old(View()), old(socket.Seen());
              var s := Mounted(v, chain, w);
              var parent := v.(error := s.view.error);
              var o := if s.panicked || !s.view.beyondEnd then Outcome(parent, s.world, s.panicked)
                  else Chain.Next(parent, s.world);
              View() == o.view && socket.Seen() == o.world && panicked == o.panicked
      decreases HandlerWeight(Handler.Mount(chain)) + Weight(Ahead()), 0, 0
    {
      var beyondEnd;
      panicked, beyondEnd := RunSub(chain);
      if !panicked && beyondEnd {
        panicked := Next();
      }
    }

    /** The receiver a context made itself goes when the context ends. */
    method FinalizeContext()
      requires Valid()
      modifies socket`receivers
      ensures socket.Seen() == Finalized(View(), old(socket.Seen()))
      ensures socket.receivers == if receiverOpen && ownsReceiver && message.Some?
                                  then old(socket.receivers) - {message.value.id} else old(socket.receivers)
    {
      if receiverOpen && ownsReceiver && message.Some? {
        socket.receivers := socket.receivers - {message.value.id};
      }
    }

    /** Runs the chain of this context and finalizes it, unless it panicked. */
    method RunToEnd() returns (panicked: bool, beyondEnd: bool)
      requires Valid()
      modifies this, socket, Parents()`error
      ensures Valid()
      ensures var o := Chain.Next(old(View()), old(socket.Seen()));
              panicked == o.panicked && beyondEnd == o.view.beyondEnd && error == o.view.error
              && socket.Seen() == if o.panicked then o.world else Finalized(o.view, o.world)
      ensures parentContext != null ==> parentContext.error == error
      decreases Weight(Ahead()), 3, 4
    {
      panicked := Next();
      beyondEnd := nextBeyondEnd;
      if !panicked { FinalizeContext(); }
    }

    /** Runs a chain in a sub-context, whose error becomes this context's. */
    method RunSub(chain: seq<Node>) returns (panicked: bool, beyondEnd: bool)
      requires Valid() && message.Some?
      modifies this`error, socket
      ensures Valid()
      ensures var s := Mounted(old(View()), chain, old(socket.Seen()));
              View() == old(View()).(error := s.view.error) && socket.Seen() == s.world
              && panicked == s.panicked && beyondEnd == s.view.beyondEnd
      decreases NodesWeight(chain), 4, 0
    {
      SlotsWeight(chain);
      var sub := new Context.Sub(this, chain);
      panicked, beyondEnd := sub.RunToEnd();
    }

    method RunProgram(program: seq<Action>) returns (panicked: bool)
      requires Valid()
      modifies this, socket, Parents()`error
      ensures Valid()
      ensures var o := Chain.Run(program, old(View()), old(socket.Seen()));
              View() == o.view && socket.Seen() == o.world && panicked == o.panicked
      decreases Weight(Ahead()), 5 + |program|, 0
    {
      if |program| == 0 { return false; }
      panicked := Act(program[0]);
      if !panicked { panicked := RunProgram(program[1..]); }
    }

    method Act(a: Action) returns (panicked: bool)
      requires Valid()
      modifies this, socket, Parents()`error
      ensures Valid()
      ensures var o := Chain.Do(a, old(View()), old(socket.Seen()));
              View() == o.view && socket.Seen() == o.world && panicked == o.panicked
      decreases Weight(Ahead()), 4, 0
    {
      panicked := false;
      match a
      case CallNext => panicked := Next();
      case SetPath(path) =>
        if message.None? { return true; }
        message := Some(message.value.(path := path, hasSetPath := true));
      case SetID(id) =>
        if message.None? { return true; }
        message := Some(message.value.(id := id, hasSetID := true));
      case SetError => error := true;
      case Panic => return true;
      case CloseSocket => if !socket.closed { socket.closed, socket.receivers := true, map[]; }
      case OpenReceiver => receiverOpen, ownsReceiver := true, true;
      case Interfere(receivers) => socket.receivers := receivers;
    }
  }
}
