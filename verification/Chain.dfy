/** What running a handler chain means, without cursors or cached flags.

    A context is seen as the list of handler slots it has not passed yet. `Next`
    drops the slots whose node does not match the current path, enters the first
    that does, and leaves nothing behind once that handler has returned. The class
    in `Contexts` walks a linked list with a saved node, a saved index and a saved
    match flag; its `Next` is proved to do exactly what is defined here. */
module Chain {
  import opened Wrappers

  /** A compiled pattern, seen as what matching a path against it returns. */
  type Matcher = string -> Option<Params>

  datatype BindType = NormalBind | OpenBind | CloseBind

  /** What a handler can do to its own context or to the socket. A handler is the finite
      list of things it does in one run; `Interfere` is what other goroutines did to the
      receiver registry meanwhile. */
  datatype Action =
    | CallNext
    | SetPath(path: string)
    | SetID(id: string)
    | SetError
    | Panic
    | CloseSocket
    | OpenReceiver
    | Interfere(receivers: map<string, Position>)

  /** A handler function, or a mounted router given by its list for the node's bind type. */
  datatype Handler =
    | Func(tag: nat, program: seq<Action>)
    | Mount(chain: seq<Node>)

  /** `ref` is the node's address, by which receivers refer to it. */
  datatype Node = Node(ref: nat, bindType: BindType, pattern: Option<Matcher>, handlers: seq<Handler>)

  datatype Position = Position(ref: nat, index: nat)

  datatype Slot = Slot(at: Position, bindType: BindType, pattern: Option<Matcher>, handler: Handler)

  datatype Message = Message(hasSetID: bool, id: string, path: string)

  /** `current` is the bind type of the node the cursor is on; a sub-context shares its parent's receiver unowned. */
  datatype View = View(
    slots: seq<Slot>,
    current: Option<BindType>,
    message: Option<Message>,
    error: bool,
    beyondEnd: bool,
    receiverOpen: bool,
    ownsReceiver: bool)

  /** One handler function entered: under which path, with which captures, in which state. */
  datatype Entry = Entry(
    tag: nat,
    bindType: BindType,
    pattern: Option<Matcher>,
    path: string,
    params: Option<Params>,
    closed: bool,
    error: bool)

  datatype World = World(closed: bool, receivers: map<string, Position>, trace: seq<Entry>)

  datatype Outcome = Outcome(view: View, world: World, panicked: bool)

  // ---- The slots of a list of nodes, and a size that every entered handler uses up

  function NodeSlots(node: Node, from: nat): (slots: seq<Slot>)
    requires from <= |node.handlers|
    decreases |node.handlers| - from
  {
    if from == |node.handlers| then []
    else [Slot(Position(node.ref, from), node.bindType, node.pattern, node.handlers[from])] + NodeSlots(node, from + 1)
  }

  function Slots(nodes: seq<Node>): (slots: seq<Slot>) {
    if |nodes| == 0 then [] else NodeSlots(nodes[0], 0) + Slots(nodes[1..])
  }

  ghost function HandlerWeight(h: Handler): (weight: nat)
    ensures weight > 0
    decreases h, 0
  {
    match h
    case Func(_, _) => 1
    case Mount(chain) => 1 + NodesWeight(chain)
  }

  ghost function HandlersWeight(hs: seq<Handler>): nat
    decreases hs, 0
  {
    if |hs| == 0 then 0 else HandlerWeight(hs[0]) + HandlersWeight(hs[1..])
  }

  ghost function NodesWeight(nodes: seq<Node>): nat
    decreases nodes, 0
  {
    if |nodes| == 0 then 0 else HandlersWeight(nodes[0].handlers) + NodesWeight(nodes[1..])
  }

  ghost function Weight(slots: seq<Slot>): nat {
    if |slots| == 0 then 0 else HandlerWeight(slots[0].handler) + Weight(slots[1..])
  }

  lemma {:induction false} WeightAppend(a: seq<Slot>, b: seq<Slot>)
    ensures Weight(a + b) == Weight(a) + Weight(b)
  {
    if |a| == 0 {
      assert a + b == b;
    } else {
      assert (a + b)[1..] == a[1..] + b;
      WeightAppend(a[1..], b);
    }
  }

  lemma {:induction false} NodeSlotsWeight(node: Node, from: nat)
    requires from <= |node.handlers|
    ensures Weight(NodeSlots(node, from)) == HandlersWeight(node.handlers[from..])
    decreases |node.handlers| - from
  {
    if from < |node.handlers| {
      assert node.handlers[from..][1..] == node.handlers[from + 1..];
      NodeSlotsWeight(node, from + 1);
    }
  }

  lemma {:induction false} SlotsWeight(nodes: seq<Node>)
    ensures Weight(Slots(nodes)) == NodesWeight(nodes)
  {
    if |nodes| > 0 {
      NodeSlotsWeight(nodes[0], 0);
      assert nodes[0].handlers[0..] == nodes[0].handlers;
      SlotsWeight(nodes[1..]);
      WeightAppend(NodeSlots(nodes[0], 0), Slots(nodes[1..]));
    }
  }

  // ---- Next

  /** Errors and a closed socket stop every chain but the close chain. */
  predicate Gated(v: View, w: World) {
    v.current != Some(CloseBind) && (v.error || w.closed)
  }

  function Captures(matcher: Matcher, path: string): Option<Params> { matcher(path) }

  predicate Matches(pattern: Option<Matcher>, path: string) {
    pattern.None? || Captures(pattern.value, path).Some?
  }

  /** The slots from the first one on whose node matches the path. */
  function Skip(slots: seq<Slot>, path: string): (rest: seq<Slot>)
    ensures |rest| > 0 ==> Matches(rest[0].pattern, path)
    ensures Weight(rest) <= Weight(slots)
  {
    if |slots| == 0 || Matches(slots[0].pattern, path) then slots else Skip(slots[1..], path)
  }

  lemma {:induction false} SkipDropsRejected(slots: seq<Slot>, path: string)
    ensures var rest := Skip(slots, path);
            && |rest| <= |slots| && rest == slots[|slots| - |rest|..]
            && forall i :: 0 <= i < |slots| - |rest| ==> !Matches(slots[i].pattern, path)
  {
    if |slots| > 0 && !Matches(slots[0].pattern, path) {
      SkipDropsRejected(slots[1..], path);
      OneMoreRejected(slots, Skip(slots[1..], path), path);
    }
  }

  lemma {:induction false} OneMoreRejected(slots: seq<Slot>, rest: seq<Slot>, path: string)
    requires |slots| > 0 && !Matches(slots[0].pattern, path)
    requires |rest| < |slots| && rest == slots[1..][|slots| - 1 - |rest|..]
    requires forall i :: 0 <= i < |slots| - 1 - |rest| ==> !Matches(slots[1..][i].pattern, path)
    ensures rest == slots[|slots| - |rest|..] && forall i :: 0 <= i < |slots| - |rest| ==>
              !Matches(slots[i].pattern, path)
  {
    forall i | 0 <= i < |slots| - |rest| ensures !Matches(slots[i].pattern, path) {
      if i > 0 { assert slots[i] == slots[1..][i - 1]; }
    }
  }

  /** Only a message with an explicit ID, on a context that never waited itself, can be handed over. */
  predicate Listening(v: View) {
    v.message.Some? && v.message.value.hasSetID && !v.receiverOpen
  }

  predicate HandsOver(v: View, w: World, at: Position) {
    Listening(v) && v.message.value.id in w.receivers && w.receivers[v.message.value.id] == at
  }

  function WithoutReceiver(v: View, w: World): World {
    if Listening(v) then w.(receivers := w.receivers - {v.message.value.id}) else w
  }

  /** The context of a mounted router: a copy of the message, its own place, nothing entered. */
  function SubView(v: View, chain: seq<Node>): View {
    View(Slots(chain), if |chain| == 0 then None else Some(chain[0].bindType), v.message, v.error, false,
         v.receiverOpen, false)
  }

  function Record(slot: Slot, v: View, w: World): World
    requires v.message.Some? && slot.handler.Func?
  {
    var path := v.message.value.path;
    var params := if slot.pattern.Some? then Captures(slot.pattern.value, path) else None;
    w.(trace := w.trace + [Entry(slot.handler.tag, slot.bindType, slot.pattern, path, params, w.closed, v.error)])
  }

  /** A panic of the handler is recovered into the context's error. */
  function Recovered(o: Outcome): Outcome {
    if o.panicked then Outcome(o.view.(error := true), o.world, false) else o
  }

  function Left(v: View): View {
    v.(slots := [], current := None)
  }

  predicate AutoAdvances(bindType: BindType, w: World) {
    bindType == CloseBind || (bindType == OpenBind && !w.closed)
  }

  /** A context that opened a receiver removes what stands under its ID when it ends. */
  function Finalized(v: View, w: World): World {
    if !v.receiverOpen || !v.ownsReceiver || v.message.None? then w
    else w.(receivers := w.receivers - {v.message.value.id})
  }

  /** The first call of Close closes the receivers and forgets them. */
  function AfterClose(w: World): World {
    if w.closed then w else w.(closed := true, receivers := map[])
  }

  ghost function Next(v: View, w: World): (o: Outcome)
    ensures Weight(o.view.slots) <= Weight(v.slots)
    decreases Weight(v.slots), 3
  {
    if Gated(v, w) then Outcome(v, w, false)
    else if v.message.None? then Outcome(v, w, true)
    else
      var slots := Skip(v.slots, v.message.value.path);
      if |slots| == 0 then Outcome(Left(v).(beyondEnd := true), WithoutReceiver(v, w), false)
      else
        var at := v.(slots := slots, current := Some(slots[0].bindType));
        if HandsOver(v, w, slots[0].at) then Outcome(at.(message := None), WithoutReceiver(v, w), false)
        else Dispatch(at, w)
  }

  /** Enters the first slot, advances lifecycle chains on its own, and leaves nothing ahead. */
  ghost function Dispatch(v: View, w: World): (o: Outcome)
    requires v.message.Some? && |v.slots| > 0
    ensures Weight(o.view.slots) <= Weight(v.slots)
    decreases Weight(v.slots), 2
  {
    var e := Enter(v.slots[0], v.(slots := v.slots[1..]), w);
    var o := if AutoAdvances(v.slots[0].bindType, e.world) then Next(e.view, e.world) else e;
    if o.panicked then o else o.(view := Left(o.view))
  }

  /** Runs one handler, with its own panics recovered. */
  ghost function Enter(slot: Slot, v: View, w: World): (o: Outcome)
    requires v.message.Some?
    ensures !o.panicked && Weight(o.view.slots) <= Weight(v.slots)
    decreases HandlerWeight(slot.handler) + Weight(v.slots), 1
  {
    match slot.handler
    case Func(_, program) => Recovered(Run(program, v, Record(slot, v, w)))
    case Mount(chain) =>
      var s := Mounted(v, chain, w);
      var parent := v.(error := s.view.error);
      Recovered(if s.panicked || !s.view.beyondEnd then Outcome(parent, s.world, s.panicked) else Next(parent, s.world))
  }

  /** The chain of a mounted router, run in a sub-context that is finalized when it returns. */
  ghost function Mounted(v: View, chain: seq<Node>, w: World): (s: Outcome)
    requires v.message.Some?
    decreases NodesWeight(chain), 4
  {
    SlotsWeight(chain);
    var s := Next(SubView(v, chain), w);
    if s.panicked then s else s.(world := Finalized(s.view, s.world))
  }

  ghost function Run(program: seq<Action>, v: View, w: World): (o: Outcome)
    ensures Weight(o.view.slots) <= Weight(v.slots)
    decreases Weight(v.slots), 5 + |program|
  {
    if |program| == 0 then Outcome(v, w, false)
    else
      var o := Do(program[0], v, w);
      if o.panicked then o else Run(program[1..], o.view, o.world)
  }

  ghost function Do(a: Action, v: View, w: World): (o: Outcome)
    ensures Weight(o.view.slots) <= Weight(v.slots)
    decreases Weight(v.slots), 4
  {
    match a
    case CallNext => Next(v, w)
    case SetPath(path) =>
      if v.message.None? then Outcome(v, w, true)
      else Outcome(v.(message := Some(v.message.value.(path := path))), w, false)
    case SetID(id) =>
      if v.message.None? then Outcome(v, w, true)
      else Outcome(v.(message := Some(v.message.value.(id := id, hasSetID := true))), w, false)
    case SetError => Outcome(v.(error := true), w, false)
    case Panic => Outcome(v, w, true)
    case CloseSocket => Outcome(v, AfterClose(w), false)
    case OpenReceiver => Outcome(v.(receiverOpen := true, ownsReceiver := true), w, false)
    case Interfere(receivers) => Outcome(v, w.(receivers := receivers), false)
  }

  /** Finalizing a sub-context touches nothing but the registry. */
  lemma {:induction false} MountedRuns(v: View, chain: seq<Node>, w: World)
    requires v.message.Some?
    ensures var o, s := Next(SubView(v, chain), w), Mounted(v, chain, w);
            s.view == o.view && s.panicked == o.panicked && s.world == o.world.(receivers := s.world.receivers)
    ensures var o, s := Next(SubView(v, chain), w), Mounted(v, chain, w);
            forall id | id in s.world.receivers :: id in o.world.receivers
                && s.world.receivers[id] == o.world.receivers[id]
  {}
}
