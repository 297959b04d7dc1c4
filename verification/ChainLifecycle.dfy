/** Gates, lifecycle chains and handed-over messages, for arbitrary handler programs. */
module ChainLifecycle {
  import opened Wrappers
  import opened Chain
  import opened ChainLaws

  /** What is asked of a chain's nodes: their bind type, no pattern if `bare`, and handlers at these positions only. */
  datatype Place = Place(bindType: BindType, bare: bool, at: iset<Position>)

  type Habit = seq<Action> -> bool

  ghost predicate Stands(n: Node, place: Place) {
    && n.bindType == place.bindType && (place.bare ==> n.pattern.None?)
    && forall i :: 0 <= i < |n.handlers| ==> Position(n.ref, i) in place.at
  }

  /** Every node below `h` is as `place` says and every handler function behaves as `habit` says. */
  ghost predicate HandlerOk(h: Handler, place: Place, habit: Habit)
    decreases h
  {
    match h
    case Func(_, program) => habit(program)
    case Mount(chain) =>
      forall n | n in chain :: Stands(n, place) && forall k | k in n.handlers :: HandlerOk(k, place, habit)
  }

  ghost predicate NodesOk(nodes: seq<Node>, place: Place, habit: Habit) {
    forall n | n in nodes :: Stands(n, place) && forall k | k in n.handlers :: HandlerOk(k, place, habit)
  }

  ghost predicate SlotOk(s: Slot, place: Place, habit: Habit) {
    && s.bindType == place.bindType && (place.bare ==> s.pattern.None?) && s.at in place.at
    && HandlerOk(s.handler, place, habit)
  }

  ghost predicate SlotsOk(slots: seq<Slot>, place: Place, habit: Habit) {
    forall s | s in slots :: SlotOk(s, place, habit)
  }

  lemma {:induction false} NodeSlotsOk(node: Node, from: nat, place: Place, habit: Habit)
    requires from <= |node.handlers| && NodesOk([node], place, habit)
    ensures SlotsOk(NodeSlots(node, from), place, habit)
    decreases |node.handlers| - from
  {
    if from < |node.handlers| {
      NodeSlotsOk(node, from + 1, place, habit);
      assert node in [node] && node.handlers[from] in node.handlers;
    }
  }

  lemma {:induction false} SlotsOkOf(nodes: seq<Node>, place: Place, habit: Habit)
    requires NodesOk(nodes, place, habit)
    ensures SlotsOk(Slots(nodes), place, habit)
  {
    if |nodes| > 0 {
      assert nodes[0] in nodes;
      NodeSlotsOk(nodes[0], 0, place, habit);
      SlotsOkOf(nodes[1..], place, habit);
    }
  }

  ghost const ANYWHERE: iset<Position> := iset p: Position | true

  ghost function Bound(b: BindType): Place { Place(b, false, ANYWHERE) }

  function Anything(): Habit { program => true }

  // ---- What other goroutines may do meanwhile

  /** The IDs a chain's message can have, and the positions of its handlers. */
  datatype Scope = Scope(ids: iset<string>, at: iset<Position>)

  /** No receiver stands under one of the IDs at one of the positions. */
  ghost predicate Clear(scope: Scope, receivers: map<string, Position>) {
    forall id | id in receivers && id in scope.ids :: receivers[id] !in scope.at
  }

  /** A handler sets IDs of the scope only, and whatever other goroutines register while it runs keeps the scope
      clear. */
  ghost predicate Keeps(scope: Scope, a: Action) {
    (a.SetID? ==> a.id in scope.ids) && (a.Interfere? ==> Clear(scope, a.receivers))
  }

  ghost function Within(scope: Scope): Habit { (program: seq<Action>) => forall a | a in program :: Keeps(scope, a) }

  /** No receiver of another goroutine is in the way of this context. */
  ghost predicate Free(scope: Scope, v: View, w: World) {
    && v.message.Some? && (v.message.value.hasSetID ==> v.message.value.id in scope.ids)
    && Clear(scope, w.receivers)
  }

  ghost function Lifecycle(b: BindType, scope: Scope): Place { Place(b, true, scope.at) }

  ghost predicate On(b: BindType, v: View) {
    v.current == None || v.current == Some(b)
  }

  /** Everything but calling Next leaves the handlers ahead and the trace alone. */
  lemma {:induction false} OtherActions(a: Action, v: View, w: World)
    requires !a.CallNext?
    ensures var o := Do(a, v, w);
            && o.view.slots == v.slots && o.view.current == v.current && o.world.trace == w.trace
            && (v.message.Some? ==> o.view.message.Some?) && (v.message.None? ==> o.view.message.None?)
            && (v.error ==> o.view.error) && (w.closed ==> o.world.closed)
            && (!a.Interfere? && !a.CloseSocket? ==> o.world.receivers == w.receivers)
  {}

  lemma {:induction false} SuffixOk(slots: seq<Slot>, rest: seq<Slot>, place: Place, habit: Habit)
    requires SlotsOk(slots, place, habit)
    requires |rest| <= |slots| && rest == slots[|slots| - |rest|..]
    ensures SlotsOk(rest, place, habit)
  {
    forall s | s in rest ensures s in slots {}
  }

  lemma {:induction false} MountOk(h: Handler, place: Place, habit: Habit)
    requires h.Mount? && HandlerOk(h, place, habit)
    ensures SlotsOk(Slots(h.chain), place, habit)
    ensures |h.chain| > 0 ==> h.chain[0].bindType == place.bindType
  {
    assert NodesOk(h.chain, place, habit);
    SlotsOkOf(h.chain, place, habit);
    assert |h.chain| > 0 ==> h.chain[0] in h.chain;
  }

  lemma {:induction false} ActionKeepsFree(scope: Scope, a: Action, v: View, w: World)
    requires !a.CallNext? && Free(scope, v, w) && Keeps(scope, a)
    ensures Free(scope, Do(a, v, w).view, Do(a, v, w).world)
  {}

  lemma {:induction false} MountedFree(scope: Scope, v: View, chain: seq<Node>, w: World)
    requires v.message.Some? && Free(scope, Next(SubView(v, chain), w).view, Next(SubView(v, chain), w).world)
    ensures Clear(scope, Mounted(v, chain, w).world.receivers)
  {
    MountedRuns(v, chain, w);
  }

  // ---- Gates

  /** The node matched the path, with these captures, and no error or close stood in the way. */
  ghost predicate Lawful(e: Entry, b: BindType) {
    && e.bindType == b
    && Matches(e.pattern, e.path)
    && (e.pattern.Some? ==> e.params == Captures(e.pattern.value, e.path))
    && (b != CloseBind ==> !e.closed && !e.error)
  }

  ghost predicate AllLawful(w: World, w': World, b: BindType) {
    Grows(w, w') && forall e | e in New(w, w') :: Lawful(e, b)
  }

  lemma {:induction false} LawfulThen(w0: World, w1: World, w2: World, b: BindType)
    requires AllLawful(w0, w1, b) && AllLawful(w1, w2, b)
    ensures AllLawful(w0, w2, b)
  {
    GrowsThen(w0, w1, w2);
  }

  ghost predicate LawfulRun(b: BindType, v: View, w: World, o: Outcome) {
    && AllLawful(w, o.world, b) && On(b, o.view) && SlotsOk(o.view.slots, Bound(b), Anything())
  }

  lemma {:induction false} NextLawful(b: BindType, v: View, w: World)
    requires On(b, v) && SlotsOk(v.slots, Bound(b), Anything())
    ensures LawfulRun(b, v, w, Next(v, w))
    decreases Weight(v.slots), 3
  {
    if !Gated(v, w) && v.message.Some? {
      var slots := Skip(v.slots, v.message.value.path);
      SkipDropsRejected(v.slots, v.message.value.path);
      SuffixOk(v.slots, slots, Bound(b), Anything());
      if |slots| > 0 {
        assert slots[0] in slots;
        if !HandsOver(v, w, slots[0].at) {
          DispatchLawful(b, v.(slots := slots, current := Some(slots[0].bindType)), w);
        }
      }
    }
  }

  lemma {:induction false} DispatchLawful(b: BindType, v: View, w: World)
    requires v.message.Some? && |v.slots| > 0 && Matches(v.slots[0].pattern, v.message.value.path)
    requires b != CloseBind ==> !v.error && !w.closed
    requires On(b, v) && SlotsOk(v.slots, Bound(b), Anything())
    ensures LawfulRun(b, v, w, Dispatch(v, w))
    decreases Weight(v.slots), 2
  {
    var slots := v.slots;
    assert slots[0] in slots;
    SuffixOk(slots, slots[1..], Bound(b), Anything());
    var v1 := v.(slots := slots[1..]);
    var e := Enter(slots[0], v1, w);
    EnterLawful(b, slots[0], v1, w);
    if AutoAdvances(slots[0].bindType, e.world) {
      NextLawful(b, e.view, e.world);
      LawfulThen(w, e.world, Next(e.view, e.world).world, b);
    }
  }

  lemma {:induction false} EnterMountStops(slot: Slot, v: View, w: World, s: Outcome)
    requires v.message.Some? && slot.handler.Mount? && s == Mounted(v, slot.handler.chain, w)
    requires s.panicked || !s.view.beyondEnd
    ensures Enter(slot, v, w) == Recovered(Outcome(v.(error := s.view.error), s.world, s.panicked))
  {}

  lemma {:induction false} RecordLawful(b: BindType, slot: Slot, v: View, w: World)
    requires v.message.Some? && slot.handler.Func? && Matches(slot.pattern, v.message.value.path)
    requires slot.bindType == b && (b != CloseBind ==> !v.error && !w.closed)
    ensures AllLawful(w, Record(slot, v, w), b)
  {}

  lemma {:induction false} EnterLawful(b: BindType, slot: Slot, v: View, w: World)
    requires v.message.Some? && Matches(slot.pattern, v.message.value.path)
    requires slot.bindType == b && HandlerOk(slot.handler, Bound(b), Anything())
    requires b != CloseBind ==> !v.error && !w.closed
    requires On(b, v) && SlotsOk(v.slots, Bound(b), Anything())
    ensures LawfulRun(b, v, w, Enter(slot, v, w))
    decreases HandlerWeight(slot.handler) + Weight(v.slots), 1
  {
    match slot.handler
    case Func(_, program) =>
      var w1 := Record(slot, v, w);
      RecordLawful(b, slot, v, w);
      RunLawful(b, program, v, w1);
      LawfulThen(w, w1, Run(program, v, w1).world, b);
    case Mount(chain) =>
      SlotsWeight(chain);
      MountOk(slot.handler, Bound(b), Anything());
      var s := Mounted(v, chain, w);
      NextLawful(b, SubView(v, chain), w);
      MountedRuns(v, chain, w);
      var parent := v.(error := s.view.error);
      if !s.panicked && s.view.beyondEnd {
        NextLawful(b, parent, s.world);
        LawfulThen(w, s.world, Next(parent, s.world).world, b);
      } else {
        EnterMountStops(slot, v, w, s);
      }
  }

  lemma {:induction false} RunLawful(b: BindType, program: seq<Action>, v: View, w: World)
    requires On(b, v) && SlotsOk(v.slots, Bound(b), Anything())
    ensures LawfulRun(b, v, w, Run(program, v, w))
    decreases Weight(v.slots), 5 + |program|
  {
    if |program| > 0 {
      var o := Do(program[0], v, w);
      if program[0].CallNext? { NextLawful(b, v, w); } else { OtherActions(program[0], v, w); }
      if !o.panicked {
        RunLawful(b, program[1..], o.view, o.world);
        LawfulThen(w, o.world, Run(program[1..], o.view, o.world).world, b);
      }
    }
  }

  // ---- A handed-over message

  /** A context whose message was handed over enters no handler any more, whatever its handlers go on to do. */
  lemma {:induction false} HandedOverEntersNothing(program: seq<Action>, v: View, w: World)
    requires v.message.None?
    ensures Next(v, w).world.trace == w.trace && Next(v, w).view.message.None?
    ensures Run(program, v, w).world.trace == w.trace && Run(program, v, w).view.message.None?
    decreases |program|
  {
    if |program| > 0 {
      var o := Do(program[0], v, w);
      if program[0].CallNext? { assert o == Next(v, w); } else { OtherActions(program[0], v, w); }
      if !o.panicked { HandedOverEntersNothing(program[1..], o.view, o.world); }
    }
  }

  // ---- Lifecycle chains

  ghost predicate Live(b: BindType, scope: Scope, v: View, w: World) {
    && Free(scope, v, w) && On(b, v)
    && (|v.slots| > 0 ==> v.current == Some(b))
    && SlotsOk(v.slots, Lifecycle(b, scope), Within(scope))
  }

  ghost predicate Stopped(b: BindType, v: View, w: World) {
    b == OpenBind && (v.error || w.closed)
  }

  /** A prefix of the leaves ahead was entered; the rest is still ahead unless the open chain stopped. */
  ghost predicate Through(b: BindType, scope: Scope, v: View, w: World, o: Outcome) {
    && Live(b, scope, o.view, o.world)
    && Grows(w, o.world)
    && (Stopped(b, v, w) ==> Stopped(b, o.view, o.world) && New(w, o.world) == [])
    && Tags(New(w, o.world)) <= Leaves(v.slots)
    && (Stopped(b, o.view, o.world) || Leaves(v.slots) == Tags(New(w, o.world)) + Leaves(o.view.slots))
  }

  ghost predicate Finished(b: BindType, o: Outcome) {
    !o.panicked && (|o.view.slots| == 0 || Stopped(b, o.view, o.world))
  }

  lemma {:induction false} ThroughThen(b: BindType, scope: Scope, v: View, w: World, o1: Outcome, o2: Outcome)
    requires Through(b, scope, v, w, o1) && Through(b, scope, o1.view, o1.world, o2)
    ensures Through(b, scope, v, w, o2)
  {
    GrowsThen(w, o1.world, o2.world);
    var t1, t2 := Tags(New(w, o1.world)), Tags(New(o1.world, o2.world));
    if Stopped(b, o1.view, o1.world) {
      assert t1 + t2 == t1;
    } else if !Stopped(b, o2.view, o2.world) {
      assert t1 + (t2 + Leaves(o2.view.slots)) == t1 + t2 + Leaves(o2.view.slots);
    }
  }

  /** As `Through`, for a run that starts by entering `slot`. */
  ghost predicate EnterThrough(b: BindType, scope: Scope, slot: Slot, v: View, w: World, o: Outcome) {
    && Live(b, scope, o.view, o.world)
    && Grows(w, o.world)
    && Tags(New(w, o.world)) <= HandlerLeaves(slot.handler) + Leaves(v.slots)
    && (Stopped(b, o.view, o.world) ||
        HandlerLeaves(slot.handler) + Leaves(v.slots) == Tags(New(w, o.world)) + Leaves(o.view.slots))
  }

  lemma {:induction false} EnterThroughThen(b: BindType, scope: Scope, slot: Slot, v: View, w: World, e: Outcome,
                                            o: Outcome)
    requires EnterThrough(b, scope, slot, v, w, e) && Through(b, scope, e.view, e.world, o)
    ensures EnterThrough(b, scope, slot, v, w, o)
  {
    GrowsThen(w, e.world, o.world);
    var t1, t2 := Tags(New(w, e.world)), Tags(New(e.world, o.world));
    if Stopped(b, e.view, e.world) {
      assert t1 + t2 == t1;
    } else if !Stopped(b, o.view, o.world) {
      assert t1 + (t2 + Leaves(o.view.slots)) == t1 + t2 + Leaves(o.view.slots);
    }
  }

  lemma {:induction false} FuncThrough(b: BindType, scope: Scope, slot: Slot, v: View, w: World, o: Outcome)
    requires v.message.Some? && slot.handler.Func? && !Stopped(b, v, w)
    requires Through(b, scope, v, Record(slot, v, w), o)
    ensures EnterThrough(b, scope, slot, v, w, o)
  {
    var w1 := Record(slot, v, w);
    GrowsThen(w, w1, o.world);
    assert Tags(New(w, w1)) == [slot.handler.tag];
    if !Stopped(b, o.view, o.world) {
      var t := Tags(New(w1, o.world));
      assert [slot.handler.tag] + (t + Leaves(o.view.slots)) == [slot.handler.tag] + t + Leaves(o.view.slots);
    }
  }

  lemma {:induction false} MountThrough(b: BindType, scope: Scope, slot: Slot, v: View, w: World, s: Outcome,
                                        parent: View)
    requires slot.handler.Mount? && Live(b, scope, v, w)
    requires Through(b, scope, SubView(v, slot.handler.chain), w, s) && Finished(b, s)
    requires parent == v.(error := s.view.error)
    ensures EnterThrough(b, scope, slot, v, w, Outcome(parent, s.world, false))
  {
    SlotsLeaves(slot.handler.chain);
    var t := Tags(New(w, s.world));
    if !Stopped(b, s.view, s.world) {
      assert Leaves(s.view.slots) == [] && t + [] == t;
    }
  }

  lemma {:induction false} NextThrough(b: BindType, scope: Scope, v: View, w: World)
    requires b != NormalBind && Live(b, scope, v, w)
    ensures Through(b, scope, v, w, Next(v, w)) && Finished(b, Next(v, w))
    decreases Weight(v.slots), 3
  {
    var o := Next(v, w);
    if Gated(v, w) || |v.slots| == 0 {
      assert o.view.slots == v.slots;
      StillThrough(b, scope, v, w, o);
    } else {
      var slot := v.slots[0];
      assert slot in v.slots;
      assert !HandsOver(v, w, slot.at);
      assert Skip(v.slots, v.message.value.path) == v.slots by { assert Matches(slot.pattern, v.message.value.path); }
      assert v.(slots := v.slots, current := Some(slot.bindType)) == v;
      DispatchThrough(b, scope, v, w);
    }
  }

  lemma {:induction false} DispatchThrough(b: BindType, scope: Scope, v: View, w: World)
    requires b != NormalBind && Live(b, scope, v, w) && |v.slots| > 0 && !Stopped(b, v, w)
    ensures Through(b, scope, v, w, Dispatch(v, w)) && Finished(b, Dispatch(v, w))
    decreases Weight(v.slots), 2
  {
    var slot := v.slots[0];
    assert slot in v.slots;
    SuffixOk(v.slots, v.slots[1..], Lifecycle(b, scope), Within(scope));
    var v1 := v.(slots := v.slots[1..]);
    var e := Enter(slot, v1, w);
    EnterLive(b, scope, slot, v1, w);
    if AutoAdvances(b, e.world) {
      NextThrough(b, scope, e.view, e.world);
      EnterThroughThen(b, scope, slot, v1, w, e, Next(e.view, e.world));
      LeftThrough(b, scope, v, w, slot, v1, Next(e.view, e.world));
    } else {
      LeftThrough(b, scope, v, w, slot, v1, e);
    }
  }

  lemma {:induction false} StillThrough(b: BindType, scope: Scope, v: View, w: World, o: Outcome)
    requires Live(b, scope, o.view, o.world) && o.view.slots == v.slots && o.world.trace == w.trace
    requires Stopped(b, v, w) ==> Stopped(b, o.view, o.world)
    ensures Through(b, scope, v, w, o)
  {
    assert New(w, o.world) == [] && Tags([]) + Leaves(v.slots) == Leaves(v.slots);
  }

  lemma {:induction false} LeftThrough(b: BindType, scope: Scope, v: View, w: World, slot: Slot, v1: View, o: Outcome)
    requires |v.slots| > 0 && slot == v.slots[0] && v1.slots == v.slots[1..]
    requires !Stopped(b, v, w) && EnterThrough(b, scope, slot, v1, w, o)
    requires |o.view.slots| == 0 || Stopped(b, o.view, o.world)
    ensures Through(b, scope, v, w, o.(view := Left(o.view)))
  {
    assert Leaves(v.slots) == HandlerLeaves(slot.handler) + Leaves(v1.slots);
  }

  lemma {:induction false} MountedThrough(b: BindType, scope: Scope, v: View, chain: seq<Node>, w: World)
    requires v.message.Some?
    requires var o := Next(SubView(v, chain), w); Through(b, scope, SubView(v, chain), w, o) && Finished(b, o)
    ensures var s := Mounted(v, chain, w); Through(b, scope, SubView(v, chain), w, s) && Finished(b, s)
  {
    MountedRuns(v, chain, w);
    MountedFree(scope, v, chain, w);
  }

  lemma {:induction false} EnterLive(b: BindType, scope: Scope, slot: Slot, v: View, w: World)
    requires b != NormalBind && Live(b, scope, v, w) && v.current == Some(b) && !Stopped(b, v, w)
    requires HandlerOk(slot.handler, Lifecycle(b, scope), Within(scope))
    ensures EnterThrough(b, scope, slot, v, w, Enter(slot, v, w))
    decreases HandlerWeight(slot.handler) + Weight(v.slots), 1
  {
    match slot.handler
    case Func(_, program) =>
      var w1 := Record(slot, v, w);
      RunThrough(b, scope, program, v, w1);
      FuncThrough(b, scope, slot, v, w, Recovered(Run(program, v, w1)));
    case Mount(chain) =>
      SlotsWeight(chain);
      MountOk(slot.handler, Lifecycle(b, scope), Within(scope));
      var s := Mounted(v, chain, w);
      NextThrough(b, scope, SubView(v, chain), w);
      MountedThrough(b, scope, v, chain, w);
      var parent := v.(error := s.view.error);
      MountThrough(b, scope, slot, v, w, s, parent);
      if s.view.beyondEnd {
        NextThrough(b, scope, parent, s.world);
        EnterThroughThen(b, scope, slot, v, w, Outcome(parent, s.world, false), Next(parent, s.world));
      }
  }

  lemma {:induction false} OtherThrough(b: BindType, scope: Scope, a: Action, v: View, w: World)
    requires b != NormalBind && Live(b, scope, v, w) && !a.CallNext? && Keeps(scope, a)
    ensures Through(b, scope, v, w, Do(a, v, w)) && Through(b, scope, v, w, Recovered(Do(a, v, w)))
  {
    OtherActions(a, v, w);
    ActionKeepsFree(scope, a, v, w);
    StillThrough(b, scope, v, w, Do(a, v, w));
    StillThrough(b, scope, v, w, Recovered(Do(a, v, w)));
  }

  lemma {:induction false} RunThrough(b: BindType, scope: Scope, program: seq<Action>, v: View, w: World)
    requires b != NormalBind && Live(b, scope, v, w) && Within(scope)(program)
    ensures Through(b, scope, v, w, Recovered(Run(program, v, w)))
    decreases Weight(v.slots), 5 + |program|
  {
    assert New(w, w) == [] && Tags([]) + Leaves(v.slots) == Leaves(v.slots);
    if |program| > 0 {
      var o := Do(program[0], v, w);
      assert program[0] in program;
      if program[0].CallNext? {
        NextThrough(b, scope, v, w);
      } else {
        OtherThrough(b, scope, program[0], v, w);
      }
      if !o.panicked {
        RunThrough(b, scope, program[1..], o.view, o.world);
        ThroughThen(b, scope, v, w, o, Recovered(Run(program[1..], o.view, o.world)));
      }
    }
  }

  /** Whatever close handlers do, each one is entered exactly once, in registration order, mounted routers in place.
      The registry may hold anything, and change, as long as no receiver stands at one of these handlers under an ID
      the message has or a handler sets; a message without an ID is never handed over. */
  lemma {:induction false} CloseChainEntersAll(nodes: seq<Node>, message: Message, w: World, scope: Scope)
    requires NodesOk(nodes, Lifecycle(CloseBind, scope), Within(scope))
    requires (message.hasSetID ==> message.id in scope.ids) && Clear(scope, w.receivers)
    ensures var w' := Next(Start(nodes, message), w).world; Grows(w, w') && Tags(New(w, w')) == NodesLeaves(nodes)
  {
    SlotsOkOf(nodes, Lifecycle(CloseBind, scope), Within(scope));
    assert |nodes| > 0 ==> nodes[0] in nodes;
    var v := Start(nodes, message);
    NextThrough(CloseBind, scope, v, w);
    SlotsLeaves(nodes);
    var t := Tags(New(w, Next(v, w).world));
    assert t + [] == t;
  }

  /** The open chain enters a prefix of its handlers, and all of them unless the socket closed or an error stands. */
  lemma {:induction false} OpenChainEntersPrefix(nodes: seq<Node>, message: Message, w: World, scope: Scope)
    requires NodesOk(nodes, Lifecycle(OpenBind, scope), Within(scope))
    requires (message.hasSetID ==> message.id in scope.ids) && Clear(scope, w.receivers)
    ensures var o := Next(Start(nodes, message), w);
            && Grows(w, o.world) && Tags(New(w, o.world)) <= NodesLeaves(nodes)
            && (o.view.error || o.world.closed || Tags(New(w, o.world)) == NodesLeaves(nodes))
  {
    SlotsOkOf(nodes, Lifecycle(OpenBind, scope), Within(scope));
    assert |nodes| > 0 ==> nodes[0] in nodes;
    var v := Start(nodes, message);
    NextThrough(OpenBind, scope, v, w);
    SlotsLeaves(nodes);
    var t := Tags(New(w, Next(v, w).world));
    assert t + [] == t;
  }

  /** No handler of an open or message chain is entered once the socket is closed or an error stands. */
  lemma {:induction false} EntriesAreLawful(b: BindType, nodes: seq<Node>, message: Message, w: World)
    requires NodesOk(nodes, Bound(b), Anything())
    ensures AllLawful(w, Next(Start(nodes, message), w).world, b)
  {
    SlotsOkOf(nodes, Bound(b), Anything());
    assert |nodes| > 0 ==> nodes[0] in nodes;
    NextLawful(b, Start(nodes, message), w);
  }
}
