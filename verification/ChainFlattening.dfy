/** Mounting a router runs the same handlers as splicing its nodes into the parent's chain under
    the mount pattern, for handlers that go on, stop or fail before calling Next. */
module ChainFlattening {
  import opened Wrappers
  import opened Chain
  import opened ChainLaws
  import opened ChainLifecycle

  // ---- A flat chain

  datatype FlatItem = FlatItem(guards: seq<Matcher>, tag: nat, program: seq<Action>)

  datatype FlatState = FlatState(path: string, error: bool, closed: bool)

  /** Which handlers ran under which path, and whether the end of the chain was reached. */
  datatype FlatRun = FlatRun(visits: seq<(nat, string)>, state: FlatState, fellOff: bool)

  ghost predicate Accepts(guards: seq<Matcher>, path: string) {
    forall i :: 0 <= i < |guards| ==> Captures(guards[i], path).Some?
  }

  /** A handler's effects up to its first call of Next, and whether it gets there. */
  ghost function Lead(program: seq<Action>, s: FlatState): (FlatState, bool) {
    if |program| == 0 then (s, false)
    else
      match program[0]
      case CallNext => (s, true)
      case SetPath(path) => Lead(program[1..], s.(path := path))
      case SetError => Lead(program[1..], s.(error := true))
      case CloseSocket => Lead(program[1..], s.(closed := true))
      case Panic => (s.(error := true), false)
      case _ => Lead(program[1..], s)
  }

  ghost function FlatNext(items: seq<FlatItem>, s: FlatState): FlatRun {
    if s.error || s.closed then FlatRun([], s, false)
    else if |items| == 0 then FlatRun([], s, true)
    else if !Accepts(items[0].guards, s.path) then FlatNext(items[1..], s)
    else
      var (s1, calls) := Lead(items[0].program, s);
      var rest := if calls then FlatNext(items[1..], s1) else FlatRun([], s1, false);
      FlatRun([(items[0].tag, s.path)] + rest.visits, rest.state, rest.fellOff)
  }

  // ---- Splicing

  ghost function Guard(pattern: Option<Matcher>): seq<Matcher> {
    if pattern.Some? then [pattern.value] else []
  }

  ghost function FlattenHandler(h: Handler, guards: seq<Matcher>): seq<FlatItem>
    decreases h, 0
  {
    match h
    case Func(tag, program) => [FlatItem(guards, tag, program)]
    case Mount(chain) => FlattenNodes(chain, guards)
  }

  ghost function FlattenHandlers(hs: seq<Handler>, guards: seq<Matcher>): seq<FlatItem>
    decreases hs, 0
  {
    if |hs| == 0 then [] else FlattenHandler(hs[0], guards) + FlattenHandlers(hs[1..], guards)
  }

  ghost function FlattenNodes(nodes: seq<Node>, guards: seq<Matcher>): seq<FlatItem>
    decreases nodes, 0
  {
    if |nodes| == 0 then []
    else FlattenHandlers(nodes[0].handlers, guards + Guard(nodes[0].pattern)) + FlattenNodes(nodes[1..], guards)
  }

  ghost function Flatten(slots: seq<Slot>, guards: seq<Matcher>): seq<FlatItem> {
    if |slots| == 0 then []
    else FlattenHandler(slots[0].handler, guards + Guard(slots[0].pattern)) + Flatten(slots[1..], guards)
  }

  ghost function All(guards: seq<Matcher>): Matcher {
    path => if Accepts(guards, path) then Some(map[]) else None
  }

  /** Where the spliced handlers stand: each alone in its node. */
  const SPLICED := Position(0, 0)

  ghost function FlatNodes(items: seq<FlatItem>): seq<Node> {
    if |items| == 0 then []
    else
      var node := Node(SPLICED.ref, NormalBind, Some(All(items[0].guards)), [Func(items[0].tag, items[0].program)]);
      [node] + FlatNodes(items[1..])
  }

  /** One flat list of nodes: every handler function under the conjunction of the patterns above it. */
  ghost function Splice(nodes: seq<Node>): seq<Node> {
    FlatNodes(FlattenNodes(nodes, []))
  }

  lemma {:induction false} FlattenAppend(a: seq<Slot>, b: seq<Slot>, guards: seq<Matcher>)
    ensures Flatten(a + b, guards) == Flatten(a, guards) + Flatten(b, guards)
  {
    if |a| == 0 {
      assert a + b == b;
    } else {
      assert (a + b)[1..] == a[1..] + b;
      FlattenAppend(a[1..], b, guards);
    }
  }

  lemma {:induction false} NodeSlotsFlatten(node: Node, from: nat, guards: seq<Matcher>)
    requires from <= |node.handlers|
    ensures Flatten(NodeSlots(node, from), guards)
            == FlattenHandlers(node.handlers[from..], guards + Guard(node.pattern))
    decreases |node.handlers| - from
  {
    if from < |node.handlers| {
      assert node.handlers[from..][1..] == node.handlers[from + 1..];
      NodeSlotsFlatten(node, from + 1, guards);
    }
  }

  lemma {:induction false} SlotsFlatten(nodes: seq<Node>, guards: seq<Matcher>)
    ensures Flatten(Slots(nodes), guards) == FlattenNodes(nodes, guards)
  {
    if |nodes| > 0 {
      NodeSlotsFlatten(nodes[0], 0, guards);
      assert nodes[0].handlers[0..] == nodes[0].handlers;
      SlotsFlatten(nodes[1..], guards);
      FlattenAppend(NodeSlots(nodes[0], 0), Slots(nodes[1..]), guards);
    }
  }

  // ---- Laws of the flat chain

  lemma {:induction false} FlatAppend(xs: seq<FlatItem>, ys: seq<FlatItem>, s: FlatState)
    ensures var a := FlatNext(xs, s);
            var b := FlatNext(ys, a.state);
            FlatNext(xs + ys, s) == if a.fellOff then FlatRun(a.visits + b.visits, b.state, b.fellOff) else a
    decreases |xs|
  {
    if s.error || s.closed {
    } else if |xs| == 0 {
      assert xs + ys == ys;
      assert [] + FlatNext(ys, s).visits == FlatNext(ys, s).visits;
    } else {
      assert (xs + ys)[1..] == xs[1..] + ys && (xs + ys)[0] == xs[0];
      if Accepts(xs[0].guards, s.path) {
        var (s1, calls) := Lead(xs[0].program, s);
        FlatAppend(xs[1..], ys, s1);
        if calls {
          var a := FlatNext(xs[1..], s1);
          var b := FlatNext(ys, a.state);
          assert [(xs[0].tag, s.path)] + (a.visits + b.visits) == [(xs[0].tag, s.path)] + a.visits + b.visits;
        }
      } else {
        FlatAppend(xs[1..], ys, s);
      }
    }
  }

  /** Below a mount a handler leaves the path alone and calls Next at most once, as its last action. */
  ghost predicate InnerProgram(program: seq<Action>) {
    |program| > 0 ==>
      if program[0].CallNext? then |program| == 1
      else !program[0].SetPath? && InnerProgram(program[1..])
  }

  /** In the outermost chain a handler may also set the path first and call Next more than once. */
  ghost predicate OuterProgram(program: seq<Action>) {
    |program| > 0 ==>
      if program[0].CallNext? then forall a | a in program :: a.CallNext?
      else OuterProgram(program[1..])
  }

  ghost predicate OuterFor(scope: Scope, program: seq<Action>) {
    OuterProgram(program) && forall a | a in program :: Keeps(scope, a)
  }

  ghost function Inner(scope: Scope): Habit {
    (program: seq<Action>) => InnerProgram(program) && forall a | a in program :: Keeps(scope, a)
  }

  ghost function Normal(scope: Scope): Place { Place(NormalBind, false, scope.at) }

  lemma {:induction false} InnerLead(program: seq<Action>, s: FlatState)
    requires InnerProgram(program)
    ensures Lead(program, s).0.path == s.path
  {
    if |program| > 0 && !program[0].CallNext? && !program[0].Panic? {
      InnerLead(program[1..], match program[0]
        case SetError => s.(error := true)
        case CloseSocket => s.(closed := true)
        case _ => s);
    }
  }

  ghost predicate SameItem(x: FlatItem, y: FlatItem, fixed: bool, path: string) {
    && x.tag == y.tag && x.program == y.program
    && (if fixed then InnerProgram(x.program) && (Accepts(x.guards, path) <==> Accepts(y.guards, path))
        else forall p: string :: Accepts(x.guards, p) <==> Accepts(y.guards, p))
  }

  /** Guards only matter through what they accept, at the one path in play when no handler changes it. */
  lemma {:induction false} FlatSame(xs: seq<FlatItem>, ys: seq<FlatItem>, s: FlatState, fixed: bool)
    requires |xs| == |ys| && forall i :: 0 <= i < |xs| ==> SameItem(xs[i], ys[i], fixed, s.path)
    ensures FlatNext(xs, s) == FlatNext(ys, s)
    ensures fixed ==> FlatNext(xs, s).state.path == s.path
    decreases |xs|
  {
    if |xs| > 0 && !s.error && !s.closed {
      assert SameItem(xs[0], ys[0], fixed, s.path);
      var (s1, calls) := Lead(xs[0].program, s);
      if fixed { InnerLead(xs[0].program, s); }
      forall i | 0 <= i < |xs| - 1
        ensures SameItem(xs[1..][i], ys[1..][i], fixed, s.path) && SameItem(xs[1..][i], ys[1..][i], fixed, s1.path)
      {
        assert SameItem(xs[i + 1], ys[i + 1], fixed, s.path);
      }
      FlatSame(xs[1..], ys[1..], s1, fixed);
      FlatSame(xs[1..], ys[1..], s, fixed);
    }
  }

  lemma {:induction false} FlatNoneAccepted(xs: seq<FlatItem>, s: FlatState)
    requires !s.error && !s.closed && forall x | x in xs :: !Accepts(x.guards, s.path)
    ensures FlatNext(xs, s) == FlatRun([], s, true)
    decreases |xs|
  {
    if |xs| > 0 {
      assert xs[0] in xs;
      FlatNoneAccepted(xs[1..], s);
    }
  }

  /** Guards given from outside are in front of every item's own. */
  ghost predicate Prefixed(xs: seq<FlatItem>, ys: seq<FlatItem>, guards: seq<Matcher>) {
    |xs| == |ys| && forall i :: 0 <= i < |xs| ==> xs[i] == ys[i].(guards := guards + ys[i].guards)
  }

  lemma {:induction false} FlattenHandlerPrefixed(h: Handler, guards: seq<Matcher>, more: seq<Matcher>)
    ensures Prefixed(FlattenHandler(h, guards + more), FlattenHandler(h, more), guards)
    decreases h, 0
  {
    if h.Mount? { FlattenNodesPrefixed(h.chain, guards, more); }
  }

  lemma {:induction false} FlattenHandlersPrefixed(hs: seq<Handler>, guards: seq<Matcher>, more: seq<Matcher>)
    ensures Prefixed(FlattenHandlers(hs, guards + more), FlattenHandlers(hs, more), guards)
    decreases hs, 0
  {
    if |hs| > 0 {
      FlattenHandlerPrefixed(hs[0], guards, more);
      FlattenHandlersPrefixed(hs[1..], guards, more);
    }
  }

  lemma {:induction false} FlattenNodesPrefixed(nodes: seq<Node>, guards: seq<Matcher>, more: seq<Matcher>)
    ensures Prefixed(FlattenNodes(nodes, guards + more), FlattenNodes(nodes, more), guards)
    decreases nodes, 0
  {
    if |nodes| > 0 {
      var own := Guard(nodes[0].pattern);
      assert guards + more + own == guards + (more + own);
      FlattenHandlersPrefixed(nodes[0].handlers, guards, more + own);
      FlattenNodesPrefixed(nodes[1..], guards, more);
    }
  }

  lemma {:induction false} FlattenHandlerHabit(h: Handler, guards: seq<Matcher>, place: Place, habit: Habit)
    requires HandlerOk(h, place, habit)
    ensures forall x | x in FlattenHandler(h, guards) :: habit(x.program)
    decreases h, 0
  {
    if h.Mount? { FlattenNodesHabit(h.chain, guards, place, habit); }
  }

  lemma {:induction false} FlattenNodesHabit(nodes: seq<Node>, guards: seq<Matcher>, place: Place, habit: Habit)
    requires NodesOk(nodes, place, habit)
    ensures forall x | x in FlattenNodes(nodes, guards) :: habit(x.program)
    decreases nodes, 0
  {
    if |nodes| > 0 {
      assert nodes[0] in nodes;
      FlattenHandlersHabit(nodes[0].handlers, guards + Guard(nodes[0].pattern), place, habit);
      FlattenNodesHabit(nodes[1..], guards, place, habit);
    }
  }

  lemma {:induction false} FlattenHandlersHabit(hs: seq<Handler>, guards: seq<Matcher>, place: Place, habit: Habit)
    requires forall h | h in hs :: HandlerOk(h, place, habit)
    ensures forall x | x in FlattenHandlers(hs, guards) :: habit(x.program)
    decreases hs, 0
  {
    if |hs| > 0 {
      assert hs[0] in hs;
      FlattenHandlerHabit(hs[0], guards, place, habit);
      FlattenHandlersHabit(hs[1..], guards, place, habit);
    }
  }

  lemma {:induction false} AcceptsAppend(guards: seq<Matcher>, more: seq<Matcher>, path: string)
    ensures Accepts(guards + more, path) <==> Accepts(guards, path) && Accepts(more, path)
  {
    if Accepts(guards + more, path) {
      forall i | 0 <= i < |guards| ensures Captures(guards[i], path).Some? {
        assert Captures((guards + more)[i], path).Some?;
      }
      forall i | 0 <= i < |more| ensures Captures(more[i], path).Some? {
        assert Captures((guards + more)[|guards| + i], path).Some?;
      }
    }
  }

  /** Under a mount pattern that accepts the path, the mounted chain runs as it would alone. */
  lemma {:induction false} MountedAsAlone(scope: Scope, chain: seq<Node>, pattern: Option<Matcher>, s: FlatState)
    requires NodesOk(chain, Normal(scope), Inner(scope)) && Matches(pattern, s.path)
    ensures FlatNext(FlattenNodes(chain, Guard(pattern)), s) == FlatNext(FlattenNodes(chain, []), s)
    ensures FlatNext(FlattenNodes(chain, []), s).state.path == s.path
  {
    var g := Guard(pattern);
    FlattenNodesPrefixed(chain, g, []);
    assert g + [] == g;
    FlattenNodesHabit(chain, [], Normal(scope), Inner(scope));
    var xs, ys := FlattenNodes(chain, g), FlattenNodes(chain, []);
    forall i | 0 <= i < |xs| ensures SameItem(xs[i], ys[i], true, s.path) {
      assert ys[i] in ys && xs[i] == ys[i].(guards := g + ys[i].guards);
      AcceptsAppend(g, ys[i].guards, s.path);
    }
    FlatSame(xs, ys, s, true);
  }

  lemma {:induction false} RejectedFlatten(slot: Slot, s: FlatState)
    requires !s.error && !s.closed && !Matches(slot.pattern, s.path)
    ensures FlatNext(FlattenHandler(slot.handler, Guard(slot.pattern)), s) == FlatRun([], s, true)
  {
    var g := Guard(slot.pattern);
    FlattenHandlerPrefixed(slot.handler, g, []);
    assert g + [] == g;
    var xs := FlattenHandler(slot.handler, g);
    forall x | x in xs ensures !Accepts(x.guards, s.path) {
      assert x.guards[0] == g[0];
    }
    FlatNoneAccepted(xs, s);
  }

  lemma {:induction false} SkipFlat(slots: seq<Slot>, s: FlatState)
    requires !s.error && !s.closed
    ensures FlatNext(Flatten(slots, []), s) == FlatNext(Flatten(Skip(slots, s.path), []), s)
  {
    if |slots| > 0 && !Matches(slots[0].pattern, s.path) {
      var g := Guard(slots[0].pattern);
      assert [] + g == g;
      RejectedFlatten(slots[0], s);
      FlatAppend(FlattenHandler(slots[0].handler, g), Flatten(slots[1..], []), s);
      SkipFlat(slots[1..], s);
      var rest := FlatNext(Flatten(slots[1..], []), s);
      assert [] + rest.visits == rest.visits;
    }
  }

  // ---- The tree runs as its flattening

  ghost function Visits(trace: seq<Entry>): (visits: seq<(nat, string)>) {
    seq(|trace|, i requires 0 <= i < |trace| => (trace[i].tag, trace[i].path))
  }

  ghost predicate TopHandler(scope: Scope, h: Handler) {
    match h
    case Func(_, program) => OuterFor(scope, program)
    case Mount(chain) => NodesOk(chain, Normal(scope), Inner(scope))
  }

  ghost predicate TopSlot(scope: Scope, s: Slot) {
    s.bindType == NormalBind && s.at in scope.at && TopHandler(scope, s.handler)
  }

  ghost predicate Fit(scope: Scope, top: bool, slots: seq<Slot>) {
    if top then forall s | s in slots :: TopSlot(scope, s) else SlotsOk(slots, Normal(scope), Inner(scope))
  }

  ghost predicate Ready(scope: Scope, v: View, w: World) {
    Free(scope, v, w) && On(NormalBind, v)
  }

  ghost function State(v: View, w: World): FlatState
    requires v.message.Some?
  {
    FlatState(v.message.value.path, v.error, w.closed)
  }

  ghost predicate Agrees(scope: Scope, top: bool, v: View, w: World, o: Outcome, f: FlatRun) {
    && !o.panicked && Ready(scope, o.view, o.world)
    && Grows(w, o.world) && Visits(New(w, o.world)) == f.visits
    && o.view.error == f.state.error && o.world.closed == f.state.closed
    && (!top ==> v.message.Some? && o.view.message.value.path == v.message.value.path)
    && (!top ==> o.view.beyondEnd == (v.beyondEnd || f.fellOff))
  }

  ghost predicate Quiet(o: Outcome) {
    |o.view.slots| == 0 || o.view.error || o.world.closed
  }

  lemma {:induction false} VisitsThen(w0: World, w1: World, w2: World)
    requires Grows(w0, w1) && Grows(w1, w2)
    ensures Grows(w0, w2) && Visits(New(w0, w2)) == Visits(New(w0, w1)) + Visits(New(w1, w2))
  {
    GrowsThen(w0, w1, w2);
  }

  lemma {:induction false} AgreesStill(scope: Scope, top: bool, v: View, w: World, o: Outcome, f: FlatRun)
    requires o.world.trace == w.trace && f.visits == [] && !o.panicked && Ready(scope, o.view, o.world)
    requires o.view.error == f.state.error && o.world.closed == f.state.closed
    requires v.message.Some? && o.view.message.value.path == v.message.value.path
    requires o.view.beyondEnd == (v.beyondEnd || f.fellOff)
    ensures Agrees(scope, top, v, w, o, f)
  {
    assert New(w, o.world) == [];
  }

  /** Once quiet, calling Next again enters nothing. */
  lemma {:induction false} QuietRun(scope: Scope, program: seq<Action>, v: View, w: World)
    requires Ready(scope, v, w) && Quiet(Outcome(v, w, false)) && forall a | a in program :: a.CallNext?
    ensures var o := Run(program, v, w);
            !o.panicked && Ready(scope, o.view, o.world) && o.world.trace == w.trace
            && o.view.error == v.error && o.world.closed == w.closed
    decreases |program|
  {
    if |program| > 0 {
      assert program[0] in program;
      var o := Next(v, w);
      QuietRun(scope, program[1..], o.view, o.world);
    }
  }

  lemma {:induction false} NormalDispatch(v: View, w: World)
    requires v.message.Some? && |v.slots| > 0 && v.slots[0].bindType == NormalBind
    ensures var e := Enter(v.slots[0], v.(slots := v.slots[1..]), w);
            Dispatch(v, w) == e.(view := Left(e.view))
  {}

  lemma {:induction false} NormalNext(scope: Scope, v: View, w: World, slots: seq<Slot>)
    requires Ready(scope, v, w) && !v.error && !w.closed
    requires slots == Skip(v.slots, v.message.value.path) && |slots| > 0 && slots[0].bindType == NormalBind
    requires slots[0].at in scope.at
    ensures var e := Enter(slots[0], v.(slots := slots[1..], current := Some(NormalBind)), w);
            Next(v, w) == e.(view := Left(e.view))
  {
    var at := v.(slots := slots, current := Some(NormalBind));
    NormalDispatch(at, w);
    assert at.(slots := slots[1..]) == v.(slots := slots[1..], current := Some(NormalBind));
    assert !HandsOver(v, w, slots[0].at);
  }

  lemma {:induction false} FlattenFirst(slots: seq<Slot>)
    requires |slots| > 0
    ensures Flatten(slots, []) == FlattenHandler(slots[0].handler, Guard(slots[0].pattern)) + Flatten(slots[1..], [])
  {
    assert [] + Guard(slots[0].pattern) == Guard(slots[0].pattern);
  }

  lemma {:induction false} FitSuffix(scope: Scope, top: bool, slots: seq<Slot>, rest: seq<Slot>)
    requires Fit(scope, top, slots) && |rest| <= |slots| && rest == slots[|slots| - |rest|..]
    ensures Fit(scope, top, rest) && (|rest| > 0 ==> Fit(scope, top, rest[..1]))
  {
    forall s | s in rest ensures s in slots {}
  }

  lemma {:induction false} AgreesLeft(scope: Scope, top: bool, v: View, v1: View, w: World, e: Outcome, f: FlatRun)
    requires Agrees(scope, top, v1, w, e, f) && v1.message == v.message && v1.beyondEnd == v.beyondEnd
    ensures Agrees(scope, top, v, w, e.(view := Left(e.view)), f)
  {}

  lemma {:induction false} NextFlat(scope: Scope, top: bool, v: View, w: World)
    requires Ready(scope, v, w) && Fit(scope, top, v.slots)
    ensures Agrees(scope, top, v, w, Next(v, w), FlatNext(Flatten(v.slots, []), State(v, w))) && Quiet(Next(v, w))
    decreases Weight(v.slots), 3
  {
    var s := State(v, w);
    if v.error || w.closed {
      AgreesStill(scope, top, v, w, Next(v, w), FlatNext(Flatten(v.slots, []), s));
    } else {
      var slots := Skip(v.slots, s.path);
      SkipFlat(v.slots, s);
      SkipDropsRejected(v.slots, s.path);
      if |slots| == 0 {
        AgreesStill(scope, top, v, w, Next(v, w), FlatNext([], s));
      } else {
        FitSuffix(scope, top, v.slots, slots);
        NextEntersFlat(scope, top, v, w, slots);
      }
    }
  }

  lemma {:induction false} NextEntersFlat(scope: Scope, top: bool, v: View, w: World, slots: seq<Slot>)
    requires Ready(scope, v, w) && !v.error && !w.closed
    requires |slots| > 0 && slots == Skip(v.slots, v.message.value.path) && Fit(scope, top, slots)
    ensures Agrees(scope, top, v, w, Next(v, w), FlatNext(Flatten(slots, []), State(v, w)))
    ensures |Next(v, w).view.slots| == 0
    decreases Weight(slots), 2
  {
    FitSuffix(scope, top, slots, slots[1..]);
    FitSuffix(scope, top, slots, slots);
    assert slots[..1] == [slots[0]];
    assert slots[0] in slots;
    var v1 := v.(slots := slots[1..], current := Some(NormalBind));
    EnterFlat(scope, top, slots[0], v1, w);
    NormalNext(scope, v, w, slots);
    FlattenFirst(slots);
    AgreesLeft(scope, top, v, v1, w, Enter(slots[0], v1, w), FlatNext(Flatten(slots, []), State(v, w)));
  }

  lemma {:induction false} EnterFlat(scope: Scope, top: bool, slot: Slot, v: View, w: World)
    requires Ready(scope, v, w) && Fit(scope, top, v.slots) && !v.error && !w.closed
    requires Fit(scope, top, [slot]) && Matches(slot.pattern, v.message.value.path)
    ensures Agrees(scope, top, v, w, Enter(slot, v, w),
                   FlatNext(FlattenHandler(slot.handler, Guard(slot.pattern)) + Flatten(v.slots, []), State(v, w)))
    decreases HandlerWeight(slot.handler) + Weight(v.slots), 1
  {
    assert slot in [slot];
    match slot.handler
    case Func(tag, program) =>
      var w1 := Record(slot, v, w);
      if !top { InnerIsOuter(program); }
      RunFlat(scope, top, program, v, w1);
      FuncAgrees(scope, top, slot, v, w, Recovered(Run(program, v, w1)));
    case Mount(chain) =>
      SlotsWeight(chain);
      MountOk(slot.handler, Normal(scope), Inner(scope));
      var sub := SubView(v, chain);
      var s := Mounted(v, chain, w);
      NextFlat(scope, false, sub, w);
      MountedRuns(v, chain, w);
      MountedFree(scope, v, chain, w);
      SlotsFlatten(chain, []);
      var parent := v.(error := s.view.error);
      if s.view.beyondEnd {
        NextFlat(scope, top, parent, s.world);
      }
      MountAgrees(scope, top, slot, v, w, s, Next(parent, s.world));
  }

  lemma {:induction false} MountAgrees(scope: Scope, top: bool, slot: Slot, v: View, w: World, s: Outcome, r: Outcome)
    requires Ready(scope, v, w) && !v.error && !w.closed && slot.handler.Mount?
    requires NodesOk(slot.handler.chain, Normal(scope), Inner(scope)) && Matches(slot.pattern, v.message.value.path)
    requires Agrees(scope, false, SubView(v, slot.handler.chain), w, s,
             FlatNext(FlattenNodes(slot.handler.chain, []), State(v, w)))
    requires var parent := v.(error := s.view.error);
             s.view.beyondEnd ==> Agrees(scope, top, parent, s.world, r,
                 FlatNext(Flatten(v.slots, []), State(parent, s.world)))
    ensures Agrees(scope, top, v, w, if s.view.beyondEnd then r else Outcome(v.(error := s.view.error), s.world, false),
                   FlatNext(FlattenHandler(slot.handler, Guard(slot.pattern)) + Flatten(v.slots, []), State(v, w)))
  {
    var g := Guard(slot.pattern);
    MountedAsAlone(scope, slot.handler.chain, slot.pattern, State(v, w));
    FlatAppend(FlattenNodes(slot.handler.chain, g), Flatten(v.slots, []), State(v, w));
    if s.view.beyondEnd { VisitsThen(w, s.world, r.world); }
  }

  lemma {:induction false} FuncAgrees(scope: Scope, top: bool, slot: Slot, v: View, w: World, o: Outcome)
    requires Ready(scope, v, w) && !v.error && !w.closed && slot.handler.Func?
    requires Matches(slot.pattern, v.message.value.path)
    requires var (s1, calls) := Lead(slot.handler.program, State(v, w));
             Agrees(scope, top, v, Record(slot, v, w), o, if calls then FlatNext(Flatten(v.slots, []), s1)
                 else FlatRun([], s1, false))
    ensures Agrees(scope, top, v, w, o,
                   FlatNext(FlattenHandler(slot.handler, Guard(slot.pattern)) + Flatten(v.slots, []), State(v, w)))
  {
    var w1 := Record(slot, v, w);
    VisitsThen(w, w1, o.world);
    var item := FlatItem(Guard(slot.pattern), slot.handler.tag, slot.handler.program);
    assert ([item] + Flatten(v.slots, []))[1..] == Flatten(v.slots, []);
    assert Visits(New(w, w1)) == [(item.tag, v.message.value.path)];
  }

  lemma {:induction false} InnerIsOuter(program: seq<Action>)
    requires InnerProgram(program)
    ensures OuterProgram(program)
  {
    if |program| > 0 && !program[0].CallNext? { InnerIsOuter(program[1..]); }
  }

  lemma {:induction false} DoFlat(scope: Scope, top: bool, a: Action, v: View, w: World)
    requires Ready(scope, v, w) && !a.CallNext? && Keeps(scope, a)
    ensures var o := Do(a, v, w);
            && Ready(scope, o.view, o.world) && o.view.slots == v.slots && o.world.trace == w.trace
            && (o.panicked ==> Agrees(scope, top, v, w, Recovered(o), FlatRun([], State(v, w).(error := true), false)))
  {
    var o := Do(a, v, w);
    OtherActions(a, v, w);
    ActionKeepsFree(scope, a, v, w);
    if o.panicked { AgreesStill(scope, top, v, w, Recovered(o), FlatRun([], State(v, w).(error := true), false)); }
  }

  lemma {:induction false} RunFlat(scope: Scope, top: bool, program: seq<Action>, v: View, w: World)
    requires Ready(scope, v, w) && Fit(scope, top, v.slots)
    requires OuterFor(scope, program) && (!top ==> InnerProgram(program))
    ensures var (s1, calls) := Lead(program, State(v, w));
            Agrees(scope, top, v, w, Recovered(Run(program, v, w)),
                   if calls then FlatNext(Flatten(v.slots, []), s1) else FlatRun([], s1, false))
    decreases Weight(v.slots), 5 + |program|
  {
    if |program| == 0 {
      AgreesStill(scope, top, v, w, Outcome(v, w, false), FlatRun([], State(v, w), false));
    } else if program[0].CallNext? {
      var o := Next(v, w);
      assert Do(program[0], v, w) == o;
      NextFlat(scope, top, v, w);
      QuietRun(scope, program[1..], o.view, o.world);
      assert !top ==> program[1..] == [];
      AgreesQuiet(scope, top, v, w, o, Run(program[1..], o.view, o.world), FlatNext(Flatten(v.slots, []), State(v, w)));
    } else {
      var o := Do(program[0], v, w);
      assert program[0] in program;
      DoFlat(scope, top, program[0], v, w);
      if !o.panicked {
        LeadStep(program, v, w);
        RunFlat(scope, top, program[1..], o.view, o.world);
        var (s1, calls) := Lead(program, State(v, w));
        AgreesFrom(scope, top, v, w, o, Recovered(Run(program[1..], o.view, o.world)),
                   if calls then FlatNext(Flatten(v.slots, []), s1) else FlatRun([], s1, false));
      }
    }
  }

  lemma {:induction false} AgreesQuiet(scope: Scope, top: bool, v: View, w: World, o: Outcome, r: Outcome, f: FlatRun)
    requires Agrees(scope, top, v, w, o, f) && !r.panicked
    requires Ready(scope, r.view, r.world) && r.world.trace == o.world.trace
    requires r.view.error == o.view.error && r.world.closed == o.world.closed
    requires !top ==> r == o
    ensures Agrees(scope, top, v, w, r, f)
  {}

  lemma {:induction false} LeadStep(program: seq<Action>, v: View, w: World)
    requires |program| > 0 && !program[0].CallNext? && !program[0].Panic? && v.message.Some?
    ensures var o := Do(program[0], v, w);
            && o.view.message.Some? && o.view.beyondEnd == v.beyondEnd
            && Lead(program, State(v, w)) == Lead(program[1..], State(o.view, o.world))
            && (!program[0].SetPath? ==> o.view.message.value.path == v.message.value.path)
  {
    var o, s := Do(program[0], v, w), State(v, w);
    assert State(o.view, o.world) == match program[0]
      case SetPath(path) => s.(path := path)
      case SetError => s.(error := true)
      case CloseSocket => s.(closed := true)
      case _ => s;
  }

  lemma {:induction false} AgreesFrom(scope: Scope, top: bool, v: View, w: World, o: Outcome, r: Outcome, f: FlatRun)
    requires Agrees(scope, top, o.view, o.world, r, f) && o.world.trace == w.trace
    requires v.message.Some? && o.view.message.Some? && o.view.beyondEnd == v.beyondEnd
    requires !top ==> o.view.message.value.path == v.message.value.path
    ensures Agrees(scope, top, v, w, r, f)
  {}

  // ---- The theorem

  ghost predicate TopNodes(scope: Scope, nodes: seq<Node>) {
    forall n | n in nodes :: Stands(n, Normal(scope)) && forall h | h in n.handlers :: TopHandler(scope, h)
  }

  lemma {:induction false} NodeSlotsTop(scope: Scope, node: Node, from: nat)
    requires from <= |node.handlers| && TopNodes(scope, [node])
    ensures Fit(scope, true, NodeSlots(node, from))
    decreases |node.handlers| - from
  {
    if from < |node.handlers| {
      NodeSlotsTop(scope, node, from + 1);
      assert node in [node] && node.handlers[from] in node.handlers;
    }
  }

  lemma {:induction false} SlotsTop(scope: Scope, nodes: seq<Node>)
    requires TopNodes(scope, nodes)
    ensures Fit(scope, true, Slots(nodes))
  {
    if |nodes| > 0 {
      assert nodes[0] in nodes;
      NodeSlotsTop(scope, nodes[0], 0);
      SlotsTop(scope, nodes[1..]);
    }
  }

  lemma {:induction false} FlatNodesSame(scope: Scope, items: seq<FlatItem>)
    ensures var ys := FlattenNodes(FlatNodes(items), []);
            |ys| == |items| && forall i :: 0 <= i < |items| ==> SameItem(items[i], ys[i], false, "")
    ensures SPLICED in scope.at && (forall x | x in items :: OuterFor(scope, x.program)) ==>
              TopNodes(scope, FlatNodes(items))
  {
    if |items| > 0 {
      FlatNodesSame(scope, items[1..]);
      var x := items[0];
      var y := FlatItem([All(x.guards)], x.tag, x.program);
      var ys := FlattenNodes(FlatNodes(items[1..]), []);
      FlatNodeSame(x, y);
      FlatNodesStep(items, y);
      forall i | 0 <= i < |items| ensures SameItem(items[i], ([y] + ys)[i], false, "") {
        if i > 0 { assert SameItem(items[1..][i - 1], ys[i - 1], false, ""); }
      }
      assert items[0] in items && forall z | z in items[1..] :: z in items;
    }
  }

  lemma {:induction false} FlatNodeSame(x: FlatItem, y: FlatItem)
    requires y == FlatItem([All(x.guards)], x.tag, x.program)
    ensures SameItem(x, y, false, "")
  {
    forall p: string ensures Accepts(x.guards, p) <==> Accepts(y.guards, p) {
      assert Captures(y.guards[0], p).Some? <==> Accepts(x.guards, p);
    }
  }

  lemma {:induction false} FlatNodesStep(items: seq<FlatItem>, y: FlatItem)
    requires |items| > 0 && y == FlatItem([All(items[0].guards)], items[0].tag, items[0].program)
    ensures FlattenNodes(FlatNodes(items), []) == [y] + FlattenNodes(FlatNodes(items[1..]), [])
  {
    var n := FlatNodes(items)[0];
    assert FlatNodes(items)[1..] == FlatNodes(items[1..]);
    assert [] + Guard(n.pattern) == [All(items[0].guards)];
    assert n.handlers[1..] == [];
    assert FlattenHandlers(n.handlers, [All(items[0].guards)]) == [y];
  }

  lemma {:induction false} TopFlattenOuter(scope: Scope, nodes: seq<Node>)
    requires TopNodes(scope, nodes)
    ensures forall x | x in FlattenNodes(nodes, []) :: OuterFor(scope, x.program)
  {
    if |nodes| > 0 {
      assert nodes[0] in nodes;
      TopHandlersOuter(scope, nodes[0].handlers, [] + Guard(nodes[0].pattern));
      TopFlattenOuter(scope, nodes[1..]);
    }
  }

  lemma {:induction false} TopHandlersOuter(scope: Scope, hs: seq<Handler>, guards: seq<Matcher>)
    requires forall h | h in hs :: TopHandler(scope, h)
    ensures forall x | x in FlattenHandlers(hs, guards) :: OuterFor(scope, x.program)
    decreases |hs|
  {
    if |hs| > 0 {
      assert hs[0] in hs;
      if hs[0].Mount? {
        FlattenNodesHabit(hs[0].chain, guards, Normal(scope), Inner(scope));
        forall x | x in FlattenNodes(hs[0].chain, guards) ensures OuterFor(scope, x.program) {
          InnerIsOuter(x.program);
        }
      }
      TopHandlersOuter(scope, hs[1..], guards);
    }
  }

  /** Nested and spliced chains enter the same handlers under the same paths, and end in the same state. The registry
      may hold anything, and change, as long as no receiver stands at a handler of either under an ID the message has
      or a handler sets. */
  lemma {:induction false} SplicingKeepsEntries(nodes: seq<Node>, message: Message, w: World, scope: Scope)
    requires TopNodes(scope, nodes) && SPLICED in scope.at
    requires (message.hasSetID ==> message.id in scope.ids) && Clear(scope, w.receivers)
    ensures var nested, flat := Next(Start(nodes, message), w), Next(Start(Splice(nodes), message), w);
            && Grows(w, nested.world) && Grows(w, flat.world)
            && Visits(New(w, nested.world)) == Visits(New(w, flat.world))
            && nested.view.error == flat.view.error && nested.world.closed == flat.world.closed
  {
    var items := FlattenNodes(nodes, []);
    var s := FlatState(message.path, false, w.closed);
    SlotsTop(scope, nodes);
    SlotsFlatten(nodes, []);
    assert |nodes| > 0 ==> nodes[0] in nodes;
    NextFlat(scope, true, Start(nodes, message), w);

    TopFlattenOuter(scope, nodes);
    FlatNodesSame(scope, items);
    SlotsTop(scope, Splice(nodes));
    SlotsFlatten(Splice(nodes), []);
    assert |Splice(nodes)| > 0 ==> Splice(nodes)[0] in Splice(nodes);
    NextFlat(scope, true, Start(Splice(nodes), message), w);
    FlatSame(items, FlattenNodes(Splice(nodes), []), s, false);
  }

  ghost function Filter(items: seq<FlatItem>, path: string): seq<(nat, string)> {
    if |items| == 0 then []
    else (if Accepts(items[0].guards, path) then [(items[0].tag, path)] else []) + Filter(items[1..], path)
  }

  function Passing(): Habit { (program: seq<Action>) => program == [CallNext] }

  lemma {:induction false} FlatPass(items: seq<FlatItem>, s: FlatState)
    requires !s.error && !s.closed && forall x | x in items :: x.program == [CallNext]
    ensures FlatNext(items, s) == FlatRun(Filter(items, s.path), s, true)
  {
    if |items| > 0 {
      assert items[0] in items;
      FlatPass(items[1..], s);
      assert [] + Filter(items[1..], s.path) == Filter(items[1..], s.path);
    }
  }

  lemma {:induction false} PassingIsInner(scope: Scope, h: Handler)
    requires HandlerOk(h, Normal(scope), Passing())
    ensures HandlerOk(h, Normal(scope), Inner(scope))
    decreases h
  {
    if h.Mount? {
      forall n, k | n in h.chain && k in n.handlers ensures HandlerOk(k, Normal(scope), Inner(scope)) {
        PassingIsInner(scope, k);
      }
    }
  }

  /** When every handler just calls Next, exactly the handlers under matching patterns run, in order, if the message has
      no ID or no receiver of its ID stands at one of these handlers. */
  lemma {:induction false} PassingChainFiltersAndFlattens(nodes: seq<Node>, message: Message, w: World,
                                                          at: iset<Position>)
    requires !w.closed && NodesOk(nodes, Place(NormalBind, false, at), Passing())
    requires message.hasSetID && message.id in w.receivers ==> w.receivers[message.id] !in at
    ensures var o := Next(Start(nodes, message), w);
            Grows(w, o.world) && Visits(New(w, o.world)) == Filter(FlattenNodes(nodes, []), message.path)
  {
    var scope := Scope(if message.hasSetID then iset{message.id} else iset{}, at);
    forall n, h | n in nodes && h in n.handlers ensures HandlerOk(h, Normal(scope), Inner(scope)) {
      PassingIsInner(scope, h);
    }
    assert NodesOk(nodes, Normal(scope), Inner(scope));
    SlotsOkOf(nodes, Normal(scope), Inner(scope));
    assert |nodes| > 0 ==> nodes[0] in nodes;
    NextFlat(scope, false, Start(nodes, message), w);
    SlotsFlatten(nodes, []);
    FlattenNodesHabit(nodes, [], Normal(scope), Passing());
    FlatPass(FlattenNodes(nodes, []), FlatState(message.path, false, false));
  }
}
