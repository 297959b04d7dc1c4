/** Laws of `Chain.Next` for arbitrary handler programs, mounted routers of any depth included. */
module ChainLaws {
  import opened Wrappers
  import opened Chain

  // ---- Order: what is entered is a subsequence of the registered handlers, left to right

  ghost function HandlerLeaves(h: Handler): seq<nat>
    decreases h, 0
  {
    match h
    case Func(tag, _) => [tag]
    case Mount(chain) => NodesLeaves(chain)
  }

  ghost function HandlersLeaves(hs: seq<Handler>): seq<nat>
    decreases hs, 0
  {
    if |hs| == 0 then [] else HandlerLeaves(hs[0]) + HandlersLeaves(hs[1..])
  }

  /** The handler functions of a chain in registration order, mounted routers spliced in place. */
  ghost function NodesLeaves(nodes: seq<Node>): seq<nat>
    decreases nodes, 0
  {
    if |nodes| == 0 then [] else HandlersLeaves(nodes[0].handlers) + NodesLeaves(nodes[1..])
  }

  ghost function Leaves(slots: seq<Slot>): seq<nat> {
    if |slots| == 0 then [] else HandlerLeaves(slots[0].handler) + Leaves(slots[1..])
  }

  lemma {:induction false} LeavesAppend(a: seq<Slot>, b: seq<Slot>)
    ensures Leaves(a + b) == Leaves(a) + Leaves(b)
  {
    if |a| == 0 {
      assert a + b == b;
    } else {
      assert (a + b)[1..] == a[1..] + b;
      LeavesAppend(a[1..], b);
    }
  }

  lemma {:induction false} NodeSlotsLeaves(node: Node, from: nat)
    requires from <= |node.handlers|
    ensures Leaves(NodeSlots(node, from)) == HandlersLeaves(node.handlers[from..])
    decreases |node.handlers| - from
  {
    if from < |node.handlers| {
      assert node.handlers[from..][1..] == node.handlers[from + 1..];
      NodeSlotsLeaves(node, from + 1);
    }
  }

  lemma {:induction false} SlotsLeaves(nodes: seq<Node>)
    ensures Leaves(Slots(nodes)) == NodesLeaves(nodes)
  {
    if |nodes| > 0 {
      NodeSlotsLeaves(nodes[0], 0);
      assert nodes[0].handlers[0..] == nodes[0].handlers;
      SlotsLeaves(nodes[1..]);
      LeavesAppend(NodeSlots(nodes[0], 0), Slots(nodes[1..]));
    }
  }

  ghost predicate Subsequence(xs: seq<nat>, ys: seq<nat>) {
    |xs| == 0 ||
    (|ys| > 0 && ((xs[0] == ys[0] && Subsequence(xs[1..], ys[1..])) || Subsequence(xs, ys[1..])))
  }

  lemma {:induction false} SubsequenceAppend(x1: seq<nat>, y1: seq<nat>, x2: seq<nat>, y2: seq<nat>)
    requires Subsequence(x1, y1) && Subsequence(x2, y2)
    ensures Subsequence(x1 + x2, y1 + y2)
    decreases |y1|
  {
    if |y1| == 0 {
      assert x1 + x2 == x2 && y1 + y2 == y2;
    } else {
      assert (y1 + y2)[1..] == y1[1..] + y2;
      if |x1| > 0 && x1[0] == y1[0] && Subsequence(x1[1..], y1[1..]) {
        assert (x1 + x2)[1..] == x1[1..] + x2;
        SubsequenceAppend(x1[1..], y1[1..], x2, y2);
      } else {
        SubsequenceAppend(x1, y1[1..], x2, y2);
      }
    }
  }

  ghost predicate Increasing(xs: seq<nat>) {
    forall i, j :: 0 <= i < j < |xs| ==> xs[i] < xs[j]
  }

  lemma {:induction false} SubsequenceIncreasing(xs: seq<nat>, ys: seq<nat>)
    requires Subsequence(xs, ys) && Increasing(ys)
    ensures Increasing(xs)
    ensures forall x :: x in xs ==> x in ys
    decreases |ys|
  {
    if |xs| > 0 {
      if xs[0] == ys[0] && Subsequence(xs[1..], ys[1..]) {
        SubsequenceIncreasing(xs[1..], ys[1..]);
        forall i, j | 0 <= i < j < |xs| ensures xs[i] < xs[j] {
          assert xs[j] == xs[1..][j - 1] && xs[j] in ys[1..];
          if i > 0 { assert xs[i] == xs[1..][i - 1]; }
        }
        forall x | x in xs ensures x in ys {
          if x != xs[0] { assert x in xs[1..]; }
        }
      } else {
        SubsequenceIncreasing(xs, ys[1..]);
      }
    }
  }

  ghost function Tags(trace: seq<Entry>): (tags: seq<nat>)
    ensures |tags| == |trace| && forall i :: 0 <= i < |trace| ==> tags[i] == trace[i].tag
  {
    seq(|trace|, i requires 0 <= i < |trace| => trace[i].tag)
  }

  /** `tags` were entered while the leaves ahead shrank from `before` to its suffix `after`. */
  ghost predicate InOrder(before: seq<nat>, tags: seq<nat>, after: seq<nat>) {
    |after| <= |before| && before[|before| - |after|..] == after && Subsequence(tags, before[..|before| - |after|])
  }

  lemma InOrderSplit(skipped: seq<nat>, tags: seq<nat>, after: seq<nat>)
    requires Subsequence(tags, skipped)
    ensures InOrder(skipped + after, tags, after)
  {
    assert (skipped + after)[..|skipped|] == skipped;
    assert (skipped + after)[|skipped|..] == after;
  }

  lemma InOrderThen(a: seq<nat>, t1: seq<nat>, b: seq<nat>, t2: seq<nat>, c: seq<nat>)
    requires InOrder(a, t1, b) && InOrder(b, t2, c)
    ensures InOrder(a, t1 + t2, c)
  {
    var x, y := a[..|a| - |b|], b[..|b| - |c|];
    SubsequenceAppend(t1, x, t2, y);
    assert a == x + b && b == y + c;
    assert a == (x + y) + c;
    InOrderSplit(x + y, t1 + t2, c);
  }

  lemma InOrderAll(a: seq<nat>, tags: seq<nat>, b: seq<nat>)
    requires InOrder(a, tags, b)
    ensures Subsequence(tags, a) && InOrder(a, tags, [])
  {
    SubsequenceAppend(tags, a[..|a| - |b|], [], b);
    assert tags + [] == tags && a[..|a| - |b|] + b == a;
    assert a[..|a|] == a;
  }

  lemma {:induction false} LeavesSuffix(slots: seq<Slot>, rest: seq<Slot>)
    requires |rest| <= |slots| && rest == slots[|slots| - |rest|..]
    ensures InOrder(Leaves(slots), [], Leaves(rest))
  {
    var dropped := slots[..|slots| - |rest|];
    assert slots == dropped + rest;
    LeavesAppend(dropped, rest);
    InOrderSplit(Leaves(dropped), [], Leaves(rest));
  }

  /** The trace only grows; `New` is what one run added. */
  ghost predicate Grows(w: World, w': World) {
    |w.trace| <= |w'.trace| && w'.trace[..|w.trace|] == w.trace
  }

  ghost function New(w: World, w': World): seq<Entry>
    requires Grows(w, w')
  {
    w'.trace[|w.trace|..]
  }

  lemma {:induction false} GrowsThen(w0: World, w1: World, w2: World)
    requires Grows(w0, w1) && Grows(w1, w2)
    ensures Grows(w0, w2) && New(w0, w2) == New(w0, w1) + New(w1, w2)
    ensures Tags(New(w0, w2)) == Tags(New(w0, w1)) + Tags(New(w1, w2))
  {
    assert New(w0, w2) == New(w0, w1) + New(w1, w2);
  }

  ghost predicate Ordered(v: View, w: World, o: Outcome) {
    Grows(w, o.world) && InOrder(Leaves(v.slots), Tags(New(w, o.world)), Leaves(o.view.slots))
  }

  lemma {:induction false} OrderedThen(v: View, w: World, o1: Outcome, o2: Outcome)
    requires Ordered(v, w, o1) && Ordered(o1.view, o1.world, o2)
    ensures Ordered(v, w, o2)
  {
    GrowsThen(w, o1.world, o2.world);
    InOrderThen(Leaves(v.slots), Tags(New(w, o1.world)), Leaves(o1.view.slots),
                Tags(New(o1.world, o2.world)), Leaves(o2.view.slots));
  }

  lemma {:induction false} OrderedStill(v: View, w: World, o: Outcome)
    requires o.view.slots == v.slots && o.world.trace == w.trace
    ensures Ordered(v, w, o)
  {
    InOrderSplit([], [], Leaves(v.slots));
    assert [] + Leaves(v.slots) == Leaves(v.slots);
  }

  /** As `Ordered`, for a run that starts by entering the handler of `slot`. */
  ghost predicate EnterOrdered(slot: Slot, v: View, w: World, o: Outcome) {
    Grows(w, o.world) &&
    InOrder(HandlerLeaves(slot.handler) + Leaves(v.slots), Tags(New(w, o.world)), Leaves(o.view.slots))
  }

  lemma {:induction false} EnterOrderedThen(slot: Slot, v: View, w: World, e: Outcome, o: Outcome)
    requires EnterOrdered(slot, v, w, e) && Ordered(e.view, e.world, o)
    ensures EnterOrdered(slot, v, w, o)
  {
    GrowsThen(w, e.world, o.world);
    InOrderThen(HandlerLeaves(slot.handler) + Leaves(v.slots), Tags(New(w, e.world)), Leaves(e.view.slots),
                Tags(New(e.world, o.world)), Leaves(o.view.slots));
  }

  lemma {:induction false} EnterOrderedWhole(slots: seq<Slot>, v: View, w: World, o: Outcome)
    requires |slots| > 0 && EnterOrdered(slots[0], v.(slots := slots[1..]), w, o)
    ensures Ordered(v.(slots := slots), w, o) && Ordered(v.(slots := slots), w, o.(view := Left(o.view)))
  {
    assert Leaves(slots) == HandlerLeaves(slots[0].handler) + Leaves(slots[1..]);
    InOrderAll(Leaves(slots), Tags(New(w, o.world)), Leaves(o.view.slots));
  }

  lemma {:induction false} FuncOrdered(slot: Slot, v: View, w: World, o: Outcome)
    requires v.message.Some? && slot.handler.Func? && Ordered(v, Record(slot, v, w), o)
    ensures EnterOrdered(slot, v, w, o)
  {
    var w1 := Record(slot, v, w);
    var tag := slot.handler.tag;
    GrowsThen(w, w1, o.world);
    assert Tags(New(w, w1)) == [tag];
    assert Subsequence([tag][1..], [tag][1..]);
    InOrderSplit([tag], [tag], Leaves(v.slots));
    InOrderThen([tag] + Leaves(v.slots), [tag], Leaves(v.slots), Tags(New(w1, o.world)), Leaves(o.view.slots));
  }

  lemma {:induction false} MountOrdered(slot: Slot, v: View, w: World, s: Outcome, parent: View)
    requires slot.handler.Mount? && Ordered(SubView(v, slot.handler.chain), w, s)
    requires parent.slots == v.slots
    ensures EnterOrdered(slot, v, w, Outcome(parent, s.world, s.panicked))
  {
    SlotsLeaves(slot.handler.chain);
    InOrderAll(HandlerLeaves(slot.handler), Tags(New(w, s.world)), Leaves(s.view.slots));
    InOrderSplit(HandlerLeaves(slot.handler), Tags(New(w, s.world)), Leaves(v.slots));
  }

  lemma {:induction false} SkippedThen(v: View, w: World, at: View, path: string, o: Outcome)
    requires at.slots == Skip(v.slots, path) && Ordered(at, w, o)
    ensures Ordered(v, w, o)
  {
    SkipDropsRejected(v.slots, path);
    LeavesSuffix(v.slots, at.slots);
    assert w.trace[|w.trace|..] == [];
    OrderedThen(v, w, Outcome(at, w, false), o);
  }

  /** However often and wherever `Next` is called, handlers are entered in registration order, none twice. */
  lemma {:induction false} NextInOrder(v: View, w: World)
    ensures Ordered(v, w, Next(v, w))
    decreases Weight(v.slots), 3
  {
    var o := Next(v, w);
    if Gated(v, w) || v.message.None? {
      OrderedStill(v, w, o);
    } else {
      var path := v.message.value.path;
      var slots := Skip(v.slots, path);
      var at := v.(slots := slots, current := if |slots| == 0 then None else Some(slots[0].bindType));
      if |slots| == 0 || HandsOver(v, w, slots[0].at) {
        OrderedStill(at, w, o);
      } else {
        DispatchInOrder(at, w);
      }
      SkippedThen(v, w, at, path, o);
    }
  }

  lemma {:induction false} DispatchInOrder(v: View, w: World)
    requires v.message.Some? && |v.slots| > 0
    ensures Ordered(v, w, Dispatch(v, w))
    decreases Weight(v.slots), 2
  {
    var slots := v.slots;
    var v1 := v.(slots := slots[1..]);
    var e := Enter(slots[0], v1, w);
    EnterInOrder(slots[0], v1, w);
    if AutoAdvances(slots[0].bindType, e.world) {
      NextInOrder(e.view, e.world);
      EnterOrderedThen(slots[0], v1, w, e, Next(e.view, e.world));
      EnterOrderedWhole(slots, v, w, Next(e.view, e.world));
    } else {
      EnterOrderedWhole(slots, v, w, e);
    }
  }

  lemma {:induction false} EnterInOrder(slot: Slot, v: View, w: World)
    requires v.message.Some?
    ensures EnterOrdered(slot, v, w, Enter(slot, v, w))
    decreases HandlerWeight(slot.handler) + Weight(v.slots), 1
  {
    match slot.handler
    case Func(_, program) =>
      RunInOrder(program, v, Record(slot, v, w));
      FuncOrdered(slot, v, w, Run(program, v, Record(slot, v, w)));
    case Mount(chain) =>
      SlotsWeight(chain);
      var s := Mounted(v, chain, w);
      NextInOrder(SubView(v, chain), w);
      MountedRuns(v, chain, w);
      var parent := v.(error := s.view.error);
      MountOrdered(slot, v, w, s, parent);
      if !s.panicked && s.view.beyondEnd {
        NextInOrder(parent, s.world);
        EnterOrderedThen(slot, v, w, Outcome(parent, s.world, s.panicked), Next(parent, s.world));
      }
  }

  lemma {:induction false} RunInOrder(program: seq<Action>, v: View, w: World)
    ensures Ordered(v, w, Run(program, v, w))
    decreases Weight(v.slots), 5 + |program|
  {
    if |program| == 0 {
      OrderedStill(v, w, Outcome(v, w, false));
    } else {
      var o := Do(program[0], v, w);
      if program[0].CallNext? {
        NextInOrder(v, w);
      } else {
        OrderedStill(v, w, o);
      }
      if !o.panicked {
        RunInOrder(program[1..], o.view, o.world);
        OrderedThen(v, w, o, Run(program[1..], o.view, o.world));
      }
    }
  }

  /** A context at the start of a chain. */
  function Start(nodes: seq<Node>, message: Message): View {
    var current := if |nodes| == 0 then None else Some(nodes[0].bindType);
    View(Slots(nodes), current, Some(message), false, false, false, false)
  }

  /** Registered with increasing tags, handlers run with strictly increasing tags: each at most once. */
  lemma {:induction false} EachHandlerAtMostOnce(nodes: seq<Node>, message: Message, w: World)
    requires Increasing(NodesLeaves(nodes))
    ensures var w' := Next(Start(nodes, message), w).world;
      Grows(w, w') && Increasing(Tags(New(w, w'))) && forall t :: t in Tags(New(w, w')) ==> t in NodesLeaves(nodes)
  {
    var v := Start(nodes, message);
    var o := Next(v, w);
    NextInOrder(v, w);
    SlotsLeaves(nodes);
    InOrderAll(Leaves(v.slots), Tags(New(w, o.world)), Leaves(o.view.slots));
    SubsequenceIncreasing(Tags(New(w, o.world)), NodesLeaves(nodes));
  }
}
