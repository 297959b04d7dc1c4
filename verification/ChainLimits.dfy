/** Concrete chains: three on which mounting and splicing enter different handlers, because a handler sets the path
    below the mount, calls Next twice there, or does something after it; and two without a mount on which a second
    call of Next changes something. */
module ChainLimits {
  import opened Wrappers
  import opened Chain
  import opened ChainLaws
  import opened ChainLifecycle
  import opened ChainFlattening
  import ChainCalls

  const REQUEST := Message(false, "", "/a")
  const IDLE := World(false, map[], [])

  type Part = (Option<Matcher>, Handler)

  function At(part: Part): Slot { Slot(Position(0, 0), NormalBind, part.0, part.1) }

  function Line(parts: seq<Part>): seq<Node> {
    if |parts| == 0 then [] else [Node(0, NormalBind, parts[0].0, [parts[0].1])] + Line(parts[1..])
  }

  function Ats(parts: seq<Part>): seq<Slot> {
    if |parts| == 0 then [] else [At(parts[0])] + Ats(parts[1..])
  }

  lemma {:induction false} LineSlots(parts: seq<Part>)
    ensures Slots(Line(parts)) == Ats(parts)
    ensures |parts| > 0 ==> |Line(parts)| > 0 && Line(parts)[0].bindType == NormalBind
  {
    if |parts| > 0 {
      var n := Line(parts)[0];
      assert NodeSlots(n, 1) == [];
      assert Line(parts)[1..] == Line(parts[1..]);
      LineSlots(parts[1..]);
    }
  }

  ghost function AtPart(parts: seq<Part>, v: View): View {
    v.(slots := Ats(parts), current := Some(NormalBind))
  }

  /** The message has no ID, so the registry plays no part. */
  ghost const NOWHERE := Scope(iset{}, ANYWHERE)

  ghost predicate Going(v: View, w: World) {
    Ready(NOWHERE, v, w) && !v.error && !w.closed && !v.receiverOpen
  }

  /** The tags a fresh context enters on a chain. */
  ghost function Entered(parts: seq<Part>): seq<nat> {
    Tags(Next(Start(Line(parts), REQUEST), IDLE).world.trace)
  }

  lemma {:induction false} OnFunc(parts: seq<Part>, v: View, w: World)
    requires Going(v, w) && |parts| > 0 && v.slots == Ats(parts)
    requires Matches(parts[0].0, v.message.value.path) && parts[0].1.Func?
    ensures var v1 := AtPart(parts[1..], v);
            var r := Recovered(Run(parts[0].1.program, v1, Record(At(parts[0]), v1, w)));
            Next(v, w) == r.(view := Left(r.view))
  {
    assert Ats(parts)[1..] == Ats(parts[1..]);
    NormalNext(NOWHERE, v, w, v.slots);
  }

  lemma {:induction false} OnMount(parts: seq<Part>, v: View, w: World, inner: seq<Part>, s: Outcome)
    requires Going(v, w) && |parts| > 0 && v.slots == Ats(parts)
    requires Matches(parts[0].0, v.message.value.path) && parts[0].1 == Mount(Line(inner))
    requires s == Next(SubView(AtPart(parts[1..], v), Line(inner)), w) && !s.panicked && !s.view.receiverOpen
    ensures var parent := AtPart(parts[1..], v).(error := s.view.error);
            Next(v, w).world == if s.view.beyondEnd then Next(parent, s.world).world else s.world
  {
    assert Ats(parts)[1..] == Ats(parts[1..]);
    NormalNext(NOWHERE, v, w, v.slots);
    assert Mounted(AtPart(parts[1..], v), Line(inner), w) == s;
  }

  lemma {:induction false} OnEnd(v: View, w: World)
    requires Going(v, w) && |Skip(v.slots, v.message.value.path)| == 0
    ensures Next(v, w) == Outcome(Left(v).(beyondEnd := true), w, false)
  {}

  lemma {:induction false} RunTwo(a: Action, b: Action, v: View, w: World)
    requires !Do(a, v, w).panicked
    ensures Run([a, b], v, w) == var o := Do(a, v, w); Do(b, o.view, o.world)
  {
    assert [a, b][1..] == [b];
    ChainCalls.RunOnce(b, Do(a, v, w).view, Do(a, v, w).world);
  }

  /** A last handler that does nothing. */
  lemma {:induction false} OnStop(part: Part, v: View, w: World)
    requires Going(v, w) && v.slots == [At(part)] && part.1.Func? && part.1.program == []
    requires Matches(part.0, v.message.value.path)
    ensures Next(v, w) == Outcome(Left(v), Record(At(part), v, w), false)
  {
    assert [part][1..] == [] && Ats([part]) == [At(part)];
    OnFunc([part], v, w);
    assert Left(AtPart([], v)) == Left(v);
  }

  // ---- Failing after Next

  const FAILS: Part := (None, Func(1, [CallNext, SetError]))
  const LAST: Part := (None, Func(2, []))

  lemma FailingSpliced()
    ensures Entered([FAILS, LAST]) == [1, 2]
  {
    LineSlots([FAILS, LAST]);
    var v := Start(Line([FAILS, LAST]), REQUEST);
    OnFunc([FAILS, LAST], v, IDLE);
    assert [FAILS, LAST][1..] == [LAST] && Ats([LAST]) == [At(LAST)];
    var v1 := AtPart([LAST], v);
    var w1 := Record(At(FAILS), v1, IDLE);
    OnStop(LAST, v1, w1);
    RunTwo(CallNext, SetError, v1, w1);
  }

  lemma {:induction false} FailingBelow(v: View)
    requires Going(v, IDLE) && v.slots == Ats([FAILS]) && v.message.value == REQUEST
    ensures Next(v, IDLE) == Outcome(Left(v).(beyondEnd := true, error := true),
            Record(At(FAILS), AtPart([], v), IDLE), false)
  {
    assert [FAILS][1..] == [];
    OnFunc([FAILS], v, IDLE);
    var v1 := AtPart([], v);
    var w1 := Record(At(FAILS), v1, IDLE);
    OnEnd(v1, w1);
    RunTwo(CallNext, SetError, v1, w1);
  }

  lemma FailingMounted()
    ensures Entered([(None, Mount(Line([FAILS]))), LAST]) == [1]
  {
    var parts: seq<Part> := [(None, Mount(Line([FAILS]))), LAST];
    LineSlots(parts);
    LineSlots([FAILS]);
    var v := Start(Line(parts), REQUEST);
    var sub := SubView(AtPart(parts[1..], v), Line([FAILS]));
    FailingBelow(sub);
    OnMount(parts, v, IDLE, [FAILS], Next(sub, IDLE));
  }

  /** A handler that fails after Next returned stops the rest of the parent's chain, which spliced in
      would already have run. */
  lemma FailingAfterNext()
    ensures Entered([(None, Mount(Line([FAILS]))), LAST]) == [1] && Entered([FAILS, LAST]) == [1, 2]
  {
    FailingMounted();
    FailingSpliced();
  }

  // ---- Setting the path

  const MOVES: Part := (None, Func(1, [SetPath("/b"), CallNext]))

  function Only(path: string): Matcher { p => if p == path then Some(map[]) else None }

  const MOVED: Part := (Some(Only("/b")), Func(2, []))

  lemma MovingSpliced()
    ensures Entered([MOVES, MOVED]) == [1, 2]
  {
    LineSlots([MOVES, MOVED]);
    var v := Start(Line([MOVES, MOVED]), REQUEST);
    OnFunc([MOVES, MOVED], v, IDLE);
    assert [MOVES, MOVED][1..] == [MOVED] && Ats([MOVED]) == [At(MOVED)];
    var v1 := AtPart([MOVED], v);
    var w1 := Record(At(MOVES), v1, IDLE);
    OnStop(MOVED, v1.(message := Some(REQUEST.(path := "/b"))), w1);
    RunTwo(SetPath("/b"), CallNext, v1, w1);
  }

  lemma {:induction false} MovingBelow(v: View)
    requires Going(v, IDLE) && v.slots == Ats([MOVES]) && v.message.value == REQUEST
    ensures var o := Next(v, IDLE);
            !o.panicked && o.view.beyondEnd && !o.view.error && !o.view.receiverOpen
                && o.world == Record(At(MOVES), AtPart([], v), IDLE)
  {
    assert [MOVES][1..] == [];
    OnFunc([MOVES], v, IDLE);
    var v1 := AtPart([], v);
    var w1 := Record(At(MOVES), v1, IDLE);
    OnEnd(v1.(message := Some(REQUEST.(path := "/b"))), w1);
    RunTwo(SetPath("/b"), CallNext, v1, w1);
  }

  lemma MovingMounted()
    ensures Entered([(None, Mount(Line([MOVES]))), MOVED]) == [1]
  {
    var parts: seq<Part> := [(None, Mount(Line([MOVES]))), MOVED];
    LineSlots(parts);
    LineSlots([MOVES]);
    var v := Start(Line(parts), REQUEST);
    var v1 := AtPart(parts[1..], v);
    var sub := SubView(v1, Line([MOVES]));
    MovingBelow(sub);
    var s := Next(sub, IDLE);
    OnMount(parts, v, IDLE, [MOVES], s);
    assert parts[1..] == [MOVED] && Ats([MOVED]) == [At(MOVED)] && [At(MOVED)][1..] == [];
    assert !Matches(MOVED.0, "/a");
    OnEnd(v1, s.world);
  }

  /** A path set below a mount is not seen by the parent's chain. */
  lemma SettingPathBelowMount()
    ensures Entered([(None, Mount(Line([MOVES]))), MOVED]) == [1] && Entered([MOVES, MOVED]) == [1, 2]
  {
    MovingMounted();
    MovingSpliced();
  }

  // ---- Calling Next twice

  const TWICE: Part := (None, Func(1, [CallNext, CallNext]))
  const RESUMED: Part := (None, Func(3, []))

  /** The first call enters LAST, which stops; the second one finds the end of the chain. */
  lemma {:induction false} TwiceThenStop(parts: seq<Part>, v: View)
    requires Going(v, IDLE) && v.slots == Ats([TWICE, LAST] + parts) && v.message.value == REQUEST
    ensures var w1 := Record(At(TWICE), AtPart([LAST] + parts, v), IDLE);
            var w2 := Record(At(LAST), AtPart(parts, v), w1);
            Next(v, IDLE) == Outcome(Left(v).(beyondEnd := true), w2, false)
  {
    var all := [TWICE, LAST] + parts;
    assert all[1..] == [LAST] + parts && ([LAST] + parts)[1..] == parts;
    OnFunc(all, v, IDLE);
    var v1 := AtPart([LAST] + parts, v);
    var w1 := Record(At(TWICE), v1, IDLE);
    OnFunc([LAST] + parts, v1, w1);
    var w2 := Record(At(LAST), AtPart(parts, v), w1);
    assert Next(v1, w1) == Outcome(Left(v1), w2, false);
    OnEnd(Left(v1), w2);
    RunTwo(CallNext, CallNext, v1, w1);
  }

  lemma TwiceMounted()
    ensures Entered([(None, Mount(Line([TWICE, LAST]))), RESUMED]) == [1, 2, 3]
  {
    var parts: seq<Part> := [(None, Mount(Line([TWICE, LAST]))), RESUMED];
    LineSlots(parts);
    LineSlots([TWICE, LAST]);
    var v := Start(Line(parts), REQUEST);
    var v1 := AtPart(parts[1..], v);
    var sub := SubView(v1, Line([TWICE, LAST]));
    assert [TWICE, LAST] + [] == [TWICE, LAST];
    TwiceThenStop([], sub);
    var s := Next(sub, IDLE);
    OnMount(parts, v, IDLE, [TWICE, LAST], s);
    assert parts[1..] == [RESUMED] && Ats([RESUMED]) == [At(RESUMED)];
    OnStop(RESUMED, v1, s.world);
  }

  lemma TwiceSpliced()
    ensures Entered([TWICE, LAST, RESUMED]) == [1, 2]
  {
    LineSlots([TWICE, LAST, RESUMED]);
    assert [TWICE, LAST] + [RESUMED] == [TWICE, LAST, RESUMED];
    TwiceThenStop([RESUMED], Start(Line([TWICE, LAST, RESUMED]), REQUEST));
  }

  /** Below a mount, calling Next twice resumes the parent's chain although an inner handler had stopped it. */
  lemma CallingNextTwiceBelowMount()
    ensures Entered([(None, Mount(Line([TWICE, LAST]))), RESUMED]) == [1, 2, 3]
    ensures Entered([TWICE, LAST, RESUMED]) == [1, 2]
  {
    TwiceMounted();
    TwiceSpliced();
  }

  // ---- Calling Next twice without a mount

  const NAMED := Message(true, "a", "/a")

  /** A handler that calls Next, or calls it twice; one that stops; one at which another goroutine waits under the ID
      "a". */
  const CALLS: Node := Node(0, NormalBind, None, [Func(1, [CallNext])])
  const CALLS_TWICE: Node := Node(0, NormalBind, None, [Func(1, [CallNext] + [CallNext])])
  const STOPS: Node := Node(1, NormalBind, None, [Func(2, [])])
  const RECEIVES: Node := Node(2, NormalBind, None, [Func(3, [])])
  const LISTENED := World(false, map["a" := Position(2, 0)], [])

  function Alone(n: Node): Slot
    requires |n.handlers| == 1
  {
    Slot(Position(n.ref, 0), n.bindType, n.pattern, n.handlers[0])
  }

  lemma {:induction false} AloneSlots(n: Node, rest: seq<Node>)
    requires |n.handlers| == 1
    ensures Slots([n] + rest) == [Alone(n)] + Slots(rest)
  {
    assert NodeSlots(n, 1) == [] && ([n] + rest)[1..] == rest;
  }

  ghost function Onwards(rest: seq<Node>): View {
    View(Slots(rest), Some(NormalBind), Some(NAMED), false, false, false, false)
  }

  /** What becomes of a list that starts with the handler calling Next, and of the same list with the second call. */
  lemma {:induction false} CallsThen(rest: seq<Node>, o: Outcome)
    requires o == Next(Onwards(rest), Record(Alone(CALLS), Onwards(rest), LISTENED))
    requires !o.panicked && ChainCalls.Returned(o.view)
    ensures Next(Start([CALLS] + rest, NAMED), LISTENED) == Outcome(Left(o.view), o.world, false)
    ensures var again := ChainCalls.Again(o.view, o.world);
            Next(Start([CALLS_TWICE] + rest, NAMED), LISTENED)
            == Outcome(Left(again.view).(error := again.view.error || again.panicked), again.world, false)
  {
    var v, u := Start([CALLS] + rest, NAMED), Start([CALLS_TWICE] + rest, NAMED);
    AloneSlots(CALLS, rest);
    AloneSlots(CALLS_TWICE, rest);
    assert Matches(None, "/a");
    assert v.slots[1..] == Slots(rest) && u.slots[1..] == Slots(rest);
    var w1 := Record(Alone(CALLS), Onwards(rest), LISTENED);
    ChainCalls.NextFirst(v, LISTENED, v.slots, 1, [CallNext]);
    ChainCalls.NextFirst(u, LISTENED, u.slots, 1, [CallNext] + [CallNext]);
    ChainCalls.RunOnce(CallNext, Onwards(rest), w1);
    ChainCalls.RunAppend([CallNext], [CallNext], Onwards(rest), w1);
    ChainCalls.RunOnce(CallNext, o.view, o.world);
    ChainCalls.ReturnedNext(o.view, o.world);
  }

  /** The first call enters a handler that stops; the second drops the receiver of a handler further on. */
  lemma {:induction false} SecondCallDropsReceiver()
    ensures Next(Start([CALLS] + [STOPS, RECEIVES], NAMED), LISTENED).world.receivers == map["a" := Position(2, 0)]
    ensures Next(Start([CALLS_TWICE] + [STOPS, RECEIVES], NAMED), LISTENED).world.receivers == map[]
  {
    var rest := [STOPS, RECEIVES];
    var v, w := Onwards(rest), Record(Alone(CALLS), Onwards(rest), LISTENED);
    assert rest == [STOPS] + [RECEIVES];
    AloneSlots(STOPS, [RECEIVES]);
    assert Matches(None, "/a");
    ChainCalls.NextFirst(v, w, v.slots, 2, []);
    CallsThen(rest, Next(v, w));
    assert map["a" := Position(2, 0)] - {"a"} == map[];
  }

  /** The first call hands the message over; the second panics, which leaves an error. */
  lemma {:induction false} SecondCallPanics()
    ensures !Next(Start([CALLS] + [RECEIVES], NAMED), LISTENED).view.error
    ensures Next(Start([CALLS_TWICE] + [RECEIVES], NAMED), LISTENED).view.error
  {
    var rest := [RECEIVES];
    var v, w := Onwards(rest), Record(Alone(CALLS), Onwards(rest), LISTENED);
    assert rest == [RECEIVES] + [];
    AloneSlots(RECEIVES, []);
    assert Matches(None, "/a") && HandsOver(v, w, v.slots[0].at);
    CallsThen(rest, Next(v, w));
  }
}
