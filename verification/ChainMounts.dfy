/** What the handlers of a mounted router do to the parent's chain: when it goes on after them, and how that differs
    from the same handler in the mount's place when the handler sets the path or fails after Next. */
module ChainMounts {
  import opened Wrappers
  import opened Chain
  import opened ChainCalls
  import opened ChainLaws
  import opened ChainLifecycle
  import opened ChainFlattening

  // ---- Every mounted list

  /** After a mounted router of any list: the parent's list goes on, under the path and the message the parent has,
      exactly if a call of Next in the router ran off its end and no error or close stands when its handlers have
      returned. */
  lemma {:induction false} ParentGoesOn(slot: Slot, v: View, w: World)
    requires v.message.Some? && slot.handler.Mount? && v.current != Some(CloseBind)
    ensures var s := Mounted(v, slot.handler.chain, w);
            var ranOff := AnyRunsOff(NextCalls(SubView(v, slot.handler.chain), w));
            if !s.panicked && ranOff && !s.view.error && !s.world.closed
            then Enter(slot, v, w) == Recovered(Next(v.(error := false), s.world))
            else Enter(slot, v, w).world == s.world
  {
    EnterResumes(slot, v, w);
    ResumesExactly(v, slot.handler.chain, w);
  }

  /** For every mounted chain whose first handler has its call of Next come back without the end being reported: the
      parent's chain is not resumed; with one more call at the end of that handler it is, exactly if no error stands,
      the socket is open and the message is still there. */
  lemma {:induction false} SecondCallOfFirstHandler(v: View, chain: seq<Node>, again: seq<Node>, w: World,
                                                    slots: seq<Slot>, tag: nat, program: seq<Action>)
    requires v.message.Some? && EntersFirst(SubView(v, chain), w, slots, tag, program)
    requires EntersFirst(SubView(v, again), w, Longer(slots, tag, program), tag, program + [CallNext])
    requires var sub := Entered(SubView(v, chain), slots);
             var o := Run(program, sub, Record(slots[0], sub, w));
             !o.panicked && Returned(o.view) && !o.view.beyondEnd && o.view.current != Some(CloseBind)
    ensures !Resumes(v, chain, w)
    ensures var sub := Entered(SubView(v, chain), slots);
            var o := Run(program, sub, Record(slots[0], sub, w));
            Resumes(v, again, w) <==> !o.view.error && !o.world.closed && o.view.message.Some?
  {
    var first := SubView(v, chain);
    SecondCallOnList(first, w, slots, tag, program);
    MountedRuns(v, chain, w);
    MountedRuns(v, again, w);
    LongerEntersFirst(first, w, slots, tag, program);
    var longer := Longer(slots, tag, program);
    NextFirst(first.(slots := longer), w, longer, tag, program + [CallNext]);
    NextFirst(SubView(v, again), w, longer, tag, program + [CallNext]);
    assert Entered(SubView(v, again), longer) == Entered(first, slots);
  }

  // ---- In place of a mounted handler

  /** A list's running context: nothing failed, and no receiver is registered under the message's ID, if it has one. */
  ghost predicate Plain(v: View, w: World) {
    && v.message.Some? && (v.message.value.hasSetID ==> v.message.value.id !in w.receivers)
    && v.current == Some(NormalBind)
    && !v.error && !w.closed && !v.beyondEnd
  }

  function Only(ref: nat, pattern: Option<Matcher>, tag: nat, program: seq<Action>): Node {
    Node(ref, NormalBind, pattern, [Func(tag, program)])
  }

  function OnlySlot(ref: nat, pattern: Option<Matcher>, tag: nat, program: seq<Action>): Slot {
    Slot(Position(ref, 0), NormalBind, pattern, Func(tag, program))
  }

  /** What the router's only handler is given, and what it leaves behind. */
  ghost function Below(v: View): View {
    v.(slots := [], ownsReceiver := false)
  }

  lemma {:induction false} OnlySlots(ref: nat, pattern: Option<Matcher>, tag: nat, program: seq<Action>)
    ensures Slots([Only(ref, pattern, tag, program)]) == [OnlySlot(ref, pattern, tag, program)]
  {
    var n := Only(ref, pattern, tag, program);
    assert NodeSlots(n, 1) == [] && [n][1..] == [];
  }

  lemma {:induction false} OnlyMounted(v: View, w: World, ref: nat, pattern: Option<Matcher>, tag: nat,
                                       program: seq<Action>)
    requires Plain(v, w) && Matches(pattern, v.message.value.path)
    ensures var w1 := Record(OnlySlot(ref, pattern, tag, program), v, w);
            var o := Recovered(Run(program, Below(v), w1));
            var s := o.(view := Left(o.view));
            Mounted(v, [Only(ref, pattern, tag, program)], w) == s.(world := Finalized(s.view, s.world))
  {
    var slot, node := OnlySlot(ref, pattern, tag, program), Only(ref, pattern, tag, program);
    OnlySlots(ref, pattern, tag, program);
    NextFirst(SubView(v, [node]), w, [slot], tag, program);
    assert [slot][1..] == [] && Entered(SubView(v, [node]), [slot]) == Below(v);
  }

  /** Below a mount of one handler there is nothing to call Next for: the end of the list. */
  lemma {:induction false} NextBelow(v: View, w: World)
    requires Plain(v, w) && |v.slots| == 0
    ensures Next(v, w) == Outcome(Left(v).(beyondEnd := true), w, false)
  {
    ReceiverStays(v, w);
  }

  // ---- Failing after Next

  /** Actions that call nothing and leave the registry alone. */
  predicate Late(late: seq<Action>) {
    forall a | a in late :: !a.CallNext? && !a.Interfere? && !a.OpenReceiver?
  }

  predicate Stops(late: seq<Action>) {
    exists a :: a in late && (a.SetError? || a.CloseSocket? || a.Panic?)
  }

  lemma {:induction false} LateDo(a: Action, v: View, w: World)
    requires Late([a]) && v.message.Some?
    ensures var o := Do(a, v, w);
            && o.view.message.Some? && o.world.trace == w.trace
            && o.view.beyondEnd == v.beyondEnd && o.view.ownsReceiver == v.ownsReceiver
            && (o.panicked <==> a.Panic?) && o.view.error == (v.error || a.SetError?)
            && o.world == (if a.CloseSocket? then AfterClose(w) else w)
  {
    assert a in [a];
  }

  lemma StopsFirst(late: seq<Action>)
    requires |late| > 0
    ensures Stops(late) <==> late[0].SetError? || late[0].CloseSocket? || late[0].Panic? || Stops(late[1..])
    ensures Late(late) ==> Late(late[..1]) && Late(late[1..])
  {
    assert forall a :: a in late <==> a == late[0] || a in late[1..];
    assert late[..1] == [late[0]];
  }

  /** What such actions leave behind stops other handlers exactly if one of them fails or closes the socket. */
  lemma {:induction false} LateRun(late: seq<Action>, v: View, w: World)
    requires Late(late) && v.message.Some?
    ensures var o := Recovered(Run(late, v, w));
            && o.world.trace == w.trace
            && o.view.beyondEnd == v.beyondEnd && o.view.ownsReceiver == v.ownsReceiver
            && (o.view.error || o.world.closed <==> v.error || w.closed || Stops(late))
            && (!Stops(late) ==> o.world == w && o.view.error == v.error)
    decreases |late|
  {
    if |late| > 0 {
      var o := Do(late[0], v, w);
      StopsFirst(late);
      assert late[..1] == [late[0]];
      LateDo(late[0], v, w);
      if !o.panicked { LateRun(late[1..], o.view, o.world); }
    }
  }

  lemma {:induction false} FailingBelow(v: View, w: World, ref: nat, pattern: Option<Matcher>, tag: nat,
                                        late: seq<Action>)
    requires Plain(v, w) && Matches(pattern, v.message.value.path) && Late(late)
    ensures var w1 := Record(OnlySlot(ref, pattern, tag, [CallNext] + late), v, w);
            var s := Mounted(v, [Only(ref, pattern, tag, [CallNext] + late)], w);
            && !s.panicked && s.view.beyondEnd && s.world.trace == w1.trace
            && (s.view.error || s.world.closed <==> Stops(late))
            && (!Stops(late) ==> s.world == w1 && !s.view.error)
  {
    var program := [CallNext] + late;
    var w1 := Record(OnlySlot(ref, pattern, tag, program), v, w);
    OnlyMounted(v, w, ref, pattern, tag, program);
    RunAppend([CallNext], late, Below(v), w1);
    RunOnce(CallNext, Below(v), w1);
    NextBelow(Below(v), w1);
    LateRun(late, Left(Below(v)).(beyondEnd := true), w1);
  }

  /** For every list: a handler that calls Next and then goes on is followed by the same entries below a mount as in
      the mount's place exactly if nothing it does after Next fails or closes the socket, or nothing would be entered
      anyway. */
  lemma {:induction false} LateFailureStopsParent(at: Position, mount: Option<Matcher>, v: View, w: World, ref: nat,
                                                  pattern: Option<Matcher>, tag: nat, late: seq<Action>)
    requires Plain(v, w) && Matches(pattern, v.message.value.path) && Late(late)
    ensures var slot := OnlySlot(ref, pattern, tag, [CallNext] + late);
            var nested := Enter(Slot(at, NormalBind, mount, Mount([Only(ref, pattern, tag, [CallNext] + late)])), v, w);
            var placed := Enter(slot, v, w);
            var w1 := Record(slot, v, w);
            nested.world.trace == placed.world.trace <==> !Stops(late) || Next(v, w1).world.trace == w1.trace
  {
    var program := [CallNext] + late;
    var w1 := Record(OnlySlot(ref, pattern, tag, program), v, w);
    FailingBelow(v, w, ref, pattern, tag, late);
    EnterResumes(Slot(at, NormalBind, mount, Mount([Only(ref, pattern, tag, program)])), v, w);
    assert !Stops(late) ==> v.(error := false) == v;
    RunAppend([CallNext], late, v, w1);
    RunOnce(CallNext, v, w1);
    var o := Next(v, w1);
    if !o.panicked { LateEntersNothing(late, o.view, o.world); }
  }

  lemma {:induction false} LateEntersNothing(late: seq<Action>, v: View, w: World)
    requires Late(late)
    ensures Run(late, v, w).world.trace == w.trace
    decreases |late|
  {
    if |late| > 0 {
      var o := Do(late[0], v, w);
      assert late[0] in late;
      OtherActions(late[0], v, w);
      if !o.panicked { LateEntersNothing(late[1..], o.view, o.world); }
    }
  }

  // ---- Setting the path

  ghost function OnPath(v: View, path: string): View
    requires v.message.Some?
  {
    v.(message := Some(v.message.value.(path := path)))
  }

  lemma {:induction false} MovingBelow(v: View, w: World, ref: nat, pattern: Option<Matcher>, tag: nat, path: string)
    requires Plain(v, w) && Matches(pattern, v.message.value.path)
    ensures var w1 := Record(OnlySlot(ref, pattern, tag, [SetPath(path), CallNext]), v, w);
            var s := Mounted(v, [Only(ref, pattern, tag, [SetPath(path), CallNext])], w);
            !s.panicked && s.view.beyondEnd && s.world == w1 && !s.view.error
  {
    var program := [SetPath(path), CallNext];
    var w1 := Record(OnlySlot(ref, pattern, tag, program), v, w);
    OnlyMounted(v, w, ref, pattern, tag, program);
    MovingRun(Below(v), w1, path);
    NextBelow(OnPath(Below(v), path), w1);
  }

  lemma {:induction false} MovingRun(v: View, w: World, path: string)
    requires v.message.Some?
    ensures Run([SetPath(path), CallNext], v, w) == Next(OnPath(v, path), w)
  {
    assert [SetPath(path), CallNext] == [SetPath(path)] + [CallNext];
    RunAppend([SetPath(path)], [CallNext], v, w);
    RunOnce(SetPath(path), v, w);
    RunOnce(CallNext, OnPath(v, path), w);
  }

  /** For every list: a handler that sets the path and calls Next goes on under the old path below a mount, and under
      the new one in the mount's place. */
  lemma {:induction false} MountRestoresPath(at: Position, mount: Option<Matcher>, v: View, w: World, ref: nat,
                                             pattern: Option<Matcher>, tag: nat, path: string)
    requires Plain(v, w) && Matches(pattern, v.message.value.path)
    ensures var slot := OnlySlot(ref, pattern, tag, [SetPath(path), CallNext]);
            var w1 := Record(slot, v, w);
            && Enter(Slot(at, NormalBind, mount, Mount([Only(ref, pattern, tag, [SetPath(path), CallNext])])), v, w)
               == Recovered(Next(v, w1))
            && Enter(slot, v, w) == Recovered(Next(OnPath(v, path), w1))
  {
    var program := [SetPath(path), CallNext];
    var w1 := Record(OnlySlot(ref, pattern, tag, program), v, w);
    MovingBelow(v, w, ref, pattern, tag, path);
    EnterResumes(Slot(at, NormalBind, mount, Mount([Only(ref, pattern, tag, program)])), v, w);
    assert v.(error := false) == v;
    MovingRun(v, w1, path);
  }

  ghost predicate DistinctTags(items: seq<FlatItem>) {
    forall i, j :: 0 <= i < j < |items| ==> items[i].tag != items[j].tag
  }

  ghost function TagsOf(visits: seq<(nat, string)>): seq<nat> {
    seq(|visits|, i requires 0 <= i < |visits| => visits[i].0)
  }

  lemma {:induction false} FilteredTag(items: seq<FlatItem>, path: string, tag: nat)
    ensures tag in TagsOf(Filter(items, path)) <==>
              exists i :: 0 <= i < |items| && items[i].tag == tag && Accepts(items[i].guards, path)
  {
    if |items| > 0 {
      FilteredTag(items[1..], path, tag);
      var head := if Accepts(items[0].guards, path) then [items[0].tag] else [];
      assert TagsOf(Filter(items, path)) == head + TagsOf(Filter(items[1..], path));
      assert forall i :: 0 <= i < |items[1..]| ==> items[1..][i] == items[i + 1];
      assert forall i :: 0 < i < |items| ==> items[i] == items[1..][i - 1];
    }
  }

  lemma {:induction false} SameAcceptedSameTags(items: seq<FlatItem>, p: string, q: string)
    requires forall x :: x in items ==> (Accepts(x.guards, p) <==> Accepts(x.guards, q))
    ensures TagsOf(Filter(items, p)) == TagsOf(Filter(items, q))
  {
    if |items| > 0 {
      assert items[0] in items;
      SameAcceptedSameTags(items[1..], p, q);
      assert TagsOf(Filter(items, p))
          == (if Accepts(items[0].guards, p) then [items[0].tag] else []) + TagsOf(Filter(items[1..], p));
      assert TagsOf(Filter(items, q))
          == (if Accepts(items[0].guards, q) then [items[0].tag] else []) + TagsOf(Filter(items[1..], q));
    }
  }

  lemma {:induction false} SameTagsSameAccepted(items: seq<FlatItem>, p: string, q: string)
    requires DistinctTags(items) && TagsOf(Filter(items, p)) == TagsOf(Filter(items, q))
    ensures forall x :: x in items ==> (Accepts(x.guards, p) <==> Accepts(x.guards, q))
  {
    forall x | x in items ensures Accepts(x.guards, p) <==> Accepts(x.guards, q) {
      FilteredTag(items, p, x.tag);
      FilteredTag(items, q, x.tag);
      assert forall y :: y in items && y.tag == x.tag ==> y == x;
    }
  }

  lemma {:induction false} PassingEntries(v: View, w: World)
    requires Plain(v, w) && SlotsOk(v.slots, Place(NormalBind, false, ANYWHERE), Passing())
    ensures var o := Next(v, w);
            Grows(w, o.world) && Tags(New(w, o.world)) == TagsOf(Filter(Flatten(v.slots, []), v.message.value.path))
  {
    var scope := Scope(if v.message.value.hasSetID then iset{v.message.value.id} else iset{}, ANYWHERE);
    forall s | s in v.slots ensures SlotOk(s, Normal(scope), Inner(scope)) { PassingIsInner(scope, s.handler); }
    NextFlat(scope, false, v, w);
    PassingSlots(v.slots);
    FlatPass(Flatten(v.slots, []), State(v, w));
    var entries := New(w, Next(v, w).world);
    assert TagsOf(Visits(entries)) == Tags(entries);
  }

  lemma {:induction false} PassingSlots(slots: seq<Slot>)
    requires SlotsOk(slots, Place(NormalBind, false, ANYWHERE), Passing())
    ensures forall x | x in Flatten(slots, []) :: x.program == [CallNext]
  {
    if |slots| > 0 {
      assert slots[0] in slots;
      FlattenHandlerHabit(slots[0].handler, [] + Guard(slots[0].pattern), Place(NormalBind, false, ANYWHERE),
          Passing());
      PassingSlots(slots[1..]);
    }
  }

  /** Before a list of handlers that pass: below a mount and in its place, a handler that sets the path is followed
      by the same handlers exactly if each of them is under patterns that accept both paths or neither. */
  lemma {:induction false} SetPathKeepsParent(at: Position, mount: Option<Matcher>, v: View, w: World, ref: nat,
                                              pattern: Option<Matcher>, tag: nat, path: string)
    requires Plain(v, w) && Matches(pattern, v.message.value.path)
    requires SlotsOk(v.slots, Place(NormalBind, false, ANYWHERE), Passing()) && DistinctTags(Flatten(v.slots, []))
    ensures var slot := OnlySlot(ref, pattern, tag, [SetPath(path), CallNext]);
            var nested := Enter(Slot(at, NormalBind, mount,
                Mount([Only(ref, pattern, tag, [SetPath(path), CallNext])])), v, w);
            var placed := Enter(slot, v, w);
            && Grows(w, nested.world) && Grows(w, placed.world)
            && (Tags(New(w, nested.world)) == Tags(New(w, placed.world)) <==>
                  forall x :: x in Flatten(v.slots, []) ==>
                      (Accepts(x.guards, v.message.value.path) <==> Accepts(x.guards, path)))
  {
    var slot := OnlySlot(ref, pattern, tag, [SetPath(path), CallNext]);
    var w1 := Record(slot, v, w);
    var items, p := Flatten(v.slots, []), v.message.value.path;
    MountRestoresPath(at, mount, v, w, ref, pattern, tag, path);
    PassingEntries(v, w1);
    PassingEntries(OnPath(v, path), w1);
    GrowsThen(w, w1, Next(v, w1).world);
    GrowsThen(w, w1, Next(OnPath(v, path), w1).world);
    var first, stayed, moved := Tags(New(w, w1)), TagsOf(Filter(items, p)), TagsOf(Filter(items, path));
    assert (first + stayed)[|first|..] == stayed && (first + moved)[|first|..] == moved;
    if TagsOf(Filter(items, p)) == TagsOf(Filter(items, path)) {
      SameTagsSameAccepted(items, p, path);
    } else if forall x :: x in items ==> (Accepts(x.guards, p) <==> Accepts(x.guards, path)) {
      SameAcceptedSameTags(items, p, path);
    }
  }
}
