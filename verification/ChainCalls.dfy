/** What calling Next again does: on a context whose call has come back, on a running list, and in a mounted router. */
module ChainCalls {
  import opened Wrappers
  import opened Chain

  lemma {:induction false} RunAppend(p: seq<Action>, q: seq<Action>, v: View, w: World)
    ensures var o := Run(p, v, w); Run(p + q, v, w) == if o.panicked then o else Run(q, o.view, o.world)
    decreases |p|
  {
    if |p| == 0 {
      assert p + q == q;
    } else {
      assert (p + q)[1..] == p[1..] + q;
      var o := Do(p[0], v, w);
      if !o.panicked { RunAppend(p[1..], q, o.view, o.world); }
    }
  }

  lemma {:induction false} RunOnce(a: Action, v: View, w: World)
    ensures Run([a], v, w) == Do(a, v, w)
  {
    var o := Do(a, v, w);
    assert [a][1..] == [];
    if !o.panicked { assert Run([], o.view, o.world) == o; }
  }

  // ---- One more call

  /** Nothing is ahead any more. */
  ghost predicate Spent(v: View) {
    |v.slots| == 0 && v.current.None?
  }

  /** A call of Next has come back: nothing is ahead any more, or the message was handed over. */
  ghost predicate Returned(v: View) {
    Spent(v) || v.message.None?
  }

  /** No receiver is registered under the ID the context listens for. */
  ghost predicate Unheard(v: View, w: World) {
    Listening(v) ==> v.message.value.id !in w.receivers
  }

  /** A call that was let through comes back so, unless it panics. */
  lemma {:induction false} NextReturns(v: View, w: World)
    requires !Gated(v, w) && !Next(v, w).panicked
    ensures Returned(Next(v, w).view)
  {}

  /** The whole effect of calling Next once a call has come back: none with an error standing or the socket closed; a
      panic if the message was handed over; else the end of the chain is reported, and the receiver under the
      message's ID goes. */
  ghost function Again(v: View, w: World): Outcome {
    if Gated(v, w) then Outcome(v, w, false)
    else if v.message.None? then Outcome(v, w, true)
    else Outcome(v.(beyondEnd := true), WithoutReceiver(v, w), false)
  }

  lemma {:induction false} ReturnedNext(v: View, w: World)
    requires Returned(v)
    ensures Next(v, w) == Again(v, w)
  {
    if v.message.Some? { assert Left(v) == v; }
  }

  /** Whatever the first call of Next was and did, unless it panicked, a second one does exactly this. */
  lemma {:induction false} SecondCall(v: View, w: World)
    requires !Next(v, w).panicked
    ensures var o := Next(v, w); Next(o.view, o.world) == Again(o.view, o.world)
  {
    if !Gated(v, w) {
      NextReturns(v, w);
      ReturnedNext(Next(v, w).view, Next(v, w).world);
    }
  }

  lemma {:induction false} ReceiverStays(v: View, w: World)
    ensures WithoutReceiver(v, w) == w <==> Unheard(v, w)
  {
    if Listening(v) {
      var id := v.message.value.id;
      if id !in w.receivers { assert w.receivers - {id} == w.receivers; }
    }
  }

  /** Exactly when another call enters nothing, leaves the world, panics, reports the end, or changes nothing at all. */
  lemma {:induction false} SpentNext(v: View, w: World)
    requires Returned(v)
    ensures var o := Next(v, w);
            && o.world.trace == w.trace && o.world.closed == w.closed && o.view.error == v.error
            && (o.world == w <==> Gated(v, w) || v.message.None? || Unheard(v, w))
            && (o.panicked <==> !Gated(v, w) && v.message.None?)
            && (o.view.beyondEnd <==> v.beyondEnd || (!Gated(v, w) && v.message.Some?))
            && (o == Outcome(v, w, false) <==>
                  Gated(v, w) || (v.message.Some? && v.beyondEnd && Unheard(v, w)))
  {
    ReturnedNext(v, w);
    ReceiverStays(v, w);
  }

  // ---- On a running list

  /** The first matching handler of the list is this function, and it is entered. */
  ghost predicate EntersFirst(v: View, w: World, slots: seq<Slot>, tag: nat, program: seq<Action>) {
    && v.message.Some? && !Gated(v, w)
    && slots == Skip(v.slots, v.message.value.path) && |slots| > 0 && slots[0].bindType == NormalBind
    && slots[0].handler == Func(tag, program) && !HandsOver(v, w, slots[0].at)
  }

  /** What that function is given: the slots behind it. */
  ghost function Entered(v: View, slots: seq<Slot>): View
    requires |slots| > 0
  {
    v.(slots := slots[1..], current := Some(NormalBind))
  }

  lemma {:induction false} NextFirst(v: View, w: World, slots: seq<Slot>, tag: nat, program: seq<Action>)
    requires EntersFirst(v, w, slots, tag, program)
    ensures var sub := Entered(v, slots);
            var o := Recovered(Run(program, sub, Record(slots[0], sub, w)));
            Next(v, w) == o.(view := Left(o.view))
  {
    var at := v.(slots := slots, current := Some(NormalBind));
    var e := Enter(slots[0], at.(slots := slots[1..]), w);
    assert Dispatch(at, w) == e.(view := Left(e.view));
    assert at.(slots := slots[1..]) == Entered(v, slots);
  }

  /** The slots with one more call of Next at the end of the first handler's program. */
  ghost function Longer(slots: seq<Slot>, tag: nat, program: seq<Action>): seq<Slot>
    requires |slots| > 0
  {
    [slots[0].(handler := Func(tag, program + [CallNext]))] + slots[1..]
  }

  lemma {:induction false} LongerEntersFirst(v: View, w: World, slots: seq<Slot>, tag: nat, program: seq<Action>)
    requires EntersFirst(v, w, slots, tag, program)
    ensures var longer := Longer(slots, tag, program);
            && EntersFirst(v.(slots := longer), w, longer, tag, program + [CallNext])
            && Entered(v.(slots := longer), longer) == Entered(v, slots)
            && Record(longer[0], Entered(v, slots), w) == Record(slots[0], Entered(v, slots), w)
  {
    var longer := Longer(slots, tag, program);
    assert longer[1..] == slots[1..];
    assert Matches(slots[0].pattern, v.message.value.path);
  }

  /** For every list whose first handler has its call of Next come back: what one more call there changes. The world
      and the error stay exactly if an error stands or the socket is closed, or the message is still there and no
      receiver is registered under an ID it listens for; the end of the chain is reported besides, which only a mount
      looks at. */
  lemma {:induction false} SecondCallOnList(v: View, w: World, slots: seq<Slot>, tag: nat, program: seq<Action>)
    requires EntersFirst(v, w, slots, tag, program)
    requires var sub := Entered(v, slots);
             var o := Run(program, sub, Record(slots[0], sub, w)); !o.panicked && Returned(o.view)
    ensures var sub := Entered(v, slots);
            var o := Run(program, sub, Record(slots[0], sub, w));
            var once, twice := Next(v, w), Next(v.(slots := Longer(slots, tag, program)), w);
            && once == Outcome(Left(o.view), o.world, false)
            && twice.world.trace == once.world.trace
            && twice.view.beyondEnd == (once.view.beyondEnd || (!Gated(o.view, o.world) && o.view.message.Some?))
            && (twice.world == once.world && twice.view.error == once.view.error <==>
                  || Gated(o.view, o.world)
                  || (if o.view.message.None? then o.view.error else Unheard(o.view, o.world)))
  {
    var sub := Entered(v, slots);
    var w1 := Record(slots[0], sub, w);
    var o := Run(program, sub, w1);
    NextFirst(v, w, slots, tag, program);
    LongerEntersFirst(v, w, slots, tag, program);
    var longer := Longer(slots, tag, program);
    NextFirst(v.(slots := longer), w, longer, tag, program + [CallNext]);
    RunAppend(program, [CallNext], sub, w1);
    RunOnce(CallNext, o.view, o.world);
    SpentNext(o.view, o.world);
  }

  // ---- Every call of Next on one context

  datatype Call = Call(view: View, world: World)

  /** The call finds no handler ahead. */
  ghost predicate RunsOff(c: Call) {
    && !Gated(c.view, c.world) && c.view.message.Some?
    && |Skip(c.view.slots, c.view.message.value.path)| == 0
  }

  ghost predicate AnyRunsOff(calls: seq<Call>) {
    exists c :: c in calls && RunsOff(c)
  }

  /** The calls of Next on a context during one of them, itself included; mounted routers have contexts of their own. */
  ghost function NextCalls(v: View, w: World): seq<Call>
    decreases Weight(v.slots), 3
  {
    [Call(v, w)] +
    if Gated(v, w) || v.message.None? then []
    else
      var slots := Skip(v.slots, v.message.value.path);
      if |slots| == 0 || HandsOver(v, w, slots[0].at) then []
      else DispatchCalls(v.(slots := slots, current := Some(slots[0].bindType)), w)
  }

  ghost function DispatchCalls(v: View, w: World): seq<Call>
    requires v.message.Some? && |v.slots| > 0
    decreases Weight(v.slots), 2
  {
    var e := Enter(v.slots[0], v.(slots := v.slots[1..]), w);
    EnterCalls(v.slots[0], v.(slots := v.slots[1..]), w) +
    if AutoAdvances(v.slots[0].bindType, e.world) then NextCalls(e.view, e.world) else []
  }

  ghost function EnterCalls(slot: Slot, v: View, w: World): seq<Call>
    requires v.message.Some?
    decreases HandlerWeight(slot.handler) + Weight(v.slots), 1
  {
    match slot.handler
    case Func(_, program) => RunCalls(program, v, Record(slot, v, w))
    case Mount(chain) =>
      var s := Mounted(v, chain, w);
      if s.panicked || !s.view.beyondEnd then [] else NextCalls(v.(error := s.view.error), s.world)
  }

  ghost function RunCalls(program: seq<Action>, v: View, w: World): seq<Call>
    decreases Weight(v.slots), 5 + |program|
  {
    if |program| == 0 then []
    else
      var o := Do(program[0], v, w);
      (if program[0].CallNext? then NextCalls(v, w) else []) +
      if o.panicked then [] else RunCalls(program[1..], o.view, o.world)
  }

  lemma {:induction false} AnyAppend(a: seq<Call>, b: seq<Call>)
    ensures AnyRunsOff(a + b) <==> AnyRunsOff(a) || AnyRunsOff(b)
  {
    assert forall c :: c in a + b <==> c in a || c in b;
  }

  /** What the end flag says after a run that made these calls. */
  ghost predicate Reports(v: View, calls: seq<Call>, o: Outcome) {
    o.view.beyondEnd <==> v.beyondEnd || AnyRunsOff(calls)
  }

  lemma {:induction false} NextReports(v: View, w: World)
    ensures Reports(v, NextCalls(v, w), Next(v, w))
    decreases Weight(v.slots), 3
  {
    var first := [Call(v, w)];
    assert AnyRunsOff(first) <==> RunsOff(Call(v, w)) by { assert Call(v, w) in first; }
    AnyAppend(first, NextCalls(v, w)[1..]);
    assert NextCalls(v, w) == first + NextCalls(v, w)[1..];
    if !Gated(v, w) && v.message.Some? {
      var slots := Skip(v.slots, v.message.value.path);
      if |slots| > 0 && !HandsOver(v, w, slots[0].at) {
        DispatchReports(v.(slots := slots, current := Some(slots[0].bindType)), w);
      }
    }
  }

  lemma {:induction false} DispatchReports(v: View, w: World)
    requires v.message.Some? && |v.slots| > 0
    ensures Reports(v, DispatchCalls(v, w), Dispatch(v, w))
    decreases Weight(v.slots), 2
  {
    var v1 := v.(slots := v.slots[1..]);
    var e := Enter(v.slots[0], v1, w);
    var more := if AutoAdvances(v.slots[0].bindType, e.world) then NextCalls(e.view, e.world) else [];
    EnterReports(v.slots[0], v1, w);
    AnyAppend(EnterCalls(v.slots[0], v1, w), more);
    if AutoAdvances(v.slots[0].bindType, e.world) { NextReports(e.view, e.world); }
  }

  lemma {:induction false} EnterReports(slot: Slot, v: View, w: World)
    requires v.message.Some?
    ensures Reports(v, EnterCalls(slot, v, w), Enter(slot, v, w))
    decreases HandlerWeight(slot.handler) + Weight(v.slots), 1
  {
    match slot.handler
    case Func(_, program) => RunReports(program, v, Record(slot, v, w));
    case Mount(chain) =>
      var s := Mounted(v, chain, w);
      if !s.panicked && s.view.beyondEnd { NextReports(v.(error := s.view.error), s.world); }
  }

  lemma {:induction false} RunReports(program: seq<Action>, v: View, w: World)
    ensures Reports(v, RunCalls(program, v, w), Run(program, v, w))
    decreases Weight(v.slots), 5 + |program|
  {
    if |program| > 0 {
      var o := Do(program[0], v, w);
      var first := if program[0].CallNext? then NextCalls(v, w) else [];
      var rest := if o.panicked then [] else RunCalls(program[1..], o.view, o.world);
      assert RunCalls(program, v, w) == first + rest;
      AnyAppend(first, rest);
      if program[0].CallNext? { NextReports(v, w); } else { OtherReports(program[0], v, w); }
      if !o.panicked { RunReports(program[1..], o.view, o.world); }
    }
  }

  lemma {:induction false} OtherReports(a: Action, v: View, w: World)
    requires !a.CallNext?
    ensures Do(a, v, w).view.beyondEnd == v.beyondEnd
  {}

  /** A call of Next anywhere in a program that runs so far is among the calls made. */
  lemma {:induction false} CallIsMade(before: seq<Action>, after: seq<Action>, v: View, w: World)
    requires !Run(before, v, w).panicked
    ensures var o := Run(before, v, w); Call(o.view, o.world) in RunCalls(before + [CallNext] + after, v, w)
    decreases |before|
  {
    var all := before + [CallNext] + after;
    if |before| > 0 {
      assert all[1..] == before[1..] + [CallNext] + after;
      var o := Do(before[0], v, w);
      CallIsMade(before[1..], after, o.view, o.world);
    } else {
      assert all[0] == CallNext;
      assert NextCalls(v, w)[0] == Call(v, w);
    }
  }

  // ---- In a mounted router

  /** The router goes on with its parent's chain after this sub-chain. */
  ghost predicate Resumes(v: View, chain: seq<Node>, w: World)
    requires v.message.Some?
  {
    !Mounted(v, chain, w).panicked && Mounted(v, chain, w).view.beyondEnd
  }

  lemma {:induction false} EnterResumes(slot: Slot, v: View, w: World)
    requires v.message.Some? && slot.handler.Mount?
    ensures var s := Mounted(v, slot.handler.chain, w);
            var parent := v.(error := s.view.error);
            Enter(slot, v, w) == Recovered(if Resumes(v, slot.handler.chain, w) then Next(parent, s.world)
                                           else Outcome(parent, s.world, s.panicked))
  {}

  /** For every mounted chain: the parent's chain goes on exactly if one of the calls of Next in it, by whichever
      handler and the first or a later one, ran off its end. */
  lemma {:induction false} ResumesExactly(v: View, chain: seq<Node>, w: World)
    requires v.message.Some?
    ensures Resumes(v, chain, w) <==>
              !Mounted(v, chain, w).panicked && AnyRunsOff(NextCalls(SubView(v, chain), w))
  {
    MountedRuns(v, chain, w);
    NextReports(SubView(v, chain), w);
  }

  /** For every mounted chain that a handler stopped, so that only calls made again found nothing ahead: the parent's
      chain goes on exactly if one of these was made with no error standing, the socket open and the message still
      there. */
  lemma {:induction false} SecondCallResumesParent(v: View, chain: seq<Node>, w: World)
    requires v.message.Some? && !Mounted(v, chain, w).panicked
    requires forall c :: c in NextCalls(SubView(v, chain), w) && RunsOff(c) ==> Spent(c.view)
    ensures Resumes(v, chain, w) <==>
              exists c :: c in NextCalls(SubView(v, chain), w) && Spent(c.view)
                          && !c.view.error && !c.world.closed && c.view.message.Some?
  {
    ResumesExactly(v, chain, w);
    var calls := NextCalls(SubView(v, chain), w);
    forall c | c in calls && Spent(c.view)
      ensures RunsOff(c) <==> !c.view.error && !c.world.closed && c.view.message.Some?
    {}
  }
}
