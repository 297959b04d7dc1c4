/** Where a call of Next goes: to the first matching handler, to a receiver that waits there, to the end, or nowhere;
    and what that leaves of the registry. */
module ChainHandover {
  import opened Wrappers
  import opened Chain
  import opened ChainLaws
  import ChainCalls

  /** The first slot ahead whose node matches the path the message has. */
  ghost predicate FirstMatch(v: View, i: nat) {
    && v.message.Some? && i < |v.slots| && Matches(v.slots[i].pattern, v.message.value.path)
    && forall j :: 0 <= j < i ==> !Matches(v.slots[j].pattern, v.message.value.path)
  }

  ghost predicate NoMatch(v: View) {
    v.message.Some? && forall j :: 0 <= j < |v.slots| ==> !Matches(v.slots[j].pattern, v.message.value.path)
  }

  /** Neither an error nor a closed socket stops this call. */
  predicate LetThrough(v: View, w: World) {
    v.current == Some(CloseBind) || (!v.error && !w.closed)
  }

  /** The message has an ID of its own, the context no receiver, and a receiver is registered under that ID at this
      place. */
  predicate AwaitedAt(v: View, w: World, at: Position) {
    && v.message.Some? && v.message.value.hasSetID && !v.receiverOpen
    && v.message.value.id in w.receivers && w.receivers[v.message.value.id] == at
  }

  lemma {:induction false} SkipToMatch(slots: seq<Slot>, path: string, i: nat)
    requires i <= |slots| && forall j :: 0 <= j < i ==> !Matches(slots[j].pattern, path)
    requires i < |slots| ==> Matches(slots[i].pattern, path)
    ensures Skip(slots, path) == slots[i..]
    decreases i
  {
    if i > 0 {
      assert !Matches(slots[0].pattern, path) && slots[1..][i - 1..] == slots[i..];
      forall j | 0 <= j < i - 1 ensures !Matches(slots[1..][j].pattern, path) { assert slots[1..][j] == slots[j + 1]; }
      SkipToMatch(slots[1..], path, i - 1);
    }
  }

  /** The message goes to the receiver that waits at the first matching handler: nothing is entered, the message is
      gone, and exactly this receiver has left the registry. */
  lemma {:induction false} NextHandsOver(v: View, w: World, i: nat)
    requires LetThrough(v, w) && FirstMatch(v, i) && AwaitedAt(v, w, v.slots[i].at)
    ensures var o := Next(v, w);
            && !o.panicked && o.view.message.None? && o.view.error == v.error && o.view.beyondEnd == v.beyondEnd
            && o.world == World(w.closed, w.receivers - {v.message.value.id}, w.trace)
  {
    SkipToMatch(v.slots, v.message.value.path, i);
  }

  /** The first thing that happens is that this entry is made. */
  ghost predicate EntersWith(w: World, w': World, e: Entry) {
    Grows(w, w') && |w'.trace| > |w.trace| && w'.trace[|w.trace|] == e
  }

  lemma {:induction false} EntersThen(w: World, w1: World, w2: World, e: Entry)
    requires EntersWith(w, w1, e) && Grows(w1, w2)
    ensures EntersWith(w, w2, e)
  {
    GrowsThen(w, w1, w2);
    assert w2.trace[|w.trace|] == w2.trace[..|w1.trace|][|w.trace|];
  }

  /** In every other case the first matching handler is entered, with the path, the captures and the state of the
      moment. */
  lemma {:induction false} NextEnters(v: View, w: World, i: nat)
    requires LetThrough(v, w) && FirstMatch(v, i) && !AwaitedAt(v, w, v.slots[i].at) && v.slots[i].handler.Func?
    ensures var slot, path := v.slots[i], v.message.value.path;
            EntersWith(w, Next(v, w).world,
                       Entry(slot.handler.tag, slot.bindType, slot.pattern, path,
                             if slot.pattern.None? then None else slot.pattern.value(path), w.closed, v.error))
  {
    SkipToMatch(v.slots, v.message.value.path, i);
    DispatchEnters(v.(slots := v.slots[i..], current := Some(v.slots[i].bindType)), w);
  }

  lemma {:induction false} DispatchEnters(v: View, w: World)
    requires v.message.Some? && |v.slots| > 0 && v.slots[0].handler.Func?
    ensures var slot, path := v.slots[0], v.message.value.path;
            EntersWith(w, Dispatch(v, w).world,
                       Entry(slot.handler.tag, slot.bindType, slot.pattern, path,
                             if slot.pattern.None? then None else slot.pattern.value(path), w.closed, v.error))
  {
    var slot, sub := v.slots[0], v.(slots := v.slots[1..]);
    var w1, e := Record(slot, sub, w), Enter(slot, sub, w);
    RunGrows(slot.handler.program, sub, w1);
    EntersThen(w, w1, e.world, w1.trace[|w.trace|]);
    if AutoAdvances(slot.bindType, e.world) {
      NextGrows(e.view, e.world);
      EntersThen(w, e.world, Next(e.view, e.world).world, w1.trace[|w.trace|]);
    }
  }

  /** A mounted router is entered in the same place: its chain runs on a copy of the message as it is. */
  lemma {:induction false} NextEntersMount(v: View, w: World, i: nat)
    requires LetThrough(v, w) && FirstMatch(v, i) && !AwaitedAt(v, w, v.slots[i].at)
    requires v.slots[i].handler.Mount? && v.slots[i].bindType.NormalBind?
    ensures var slot := v.slots[i];
            var parent := v.(slots := v.slots[i + 1..], current := Some(NormalBind));
            var e := Enter(slot, parent, w);
            Next(v, w) == e.(view := e.view.(slots := [], current := None))
  {
    SkipToMatch(v.slots, v.message.value.path, i);
    assert v.slots[i..][1..] == v.slots[i + 1..];
    var at := v.(slots := v.slots[i..], current := Some(NormalBind));
    assert at.(slots := at.slots[1..]) == v.(slots := v.slots[i + 1..], current := Some(NormalBind));
  }

  /** With no matching handler ahead the end is reported, and the receiver under the message's ID goes if the context
      may have been meant for it. */
  lemma {:induction false} NextEnds(v: View, w: World)
    requires LetThrough(v, w) && NoMatch(v)
    ensures var o, m := Next(v, w), v.message.value;
            && !o.panicked && o.view == v.(slots := [], current := None, beyondEnd := true)
            && o.world == World(w.closed, if m.hasSetID
                && !v.receiverOpen then w.receivers - {m.id} else w.receivers, w.trace)
  {
    SkipToMatch(v.slots, v.message.value.path, |v.slots|);
  }

  /** Stopped by an error or a closed socket, or without a message, a call does nothing. */
  lemma {:induction false} NextStops(v: View, w: World)
    requires !LetThrough(v, w) || v.message.None?
    ensures Next(v, w) == Outcome(v, w, LetThrough(v, w))
  {}

  /** A receiver takes one message: the next one with its ID, whatever happened in between, is entered like any other
      unless the ID was registered again. */
  lemma {:induction false} HandedOverOnce(v: View, w: World, i: nat, v': View, w': World, i': nat)
    requires LetThrough(v, w) && FirstMatch(v, i) && AwaitedAt(v, w, v.slots[i].at)
    requires LetThrough(v', w') && FirstMatch(v', i') && v'.slots[i'].handler.Func?
    requires v'.message.value.id == v.message.value.id
    requires forall id :: id in w'.receivers ==> id in Next(v, w).world.receivers
    ensures exists e: Entry :: e.tag == v'.slots[i'].handler.tag && EntersWith(w', Next(v', w').world, e)
  {
    NextHandsOver(v, w, i);
    NextEnters(v', w', i');
  }

  // ---- What handlers do to it

  /** Each thing a handler can do but calling Next: what it changes, and that without a message there is no path and
      no ID to set. */
  lemma {:induction false} ActionsChange(v: View, w: World, text: string)
    ensures Do(SetPath(text), v, w)
            == match v.message
               case None => Outcome(v, w, true)
               case Some(m) => Outcome(v.(message := Some(Message(m.hasSetID, m.id, text))), w, false)
    ensures Do(SetID(text), v, w)
            == match v.message
               case None => Outcome(v, w, true)
               case Some(m) => Outcome(v.(message := Some(Message(true, text, m.path))), w, false)
    ensures Do(SetError, v, w) == Outcome(v.(error := true), w, false) && Do(Panic, v, w) == Outcome(v, w, true)
    ensures Do(OpenReceiver, v, w) == Outcome(v.(receiverOpen := true, ownsReceiver := true), w, false)
    ensures Do(CloseSocket, v, w) == Outcome(v, if w.closed then w else World(true, map[], w.trace), false)
  {}

  /** A panic that a handler does not catch ends it, and is its context's error. */
  lemma {:induction false} PanicIsError(slot: Slot, v: View, w: World, before: seq<Action>, after: seq<Action>)
    requires v.message.Some? && slot.handler.Func? && slot.handler.program == before + [Panic] + after
    requires !Run(before, v, Record(slot, v, w)).panicked
    ensures var o := Run(before, v, Record(slot, v, w));
            Enter(slot, v, w) == Outcome(o.view.(error := true), o.world, false)
  {
    PanicEnds(before, after, v, Record(slot, v, w));
  }

  lemma {:induction false} PanicEnds(before: seq<Action>, after: seq<Action>, v: View, w: World)
    requires !Run(before, v, w).panicked
    ensures Run(before + [Panic] + after, v, w) == Run(before, v, w).(panicked := true)
    decreases |before|
  {
    var all := before + [Panic] + after;
    if |before| > 0 {
      assert all[0] == before[0] && all[1..] == before[1..] + [Panic] + after;
      var o := Do(before[0], v, w);
      PanicEnds(before[1..], after, o.view, o.world);
    } else {
      assert all[0] == Panic;
    }
  }

  lemma {:induction false} ThenNext(a: Action, v: View, w: World)
    requires !Do(a, v, w).panicked
    ensures var o := Do(a, v, w); Run([a, CallNext], v, w) == Next(o.view, o.world)
  {
    var o := Do(a, v, w);
    assert [a, CallNext] == [a] + [CallNext];
    ChainCalls.RunAppend([a], [CallNext], v, w);
    ChainCalls.RunOnce(a, v, w);
    ChainCalls.RunOnce(CallNext, o.view, o.world);
  }

  /** A handler that sets the ID makes the message meant for the receiver registered under it. */
  lemma {:induction false} SettingIDHandsOver(id: string, v: View, w: World, i: nat)
    requires LetThrough(v, w) && FirstMatch(v, i) && !v.receiverOpen
    requires id in w.receivers && w.receivers[id] == v.slots[i].at
    ensures var o := Run([SetID(id), CallNext], v, w);
            && !o.panicked && o.view.message.None?
            && o.world == World(w.closed, w.receivers - {id}, w.trace)
  {
    ActionsChange(v, w, id);
    var o := Do(SetID(id), v, w);
    ThenNext(SetID(id), v, w);
    NextHandsOver(o.view, w, i);
  }

  /** A context that made a receiver itself is never handed over at one. */
  lemma {:induction false} OwnReceiverIsNotHandedTo(v: View, w: World, i: nat)
    requires LetThrough(v, w) && FirstMatch(v, i) && v.slots[i].handler.Func?
    ensures var o := Run([OpenReceiver, CallNext], v, w);
            exists e: Entry :: e.tag == v.slots[i].handler.tag && EntersWith(w, o.world, e)
  {
    ActionsChange(v, w, "");
    var o := Do(OpenReceiver, v, w);
    ThenNext(OpenReceiver, v, w);
    NextEnters(o.view, w, i);
  }

  /** What a mounted router starts with: its own list, the parent's message and error, the parent's receiver, not its
      own. */
  lemma {:induction false} RouterStarts(v: View, chain: seq<Node>)
    ensures var sub := SubView(v, chain);
            && sub.slots == Slots(chain) && sub.message == v.message && sub.error == v.error && !sub.beyondEnd
            && sub.receiverOpen == v.receiverOpen && !sub.ownsReceiver
            && sub.current == if chain == [] then None else Some(chain[0].bindType)
  {}

  /** When it is through, the receiver it made goes, and any other stays. */
  lemma {:induction false} RouterDropsItsReceiver(v: View, chain: seq<Node>, w: World)
    requires v.message.Some? && !Next(SubView(v, chain), w).panicked
    ensures var o, s := Next(SubView(v, chain), w), Mounted(v, chain, w);
            && s.view == o.view && s.world.closed == o.world.closed && s.world.trace == o.world.trace
            && s.world.receivers == if o.view.ownsReceiver && o.view.receiverOpen && o.view.message.Some?
                                    then o.world.receivers - {o.view.message.value.id} else o.world.receivers
  {}

  // ---- The trace only grows

  lemma {:induction false} NextGrows(v: View, w: World)
    ensures Grows(w, Next(v, w).world)
    decreases Weight(v.slots), 3
  {
    if !Gated(v, w) && v.message.Some? {
      var slots := Skip(v.slots, v.message.value.path);
      if |slots| > 0 && !HandsOver(v, w, slots[0].at) {
        DispatchGrows(v.(slots := slots, current := Some(slots[0].bindType)), w);
      }
    }
  }

  lemma {:induction false} DispatchGrows(v: View, w: World)
    requires v.message.Some? && |v.slots| > 0
    ensures Grows(w, Dispatch(v, w).world)
    decreases Weight(v.slots), 2
  {
    var v1 := v.(slots := v.slots[1..]);
    var e := Enter(v.slots[0], v1, w);
    EnterGrows(v.slots[0], v1, w);
    if AutoAdvances(v.slots[0].bindType, e.world) { NextGrows(e.view, e.world); }
  }

  lemma {:induction false} EnterGrows(slot: Slot, v: View, w: World)
    requires v.message.Some?
    ensures Grows(w, Enter(slot, v, w).world)
    decreases HandlerWeight(slot.handler) + Weight(v.slots), 1
  {
    match slot.handler
    case Func(_, program) => RunGrows(program, v, Record(slot, v, w));
    case Mount(chain) =>
      var s := Mounted(v, chain, w);
      SlotsWeight(chain);
      NextGrows(SubView(v, chain), w);
      MountedRuns(v, chain, w);
      if !s.panicked && s.view.beyondEnd { NextGrows(v.(error := s.view.error), s.world); }
  }

  lemma {:induction false} RunGrows(program: seq<Action>, v: View, w: World)
    ensures Grows(w, Run(program, v, w).world)
    decreases Weight(v.slots), 5 + |program|
  {
    if |program| > 0 {
      var o := Do(program[0], v, w);
      if program[0].CallNext? { NextGrows(v, w); }
      if !o.panicked { RunGrows(program[1..], o.view, o.world); }
    }
  }
}
