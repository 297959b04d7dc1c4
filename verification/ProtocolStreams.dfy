/** The stream of messages a handler receives, in every run. */
module ProtocolStreams {
  import opened Wrappers
  import opened Sockets
  import opened Protocol
  import opened ProtocolMoves
  import opened ProtocolDelivery

  ghost function NonEmpty(messages: seq<string>): seq<string> {
    if |messages| == 0 then []
    else Own(messages[0]) + NonEmpty(messages[1..])
  }

  lemma {:induction false} NonEmptyAppend(a: seq<string>, b: seq<string>)
    ensures NonEmpty(a + b) == NonEmpty(a) + NonEmpty(b)
  {
    if |a| == 0 {
      assert a + b == b;
    } else {
      assert (a + b)[1..] == a[1..] + b;
      NonEmptyAppend(a[1..], b);
    }
  }

  function Own(data: string): seq<string> {
    if |data| > 0 then [data] else []
  }

  lemma NonEmptyOne(a: seq<string>, message: string)
    ensures NonEmpty(a + [message]) == NonEmpty(a) + Own(message)
  {
    NonEmptyAppend(a, [message]);
    assert [message][1..] == [];
  }

  lemma {:induction false} NoneIsEmpty(messages: seq<string>)
    ensures forall data | data in NonEmpty(messages) :: |data| > 0
  {
    if |messages| > 0 { NoneIsEmpty(messages[1..]); }
  }

  /** The data of the messages taken from the first channels a context made, in the order it made them. */
  ghost function Delivered(s: State, c: nat, generations: nat): seq<string> {
    if generations == 0 then []
    else
      var channel := ReceiverChannel(c, generations - 1);
      Delivered(s, c, generations - 1) +
      (if channel in s.taken && s.taken[channel] in s.contexts then [s.contexts[s.taken[channel]].data] else [])
  }

  /** What a handler obtained is the non-empty part of its trigger, unless skipped, and of what was delivered to it. */
  ghost predicate Stream(s: State, c: nat)
    requires c in s.contexts
  {
    var x := s.contexts[c];
    x.obtained == NonEmpty((if x.usedTrigger then [x.data] else []) + Delivered(s, c, x.generation))
  }

  /** Only channels already made deliver; a channel that is still waited on has delivered nothing yet. */
  ghost predicate TakenOk(s: State) {
    && (forall k :: k in s.taken ==> s.taken[k] in s.contexts && k.owner in s.contexts
                                     && k.generation < s.contexts[k.owner].generation)
    && (forall c: nat :: c in s.contexts && WaitsForMessage(s.contexts[c]) ==>
          s.contexts[c].channel.Some? && s.contexts[c].channel.value !in s.taken)
  }

  ghost predicate Streams(s: State) {
    TakenOk(s) && forall c: nat :: c in s.contexts ==> Stream(s, c)
  }

  /** Nothing that a context's stream is made of differs. */
  ghost predicate SameDeliveries(s: State, t: State, c: nat) {
    && (forall k: ReceiverChannel :: k.owner == c ==>
        (k in t.taken <==> k in s.taken) && (k in s.taken ==> t.taken[k] == s.taken[k]))
    && (forall m: nat :: m in s.contexts ==> m in t.contexts && t.contexts[m].data == s.contexts[m].data)
  }

  lemma {:induction false} DeliveredSame(s: State, t: State, c: nat, generations: nat)
    requires forall k :: k in s.taken ==> s.taken[k] in s.contexts
    requires forall k: ReceiverChannel :: k.owner == c && k.generation < generations ==>
      (k in t.taken <==> k in s.taken) && (k in s.taken ==> t.taken[k] == s.taken[k])
    requires forall m: nat :: m in s.contexts ==> m in t.contexts && t.contexts[m].data == s.contexts[m].data
    ensures Delivered(t, c, generations) == Delivered(s, c, generations)
    decreases generations
  {
    if generations > 0 {
      DeliveredSame(s, t, c, generations - 1);
    }
  }

  lemma SameStream(s: State, t: State, c: nat)
    requires TakenOk(s) && c in s.contexts && c in t.contexts && Stream(s, c) && SameDeliveries(s, t, c)
    requires t.contexts[c] == s.contexts[c]
    ensures Stream(t, c)
  {
    DeliveredSame(s, t, c, s.contexts[c].generation);
  }

  // What one step does to the stream of its context.

  ghost predicate StreamIdle(s: State, x: Context, m: Move) {
    && m.taken == s.taken && m.context.generation == x.generation
    && m.context.obtained == x.obtained && m.context.usedTrigger == x.usedTrigger
    && (WaitsForMessage(m.context) ==> WaitsForMessage(x) && m.context.channel == x.channel)
  }

  ghost predicate StreamOfTrigger(s: State, x: Context, m: Move) {
    && m.taken == s.taken && m.context.generation == x.generation
    && !x.firstReceiveDone && m.context.usedTrigger && !WaitsForMessage(m.context)
    && m.context.obtained == x.obtained + Own(x.data)
  }

  ghost predicate StreamRenewed(s: State, c: nat, x: Context, m: Move) {
    && m.taken == s.taken && m.context.generation == x.generation + 1
    && m.context.obtained == x.obtained && m.context.usedTrigger == x.usedTrigger
    && m.context.channel == Some(ReceiverChannel(c, x.generation))
  }

  ghost predicate StreamOf(s: State, x: Context, m: Move, k: nat) {
    && x.phase.Parked? && x.channel.Some? && k in s.contexts && m.taken == s.taken[x.channel.value := k]
    && m.context.generation == x.generation && m.context.usedTrigger == x.usedTrigger && !WaitsForMessage(m.context)
    && m.context.obtained == x.obtained + Own(s.contexts[k].data)
  }

  ghost predicate StreamMove(s: State, c: nat, x: Context, m: Move) {
    StreamIdle(s, x, m) || StreamOfTrigger(s, x, m) || StreamRenewed(s, c, x, m)
        || exists k: nat :: StreamOf(s, x, m, k)
  }

  lemma ReceivingStream(s: State, a: ReceivingAction, c: nat)
    requires c in s.contexts && ReceivingStep(s, a, c).Some? && !a.Take?
    ensures StreamMove(s, c, s.contexts[c], ReceivingStep(s, a, c).value)
  {}

  lemma TakingStream(s: State, c: nat)
    requires c in s.contexts && ReceivingStep(s, Take, c).Some?
    ensures StreamMove(s, c, s.contexts[c], ReceivingStep(s, Take, c).value)
  {
    var x := s.contexts[c];
    assert StreamOf(s, x, ReceivingStep(s, Take, c).value, Buffer(s, x.channel.value)[0]);
  }

  lemma ChainNeverWaits(s: State, a: ChainAction, c: nat)
    requires c in s.contexts && ChainStep(s, a, c).Some?
    ensures !WaitsForMessage(ChainStep(s, a, c).value.context)
    ensures ChainStep(s, a, c).value.context.generation == s.contexts[c].generation
  {}

  lemma MoveIsStreamMove(s: State, a: Action, c: nat)
    requires c in s.contexts && ContextStep(s, a, c).Some?
    ensures StreamMove(s, c, s.contexts[c], ContextStep(s, a, c).value)
  {
    MoveFramed(s, a, c);
    match a
    case Locking(a') => LockingOnly(s, a', c);
    case Chain(a') => ChainNeverWaits(s, a', c);
    case Receiving(a') => if a'.Take? { TakingStream(s, c); } else { ReceivingStream(s, a', c); }
    case Leaving(a') => LeavingOnly(s, a', c);
  }

  // What that leaves of the law.

  lemma IdleKeepsStream(s: State, c: nat, m: Move)
    requires TakenOk(s) && c in s.contexts && Stream(s, c)
    requires StreamIdle(s, s.contexts[c], m) && m.context.data == s.contexts[c].data
    ensures Stream(Apply(s, c, m), c)
  {
    DeliveredSame(s, Apply(s, c, m), c, s.contexts[c].generation);
  }

  lemma TriggerKeepsStream(s: State, c: nat, m: Move)
    requires TakenOk(s) && c in s.contexts && Stream(s, c) && ReceiveShape(c, s.contexts[c])
    requires StreamOfTrigger(s, s.contexts[c], m) && m.context.data == s.contexts[c].data
    ensures Stream(Apply(s, c, m), c)
  {
    var x := s.contexts[c];
    assert Delivered(Apply(s, c, m), c, 0) == [] && [x.data] + [] == [x.data] && [x.data][1..] == [];
  }

  lemma RenewedKeepsStream(s: State, c: nat, m: Move)
    requires TakenOk(s) && c in s.contexts && Stream(s, c)
    requires StreamRenewed(s, c, s.contexts[c], m) && m.context.data == s.contexts[c].data
    ensures Stream(Apply(s, c, m), c)
  {
    var x, t := s.contexts[c], Apply(s, c, m);
    DeliveredSame(s, t, c, x.generation);
    assert ReceiverChannel(c, x.generation) !in t.taken;
    assert Delivered(t, c, x.generation + 1) == Delivered(s, c, x.generation) + [] == Delivered(s, c, x.generation);
  }

  lemma TakenKeepsStream(s: State, c: nat, m: Move, k: nat)
    requires TakenOk(s) && c in s.contexts && Stream(s, c) && ReceiveShape(c, s.contexts[c])
    requires StreamOf(s, s.contexts[c], m, k) && m.context.data == s.contexts[c].data
    ensures Stream(Apply(s, c, m), c)
  {
    var x, t := s.contexts[c], Apply(s, c, m);
    var g := x.generation - 1;
    var data := s.contexts[k].data;
    assert x.channel == Some(ReceiverChannel(c, g)) && ReceiverChannel(c, g) !in s.taken;
    DeliveredSame(s, t, c, g);
    assert Delivered(s, c, g + 1) == Delivered(s, c, g) + [] == Delivered(s, c, g);
    assert t.contexts[k].data == data;
    assert Delivered(t, c, g + 1) == Delivered(s, c, g) + [data];
    var trigger := if x.usedTrigger then [x.data] else [];
    NonEmptyOne(trigger + Delivered(s, c, g), data);
    assert trigger + Delivered(t, c, g + 1) == trigger + Delivered(s, c, g) + [data];
  }

  lemma OwnStream(s: State, c: nat, m: Move)
    requires TakenOk(s) && c in s.contexts && Stream(s, c)
    requires ReceiveShape(c, s.contexts[c]) && StreamMove(s, c, s.contexts[c], m)
    requires m.context.data == s.contexts[c].data
    ensures Stream(Apply(s, c, m), c)
  {
    var x := s.contexts[c];
    if StreamIdle(s, x, m) {
      IdleKeepsStream(s, c, m);
    } else if StreamOfTrigger(s, x, m) {
      TriggerKeepsStream(s, c, m);
    } else if StreamRenewed(s, c, x, m) {
      RenewedKeepsStream(s, c, m);
    } else {
      var k: nat :| StreamOf(s, x, m, k);
      TakenKeepsStream(s, c, m, k);
    }
  }

  ghost predicate TakenGrows(s: State, c: nat, m: Move) {
    && (forall k :: k in s.taken ==> k in m.taken && (k.owner != c ==> m.taken[k] == s.taken[k]))
    && (forall k :: k in m.taken && k !in s.taken ==> k.owner == c)
  }

  lemma MoveKeepsTaken(s: State, c: nat, m: Move)
    requires TakenOk(s) && c in s.contexts && ReceiveShape(c, m.context) && StreamMove(s, c, s.contexts[c], m)
    requires forall c': nat :: c' in s.contexts ==> ReceiveShape(c', s.contexts[c'])
    ensures TakenOk(Apply(s, c, m)) && TakenGrows(s, c, m)
  {
    var x := s.contexts[c];
    if m.taken == s.taken {
      SameTaken(s, c, m);
    } else {
      var k: nat :| StreamOf(s, x, m, k);
      TakingKeepsTaken(s, c, m, k);
    }
  }

  lemma SameTaken(s: State, c: nat, m: Move)
    requires TakenOk(s) && c in s.contexts && m.taken == s.taken && m.context.generation >= s.contexts[c].generation
    requires WaitsForMessage(m.context) ==> m.context.channel.Some? && m.context.channel.value !in s.taken
    ensures TakenOk(Apply(s, c, m))
  {}

  lemma TakingKeepsTaken(s: State, c: nat, m: Move, k: nat)
    requires TakenOk(s) && c in s.contexts && StreamOf(s, s.contexts[c], m, k)
    requires forall c': nat :: c' in s.contexts ==> ReceiveShape(c', s.contexts[c'])
    ensures TakenOk(Apply(s, c, m)) && TakenGrows(s, c, m)
  {}

  lemma MoveKeepsStreams(s: State, c: nat, m: Move)
    requires Streams(s) && ContextsOk(s) && c in s.contexts && StreamMove(s, c, s.contexts[c], m)
    requires m.context.data == s.contexts[c].data && ReceiveShape(c, m.context)
    ensures Streams(Apply(s, c, m))
  {
    var t := Apply(s, c, m);
    MoveKeepsTaken(s, c, m);
    forall c': nat | c' in t.contexts ensures Stream(t, c') {
      if c' == c { OwnStream(s, c, m); } else { SameStream(s, t, c'); }
    }
  }

  lemma StepKeepsStreams(s: State, e: Event)
    requires Streams(s) && ContextsOk(s) && Step(s, e).Some?
    ensures Streams(Step(s, e).value)
  {
    match e
    case Arrive(c, data) => UntouchedStreams(s, Step(s, e).value);
    case On(act) =>
      SocketKeepsContexts(s, act);
      UntouchedStreams(s, Step(s, e).value);
    case By(c, a) =>
      MoveFramed(s, a, c);
      MoveIsRegular(s, a, c);
      MoveIsStreamMove(s, a, c);
      MoveKeepsStreams(s, c, ContextStep(s, a, c).value);
  }

  lemma FreshStream(t: State, c: nat)
    requires c in t.contexts && t.contexts[c] == Fresh(t.contexts[c].data)
    ensures Stream(t, c)
  {
    assert [] + Delivered(t, c, 0) == [];
  }

  /** A step that leaves the contexts as they are, or adds one that has received nothing. */
  lemma UntouchedStreams(s: State, t: State)
    requires Streams(s) && t.taken == s.taken
    requires forall c: nat :: c in s.contexts ==> c in t.contexts && t.contexts[c] == s.contexts[c]
    requires forall c: nat :: c in t.contexts && c !in s.contexts ==> exists data :: t.contexts[c] == Fresh(data)
    ensures Streams(t)
  {
    forall c: nat | c in t.contexts ensures Stream(t, c) {
      if c in s.contexts { SameStream(s, t, c); } else { FreshStream(t, c); }
    }
  }

  // ---- Runs

  lemma {:induction false} RunKeepsStreams(s: State, events: seq<Event>)
    requires ContextsOk(s) && Registrations(s) && Streams(s) && Exec(s, events).Some?
    ensures Streams(Exec(s, events).value)
    decreases |events|
  {
    if |events| > 0 {
      StepKeepsRegistrations(s, events[0]);
      StepKeepsStreams(s, events[0]);
      RunKeepsStreams(Step(s, events[0]).value, events[1..]);
    }
  }
}
