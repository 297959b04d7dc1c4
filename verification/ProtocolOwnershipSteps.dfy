/** Every disciplined step keeps the ownership of locks, and no other step does. */
module ProtocolOwnershipSteps {
  import opened Wrappers
  import opened Sockets
  import opened Protocol
  import opened ProtocolMoves
  import opened ProtocolDelivery
  import opened ProtocolStreams
  import opened ProtocolLetters
  import opened ProtocolOwnership

  // ---- What each kind keeps

  ghost predicate Settled(s: State) {
    Entries(s) && Aims(s) && Boxes(s)
  }

  lemma SameHolders(s: State, t: State)
    requires Exclusive(s) && Live(t) == Live(s) && t.leaked <= t.socket.locks.Keys
    requires forall c: nat, id :: Holder(t, c, id) <==> Holder(s, c, id)
    ensures Exclusive(t)
  {
    forall id | id in Live(t) ensures exists c: nat :: Holder(t, c, id) {
      var c: nat :| Holder(s, c, id);
      assert Holder(t, c, id);
    }
  }

  lemma HolderAdded(s: State, t: State, c: nat, id: string)
    requires Exclusive(s) && id !in Live(s) && Live(t) == Live(s) + {id} && t.leaked <= t.socket.locks.Keys
    requires forall c': nat, id' :: Holder(t, c', id') <==> (Holder(s, c', id') || (c' == c && id' == id))
    ensures Exclusive(t)
  {
    forall id' | id' in Live(t) ensures exists c': nat :: Holder(t, c', id') {
      if id' == id {
        assert Holder(t, c, id);
      } else {
        var c': nat :| Holder(s, c', id');
        assert Holder(t, c', id');
      }
    }
  }

  lemma HolderDropped(s: State, t: State, c: nat, id: string)
    requires Exclusive(s) && Holder(s, c, id) && Live(t) == Live(s) - {id} && t.leaked <= t.socket.locks.Keys
    requires forall c': nat, id' :: Holder(t, c', id') <==> (Holder(s, c', id') && !(c' == c && id' == id))
    ensures Exclusive(t)
  {
    forall id' | id' in Live(t) ensures exists c': nat :: Holder(t, c', id') {
      var c': nat :| Holder(s, c', id');
      assert Holder(t, c', id');
    }
  }

  lemma HolderReplaced(s: State, t: State, c: nat, d: nat, id: string)
    requires Exclusive(s) && Holder(s, c, id) && Live(t) == Live(s) && t.leaked <= t.socket.locks.Keys
    requires forall c': nat, id' :: Holder(t, c', id') <==>
               ((Holder(s, c', id') && !(c' == c && id' == id)) || (c' == d && id' == id))
    ensures Exclusive(t)
  {
    forall id' | id' in Live(t) ensures exists c': nat :: Holder(t, c', id') {
      if id' == id {
        assert Holder(t, d, id);
      } else {
        var c': nat :| Holder(s, c', id');
        assert Holder(t, c', id');
      }
    }
  }

  /** One context changed, the content of every channel did not. */
  ghost predicate SameBoxes(s: State, t: State) {
    forall k: ReceiverChannel :: Buffer(t, k) == Buffer(s, k)
  }

  ghost predicate FewerReceivers(s: State, t: State) {
    forall id :: id in t.socket.receivers ==>
        id in s.socket.receivers && t.socket.receivers[id] == s.socket.receivers[id]
  }

  /** Whoever waits goes on waiting on the same channel. */
  ghost predicate Steady(x: Context, y: Context) {
    && (WaitsForMessage(x) ==> WaitsForMessage(y) && y.channel == x.channel && y.id == x.id)
    && (RoleOf(x).Awaiting? ==> RoleOf(y).Awaiting?)
  }

  /** No context goes back to releasing its lock for a channel it already had. */
  ghost predicate Progresses(x: Context, y: Context) {
    && (y.generation == x.generation ==> y.channel == x.channel && (RoleOf(y).Listed? ==> RoleOf(x).Listed?))
    && (y.generation != x.generation ==>
        x.generation < y.generation && y.channel.Some? && y.channel.value.generation == x.generation)
  }

  lemma AwaitedStays(s: State, t: State, c: nat, y: Context, channel: ReceiverChannel, id: Option<string>)
    requires c in s.contexts && t.contexts == s.contexts[c := y] && AwaitedOn(s, channel, id)
    requires channel.owner == c ==> Steady(s.contexts[c], y)
    requires |Buffer(t, channel)| == 0
    ensures AwaitedOn(t, channel, id)
    ensures RoleOf(s.contexts[channel.owner]).Awaiting? ==> RoleOf(t.contexts[channel.owner]).Awaiting?
  {}

  lemma EntriesStay(s: State, t: State, c: nat, y: Context)
    requires Entries(s) && c in s.contexts && t.contexts == s.contexts[c := y]
    requires Steady(s.contexts[c], y) && SameBoxes(s, t) && FewerReceivers(s, t)
    ensures Entries(t)
  {
    forall id | id in t.socket.receivers ensures AwaitedOn(t, t.socket.receivers[id].channel, Some(id)) {
      AwaitedStays(s, t, c, y, t.socket.receivers[id].channel, Some(id));
    }
  }

  lemma AimStays(s: State, t: State, c: nat, y: Context, z: Context)
    requires AimedAt(s, z) && c in s.contexts && t.contexts == s.contexts[c := y]
    requires Steady(s.contexts[c], y) && SameBoxes(s, t)
    ensures AimedAt(t, z)
  {
    if Target(z).Some? {
      AwaitedStays(s, t, c, y, Target(z).value, z.id);
    }
  }

  lemma AimsStay(s: State, t: State, c: nat, y: Context)
    requires Aims(s) && c in s.contexts && t.contexts == s.contexts[c := y]
    requires Steady(s.contexts[c], y) && SameBoxes(s, t) && FewerReceivers(s, t) && AimedAt(s, y) && Cleared(t, y)
    ensures Aims(t)
  {
    forall c': nat | c' in t.contexts ensures AimedAt(t, t.contexts[c']) && Cleared(t, t.contexts[c']) {
      if c' != c { assert Cleared(s, s.contexts[c']); }
      AimStays(s, t, c, y, t.contexts[c']);
    }
  }

  lemma BoxesStay(s: State, t: State, c: nat, y: Context)
    requires Boxes(s) && c in s.contexts && t.contexts == s.contexts[c := y]
    requires Progresses(s.contexts[c], y) && forall k: ReceiverChannel :: |Buffer(t, k)| > 0 ==> |Buffer(s, k)| > 0
    ensures Boxes(t)
  {
    forall k: ReceiverChannel ensures Box(t, k) {
      assert Box(s, k);
    }
  }

  lemma Settles(s: State, t: State, c: nat, y: Context)
    requires Settled(s) && c in s.contexts && t.contexts == s.contexts[c := y]
    requires Steady(s.contexts[c], y) && Progresses(s.contexts[c], y)
    requires SameBoxes(s, t) && FewerReceivers(s, t) && AimedAt(s, y) && Cleared(t, y)
    ensures Settled(t)
  {
    EntriesStay(s, t, c, y);
    AimsStay(s, t, c, y);
    BoxesStay(s, t, c, y);
  }

  lemma OthersHold(s: State, t: State, c: nat, y: Context, d: nat, id: string)
    requires c in s.contexts && t.contexts == s.contexts[c := y] && SameBoxes(s, t) && d != c
    ensures Holder(t, d, id) <==> Holder(s, d, id)
  {}

  /** A step after which its context holds exactly what it held before. */
  lemma HoldersKept(s: State, t: State, c: nat, y: Context)
    requires Exclusive(s) && c in s.contexts && t.contexts == s.contexts[c := y] && SameBoxes(s, t)
    requires Live(t) == Live(s) && t.leaked <= t.socket.locks.Keys
    requires forall id :: Holder(t, c, id) <==> Holder(s, c, id)
    ensures Exclusive(t)
  {
    forall d: nat, id ensures Holder(t, d, id) <==> Holder(s, d, id) {
      if d != c { OthersHold(s, t, c, y, d, id); }
    }
    SameHolders(s, t);
  }

  // ---- The kinds one by one

  lemma QuietKeeps(s: State, c: nat, m: Move)
    requires Owned(s) && c in s.contexts && Quiet(s, s.contexts[c], m)
    ensures Exclusive(Apply(s, c, m)) && Settled(Apply(s, c, m))
  {
    var x, y, t := s.contexts[c], m.context, Apply(s, c, m);
    Settles(s, t, c, y);
    HoldersKept(s, t, c, y);
  }

  lemma RenamesKeeps(s: State, c: nat, m: Move)
    requires Owned(s) && c in s.contexts && Renames(s, s.contexts[c], m)
    ensures Exclusive(Apply(s, c, m)) && Settled(Apply(s, c, m))
  {
    var x, y, t := s.contexts[c], m.context, Apply(s, c, m);
    Settles(s, t, c, y);
    forall d: nat, id ensures Holder(t, d, id) <==> (Holder(s, d, id) && !(d == c && id == x.id.value)) {
      if d != c { OthersHold(s, t, c, y, d, id); }
    }
    assert Holder(s, c, x.id.value) && Live(t) == Live(s) - {x.id.value};
    HolderDropped(s, t, c, x.id.value);
  }

  lemma GainsKeeps(s: State, c: nat, m: Move)
    requires Owned(s) && c in s.contexts && Gains(s, s.contexts[c], m)
    ensures Exclusive(Apply(s, c, m)) && Settled(Apply(s, c, m))
  {
    var x, y, t := s.contexts[c], m.context, Apply(s, c, m);
    Settles(s, t, c, y);
    forall d: nat, id ensures Holder(t, d, id) <==> (Holder(s, d, id) || (d == c && id == x.id.value)) {
      if d != c { OthersHold(s, t, c, y, d, id); }
    }
    HolderAdded(s, t, c, x.id.value);
  }

  lemma LosesKeeps(s: State, c: nat, m: Move)
    requires Owned(s) && c in s.contexts && Loses(s, s.contexts[c], m)
    ensures Exclusive(Apply(s, c, m)) && Settled(Apply(s, c, m))
  {
    var x, y, t := s.contexts[c], m.context, Apply(s, c, m);
    Settles(s, t, c, y);
    assert RoleOf(y).Awaiting? ==> Box(s, x.channel.value);
    forall d: nat, id ensures Holder(t, d, id) <==> (Holder(s, d, id) && !(d == c && id == x.id.value)) {
      if d != c { OthersHold(s, t, c, y, d, id); }
    }
    assert Holder(s, c, x.id.value) && x.id.value in Live(s);
    HolderDropped(s, t, c, x.id.value);
  }

  /** The owner of a receiver that is found is past its release: otherwise it would hold the lock as well. */
  lemma FoundIsParked(s: State, c: nat, y: Context)
    requires Exclusive(s) && Entries(s) && c in s.contexts
    requires RoleOf(s.contexts[c]).Inside? && s.contexts[c].channel.None?
    requires y.phase.Found? && y.id == s.contexts[c].id && y.id.Some? && y.id.value in s.socket.receivers
    requires s.socket.receivers[y.id.value].channel == y.phase.target
    ensures AimedAt(s, y)
  {
    var k, id := y.phase.target, y.id.value;
    assert Holder(s, c, id) && AwaitedOn(s, k, Some(id));
    OnlyHolder(s, c, k.owner, id);
  }

  lemma OnlyHolder(s: State, c: nat, d: nat, id: string)
    requires Exclusive(s) && Holder(s, c, id) && d != c && d in s.contexts && s.contexts[d].id == Some(id)
    ensures !Holds(s, s.contexts[d])
  {
    assert Holder(s, d, id) <==> Holds(s, s.contexts[d]);
  }

  lemma FindsSettles(s: State, c: nat, m: Move)
    requires Settled(s) && Exclusive(s) && c in s.contexts && Finds(s, s.contexts[c], m)
    ensures Settled(Apply(s, c, m))
  {
    FoundIsParked(s, c, m.context);
    Settles(s, Apply(s, c, m), c, m.context);
  }

  lemma FindsExcludes(s: State, c: nat, m: Move)
    requires Exclusive(s) && c in s.contexts && Finds(s, s.contexts[c], m)
    ensures Exclusive(Apply(s, c, m))
  {
    HoldersKept(s, Apply(s, c, m), c, m.context);
  }

  lemma FindsKeeps(s: State, c: nat, m: Move)
    requires Exclusive(s) && Settled(s) && c in s.contexts && Finds(s, s.contexts[c], m)
    ensures Exclusive(Apply(s, c, m)) && Settled(Apply(s, c, m))
  {
    FindsExcludes(s, c, m);
    FindsSettles(s, c, m);
  }

  lemma RemovesKeeps(s: State, c: nat, m: Move)
    requires Owned(s) && c in s.contexts && Removes(s, s.contexts[c], m)
    ensures Exclusive(Apply(s, c, m)) && Settled(Apply(s, c, m))
  {
    var x, y, t := s.contexts[c], m.context, Apply(s, c, m);
    assert AimedAt(s, x);
    Settles(s, t, c, y);
    HoldersKept(s, t, c, y);
  }

  // A context that ends drains its channel, on which nobody waits any more.

  lemma FinishingHolders(s: State, c: nat, m: Move)
    requires Shapes(s) && Exclusive(s) && c in s.contexts && Finishes(s, s.contexts[c], m)
    ensures Exclusive(Apply(s, c, m))
  {
    var x, t := s.contexts[c], Apply(s, c, m);
    assert Shape(c, x);
    forall d: nat, id ensures Holder(t, d, id) <==> Holder(s, d, id) {
      if d in s.contexts && d != c { assert s.contexts[d].channel != x.channel by { assert Shape(d, s.contexts[d]); } }
    }
    SameHolders(s, t);
  }

  lemma FinishingAwaits(s: State, c: nat, m: Move, k: ReceiverChannel, id: Option<string>)
    requires Shapes(s) && c in s.contexts && Finishes(s, s.contexts[c], m) && AwaitedOn(s, k, id)
    ensures var t := Apply(s, c, m); AwaitedOn(t, k, id) && t.contexts[k.owner] == s.contexts[k.owner]
  {}

  lemma FinishingEntries(s: State, c: nat, m: Move)
    requires Shapes(s) && Entries(s) && c in s.contexts && Finishes(s, s.contexts[c], m)
    ensures Entries(Apply(s, c, m))
  {
    var t := Apply(s, c, m);
    forall id | id in t.socket.receivers ensures AwaitedOn(t, t.socket.receivers[id].channel, Some(id)) {
      FinishingAwaits(s, c, m, s.socket.receivers[id].channel, Some(id));
    }
  }

  lemma FinishingAims(s: State, c: nat, m: Move)
    requires Shapes(s) && Aims(s) && c in s.contexts && Finishes(s, s.contexts[c], m)
    ensures Aims(Apply(s, c, m))
  {
    var t := Apply(s, c, m);
    forall e: nat | e in t.contexts ensures AimedAt(t, t.contexts[e]) && Cleared(t, t.contexts[e]) {
      if e != c {
        assert Cleared(s, s.contexts[e]) && AimedAt(s, s.contexts[e]);
        if Target(s.contexts[e]).Some? { FinishingAwaits(s, c, m, Target(s.contexts[e]).value, s.contexts[e].id); }
      }
    }
  }

  lemma FinishesKeeps(s: State, c: nat, m: Move)
    requires Owned(s) && c in s.contexts && Finishes(s, s.contexts[c], m)
    ensures Exclusive(Apply(s, c, m)) && Settled(Apply(s, c, m))
  {
    FinishingHolders(s, c, m);
    FinishingEntries(s, c, m);
    FinishingAims(s, c, m);
    BoxesStay(s, Apply(s, c, m), c, m.context);
  }

  // Sending fills the target's channel and passes the lock on to its owner.

  lemma SendingHolders(s: State, c: nat, m: Move)
    requires Shapes(s) && Exclusive(s) && c in s.contexts && Sends(s, c, s.contexts[c], m) && AimedAt(s, s.contexts[c])
    ensures Exclusive(Apply(s, c, m))
  {
    var x, t := s.contexts[c], Apply(s, c, m);
    var k, id := x.phase.target, x.id.value;
    assert Holder(s, c, id) && x.channel.None?;
    forall e: nat, id' ensures Holder(t, e, id') <==>
        ((Holder(s, e, id') && !(e == c && id' == id)) || (e == k.owner && id' == id)) {
      if e in s.contexts && e != k.owner { assert s.contexts[e].channel != Some(k); }
    }
    HolderReplaced(s, t, c, k.owner, id);
  }

  lemma SendingEntries(s: State, c: nat, m: Move)
    requires Shapes(s) && Entries(s) && c in s.contexts && Sends(s, c, s.contexts[c], m)
    requires AimedAt(s, s.contexts[c]) && Cleared(s, s.contexts[c])
    ensures Entries(Apply(s, c, m))
  {
    var x, t := s.contexts[c], Apply(s, c, m);
    forall id | id in t.socket.receivers ensures AwaitedOn(t, t.socket.receivers[id].channel, Some(id)) {
      var k := t.socket.receivers[id].channel;
      assert AwaitedOn(s, k, Some(id)) && k != x.phase.target && k.owner != c;
    }
  }

  lemma SendingAims(s: State, c: nat, m: Move)
    requires Shapes(s) && Exclusive(s) && Aims(s) && c in s.contexts && Sends(s, c, s.contexts[c], m)
    ensures Aims(Apply(s, c, m))
  {
    var x, t := s.contexts[c], Apply(s, c, m);
    assert AimedAt(s, x) && Holder(s, c, x.id.value);
    forall e: nat | e in t.contexts ensures AimedAt(t, t.contexts[e]) && Cleared(t, t.contexts[e]) {
      if e != c && Target(s.contexts[e]).Some? {
        var k := Target(s.contexts[e]).value;
        assert AimedAt(s, s.contexts[e]) && Cleared(s, s.contexts[e]) && Holder(s, e, s.contexts[e].id.value);
        assert k != x.phase.target && k.owner != c;
      }
    }
  }

  lemma SendingBoxes(s: State, c: nat, m: Move)
    requires Shapes(s) && Boxes(s) && c in s.contexts && Sends(s, c, s.contexts[c], m) && AimedAt(s, s.contexts[c])
    ensures Boxes(Apply(s, c, m))
  {
    var x, t := s.contexts[c], Apply(s, c, m);
    assert Shape(c, x);
    forall k: ReceiverChannel ensures Box(t, k) {
      assert Box(s, k);
    }
  }

  // Registering puts a channel never used before into the registry.

  lemma RegisteringHolders(s: State, c: nat, m: Move)
    requires Exclusive(s) && c in s.contexts && Registers(s, c, s.contexts[c], m)
    ensures Exclusive(Apply(s, c, m))
  {
    var t := Apply(s, c, m);
    forall d: nat, id ensures Holder(t, d, id) <==> Holder(s, d, id) {
      if d != c { OthersHold(s, t, c, m.context, d, id); }
    }
    SameHolders(s, t);
  }

  lemma RegisteringEntries(s: State, c: nat, m: Move)
    requires Shapes(s) && Entries(s) && Boxes(s) && c in s.contexts && Registers(s, c, s.contexts[c], m)
    ensures Entries(Apply(s, c, m))
  {
    var x, t := s.contexts[c], Apply(s, c, m);
    assert Shape(c, x) && Box(s, m.context.channel.value);
    forall id | id in t.socket.receivers ensures AwaitedOn(t, t.socket.receivers[id].channel, Some(id)) {
      if id != x.id.value { AwaitedStays(s, t, c, m.context, s.socket.receivers[id].channel, Some(id)); }
    }
  }

  lemma RegisteringAims(s: State, c: nat, m: Move)
    requires Exclusive(s) && Aims(s) && c in s.contexts && Registers(s, c, s.contexts[c], m)
    ensures Aims(Apply(s, c, m))
  {
    var x, t := s.contexts[c], Apply(s, c, m);
    assert Holder(s, c, x.id.value);
    forall e: nat | e in t.contexts ensures AimedAt(t, t.contexts[e]) && Cleared(t, t.contexts[e]) {
      if e != c {
        AimStays(s, t, c, m.context, s.contexts[e]);
        assert Cleared(s, s.contexts[e]);
        if s.contexts[e].phase.Sending? && s.contexts[e].id == x.id { assert Holder(s, e, x.id.value); }
      }
    }
  }

  // Nobody is about to send on a channel that has its message.

  lemma WakingHolders(s: State, c: nat, m: Move)
    requires Shapes(s) && Exclusive(s) && c in s.contexts && Wakes(s, s.contexts[c], m)
    ensures Exclusive(Apply(s, c, m))
  {
    var x, t := s.contexts[c], Apply(s, c, m);
    assert Shape(c, x);
    forall d: nat, id ensures Holder(t, d, id) <==> Holder(s, d, id) {
      if d in s.contexts && d != c { assert s.contexts[d].channel != x.channel by { assert Shape(d, s.contexts[d]); } }
    }
    SameHolders(s, t);
  }

  lemma WakingAwaits(s: State, c: nat, m: Move, k: ReceiverChannel, id: Option<string>)
    requires c in s.contexts && Wakes(s, s.contexts[c], m) && AwaitedOn(s, k, id)
    ensures var t := Apply(s, c, m); AwaitedOn(t, k, id) && t.contexts[k.owner] == s.contexts[k.owner]
  {}

  lemma WakingEntries(s: State, c: nat, m: Move)
    requires Entries(s) && c in s.contexts && Wakes(s, s.contexts[c], m)
    ensures Entries(Apply(s, c, m))
  {
    forall id | id in s.socket.receivers ensures AwaitedOn(Apply(s, c, m), s.socket.receivers[id].channel, Some(id)) {
      WakingAwaits(s, c, m, s.socket.receivers[id].channel, Some(id));
    }
  }

  lemma WakingAims(s: State, c: nat, m: Move)
    requires Aims(s) && c in s.contexts && Wakes(s, s.contexts[c], m)
    ensures Aims(Apply(s, c, m))
  {
    var t := Apply(s, c, m);
    forall e: nat | e in t.contexts ensures AimedAt(t, t.contexts[e]) && Cleared(t, t.contexts[e]) {
      if e != c {
        assert Cleared(s, s.contexts[e]) && AimedAt(s, s.contexts[e]);
        if Target(s.contexts[e]).Some? { WakingAwaits(s, c, m, Target(s.contexts[e]).value, s.contexts[e].id); }
      }
    }
  }

  // ---- One step

  lemma MoveSettles(s: State, a: Action, c: nat)
    requires Owned(s) && c in s.contexts && ContextStep(s, a, c).Some? && Disciplined(s, By(c, a))
    ensures var m := ContextStep(s, a, c).value;
            Exclusive(Apply(s, c, m)) && Settled(Apply(s, c, m)) && Shape(c, m.context)
  {
    var x, m := s.contexts[c], ContextStep(s, a, c).value;
    assert Secure(s, c, x) by {
      assert Shape(c, x) && (x.id.Some? && Holds(s, x) ==> Holder(s, c, x.id.value));
    }
    match a
    case Locking(a') =>
      LockingKind(s, a', c);
      LockingShape(s, a', c);
      if Quiet(s, x, m) { QuietKeeps(s, c, m); }
      else if Gains(s, x, m) { GainsKeeps(s, c, m); }
      else { RenamesKeeps(s, c, m); }
    case Chain(a') =>
      ChainKind(s, a', c);
      ChainShape(s, a', c);
      if Quiet(s, x, m) { QuietKeeps(s, c, m); }
      else if Finds(s, x, m) { FindsKeeps(s, c, m); }
      else if Removes(s, x, m) { RemovesKeeps(s, c, m); }
      else { SendsKeeps(s, c, m); }
    case Receiving(a') =>
      ReceivingKind(s, a', c);
      ReceivingKeepsShape(s, a', c);
      if Quiet(s, x, m) { QuietKeeps(s, c, m); }
      else if Loses(s, x, m) { LosesKeeps(s, c, m); }
      else if Registers(s, c, x, m) { RegistersKeeps(s, c, m); }
      else { WakesKeeps(s, c, m); }
    case Leaving(a') =>
      LeavingKind(s, a', c);
      LeavingShape(s, a', c);
      if Quiet(s, x, m) { QuietKeeps(s, c, m); }
      else if Loses(s, x, m) { LosesKeeps(s, c, m); }
      else { FinishesKeeps(s, c, m); }
  }

  lemma SendsKeeps(s: State, c: nat, m: Move)
    requires Owned(s) && c in s.contexts && Sends(s, c, s.contexts[c], m)
    ensures Exclusive(Apply(s, c, m)) && Settled(Apply(s, c, m))
  {
    assert AimedAt(s, s.contexts[c]) && Cleared(s, s.contexts[c]);
    SendingHolders(s, c, m);
    SendingEntries(s, c, m);
    SendingAims(s, c, m);
    SendingBoxes(s, c, m);
  }

  lemma RegistersKeeps(s: State, c: nat, m: Move)
    requires Owned(s) && c in s.contexts && Registers(s, c, s.contexts[c], m)
    ensures Exclusive(Apply(s, c, m)) && Settled(Apply(s, c, m))
  {
    RegisteringHolders(s, c, m);
    RegisteringEntries(s, c, m);
    RegisteringAims(s, c, m);
    BoxesStay(s, Apply(s, c, m), c, m.context);
  }

  lemma WakesKeeps(s: State, c: nat, m: Move)
    requires Owned(s) && c in s.contexts && Wakes(s, s.contexts[c], m)
    ensures Exclusive(Apply(s, c, m)) && Settled(Apply(s, c, m))
  {
    WakingHolders(s, c, m);
    WakingEntries(s, c, m);
    WakingAims(s, c, m);
    BoxesStay(s, Apply(s, c, m), c, m.context);
  }

  /** The channel it sends on is waited on, so nothing was sent on it before. */
  lemma MoveKeepsOneSender(s: State, a: Action, c: nat)
    requires OneSender(s) && Shapes(s) && Letters(s) && TakenOk(s) && c in s.contexts && AimedAt(s, s.contexts[c])
    requires ContextStep(s, a, c).Some? && Open(s)
    ensures OneSender(Apply(s, c, ContextStep(s, a, c).value))
  {
    var x, m := s.contexts[c], ContextStep(s, a, c).value;
    var t := Apply(s, c, m);
    MoveIsLetterMove(s, a, c);
    forall d: nat, e: nat, k | SentOn(t, d, k) && SentOn(t, e, k) ensures d == e {
      if SendsLetter(s, c, x, m) {
        NothingSentYet(s, x.phase.target, x.id, d);
        NothingSentYet(s, x.phase.target, x.id, e);
      }
      assert SentOn(s, d, k) || (d == c && SendsLetter(s, c, x, m));
      assert SentOn(s, e, k) || (e == c && SendsLetter(s, c, x, m));
    }
  }

  lemma NothingSentYet(s: State, k: ReceiverChannel, id: Option<string>, d: nat)
    requires Letters(s) && TakenOk(s) && AwaitedOn(s, k, id)
    ensures !SentOn(s, d, k)
  {
    assert d in s.contexts ==> Arrived(s, d);
  }

  lemma MoveKeepsShapes(s: State, c: nat, m: Move)
    requires Open(s) && Shapes(s) && c in s.contexts && Shape(c, m.context)
    requires m.socket.stage == s.socket.stage && m.socket.closedReceivers == s.socket.closedReceivers
    ensures Open(Apply(s, c, m)) && Shapes(Apply(s, c, m))
  {}

  lemma MoveKeepsOwned(s: State, a: Action, c: nat)
    requires Owned(s) && TakenOk(s) && Letters(s) && c in s.contexts
    requires ContextStep(s, a, c).Some? && Disciplined(s, By(c, a))
    ensures Owned(Apply(s, c, ContextStep(s, a, c).value))
  {
    var m := ContextStep(s, a, c).value;
    MoveSettles(s, a, c);
    MoveKeepsOneSender(s, a, c);
    MoveFramed(s, a, c);
    MoveKeepsShapes(s, c, m);
  }

  lemma ArrivalKeepsOwned(s: State, c: nat, data: string)
    requires Owned(s) && c !in s.contexts
    ensures Owned(Apply(s, c, Keep(s, Fresh(data))))
  {
    var t := Apply(s, c, Keep(s, Fresh(data)));
    ArrivalExcludes(s, t, c);
    ArrivalSettles(s, t, c);
    ArrivalKeepsShapes(s, c, data);
  }

  lemma ArrivalKeepsShapes(s: State, c: nat, data: string)
    requires Shapes(s) && OneSender(s) && c !in s.contexts
    ensures Shapes(Apply(s, c, Keep(s, Fresh(data)))) && OneSender(Apply(s, c, Keep(s, Fresh(data))))
  {
    var t := Apply(s, c, Keep(s, Fresh(data)));
    forall d: nat, e: nat, k | SentOn(t, d, k) && SentOn(t, e, k) ensures d == e {
      assert SentOn(s, d, k) && SentOn(s, e, k);
    }
  }

  lemma ArrivalExcludes(s: State, t: State, c: nat)
    requires Exclusive(s) && c !in s.contexts && SameBoxes(s, t) && t.socket == s.socket && t.leaked == s.leaked
    requires c in t.contexts && t.contexts == s.contexts[c := t.contexts[c]]
    requires t.contexts[c] == Fresh(t.contexts[c].data)
    ensures Exclusive(t)
  {
    forall d: nat, id ensures Holder(t, d, id) <==> Holder(s, d, id) {}
    SameHolders(s, t);
  }

  lemma ArrivalSettles(s: State, t: State, c: nat)
    requires Settled(s) && c !in s.contexts && SameBoxes(s, t) && t.socket == s.socket
    requires c in t.contexts && t.contexts == s.contexts[c := t.contexts[c]]
    requires t.contexts[c] == Fresh(t.contexts[c].data)
    ensures Settled(t)
  {
    forall id | id in t.socket.receivers ensures AwaitedOn(t, t.socket.receivers[id].channel, Some(id)) {
      assert AwaitedOn(s, t.socket.receivers[id].channel, Some(id));
    }
    forall d: nat | d in t.contexts ensures AimedAt(t, t.contexts[d]) && Cleared(t, t.contexts[d]) {
      if d != c { assert AimedAt(s, s.contexts[d]) && Cleared(s, s.contexts[d]); }
    }
    forall k: ReceiverChannel ensures Box(t, k) { assert Box(s, k); }
  }

  lemma SocketKeepsOwned(s: State, act: SocketAction)
    requires Owned(s) && SocketStep(s, act).Some? && Disciplined(s, On(act))
    ensures Owned(SocketStep(s, act).value)
  {
    SameParts(s, SocketStep(s, act).value);
  }

  lemma SameParts(s: State, t: State)
    requires Owned(s) && Open(t) && t == s.(reader := t.reader, socket := t.socket, leaked := t.leaked)
    requires Live(t) == Live(s) && t.leaked <= t.socket.locks.Keys && t.socket.receivers == s.socket.receivers
    ensures Owned(t)
  {
    forall d: nat, id ensures Holder(t, d, id) <==> Holder(s, d, id) {}
    SameHolders(s, t);
    forall id | id in t.socket.receivers ensures AwaitedOn(t, t.socket.receivers[id].channel, Some(id)) {
      assert AwaitedOn(s, t.socket.receivers[id].channel, Some(id));
    }
    forall d: nat | d in t.contexts ensures AimedAt(t, t.contexts[d]) && Cleared(t, t.contexts[d]) {
      assert AimedAt(s, s.contexts[d]) && Cleared(s, s.contexts[d]);
    }
    forall k: ReceiverChannel ensures Box(t, k) { assert Box(s, k); }
    forall d: nat, e: nat, k | SentOn(t, d, k) && SentOn(t, e, k) ensures d == e {
      assert SentOn(s, d, k) && SentOn(s, e, k);
    }
  }

  lemma StepKeepsOwned(s: State, e: Event)
    requires Owned(s) && TakenOk(s) && Letters(s) && Step(s, e).Some? && Disciplined(s, e)
    ensures Owned(Step(s, e).value)
  {
    match e
    case Arrive(c, data) =>
      ArrivalKeepsOwned(s, c, data);
    case On(act) => SocketKeepsOwned(s, act);
    case By(c, a) => MoveKeepsOwned(s, a, c);
  }

  // ---- The discipline is exact

  /** Without a leaked lock, an ID is in the lock map exactly while it has its holder. */
  lemma NothingLeaked(s: State)
    requires s.leaked == {}
    ensures Exclusive(s) <==> OneHolderEach(s)
  {
    assert Live(s) == s.socket.locks.Keys;
  }

  lemma SomethingLeaked(s: State, id: string)
    requires Exclusive(s) && id in s.leaked
    ensures !OneHolderEach(s)
  {
    assert id in s.socket.locks && id !in Live(s);
    assert forall c: nat :: !Holder(s, c, id);
  }

  /** A context that starts to hold an ID it did not hold, without taking the lock, has no right to it. */
  lemma SecondHolder(s: State, t: State, c: nat, id: string)
    requires Exclusive(s) && Live(t) == Live(s)
    requires c in s.contexts && c in t.contexts && t.contexts == s.contexts[c := t.contexts[c]] && SameBoxes(s, t)
    requires !Holder(s, c, id) && Holder(t, c, id)
    ensures !Exclusive(t)
  {
    if id in Live(s) {
      var d: nat :| Holder(s, d, id);
      OthersHold(s, t, c, t.contexts[c], d, id);
    }
  }

  /** Cancelling a receive before its message is there makes a holder that has no lock. */
  lemma CancellingEarly(s: State, c: nat)
    requires Exclusive(s) && Shapes(s) && c in s.contexts && ReceivingStep(s, CancelReceive, c).Some?
    requires !HasLetter(s, s.contexts[c])
    ensures !Exclusive(Step(s, By(c, Receiving(CancelReceive))).value)
  {
    assert Shape(c, s.contexts[c]);
    SecondHolder(s, Step(s, By(c, Receiving(CancelReceive))).value, c, s.contexts[c].id.value);
  }

  /** Cancelling a receive leaves every live ID its one holder exactly if the message was delivered before. */
  lemma CancellingKeepsLocks(s: State, c: nat)
    requires Owned(s) && TakenOk(s) && Letters(s) && c in s.contexts && ReceivingStep(s, CancelReceive, c).Some?
    ensures Exclusive(Step(s, By(c, Receiving(CancelReceive))).value) <==> HasLetter(s, s.contexts[c])
  {
    if HasLetter(s, s.contexts[c]) {
      MoveSettles(s, Receiving(CancelReceive), c);
    } else {
      CancellingEarly(s, c);
    }
  }

  lemma LockingLeaks(s: State, a: LockingAction, c: nat)
    requires c in s.contexts && LockingStep(s, a, c).Some?
    ensures var t := Step(s, By(c, Locking(a))).value;
            if Leaks(s, By(c, Locking(a))) then t.leaked != {} else t.leaked == s.leaked
  {}

  lemma LeakStep(s: State, e: Event)
    requires Step(s, e).Some?
    ensures if Leaks(s, e) then Step(s, e).value.leaked != {} else Step(s, e).value.leaked == s.leaked
    ensures s.leaked <= Step(s, e).value.leaked
  {
    match e
    case Arrive(_, _) =>
    case On(act) => SocketLeaks(s, act);
    case By(c, a) =>
      MoveFramed(s, a, c);
      if a.Locking? { LockingLeaks(s, a.locking, c); }
  }

  lemma SocketLeaks(s: State, act: SocketAction)
    requires SocketStep(s, act).Some?
    ensures var t := SocketStep(s, act).value;
            && (if Leaks(s, On(act)) then t.leaked != {} else t.leaked == s.leaked) && s.leaked <= t.leaked
  {}

  /** From a state in which every ID in the lock map has its one holder: setting an ID keeps that exactly if the message
      had none before. */
  lemma SettingIDKeepsLocks(s: State, c: nat, id: string)
    requires Owned(s) && TakenOk(s) && Letters(s) && OneHolderEach(s)
    requires c in s.contexts && LockingStep(s, SetID(id), c).Some?
    ensures OneHolderEach(Step(s, By(c, Locking(SetID(id)))).value) <==> s.contexts[c].id.None?
  {
    DisciplineIsExact(s, By(c, Locking(SetID(id))));
  }

  /** And trying a lock for a handler below a mount keeps it exactly if it is taken: such a lock is never released. */
  lemma LockingBelowKeepsLocks(s: State, c: nat)
    requires Owned(s) && TakenOk(s) && Letters(s) && OneHolderEach(s)
    requires c in s.contexts && LockingStep(s, TryLock, c).Some?
    ensures var below := s.contexts[c].below;
            OneHolderEach(Step(s, By(c, Locking(TryLock))).value) <==> below.None? || below.value in s.socket.locks
  {
    DisciplineIsExact(s, By(c, Locking(TryLock)));
  }

  /** Until receivers are closed, exactly the disciplined steps leave every live ID its one holder, and exactly those
      of them that leak no lock leave the whole lock map so. */
  lemma DisciplineIsExact(s: State, e: Event)
    requires Owned(s) && TakenOk(s) && Letters(s) && Step(s, e).Some? && e != On(ContinueClose)
    ensures Exclusive(Step(s, e).value) <==> Disciplined(s, e)
    ensures OneHolderEach(s) ==> (OneHolderEach(Step(s, e).value) <==> Disciplined(s, e) && !Leaks(s, e))
  {
    var t := Step(s, e).value;
    if Disciplined(s, e) { StepKeepsOwned(s, e); } else { CancellingEarly(s, e.c); }
    LeakStep(s, e);
    if OneHolderEach(s) {
      if id :| id in s.leaked { SomethingLeaked(s, id); }
      if Leaks(s, e) {
        var id :| id in t.leaked;
        if Exclusive(t) { SomethingLeaked(t, id); }
      } else {
        NothingLeaked(t);
      }
    }
  }
}
