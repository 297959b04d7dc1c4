/** Who owns the lock of a message ID, in disciplined runs: a receive is cancelled only after its message was
    delivered, and closing the socket has not got as far as the receivers. Then a lock travels with its message. */
module ProtocolOwnership {
  import opened Wrappers
  import opened Sockets
  import opened Protocol
  import opened ProtocolMoves
  import opened ProtocolDelivery
  import opened ProtocolLetters

  /** A receive is cancelled only after its message was delivered. */
  predicate Patient(s: State, e: Event) {
    Cancels(e) && e.c in s.contexts ==> HasLetter(s, s.contexts[e.c])
  }

  predicate Disciplined(s: State, e: Event) {
    Patient(s, e) && e != On(ContinueClose)
  }

  /** A message is in the channel that the context has made last. */
  predicate HasLetter(s: State, x: Context) {
    x.channel.Some? && |Buffer(s, x.channel.value)| > 0
  }

  /** A handler below a mount sets an ID, while the message has one of its own. */
  predicate SetsBelow(x: Context) {
    x.below.Some? && x.hasMessage && x.id.Some?
  }

  /** What a context's phase means for the lock of its ID. */
  datatype Role =
    | Outside
    | Inside                             // in the chain, in handler code, registering, or about to release
    | Handing(target: ReceiverChannel)   // on its way to a receiver
    | Listed                             // registered, the lock not yet released
    | Awaiting                           // registered, the lock released

  function RoleOf(x: Context): Role {
    match x.phase
    case Running => if x.hasMessage && x.id.Some? then Inside else Outside
    case Exiting => if x.hasMessage && x.id.Some? then Inside else Outside
    case Trying => if SetsBelow(x) then Inside else Outside
    case Waiting(_) => if SetsBelow(x) then Inside else Outside
    case Found(target) => Handing(target)
    case Sending(target) => Handing(target)
    case Registering => Inside
    case Unlocking => Listed
    case ClosingThenPark(_) => Awaiting
    case Parked => Awaiting
    case _ => Outside
  }

  /** Past SetMessageID and neither parked, handed over nor finished; or parked with a message it has not taken yet. */
  ghost predicate Holds(s: State, x: Context) {
    var role := RoleOf(x);
    role.Inside? || role.Handing? || role.Listed? || (role.Awaiting? && HasLetter(s, x))
  }

  ghost predicate Holder(s: State, c: nat, id: string) {
    c in s.contexts && s.contexts[c].id == Some(id) && Holds(s, s.contexts[c])
  }

  /** The IDs in the lock map, but for those whose lock was leaked. */
  function Live(s: State): set<string> {
    s.socket.locks.Keys - s.leaked
  }

  /** Every ID has one holder while it is live and none otherwise, and a leaked ID is in the lock map. */
  ghost predicate Exclusive(s: State) {
    && (forall id, c: nat, c': nat :: Holder(s, c, id) && Holder(s, c', id) ==> c == c')
    && (forall id, c: nat :: Holder(s, c, id) ==> id in Live(s))
    && (forall id :: id in Live(s) ==> exists c: nat :: Holder(s, c, id))
    && s.leaked <= s.socket.locks.Keys
  }

  /** The lock map has an ID exactly while one context holds it. */
  ghost predicate OneHolderEach(s: State) {
    && (forall id, c: nat, c': nat :: Holder(s, c, id) && Holder(s, c', id) ==> c == c')
    && (forall id :: id in s.socket.locks <==> exists c: nat :: Holder(s, c, id))
  }

  /** The steps that leak a lock: setting another ID, getting a lock below a mount, setting an ID in an open handler. */
  predicate Leaks(s: State, e: Event) {
    match e
    case Arrive(_, _) => false
    case On(act) => act.OpenHandlerSetsID?
    case By(c, Locking(SetID(_))) => c in s.contexts && s.contexts[c].id.Some?
    case By(c, Locking(TryLock)) =>
      c in s.contexts && s.contexts[c].below.Some? && s.contexts[c].below.value !in s.socket.locks
    case By(_, _) => false
  }

  ghost predicate Shape(c: nat, x: Context) {
    ReceiveShape(c, x) && LockShape(x)
  }

  /** Which phases ask for an ID and a message. */
  ghost predicate LockShape(x: Context) {
    && (x.phase.Found? || x.phase.Sending? || x.phase.Registering? || WaitsForMessage(x) ==>
          x.hasMessage && x.id.Some?)
    && (x.phase.Trying? || x.phase.Waiting? ==> x.hasMessage && Wanted(x).Some?)
    && (x.below.Some? ==> x.phase.Trying? || x.phase.Waiting?)
    && (x.hasMessage <==> x.sentOn.None?)
    && (x.id.None? ==> x.channel.None?)
    && (Target(x).Some? ==> x.channel.None?)
  }

  ghost predicate Shapes(s: State) {
    forall c: nat :: c in s.contexts ==> Shape(c, s.contexts[c])
  }

  ghost predicate AwaitedOn(s: State, channel: ReceiverChannel, id: Option<string>) {
    && channel.owner in s.contexts
    && var x := s.contexts[channel.owner];
       x.channel == Some(channel) && x.id == id && WaitsForMessage(x) && |Buffer(s, channel)| == 0
  }

  /** Every receiver in the registry belongs to a context that waits on it. */
  ghost predicate Entries(s: State) {
    forall id :: id in s.socket.receivers ==> AwaitedOn(s, s.socket.receivers[id].channel, Some(id))
  }

  ghost predicate AimedAt(s: State, x: Context) {
    Target(x).Some? ==> AwaitedOn(s, Target(x).value, x.id) && RoleOf(s.contexts[Target(x).value.owner]).Awaiting?
  }

  ghost predicate Cleared(s: State, x: Context) {
    x.phase.Sending? && x.id.Some? ==> x.id.value !in s.socket.receivers
  }

  /** Whoever is about to hand over does so to a parked context, whose channel has room. */
  ghost predicate Aims(s: State) {
    forall c: nat :: c in s.contexts ==> AimedAt(s, s.contexts[c]) && Cleared(s, s.contexts[c])
  }

  /** A message is only in channels already made, and never in one whose owner has yet to release its lock. */
  ghost predicate Box(s: State, channel: ReceiverChannel) {
    |Buffer(s, channel)| > 0 ==>
      && channel.owner in s.contexts && channel.generation < s.contexts[channel.owner].generation
      && (s.contexts[channel.owner].channel == Some(channel) ==> !RoleOf(s.contexts[channel.owner]).Listed?)
  }

  ghost predicate Boxes(s: State) {
    forall channel: ReceiverChannel :: Box(s, channel)
  }

  /** No channel is sent two messages. */
  ghost predicate OneSender(s: State) {
    forall c: nat, d: nat, k :: SentOn(s, c, k) && SentOn(s, d, k) ==> c == d
  }

  /** Closing may have been recorded, but no receiver was closed yet. */
  ghost predicate Open(s: State) {
    (s.socket.stage.NotClosed? || s.socket.stage.Recorded?) && s.socket.closedReceivers == {}
  }

  ghost predicate Owned(s: State) {
    Open(s) && Shapes(s) && Exclusive(s) && Entries(s) && Aims(s) && Boxes(s) && OneSender(s)
  }

  // ---- What a disciplined step does

  /** What is in the channels, and which one is the context's own. */
  ghost predicate SameChannels(s: State, x: Context, m: Move) {
    m.buffers == s.buffers && m.context.channel == x.channel && m.context.generation == x.generation
  }

  /** A lock may be taken below a mount: it is leaked then. */
  ghost predicate SameLive(s: State, x: Context, m: Move) {
    || (m.socket.locks == s.socket.locks && m.leaked == s.leaked)
    || (x.below.Some? && x.below.value !in s.socket.locks
        && m.socket.locks == s.socket.locks[x.below.value := s.socket.nextLock]
        && m.leaked == s.leaked + {x.below.value})
  }

  ghost predicate Quiet(s: State, x: Context, m: Move) {
    var y := m.context;
    && SameLive(s, x, m) && m.socket.receivers == s.socket.receivers && SameChannels(s, x, m)
    && RoleOf(y) == RoleOf(x) && (y.phase.Sending? ==> x.phase.Sending?)
    && (y.id == x.id || (RoleOf(x).Outside? && x.id.None?))
  }

  ghost predicate Gains(s: State, x: Context, m: Move) {
    var y := m.context;
    && x.id.Some? && x.id.value !in s.socket.locks && RoleOf(x).Outside? && RoleOf(y).Inside?
    && m.socket.locks == s.socket.locks[x.id.value := s.socket.nextLock] && m.leaked == s.leaked
    && m.socket.receivers == s.socket.receivers && SameChannels(s, x, m) && y.id == x.id
  }

  /** A message that holds the lock of its ID is given another ID. */
  ghost predicate Renames(s: State, x: Context, m: Move) {
    var y := m.context;
    && RoleOf(x).Inside? && x.id.Some? && RoleOf(y).Outside? && y.phase.Trying?
    && m.socket == s.socket && m.leaked == s.leaked + {x.id.value} && SameChannels(s, x, m)
  }

  ghost predicate Loses(s: State, x: Context, m: Move) {
    var y := m.context;
    && x.id.Some? && ((RoleOf(x).Inside? && RoleOf(y).Outside?) || (RoleOf(x).Listed? && RoleOf(y).Awaiting?))
    && m.socket.locks == s.socket.locks - {x.id.value} && m.leaked == s.leaked
    && m.socket.receivers == s.socket.receivers && SameChannels(s, x, m) && y.id == x.id
  }

  ghost predicate Finds(s: State, x: Context, m: Move) {
    var y := m.context;
    && RoleOf(x).Inside? && y.phase.Found? && x.id.Some? && x.id.value in s.socket.receivers
    && s.socket.receivers[x.id.value].channel == y.phase.target
    && m.socket == s.socket && m.leaked == s.leaked && SameChannels(s, x, m) && y.id == x.id && x.channel.None?
  }

  ghost predicate Removes(s: State, x: Context, m: Move) {
    var y := m.context;
    && x.id.Some? && m.socket.locks == s.socket.locks && m.socket.receivers == s.socket.receivers - {x.id.value}
    && m.leaked == s.leaked && SameChannels(s, x, m) && RoleOf(y) == RoleOf(x) && y.id == x.id
  }

  ghost predicate Sends(s: State, c: nat, x: Context, m: Move) {
    var y := m.context;
    && x.phase.Sending? && RoleOf(y).Outside? && y.phase.Running? && y.id == x.id
    && y.channel == x.channel && y.generation == x.generation
    && m.socket == s.socket && m.leaked == s.leaked && m.buffers == s.buffers[x.phase.target := [c]]
  }

  ghost predicate Registers(s: State, c: nat, x: Context, m: Move) {
    var y := m.context;
    && x.phase.Registering? && x.id.Some? && y.phase.Unlocking? && y.id == x.id
    && y.channel == Some(ReceiverChannel(c, x.generation)) && y.generation == x.generation + 1
    && m.socket.locks == s.socket.locks && m.leaked == s.leaked && m.buffers == s.buffers
    && m.socket.receivers == s.socket.receivers[x.id.value := ReceiverEntry(RegisteredPlace(x.cursor), y.channel.value)]
  }

  /** With the message it waited for in its channel, a context takes it, or gives up and leaves it there. */
  ghost predicate Wakes(s: State, x: Context, m: Move) {
    var y := m.context;
    && x.phase.Parked? && HasLetter(s, x) && RoleOf(y).Inside?
    && m.socket == s.socket && m.leaked == s.leaked
    && y.channel == x.channel && y.generation == x.generation && y.id == x.id
    && (m.buffers == s.buffers || m.buffers == s.buffers[x.channel.value := Buffer(s, x.channel.value)[1..]])
  }

  ghost predicate Finishes(s: State, x: Context, m: Move) {
    var y := m.context;
    && RoleOf(x).Outside? && RoleOf(y).Outside? && x.channel.Some? && y.id == x.id
    && y.channel == x.channel && y.generation == x.generation
    && m.socket.locks == s.socket.locks && m.leaked == s.leaked && m.buffers == s.buffers[x.channel.value := []]
    && (m.socket.receivers == s.socket.receivers
        || (x.id.Some? && m.socket.receivers == s.socket.receivers - {x.id.value}))
  }

  /** What a holder can rely on. */
  ghost predicate Secure(s: State, c: nat, x: Context) {
    Open(s) && Shape(c, x) && ((RoleOf(x).Inside? || RoleOf(x).Listed?) && x.id.Some? ==> x.id.value in s.socket.locks)
  }

  lemma LockingKind(s: State, a: LockingAction, c: nat)
    requires c in s.contexts && LockingStep(s, a, c).Some? && Secure(s, c, s.contexts[c])
    ensures var x, m := s.contexts[c], LockingStep(s, a, c).value;
            Quiet(s, x, m) || Gains(s, x, m) || Renames(s, x, m)
  {
    if a.SetID? { SettingKind(s, a.id, c); }
    if a.TryLock? { TryingKind(s, c); }
  }

  lemma SettingKind(s: State, id: string, c: nat)
    requires c in s.contexts && LockingStep(s, SetID(id), c).Some? && Secure(s, c, s.contexts[c])
    ensures var x, m := s.contexts[c], LockingStep(s, SetID(id), c).value; Quiet(s, x, m) || Renames(s, x, m)
  {}

  lemma TryingKind(s: State, c: nat)
    requires c in s.contexts && LockingStep(s, TryLock, c).Some? && Secure(s, c, s.contexts[c])
    ensures var x, m := s.contexts[c], LockingStep(s, TryLock, c).value; Quiet(s, x, m) || Gains(s, x, m)
  {}

  lemma LockingShape(s: State, a: LockingAction, c: nat)
    requires c in s.contexts && LockingStep(s, a, c).Some? && Secure(s, c, s.contexts[c])
    ensures Shape(c, LockingStep(s, a, c).value.context)
  {
    LockingRegular(s, a, c);
    LockingLockShape(s, a, c);
  }

  lemma LockingLockShape(s: State, a: LockingAction, c: nat)
    requires c in s.contexts && LockingStep(s, a, c).Some? && LockShape(s.contexts[c])
    ensures LockShape(LockingStep(s, a, c).value.context)
  {
    LockingOnly(s, a, c);
    LockingAsks(s, a, c);
    NewIDsKeepShape(s.contexts[c], LockingStep(s, a, c).value.context);
  }

  lemma NewIDsKeepShape(x: Context, y: Context)
    requires LockShape(x) && y == x.(id := y.id, below := y.below, phase := y.phase) && (y.id.None? ==> x.id.None?)
    requires x.phase.Running? || x.phase.Trying? || x.phase.Waiting?
    requires y.phase.Running? || y.phase.Trying? || y.phase.Waiting?
    requires y.phase.Running? ==> y.below.None? && !x.phase.Running?
    requires if x.phase.Running? then x.hasMessage && Wanted(y).Some? else y.phase.Running? || Wanted(y) == Wanted(x)
    ensures LockShape(y)
  {}

  lemma ChainKind(s: State, a: ChainAction, c: nat)
    requires c in s.contexts && ChainStep(s, a, c).Some? && Secure(s, c, s.contexts[c])
    ensures var x, m := s.contexts[c], ChainStep(s, a, c).value;
            Quiet(s, x, m) || Finds(s, x, m) || Removes(s, x, m) || Sends(s, c, x, m)
  {}

  lemma ChainShape(s: State, a: ChainAction, c: nat)
    requires c in s.contexts && ChainStep(s, a, c).Some? && Secure(s, c, s.contexts[c])
    ensures Shape(c, ChainStep(s, a, c).value.context)
  {
    ChainRegular(s, a, c);
    ChainLockShape(s, a, c);
  }

  lemma ChainLockShape(s: State, a: ChainAction, c: nat)
    requires c in s.contexts && ChainStep(s, a, c).Some? && LockShape(s.contexts[c]) && Open(s)
    ensures LockShape(ChainStep(s, a, c).value.context)
  {}

  lemma ReceivingKind(s: State, a: ReceivingAction, c: nat)
    requires c in s.contexts && ReceivingStep(s, a, c).Some? && Secure(s, c, s.contexts[c])
    requires Disciplined(s, By(c, Receiving(a)))
    ensures var x, m := s.contexts[c], ReceivingStep(s, a, c).value;
            Quiet(s, x, m) || Loses(s, x, m) || Registers(s, c, x, m) || Wakes(s, x, m)
  {}

  lemma ReceivingKeepsShape(s: State, a: ReceivingAction, c: nat)
    requires c in s.contexts && ReceivingStep(s, a, c).Some? && Secure(s, c, s.contexts[c])
    ensures Shape(c, ReceivingStep(s, a, c).value.context)
  {
    ReceivingShape(s, a, c);
    ReceivingLockShape(s, a, c);
  }

  lemma ReceivingLockShape(s: State, a: ReceivingAction, c: nat)
    requires c in s.contexts && ReceivingStep(s, a, c).Some? && LockShape(s.contexts[c])
    ensures LockShape(ReceivingStep(s, a, c).value.context)
  {}

  lemma FinalizeKind(s: State, c: nat)
    requires c in s.contexts && LeavingStep(s, Finalize, c).Some?
    ensures var x, m := s.contexts[c], LeavingStep(s, Finalize, c).value; Quiet(s, x, m) || Finishes(s, x, m)
  {}

  lemma ReleaseKind(s: State, c: nat)
    requires c in s.contexts && LeavingStep(s, Release, c).Some? && Secure(s, c, s.contexts[c])
    ensures var x, m := s.contexts[c], LeavingStep(s, Release, c).value; Quiet(s, x, m) || Loses(s, x, m)
  {}

  lemma LeavingKind(s: State, a: LeavingAction, c: nat)
    requires c in s.contexts && LeavingStep(s, a, c).Some? && Secure(s, c, s.contexts[c])
    ensures var x, m := s.contexts[c], LeavingStep(s, a, c).value;
            Quiet(s, x, m) || Loses(s, x, m) || Finishes(s, x, m)
  {
    if a.Finalize? { FinalizeKind(s, c); }
    if a.Release? { ReleaseKind(s, c); }
  }

  lemma LeavingShape(s: State, a: LeavingAction, c: nat)
    requires c in s.contexts && LeavingStep(s, a, c).Some? && Secure(s, c, s.contexts[c])
    ensures Shape(c, LeavingStep(s, a, c).value.context)
  {
    LeavingOnly(s, a, c);
  }
}
