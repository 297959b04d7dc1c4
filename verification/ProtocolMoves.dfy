/** What a step of one context can and cannot touch. */
module ProtocolMoves {
  import opened Wrappers
  import opened Sockets
  import opened Protocol

  /** The actions that change who holds a lock or who is to close one. */
  predicate LockAction(a: Action) {
    match a
    case Locking(l) => l.TryLock?
    case Chain(_) => false
    case Receiving(r) => r.Unlock? || r.CloseAndPark?
    case Leaving(l) => l.Release? || l.CloseAndFinalize?
  }

  ghost predicate Framed(s: State, a: Action, x: Context, m: Move) {
    && m.socket.stage == s.socket.stage && m.socket.record == s.socket.record
    && m.socket.closedReceivers == s.socket.closedReceivers
    && (!LockAction(a) ==>
          m.socket.locks == s.socket.locks && m.socket.nextLock == s.socket.nextLock
              && m.socket.closings == s.socket.closings
          && PendingLock(m.context) == PendingLock(x))
    && (a != Locking(TryLock) ==> !m.context.phase.Waiting?)
    && m.context.data == x.data && s.leaked <= m.leaked
    && (!a.Locking? ==> m.leaked == s.leaked && m.context.below == x.below)
    && (!a.Receiving? ==>
          m.taken == s.taken && m.context.obtained == x.obtained && m.context.usedTrigger == x.usedTrigger)
  }

  lemma LockingFramed(s: State, a: LockingAction, c: nat)
    requires c in s.contexts && LockingStep(s, a, c).Some?
    ensures Framed(s, Locking(a), s.contexts[c], LockingStep(s, a, c).value)
  {}

  lemma ChainFramed(s: State, a: ChainAction, c: nat)
    requires c in s.contexts && ChainStep(s, a, c).Some?
    ensures Framed(s, Chain(a), s.contexts[c], ChainStep(s, a, c).value)
  {}

  lemma ReceivingFramed(s: State, a: ReceivingAction, c: nat)
    requires c in s.contexts && ReceivingStep(s, a, c).Some?
    ensures Framed(s, Receiving(a), s.contexts[c], ReceivingStep(s, a, c).value)
  {}

  lemma FinalizeFramed(s: State, c: nat)
    requires c in s.contexts && LeavingStep(s, Finalize, c).Some?
    ensures Framed(s, Leaving(Finalize), s.contexts[c], LeavingStep(s, Finalize, c).value)
  {}

  lemma LeavingFramed(s: State, a: LeavingAction, c: nat)
    requires c in s.contexts && LeavingStep(s, a, c).Some?
    ensures Framed(s, Leaving(a), s.contexts[c], LeavingStep(s, a, c).value)
  {
    if a.Finalize? { FinalizeFramed(s, c); }
  }

  lemma MoveFramed(s: State, a: Action, c: nat)
    requires c in s.contexts && ContextStep(s, a, c).Some?
    ensures Framed(s, a, s.contexts[c], ContextStep(s, a, c).value)
  {
    match a
    case Locking(a') => LockingFramed(s, a', c);
    case Chain(a') => ChainFramed(s, a', c);
    case Receiving(a') => ReceivingFramed(s, a', c);
    case Leaving(a') => LeavingFramed(s, a', c);
  }

  /** The socket's own steps leave every context and every channel's content as they are. */
  lemma SocketKeepsContexts(s: State, act: SocketAction)
    requires SocketStep(s, act).Some?
    ensures var t := SocketStep(s, act).value; t == s.(socket := t.socket, leaked := t.leaked, reader := t.reader)
  {}

  /** SetMessageID changes the IDs and the phase only, the end of the goroutine the cursor and the phase only. */
  lemma LockingOnly(s: State, a: LockingAction, c: nat)
    requires c in s.contexts && LockingStep(s, a, c).Some?
    ensures var x, y := s.contexts[c], LockingStep(s, a, c).value.context;
            && y == x.(id := y.id, below := y.below, phase := y.phase)
            && (y.phase.Trying? || y.phase.Waiting? || y.phase.Running?)
            && (x.phase.Running? || x.phase.Trying? || x.phase.Waiting?)
            && (y.id != x.id ==> x.hasMessage && a.SetID?)
  {}

  /** It asks for an ID from running on until it has the lock or gives up. */
  lemma LockingAsks(s: State, a: LockingAction, c: nat)
    requires c in s.contexts && LockingStep(s, a, c).Some?
    ensures var x, y := s.contexts[c], LockingStep(s, a, c).value.context;
            && (y.id.None? ==> x.id.None?)
            && (y.phase.Running? ==> y.below.None? && !x.phase.Running?)
            && (if x.phase.Running? then x.hasMessage && Wanted(y).Some?
                else y.phase.Running? || Wanted(y) == Wanted(x))
  {}

  lemma LeavingOnly(s: State, a: LeavingAction, c: nat)
    requires c in s.contexts && LeavingStep(s, a, c).Some?
    ensures var x, y := s.contexts[c], LeavingStep(s, a, c).value.context;
            && y == x.(cursor := y.cursor, phase := y.phase)
            && (y.cursor == x.cursor || y.cursor == Past)
            && (y.phase.Exiting? || y.phase.ClosingThenFinalize? || y.phase.Finalizing? || y.phase.Done?)
  {}

  // ---- Locks

  /** The three ways a context changes the locks. */
  ghost predicate Acquires(s: Socket, x: Context, m: Move) {
    && Wanted(x).Some? && Wanted(x).value !in s.locks && m.socket == Acquire(s, Wanted(x).value)
    && PendingLock(m.context) == PendingLock(x)
  }

  ghost predicate Deletes(s: Socket, x: Context, m: Move) {
    x.id.Some? && x.id.value in s.locks && m.socket == DeleteLock(s, x.id.value)
    && PendingLock(x).None? && PendingLock(m.context) == Some(s.locks[x.id.value])
  }

  ghost predicate Closes(s: Socket, x: Context, m: Move) {
    PendingLock(x).Some? && m.socket == CloseLock(s, PendingLock(x).value) && PendingLock(m.context).None?
  }

  ghost predicate LockMove(s: State, a: Action, x: Context, m: Move) {
    || (m.socket == s.socket && PendingLock(m.context) == PendingLock(x))
    || (a == Locking(TryLock) && Acquires(s.socket, x, m))
    || ((a == Receiving(Unlock) || a == Leaving(Release)) && Deletes(s.socket, x, m))
    || ((a == Receiving(CloseAndPark) || a == Leaving(CloseAndFinalize)) && Closes(s.socket, x, m))
  }

  lemma ReceivingLockMoves(s: State, a: ReceivingAction, c: nat)
    requires c in s.contexts && ReceivingStep(s, a, c).Some? && LockAction(Receiving(a))
    ensures LockMove(s, Receiving(a), s.contexts[c], ReceivingStep(s, a, c).value)
  {}

  lemma LeavingLockMoves(s: State, a: LeavingAction, c: nat)
    requires c in s.contexts && LeavingStep(s, a, c).Some? && LockAction(Leaving(a))
    ensures LockMove(s, Leaving(a), s.contexts[c], LeavingStep(s, a, c).value)
  {}

  lemma LockMoves(s: State, a: Action, c: nat)
    requires c in s.contexts && ContextStep(s, a, c).Some? && LockAction(a)
    ensures LockMove(s, a, s.contexts[c], ContextStep(s, a, c).value)
  {
    match a
    case Locking(a') =>
    case Receiving(a') => ReceivingLockMoves(s, a', c);
    case Leaving(a') => LeavingLockMoves(s, a', c);
  }

  // ---- Receivers

  /** What a move does to the registry: nothing, a removal under the own ID, or one fresh registration. */
  ghost predicate RegistryMove(s: State, c: nat, x: Context, m: Move) {
    || (m.registered == s.registered && m.context.generation == x.generation && m.context.channel == x.channel
        && (m.socket.receivers == s.socket.receivers
            || (x.id.Some? && m.socket.receivers == s.socket.receivers - {x.id.value})))
    || (x.phase.Registering? && x.id.Some? && m.context.phase.Unlocking?
        && var channel, at := ReceiverChannel(c, x.generation), RegisteredPlace(x.cursor);
           && m.context == x.(channel := Some(channel), generation := x.generation + 1, phase := Unlocking)
           && m.registered == s.registered[channel := (x.id.value, at)]
           && m.socket.receivers == s.socket.receivers[x.id.value := ReceiverEntry(at, channel)])
  }

  lemma LockingRegistry(s: State, a: LockingAction, c: nat)
    requires c in s.contexts && LockingStep(s, a, c).Some?
    ensures RegistryMove(s, c, s.contexts[c], LockingStep(s, a, c).value)
  {}

  lemma ChainRegistry(s: State, a: ChainAction, c: nat)
    requires c in s.contexts && ChainStep(s, a, c).Some?
    ensures RegistryMove(s, c, s.contexts[c], ChainStep(s, a, c).value)
  {}

  lemma ReceivingRegistry(s: State, a: ReceivingAction, c: nat)
    requires c in s.contexts && ReceivingStep(s, a, c).Some?
    ensures RegistryMove(s, c, s.contexts[c], ReceivingStep(s, a, c).value)
  {}

  lemma LeavingRegistry(s: State, a: LeavingAction, c: nat)
    requires c in s.contexts && LeavingStep(s, a, c).Some?
    ensures RegistryMove(s, c, s.contexts[c], LeavingStep(s, a, c).value)
  {}

  lemma MoveIsRegistryMove(s: State, a: Action, c: nat)
    requires c in s.contexts && ContextStep(s, a, c).Some?
    ensures RegistryMove(s, c, s.contexts[c], ContextStep(s, a, c).value)
  {
    match a
    case Locking(a') => LockingRegistry(s, a', c);
    case Chain(a') => ChainRegistry(s, a', c);
    case Receiving(a') => ReceivingRegistry(s, a', c);
    case Leaving(a') => LeavingRegistry(s, a', c);
  }
}
