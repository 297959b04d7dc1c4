/** One connection with any number of message goroutines, as a step relation. Every inbound message has its own context;
    a step is one mutex section, one channel operation, or one move of a context along its handler list. The walk may
    stop at any place from the cursor on, so every path and every handler behaviour is covered. */
module Protocol {
  import opened Wrappers
  import opened Sockets

  /** The saved node and handler index; `Past` is the nil node. */
  datatype Cursor = At(node: nat, index: nat) | Past

  datatype Phase =
    | Running                                   // in the chain or in handler code
    | Trying                                    // SetMessageID: about to try the lock
    | Waiting(lock: LockChannel)                // SetMessageID: blocked on the holder's channel
    | Found(target: ReceiverChannel)            // Next: receiver found, its removal is next
    | Sending(target: ReceiverChannel)          // Next: receiver removed, the send is next
    | Registering                               // receive loop: about to register a fresh channel
    | Unlocking                                 // receive loop: registered, the lock release is next
    | ClosingThenPark(lock: LockChannel)        // receive loop: entry deleted, the close is next
    | Parked                                    // receive loop: blocked on the channel
    | Exiting                                   // the first Next returned, the release check is next
    | ClosingThenFinalize(lock: LockChannel)    // entry deleted, the close is next
    | Finalizing
    | Done

  /** `id` is there once SetMessageID was called on the message. A handler below a mount calls it on a copy: `below`
      is the ID it waits for then. `entered`, `usedTrigger` and `sentOn` only record history. */
  datatype Context = Context(
    data: string,
    id: Option<string>,
    below: Option<string>,
    hasMessage: bool,
    cursor: Cursor,
    entered: seq<Place>,
    channel: Option<ReceiverChannel>,
    generation: nat,
    firstReceiveDone: bool,
    usedTrigger: bool,
    obtained: seq<string>,
    sentOn: Option<ReceiverChannel>,
    phase: Phase)

  datatype Reader = Opening | Reading | Stopping | Stopped | Ended(status: int, reason: string)

  /** `registered` and `taken` record, for each receiver channel, what it was registered for and what was taken from
      it; `leaked` records the IDs whose lock nobody is there to release: it was taken for a copy of the message, or
      by an open handler, or the message was given another ID since. */
  datatype State = State(
    socket: Socket,
    contexts: map<nat, Context>,
    buffers: map<ReceiverChannel, seq<nat>>,
    registered: map<ReceiverChannel, (string, Option<Place>)>,
    taken: map<ReceiverChannel, nat>,
    leaked: set<string>,
    reader: Reader)

  const INITIAL := State(FRESH, map[], map[], map[], map[], {}, Opening)

  /** What the reader and the callers of Close do. */
  datatype SocketAction =
    | OpenHandlerSetsID(id: string)
    | OpenChainDone
    | ReadFails(record: CloseRecord)
    | StopReading
    | CloseChainDone
    | BeginClose(record: CloseRecord)
    | ContinueClose

  /** What one context does in SetMessageID, on its own message or on the copy a handler below a mount has. */
  datatype LockingAction = SetID(id: string) | SetBelow(id: string) | TryLock | Wake | GiveUp

  /** What one context does in the chain. */
  datatype ChainAction = Reach(place: Place) | ReachEnd | Unwind | Remove | Send | Drop | SendOnClosed

  /** What one context does to receive. */
  datatype ReceivingAction =
    | TakeTrigger | SkipTrigger | Receive | Register | Unlock | CloseAndPark | Take | TakeNil | CancelReceive

  /** What one context does after its chain. */
  datatype LeavingAction = Exit | Release | CloseAndFinalize | Finalize

  datatype Action =
    | Locking(locking: LockingAction)
    | Chain(chain: ChainAction)
    | Receiving(receiving: ReceivingAction)
    | Leaving(leaving: LeavingAction)

  datatype Event = Arrive(c: nat, data: string) | On(act: SocketAction) | By(c: nat, a: Action)

  function Fresh(data: string): Context {
    Context(data, None, None, true, At(0, 0), [], None, 0, false, false, [], None, Running)
  }

  /** What a step of one context leaves behind: its own new state and the shared parts. */
  datatype Move = Move(
    context: Context,
    socket: Socket,
    buffers: map<ReceiverChannel, seq<nat>>,
    registered: map<ReceiverChannel, (string, Option<Place>)>,
    taken: map<ReceiverChannel, nat>,
    leaked: set<string>)

  function Keep(s: State, x: Context): Move {
    Move(x, s.socket, s.buffers, s.registered, s.taken, s.leaked)
  }

  function Apply(s: State, c: nat, m: Move): State {
    State(m.socket, s.contexts[c := m.context], m.buffers, m.registered, m.taken, m.leaked, s.reader)
  }

  function Buffer(s: State, channel: ReceiverChannel): seq<nat> {
    if channel in s.buffers then s.buffers[channel] else []
  }

  predicate Before(p: Place, q: Place) {
    p.node < q.node || (p.node == q.node && p.index < q.index)
  }

  predicate Ahead(cursor: Cursor, p: Place) {
    cursor.At? && (cursor.node < p.node || (cursor.node == p.node && cursor.index <= p.index))
  }

  /** Where a receiver of the running handler is registered: one before the saved index. */
  function RegisteredPlace(cursor: Cursor): Option<Place> {
    if cursor.At? && cursor.index > 0 then Some(Place(cursor.node, cursor.index - 1)) else None
  }

  /** Only a message with an explicit ID, of a context that never waited itself, looks for receivers. */
  predicate Listening(x: Context) {
    x.id.Some? && x.channel.None?
  }

  /** The ID whose lock SetMessageID was called for. */
  function Wanted(x: Context): Option<string> {
    if x.below.Some? then x.below else x.id
  }

  function Leaked(s: State, id: Option<string>): set<string> {
    if id.Some? then s.leaked + {id.value} else s.leaked
  }

  function PendingLock(x: Context): Option<LockChannel> {
    match x.phase
    case ClosingThenPark(lock) => Some(lock)
    case ClosingThenFinalize(lock) => Some(lock)
    case _ => None
  }

  /** The socket's own steps: reading, closing. */
  function SocketStep(s: State, act: SocketAction): Option<State> {
    match act
    case OpenHandlerSetsID(id) =>
      // The end of the open chain releases nothing. While the ID is taken the handler waits.
      if !s.reader.Opening? || id in s.socket.locks then None
      else Some(s.(socket := Acquire(s.socket, id), leaked := Leaked(s, Some(id))))
    case OpenChainDone => if s.reader.Opening? then Some(s.(reader := Reading)) else None
    case ReadFails(record) =>
      if !s.reader.Reading? then None
      else if s.socket.stage.NotClosed? then Some(s.(socket := RecordClose(s.socket, record), reader := Stopping))
      else Some(s.(reader := Stopping))
    case StopReading =>
      // The reader's own call of Close has returned.
      if !s.reader.Stopping? || !s.socket.stage.Cancelled? then None else Some(s.(reader := Stopped))
    case CloseChainDone =>
      if !s.reader.Stopped? || s.socket.record.None? then None
      else Some(s.(reader := Ended(s.socket.record.value.status, s.socket.record.value.reason)))
    case BeginClose(record) =>
      if s.socket.stage.NotClosed? then Some(s.(socket := RecordClose(s.socket, record))) else Some(s)
    case ContinueClose =>
      var socket := NextStage(s.socket);
      if socket.None? then None else Some(s.(socket := socket.value))
  }

  function NextStage(s: Socket): Option<Socket> {
    match s.stage
    case Recorded => Some(CloseReceivers(s))
    case ReceiversClosed => Some(ResetLocks(s))
    case LocksReset => Some(CancelSocket(s))
    case _ => None
  }

  /** Steps of SetMessageID. */
  function LockingStep(s: State, a: LockingAction, c: nat): Option<Move>
    requires c in s.contexts
  {
    var x := s.contexts[c];
    match a
    case SetID(id) =>
      if !x.phase.Running? || !x.hasMessage then None
      else Some(Keep(s, x.(id := Some(id), phase := Trying)).(leaked := Leaked(s, x.id)))
    case SetBelow(id) =>
      if !x.phase.Running? || !x.hasMessage then None
      else Some(Keep(s, x.(below := Some(id), phase := Trying)))
    case TryLock =>
      var id := Wanted(x);
      if !x.phase.Trying? || id.None? then None
      else if id.value in s.socket.locks then Some(Keep(s, x.(phase := Waiting(s.socket.locks[id.value]))))
      else
        Some(Keep(s, x.(below := None, phase := Running))
             .(socket := Acquire(s.socket, id.value), leaked := Leaked(s, x.below)))
    case Wake =>
      if !x.phase.Waiting? || x.phase.lock !in s.socket.closings then None
      else Some(Keep(s, x.(phase := Trying)))
    case GiveUp =>
      if !x.phase.Waiting? || !s.socket.stage.Cancelled? then None
      else Some(Keep(s, x.(below := None, phase := Running)))
  }

  /** Steps of Next and the handlers' returns. */
  function ChainStep(s: State, a: ChainAction, c: nat): Option<Move>
    requires c in s.contexts
  {
    var x := s.contexts[c];
    match a
    case Reach(p) =>
      if !x.phase.Running? || !x.hasMessage || !Ahead(x.cursor, p) then None
      else if Listening(x) && ReceiverAt(s.socket, x.id.value, p).Some? then
        Some(Keep(s, x.(cursor := At(p.node, p.index), phase := Found(ReceiverAt(s.socket, x.id.value, p).value))))
      else Some(Keep(s, x.(cursor := At(p.node, p.index + 1), entered := x.entered + [p])))
    case ReachEnd =>
      if !x.phase.Running? || !x.hasMessage then None
      else
        Some(Keep(s, x.(cursor := Past))
             .(socket := if Listening(x) then RemoveReceiver(s.socket, x.id.value) else s.socket))
    case Unwind =>
      if !x.phase.Running? then None else Some(Keep(s, x.(cursor := Past)))
    case Remove =>
      if !x.phase.Found? || x.id.None? then None
      else Some(Keep(s, x.(phase := Sending(x.phase.target))).(socket := RemoveReceiver(s.socket, x.id.value)))
    case Send =>
      // The channel has room for one message.
      if !x.phase.Sending? || x.phase.target in s.socket.closedReceivers || |Buffer(s, x.phase.target)| > 0 then None
      else Some(Keep(s, x.(hasMessage := false, sentOn := Some(x.phase.target), phase := Running))
                .(buffers := s.buffers[x.phase.target := [c]]))
    case Drop =>
      if !x.phase.Sending? || !s.socket.stage.Cancelled? then None
      else Some(Keep(s, x.(hasMessage := false, phase := Running)))
    case SendOnClosed =>
      // A panic, recovered by the enclosing handler, with the message kept.
      if !x.phase.Sending? || x.phase.target !in s.socket.closedReceivers then None
      else Some(Keep(s, x.(cursor := Past, phase := Running)))
  }

  /** Steps of the receive loop. */
  function ReceivingStep(s: State, a: ReceivingAction, c: nat): Option<Move>
    requires c in s.contexts
  {
    var x := s.contexts[c];
    match a
    case TakeTrigger =>
      if !x.phase.Running? || !x.hasMessage || x.firstReceiveDone || |x.data| == 0 then None
      else Some(Keep(s, x.(firstReceiveDone := true, usedTrigger := true, obtained := x.obtained + [x.data])))
    case SkipTrigger =>
      if !x.phase.Running? || !x.hasMessage then None
      else Some(Keep(s, x.(firstReceiveDone := true)))
    case Receive =>
      // Without an explicit ID the call fails and the context goes on.
      if !x.phase.Running? || !x.hasMessage || !(x.firstReceiveDone || |x.data| == 0) then None
      else Some(Keep(s, x.(firstReceiveDone := true, usedTrigger := x.usedTrigger || !x.firstReceiveDone,
                           phase := if x.id.Some? then Registering else Running)))
    case Register =>
      if !x.phase.Registering? || x.id.None? then None
      else
        var channel := ReceiverChannel(c, x.generation);
        var at := RegisteredPlace(x.cursor);
        Some(Keep(s, x.(channel := Some(channel), generation := x.generation + 1, phase := Unlocking))
             .(socket := AddReceiver(s.socket, x.id.value, at, channel),
                 registered := s.registered[channel := (x.id.value, at)]))
    case Unlock =>
      if !x.phase.Unlocking? || x.id.None? then None
      else if x.id.value in s.socket.locks then
        Some(Keep(s, x.(phase := ClosingThenPark(s.socket.locks[x.id.value])))
             .(socket := DeleteLock(s.socket, x.id.value)))
      else Some(Keep(s, x.(phase := Parked)))
    case CloseAndPark =>
      if !x.phase.ClosingThenPark? then None
      else Some(Keep(s, x.(phase := Parked)).(socket := CloseLock(s.socket, x.phase.lock)))
    case Take =>
      // An empty message is skipped: a fresh receiver is registered.
      if !x.phase.Parked? || x.channel.None? || |Buffer(s, x.channel.value)| == 0 then None
      else
        var m := Buffer(s, x.channel.value)[0];
        if m !in s.contexts then None
        else
          var data := s.contexts[m].data;
          Some(Keep(s, if |data| == 0 then x.(phase := Registering)
              else x.(obtained := x.obtained + [data], phase := Running))
               .(buffers := s.buffers[x.channel.value := Buffer(s, x.channel.value)[1..]],
                   taken := s.taken[x.channel.value := m]))
    case TakeNil =>
      if !x.phase.Parked? || x.channel.None? || |Buffer(s, x.channel.value)| > 0
         || x.channel.value !in s.socket.closedReceivers then None
      else Some(Keep(s, x.(phase := Registering)))
    case CancelReceive =>
      if !x.phase.Parked? then None else Some(Keep(s, x.(phase := Running)))
  }

  /** Steps of the end of the goroutine. */
  function LeavingStep(s: State, a: LeavingAction, c: nat): Option<Move>
    requires c in s.contexts
  {
    var x := s.contexts[c];
    match a
    case Exit =>
      if !x.phase.Running? then None else Some(Keep(s, x.(cursor := Past, phase := Exiting)))
    case Release =>
      if !x.phase.Exiting? then None
      else if x.hasMessage && x.id.Some? && x.id.value in s.socket.locks then
        Some(Keep(s, x.(phase := ClosingThenFinalize(s.socket.locks[x.id.value])))
             .(socket := DeleteLock(s.socket, x.id.value)))
      else Some(Keep(s, x.(phase := Finalizing)))
    case CloseAndFinalize =>
      if !x.phase.ClosingThenFinalize? then None
      else Some(Keep(s, x.(phase := Finalizing)).(socket := CloseLock(s.socket, x.phase.lock)))
    case Finalize =>
      if !x.phase.Finalizing? then None
      else if x.channel.None? then Some(Keep(s, x.(phase := Done)))
      else
        Some(Keep(s, x.(phase := Done)).(
             socket := if x.hasMessage && x.id.Some? then RemoveReceiver(s.socket, x.id.value) else s.socket,
             buffers := s.buffers[x.channel.value := []]))
  }

  /** The steps of one context. */
  function ContextStep(s: State, a: Action, c: nat): Option<Move>
    requires c in s.contexts
  {
    match a
    case Locking(a') => LockingStep(s, a', c)
    case Chain(a') => ChainStep(s, a', c)
    case Receiving(a') => ReceivingStep(s, a', c)
    case Leaving(a') => LeavingStep(s, a', c)
  }

  function Step(s: State, e: Event): Option<State> {
    match e
    case Arrive(c, data) =>
      if !s.reader.Reading? || c in s.contexts then None else Some(Apply(s, c, Keep(s, Fresh(data))))
    case On(act) => SocketStep(s, act)
    case By(c, a) =>
      if c !in s.contexts || ContextStep(s, a, c).None? then None else Some(Apply(s, c, ContextStep(s, a, c).value))
  }

  /** A run: the state after a sequence of events, if each was possible. */
  function Exec(s: State, events: seq<Event>): Option<State>
    decreases |events|
  {
    if |events| == 0 then Some(s)
    else
      var next := Step(s, events[0]);
      if next.None? then None else Exec(next.value, events[1..])
  }
}
