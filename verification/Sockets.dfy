/** The shared state of one connection: message-ID locks, receivers, and the close record. Each function here is one
    mutex section of a socket method; the class in `SocketObjects` performs them on its fields. */
module Sockets {
  import opened Wrappers

  type LockChannel = nat

  /** A receiver channel is made fresh by its owner; `generation` counts the ones it made. */
  datatype ReceiverChannel = ReceiverChannel(owner: nat, generation: nat)

  /** A handler's place: the node's position in its list and the handler's index in the node. */
  datatype Place = Place(node: nat, index: nat)

  datatype ReceiverEntry = ReceiverEntry(at: Option<Place>, channel: ReceiverChannel)

  datatype CloseSource = ClientCloseSource | ServerCloseSource

  datatype CloseRecord = CloseRecord(status: int, reason: string, source: CloseSource)

  /** How far the one effective call of Close has come; it holds the close mutex throughout. */
  datatype CloseStage = NotClosed | Recorded | ReceiversClosed | LocksReset | Cancelled

  /** `closings` counts how often each lock channel was closed. */
  datatype Socket = Socket(
    locks: map<string, LockChannel>,
    nextLock: LockChannel,
    closings: multiset<LockChannel>,
    receivers: map<string, ReceiverEntry>,
    closedReceivers: set<ReceiverChannel>,
    stage: CloseStage,
    record: Option<CloseRecord>)

  const FRESH := Socket(map[], 0, multiset{}, map[], {}, NotClosed, None)

  /** Takes the lock of an ID with a new channel, if it is free. */
  function Acquire(s: Socket, id: string): Socket
    requires id !in s.locks
  {
    s.(locks := s.locks[id := s.nextLock], nextLock := s.nextLock + 1)
  }

  function DeleteLock(s: Socket, id: string): Socket {
    s.(locks := s.locks - {id})
  }

  function CloseLock(s: Socket, channel: LockChannel): Socket {
    s.(closings := s.closings + multiset{channel})
  }

  function AddReceiver(s: Socket, id: string, at: Option<Place>, channel: ReceiverChannel): Socket {
    s.(receivers := s.receivers[id := ReceiverEntry(at, channel)])
  }

  function RemoveReceiver(s: Socket, id: string): Socket {
    s.(receivers := s.receivers - {id})
  }

  /** The receiver of an ID, at exactly this handler. */
  function ReceiverAt(s: Socket, id: string, at: Place): Option<ReceiverChannel> {
    if id in s.receivers && s.receivers[id].at == Some(at) then Some(s.receivers[id].channel) else None
  }

  function RecordClose(s: Socket, record: CloseRecord): Socket {
    s.(stage := Recorded, record := Some(record))
  }

  function Channels(receivers: map<string, ReceiverEntry>): set<ReceiverChannel> {
    set id | id in receivers :: receivers[id].channel
  }

  function CloseReceivers(s: Socket): Socket {
    s.(stage := ReceiversClosed, closedReceivers := s.closedReceivers + Channels(s.receivers), receivers := map[])
  }

  function ResetLocks(s: Socket): Socket {
    s.(stage := LocksReset, locks := map[])
  }

  function CancelSocket(s: Socket): Socket {
    s.(stage := Cancelled)
  }

  /** A whole call of Close: the first one wins, later ones change nothing. */
  function Close(s: Socket, record: CloseRecord): Socket {
    if s.stage != NotClosed then s else CancelSocket(ResetLocks(CloseReceivers(RecordClose(s, record))))
  }
}
