/** The socket as the program keeps it: maps and flags that its methods update in place. */
module SocketObjects {
  import opened Wrappers
  import opened Sockets

  ghost function ChannelsOf(receivers: map<string, ReceiverEntry>, ids: set<string>): set<ReceiverChannel>
    requires ids <= receivers.Keys
  {
    set id | id in ids :: receivers[id].channel
  }

  lemma ChannelsOfMore(receivers: map<string, ReceiverEntry>, ids: set<string>, id: string)
    requires ids <= receivers.Keys && id in receivers
    ensures ChannelsOf(receivers, ids + {id}) == ChannelsOf(receivers, ids) + {receivers[id].channel}
  {}

  class SocketObject {
    var receivers: map<string, ReceiverEntry>
    var messageIDLocks: map<string, LockChannel>
    var nextLock: LockChannel
    var closedLocks: multiset<LockChannel>
    var closedReceivers: set<ReceiverChannel>
    var closed: bool
    var closeStatus: int
    var closeReason: string
    var closeStatusSource: CloseSource
    var cancelled: bool

    ghost predicate Valid()
      reads this
    {
      closed == cancelled
    }

    ghost function Value(): Socket
      reads this
    {
      Socket(messageIDLocks, nextLock, closedLocks, receivers, closedReceivers,
             if cancelled then Cancelled else NotClosed,
             if closed then Some(CloseRecord(closeStatus, closeReason, closeStatusSource)) else None)
    }

    constructor ()
      ensures Valid() && Value() == FRESH
    {
      receivers, messageIDLocks, nextLock, closedLocks, closedReceivers := map[], map[], 0, multiset{}, {};
      closed, closeStatus, closeReason, closeStatusSource, cancelled := false, 0, "", ServerCloseSource, false;
    }

    /** Marks the socket closed, closes and drops every receiver, forgets the locks and cancels the context. */
    method Close(status: int, reason: string, source: CloseSource)
      requires Valid()
      modifies this
      ensures Valid() && closed
      ensures Value() == Sockets.Close(old(Value()), CloseRecord(status, reason, source))
      ensures !old(closed) ==>
                && closeStatus == status && closeReason == reason && closeStatusSource == source
                && receivers == map[] && messageIDLocks == map[] && cancelled
                && (forall id :: id in old(receivers) ==> old(receivers)[id].channel in closedReceivers)
      ensures old(closed) ==> Value() == old(Value())
    {
      if closed { return; }
      closed, closeStatus, closeReason, closeStatusSource := true, status, reason, source;
      CloseReceivers();
      messageIDLocks := map[];
      cancelled := true;
    }

    /** Closes the channel of every registered receiver and empties the registry. */
    method CloseReceivers()
      modifies this`receivers, this`closedReceivers
      ensures receivers == map[] && closedReceivers == old(closedReceivers) + Channels(old(receivers))
      ensures forall k :: k in closedReceivers <==>
                k in old(closedReceivers) || exists id :: id in old(receivers) && old(receivers)[id].channel == k
    {
      ghost var all, was, done := receivers, closedReceivers, {};
      while receivers != map[]
        invariant receivers == all - done && done <= all.Keys
        invariant closedReceivers == was + ChannelsOf(all, done)
        decreases |receivers|
      {
        var id :| id in receivers;
        closedReceivers := closedReceivers + {receivers[id].channel};
        receivers := receivers - {id};
        ChannelsOfMore(all, done, id);
        done := done + {id};
      }
      assert done == all.Keys by { forall id | id in all ensures id in done { assert id !in receivers; } }
    }

    /** The channel to wait on, or a new one when the caller is first. */
    method AcquireMessageIDLock(id: string) returns (channel: LockChannel, isFirst: bool)
      modifies this`messageIDLocks, this`nextLock
      ensures isFirst <==> id !in old(messageIDLocks)
      ensures isFirst ==> Value() == Acquire(old(Value()), id) && channel == messageIDLocks[id] == old(nextLock)
      ensures !isFirst ==> Value() == old(Value()) && channel == messageIDLocks[id]
      ensures id in messageIDLocks && messageIDLocks == old(messageIDLocks)[id := channel]
    {
      if id in messageIDLocks { return messageIDLocks[id], false; }
      channel := nextLock;
      nextLock := nextLock + 1;
      messageIDLocks := messageIDLocks[id := channel];
      isFirst := true;
    }

    /** Deletes the entry, then closes its channel; a lock that is not held is left alone. */
    method ReleaseMessageIDLock(id: string)
      modifies this`messageIDLocks, this`closedLocks
      ensures Value() == if id in old(messageIDLocks)
              then CloseLock(DeleteLock(old(Value()), id), old(messageIDLocks)[id])
                         else old(Value())
      ensures messageIDLocks == old(messageIDLocks) - {id}
      ensures closedLocks == old(closedLocks) + if id in old(messageIDLocks) then multiset{old(messageIDLocks)[id]}
              else multiset{}
    {
      var held := id in messageIDLocks;
      if held {
        var channel := messageIDLocks[id];
        messageIDLocks := messageIDLocks - {id};
        closedLocks := closedLocks + multiset{channel};
      }
    }

    method GetReceiverForNode(id: string, at: Place) returns (channel: Option<ReceiverChannel>)
      ensures channel == ReceiverAt(Value(), id, at)
      ensures channel.Some? <==> id in receivers && receivers[id].at == Some(at)
      ensures channel.Some? ==> channel.value == receivers[id].channel
    {
      if id !in receivers || receivers[id].at != Some(at) { return None; }
      return Some(receivers[id].channel);
    }

    method AddReceiver(id: string, at: Option<Place>, channel: ReceiverChannel)
      modifies this`receivers
      ensures Value() == Sockets.AddReceiver(old(Value()), id, at, channel)
      ensures receivers == old(receivers)[id := ReceiverEntry(at, channel)]
    {
      receivers := receivers[id := ReceiverEntry(at, channel)];
    }

    method RemoveReceiver(id: string)
      modifies this`receivers
      ensures Value() == Sockets.RemoveReceiver(old(Value()), id)
      ensures receivers == old(receivers) - {id}
    {
      receivers := receivers - {id};
    }
  }
}
