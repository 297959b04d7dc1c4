/** Driving one connection from its open chain to its end: reads until one fails, and the close that ends it. */
module Connections {
  import opened Wrappers
  import opened Sockets
  import opened SocketObjects

  const GOING_AWAY := 1001

  /** How a read can fail: with a close frame of the peer, because the socket was cancelled, because the stream
      ended, or in a way the socket does not recognise. */
  datatype ReadError = PeerClosed(status: int) | ReadCancelled | StreamEnded | Unrecognised

  datatype Read = Message | Failed(error: ReadError)

  /** One turn of the read loop: the calls of Close that other goroutines made before the read returned, and the
      read. */
  datatype Turn = Turn(closings: seq<CloseRecord>, read: Read)

  /** What the reader closes the socket with. */
  function ClosingFor(e: ReadError): Option<CloseRecord> {
    match e
    case PeerClosed(status) => Some(CloseRecord(status, "", ClientCloseSource))
    case ReadCancelled => Some(CloseRecord(GOING_AWAY, "", ServerCloseSource))
    case StreamEnded => Some(CloseRecord(GOING_AWAY, "", ClientCloseSource))
    case Unrecognised => None
  }

  datatype End = StillReading | Ended(status: int, reason: string) | ReaderPanicked

  /** All calls of Close up to the one that ends reading, in their order. */
  function Calls(turns: seq<Turn>): seq<CloseRecord> {
    if |turns| == 0 then []
    else
      turns[0].closings +
      match turns[0].read
      case Message => Calls(turns[1..])
      case Failed(e) => if ClosingFor(e).Some? then [ClosingFor(e).value] else []
  }

  /** How reading ends: with the first failed read. */
  function Stops(turns: seq<Turn>): Option<ReadError> {
    if |turns| == 0 then None
    else match turns[0].read case Message => Stops(turns[1..]) case Failed(e) => Some(e)
  }

  function CloseAll(s: Socket, records: seq<CloseRecord>): Socket
    decreases |records|
  {
    if |records| == 0 then s else CloseAll(Close(s, records[0]), records[1..])
  }

  lemma {:induction false} CloseAllAppend(s: Socket, a: seq<CloseRecord>, b: seq<CloseRecord>)
    ensures CloseAll(s, a + b) == CloseAll(CloseAll(s, a), b)
    decreases |a|
  {
    if |a| == 0 {
      assert a + b == b;
    } else {
      assert (a + b)[1..] == a[1..] + b;
      CloseAllAppend(Close(s, a[0]), a[1..], b);
    }
  }

  lemma {:induction false} ClosedForGood(s: Socket, records: seq<CloseRecord>)
    requires s.stage != NotClosed
    ensures CloseAll(s, records) == s
    decreases |records|
  {
    if |records| > 0 { ClosedForGood(s, records[1..]); }
  }

  /** Of any calls of Close the first one counts: it alone decides what the socket becomes. */
  lemma FirstCloseCounts(s: Socket, records: seq<CloseRecord>)
    requires s.stage == NotClosed && |records| > 0
    ensures CloseAll(s, records) == Close(s, records[0]) && CloseAll(s, records).record == Some(records[0])
  {
    ClosedForGood(Close(s, records[0]), records[1..]);
  }

  method PerformAll(socket: SocketObject, records: seq<CloseRecord>)
    requires socket.Valid()
    modifies socket
    ensures socket.Valid() && socket.Value() == CloseAll(old(socket.Value()), records)
  {
    for i := 0 to |records|
      invariant socket.Valid() && CloseAll(old(socket.Value()), records) == CloseAll(socket.Value(), records[i..])
    {
      assert records[i..][1..] == records[i + 1..];
      socket.Close(records[i].status, records[i].reason, records[i].source);
    }
  }

  /** What a socket has recorded of its close. */
  predicate ClosedWith(socket: SocketObject, status: int, reason: string, source: CloseSource)
    reads socket
  {
    socket.closed && socket.closeStatus == status && socket.closeReason == reason && socket.closeStatusSource == source
  }

  /** Handles one read: true to go on, false once the reader has closed the socket. An open socket is closed with the
      peer's own status if the peer sent a close frame; as going away by the server if it was cancelled, and by the
      client if the stream ended. */
  method HandleNextMessage(socket: SocketObject, read: Read) returns (more: bool, panicked: bool)
    requires socket.Valid()
    modifies socket
    ensures socket.Valid() && more == read.Message? && panicked == (read == Failed(Unrecognised))
    ensures socket.Value() == if read.Failed? && ClosingFor(read.error).Some?
                              then Close(old(socket.Value()), ClosingFor(read.error).value)
                              else old(socket.Value())
    ensures !old(socket.closed) && read.Failed? ==>
              match read.error
              case PeerClosed(status) => ClosedWith(socket, status, "", ClientCloseSource)
              case ReadCancelled => ClosedWith(socket, 1001, "", ServerCloseSource)
              case StreamEnded => ClosedWith(socket, 1001, "", ClientCloseSource)
              case Unrecognised => !socket.closed
    ensures read.Message? ==> socket.closed == old(socket.closed)
    ensures old(socket.closed) ==>
              ClosedWith(socket, old(socket.closeStatus), old(socket.closeReason), old(socket.closeStatusSource))
  {
    more, panicked := false, false;
    match read {
      case Message => more := true;
      case Failed(PeerClosed(status)) => socket.Close(status, "", ClientCloseSource);
      case Failed(ReadCancelled) => socket.Close(GOING_AWAY, "", ServerCloseSource);
      case Failed(StreamEnded) => socket.Close(GOING_AWAY, "", ClientCloseSource);
      case Failed(Unrecognised) => panicked := true;
    }
  }

  /** A connection whose reading ends in a recognised way ends with the status and the reason of the first call of Close
      there was, whoever made it; there is always one, since the reader itself makes one. */
  lemma EndsWithFirstClose(turns: seq<Turn>, late: seq<CloseRecord>)
    requires Stops(turns).Some? && !Stops(turns).value.Unrecognised?
    ensures |Calls(turns)| > 0 && CloseAll(FRESH, Calls(turns) + late).record == Some(Calls(turns)[0])
  {
    ReaderCloses(turns);
    FirstCloseCounts(FRESH, Calls(turns) + late);
    assert (Calls(turns) + late)[0] == Calls(turns)[0];
  }

  lemma {:induction false} ReaderCloses(turns: seq<Turn>)
    requires Stops(turns).Some? && !Stops(turns).value.Unrecognised?
    ensures |Calls(turns)| > 0
    decreases |turns|
  {
    if turns[0].read.Message? { ReaderCloses(turns[1..]); }
  }

  /** Reads until a read fails, runs the close chain, and ends the connection with what the socket recorded.
      `late` are the calls of Close made while the close chain runs. */
  method HandleConnection(socket: SocketObject, turns: seq<Turn>, late: seq<CloseRecord>) returns (end: End)
    requires socket.Valid()
    modifies socket
    ensures socket.Valid()
    ensures match Stops(turns)
            case None => end == StillReading && socket.Value() == CloseAll(old(socket.Value()), Calls(turns))
            case Some(e) =>
              if e.Unrecognised? then
                end == ReaderPanicked && socket.Value() == CloseAll(old(socket.Value()), Calls(turns))
              else
                && socket.Value() == CloseAll(old(socket.Value()), Calls(turns) + late)
                && socket.closed && end == Ended(socket.closeStatus, socket.closeReason)
    ensures old(socket.Value()) == FRESH && end.Ended? ==>
              |Calls(turns)| > 0 && end == Ended(Calls(turns)[0].status, Calls(turns)[0].reason)
    ensures old(socket.Value()) == FRESH && Undisturbed(turns) && Stops(turns).Some? ==>
              match Stops(turns).value
              case PeerClosed(status) => end == Ended(status, "") && socket.closeStatusSource == ClientCloseSource
              case ReadCancelled => end == Ended(1001, "") && socket.closeStatusSource == ServerCloseSource
              case StreamEnded => end == Ended(1001, "") && socket.closeStatusSource == ClientCloseSource
              case Unrecognised => end == ReaderPanicked && !socket.closed
  {
    if Undisturbed(turns) { UndisturbedCalls(turns); }
    var i := 0;
    while i < |turns|
      invariant i <= |turns| && socket.Valid() && Stops(turns) == Stops(turns[i..])
      invariant CloseAll(old(socket.Value()), Calls(turns)) == CloseAll(socket.Value(), Calls(turns[i..]))
    {
      ghost var before := socket.Value();
      assert turns[i..][1..] == turns[i + 1..];
      TurnCalls(before, turns[i..]);
      PerformAll(socket, turns[i].closings);
      var more, panicked := HandleNextMessage(socket, turns[i].read);
      if panicked { return ReaderPanicked; }
      if !more {
        CloseAllAppend(old(socket.Value()), Calls(turns), late);
        ClosedForGood(socket.Value(), late);
        PerformAll(socket, late);
        if old(socket.Value()) == FRESH { EndsWithFirstClose(turns, late); }
        return Ended(socket.closeStatus, socket.closeReason);
      }
      i := i + 1;
    }
    end := StillReading;
  }

  /** Nobody but the reader closes the socket before reading ends. */
  predicate Undisturbed(turns: seq<Turn>) {
    forall t :: t in turns ==> t.closings == []
  }

  /** Then the reader's call is the only one until the close chain runs. */
  lemma {:induction false} UndisturbedCalls(turns: seq<Turn>)
    requires Undisturbed(turns)
    ensures match Stops(turns)
            case None => Calls(turns) == []
            case Some(PeerClosed(status)) => Calls(turns) == [CloseRecord(status, "", ClientCloseSource)]
            case Some(ReadCancelled) => Calls(turns) == [CloseRecord(1001, "", ServerCloseSource)]
            case Some(StreamEnded) => Calls(turns) == [CloseRecord(1001, "", ClientCloseSource)]
            case Some(Unrecognised) => Calls(turns) == []
    decreases |turns|
  {
    if |turns| > 0 {
      assert turns[0] in turns && forall t :: t in turns[1..] ==> t in turns;
      UndisturbedCalls(turns[1..]);
    }
  }

  /** A call made before the reads that follow counts before theirs: the first one made is the first of all. */
  lemma {:induction false} EarliestCallIsFirst(turns: seq<Turn>, i: nat)
    requires i < |turns| && |turns[i].closings| > 0
    requires forall j :: 0 <= j < i ==> turns[j].closings == [] && turns[j].read.Message?
    ensures |Calls(turns)| > 0 && Calls(turns)[0] == turns[i].closings[0]
    decreases i
  {
    if i > 0 {
      forall j | 0 <= j < i - 1 ensures turns[1..][j].closings == [] && turns[1..][j].read.Message? {
        assert turns[1..][j] == turns[j + 1];
      }
      EarliestCallIsFirst(turns[1..], i - 1);
    }
  }

  /** The reader's call is the last of all that were made while it read. */
  lemma {:induction false} ReaderClosesLast(turns: seq<Turn>)
    requires Stops(turns).Some? && !Stops(turns).value.Unrecognised?
    ensures |Calls(turns)| > 0
    ensures Calls(turns)[|Calls(turns)| - 1] ==
            match Stops(turns).value
            case PeerClosed(status) => CloseRecord(status, "", ClientCloseSource)
            case ReadCancelled => CloseRecord(1001, "", ServerCloseSource)
            case _ => CloseRecord(1001, "", ClientCloseSource)
    decreases |turns|
  {
    if turns[0].read.Message? { ReaderClosesLast(turns[1..]); }
  }

  /** The calls of a turn come before those of the turns after it. */
  lemma TurnCalls(s: Socket, turns: seq<Turn>)
    requires |turns| > 0
    ensures var closed := CloseAll(s, turns[0].closings);
            CloseAll(s, Calls(turns)) ==
            match turns[0].read
            case Message => CloseAll(closed, Calls(turns[1..]))
            case Failed(e) => if ClosingFor(e).Some? then Close(closed, ClosingFor(e).value) else closed
  {
    match turns[0].read {
      case Message => CloseAllAppend(s, turns[0].closings, Calls(turns[1..]));
      case Failed(e) =>
        if ClosingFor(e).Some? {
          CloseAllAppend(s, turns[0].closings, [ClosingFor(e).value]);
          assert [ClosingFor(e).value][1..] == [];
        } else {
          assert turns[0].closings + [] == turns[0].closings;
        }
    }
  }
}
