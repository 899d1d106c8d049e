/** The receiving half of one channel: the queue of reliable commands that wait for their turn, reassembly of
    fragmented packets, and dispatch in order. */
module ReliableReceiver {
  import opened Integers
  import opened SequenceNumbers
  import opened PeerStates
  import opened Reassembly

  /** The checks on a fragment's own fields. */
  predicate Plausible(p: Piece, maximumPacketSize: nat) {
    && p.count <= MAXIMUM_FRAGMENT_COUNT && p.index < p.count
    && p.total <= maximumPacketSize && p.count <= p.total
    && p.offset < p.total && |p.data| <= p.total - p.offset
  }

  // ----- the queue, with every wire number extended to the unbounded one it stands for

  datatype Entry = Entry(number: nat, body: Body)

  /** received is the last number of the last packet delivered. */
  datatype Receiver = Receiver(received: nat, entries: seq<Entry>, delivered: seq<seq<uint8>>)

  function LastNumber(e: Entry): nat {
    if e.body.count > 0 then e.number + e.body.count - 1 else e.number
  }

  /** The place just behind the last entry that is no further ahead than n. */
  ghost function Place(received: nat, entries: seq<Entry>, n: nat): (k: nat)
    ensures k <= |entries|
  {
    if entries == [] || Distance(received, entries[|entries| - 1].number) <= Distance(received, n) then |entries|
    else Place(received, entries[..|entries| - 1], n)
  }

  ghost predicate Present(v: Receiver, n: nat) {
    var k := Place(v.received, v.entries, n);
    k > 0 && Wire(v.entries[k - 1].number) == Wire(n)
  }

  ghost function Inserted(v: Receiver, e: Entry): Receiver {
    var k := Place(v.received, v.entries, e.number);
    v.(entries := v.entries[..k] + [e] + v.entries[k..])
  }

  lemma InsertedAt(v: Receiver, e: Entry)
    ensures var k := Place(v.received, v.entries, e.number);
            && |Inserted(v, e).entries| == |v.entries| + 1 && Inserted(v, e).entries[k] == e
  {
  }

  /** Complete, and the next on the wire. */
  ghost predicate Due(received: nat, e: Entry) {
    e.body.remaining == 0 && Wire(e.number) == Wire(received + 1)
  }

  /** Delivers the first entry. */
  ghost function Delivered(v: Receiver): Receiver
    requires v.entries != []
  {
    Receiver(LastNumber(v.entries[0]), v.entries[1..], v.delivered + [v.entries[0].body.data])
  }

  /** Delivers the complete packets that come next, up to the first gap. */
  ghost function Dispatched(v: Receiver): Receiver
    decreases |v.entries|
  {
    if v.entries == [] || !Due(v.received, v.entries[0]) then v else Dispatched(Delivered(v))
  }

  // ----- receiving, as a function of the position and the queue; ok is false for the source's -1

  datatype Reception = Reception(receiver: Receiver, ok: bool)

  ghost function Admitted(v: Receiver, n: nat, full: bool, state: PeerState): Outcome {
    if state == DisconnectLater || OutsideWindows(v.received, n) || n == v.received || Present(v, n) then Discarded
    else if full then Refused
    else Stored
  }

  ghost function AfterWhole(v: Receiver, n: nat, data: seq<uint8>, full: bool, state: PeerState): Reception {
    var outcome := Admitted(v, n, full, state);
    if outcome == Stored then Reception(Dispatched(Inserted(v, Entry(n, Whole(data)))), true)
    else Reception(v, outcome == Discarded)
  }

  /** Enters a fragment in the packet queued at place k. */
  ghost function Placed(v: Receiver, k: nat, p: Piece): Receiver
    requires k < |v.entries|
    requires p.index < |v.entries[k].body.have| && p.offset + |p.data| <= |v.entries[k].body.data|
  {
    v.(entries := v.entries[k := v.entries[k].(body := Filled(v.entries[k].body, p))])
  }

  ghost function WithPiece(v: Receiver, k: nat, p: Piece): Receiver
    requires k < |v.entries|
    requires p.index < |v.entries[k].body.have| && p.offset + |p.data| <= |v.entries[k].body.data|
  {
    var u := Placed(v, k, p);
    if !v.entries[k].body.have[p.index] && u.entries[k].body.remaining == 0 then Dispatched(u) else u
  }

  lemma {:induction false} DispatchedKeeps(v: Receiver, k: nat)
    requires k < |v.entries| && v.entries[k].body.remaining > 0
    ensures |Dispatched(v).entries| + k >= |v.entries|
    ensures var k' := |Dispatched(v).entries| + k - |v.entries|;
            k' < |Dispatched(v).entries| && Dispatched(v).entries[k'] == v.entries[k]
    decreases |v.entries|
  {
    if Due(v.received, v.entries[0]) {
      DispatchedKeeps(Delivered(v), k - 1);
    }
  }

  /** Queues a packet of which p is the first fragment to arrive. */
  ghost function WithFirst(v: Receiver, start: nat, p: Piece, memory: seq<uint8>): Receiver
    requires |memory| == p.total && p.index < p.count && p.offset + |p.data| <= p.total
  {
    var k := Place(v.received, v.entries, start);
    var u := Inserted(v, Entry(start, Blank(p.count, memory)));
    DispatchedKeeps(u, k);
    var w := Dispatched(u);
    WithPiece(w, |w.entries| + k - |u.entries|, p)
  }

  /** start is the unbounded form of the first number of the packet. */
  ghost function AfterFragment(v: Receiver, start: nat, p: Piece, memory: seq<uint8>, full: bool, state: PeerState,
                               maximumPacketSize: nat): Reception
    requires |memory| == p.total
  {
    var k := Place(v.received, v.entries, start);
    if |p.data| == 0 || |p.data| > maximumPacketSize then Reception(v, false)
    else if OutsideWindows(v.received, start) then Reception(v, true)
    else if !Plausible(p, maximumPacketSize) then Reception(v, false)
    else if Present(v, start) then
      var b := v.entries[k - 1].body;
      if Fits(p, b) && p.index < |b.have| then Reception(WithPiece(v, k - 1, p), true) else Reception(v, false)
    else if Admitted(v, start, full, state) != Stored then Reception(v, false)
    else Reception(WithFirst(v, start, p, memory), true)
  }

  /** Whether enet_peer_queue_acknowledgement lets an acknowledgement of n out. */
  ghost predicate Acknowledges(received: nat, n: nat) {
    !(WindowOf(received) + FREE_RELIABLE_WINDOWS - 1 <= WindowOf(n) <= WindowOf(received) + FREE_RELIABLE_WINDOWS)
  }

  // ----- the channel as the program keeps it

  datatype IncomingCommand = IncomingCommand(reliableSequenceNumber: uint16, body: Body)

  ghost predicate Represents(number: uint16, commands: seq<IncomingCommand>, dispatched: seq<seq<uint8>>, v: Receiver) {
    && number == Wire(v.received) && |commands| == |v.entries| && dispatched == v.delivered
    && (forall i :: 0 <= i < |commands| ==>
          && commands[i].reliableSequenceNumber == Wire(v.entries[i].number)
          && commands[i].body == v.entries[i].body && BodyOk(commands[i].body))
  }

  /** One turn of the search, for the comparisons the program makes on wire numbers s, q and position c. */
  lemma PlaceTurn(v: Receiver, k: nat, n: nat, c: uint16, s: uint16, q: uint16)
    requires 0 < k <= |v.entries| && Wire(v.received) == c && Wire(n) == s && Wire(v.entries[k - 1].number) == q
    ensures Place(v.received, v.entries[..k], n)
            == if (if s >= c then q >= c && q <= s else q >= c || q <= s) then k else Place(v.received, v.entries[..k - 1], n)
  {
    CompareOnWire(v.received, n, s, v.entries[k - 1].number, c);
    assert v.entries[..k][..k - 1] == v.entries[..k - 1];
  }

  lemma PlaceEnds(v: Receiver, n: nat)
    ensures v.entries[..|v.entries|] == v.entries && Place(v.received, v.entries[..0], n) == 0
    ensures Present(v, n) <==> var k := Place(v.received, v.entries, n); k > 0 && Wire(v.entries[k - 1].number) == Wire(n)
  {
  }

  lemma NextOnWire(e: Entry)
    ensures Wire(LastNumber(e)) == Wrap16(Wire(e.number) + (if e.body.count > 0 then e.body.count - 1 else 0))
  {
  }

  function Packets(commands: seq<IncomingCommand>): seq<seq<uint8>> {
    seq(|commands|, i requires 0 <= i < |commands| => commands[i].body.data)
  }

  /** One turn of the dispatch loop. */
  lemma DispatchTurn(commands: seq<IncomingCommand>, u: Receiver, current: nat, number: uint16)
    requires current < |commands| && number == Wire(u.received) && |u.entries| == |commands| - current
    requires commands[current].reliableSequenceNumber == Wire(u.entries[0].number) && commands[current].body == u.entries[0].body
    ensures var c := commands[current];
            if c.body.remaining > 0 || c.reliableSequenceNumber != Wrap16(number + 1) then Dispatched(u) == u
            else && Dispatched(u) == Dispatched(Delivered(u))
                 && Wire(Delivered(u).received)
                    == Wrap16(c.reliableSequenceNumber + (if c.body.count > 0 then c.body.count - 1 else 0))
    ensures Packets(commands[..current + 1]) == Packets(commands[..current]) + [commands[current].body.data]
  {
    hide Wire, LastNumber;
    NextOnWire(u.entries[0]);
    WireNext(u.received);
  }

  lemma WireNext(n: nat)
    ensures Wire(n + 1) == Wrap16(Wire(n) + 1)
  {
  }

  lemma DispatchEnd(u: Receiver)
    ensures u.entries == [] ==> Dispatched(u) == u
  {
  }

  lemma RepresentsSizes(number: uint16, commands: seq<IncomingCommand>, dispatched: seq<seq<uint8>>, v: Receiver)
    requires Represents(number, commands, dispatched, v)
    ensures |commands| == |v.entries| && number == Wire(v.received)
  {
  }

  lemma RepresentsAt(number: uint16, commands: seq<IncomingCommand>, dispatched: seq<seq<uint8>>, v: Receiver, at: nat)
    requires Represents(number, commands, dispatched, v) && at < |commands|
    ensures commands[at].body == v.entries[at].body && |commands[at].body.have| == commands[at].body.count
  {
  }

  lemma PresentPlace(v: Receiver, n: nat)
    ensures Place(v.received, v.entries, n) <= |v.entries|
    ensures Present(v, n) ==> Place(v.received, v.entries, n) > 0
  {
  }

  lemma InsertedRepresents(number: uint16, commands: seq<IncomingCommand>, dispatched: seq<seq<uint8>>, v: Receiver,
                           c: IncomingCommand, n: nat, k: nat)
    requires Represents(number, commands, dispatched, v) && c.reliableSequenceNumber == Wire(n) && BodyOk(c.body)
    requires k == Place(v.received, v.entries, n)
    ensures Represents(number, commands[..k] + [c] + commands[k..], dispatched, Inserted(v, Entry(n, c.body)))
    ensures |Inserted(v, Entry(n, c.body)).entries| == |v.entries| + 1
  {
  }

  class Channel {
    var incomingReliableSequenceNumber: uint16
    var incomingReliableCommands: seq<IncomingCommand>
    var dispatchedCommands: seq<seq<uint8>>
    ghost var view: Receiver

    ghost predicate Valid()
      reads this
    {
      Represents(incomingReliableSequenceNumber, incomingReliableCommands, dispatchedCommands, view)
    }

    constructor ()
      ensures Valid() && view == Receiver(0, [], [])
    {
      incomingReliableSequenceNumber := 0;
      incomingReliableCommands, dispatchedCommands := [], [];
      view := Receiver(0, [], []);
    }

    /** The search both handlers run from the end of the queue. */
    method FindPlace(number: uint16, ghost n: nat) returns (k: nat, same: bool)
      requires Valid() && number == Wire(n)
      ensures k == Place(view.received, view.entries, n) && same == Present(view, n)
    {
      hide Place, Distance, Wire, Present;
      PlaceEnds(view, n);
      k, same := |incomingReliableCommands|, false;
      while k > 0
        invariant k <= |view.entries|
        invariant Place(view.received, view.entries[..k], n) == Place(view.received, view.entries, n)
      {
        var queued := incomingReliableCommands[k - 1].reliableSequenceNumber;
        PlaceTurn(view, k, n, incomingReliableSequenceNumber, number, queued);
        if number >= incomingReliableSequenceNumber {
          if queued < incomingReliableSequenceNumber {
            k := k - 1;
            continue;
          }
        } else if queued >= incomingReliableSequenceNumber {
          break;
        }
        if queued <= number {
          same := queued == number;
          break;
        }
        k := k - 1;
      }
    }

    /** enet_peer_dispatch_incoming_reliable_commands. */
    method Dispatch()
      requires Valid()
      modifies this
      ensures Valid() && view == Dispatched(old(view))
    {
      hide Dispatched, Wire;
      var current := 0;
      ghost var u := view;
      while current < |incomingReliableCommands|
        invariant current <= |incomingReliableCommands|
        invariant incomingReliableCommands == old(incomingReliableCommands) && dispatchedCommands == old(dispatchedCommands)
        invariant view == old(view) && Dispatched(u) == Dispatched(view)
        invariant incomingReliableSequenceNumber == Wire(u.received) && u.entries == view.entries[current..]
        invariant u.delivered == dispatchedCommands + Packets(incomingReliableCommands[..current])
      {
        var incomingCommand := incomingReliableCommands[current];
        DispatchTurn(incomingReliableCommands, u, current, incomingReliableSequenceNumber);
        if incomingCommand.body.remaining > 0
           || incomingCommand.reliableSequenceNumber != Wrap16(incomingReliableSequenceNumber + 1) {
          break;
        }
        incomingReliableSequenceNumber := incomingCommand.reliableSequenceNumber;
        if incomingCommand.body.count > 0 {
          incomingReliableSequenceNumber := Wrap16(incomingReliableSequenceNumber + incomingCommand.body.count - 1);
        }
        u := Delivered(u);
        current := current + 1;
      }
      DispatchEnd(u);
      view := u;
      if current == 0 { return; }
      dispatchedCommands := dispatchedCommands + Packets(incomingReliableCommands[..current]);
      incomingReliableCommands := incomingReliableCommands[current..];
    }

    /** The part of enet_peer_queue_incoming_command for reliable commands. at is the new command's place in the
        queue, unless it was dispatched at once. */
    method QueueIncoming(number: uint16, body: Body, full: bool, state: PeerState, ghost n: nat) returns (outcome: Outcome, at: int)
      requires Valid() && BodyOk(body) && n == Unwire(view.received, number)
      modifies this
      ensures Valid()
      ensures outcome == Admitted(old(view), n, full, state)
      ensures view == if outcome == Stored then Dispatched(Inserted(old(view), Entry(n, body))) else old(view)
      ensures outcome == Stored ==> at == |view.entries| + Place(old(view).received, old(view).entries, n) - |old(view).entries| - 1
    {
      hide Dispatched, Place, Distance, Wire, Unwire, Inserted, Represents, OutsideWindows, BodyOk;
      at := -1;
      WindowTest(view.received, number, n);
      RepresentsSizes(incomingReliableSequenceNumber, incomingReliableCommands, dispatchedCommands, view);
      if state == DisconnectLater { return Discarded, at; }
      var reliableWindow := number / RELIABLE_WINDOW_SIZE;
      var currentWindow := incomingReliableSequenceNumber / RELIABLE_WINDOW_SIZE;
      if number < incomingReliableSequenceNumber {
        reliableWindow := reliableWindow + RELIABLE_WINDOWS;
      }
      if reliableWindow < currentWindow || reliableWindow >= currentWindow + FREE_RELIABLE_WINDOWS - 1 {
        return Discarded, at;
      }
      if number == incomingReliableSequenceNumber {
        return Discarded, at;
      }
      var k, same := FindPlace(number, n);
      if same { return Discarded, at; }
      if full { return Refused, at; }
      var command := IncomingCommand(number, body);
      InsertedRepresents(incomingReliableSequenceNumber, incomingReliableCommands, dispatchedCommands, view, command, n, k);
      incomingReliableCommands := incomingReliableCommands[..k] + [command] + incomingReliableCommands[k..];
      view := Inserted(view, Entry(n, body));
      var length := |incomingReliableCommands|;
      RepresentsSizes(incomingReliableSequenceNumber, incomingReliableCommands, dispatchedCommands, view);
      Dispatch();
      RepresentsSizes(incomingReliableSequenceNumber, incomingReliableCommands, dispatchedCommands, view);
      at := |incomingReliableCommands| + k - length;
      outcome := Stored;
    }

    /** enet_protocol_handle_send_reliable, behind the length checks on the datagram. */
    method HandleSendReliable(number: uint16, data: seq<uint8>, full: bool, state: PeerState, maximumPacketSize: nat, ghost n: nat)
      returns (ok: bool)
      requires Valid() && n == Unwire(view.received, number)
      modifies this
      ensures Valid()
      ensures !IsConnected(state) || |data| > maximumPacketSize ==> !ok && view == old(view)
      ensures IsConnected(state) && |data| <= maximumPacketSize ==>
                Reception(view, ok) == AfterWhole(old(view), n, data, full, state)
    {
      if (state != Connected && state != DisconnectLater) || |data| > maximumPacketSize { return false; }
      var outcome, _ := QueueIncoming(number, Whole(data), full, state, n);
      ok := outcome != Refused;
    }

    /** enet_protocol_handle_send_fragment. memory is whatever the new packet's buffer holds at first. */
    method HandleSendFragment(startSequenceNumber: uint16, p: Piece, memory: seq<uint8>, full: bool, state: PeerState,
                              maximumPacketSize: nat, ghost start: nat)
      returns (ok: bool)
      requires Valid() && start == Unwire(view.received, startSequenceNumber) && |memory| == p.total
      modifies this
      ensures Valid()
      ensures !IsConnected(state) ==> !ok && view == old(view)
      ensures IsConnected(state) ==> Reception(view, ok) == AfterFragment(old(view), start, p, memory, full, state, maximumPacketSize)
    {
      hide Dispatched, Place, Distance, Wire, Unwire, Inserted, OutsideWindows, BodyOk, WithPiece, WithFirst, Filled, Blank,
           Present, Represents;
      if state != Connected && state != DisconnectLater { return false; }
      if |p.data| <= 0 || |p.data| > maximumPacketSize { return false; }
      WindowTest(view.received, startSequenceNumber, start);
      PresentPlace(view, start);
      RepresentsSizes(incomingReliableSequenceNumber, incomingReliableCommands, dispatchedCommands, view);
      var startWindow := startSequenceNumber / RELIABLE_WINDOW_SIZE;
      var currentWindow := incomingReliableSequenceNumber / RELIABLE_WINDOW_SIZE;
      if startSequenceNumber < incomingReliableSequenceNumber {
        startWindow := startWindow + RELIABLE_WINDOWS;
      }
      if startWindow < currentWindow || startWindow >= currentWindow + FREE_RELIABLE_WINDOWS - 1 {
        return true;
      }
      if p.count > MAXIMUM_FRAGMENT_COUNT || p.index >= p.count || p.total > maximumPacketSize || p.total < p.count
         || p.offset >= p.total || |p.data| > p.total - p.offset {
        return false;
      }
      var place, found := FindPlace(startSequenceNumber, start);
      if found {
        RepresentsAt(incomingReliableSequenceNumber, incomingReliableCommands, dispatchedCommands, view, place - 1);
        var startCommand := incomingReliableCommands[place - 1].body;
        if !startCommand.fragment || p.total != |startCommand.data| || p.count != startCommand.count {
          return false;
        }
        AddPiece(place - 1, p);
        ok := true;
      } else {
        ok := QueueFirst(startSequenceNumber, p, memory, full, state, start);
      }
    }

    /** The branch for the first fragment of a packet to arrive. */
    method QueueFirst(startSequenceNumber: uint16, p: Piece, memory: seq<uint8>, full: bool, state: PeerState, ghost start: nat)
      returns (ok: bool)
      requires Valid() && start == Unwire(view.received, startSequenceNumber) && |memory| == p.total
      requires p.index < p.count && p.offset + |p.data| <= p.total
      modifies this
      ensures Valid()
      ensures ok == (Admitted(old(view), start, full, state) == Stored)
      ensures view == if ok then WithFirst(old(view), start, p, memory) else old(view)
    {
      hide Dispatched, Place, Unwire, Inserted, BodyOk, WithPiece, Blank, Admitted, Represents;
      BlankOk(p.count, memory);
      ghost var e := Entry(start, Blank(p.count, memory));
      var outcome, at := QueueIncoming(startSequenceNumber, Blank(p.count, memory), full, state, start);
      if outcome != Stored { return false; }
      InsertedAt(old(view), e);
      DispatchedKeeps(Inserted(old(view), e), Place(old(view).received, old(view).entries, start));
      AddPiece(at, p);
      ok := true;
    }

    /** Sets the fragment's bit and copies its bytes, unless it is a duplicate; a complete packet may be dispatched. */
    method AddPiece(at: nat, p: Piece)
      requires Valid() && at < |view.entries| && p.index < |view.entries[at].body.have|
      requires p.offset + |p.data| <= |view.entries[at].body.data|
      modifies this
      ensures Valid() && view == WithPiece(old(view), at, p)
    {
      var startCommand := incomingReliableCommands[at].body;
      FilledOk(startCommand, p);
      if !startCommand.have[p.index] {
        var filled := startCommand.(
          remaining := startCommand.remaining - 1,
          have := startCommand.have[p.index := true],
          data := startCommand.data[..p.offset] + p.data + startCommand.data[p.offset + |p.data|..]);
        incomingReliableCommands := incomingReliableCommands[at := incomingReliableCommands[at].(body := filled)];
        view := Placed(view, at, p);
        if filled.remaining <= 0 {
          Dispatch();
        }
      }
    }

    /** enet_peer_queue_acknowledgement: whether n is acknowledged. */
    method QueueAcknowledgement(number: uint16, ghost n: nat) returns (queued: bool)
      requires Valid() && n == Unwire(view.received, number)
      ensures queued == Acknowledges(view.received, n)
    {
      RelativeWindowExact(view.received, number);
      var reliableWindow := number / RELIABLE_WINDOW_SIZE;
      var currentWindow := incomingReliableSequenceNumber / RELIABLE_WINDOW_SIZE;
      if number < incomingReliableSequenceNumber {
        reliableWindow := reliableWindow + RELIABLE_WINDOWS;
      }
      queued := !(reliableWindow >= currentWindow + FREE_RELIABLE_WINDOWS - 1
                  && reliableWindow <= currentWindow + FREE_RELIABLE_WINDOWS);
    }
  }
}
