/** The queue of unreliable and unsequenced commands of one channel as the program keeps it, in 16-bit numbers. */
module UnreliableQueues {
  import opened Integers
  import opened SequenceNumbers
  import opened PeerStates
  import opened Reassembly
  import opened UnreliableDispatch

  /** id stands for the address of the command. */
  datatype Command = Command(id: nat, unsequenced: bool, number: uint16, unreliable: uint16, body: Body)

  ghost function OnWire(c: Item): Command {
    Command(c.id, c.unsequenced, Wire(c.number), c.unreliable, c.body)
  }

  ghost predicate Same(commands: seq<Command>, q: seq<Item>) {
    |commands| == |q| && forall i :: 0 <= i < |q| ==> commands[i] == OnWire(q[i])
  }

  lemma SameSize(commands: seq<Command>, q: seq<Item>)
    requires Same(commands, q)
    ensures |commands| == |q|
  {
  }

  lemma SameAt(commands: seq<Command>, q: seq<Item>, k: nat)
    requires Same(commands, q) && k < |q|
    ensures |commands| == |q| && commands[k].id == q[k].id && commands[k].unsequenced == q[k].unsequenced
    ensures commands[k].number == Wire(q[k].number) && commands[k].unreliable == q[k].unreliable && commands[k].body == q[k].body
  {
  }

  lemma SameRemoved(commands: seq<Command>, q: seq<Item>, k: nat)
    requires Same(commands, q) && k < |q|
    ensures |commands| == |q| && Same(commands[..k] + commands[k + 1..], q[..k] + q[k + 1..])
  {
  }

  /** Every command has an address of its own, and a bitmap that belongs to its count. */
  ghost predicate Sound(v: Unreliable) {
    && (forall i :: 0 <= i < |v.queue| ==> v.queue[i].id < v.next && BodyOk(v.queue[i].body))
    && (forall i, j :: 0 <= i < j < |v.queue| ==> v.queue[i].id != v.queue[j].id)
  }

  lemma SpotEnds(received: nat, q: seq<Item>, c: Item)
    ensures q[..|q|] == q && Spot(received, q[..0], c) == 0
  {
  }

  /** One turn of the search, in the comparisons the program makes. */
  lemma SpotTurn(received: nat, q: seq<Item>, k: nat, c: Item)
    requires 0 < k <= |q|
    ensures var r, s, e := Wire(received), Wire(c.number), Wire(q[k - 1].number);
            && Spot(received, q[..k], c)
               == (if (if s >= r then e < r || e > s else e < r && e > s) || (e == s && q[k - 1].unreliable > c.unreliable)
                   then Spot(received, q[..k - 1], c) else k)
  {
    CompareOnWire(received, c.number, Wire(c.number), q[k - 1].number, Wire(received));
    assert q[..k][..k - 1] == q[..k - 1];
  }

  lemma DuplicateAt(v: Unreliable, c: Item, k: nat)
    requires k == Spot(v.received, v.queue, c)
    ensures Duplicate(v, c) <==> k > 0 && Wire(v.queue[k - 1].number) == Wire(c.number) && v.queue[k - 1].unreliable == c.unreliable
  {
  }

  // ----- a dispatch keeps the addresses apart

  /** Each place of x is one of q, in the order of q. */
  ghost predicate Thinned(x: seq<Item>, q: seq<Item>) {
    && (forall i :: 0 <= i < |x| ==> x[i] in q)
    && (Distinct(q) ==> Distinct(x))
  }

  ghost predicate Distinct(q: seq<Item>) {
    forall i, j :: 0 <= i < j < |q| ==> q[i].id != q[j].id
  }

  lemma {:induction false} PassedThinned(received: nat, q: seq<Item>)
    ensures Thinned(Passed(received, q), q)
    decreases |q|
  {
    if q != [] {
      PassedThinned(received, q[..|q| - 1]);
    }
  }

  lemma {:induction false} ExceptedThinned(q: seq<Item>, queued: int)
    ensures Thinned(Excepted(q, queued), q)
    decreases |q|
  {
    if q != [] {
      ExceptedThinned(q[..|q| - 1], queued);
    }
  }

  lemma JoinedThinned(x: seq<Item>, p: seq<Item>, y: seq<Item>, q: seq<Item>)
    requires Thinned(x, p) && Thinned(y, q)
    ensures Thinned(x + y, p + q)
  {
    if Distinct(p + q) {
      forall i, j | 0 <= i < |p| && 0 <= j < |q|
        ensures p[i].id != q[j].id
      {
        assert (p + q)[i].id != (p + q)[|p| + j].id;
      }
      assert Distinct(p) by {
        forall i, j | 0 <= i < j < |p|
          ensures p[i].id != p[j].id
        {
          assert (p + q)[i].id != (p + q)[j].id;
        }
      }
      assert Distinct(q) by {
        forall i, j | 0 <= i < j < |q|
          ensures q[i].id != q[j].id
        {
          assert (p + q)[|p| + i].id != (p + q)[|p| + j].id;
        }
      }
    }
  }

  lemma ThinnedTwice(x: seq<Item>, y: seq<Item>, q: seq<Item>)
    requires Thinned(x, y) && Thinned(y, q)
    ensures Thinned(x, q)
  {
  }

  /** Nothing new is queued by a dispatch. */
  lemma DispatchThins(v: Unreliable, queued: int)
    ensures Thinned(Dispatched(v, queued).queue, v.queue) && Dispatched(v, queued).next == v.next
  {
    hide Reached, Passed, Excepted, Dropped, Thinned, Position, Delivered;
    var n := Reached(v.received, v.queue);
    var p := v.queue[..n];
    var passed, d := Passed(v.received, p), Dropped(v.received, p);
    OvertakenBound(v.received, p);
    PassedThinned(v.received, p);
    ExceptedThinned(passed[..d], queued);
    SameThinned(passed[d..]);
    SameThinned(v.queue[n..]);
    JoinedThinned(Excepted(passed[..d], queued), passed[..d], passed[d..], passed[d..]);
    assert passed[..d] + passed[d..] == passed;
    ThinnedTwice(Excepted(passed[..d], queued) + passed[d..], passed, p);
    JoinedThinned(Excepted(passed[..d], queued) + passed[d..], p, v.queue[n..], v.queue[n..]);
    assert p + v.queue[n..] == v.queue;
  }

  lemma SameThinned(q: seq<Item>)
    ensures Thinned(q, q)
  {
  }

  lemma DispatchSound(v: Unreliable, queued: int)
    requires Sound(v)
    ensures Sound(Dispatched(v, queued))
  {
    hide Dispatched, BodyOk;
    DispatchThins(v, queued);
    var w := Dispatched(v, queued);
    forall i | 0 <= i < |w.queue|
      ensures w.queue[i].id < w.next && BodyOk(w.queue[i].body)
    {
      assert w.queue[i] in v.queue;
    }
  }

  lemma EnteredSound(v: Unreliable, k: nat, c: Item)
    requires Sound(v) && k <= |v.queue| && c.id == v.next && BodyOk(c.body)
    ensures Sound(Entered(v, k, c))
  {
    hide BodyOk;
  }

  lemma PlacedSound(v: Unreliable, k: nat, p: Piece)
    requires Sound(v) && k < |v.queue| && p.index < |v.queue[k].body.have| && p.offset + |p.data| <= |v.queue[k].body.data|
    ensures Sound(Placed(v, k, p))
  {
    hide BodyOk, Filled;
    BodyAt(v, k);
    FilledOk(v.queue[k].body, p);
  }

  lemma BodyAt(v: Unreliable, k: nat)
    requires Sound(v) && k < |v.queue|
    ensures BodyOk(v.queue[k].body) && |v.queue[k].body.have| == v.queue[k].body.count
  {
  }

  /** The place of the command at an address. */
  function Find(commands: seq<Command>, id: nat): (k: nat)
    ensures k <= |commands|
    ensures k < |commands| ==> commands[k].id == id
    ensures forall i :: 0 <= i < k ==> commands[i].id != id
  {
    if commands == [] || commands[0].id == id then 0 else 1 + Find(commands[1..], id)
  }

  lemma FindPlace(v: Unreliable, commands: seq<Command>, c: Item)
    requires Sound(v) && Same(commands, v.queue) && c in v.queue
    ensures Find(commands, c.id) == PlaceOf(v.queue, c) < |commands|
  {
    hide BodyOk;
    var k, m := Find(commands, c.id), PlaceOf(v.queue, c);
    assert commands[m].id == c.id;
    assert v.queue[k].id == c.id;
  }

  class UnreliableQueue {
    var incomingReliableSequenceNumber: uint16
    var incomingUnreliableSequenceNumber: uint16
    var incomingUnreliableCommands: seq<Command>
    var dispatchedCommands: seq<Command>
    var allocations: nat
    ghost var view: Unreliable

    /** The program's fields are the wire form of the view. */
    ghost predicate Mirrors()
      reads this
    {
      && incomingReliableSequenceNumber == Wire(view.received) && incomingUnreliableSequenceNumber == view.position
      && Same(incomingUnreliableCommands, view.queue) && Same(dispatchedCommands, view.dispatched) && allocations == view.next
    }

    ghost predicate Valid()
      reads this
    {
      Mirrors() && Sound(view)
    }

    constructor ()
      ensures Valid() && view == Unreliable(0, 0, [], [], 0)
    {
      incomingReliableSequenceNumber, incomingUnreliableSequenceNumber := 0, 0;
      incomingUnreliableCommands, dispatchedCommands, allocations := [], [], 0;
      view := Unreliable(0, 0, [], [], 0);
    }

    /** enet_peer_dispatch_incoming_unreliable_commands. */
    method Dispatch(queued: int)
      requires Mirrors()
      modifies this`incomingUnreliableSequenceNumber, this`incomingUnreliableCommands, this`dispatchedCommands, this`view
      ensures Mirrors() && view == Dispatched(old(view), queued)
    {
      hide Delivered, Passed, Position, Overtaken, Reached, Wire, RelativeWindow, Scanned, Dispatched, Excepted, Same;
      SameSize(incomingUnreliableCommands, view.queue);
      ghost var received, q, u, before, k := view.received, view.queue, view.position, view.dispatched, 0;
      var droppedCommand, startCommand, currentCommand := 0, 0, 0;
      ScanStart(received, q, u, before, view.next);
      while currentCommand < |incomingUnreliableCommands|
        invariant Mirrors() && view.received == received && view.next == old(view.next)
        invariant |incomingUnreliableCommands| == |view.queue|
        invariant Scanned(received, q, u, before, k, view, startCommand, currentCommand, droppedCommand)
        invariant k <= |q| && startCommand <= currentCommand <= |view.queue|
        invariant |q| - k == |view.queue| - currentCommand
        invariant currentCommand < |view.queue| ==> view.queue[currentCommand] == q[k]
        invariant forall i :: 0 <= i < k ==> !Waiting(received, q[i])
        decreases |q| - k
      {
        var incomingCommand := incomingUnreliableCommands[currentCommand];
        ghost var v := view;
        SameAt(incomingUnreliableCommands, view.queue, currentCommand);
        if incomingCommand.unsequenced {
          ScanDeliverable(received, q, u, before, k, v, startCommand, currentCommand, droppedCommand);
          k, currentCommand := k + 1, currentCommand + 1;
          continue;
        }
        if incomingCommand.number == incomingReliableSequenceNumber {
          if incomingCommand.body.remaining <= 0 {
            ScanDeliverable(received, q, u, before, k, v, startCommand, currentCommand, droppedCommand);
            incomingUnreliableSequenceNumber := incomingCommand.unreliable;
            view := view.(position := incomingCommand.unreliable);
            k, currentCommand := k + 1, currentCommand + 1;
            continue;
          }
          ScanStop(received, q, u, before, k, v, startCommand, currentCommand, droppedCommand);
          MovedNothing(v, startCommand);
          if startCommand != currentCommand {
            MoveToDispatched(startCommand, currentCommand);
            currentCommand := startCommand;
            droppedCommand := currentCommand;
          } else if droppedCommand != currentCommand {
            droppedCommand := currentCommand - 1;
          }
        } else {
          var relativeWindow := RelativeWindow(incomingReliableSequenceNumber, incomingCommand.number);
          if 0 <= relativeWindow < FREE_RELIABLE_WINDOWS - 1 { break; }
          ScanStop(received, q, u, before, k, v, startCommand, currentCommand, droppedCommand);
          MovedNothing(v, startCommand);
          if startCommand != currentCommand {
            MoveToDispatched(startCommand, currentCommand);
            currentCommand := startCommand;
          }
          droppedCommand := currentCommand + 1;
        }
        k, currentCommand := k + 1, currentCommand + 1;
        startCommand := currentCommand;
      }
      ReachedPlus(received, q, k);
      ScanEnd(received, q, u, before, k, view, startCommand, currentCommand, droppedCommand, queued);
      MovedNothing(view, startCommand);
      if startCommand != currentCommand {
        MoveToDispatched(startCommand, currentCommand);
        currentCommand := startCommand;
        droppedCommand := currentCommand;
      }
      RemoveIncoming(droppedCommand, queued);
    }

    /** enet_list_move to the end of the dispatched commands. */
    method MoveToDispatched(startCommand: nat, currentCommand: nat)
      requires Mirrors() && startCommand <= currentCommand <= |view.queue|
      modifies this`incomingUnreliableCommands, this`dispatchedCommands, this`view
      ensures Mirrors() && view == Moved(old(view), startCommand, currentCommand)
      ensures |incomingUnreliableCommands| == |view.queue|
    {
      hide Wire;
      dispatchedCommands := dispatchedCommands + incomingUnreliableCommands[startCommand..currentCommand];
      incomingUnreliableCommands := incomingUnreliableCommands[..startCommand] + incomingUnreliableCommands[currentCommand..];
      view := Moved(view, startCommand, currentCommand);
    }

    /** enet_peer_remove_incoming_commands. */
    method RemoveIncoming(endCommand: nat, excludeCommand: int)
      requires Mirrors() && endCommand <= |view.queue|
      modifies this`incomingUnreliableCommands, this`view
      ensures Mirrors()
      ensures view == old(view).(queue := Excepted(old(view).queue[..endCommand], excludeCommand) + old(view).queue[endCommand..])
    {
      hide Excepted, Wire, Same;
      SameSize(incomingUnreliableCommands, view.queue);
      ghost var q := view.queue;
      var currentCommand, removed := 0, 0;
      ExceptedStart(excludeCommand);
      ghost var kept: seq<Item> := [];
      while removed + currentCommand < endCommand
        invariant removed + currentCommand <= endCommand <= |q| && currentCommand == |kept|
        invariant kept == Excepted(q[..removed + currentCommand], excludeCommand)
        invariant Mirrors() && view == old(view).(queue := kept + q[removed + currentCommand..])
        invariant |incomingUnreliableCommands| == |view.queue|
      {
        ghost var k: nat := removed + currentCommand;
        ExceptedStep(q, k, excludeCommand);
        TakeHead(kept, q, k);
        SameAt(incomingUnreliableCommands, view.queue, currentCommand);
        SameRemoved(incomingUnreliableCommands, view.queue, currentCommand);
        if incomingUnreliableCommands[currentCommand].id == excludeCommand {
          currentCommand := currentCommand + 1;
          kept := kept + [q[k]];
        } else {
          incomingUnreliableCommands := incomingUnreliableCommands[..currentCommand] + incomingUnreliableCommands[currentCommand + 1..];
          view := view.(queue := kept + q[k + 1..]);
          removed := removed + 1;
        }
      }
    }

    /** The search from the end of the queue, for the command that c stands for. */
    method FindSpot(number: uint16, unreliable: uint16, ghost c: Item) returns (k: nat, same: bool)
      requires Mirrors() && number == Wire(c.number) && unreliable == c.unreliable
      ensures k == Spot(view.received, view.queue, c) && same == Duplicate(view, c)
    {
      hide Spot, Wire, Distance, Further, Duplicate;
      SpotEnds(view.received, view.queue, c);
      k, same := |incomingUnreliableCommands|, false;
      while k > 0
        invariant k <= |view.queue| && !same
        invariant Spot(view.received, view.queue[..k], c) == Spot(view.received, view.queue, c)
      {
        var queued := incomingUnreliableCommands[k - 1];
        SpotTurn(view.received, view.queue, k, c);
        if number >= incomingReliableSequenceNumber {
          if queued.number < incomingReliableSequenceNumber {
            k := k - 1;
            continue;
          }
        } else if queued.number >= incomingReliableSequenceNumber {
          break;
        }
        if queued.number < number { break; }
        if queued.number > number {
          k := k - 1;
          continue;
        }
        if queued.unreliable <= unreliable {
          same := queued.unreliable == unreliable;
          break;
        }
        k := k - 1;
      }
      DuplicateAt(view, c, k);
    }

    /** enet_peer_queue_incoming_command for sequenced unreliable commands, with the whole packet or an empty buffer. */
    method QueueUnreliable(number: uint16, unreliable: uint16, body: Body, full: bool, state: PeerState, ghost n: nat)
      returns (outcome: Outcome, id: nat)
      requires Valid() && BodyOk(body) && n == Unwire(view.received, number)
      modifies this
      ensures Valid() && id == old(view).next
      ensures outcome == Admitted(old(view), Item(id, false, n, unreliable, body), full, state)
      ensures view == if outcome == Stored then Queued(old(view), Item(id, false, n, unreliable, body)) else old(view)
    {
      hide Spot, Dispatched, Wire, Unwire, Duplicate, OutsideWindows, BodyOk;
      id := allocations;
      ghost var c := Item(id, false, n, unreliable, body);
      WindowTest(view.received, number, n);
      if state == DisconnectLater { return Discarded, id; }
      var reliableWindow := number / RELIABLE_WINDOW_SIZE;
      var currentWindow := incomingReliableSequenceNumber / RELIABLE_WINDOW_SIZE;
      if number < incomingReliableSequenceNumber {
        reliableWindow := reliableWindow + RELIABLE_WINDOWS;
      }
      if reliableWindow < currentWindow || reliableWindow >= currentWindow + FREE_RELIABLE_WINDOWS - 1 { return Discarded, id; }
      if number == incomingReliableSequenceNumber && unreliable <= incomingUnreliableSequenceNumber { return Discarded, id; }
      var k, same := FindSpot(number, unreliable, c);
      if same { return Discarded, id; }
      if full { return Refused, id; }
      Enter(k, Command(id, false, number, unreliable, body), c);
      outcome := Stored;
    }

    /** Allocates a command, inserts it at place k and dispatches. */
    method Enter(k: nat, command: Command, ghost c: Item)
      requires Valid() && k <= |view.queue| && command == OnWire(c) && c.id == view.next && BodyOk(c.body)
      modifies this
      ensures Valid() && view == Dispatched(Entered(old(view), k, c), c.id)
    {
      hide Dispatched, BodyOk, Wire;
      EnteredSound(view, k, c);
      incomingUnreliableCommands := incomingUnreliableCommands[..k] + [command] + incomingUnreliableCommands[k..];
      allocations := allocations + 1;
      view := Entered(view, k, c);
      DispatchSound(view, c.id);
      Dispatch(command.id);
    }

    /** enet_protocol_handle_send_unreliable, behind the length checks on the datagram. */
    method HandleSendUnreliable(number: uint16, unreliable: uint16, data: seq<uint8>, full: bool, state: PeerState,
                                maximumPacketSize: nat, ghost n: nat)
      returns (ok: bool)
      requires Valid() && n == Unwire(view.received, number)
      modifies this
      ensures Valid() && Reception(view, ok) == AfterWhole(old(view), n, unreliable, data, full, state, maximumPacketSize)
    {
      hide Queued, Admitted;
      if (state != Connected && state != DisconnectLater) || |data| > maximumPacketSize { return false; }
      var outcome, _ := QueueUnreliable(number, unreliable, Whole(data), full, state, n);
      ok := outcome != Refused;
    }

    /** enet_protocol_handle_send_unreliable_fragment. memory is whatever the new packet's buffer holds at first. */
    method HandleSendUnreliableFragment(number: uint16, startSequenceNumber: uint16, p: Piece, memory: seq<uint8>, full: bool,
                                        state: PeerState, maximumPacketSize: nat, ghost n: nat)
      returns (ok: bool)
      requires Valid() && n == Unwire(view.received, number) && |memory| == p.total
      modifies this
      ensures Valid()
      ensures Reception(view, ok) == AfterFragment(old(view), n, startSequenceNumber, p, memory, full, state, maximumPacketSize)
    {
      hide Spot, Dispatched, Wire, Unwire, Duplicate, OutsideWindows, BodyOk, WithPiece, WithFirst, Blank, Admitted, Sound;
      if (state != Connected && state != DisconnectLater) || |p.data| > maximumPacketSize { return false; }
      ghost var c := Item(view.next, false, n, startSequenceNumber, Blank(p.count, memory));
      WindowTest(view.received, number, n);
      var reliableWindow := number / RELIABLE_WINDOW_SIZE;
      var currentWindow := incomingReliableSequenceNumber / RELIABLE_WINDOW_SIZE;
      if number < incomingReliableSequenceNumber {
        reliableWindow := reliableWindow + RELIABLE_WINDOWS;
      }
      if reliableWindow < currentWindow || reliableWindow >= currentWindow + FREE_RELIABLE_WINDOWS - 1 { return true; }
      if number == incomingReliableSequenceNumber && startSequenceNumber <= incomingUnreliableSequenceNumber { return true; }
      if p.count > MAXIMUM_FRAGMENT_COUNT || p.index >= p.count || p.total > maximumPacketSize
         || p.offset >= p.total || |p.data| > p.total - p.offset {
        return false;
      }
      var place, found := FindSpot(number, startSequenceNumber, c);
      if found {
        DuplicateAt(view, c, place);
        BodyAt(view, place - 1);
        var startCommand := incomingUnreliableCommands[place - 1].body;
        if !startCommand.fragment || p.total != |startCommand.data| || p.count != startCommand.count { return false; }
        AddPiece(place - 1, p);
        ok := true;
      } else {
        ok := QueueFirst(number, startSequenceNumber, p, memory, full, state, n);
      }
    }

    /** The branch for the first fragment of a packet to arrive. */
    method QueueFirst(number: uint16, startSequenceNumber: uint16, p: Piece, memory: seq<uint8>, full: bool, state: PeerState,
                      ghost n: nat)
      returns (ok: bool)
      requires Valid() && n == Unwire(view.received, number) && |memory| == p.total
      requires p.index < p.count && p.offset + |p.data| <= p.total
      modifies this
      ensures Valid()
      ensures var c := Item(old(view).next, false, n, startSequenceNumber, Blank(p.count, memory));
              && |c.body.have| == p.count && |c.body.data| == p.total && c.body.remaining > 0
              && ok == (Admitted(old(view), c, full, state) == Stored)
              && view == if ok then WithFirst(old(view), c, p) else old(view)
    {
      hide Spot, Dispatched, Wire, Unwire, Duplicate, BodyOk, WithPiece, Blank, Admitted, Sound, Entered;
      BlankOk(p.count, memory);
      ghost var v, c := view, Item(view.next, false, n, startSequenceNumber, Blank(p.count, memory));
      var outcome, id := QueueUnreliable(number, startSequenceNumber, Blank(p.count, memory), full, state, n);
      if outcome != Stored { return false; }
      EnteredAt(v, Spot(v.received, v.queue, c), c);
      ExcludedStays(Entered(v, Spot(v.received, v.queue, c), c), c);
      FindPlace(view, incomingUnreliableCommands, c);
      AddPiece(Find(incomingUnreliableCommands, id), p);
      ok := true;
    }

    /** Sets the fragment's bit and copies its bytes, unless it is a duplicate; a complete packet may be dispatched. */
    method AddPiece(at: nat, p: Piece)
      requires Valid() && at < |view.queue| && p.index < |view.queue[at].body.have|
      requires p.offset + |p.data| <= |view.queue[at].body.data|
      modifies this
      ensures Valid() && view == WithPiece(old(view), at, p)
    {
      hide Dispatched, Wire, Sound, BodyOk;
      var startCommand := incomingUnreliableCommands[at].body;
      BodyAt(view, at);
      FilledOk(startCommand, p);
      if !startCommand.have[p.index] {
        var filled := startCommand.(
          remaining := startCommand.remaining - 1,
          have := startCommand.have[p.index := true],
          data := startCommand.data[..p.offset] + p.data + startCommand.data[p.offset + |p.data|..]);
        PlacedSound(view, at, p);
        incomingUnreliableCommands := incomingUnreliableCommands[at := incomingUnreliableCommands[at].(body := filled)];
        view := Placed(view, at, p);
        if filled.remaining <= 0 {
          DispatchSound(view, -1);
          Dispatch(-1);
        }
      }
    }

    /** The queueing of an unsequenced command, which goes in front. */
    method QueueUnsequenced(number: uint16, data: seq<uint8>, full: bool, state: PeerState) returns (ok: bool)
      requires Valid()
      modifies this
      ensures Valid() && Reception(view, ok) == AfterUnsequenced(old(view), number, data, full, state)
    {
      hide Dispatched, Sound;
      if state == DisconnectLater { return true; }
      if full { return false; }
      var id := allocations;
      Enter(0, Command(id, true, number, 0, Whole(data)), Item(id, true, number, 0, Whole(data)));
      ok := true;
    }

    /** The end of enet_peer_dispatch_incoming_reliable_commands, after deliveries up to number n. */
    method AdvanceReliable(number: uint16, ghost n: nat)
      requires Valid() && number == Wire(n)
      modifies this
      ensures Valid() && view == AfterReliable(old(view), n)
    {
      hide Dispatched, Wire;
      incomingReliableSequenceNumber := number;
      incomingUnreliableSequenceNumber := 0;
      view := view.(received := n, position := 0);
      if incomingUnreliableCommands != [] {
        DispatchSound(view, -1);
        Dispatch(-1);
      }
    }
  }
}
