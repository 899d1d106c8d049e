/** Whole runs of a channel's unreliable traffic, over a network that loses, repeats and reorders datagrams. */
module UnreliableDelivery {
  import opened Integers
  import opened SequenceNumbers
  import opened PeerStates
  import opened Reassembly
  import opened Fragmentation
  import opened SendingOrder
  import opened UnreliableDispatch
  import ReliableDelivery

  /** What the receiver makes of fragment i of m, seeing only 16 bits of each number. */
  ghost function Receives(v: Unreliable, m: Message, i: nat, memory: seq<uint8>, full: bool, state: PeerState, maximumPacketSize: nat): Reception
    requires Sendable(m.packet) && i < Count(m.packet) && |memory| == |m.packet.data|
  {
    var n, u := Unwire(v.received, Wire(m.number)), Wire(m.packet.start);
    if Fragmented(m.packet) then AfterFragment(v, n, u, Fragment(m.packet, i), memory, full, state, maximumPacketSize)
    else AfterWhole(v, n, u, m.packet.data, full, state, maximumPacketSize)
  }

  datatype Event =
    | Arrives(message: nat, index: nat, memory: seq<uint8>, full: bool, state: PeerState, maximumPacketSize: nat)
    | Unsequenced(stamp: uint16, data: seq<uint8>, full: bool, state: PeerState)
    | Reliable(number: nat)

  ghost predicate Possible(sent: seq<Message>, v: Unreliable, e: Event)
    requires Log(sent)
  {
    match e
    case Arrives(j, i, memory, _, _, _) => j < |sent| && i < Count(sent[j].packet) && |memory| == |sent[j].packet.data|
    case Unsequenced(_, _, _, _) => true
    case Reliable(n) => v.received < n && WindowOf(n) <= WindowOf(v.received) + 9
  }

  ghost function After(sent: seq<Message>, v: Unreliable, e: Event): Unreliable
    requires Log(sent) && Possible(sent, v, e)
  {
    match e
    case Arrives(j, i, memory, full, state, maximumPacketSize) => Receives(v, sent[j], i, memory, full, state, maximumPacketSize).view
    case Unsequenced(stamp, data, full, state) => AfterUnsequenced(v, stamp, data, full, state).view
    case Reliable(n) => AfterReliable(v, n)
  }

  ghost predicate IsRun(sent: seq<Message>, run: seq<Unreliable>, events: seq<Event>) {
    && Log(sent) && |run| == |events| + 1 && run[0] == Unreliable(0, 0, [], [], 0)
    && forall k :: 0 <= k < |events| ==> Possible(sent, run[k], events[k]) && run[k + 1] == After(sent, run[k], events[k])
  }

  /** The assumption on the traffic: what arrives is neither ten windows old nor a lap ahead. */
  ghost predicate Timely(v: Unreliable, m: Message) {
    WindowOf(m.number) + 9 >= WindowOf(v.received) && m.number < v.received + SPACE
  }

  ghost predicate AllTimely(sent: seq<Message>, run: seq<Unreliable>, events: seq<Event>) {
    forall k :: 0 <= k < |events| < |run| && events[k].Arrives? && events[k].message < |sent| ==> Timely(run[k], sent[events[k].message])
  }

  // ----- the invariant

  /** An item holds what has come of a packet. */
  ghost predicate Carries(c: Item, m: Message) {
    && c.number == m.number && c.unreliable == m.packet.start && m.packet.fragmentLength > 0
    && if Fragmented(m.packet) then Agrees(c.body, m.packet) else c.body == Whole(m.packet.data)
  }

  ghost predicate Genuine(sent: seq<Message>, c: Item) {
    c.unsequenced || exists j :: 0 <= j < |sent| && Carries(c, sent[j])
  }

  ghost predicate AllGenuine(sent: seq<Message>, v: Unreliable) {
    && (forall i :: 0 <= i < |v.queue| ==> Genuine(sent, v.queue[i]) && v.queue[i].id < v.next)
    && (forall i :: 0 <= i < |v.dispatched| ==> Genuine(sent, v.dispatched[i]))
  }

  ghost predicate Inv(sent: seq<Message>, v: Unreliable) {
    Settled(v) && History(v) && AllGenuine(sent, v)
  }

  /** What is new among the deliveries is complete and belongs to the channel's reliable position. */
  ghost predicate Extends(v: Unreliable, w: Unreliable) {
    && v.dispatched <= w.dispatched
    && forall i :: |v.dispatched| <= i < |w.dispatched| && !w.dispatched[i].unsequenced ==>
         w.dispatched[i].number == w.received && w.dispatched[i].body.remaining == 0
  }

  lemma DispatchWithin(v: Unreliable, queued: int)
    ensures Within(Dispatched(v, queued).queue, v.queue)
    ensures v.dispatched <= Dispatched(v, queued).dispatched
    ensures Within(Dispatched(v, queued).dispatched[|v.dispatched|..], v.queue)
    ensures Dispatched(v, queued).next == v.next && Dispatched(v, queued).received == v.received
  {
    hide Reached, Passed, Excepted, Dropped, Position, Delivered;
    var n := Reached(v.received, v.queue);
    var p := v.queue[..n];
    var passed, d := Passed(v.received, p), Dropped(v.received, p);
    DispatchedParts(v, queued);
    PassedWithin(v.received, p);
    ExceptedOrder(passed[..d], queued);
    DeliveredOrder(v.received, p);
    WithinParts(Excepted(passed[..d], queued), passed, d, v.queue, n);
    WithinTwice(Delivered(v.received, p), p, v.queue, n);
    var w := Dispatched(v, queued);
    assert w.dispatched[|v.dispatched|..] == Delivered(v.received, p);
  }

  lemma WithinParts(e: seq<Item>, passed: seq<Item>, d: nat, q: seq<Item>, n: nat)
    requires n <= |q| && d <= |passed| && Within(passed, q[..n]) && Within(e, passed[..d])
    ensures Within(e + passed[d..] + q[n..], q)
  {
    forall i | 0 <= i < |e|
      ensures e[i] in q
    {
      assert e[i] in passed;
    }
  }

  lemma WithinTwice(x: seq<Item>, p: seq<Item>, q: seq<Item>, n: nat)
    requires n <= |q| && p == q[..n] && Within(x, p)
    ensures Within(x, q)
  {
  }

  lemma DispatchGenuine(sent: seq<Message>, v: Unreliable, queued: int)
    requires AllGenuine(sent, v)
    ensures AllGenuine(sent, Dispatched(v, queued))
  {
    hide Dispatched, Genuine;
    DispatchWithin(v, queued);
    var w := Dispatched(v, queued);
    forall i | 0 <= i < |w.queue|
      ensures Genuine(sent, w.queue[i]) && w.queue[i].id < w.next
    {
      assert w.queue[i] in v.queue;
    }
    forall i | 0 <= i < |w.dispatched|
      ensures Genuine(sent, w.dispatched[i])
    {
      if i >= |v.dispatched| {
        assert w.dispatched[|v.dispatched|..][i - |v.dispatched|] in v.queue;
      } else {
        assert w.dispatched[i] == v.dispatched[i];
      }
    }
  }

  lemma DispatchKeeps(sent: seq<Message>, v: Unreliable, front: nat, queued: int)
    requires Ready(v, front) && Excludable(v, queued) && History(v) && AllGenuine(sent, v)
    ensures Inv(sent, Dispatched(v, queued)) && Extends(v, Dispatched(v, queued))
    ensures Dispatched(v, queued).received == v.received
    ensures front == 1 ==> v.queue[0] in Dispatched(v, queued).dispatched
  {
    hide Dispatched, Ready, Excludable, History, Settled, AllGenuine;
    DispatchSettles(v, front, queued);
    DispatchHistory(v, front, queued);
    DispatchGenuine(sent, v, queued);
    SameReceived(v, queued);
    FrontExists(v, front);
  }

  lemma FrontExists(v: Unreliable, front: nat)
    requires Ready(v, front)
    ensures front == 1 ==> v.queue != []
  {
  }

  // ----- one arrival

  lemma Widths(sent: seq<Message>, j: nat)
    requires Log(sent) && j < |sent|
    ensures Sendable(sent[j].packet) && 1 <= sent[j].packet.start < SPACE && 1 <= Count(sent[j].packet)
  {
    if Fragmented(sent[j].packet) {
      CountCovers(sent[j].packet);
    }
  }

  /** A command behind the channel's position is ignored: its number looks too far ahead. */
  lemma LateIgnored(v: Unreliable, m: Message, i: nat, memory: seq<uint8>, full: bool, state: PeerState, maximumPacketSize: nat)
    requires Sendable(m.packet) && i < Count(m.packet) && |memory| == |m.packet.data|
    requires m.number < v.received && Timely(v, m)
    ensures Receives(v, m, i, memory, full, state, maximumPacketSize).view == v
  {
    OldLooksFar(v.received, m.number);
  }

  /** Any other is taken for itself. */
  lemma TakenForItself(v: Unreliable, m: Message)
    requires Timely(v, m) && v.received <= m.number && m.packet.start < SPACE
    ensures Unwire(v.received, Wire(m.number)) == m.number && Wire(m.packet.start) == m.packet.start
  {
    UnwireUnique(v.received, m.number);
  }

  lemma EnteredGenuine(sent: seq<Message>, v: Unreliable, k: nat, c: Item)
    requires AllGenuine(sent, v) && k <= |v.queue| && Genuine(sent, c) && c.id == v.next
    ensures AllGenuine(sent, Entered(v, k, c))
  {
    hide Genuine;
  }

  /** A command that is stored. */
  lemma QueuedKeeps(sent: seq<Message>, v: Unreliable, c: Item, full: bool, state: PeerState)
    requires Inv(sent, v) && Genuine(sent, c) && !c.unsequenced && c.id == v.next && c.unreliable >= 1
    requires v.received <= c.number < v.received + SPACE && Admitted(v, c, full, state) == Stored
    ensures Inv(sent, Queued(v, c)) && Extends(v, Queued(v, c)) && Queued(v, c).received == v.received
  {
    hide Dispatched, Ready, Excludable, Settled, Spot, Genuine, Useless, Duplicate;
    EnteredReady(v, c, full);
    EnteredGenuine(sent, v, Spot(v.received, v.queue, c), c);
    DispatchKeeps(sent, Entered(v, Spot(v.received, v.queue, c), c), 0, c.id);
  }

  lemma LogOrder(sent: seq<Message>, i: nat, j: nat)
    requires Log(sent) && i < j < |sent|
    ensures SentBefore(sent[i], sent[j])
  {
  }

  lemma SameMessage(sent: seq<Message>, i: nat, j: nat)
    requires Log(sent) && i < |sent| && j < |sent|
    requires sent[i].number == sent[j].number && sent[i].packet.start == sent[j].packet.start
    ensures i == j
  {
    if i < j {
      LogOrder(sent, i, j);
    } else if j < i {
      LogOrder(sent, j, i);
    }
  }

  /** Another fragment for an item. */
  lemma WithPieceKeeps(sent: seq<Message>, v: Unreliable, k: nat, j: nat, i: nat)
    requires Log(sent) && Inv(sent, v) && k < |v.queue| && j < |sent| && Fragmented(sent[j].packet) && i < Count(sent[j].packet)
    requires v.queue[k].number == sent[j].number && v.queue[k].unreliable == sent[j].packet.start
    ensures Sendable(sent[j].packet) && Fits(Fragment(sent[j].packet, i), v.queue[k].body)
    ensures i < |v.queue[k].body.have| && |v.queue[k].body.data| == |sent[j].packet.data|
    ensures var w := WithPiece(v, k, Fragment(sent[j].packet, i)); Inv(sent, w) && Extends(v, w) && w.received == v.received
  {
    hide Dispatched, Ready, Excludable, Settled, Filled, Fits, Count, Log, History, Agrees;
    ItemOf(sent, v, k, j);
    var p := sent[j].packet;
    var c, f := v.queue[k], Fragment(p, i);
    BodyFits(c.body, p, i);
    FilledAgrees(c.body, p, i);
    var w := Placed(v, k, f);
    PlacedReady(v, k, f);
    PlacedHistory(v, k, f);
    assert Carries(w.queue[k], sent[j]);
    PlacedGenuine(sent, v, k, f);
    if !c.body.have[i] && w.queue[k].body.remaining == 0 {
      DispatchKeeps(sent, w, 0, -1);
    }
  }

  lemma BodyFits(b: Body, p: Sent, i: nat)
    requires Sendable(p) && Fragmented(p) && i < Count(p) && Agrees(b, p)
    ensures Fits(Fragment(p, i), b) && i < |b.have| && |b.data| == |p.data|
  {
  }

  lemma ItemOf(sent: seq<Message>, v: Unreliable, k: nat, j: nat)
    requires Log(sent) && Inv(sent, v) && k < |v.queue| && j < |sent|
    requires v.queue[k].number == sent[j].number && v.queue[k].unreliable == sent[j].packet.start
    ensures Sendable(sent[j].packet) && Carries(v.queue[k], sent[j]) && !v.queue[k].unsequenced
  {
    hide Near, Carries, Sendable;
    assert Genuine(sent, v.queue[k]);
    var x :| 0 <= x < |sent| && Carries(v.queue[k], sent[x]);
    CarriesNumbers(v.queue[k], sent[x]);
    SameMessage(sent, x, j);
  }

  lemma CarriesNumbers(c: Item, m: Message)
    requires Carries(c, m)
    ensures c.number == m.number && c.unreliable == m.packet.start
  {
  }

  lemma PlacedHistory(v: Unreliable, k: nat, p: Piece)
    requires History(v) && k < |v.queue| && p.index < |v.queue[k].body.have| && p.offset + |p.data| <= |v.queue[k].body.data|
    ensures History(Placed(v, k, p))
  {
    hide Increasing;
  }

  lemma PlacedGenuine(sent: seq<Message>, v: Unreliable, k: nat, p: Piece)
    requires AllGenuine(sent, v) && k < |v.queue| && p.index < |v.queue[k].body.have| && p.offset + |p.data| <= |v.queue[k].body.data|
    requires Genuine(sent, Placed(v, k, p).queue[k])
    ensures AllGenuine(sent, Placed(v, k, p))
  {
    hide Genuine, Filled;
  }

  lemma DuplicateFound(sent: seq<Message>, v: Unreliable, c: Item)
    requires Inv(sent, v) && v.received <= c.number < v.received + SPACE && Duplicate(v, c)
    ensures var k := Spot(v.received, v.queue, c);
            k > 0 && v.queue[k - 1].number == c.number && v.queue[k - 1].unreliable == c.unreliable
  {
    hide Near, Spot, Before;
    SettledNear(v);
    var k := Spot(v.received, v.queue, c);
    WireInjective(v.received, v.queue[k - 1].number, c.number);
  }

  lemma ArrivesKeeps(sent: seq<Message>, v: Unreliable, j: nat, i: nat, memory: seq<uint8>, full: bool, state: PeerState, maximumPacketSize: nat)
    requires Log(sent) && Inv(sent, v) && Possible(sent, v, Arrives(j, i, memory, full, state, maximumPacketSize)) && Timely(v, sent[j])
    ensures var w := After(sent, v, Arrives(j, i, memory, full, state, maximumPacketSize));
            Inv(sent, w) && Extends(v, w) && w.received == v.received
  {
    hide Inv, Queued, WithPiece, WithFirst, Admitted, Useless, Duplicate, Spot, Fits, Agrees, Sendable, Count, Timely, Unwire, Wire;
    Widths(sent, j);
    var m := sent[j];
    if m.number < v.received {
      LateIgnored(v, m, i, memory, full, state, maximumPacketSize);
    } else {
      TakenForItself(v, m);
      TimelyRange(v, m);
      if Fragmented(m.packet) {
        ArrivesFragment(sent, v, j, i, memory, full, state, maximumPacketSize);
      } else {
        var c := Item(v.next, false, m.number, m.packet.start, Whole(m.packet.data));
        assert Carries(c, m);
        if Admitted(v, c, full, state) == Stored {
          QueuedKeeps(sent, v, c, full, state);
        }
      }
    }
  }

  lemma TimelyRange(v: Unreliable, m: Message)
    requires Timely(v, m)
    ensures m.number < v.received + SPACE
  {
  }

  lemma ArrivesFragment(sent: seq<Message>, v: Unreliable, j: nat, i: nat, memory: seq<uint8>, full: bool, state: PeerState, maximumPacketSize: nat)
    requires Log(sent) && Inv(sent, v) && j < |sent| && i < Count(sent[j].packet) && |memory| == |sent[j].packet.data|
    requires Sendable(sent[j].packet) && Fragmented(sent[j].packet) && 1 <= sent[j].packet.start < SPACE
    requires v.received <= sent[j].number < v.received + SPACE
    ensures var w := AfterFragment(v, sent[j].number, sent[j].packet.start, Fragment(sent[j].packet, i), memory, full, state, maximumPacketSize).view;
            Inv(sent, w) && Extends(v, w) && w.received == v.received
  {
    hide Inv, Queued, WithPiece, Admitted, Useless, Duplicate, Spot, Fits, Agrees, Sendable, Count, Blank, Log, Plausible;
    var m := sent[j];
    var f := Fragment(m.packet, i);
    var c := Item(v.next, false, m.number, m.packet.start, Blank(f.count, memory));
    if !IsConnected(state) || |f.data| > maximumPacketSize || Useless(v, c) || !Plausible(f, maximumPacketSize) {
    } else if Duplicate(v, c) {
      DuplicateFound(sent, v, c);
      WithPieceKeeps(sent, v, Spot(v.received, v.queue, c) - 1, j, i);
    } else if Admitted(v, c, full, state) == Stored {
      BlankAgrees(m.packet, memory);
      BlankOk(f.count, memory);
      assert Carries(c, m);
      QueuedKeeps(sent, v, c, full, state);
      var w := Queued(v, c);
      StaysQueued(v, c);
      WithPieceKeeps(sent, w, PlaceOf(w.queue, c), j, i);
    }
  }

  lemma StaysQueued(v: Unreliable, c: Item)
    requires !c.unsequenced && c.body.remaining > 0
    ensures c in Queued(v, c).queue
  {
    hide Spot, Dispatched;
    EnteredAt(v, Spot(v.received, v.queue, c), c);
    ExcludedStays(Entered(v, Spot(v.received, v.queue, c), c), c);
  }

  // ----- every step

  lemma DispatchEmpty(v: Unreliable)
    ensures v.queue == [] ==> Dispatched(v, -1) == v
  {
  }

  lemma NumberedFrom(sent: seq<Message>, v: Unreliable)
    requires Log(sent) && Inv(sent, v)
    ensures forall i :: 0 <= i < |v.queue| ==> v.queue[i].unreliable >= 1
  {
    hide Near, Agrees;
    forall i | 0 <= i < |v.queue|
      ensures v.queue[i].unreliable >= 1
    {
      assert Genuine(sent, v.queue[i]) && !v.queue[i].unsequenced;
    }
  }

  lemma UnsequencedKeeps(sent: seq<Message>, v: Unreliable, number: uint16, data: seq<uint8>, full: bool, state: PeerState)
    requires Inv(sent, v)
    ensures var r := AfterUnsequenced(v, number, data, full, state);
            && Inv(sent, r.view) && Extends(v, r.view)
            && (state != DisconnectLater && !full ==> Item(v.next, true, number, 0, Whole(data)) in r.view.dispatched)
  {
    hide Dispatched, Ready, Excludable, Settled;
    if state != DisconnectLater && !full {
      var c := Item(v.next, true, number, 0, Whole(data));
      UnsequencedReady(v, c);
      EnteredGenuine(sent, v, 0, c);
      DispatchKeeps(sent, Entered(v, 0, c), 1, c.id);
    }
  }

  lemma ReliableKeeps(sent: seq<Message>, v: Unreliable, n: nat)
    requires Log(sent) && Inv(sent, v) && v.received < n && WindowOf(n) <= WindowOf(v.received) + 9
    ensures var w := AfterReliable(v, n); Inv(sent, w) && Extends(v, w) && w.received == n
  {
    hide Dispatched, Ready, Excludable, Settled, Log, WindowOf;
    NumberedFrom(sent, v);
    ReliableReady(v, n);
    var u := v.(received := n, position := 0);
    DispatchEmpty(u);
    MovedHistory(v, n);
    assert AllGenuine(sent, u);
    DispatchKeeps(sent, u, 0, -1);
  }

  lemma MovedHistory(v: Unreliable, n: nat)
    requires History(v) && v.received < n
    ensures History(v.(received := n, position := 0))
  {
    hide Increasing;
  }

  lemma StepKeeps(sent: seq<Message>, v: Unreliable, e: Event)
    requires Log(sent) && Inv(sent, v) && Possible(sent, v, e) && (e.Arrives? ==> Timely(v, sent[e.message]))
    ensures Inv(sent, After(sent, v, e)) && Extends(v, After(sent, v, e))
  {
    hide Inv, Log, Timely, WindowOf;
    match e
    case Arrives(j, i, memory, full, state, maximumPacketSize) => ArrivesKeeps(sent, v, j, i, memory, full, state, maximumPacketSize);
    case Unsequenced(stamp, data, full, state) => UnsequencedKeeps(sent, v, stamp, data, full, state);
    case Reliable(n) => ReliableKeeps(sent, v, n);
  }

  lemma {:induction false} RunKeeps(sent: seq<Message>, run: seq<Unreliable>, events: seq<Event>, k: nat)
    requires IsRun(sent, run, events) && AllTimely(sent, run, events) && k < |run|
    ensures Log(sent) && Inv(sent, run[k]) && (k > 0 ==> Extends(run[k - 1], run[k]))
  {
    hide After, Inv, Log, Timely;
    if k > 0 {
      RunKeeps(sent, run, events, k - 1);
      StepKeeps(sent, run[k - 1], events[k - 1]);
    } else {
      StartInv(sent);
    }
  }

  lemma StartInv(sent: seq<Message>)
    ensures Inv(sent, Unreliable(0, 0, [], [], 0))
  {
  }

  /** The moves of the reliable position that are possible include those of every run of the reliable channel. */
  lemma PositionMoves(run: seq<ReliableDelivery.System>, steps: seq<ReliableDelivery.Step>, k: nat, sent: seq<Message>, v: Unreliable)
    requires ReliableDelivery.IsRun(run, steps) && ReliableDelivery.AllTimely(run, steps) && k < |steps| && Log(sent)
    requires v.received == run[k].receiver.received != run[k + 1].receiver.received
    ensures Possible(sent, v, Reliable(run[k + 1].receiver.received))
  {
    hide ReliableDelivery.IsRun, ReliableDelivery.AllTimely;
    ReliableDelivery.PositionMoves(run, steps, k);
  }

  // ----- the promises

  /** A delivered item is the packet that was sent under its numbers. */
  ghost predicate Delivers(c: Item, m: Message) {
    !c.unsequenced && c.number == m.number && c.unreliable == m.packet.start && c.body.data == m.packet.data
  }

  lemma DeliveredWhole(sent: seq<Message>, v: Unreliable, i: nat) returns (j: nat)
    requires Log(sent) && Inv(sent, v) && i < |v.dispatched| && !v.dispatched[i].unsequenced
    ensures j < |sent| && Delivers(v.dispatched[i], sent[j])
  {
    hide Settled, Agrees, Sendable;
    var c := v.dispatched[i];
    assert Genuine(sent, c);
    j :| 0 <= j < |sent| && Carries(c, sent[j]);
    if Fragmented(sent[j].packet) {
      Reassembled(c.body, sent[j].packet);
    }
  }

  /** In every run of timely traffic, every sequenced packet delivered is one that was sent, whole and unchanged, and
      the deliveries are in the order of sending: nothing old, and nothing twice. */
  lemma DeliveredInOrder(sent: seq<Message>, run: seq<Unreliable>, events: seq<Event>, k: nat)
    requires IsRun(sent, run, events) && AllTimely(sent, run, events) && k < |run|
    ensures forall i :: 0 <= i < |run[k].dispatched| && !run[k].dispatched[i].unsequenced ==>
              exists j :: 0 <= j < |sent| && Delivers(run[k].dispatched[i], sent[j])
    ensures forall x, y, i, j ::
              (0 <= x < y < |run[k].dispatched| && 0 <= i < |sent| && 0 <= j < |sent|
               && Delivers(run[k].dispatched[x], sent[i]) && Delivers(run[k].dispatched[y], sent[j])) ==> i < j
  {
    hide IsRun, AllTimely, Settled, Delivers;
    RunKeeps(sent, run, events, k);
    var v := run[k];
    forall i | 0 <= i < |v.dispatched| && !v.dispatched[i].unsequenced
      ensures exists j :: 0 <= j < |sent| && Delivers(v.dispatched[i], sent[j])
    {
      var j := DeliveredWhole(sent, v, i);
    }
    forall x, y, i, j | 0 <= x < y < |v.dispatched| && 0 <= i < |sent| && 0 <= j < |sent|
                        && Delivers(v.dispatched[x], sent[i]) && Delivers(v.dispatched[y], sent[j])
      ensures i < j
    {
      OrderOf(sent, v, x, y, i, j);
    }
  }

  lemma OrderOf(sent: seq<Message>, v: Unreliable, x: nat, y: nat, i: nat, j: nat)
    requires Log(sent) && Inv(sent, v) && x < y < |v.dispatched| && i < |sent| && j < |sent|
    requires Delivers(v.dispatched[x], sent[i]) && Delivers(v.dispatched[y], sent[j])
    ensures i < j
  {
    hide Settled, AllGenuine, Sendable;
    assert Before(v.dispatched[x], v.dispatched[y]);
    if j < i {
      LogOrder(sent, j, i);
    }
  }

  /** ... each delivered in a step that leaves the channel at its reliable number: never before the reliable packets
      that were sent before it, and never once a later one is delivered. */
  lemma DeliveredWhenCurrent(sent: seq<Message>, run: seq<Unreliable>, events: seq<Event>, k: nat, i: nat)
    requires IsRun(sent, run, events) && AllTimely(sent, run, events) && k < |events|
    requires |run[k].dispatched| <= i < |run[k + 1].dispatched| && !run[k + 1].dispatched[i].unsequenced
    ensures run[k + 1].dispatched[i].number == run[k + 1].received && run[k + 1].dispatched[i].body.remaining == 0
  {
    hide IsRun, AllTimely, Inv, Log;
    RunSize(sent, run, events);
    RunKeeps(sent, run, events, k + 1);
  }

  lemma RunSize(sent: seq<Message>, run: seq<Unreliable>, events: seq<Event>)
    requires IsRun(sent, run, events)
    ensures |run| == |events| + 1
  {
  }

  /** An unsequenced packet is delivered in the step in which it arrives, if there is room. */
  lemma UnsequencedAtOnce(sent: seq<Message>, run: seq<Unreliable>, events: seq<Event>, k: nat)
    requires IsRun(sent, run, events) && AllTimely(sent, run, events) && k < |events|
    requires events[k].Unsequenced? && events[k].state != DisconnectLater && !events[k].full
    ensures Item(run[k].next, true, events[k].stamp, 0, Whole(events[k].data)) in run[k + 1].dispatched
  {
    hide Inv, Log;
    RunKeeps(sent, run, events, k);
    UnsequencedKeeps(sent, run[k], events[k].stamp, events[k].data, events[k].full, events[k].state);
  }

  /** ... and so is a whole packet of the channel's current reliable number that is newer than the last one delivered. */
  lemma CurrentAtOnce(sent: seq<Message>, v: Unreliable, j: nat, memory: seq<uint8>, maximumPacketSize: nat)
    requires Log(sent) && Inv(sent, v) && j < |sent| && !Fragmented(sent[j].packet)
    requires |memory| == |sent[j].packet.data| <= maximumPacketSize
    requires sent[j].number == v.received && v.position < sent[j].packet.start
    ensures Sendable(sent[j].packet) && 0 < Count(sent[j].packet)
    ensures var w := Receives(v, sent[j], 0, memory, false, Connected, maximumPacketSize).view;
            exists c :: c in w.dispatched[|v.dispatched|..] && Delivers(c, sent[j])
  {
    hide Inv, Log, Queued, Spot, Duplicate, Unwire, Wire, WindowOf;
    var m := sent[j];
    Widths(sent, j);
    UnwireUnique(v.received, m.number);
    var c := Item(v.next, false, m.number, m.packet.start, Whole(m.packet.data));
    CurrentStart(m.packet);
    if Duplicate(v, c) {
      DuplicateFound(sent, v, c);
      CurrentIncomplete(sent, v, Spot(v.received, v.queue, c) - 1, j);
    }
    CurrentDelivered(sent, v, c);
    assert Delivers(c, m);
  }

  lemma CurrentStart(p: Sent)
    requires p.start < SPACE
    ensures Wire(p.start) == p.start
  {
  }

  lemma CurrentIncomplete(sent: seq<Message>, v: Unreliable, k: nat, j: nat)
    requires Log(sent) && Inv(sent, v) && k < |v.queue| && j < |sent|
    requires v.queue[k].number == sent[j].number == v.received && v.queue[k].unreliable == sent[j].packet.start
    ensures Fragmented(sent[j].packet)
  {
    hide Agrees, Near, Log;
    ItemOf(sent, v, k, j);
  }

  lemma CurrentDelivered(sent: seq<Message>, v: Unreliable, c: Item)
    requires Inv(sent, v) && !c.unsequenced && c.id == v.next && c.unreliable >= 1 && c.number == v.received && c.body.remaining == 0
    requires Admitted(v, c, false, Connected) == Stored
    ensures v.dispatched <= Queued(v, c).dispatched && c in Queued(v, c).dispatched[|v.dispatched|..]
  {
    hide Spot, Settled, Ready, Excludable, Near, Waiting, Reached, Passed, Position, Overtaken, Dropped, Excepted, Delivered, Before,
         Useless, Duplicate, Wire, Genuine;
    EnteredReady(v, c, false);
    var k := Spot(v.received, v.queue, c);
    var w := Entered(v, k, c);
    ReadyItems(w, 0);
    assert w.queue[k] == c;
    var p := w.queue[..Reached(w.received, w.queue)];
    assert p[k] == c;
    DeliversAll(w.received, p, k);
    assert Queued(v, c).dispatched[|v.dispatched|..] == Delivered(w.received, p);
  }

  // ----- nothing that has come is lost while it may still be delivered

  /** A complete item of the current reliable number is delivered by a dispatch. */
  lemma DispatchDeliversDue(v: Unreliable, front: nat, queued: int, i: nat)
    requires Ready(v, front) && front <= i < |v.queue| && v.queue[i].number == v.received && v.queue[i].body.remaining == 0
    ensures v.dispatched <= Dispatched(v, queued).dispatched
    ensures v.queue[i] in Dispatched(v, queued).dispatched[|v.dispatched|..]
  {
    hide Near, Waiting, Reached, Passed, Position, Overtaken, Dropped, Excepted, Delivered, Before, Wire, Ready;
    ReadyItems(v, front);
    var p := v.queue[..Reached(v.received, v.queue)];
    assert p[i] == v.queue[i];
    DeliversAll(v.received, p, i);
    assert Dispatched(v, queued).dispatched[|v.dispatched|..] == Delivered(v.received, p);
  }

  /** An item of a later one stays. */
  lemma DispatchKeepsWaiting(v: Unreliable, front: nat, queued: int, i: nat)
    requires Ready(v, front) && front <= i < |v.queue| && v.received < v.queue[i].number
    ensures v.queue[i] in Dispatched(v, queued).queue
  {
    hide Near, Waiting, Reached, Passed, Position, Overtaken, Dropped, Excepted, Delivered, Before, Wire, Ready, Dispatched;
    ReadyItems(v, front);
    DispatchedParts(v, queued);
    var n := Reached(v.received, v.queue);
    assert v.queue[n..][i - n] == v.queue[i];
  }

  /** Fragment i of a packet, or the whole of it, is queued. */
  ghost predicate Holds(v: Unreliable, m: Message, i: nat) {
    exists c :: c in v.queue && !c.unsequenced && c.number == m.number && c.unreliable == m.packet.start
                && (Fragmented(m.packet) ==> i < |c.body.have| && c.body.have[i])
  }

  /** The packet is among the new deliveries. */
  ghost predicate DeliveredNow(v: Unreliable, w: Unreliable, m: Message) {
    v.dispatched <= w.dispatched && exists c :: c in w.dispatched[|v.dispatched|..] && Delivers(c, m)
  }

  /** All fragments but this one have come. */
  ghost predicate OnlyMissing(b: Body, i: nat) {
    i < |b.have| && !b.have[i] && forall l :: 0 <= l < |b.have| && l != i ==> b.have[l]
  }

  /** One more fragment of a queued packet: it is entered, and if it was the last one missing and the packet is due, the packet
      is delivered. */
  lemma PieceTaken(sent: seq<Message>, v: Unreliable, k: nat, j: nat, i: nat)
    requires Log(sent) && Inv(sent, v) && k < |v.queue| && j < |sent| && Fragmented(sent[j].packet) && i < Count(sent[j].packet)
    requires v.queue[k].number == sent[j].number && v.queue[k].unreliable == sent[j].packet.start
    ensures Sendable(sent[j].packet) && i < |v.queue[k].body.have| && |v.queue[k].body.data| == |sent[j].packet.data|
    ensures var w := WithPiece(v, k, Fragment(sent[j].packet, i));
            && (Holds(w, sent[j], i) || DeliveredNow(v, w, sent[j]))
            && (sent[j].number == v.received && OnlyMissing(v.queue[k].body, i) ==> DeliveredNow(v, w, sent[j]))
  {
    hide Dispatched, Ready, Excludable, Settled, Filled, Fits, Count, Log, History, Agrees;
    ItemOf(sent, v, k, j);
    var p := sent[j].packet;
    var c, f := v.queue[k], Fragment(p, i);
    BodyFits(c.body, p, i);
    FilledAgrees(c.body, p, i);
    var w := Placed(v, k, f);
    var d := w.queue[k];
    PlacedReady(v, k, f);
    AgreesComplete(d.body, p);
    assert d.body.have == c.body.have[i := true];
    if !c.body.have[i] && d.body.remaining == 0 {
      Reassembled(d.body, p);
      assert Delivers(d, sent[j]);
      SettledAhead(v, k);
      if d.number == v.received {
        DispatchDeliversDue(w, 0, -1, k);
        assert DeliveredNow(v, Dispatched(w, -1), sent[j]);
      } else {
        DispatchKeepsWaiting(w, 0, -1, k);
        assert Holds(Dispatched(w, -1), sent[j], i);
      }
    } else {
      assert d in w.queue;
      assert Holds(w, sent[j], i) by { assert d.body.have[i]; }
      if c.body.have[i] {
        FilledSame(c.body, f);
        assert w.queue == v.queue;
      }
    }
  }

  lemma SettledAhead(v: Unreliable, k: nat)
    requires Settled(v) && k < |v.queue|
    ensures v.received <= v.queue[k].number && !v.queue[k].unsequenced
  {
  }

  lemma AgreesComplete(b: Body, p: Sent)
    requires p.fragmentLength > 0 && Fragmented(p) && Agrees(b, p)
    ensures |b.have| == Count(p) && (b.remaining == 0 <==> forall i :: 0 <= i < Count(p) ==> b.have[i])
  {
    MissingNone(b.have);
  }

  /** The place of a command's twin, if there is one. */
  lemma TwinFound(v: Unreliable, c: Item, k: nat)
    requires Settled(v) && v.received <= c.number < v.received + SPACE && k < |v.queue|
    requires v.queue[k].number == c.number && v.queue[k].unreliable == c.unreliable
    ensures Duplicate(v, c) && Spot(v.received, v.queue, c) == k + 1
  {
    hide Near, Spot;
    SettledNear(v);
    SpotSplits(v.received, v.queue, c);
    var n := Spot(v.received, v.queue, c);
    SameOrder(v.queue[k], c, v.queue[k]);
    if 0 < n {
      SameOrder(v.queue[k], c, v.queue[n - 1]);
    }
  }

  lemma SameOrder(a: Item, c: Item, b: Item)
    requires a.number == c.number && a.unreliable == c.unreliable
    ensures Before(a, b) <==> Before(c, b)
    ensures !Before(c, a)
  {
  }

  /** A command that is not superseded. */
  ghost predicate Wanted(v: Unreliable, m: Message) {
    && v.received <= m.number && !OutsideWindows(v.received, m.number)
    && (m.number == v.received ==> v.position < m.packet.start)
  }

  lemma WantedRange(v: Unreliable, m: Message)
    requires Wanted(v, m)
    ensures m.number < v.received + SPACE && Unwire(v.received, Wire(m.number)) == m.number
  {
    UnwireUnique(v.received, m.number);
  }

  /** Every fragment of a wanted packet is kept, if the packet is queued or there is room for it; and the last one missing
      delivers the packet, if it belongs to the current reliable number. */
  lemma FragmentTaken(sent: seq<Message>, v: Unreliable, j: nat, i: nat, memory: seq<uint8>, full: bool, maximumPacketSize: nat)
    requires Log(sent) && Inv(sent, v) && j < |sent| && Fragmented(sent[j].packet) && i < Count(sent[j].packet)
    requires |memory| == |sent[j].packet.data| <= maximumPacketSize && Wanted(v, sent[j])
    requires !full || exists k :: 0 <= k < |v.queue| && v.queue[k].number == sent[j].number && v.queue[k].unreliable == sent[j].packet.start
    ensures Sendable(sent[j].packet)
    ensures var r := Receives(v, sent[j], i, memory, full, Connected, maximumPacketSize);
            && r.ok && (Holds(r.view, sent[j], i) || DeliveredNow(v, r.view, sent[j]))
            && forall k :: 0 <= k < |v.queue| && v.queue[k].number == sent[j].number == v.received
                           && v.queue[k].unreliable == sent[j].packet.start && OnlyMissing(v.queue[k].body, i) ==>
                 DeliveredNow(v, r.view, sent[j])
  {
    hide Inv, Queued, WithPiece, Duplicate, Spot, Fits, Agrees, Sendable, Count, Blank, Log, OutsideWindows, Holds, DeliveredNow,
         OnlyMissing, Unwire, Wire;
    Widths(sent, j);
    WantedRange(v, sent[j]);
    var m := sent[j];
    CurrentStart(m.packet);
    var f := Fragment(m.packet, i);
    Partition(m.packet, i);
    assert Plausible(f, maximumPacketSize) by { SendableCount(m.packet); }
    var c := Item(v.next, false, m.number, m.packet.start, Blank(f.count, memory));
    assert Settled(v) by { InvSettled(sent, v); }
    if k: nat :| k < |v.queue| && v.queue[k].number == m.number && v.queue[k].unreliable == m.packet.start {
      TwinFound(v, c, k);
      PieceTaken(sent, v, k, j, i);
      ItemFits(sent, v, k, j, i);
      forall k' | 0 <= k' < |v.queue| && v.queue[k'].number == m.number && v.queue[k'].unreliable == m.packet.start
        ensures k' == k
      {
        TwinFound(v, c, k');
      }
    } else {
      if Duplicate(v, c) {
        DuplicateFound(sent, v, c);
        assert false;
      }
      FirstTaken(sent, v, j, i, memory);
    }
  }

  lemma SendableCount(p: Sent)
    requires Sendable(p)
    ensures Count(p) <= MAXIMUM_FRAGMENT_COUNT
  {
  }

  lemma InvSettled(sent: seq<Message>, v: Unreliable)
    requires Inv(sent, v)
    ensures Settled(v)
  {
  }

  lemma ItemFits(sent: seq<Message>, v: Unreliable, k: nat, j: nat, i: nat)
    requires Log(sent) && Inv(sent, v) && k < |v.queue| && j < |sent| && Fragmented(sent[j].packet) && i < Count(sent[j].packet)
    requires v.queue[k].number == sent[j].number && v.queue[k].unreliable == sent[j].packet.start
    ensures Sendable(sent[j].packet) && Fits(Fragment(sent[j].packet, i), v.queue[k].body)
  {
    hide Inv, Log, Agrees, Fits, Count, Sendable;
    ItemOf(sent, v, k, j);
    BodyFits(v.queue[k].body, sent[j].packet, i);
  }

  /** The first fragment to arrive. */
  lemma FirstTaken(sent: seq<Message>, v: Unreliable, j: nat, i: nat, memory: seq<uint8>)
    requires Log(sent) && Inv(sent, v) && j < |sent| && Fragmented(sent[j].packet) && i < Count(sent[j].packet)
    requires Sendable(sent[j].packet) && |memory| == |sent[j].packet.data| && 1 <= sent[j].packet.start < SPACE
    requires v.received <= sent[j].number < v.received + SPACE
    requires Admitted(v, Item(v.next, false, sent[j].number, sent[j].packet.start, Blank(Count(sent[j].packet), memory)), false, Connected) == Stored
    ensures var f := Fragment(sent[j].packet, i);
            var c := Item(v.next, false, sent[j].number, sent[j].packet.start, Blank(f.count, memory));
            && |c.body.have| == f.count && |c.body.data| == f.total && c.body.remaining > 0
            && (Holds(WithFirst(v, c, f), sent[j], i) || DeliveredNow(v, WithFirst(v, c, f), sent[j]))
  {
    hide Inv, Queued, WithPiece, Admitted, Duplicate, Spot, Fits, Agrees, Sendable, Count, Blank, Log, DeliveredNow, Holds;
    var m := sent[j];
    var f := Fragment(m.packet, i);
    var c := Item(v.next, false, m.number, m.packet.start, Blank(f.count, memory));
    BlankAgrees(m.packet, memory);
    BlankOk(f.count, memory);
    assert Carries(c, m);
    QueuedKeeps(sent, v, c, false, Connected);
    var w := Queued(v, c);
    StaysQueued(v, c);
    PieceTaken(sent, w, PlaceOf(w.queue, c), j, i);
    NowSince(v, w, WithPiece(w, PlaceOf(w.queue, c), f), m);
  }

  lemma NowSince(v: Unreliable, w: Unreliable, x: Unreliable, m: Message)
    requires v.dispatched <= w.dispatched
    ensures DeliveredNow(w, x, m) ==> DeliveredNow(v, x, m)
  {
  }

  // ----- the rest of this channel's promises

  /** A whole packet for a reliable number that is still to come is kept. */
  lemma FutureKept(sent: seq<Message>, v: Unreliable, j: nat, memory: seq<uint8>, maximumPacketSize: nat)
    requires Log(sent) && Inv(sent, v) && j < |sent| && !Fragmented(sent[j].packet) && Wanted(v, sent[j]) && v.received < sent[j].number
    requires |memory| == |sent[j].packet.data| <= maximumPacketSize
    ensures Sendable(sent[j].packet) && 0 < Count(sent[j].packet)
    ensures var r := Receives(v, sent[j], 0, memory, false, Connected, maximumPacketSize);
            r.ok && Holds(r.view, sent[j], 0)
  {
    hide Inv, Log, Queued, Spot, Duplicate, Unwire, Wire, OutsideWindows, Count;
    var m := sent[j];
    Widths(sent, j);
    WantedRange(v, m);
    CurrentStart(m.packet);
    var c := Item(v.next, false, m.number, m.packet.start, Whole(m.packet.data));
    if Duplicate(v, c) {
      DuplicateFound(sent, v, c);
      InvQueue(sent, v, Spot(v.received, v.queue, c) - 1);
    } else {
      FutureQueued(sent, v, c);
      assert c in Queued(v, c).queue;
    }
  }

  lemma InvQueue(sent: seq<Message>, v: Unreliable, k: nat)
    requires Inv(sent, v) && k < |v.queue|
    ensures v.queue[k] in v.queue && !v.queue[k].unsequenced
  {
    hide Near, Genuine;
  }

  lemma FutureQueued(sent: seq<Message>, v: Unreliable, c: Item)
    requires Inv(sent, v) && !c.unsequenced && c.id == v.next && c.unreliable >= 1 && v.received < c.number < v.received + SPACE
    requires Admitted(v, c, false, Connected) == Stored
    ensures c in Queued(v, c).queue
  {
    hide Spot, Settled, Ready, Excludable, Near, Dispatched, Before, Useless, Duplicate, Wire, Genuine;
    EnteredReady(v, c, false);
    var k := Spot(v.received, v.queue, c);
    assert Entered(v, k, c).queue[k] == c;
    DispatchKeepsWaiting(Entered(v, k, c), 0, c.id, k);
  }

  /** ... and delivered as soon as the reliable packets before it are, along with every other complete one of that number. */
  lemma ReleasedInTime(sent: seq<Message>, v: Unreliable, n: nat, i: nat)
    requires Log(sent) && Inv(sent, v) && v.received < n && WindowOf(n) <= WindowOf(v.received) + 9
    requires i < |v.queue| && v.queue[i].number == n && v.queue[i].body.remaining == 0
    ensures v.dispatched <= AfterReliable(v, n).dispatched && v.queue[i] in AfterReliable(v, n).dispatched[|v.dispatched|..]
  {
    hide Dispatched, Ready, Excludable, Settled, Log, WindowOf;
    NumberedFrom(sent, v);
    ReliableReady(v, n);
    DispatchDeliversDue(v.(received := n, position := 0), 0, -1, i);
  }

  /** What waits for a later number stays. */
  lemma StillWaiting(sent: seq<Message>, v: Unreliable, n: nat, i: nat)
    requires Log(sent) && Inv(sent, v) && v.received < n && WindowOf(n) <= WindowOf(v.received) + 9
    requires i < |v.queue| && n < v.queue[i].number
    ensures v.queue[i] in AfterReliable(v, n).queue
  {
    hide Dispatched, Ready, Excludable, Settled, Log, WindowOf;
    NumberedFrom(sent, v);
    ReliableReady(v, n);
    DispatchKeepsWaiting(v.(received := n, position := 0), 0, -1, i);
  }

  // ----- without the assumptions

  lemma {:induction false} DispatchOne(v: Unreliable, c: Item, queued: int)
    requires v.queue == [c] && !c.unsequenced && c.body.remaining == 0
    ensures Current(v.received, c) ==>
              Dispatched(v, queued) == v.(position := c.unreliable, queue := [], dispatched := v.dispatched + [c])
    ensures Waiting(v.received, c) ==> Dispatched(v, queued) == v
  {
    hide Current, Waiting;
    CurrentPasses(v.received, c);
    var none: seq<Item> := [];
    assert v.queue[..0] == none && v.queue[1..] == none && v.queue[..1] == [c];
    if Current(v.received, c) {
      assert Reached(v.received, v.queue) == 1 + Reached(v.received, v.queue[1..]) == 1;
      assert Passed(v.received, [c]) == none && Delivered(v.received, [c]) == [c] by { ScanOne(v.received, c); }
      assert none[..0] == none && none + none + none == none;
    } else if Waiting(v.received, c) {
      assert none[..0] == none && none + none + [c] == [c] && v.dispatched + none == v.dispatched;
    }
  }

  lemma ScanOne(received: nat, c: Item)
    requires Deliverable(received, c)
    ensures Passed(received, [c]) == [] && Delivered(received, [c]) == [c]
  {
    assert [c][..0] == [];
  }

  lemma CurrentPasses(received: nat, c: Item)
    ensures Current(received, c) ==> !Waiting(received, c)
  {
  }

  /** A small packet that arrives when nothing is queued. */
  lemma Alone(v: Unreliable, m: Message)
    requires Sendable(m.packet) && |m.packet.data| <= 1000 <= m.packet.fragmentLength && v.queue == []
    ensures 0 < Count(m.packet)
    ensures var n := Unwire(v.received, Wire(m.number));
            var c := Item(v.next, false, n, Wire(m.packet.start), Whole(m.packet.data));
            var w := Receives(v, m, 0, m.packet.data, false, Connected, 1000).view;
            && (n == v.received && v.position < c.unreliable ==>
                  w == v.(position := c.unreliable, dispatched := v.dispatched + [c], next := v.next + 1))
            && (WindowOf(v.received) < WindowOf(n) < WindowOf(v.received) + FREE_RELIABLE_WINDOWS - 1 ==>
                  w == v.(queue := [c], next := v.next + 1))
  {
    hide Wire, Unwire, Dispatched;
    var n := Unwire(v.received, Wire(m.number));
    var c := Item(v.next, false, n, Wire(m.packet.start), Whole(m.packet.data));
    var u := Entered(v, 0, c);
    assert u.queue == [c];
    DispatchOne(u, c, c.id);
    WireOfUnwire(v.received, Wire(m.number));
    RelativeWindowExact(v.received, Wire(m.number));
    WaitsFor(v.received, c);
  }

  lemma WaitsFor(received: nat, c: Item)
    requires !c.unsequenced && received <= c.number < received + SPACE
    ensures c.number == received ==> Current(received, c)
    ensures WindowOf(received) < WindowOf(c.number) < WindowOf(received) + FREE_RELIABLE_WINDOWS - 1 ==> Waiting(received, c)
  {
    UnwireUnique(received, c.number);
    RelativeWindowExact(received, Wire(c.number));
    if Wire(c.number) == Wire(received) {
      WireInjective(received, received, c.number);
    }
  }

  function Small(start: nat, x: uint8): Sent {
    Sent(start, [x], 1000)
  }

  /** Without the upper bound the order is lost: b, sent a lap after a, is delivered first if it arrives first. */
  lemma LapAhead(a: Message, b: Message) returns (run: seq<Unreliable>, events: seq<Event>)
    requires a.number < b.number && a.packet == Small(a.packet.start, 1) && b.packet == Small(b.packet.start, 2)
    requires Wire(a.number) == Wire(b.number) == 0 && 0 < b.packet.start < a.packet.start < SPACE
    ensures IsRun([a, b], run, events) && |run| == 3
    ensures |run[2].dispatched| == 2 && run[2].dispatched[0].body.data == [2] && run[2].dispatched[1].body.data == [1]
  {
    hide Receives;
    var sent := [a, b];
    CurrentStart(a.packet);
    CurrentStart(b.packet);
    assert Log(sent);
    events := [Arrives(1, 0, [2], false, Connected, 1000), Arrives(0, 0, [1], false, Connected, 1000)];
    var v := Unreliable(0, 0, [], [], 0);
    Alone(v, b);
    var w := After(sent, v, events[0]);
    Alone(w, a);
    run := [v, w, After(sent, w, events[1])];
  }

  /** ... and so it is without the lower one: a packet that arrives ten windows late is kept, and delivered when the
      numbers come round. */
  lemma TenWindowsLate() returns (sent: seq<Message>, run: seq<Unreliable>, events: seq<Event>)
    ensures sent == [Message(0, Small(1, 1)), Message(40960, Small(1, 2))]
    ensures IsRun(sent, run, events) && |run| == 6
    ensures |run[5].dispatched| == 2 && run[5].dispatched[0].body.data == [2] && run[5].dispatched[1].body.data == [1]
  {
    hide Receives, Dispatched;
    var a, b := Message(0, Small(1, 1)), Message(40960, Small(1, 2));
    sent := [a, b];
    assert Log(sent);
    events := [Reliable(36864), Reliable(40960), Arrives(1, 0, [2], false, Connected, 1000),
               Arrives(0, 0, [1], false, Connected, 1000), Reliable(65536)];
    var v := Unreliable(0, 0, [], [], 0);
    var v1 := After(sent, v, events[0]);
    var v2 := After(sent, v1, events[1]);
    Alone(v2, b);
    var v3 := After(sent, v2, events[2]);
    Alone(v3, a);
    var v4 := After(sent, v3, events[3]);
    DispatchOne(v4.(received := 65536, position := 0), v4.queue[0], -1);
    run := [v, v1, v2, v3, v4, After(sent, v4, events[4])];
  }
}
