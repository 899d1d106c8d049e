/** One reliable channel between two peers over a network that loses, duplicates and reorders datagrams. */
module ReliableDelivery {
  import opened Integers
  import opened SequenceNumbers
  import opened PeerStates
  import opened Reassembly
  import opened ReliableReceiver
  import opened Fragmentation

  /** The whole system, in unbounded numbers. Every number up to `sent` has been transmitted at least once, and
      every datagram and acknowledgement ever sent may still arrive, any number of times. */
  datatype System = System(
    packets: seq<Sent>,
    sent: nat,
    outstanding: set<nat>,
    acknowledgements: set<nat>,
    receiver: Receiver)

  const START := System([], 0, {}, {}, Receiver(0, [], []))

  ghost function End(packets: seq<Sent>): nat
    requires forall j :: 0 <= j < |packets| ==> packets[j].fragmentLength > 0
  {
    if packets == [] then 0 else Last(packets[|packets| - 1])
  }

  /** Packets take consecutive numbers, from 1. */
  ghost predicate Contiguous(packets: seq<Sent>) {
    && (forall j :: 0 <= j < |packets| ==> Sendable(packets[j]))
    && (forall j :: 0 <= j < |packets| ==> packets[j].start == End(packets[..j]) + 1)
  }

  ghost function Datas(packets: seq<Sent>): seq<seq<uint8>> {
    seq(|packets|, j requires 0 <= j < |packets| => packets[j].data)
  }

  // ----- the steps

  datatype Step =
    | Send(data: seq<uint8>, fragmentLength: nat)
    | Transmit
    | Deliver(packet: nat, index: nat, memory: seq<uint8>, full: bool, maximumPacketSize: nat)
    | Acknowledge(number: nat)

  /** The outstanding numbers in window w, windows being counted modulo 16 as in reliableWindows. */
  ghost function InWindow(outstanding: set<nat>, w: nat): set<nat> {
    set n | n in outstanding && WindowOf(n) % RELIABLE_WINDOWS == w
  }

  /** A window is entered only after an acknowledgement from the one before, and while the ten from it on are free. */
  ghost predicate MayStart(outstanding: set<nat>, n: nat) {
    n % RELIABLE_WINDOW_SIZE == 0 ==>
      && |InWindow(outstanding, (WindowOf(n) + RELIABLE_WINDOWS - 1) % RELIABLE_WINDOWS)| < RELIABLE_WINDOW_SIZE
      && forall m :: m in outstanding ==> (WindowOf(m) - WindowOf(n)) % RELIABLE_WINDOWS >= FREE_RELIABLE_WINDOWS + 2
  }

  /** A datagram is delivered before its packet starts ten windows behind, */
  ghost predicate YoungDatagram(v: Receiver, p: Sent) {
    WindowOf(p.start) + 9 >= WindowOf(v.received)
  }

  /** ... and an acknowledgement before it is sixteen windows behind. */
  ghost predicate YoungAcknowledgement(s: System, n: nat) {
    WindowOf(n) + 15 >= WindowOf(s.sent)
  }

  /** What the receiver makes of fragment i of p, seeing only 16 bits of each number. */
  ghost function Receives(v: Receiver, p: Sent, i: nat, memory: seq<uint8>, full: bool, state: PeerState, maximumPacketSize: nat): Reception
    requires Sendable(p) && i < Count(p) && |memory| == |p.data|
  {
    var start := Unwire(v.received, Wire(p.start));
    if !IsConnected(state) then Reception(v, false)
    else if Fragmented(p) then AfterFragment(v, start, Fragment(p, i), memory, full, state, maximumPacketSize)
    else if |p.data| > maximumPacketSize then Reception(v, false)
    else AfterWhole(v, start, p.data, full, state)
  }

  ghost predicate IsAcknowledged(r: Reception, n: nat) {
    r.ok && Acknowledges(r.receiver.received, Unwire(r.receiver.received, Wire(n)))
  }

  ghost predicate Enabled(s: System, step: Step)
    requires Contiguous(s.packets)
  {
    match step
    case Send(data, fragmentLength) => Sendable(Sent(End(s.packets) + 1, data, fragmentLength))
    case Transmit => s.sent < End(s.packets) && MayStart(s.outstanding, s.sent + 1)
    case Deliver(j, i, memory, _, _) =>
      && j < |s.packets| && i < Count(s.packets[j]) && s.packets[j].start + i <= s.sent
      && |memory| == |s.packets[j].data|
    case Acknowledge(n) => n in s.acknowledgements
  }

  /** The assumptions on the network. */
  ghost predicate Timely(s: System, step: Step) {
    match step
    case Deliver(j, _, _, _, _) => j < |s.packets| ==> YoungDatagram(s.receiver, s.packets[j])
    case Acknowledge(n) => YoungAcknowledgement(s, n)
    case _ => true
  }

  ghost function After(s: System, step: Step): System
    requires Contiguous(s.packets) && Enabled(s, step)
  {
    match step
    case Send(data, fragmentLength) => s.(packets := s.packets + [Sent(End(s.packets) + 1, data, fragmentLength)])
    case Transmit => s.(sent := s.sent + 1, outstanding := s.outstanding + {s.sent + 1})
    case Deliver(j, i, memory, full, maximumPacketSize) =>
      var r := Receives(s.receiver, s.packets[j], i, memory, full, Connected, maximumPacketSize);
      var n := s.packets[j].start + i;
      s.(receiver := r.receiver,
         acknowledgements := if IsAcknowledged(r, n) then s.acknowledgements + {n} else s.acknowledgements)
    case Acknowledge(n) => s.(outstanding := set m | m in s.outstanding && Wire(m) != Wire(n))
  }

  // ----- the joint invariant

  /** What is queued under a number is the packet sent under it, as far as it has come. */
  ghost predicate Matches(e: Entry, p: Sent, sent: nat)
    requires p.fragmentLength > 0
  {
    && e.number == p.start
    && if Fragmented(p) then Agrees(e.body, p) && forall i :: 0 <= i < Count(p) && e.body.have[i] ==> p.start + i <= sent
       else e.body == Whole(p.data) && p.start <= sent
  }

  ghost predicate Queued(packets: seq<Sent>, sent: nat, v: Receiver, e: Entry)
    requires Contiguous(packets)
  {
    && v.received < e.number && WindowOf(e.number) < WindowOf(v.received) + FREE_RELIABLE_WINDOWS - 1
    && exists j :: 0 <= j < |packets| && Matches(e, packets[j], sent)
  }

  ghost predicate InOrder(packets: seq<Sent>, v: Receiver)
    requires Contiguous(packets)
  {
    var d := |v.delivered|;
    d <= |packets| && v.delivered == Datas(packets[..d]) && v.received == End(packets[..d])
  }

  ghost predicate ReceiverInv(packets: seq<Sent>, sent: nat, v: Receiver) {
    && Contiguous(packets) && InOrder(packets, v) && v.received <= sent
    && (forall i, j :: 0 <= i < j < |v.entries| ==> v.entries[i].number < v.entries[j].number)
    && (forall k :: 0 <= k < |v.entries| ==> Queued(packets, sent, v, v.entries[k]))
  }

  ghost predicate HasNumber(e: Entry, n: nat) {
    if e.body.count == 0 then n == e.number
    else e.number <= n < e.number + |e.body.have| && e.body.have[n - e.number]
  }

  /** The receiver has command n: its packet is delivered, or it waits in the queue. */
  ghost predicate Accepted(v: Receiver, n: nat) {
    n <= v.received || exists k :: 0 <= k < |v.entries| && HasNumber(v.entries[k], n)
  }

  ghost predicate SenderInv(s: System) {
    && (forall n :: n in s.outstanding ==> 1 <= n <= s.sent && WindowOf(n) + FREE_RELIABLE_WINDOWS - 2 >= WindowOf(s.sent))
    && (forall n :: 1 <= n <= s.sent && n !in s.outstanding ==> n in s.acknowledgements)
  }

  ghost predicate FlowInv(s: System) {
    && (forall n :: n in s.acknowledgements ==>
          1 <= n <= s.sent && Accepted(s.receiver, n) && WindowOf(n) <= WindowOf(s.receiver.received) + FREE_RELIABLE_WINDOWS - 2)
    && WindowOf(s.sent) <= WindowOf(s.receiver.received) + FREE_RELIABLE_WINDOWS - 1
  }

  ghost predicate Inv(s: System) {
    && ReceiverInv(s.packets, s.sent, s.receiver) && s.sent <= End(s.packets)
    && SenderInv(s) && FlowInv(s)
  }

  // ----- numbering

  lemma {:induction false} Later(packets: seq<Sent>, i: nat, j: nat)
    requires Contiguous(packets) && i < j < |packets|
    ensures Last(packets[i]) < packets[j].start
    decreases j
  {
    assert packets[..j][j - 1] == packets[j - 1];
    if i < j - 1 {
      Later(packets, i, j - 1);
    }
  }

  lemma SameStart(packets: seq<Sent>, i: nat, j: nat)
    requires Contiguous(packets) && i < |packets| && j < |packets| && packets[i].start == packets[j].start
    ensures i == j
  {
    hide Contiguous, Sendable;
    Widths(packets, i);
    Widths(packets, j);
    if i < j {
      Later(packets, i, j);
    } else if j < i {
      Later(packets, j, i);
    }
  }

  lemma Widths(packets: seq<Sent>, j: nat)
    requires Contiguous(packets) && j < |packets|
    ensures Sendable(packets[j]) && 1 <= Count(packets[j]) && packets[j].start <= Last(packets[j])
    ensures Fragmented(packets[j]) ==> 2 <= Count(packets[j])
    ensures packets[j].start == End(packets[..j]) + 1
  {
    if Fragmented(packets[j]) {
      CountCovers(packets[j]);
    }
  }

  /** A receiver stands between two packets. */
  lemma Boundary(packets: seq<Sent>, v: Receiver, j: nat)
    requires Contiguous(packets) && InOrder(packets, v) && j < |packets|
    ensures packets[j].start <= v.received ==> j < |v.delivered| && Last(packets[j]) <= v.received
    ensures packets[j].start == v.received + 1 <==> j == |v.delivered|
  {
    hide Count, Contiguous, Sendable;
    var d := |v.delivered|;
    Widths(packets, j);
    if d > 0 {
      assert packets[..d][d - 1] == packets[d - 1];
      Widths(packets, d - 1);
      if j < d - 1 {
        Later(packets, j, d - 1);
      } else if j >= d {
        Later(packets, d - 1, j);
      }
    }
    if d < |packets| && j > d {
      Widths(packets, d);
      Later(packets, d, j);
    }
  }

  /** The packet behind a queued entry. */
  lemma Behind(packets: seq<Sent>, sent: nat, v: Receiver, k: nat) returns (j: nat)
    requires ReceiverInv(packets, sent, v) && k < |v.entries|
    ensures Contiguous(packets) && j < |packets| && Sendable(packets[j]) && Matches(v.entries[k], packets[j], sent)
    ensures v.entries[k].number == packets[j].start > v.received
    ensures WindowOf(v.entries[k].number) < WindowOf(v.received) + FREE_RELIABLE_WINDOWS - 1
  {
    hide Matches;
    assert Queued(packets, sent, v, v.entries[k]);
    j :| 0 <= j < |packets| && Matches(v.entries[k], packets[j], sent);
    MatchesStart(v.entries[k], packets[j], sent);
  }

  lemma {:induction false} SendKeeps(packets: seq<Sent>, sent: nat, v: Receiver, p: Sent)
    requires ReceiverInv(packets, sent, v) && Sendable(p) && p.start == End(packets) + 1
    ensures ReceiverInv(packets + [p], sent, v) && End(packets) <= End(packets + [p])
  {
    var more := packets + [p];
    forall j | 0 <= j < |more|
      ensures more[j].start == End(more[..j]) + 1
    {
      assert more[..j] == packets[..j];
    }
    assert more[..|v.delivered|] == packets[..|v.delivered|];
    forall k | 0 <= k < |v.entries|
      ensures Queued(more, sent, v, v.entries[k])
    {
      assert Queued(packets, sent, v, v.entries[k]);
      var j :| 0 <= j < |packets| && Matches(v.entries[k], packets[j], sent);
      assert more[j] == packets[j];
    }
  }

  // ----- dispatching

  /** A complete entry that is next on the wire is the next packet. */
  lemma NextPacket(packets: seq<Sent>, sent: nat, v: Receiver)
    requires ReceiverInv(packets, sent, v) && v.entries != [] && Due(v.received, v.entries[0])
    ensures var d, e := |v.delivered|, v.entries[0];
            && d < |packets| && e.number == packets[d].start == v.received + 1 && e.body.data == packets[d].data
            && LastNumber(e) == Last(packets[d]) <= sent
  {
    hide Agrees, Contiguous;
    var e := v.entries[0];
    var j := Behind(packets, sent, v, 0);
    WireInjective(v.received, e.number, v.received + 1);
    Boundary(packets, v, j);
    if Fragmented(packets[j]) {
      CompleteBody(e.body, packets[j]);
    }
  }

  lemma CompleteBody(b: Body, p: Sent)
    requires Sendable(p) && Fragmented(p) && Agrees(b, p) && b.remaining == 0
    ensures b.data == p.data && b.count == |b.have| == Count(p) && b.have[Count(p) - 1] && Count(p) > 0
  {
    Reassembled(b, p);
    CountCovers(p);
  }

  lemma DeliveredKeeps(packets: seq<Sent>, sent: nat, v: Receiver)
    requires ReceiverInv(packets, sent, v) && v.entries != [] && Due(v.received, v.entries[0])
    ensures ReceiverInv(packets, sent, Delivered(v)) && v.received <= Delivered(v).received
  {
    hide Matches, Count;
    NextPacket(packets, sent, v);
    var d, v' := |v.delivered|, Delivered(v);
    assert Datas(packets[..d + 1]) == Datas(packets[..d]) + [packets[d].data];
    forall k | 0 <= k < |v'.entries|
      ensures Queued(packets, sent, v', v'.entries[k])
    {
      var e := v.entries[k + 1];
      assert e.number > v.entries[0].number;
      var j := Behind(packets, sent, v, k + 1);
      if j < d {
        Later(packets, j, d);
      }
      Later(packets, d, j);
      WindowMonotone(v.received, v'.received);
    }
  }

  lemma MatchesStart(e: Entry, p: Sent, sent: nat)
    requires p.fragmentLength > 0 && Matches(e, p, sent)
    ensures e.number == p.start
    ensures Fragmented(p) <==> e.body.count > 0
    ensures e.body.count == |e.body.have|
    ensures if Fragmented(p) then e.body.count == Count(p) else e.body == Whole(p.data)
  {
  }

  /** Nothing that was accepted is forgotten. */
  ghost predicate Remembers(v: Receiver, v': Receiver) {
    v.received <= v'.received && forall n: nat :: Accepted(v, n) ==> Accepted(v', n)
  }

  lemma DeliveredRemembers(packets: seq<Sent>, sent: nat, v: Receiver)
    requires ReceiverInv(packets, sent, v) && v.entries != [] && Due(v.received, v.entries[0])
    ensures Remembers(v, Delivered(v))
  {
  }

  lemma {:induction false} DispatchedInv(packets: seq<Sent>, sent: nat, v: Receiver)
    requires ReceiverInv(packets, sent, v)
    ensures ReceiverInv(packets, sent, Dispatched(v)) && Remembers(v, Dispatched(v))
    decreases |v.entries|
  {
    hide ReceiverInv, Accepted, Due;
    if v.entries != [] && Due(v.received, v.entries[0]) {
      DeliveredKeeps(packets, sent, v);
      DeliveredRemembers(packets, sent, v);
      DispatchedInv(packets, sent, Delivered(v));
    }
  }

  // ----- queueing

  /** In the receiver's order, distances are plain differences. */
  lemma {:induction false} PlaceSplits(received: nat, entries: seq<Entry>, n: nat)
    requires received <= n < received + SPACE
    requires forall i, j :: 0 <= i < j < |entries| ==> entries[i].number < entries[j].number
    requires forall i :: 0 <= i < |entries| ==> received < entries[i].number < received + SPACE
    ensures var k := Place(received, entries, n);
            && (forall i :: 0 <= i < k ==> entries[i].number <= n)
            && (forall i :: k <= i < |entries| ==> n < entries[i].number)
            && (k > 0 ==> (Wire(entries[k - 1].number) == Wire(n) <==> entries[k - 1].number == n))
  {
    if entries != [] {
      var last := entries[|entries| - 1].number;
      DistanceNear(received, last);
      DistanceNear(received, n);
      if last <= n {
        if Wire(last) == Wire(n) {
          WireInjective(received, last, n);
        }
      } else {
        PlaceSplits(received, entries[..|entries| - 1], n);
      }
    }
  }

  lemma Near(packets: seq<Sent>, sent: nat, v: Receiver)
    requires ReceiverInv(packets, sent, v)
    ensures forall i :: 0 <= i < |v.entries| ==> v.received < v.entries[i].number < v.received + SPACE
  {
  }

  lemma PlaceOf(packets: seq<Sent>, sent: nat, v: Receiver, n: nat)
    requires ReceiverInv(packets, sent, v) && v.received <= n < v.received + SPACE
    ensures Contiguous(packets)
    ensures var k := Place(v.received, v.entries, n);
            && (forall i :: 0 <= i < k ==> v.entries[i].number <= n)
            && (forall i :: k <= i < |v.entries| ==> n < v.entries[i].number)
            && (Present(v, n) <==> k > 0 && v.entries[k - 1].number == n)
  {
    Near(packets, sent, v);
    PlaceSplits(v.received, v.entries, n);
  }

  lemma OtherEntries(packets: seq<Sent>, sent: nat, v: Receiver, v': Receiver)
    requires ReceiverInv(packets, sent, v) && v'.received == v.received && v'.delivered == v.delivered
    requires forall i, j :: 0 <= i < j < |v'.entries| ==> v'.entries[i].number < v'.entries[j].number
    requires forall k :: 0 <= k < |v'.entries| ==> Queued(packets, sent, v, v'.entries[k])
    ensures ReceiverInv(packets, sent, v')
  {
  }

  lemma QueuedAt(packets: seq<Sent>, sent: nat, v: Receiver, k: nat)
    requires ReceiverInv(packets, sent, v) && k < |v.entries|
    ensures Contiguous(packets) && Queued(packets, sent, v, v.entries[k])
    ensures forall j :: k < j < |v.entries| ==> v.entries[k].number < v.entries[j].number
  {
  }

  lemma InsertedKeeps(packets: seq<Sent>, sent: nat, v: Receiver, e: Entry, j: nat)
    requires ReceiverInv(packets, sent, v) && j < |packets| && Matches(e, packets[j], sent)
    requires v.received < e.number && !OutsideWindows(v.received, e.number) && !Present(v, e.number)
    ensures ReceiverInv(packets, sent, Inserted(v, e)) && Remembers(v, Inserted(v, e))
    ensures var k := Place(v.received, v.entries, e.number);
            && |Inserted(v, e).entries| == |v.entries| + 1 && Inserted(v, e).entries[k] == e
  {
    hide Matches, Place, Accepted, HasNumber, ReceiverInv, Present, Wire;
    var k := Place(v.received, v.entries, e.number);
    var v' := Inserted(v, e);
    PlaceOf(packets, sent, v, e.number);
    forall x | 0 <= x < |v'.entries|
      ensures Queued(packets, sent, v, v'.entries[x])
      ensures forall y :: x < y < |v'.entries| ==> v'.entries[x].number < v'.entries[y].number
    {
      if x != k {
        QueuedAt(packets, sent, v, if x < k then x else x - 1);
      }
    }
    OtherEntries(packets, sent, v, v');
    forall n: nat | Accepted(v, n)
      ensures Accepted(v', n)
    {
      InsertedAccepted(v, v', k, n);
    }
  }

  lemma InsertedAccepted(v: Receiver, v': Receiver, k: nat, n: nat)
    requires k <= |v.entries| && |v'.entries| == |v.entries| + 1 && v'.received == v.received
    requires v'.entries[..k] == v.entries[..k] && v'.entries[k + 1..] == v.entries[k..]
    requires Accepted(v, n)
    ensures Accepted(v', n)
  {
  }

  // ----- fragments

  lemma PlacedKeeps(packets: seq<Sent>, sent: nat, v: Receiver, j: nat, i: nat, k: nat)
    requires ReceiverInv(packets, sent, v) && j < |packets| && Fragmented(packets[j]) && i < Count(packets[j])
    requires k < |v.entries| && v.entries[k].number == packets[j].start && packets[j].start + i <= sent
    ensures |v.entries[k].body.have| == Count(packets[j]) && |v.entries[k].body.data| == |packets[j].data|
    ensures Fits(Fragment(packets[j], i), v.entries[k].body)
    ensures var v' := Placed(v, k, Fragment(packets[j], i));
            ReceiverInv(packets, sent, v') && Remembers(v, v') && Accepted(v', packets[j].start + i)
  {
    hide Filled, Agrees, ReceiverInv, Accepted, Count, Fits;
    var p, e := packets[j], v.entries[k];
    var j' := Behind(packets, sent, v, k);
    SameStart(packets, j, j');
    MatchesStart(e, p, sent);
    FilledMatches(e, p, i, sent);
    var v' := Placed(v, k, Fragment(p, i));
    var e' := v'.entries[k];
    forall x | 0 <= x < |v'.entries|
      ensures Queued(packets, sent, v, v'.entries[x])
      ensures forall y :: x < y < |v'.entries| ==> v'.entries[x].number < v'.entries[y].number
    {
      QueuedAt(packets, sent, v, x);
    }
    OtherEntries(packets, sent, v, v');
    PlacedRemembers(v, v', k);
    HasAccepted(v', k, p.start + i);
  }

  lemma HasAccepted(v: Receiver, k: nat, n: nat)
    requires k < |v.entries| && HasNumber(v.entries[k], n)
    ensures Accepted(v, n)
  {
  }

  lemma FilledMatches(e: Entry, p: Sent, i: nat, sent: nat)
    requires Sendable(p) && Fragmented(p) && i < Count(p) && Matches(e, p, sent) && p.start + i <= sent
    ensures |e.body.have| == Count(p) && |e.body.data| == |p.data| && Fits(Fragment(p, i), e.body)
    ensures var e' := e.(body := Filled(e.body, Fragment(p, i)));
            && Matches(e', p, sent) && HasNumber(e', p.start + i)
            && e'.body.count == e.body.count && e'.body.have == e.body.have[i := true]
  {
    hide Filled, SliceAgrees;
    FilledAgrees(e.body, p, i);
    CountCovers(p);
  }

  lemma PlacedRemembers(v: Receiver, v': Receiver, k: nat)
    requires k < |v.entries| == |v'.entries| && v'.received == v.received
    requires forall x :: 0 <= x < |v.entries| && x != k ==> v'.entries[x] == v.entries[x]
    requires v'.entries[k].number == v.entries[k].number && v'.entries[k].body.count == v.entries[k].body.count
    requires var h, h' := v.entries[k].body.have, v'.entries[k].body.have;
             |h| == |h'| && forall i :: 0 <= i < |h| && h[i] ==> h'[i]
    ensures Remembers(v, v')
  {
  }

  lemma WithPieceKeeps(packets: seq<Sent>, sent: nat, v: Receiver, j: nat, i: nat, k: nat)
    requires ReceiverInv(packets, sent, v) && j < |packets| && Fragmented(packets[j]) && i < Count(packets[j])
    requires k < |v.entries| && v.entries[k].number == packets[j].start && packets[j].start + i <= sent
    ensures |v.entries[k].body.have| == Count(packets[j]) && |v.entries[k].body.data| == |packets[j].data|
    ensures Fits(Fragment(packets[j], i), v.entries[k].body)
    ensures var v' := WithPiece(v, k, Fragment(packets[j], i));
            ReceiverInv(packets, sent, v') && Remembers(v, v') && Accepted(v', packets[j].start + i)
  {
    hide Accepted, Matches, Queued, InOrder;
    PlacedKeeps(packets, sent, v, j, i, k);
    DispatchedInv(packets, sent, Placed(v, k, Fragment(packets[j], i)));
  }

  // ----- delivery of one datagram

  lemma InvPackets(s: System)
    requires Inv(s)
    ensures Contiguous(s.packets) && s.sent <= End(s.packets)
    ensures forall j :: 0 <= j < |s.packets| ==> Sendable(s.packets[j])
  {
  }

  /** A transmitted number that the receiver has not passed is less than a lap ahead. */
  lemma AheadByWindows(s: System, n: nat)
    requires FlowInv(s) && s.receiver.received <= n <= s.sent
    ensures n < s.receiver.received + SPACE && Unwire(s.receiver.received, Wire(n)) == n
    ensures WindowOf(n) <= WindowOf(s.receiver.received) + FREE_RELIABLE_WINDOWS - 1
  {
    WindowMonotone(n, s.sent);
    UnwireUnique(s.receiver.received, n);
  }

  ghost predicate Good(packets: seq<Sent>, sent: nat, v: Receiver, r: Reception, n: nat) {
    && ReceiverInv(packets, sent, r.receiver) && Remembers(v, r.receiver)
    && (Accepted(r.receiver, n) || r.receiver == v)
    && (r.ok ==> Accepted(r.receiver, n) || OutsideWindows(v.received, n))
  }

  lemma ReceivesWhole(s: System, j: nat, memory: seq<uint8>, full: bool, maximumPacketSize: nat)
    requires Inv(s) && j < |s.packets| && !Fragmented(s.packets[j]) && s.packets[j].start <= s.sent
    requires |memory| == |s.packets[j].data| && YoungDatagram(s.receiver, s.packets[j])
    ensures Good(s.packets, s.sent, s.receiver, Receives(s.receiver, s.packets[j], 0, memory, full, Connected, maximumPacketSize), s.packets[j].start)
  {
    hide ReceiverInv, Accepted, Matches, SenderInv, Present, Place, Dispatched, Inserted, Unwire, WindowOf, YoungDatagram, FlowInv;
    InvPackets(s);
    var v, p := s.receiver, s.packets[j];
    var n := p.start;
    if |p.data| <= maximumPacketSize {
      if n <= v.received {
        Passed(s, j);
        PassedAccepted(v, p, 0);
      } else {
        AheadByWindows(s, n);
        if Present(v, n) {
          PresentWhole(s, j);
        } else if !OutsideWindows(v.received, n) && !full {
          var e := Entry(n, Whole(p.data));
          MatchesWhole(e, p, s.sent);
          InsertedKeeps(s.packets, s.sent, v, e, j);
          var u := Inserted(v, e);
          HasAccepted(u, Place(v.received, v.entries, n), n);
          DispatchedInv(s.packets, s.sent, u);
        }
      }
    }
  }

  lemma MatchesWhole(e: Entry, p: Sent, sent: nat)
    requires p.fragmentLength > 0 && !Fragmented(p) && e == Entry(p.start, Whole(p.data)) && p.start <= sent
    ensures Matches(e, p, sent) && HasNumber(e, p.start)
  {
  }

  /** The receiver ignores a packet it has delivered. */
  lemma Passed(s: System, j: nat)
    requires Inv(s) && j < |s.packets| && s.packets[j].start <= s.receiver.received && YoungDatagram(s.receiver, s.packets[j])
    ensures var v, n := s.receiver, s.packets[j].start;
            && Last(s.packets[j]) <= v.received
            && (n < v.received ==> OutsideWindows(v.received, Unwire(v.received, Wire(n))))
            && (n == v.received ==> Unwire(v.received, Wire(n)) == v.received)
            && (Fragmented(s.packets[j]) ==> n < v.received)
  {
    var v, n := s.receiver, s.packets[j].start;
    Boundary(s.packets, v, j);
    Widths(s.packets, j);
    if n < v.received {
      OldLooksFar(v.received, n);
    } else {
      UnwireUnique(v.received, n);
    }
  }

  lemma PresentWhole(s: System, j: nat)
    requires Inv(s) && j < |s.packets| && !Fragmented(s.packets[j]) && Present(s.receiver, s.packets[j].start)
    requires s.receiver.received < s.packets[j].start <= s.sent
    ensures Accepted(s.receiver, s.packets[j].start)
  {
    hide Matches, Place;
    var v, n := s.receiver, s.packets[j].start;
    AheadByWindows(s, n);
    PlaceOf(s.packets, s.sent, v, n);
    var k := Place(v.received, v.entries, n) - 1;
    var j' := Behind(s.packets, s.sent, v, k);
    SameStart(s.packets, j, j');
    MatchesStart(v.entries[k], s.packets[j], s.sent);
    HasAccepted(v, k, n);
  }

  lemma ReceivesFragment(s: System, j: nat, i: nat, memory: seq<uint8>, full: bool, state: PeerState, maximumPacketSize: nat)
    requires Inv(s) && j < |s.packets| && Fragmented(s.packets[j]) && i < Count(s.packets[j]) && s.packets[j].start + i <= s.sent
    requires |memory| == |s.packets[j].data| && YoungDatagram(s.receiver, s.packets[j])
    ensures Good(s.packets, s.sent, s.receiver, Receives(s.receiver, s.packets[j], i, memory, full, state, maximumPacketSize),
                 s.packets[j].start + i)
  {
    hide ReceiverInv, Accepted, Matches, SenderInv, Present, Place, Dispatched, Inserted, Unwire, WindowOf, YoungDatagram, FlowInv,
         Plausible, WithPiece, WithFirst, Fits, Agrees, Count;
    InvPackets(s);
    var v, p := s.receiver, s.packets[j];
    var n, f := p.start, Fragment(p, i);
    if n <= v.received {
      Passed(s, j);
      PassedAccepted(v, p, i);
    } else {
      AheadByWindows(s, n);
      if OutsideWindows(v.received, n) {
        FurtherOutside(v, n, n + i);
      } else if Plausible(f, maximumPacketSize) {
        var k := Place(v.received, v.entries, n);
        if Present(v, n) {
          PresentAt(s, n);
          WithPieceKeeps(s.packets, s.sent, v, j, i, k - 1);
        } else if !full && state != DisconnectLater {
          ReceivesFirst(s.packets, s.sent, v, j, i, memory);
        }
      }
    }
  }

  lemma FurtherOutside(v: Receiver, m: nat, n: nat)
    requires OutsideWindows(v.received, m) && m <= n
    ensures OutsideWindows(v.received, n)
  {
  }

  lemma PassedAccepted(v: Receiver, p: Sent, i: nat)
    requires Sendable(p) && i < Count(p) && Last(p) <= v.received
    ensures Accepted(v, p.start + i)
  {
  }

  lemma PresentAt(s: System, n: nat)
    requires Inv(s) && s.receiver.received < n <= s.sent && Present(s.receiver, n)
    ensures var k := Place(s.receiver.received, s.receiver.entries, n); k > 0 && s.receiver.entries[k - 1].number == n
  {
    AheadByWindows(s, n);
    PlaceOf(s.packets, s.sent, s.receiver, n);
  }

  /** The first fragment of a packet to arrive: its entry is queued empty, and is still there to be filled. */
  lemma ReceivesFirst(packets: seq<Sent>, sent: nat, v: Receiver, j: nat, i: nat, memory: seq<uint8>)
    requires j < |packets| && Sendable(packets[j]) && Fragmented(packets[j]) && i < Count(packets[j])
    requires packets[j].start + i <= sent && |memory| == |packets[j].data|
    requires ReceiverInv(packets, sent, v)
    requires v.received < packets[j].start && !OutsideWindows(v.received, packets[j].start) && !Present(v, packets[j].start)
    ensures var x := WithFirst(v, packets[j].start, Fragment(packets[j], i), memory);
            ReceiverInv(packets, sent, x) && Remembers(v, x) && Accepted(x, packets[j].start + i)
  {
    hide ReceiverInv, Accepted, Matches, Present, Place, Dispatched, Inserted, OutsideWindows, WithPiece, Agrees, Count;
    var p := packets[j];
    var e := Entry(p.start, Blank(Count(p), memory));
    BlankMatches(e, p, sent, memory);
    InsertedKeeps(packets, sent, v, e, j);
    var u := Inserted(v, e);
    DispatchedInv(packets, sent, u);
    DispatchedKeeps(u, Place(v.received, v.entries, p.start));
    var w := Dispatched(u);
    WithPieceKeeps(packets, sent, w, j, i, |w.entries| + Place(v.received, v.entries, p.start) - |u.entries|);
  }

  lemma BlankMatches(e: Entry, p: Sent, sent: nat, memory: seq<uint8>)
    requires Sendable(p) && Fragmented(p) && |memory| == |p.data| && e == Entry(p.start, Blank(Count(p), memory))
    ensures Matches(e, p, sent) && e.body.remaining > 0
  {
    BlankAgrees(p, memory);
    CountCovers(p);
  }

  // ----- what a receiver with room accepts

  /** A whole packet that has been sent, lies ahead and inside the windows, is accepted and acknowledged, gap or no gap: if there
      is room, or if it is queued already. */
  lemma WholeAccepted(s: System, j: nat, memory: seq<uint8>, full: bool, maximumPacketSize: nat)
    requires Inv(s) && j < |s.packets| && !Fragmented(s.packets[j]) && s.receiver.received < s.packets[j].start <= s.sent
    requires |memory| == |s.packets[j].data| <= maximumPacketSize && !OutsideWindows(s.receiver.received, s.packets[j].start)
    requires !full || Accepted(s.receiver, s.packets[j].start)
    ensures Sendable(s.packets[j])
    ensures var n := s.packets[j].start;
            var r := Receives(s.receiver, s.packets[j], 0, memory, full, Connected, maximumPacketSize);
            r.ok && Accepted(r.receiver, n) && IsAcknowledged(r, n)
  {
    hide ReceiverInv, Accepted, Matches, SenderInv, Present, Place, Dispatched, Inserted, Unwire, Wire, OutsideWindows, YoungDatagram, FlowInv,
         IsAcknowledged;
    InvPackets(s);
    var v, p := s.receiver, s.packets[j];
    var n := p.start;
    AheadByWindows(s, n);
    if Accepted(v, n) {
      AcceptedPresent(s, j, n);
    }
    AheadBound(s, v);
    if Present(v, n) {
      PresentWhole(s, j);
      AheadAcknowledged(Reception(v, true), v, n);
    } else {
      var e := Entry(n, Whole(p.data));
      MatchesWhole(e, p, s.sent);
      InsertedKeeps(s.packets, s.sent, v, e, j);
      var u := Inserted(v, e);
      HasAccepted(u, Place(v.received, v.entries, n), n);
      DispatchedInv(s.packets, s.sent, u);
      AheadBound(s, Dispatched(u));
      AheadAcknowledged(Reception(Dispatched(u), true), v, n);
    }
  }

  /** A number that was inside the windows before is acknowledged, wherever the receiver has got to. */
  lemma AheadAcknowledged(r: Reception, v: Receiver, n: nat)
    requires r.ok && v.received <= r.receiver.received && v.received < n && !OutsideWindows(v.received, n)
    requires WindowOf(r.receiver.received) <= WindowOf(v.received) + FREE_RELIABLE_WINDOWS - 1
    ensures IsAcknowledged(r, n)
  {
    var R := r.receiver.received;
    WindowMonotone(v.received, R);
    WindowMonotone(v.received, n);
    if n >= R {
      UnwireUnique(R, n);
    } else {
      UnwireOld(R, n);
      assert WindowOf(n + SPACE) == WindowOf(n) + RELIABLE_WINDOWS;
    }
  }

  /** Under the invariant a receiver cannot get further in one step. */
  lemma AheadBound(s: System, w: Receiver)
    requires Inv(s) && ReceiverInv(s.packets, s.sent, w)
    ensures WindowOf(w.received) <= WindowOf(s.receiver.received) + FREE_RELIABLE_WINDOWS - 1
  {
    WindowMonotone(w.received, s.sent);
  }

  /** The entry that holds a number of a packet is that packet's. */
  lemma HolderOf(packets: seq<Sent>, sent: nat, v: Receiver, k: nat, j: nat, n: nat)
    requires ReceiverInv(packets, sent, v) && k < |v.entries| && HasNumber(v.entries[k], n)
    requires j < |packets| && packets[j].fragmentLength > 0 && packets[j].start <= n <= Last(packets[j])
    ensures v.entries[k].number == packets[j].start
  {
    hide Matches, Count, InOrder, Contiguous;
    var i := Behind(packets, sent, v, k);
    MatchesStart(v.entries[k], packets[i], sent);
    Widths(packets, i);
    if i < j {
      Later(packets, i, j);
    } else if j < i {
      Later(packets, j, i);
    }
  }

  /** What has a number of a packet ahead is queued under the packet's first number. */
  lemma AcceptedPresent(s: System, j: nat, n: nat)
    requires Inv(s) && j < |s.packets| && s.receiver.received < s.packets[j].start <= s.sent && s.packets[j].fragmentLength > 0
    requires s.packets[j].start <= n <= Last(s.packets[j]) && Accepted(s.receiver, n)
    ensures Present(s.receiver, s.packets[j].start)
  {
    hide ReceiverInv, Place, Present, Count, HasNumber, SenderInv, FlowInv;
    var v, start := s.receiver, s.packets[j].start;
    var k: nat :| k < |v.entries| && HasNumber(v.entries[k], n);
    HolderOf(s.packets, s.sent, v, k, j, n);
    AheadByWindows(s, start);
    PlaceOf(s.packets, s.sent, v, start);
    QueuedAt(s.packets, s.sent, v, k);
  }

  /** A fragment that has been sent, of a packet ahead and inside the windows, is accepted and acknowledged: if there is room for
      the packet, or if the packet is queued already. */
  lemma FragmentAccepted(s: System, j: nat, i: nat, memory: seq<uint8>, full: bool, maximumPacketSize: nat)
    requires Inv(s) && j < |s.packets| && Fragmented(s.packets[j]) && i < Count(s.packets[j]) && s.packets[j].start + i <= s.sent
    requires s.receiver.received < s.packets[j].start && |memory| == |s.packets[j].data| <= maximumPacketSize
    requires !OutsideWindows(s.receiver.received, s.packets[j].start) && !OutsideWindows(s.receiver.received, s.packets[j].start + i)
    requires !full || exists n :: s.packets[j].start <= n <= Last(s.packets[j]) && Accepted(s.receiver, n)
    ensures Sendable(s.packets[j])
    ensures var n := s.packets[j].start + i;
            var r := Receives(s.receiver, s.packets[j], i, memory, full, Connected, maximumPacketSize);
            r.ok && Accepted(r.receiver, n) && IsAcknowledged(r, n)
  {
    hide End, ReceiverInv, Accepted, Matches, SenderInv, Present, Place, Dispatched, Inserted, Unwire, WindowOf, YoungDatagram, FlowInv,
         WithPiece, WithFirst, Fits, Agrees, Count, IsAcknowledged, OutsideWindows;
    InvPackets(s);
    var v, p := s.receiver, s.packets[j];
    var n, f := p.start, Fragment(p, i);
    AheadByWindows(s, n);
    Partition(p, i);
    CountCovers(p);
    assert Plausible(f, maximumPacketSize);
    if exists m :: n <= m <= Last(p) && Accepted(v, m) {
      var m: nat :| n <= m <= Last(p) && Accepted(v, m);
      AcceptedPresent(s, j, m);
    }
    var w;
    if Present(v, n) {
      var k := Place(v.received, v.entries, n);
      PresentAt(s, n);
      WithPieceKeeps(s.packets, s.sent, v, j, i, k - 1);
      w := WithPiece(v, k - 1, f);
    } else {
      AheadNew(v, n);
      ReceivesFirst(s.packets, s.sent, v, j, i, memory);
      w := WithFirst(v, n, f, memory);
    }
    AheadBound(s, w);
    AheadAcknowledged(Reception(w, true), v, n + i);
  }

  lemma AheadNew(v: Receiver, n: nat)
    requires v.received < n && !OutsideWindows(v.received, n)
    ensures n != v.received
  {
  }

  // ----- the steps keep the invariant

  /** A number that is acknowledged was accepted, and does not lie in the windows whose acknowledgements are held back. */
  lemma AcknowledgedWasAccepted(s: System, r: Reception, n: nat)
    requires Inv(s) && Good(s.packets, s.sent, s.receiver, r, n) && 1 <= n <= s.sent && IsAcknowledged(r, n)
    ensures Accepted(r.receiver, n) && WindowOf(n) <= WindowOf(r.receiver.received) + FREE_RELIABLE_WINDOWS - 2
  {
    hide ReceiverInv, SenderInv;
    var R := r.receiver.received;
    WindowMonotone(s.receiver.received, R);
    if n > R {
      WindowMonotone(n, s.sent);
      UnwireUnique(R, n);
    } else {
      WindowMonotone(n, R);
    }
  }

  lemma ReceptionKeeps(s: System, r: Reception, n: nat)
    requires Inv(s) && Good(s.packets, s.sent, s.receiver, r, n) && 1 <= n <= s.sent
    ensures Inv(s.(receiver := r.receiver,
                   acknowledgements := if IsAcknowledged(r, n) then s.acknowledgements + {n} else s.acknowledgements))
    ensures Remembers(s.receiver, r.receiver)
  {
    hide ReceiverInv, Accepted, WindowOf, IsAcknowledged;
    if IsAcknowledged(r, n) {
      AcknowledgedWasAccepted(s, r, n);
    }
    WindowMonotone(s.receiver.received, r.receiver.received);
  }

  lemma DeliverKeeps(s: System, j: nat, i: nat, memory: seq<uint8>, full: bool, maximumPacketSize: nat)
    requires Inv(s) && Enabled(s, Deliver(j, i, memory, full, maximumPacketSize)) && Timely(s, Deliver(j, i, memory, full, maximumPacketSize))
    ensures Inv(After(s, Deliver(j, i, memory, full, maximumPacketSize)))
    ensures Remembers(s.receiver, After(s, Deliver(j, i, memory, full, maximumPacketSize)).receiver)
  {
    hide Receives, WindowOf, IsAcknowledged, Good, Inv, Remembers, Count, YoungDatagram;
    InvPackets(s);
    Widths(s.packets, j);
    if Fragmented(s.packets[j]) {
      ReceivesFragment(s, j, i, memory, full, Connected, maximumPacketSize);
    } else {
      WholeIndex(s.packets[j], i);
      ReceivesWhole(s, j, memory, full, maximumPacketSize);
    }
    ReceptionKeeps(s, Receives(s.receiver, s.packets[j], i, memory, full, Connected, maximumPacketSize), s.packets[j].start + i);
  }

  lemma WholeIndex(p: Sent, i: nat)
    requires p.fragmentLength > 0 && !Fragmented(p) && i < Count(p)
    ensures i == 0
  {
  }

  lemma SendStep(s: System, data: seq<uint8>, fragmentLength: nat)
    requires Inv(s) && Enabled(s, Send(data, fragmentLength))
    ensures Inv(After(s, Send(data, fragmentLength)))
  {
    hide ReceiverInv, Accepted, Count;
    InvPackets(s);
    var p := Sent(End(s.packets) + 1, data, fragmentLength);
    SendKeeps(s.packets, s.sent, s.receiver, p);
  }

  lemma SentGrows(packets: seq<Sent>, sent: nat, v: Receiver)
    requires ReceiverInv(packets, sent, v)
    ensures ReceiverInv(packets, sent + 1, v)
  {
  }

  /** The sender's mask of ten windows keeps everything outstanding within seven. */
  lemma TransmitWindows(s: System, m: nat)
    requires SenderInv(s) && MayStart(s.outstanding, s.sent + 1) && m in s.outstanding
    ensures WindowOf(m) + FREE_RELIABLE_WINDOWS - 2 >= WindowOf(s.sent + 1)
  {
  }

  /** Entering a window, some number of the one before has been acknowledged. */
  lemma SomeAcknowledged(s: System) returns (n: nat)
    requires SenderInv(s) && MayStart(s.outstanding, s.sent + 1)
    requires (s.sent + 1) % RELIABLE_WINDOW_SIZE == 0 && WindowOf(s.sent + 1) >= 2
    ensures n in s.acknowledgements && WindowOf(n) == WindowOf(s.sent + 1) - 1
  {
    hide WindowOf, InWindow, Numbers;
    var w := WindowOf(s.sent + 1) - 1;
    PreviousWindow(s.sent + 1, w);
    var base := w * RELIABLE_WINDOW_SIZE;
    var whole := Numbers(base, RELIABLE_WINDOW_SIZE);
    var inside := InWindow(s.outstanding, w % RELIABLE_WINDOWS);
    if whole <= s.outstanding {
      WholeWindow(s.outstanding, w);
      SubsetSize(whole, inside);
      assert false;
    }
    n :| n in whole && n !in s.outstanding;
    NumbersWindow(w, n);
  }

  lemma PreviousWindow(n: nat, w: nat)
    requires n % RELIABLE_WINDOW_SIZE == 0 && WindowOf(n) == w + 1
    ensures (w + 1) * RELIABLE_WINDOW_SIZE == n && (w + 1 + RELIABLE_WINDOWS - 1) % RELIABLE_WINDOWS == w % RELIABLE_WINDOWS
  {
  }

  lemma NumbersWindow(w: nat, n: nat)
    requires w * RELIABLE_WINDOW_SIZE <= n < w * RELIABLE_WINDOW_SIZE + RELIABLE_WINDOW_SIZE
    ensures WindowOf(n) == w
  {
  }

  lemma WholeWindow(outstanding: set<nat>, w: nat)
    requires Numbers(w * RELIABLE_WINDOW_SIZE, RELIABLE_WINDOW_SIZE) <= outstanding
    ensures Numbers(w * RELIABLE_WINDOW_SIZE, RELIABLE_WINDOW_SIZE) <= InWindow(outstanding, w % RELIABLE_WINDOWS)
  {
    forall n | n in Numbers(w * RELIABLE_WINDOW_SIZE, RELIABLE_WINDOW_SIZE)
      ensures WindowOf(n) == w
    {
      NumbersWindow(w, n);
    }
  }

  ghost function Numbers(base: nat, length: nat): (r: set<nat>)
    ensures forall n :: n in r <==> base <= n < base + length
    ensures |r| == length
  {
    if length == 0 then {} else Numbers(base, length - 1) + {base + length - 1}
  }

  lemma {:induction false} SubsetSize(x: set<nat>, y: set<nat>)
    requires x <= y
    ensures |x| <= |y|
  {
    if x != {} {
      var e :| e in x;
      SubsetSize(x - {e}, y - {e});
    }
  }

  lemma TransmitKeeps(s: System)
    requires Inv(s) && Enabled(s, Transmit)
    ensures Inv(After(s, Transmit))
  {
    hide ReceiverInv, Accepted, InWindow, MayStart;
    var n := s.sent + 1;
    SentGrows(s.packets, s.sent, s.receiver);
    forall m | m in s.outstanding
      ensures WindowOf(m) + FREE_RELIABLE_WINDOWS - 2 >= WindowOf(n)
    {
      TransmitWindows(s, m);
    }
    if n % RELIABLE_WINDOW_SIZE == 0 && WindowOf(n) >= 2 {
      var m := SomeAcknowledged(s);
    }
  }

  /** An acknowledgement's 16 bits pick out the one command it is for. */
  lemma AcknowledgeExact(s: System, n: nat, m: nat)
    requires Inv(s) && Enabled(s, Acknowledge(n)) && YoungAcknowledgement(s, n) && m in s.outstanding && Wire(m) == Wire(n)
    ensures m == n
  {
    hide ReceiverInv, Accepted;
    WireInjective(if m < n then m else n, m, n);
  }

  lemma AcknowledgeKeeps(s: System, n: nat)
    requires Inv(s) && Enabled(s, Acknowledge(n)) && YoungAcknowledgement(s, n)
    ensures Inv(After(s, Acknowledge(n)))
    ensures After(s, Acknowledge(n)).outstanding == s.outstanding - {n}
    ensures Accepted(s.receiver, n)
  {
    hide ReceiverInv, Accepted, Wire, YoungAcknowledgement;
    forall m | m in s.outstanding && Wire(m) == Wire(n)
      ensures m == n
    {
      AcknowledgeExact(s, n, m);
    }
  }

  lemma StepKeeps(s: System, step: Step)
    requires Inv(s) && Enabled(s, step) && Timely(s, step)
    ensures Inv(After(s, step))
  {
    hide Inv, Enabled, After;
    match step
    case Send(data, fragmentLength) => SendStep(s, data, fragmentLength);
    case Transmit => TransmitKeeps(s);
    case Deliver(j, i, memory, full, maximumPacketSize) => DeliverKeeps(s, j, i, memory, full, maximumPacketSize);
    case Acknowledge(n) => AcknowledgeKeeps(s, n);
  }

  // ----- whole runs

  /** A run of the system from its start. */
  ghost predicate IsRun(run: seq<System>, steps: seq<Step>) {
    && |run| == |steps| + 1 && run[0] == START
    && forall k :: 0 <= k < |steps| ==> Contiguous(run[k].packets) && Enabled(run[k], steps[k]) && run[k + 1] == After(run[k], steps[k])
  }

  ghost predicate AllTimely(run: seq<System>, steps: seq<Step>) {
    forall k :: 0 <= k < |steps| < |run| ==> Timely(run[k], steps[k])
  }

  lemma {:induction false} RunKeeps(run: seq<System>, steps: seq<Step>, k: nat)
    requires IsRun(run, steps) && AllTimely(run, steps) && k < |run|
    ensures Inv(run[k])
  {
    hide After, Enabled;
    if k > 0 {
      RunKeeps(run, steps, k - 1);
      StepKeeps(run[k - 1], steps[k - 1]);
    } else {
      StartInv();
    }
  }

  lemma StartInv()
    ensures Inv(START)
  {
  }

  /** In every run with a timely network, whatever it loses, repeats or reorders and however often numbers wrap, the
      packets delivered are the first packets sent, each once and in order. */
  lemma DeliveredInOrder(run: seq<System>, steps: seq<Step>, k: nat)
    requires IsRun(run, steps) && AllTimely(run, steps) && k < |run|
    ensures run[k].receiver.delivered <= Datas(run[k].packets)
  {
    RunKeeps(run, steps, k);
    var s := run[k];
    assert Datas(s.packets)[..|s.receiver.delivered|] == Datas(s.packets[..|s.receiver.delivered|]);
  }

  /** In every run, a command leaves the sender's queues only when its receiver has it. */
  lemma AcknowledgedImpliesAccepted(run: seq<System>, steps: seq<Step>, k: nat, n: nat)
    requires IsRun(run, steps) && AllTimely(run, steps) && k < |steps| && n in run[k].outstanding && n !in run[k + 1].outstanding
    ensures Accepted(run[k + 1].receiver, n)
  {
    hide Accepted;
    RunKeeps(run, steps, k);
    match steps[k]
    case Acknowledge(m) => AcknowledgeKeeps(run[k], m);
    case _ =>
  }

  /** In every run the sender is at most seven windows ahead of the receiver, and what is outstanding spans seven. */
  lemma WithinSevenWindows(run: seq<System>, steps: seq<Step>, k: nat)
    requires IsRun(run, steps) && AllTimely(run, steps) && k < |run|
    ensures WindowOf(run[k].sent) <= WindowOf(run[k].receiver.received) + FREE_RELIABLE_WINDOWS - 1
    ensures forall n :: n in run[k].outstanding ==> WindowOf(n) + FREE_RELIABLE_WINDOWS - 2 >= WindowOf(run[k].sent)
  {
    RunKeeps(run, steps, k);
  }

  /** ... so that a step moves the receiver on by seven windows at most, and never back. */
  lemma PositionMoves(run: seq<System>, steps: seq<Step>, k: nat)
    requires IsRun(run, steps) && AllTimely(run, steps) && k < |steps|
    ensures run[k].receiver.received <= run[k + 1].receiver.received
    ensures WindowOf(run[k + 1].receiver.received) <= WindowOf(run[k].receiver.received) + FREE_RELIABLE_WINDOWS - 1
  {
    hide Accepted, Contiguous, Receives, IsAcknowledged, WindowOf, Queued, InOrder;
    RunKeeps(run, steps, k);
    RunKeeps(run, steps, k + 1);
    match steps[k]
    case Deliver(j, i, memory, full, maximumPacketSize) =>
      DeliverKeeps(run[k], j, i, memory, full, maximumPacketSize);
      WindowMonotone(run[k + 1].receiver.received, run[k].sent);
    case _ =>
  }

  // ----- nothing complete is held back

  ghost predicate Eager(v: Receiver) {
    v.entries == [] || !Due(v.received, v.entries[0])
  }

  lemma {:induction false} DispatchedEager(v: Receiver)
    ensures Eager(Dispatched(v))
    decreases |v.entries|
  {
    if v.entries != [] && Due(v.received, v.entries[0]) {
      DispatchedEager(Delivered(v));
    }
  }

  lemma WithPieceEager(v: Receiver, k: nat, p: Piece)
    requires Eager(v) && k < |v.entries|
    requires p.index < |v.entries[k].body.have| && p.offset + |p.data| <= |v.entries[k].body.data|
    ensures Eager(WithPiece(v, k, p))
  {
    DispatchedEager(Placed(v, k, p));
    if v.entries[k].body.have[p.index] {
      assert Placed(v, k, p).entries == v.entries;
    }
  }

  lemma ReceivesEager(v: Receiver, p: Sent, i: nat, memory: seq<uint8>, full: bool, state: PeerState, maximumPacketSize: nat)
    requires Sendable(p) && i < Count(p) && |memory| == |p.data| && Eager(v)
    ensures Eager(Receives(v, p, i, memory, full, state, maximumPacketSize).receiver)
  {
    hide Place, Dispatched, WithPiece, Eager, Inserted, OutsideWindows, Count, Wire, Unwire;
    var start := Unwire(v.received, Wire(p.start));
    var k := Place(v.received, v.entries, start);
    if Fragmented(p) {
      var f := Fragment(p, i);
      if Present(v, start) && Fits(f, v.entries[k - 1].body) && f.index < |v.entries[k - 1].body.have| {
        WithPieceEager(v, k - 1, f);
      }
      var e := Entry(start, Blank(f.count, memory));
      var u := Inserted(v, e);
      InsertedAt(v, e);
      DispatchedKeeps(u, k);
      DispatchedEager(u);
      var w := Dispatched(u);
      WithPieceEager(w, |w.entries| + k - |u.entries|, f);
    } else {
      DispatchedEager(Inserted(v, Entry(start, Whole(p.data))));
    }
  }

  lemma StepEager(s: System, step: Step)
    requires Contiguous(s.packets) && Enabled(s, step) && Eager(s.receiver)
    ensures Eager(After(s, step).receiver)
  {
    hide Receives, Eager, Contiguous, Count, YoungDatagram;
    match step
    case Deliver(j, i, memory, full, maximumPacketSize) =>
      Widths(s.packets, j);
      ReceivesEager(s.receiver, s.packets[j], i, memory, full, Connected, maximumPacketSize);
    case _ =>
  }

  lemma {:induction false} RunEager(run: seq<System>, steps: seq<Step>, k: nat)
    requires IsRun(run, steps) && k < |run|
    ensures Eager(run[k].receiver)
  {
    hide After, Enabled, Eager, Contiguous;
    if k > 0 {
      RunEager(run, steps, k - 1);
      StepEager(run[k - 1], steps[k - 1]);
    } else {
      StartEager();
    }
  }

  lemma StartEager()
    ensures Eager(START.receiver)
  {
  }

  /** The entry that holds a number of the next packet is the first one, and is that packet's. */
  lemma NextHolds(packets: seq<Sent>, sent: nat, v: Receiver, n: nat)
    requires ReceiverInv(packets, sent, v) && |v.delivered| < |packets| && Accepted(v, n)
    requires packets[|v.delivered|].fragmentLength > 0 && packets[|v.delivered|].start <= n <= Last(packets[|v.delivered|])
    ensures v.entries != [] && HasNumber(v.entries[0], n) && v.entries[0].number == v.received + 1
    ensures Matches(v.entries[0], packets[|v.delivered|], sent)
  {
    hide Matches, Count, InOrder, Contiguous;
    var d := |v.delivered|;
    Boundary(packets, v, d);
    var k :| 0 <= k < |v.entries| && HasNumber(v.entries[k], n);
    var j := Behind(packets, sent, v, k);
    MatchesStart(v.entries[k], packets[j], sent);
    Boundary(packets, v, j);
    Widths(packets, j);
    if d < j {
      Later(packets, d, j);
    } else if j < d {
      Later(packets, j, d);
    }
    if k > 0 {
      var x := Behind(packets, sent, v, 0);
    }
  }

  /** In every run, once every command sent has been accepted, every packet has been delivered. */
  lemma AllAcceptedAllDelivered(run: seq<System>, steps: seq<Step>, k: nat)
    requires IsRun(run, steps) && AllTimely(run, steps) && k < |run| && Contiguous(run[k].packets)
    requires forall n :: 1 <= n <= End(run[k].packets) ==> Accepted(run[k].receiver, n)
    ensures run[k].receiver.delivered == Datas(run[k].packets)
  {
    hide Accepted, Agrees, Contiguous, Count, IsRun, Matches;
    RunKeeps(run, steps, k);
    RunEager(run, steps, k);
    var s := run[k];
    var v, d := s.receiver, |s.receiver.delivered|;
    if d < |s.packets| {
      NextStands(s.packets, s.sent, v);
    }
    assert s.packets[..d] == s.packets;
  }

  lemma EndIsLast(packets: seq<Sent>, j: nat)
    requires Contiguous(packets) && j < |packets|
    ensures 1 <= packets[j].start && Last(packets[j]) <= End(packets)
  {
    Widths(packets, j);
    Widths(packets, |packets| - 1);
    if j < |packets| - 1 {
      Later(packets, j, |packets| - 1);
    }
  }

  lemma NextStands(packets: seq<Sent>, sent: nat, v: Receiver)
    requires ReceiverInv(packets, sent, v) && |v.delivered| < |packets| && Eager(v)
    ensures exists n :: 1 <= n <= End(packets) && !Accepted(v, n)
  {
    hide Accepted, ReceiverInv, Count;
    assert Contiguous(packets) by { ReceiverContiguous(packets, sent, v); }
    var d := |v.delivered|;
    var p := packets[d];
    Widths(packets, d);
    EndIsLast(packets, d);
    if forall n :: 1 <= n <= End(packets) ==> Accepted(v, n) {
      NextHolds(packets, sent, v, p.start);
      if Fragmented(p) {
        forall i | 0 <= i < Count(p)
          ensures v.entries[0].body.have[i]
        {
          NextHolds(packets, sent, v, p.start + i);
        }
        MissingNone(v.entries[0].body.have);
      }
    }
  }

  lemma ReceiverContiguous(packets: seq<Sent>, sent: nat, v: Receiver)
    requires ReceiverInv(packets, sent, v)
    ensures Contiguous(packets)
  {
  }

  // ----- the receiver's program takes these steps

  /** One reliable command of a datagram, from its handler to the decision to acknowledge it. */
  method ReceiveCommand(c: Channel, ghost p: Sent, ghost i: nat, number: uint16, fragmented: bool, startSequenceNumber: uint16,
                        piece: Piece, memory: seq<uint8>, full: bool, state: PeerState, maximumPacketSize: nat)
    returns (acknowledged: bool)
    requires c.Valid() && Sendable(p) && i < Count(p) && |memory| == |p.data|
    requires number == Wire(p.start + i) && startSequenceNumber == Wire(p.start) && fragmented == Fragmented(p)
    requires piece == if Fragmented(p) then Fragment(p, i) else Piece(0, 1, 0, |p.data|, p.data)
    modifies c
    ensures c.Valid()
    ensures var r := Receives(old(c.view), p, i, memory, full, state, maximumPacketSize);
            c.view == r.receiver && acknowledged == IsAcknowledged(r, p.start + i)
  {
    hide AfterWhole, AfterFragment, Acknowledges, Wire, Unwire, Count;
    ghost var start := Unwire(c.view.received, startSequenceNumber);
    var ok;
    if fragmented {
      ok := c.HandleSendFragment(startSequenceNumber, piece, memory, full, state, maximumPacketSize, start);
    } else {
      WholeIndex(p, i);
      ok := c.HandleSendReliable(number, piece.data, full, state, maximumPacketSize, start);
    }
    acknowledged := false;
    if ok {
      acknowledged := c.QueueAcknowledgement(number, Unwire(c.view.received, number));
    }
  }
}
