/** Where the guarantees of reliable delivery end: a peer that is disconnecting, and datagrams that arrive too late. */
module ReliableLimits {
  import opened Integers
  import opened SequenceNumbers
  import opened PeerStates
  import opened Reassembly
  import opened ReliableReceiver
  import opened Fragmentation
  import opened ReliableDelivery

  /** A peer that is disconnecting later acknowledges a whole packet without keeping it. */
  lemma LaterAcknowledgesWhatItDrops()
    ensures var v, p := Receiver(0, [], []), Sent(1, [7], 1000);
            var r := Receives(v, p, 0, [0], false, DisconnectLater, 1000);
            IsAcknowledged(r, 1) && !Accepted(r.receiver, 1)
  {
  }

  /** It does so for a packet that it does not have, exactly if the packet is less than seven windows ahead. */
  lemma LaterWhole(s: System, j: nat, memory: seq<uint8>, full: bool, maximumPacketSize: nat)
    requires Inv(s) && j < |s.packets| && !Fragmented(s.packets[j]) && s.packets[j].start <= s.sent
    requires |memory| == |s.packets[j].data| <= maximumPacketSize
    ensures Sendable(s.packets[j])
    ensures var v, n := s.receiver, s.packets[j].start;
            var r := Receives(v, s.packets[j], 0, memory, full, DisconnectLater, maximumPacketSize);
            IsAcknowledged(r, n) && !Accepted(r.receiver, n) <==>
              !Accepted(v, n) && WindowOf(n) < WindowOf(v.received) + FREE_RELIABLE_WINDOWS - 1
  {
    hide ReceiverInv, SenderInv, Wire, Unwire, WindowOf;
    InvPackets(s);
    if s.receiver.received < s.packets[j].start {
      AheadByWindows(s, s.packets[j].start);
    }
  }

  /** ... whereas for fragments it means acceptance in every state. */
  lemma LaterFragment(s: System, j: nat, i: nat, memory: seq<uint8>, full: bool, state: PeerState, maximumPacketSize: nat)
    requires Inv(s) && j < |s.packets| && Fragmented(s.packets[j]) && i < Count(s.packets[j])
    requires 1 <= s.packets[j].start + i <= s.sent && |memory| == |s.packets[j].data| && YoungDatagram(s.receiver, s.packets[j])
    ensures Sendable(s.packets[j])
    ensures var n := s.packets[j].start + i;
            var r := Receives(s.receiver, s.packets[j], i, memory, full, state, maximumPacketSize);
            IsAcknowledged(r, n) ==> Accepted(r.receiver, n)
  {
    hide Receives, IsAcknowledged, Accepted, Inv;
    InvPackets(s);
    ReceivesFragment(s, j, i, memory, full, state, maximumPacketSize);
    var r := Receives(s.receiver, s.packets[j], i, memory, full, state, maximumPacketSize);
    if IsAcknowledged(r, s.packets[j].start + i) {
      AcknowledgedWasAccepted(s, r, s.packets[j].start + i);
    }
  }

  /** A delivered packet is recognised as old exactly while it starts at most nine windows back. */
  lemma RecognisedAsOld(v: Receiver, p: Sent)
    requires p.start < v.received <= p.start + SPACE
    ensures OutsideWindows(v.received, Unwire(v.received, Wire(p.start))) <==> YoungDatagram(v, p)
  {
    OldLooksFar(v.received, p.start);
  }

  /** Retransmissions are never too old for that, as long as no packet spans more than three windows. */
  lemma RetransmissionsAreYoung(s: System, j: nat, i: nat)
    requires Inv(s) && j < |s.packets| && i < Count(s.packets[j]) <= 3 * RELIABLE_WINDOW_SIZE
    requires s.packets[j].start + i in s.outstanding
    ensures YoungDatagram(s.receiver, s.packets[j])
  {
    hide Accepted, Agrees;
    WindowMonotone(s.receiver.received, s.sent);
  }

  // ----- a run that loses a packet

  /** The weaker assumption that a datagram, by its own number, is less than ten windows old when it arrives. */
  ghost predicate Recent(s: System, step: Step) {
    match step
    case Deliver(j, i, _, _, _) => j < |s.packets| ==> WindowOf(s.packets[j].start + i) + 9 >= WindowOf(s.receiver.received)
    case Acknowledge(n) => YoungAcknowledgement(s, n)
    case _ => true
  }

  ghost predicate IsRecentRun(run: seq<System>, steps: seq<Step>) {
    IsRun(run, steps) && forall k :: 0 <= k < |steps| ==> Recent(run[k], steps[k])
  }

  lemma Extended(run: seq<System>, steps: seq<Step>, step: Step) returns (longer: seq<System>, more: seq<Step>)
    requires IsRecentRun(run, steps) && Contiguous(run[|steps|].packets) && Enabled(run[|steps|], step) && Recent(run[|steps|], step)
    ensures IsRecentRun(longer, more) && |longer| == |more| + 1 && longer[|more|] == After(run[|steps|], step)
    ensures AllTimely(run, steps) && Timely(run[|steps|], step) ==> AllTimely(longer, more)
  {
    hide Contiguous, Enabled, After, Recent, Timely;
    longer, more := run + [After(run[|steps|], step)], steps + [step];
  }

  const LIMIT := 32 * 1024 * 1024

  /** A packet after its first i fragments have come in order. */
  ghost function Partly(p: Sent, i: nat): (b: Body)
    requires Sendable(p) && Fragmented(p) && i <= Count(p)
    ensures Agrees(b, p) && forall k :: 0 <= k < Count(p) ==> (b.have[k] <==> k < i)
  {
    if i == 0 then
      BlankAgrees(p, p.data);
      Blank(Count(p), p.data)
    else
      var b := Partly(p, i - 1);
      FilledAgrees(b, p, i - 1);
      Filled(b, Fragment(p, i - 1))
  }

  lemma PartlyRemains(p: Sent, i: nat)
    requires Sendable(p) && Fragmented(p) && i <= Count(p)
    ensures Partly(p, i).remaining == 0 <==> i == Count(p)
    ensures Partly(p, i).remaining == 0 ==> Partly(p, i).data == p.data
    ensures 2 <= Count(p)
  {
    CountCovers(p);
    MissingNone(Partly(p, i).have);
    if i < Count(p) {
      assert !Partly(p, i).have[i];
    } else {
      Reassembled(Partly(p, i), p);
    }
  }

  /** What may be queued behind the packet that is coming: nothing, or one incomplete packet. */
  ghost predicate QueuedBehind(received: nat, entries: seq<Entry>) {
    entries == [] || (|entries| == 1 && received + 1 < entries[0].number < received + SPACE && entries[0].body.remaining > 0)
  }

  ghost function Receiving(p: Sent, i: nat, entries: seq<Entry>, delivered: seq<seq<uint8>>): Receiver
    requires Sendable(p) && Fragmented(p) && i <= Count(p) && p.start >= 1
  {
    if i == 0 then Receiver(p.start - 1, entries, delivered)
    else if i < Count(p) then Receiver(p.start - 1, [Entry(p.start, Partly(p, i))] + entries, delivered)
    else Receiver(Last(p), entries, delivered + [p.data])
  }

  lemma StandsFirst(v: Receiver, entries: seq<Entry>, n: nat)
    requires QueuedBehind(v.received, entries) && n == v.received + 1
    ensures v.entries == entries ==> Place(v.received, v.entries, n) == 0
    ensures forall b :: v.entries == [Entry(n, b)] + entries ==> Place(v.received, v.entries, n) == 1
  {
    DistanceNear(v.received, n);
    if entries != [] {
      DistanceNear(v.received, entries[0].number);
      assert entries[..0] == [];
    }
    forall b | v.entries == [Entry(n, b)] + entries
      ensures Place(v.received, v.entries, n) == 1
    {
      if entries != [] {
        assert v.entries[..1] == [Entry(n, b)];
      }
    }
  }

  lemma NextStart(p: Sent, v: Receiver)
    requires p.start == v.received + 1
    ensures Unwire(v.received, Wire(p.start)) == p.start && !OutsideWindows(v.received, p.start) && Wire(p.start) != Wire(v.received)
  {
    UnwireUnique(v.received, p.start);
  }

  /** An incomplete packet in front holds the queue up. */
  lemma HeldUp(v: Receiver)
    requires v.entries == [] || v.entries[0].body.remaining > 0
    ensures Dispatched(v) == v
  {
  }

  lemma BehindHolds(received: nat, entries: seq<Entry>)
    requires QueuedBehind(received, entries)
    ensures entries == [] || entries[0].body.remaining > 0
  {
  }

  lemma FirstFragment(p: Sent, entries: seq<Entry>, delivered: seq<seq<uint8>>)
    requires Sendable(p) && Fragmented(p) && p.start >= 1 && 2 <= Count(p) && QueuedBehind(p.start - 1, entries)
    ensures var v := Receiver(p.start - 1, entries, delivered);
            && !Present(v, p.start)
            && WithFirst(v, p.start, Fragment(p, 0), p.data) == Receiver(p.start - 1, [Entry(p.start, Partly(p, 1))] + entries, delivered)
  {
    hide Wire, Count, Filled, Blank, Dispatched;
    var v, f := Receiver(p.start - 1, entries, delivered), Fragment(p, 0);
    StandsFirst(v, entries, p.start);
    var b := Partly(p, 0);
    PartlyRemains(p, 0);
    PartlyRemains(p, 1);
    assert b == Blank(Count(p), p.data) && Partly(p, 1) == Filled(b, f);
    var u := Inserted(v, Entry(p.start, b));
    assert u.entries == [Entry(p.start, b)] + entries;
    HeldUp(u);
    assert Placed(u, 0, f).entries == [Entry(p.start, Partly(p, 1))] + entries;
  }

  lemma AnotherFragment(p: Sent, i: nat, entries: seq<Entry>, delivered: seq<seq<uint8>>)
    requires Sendable(p) && Fragmented(p) && p.start >= 1 && 0 < i < Count(p) && QueuedBehind(p.start - 1, entries)
    ensures var v := Receiver(p.start - 1, [Entry(p.start, Partly(p, i))] + entries, delivered);
            && Place(v.received, v.entries, p.start) == 1 && Present(v, p.start) && Fits(Fragment(p, i), v.entries[0].body)
            && i < |v.entries[0].body.have|
            && WithPiece(v, 0, Fragment(p, i)) == Receiving(p, i + 1, entries, delivered)
  {
    hide Wire, Count, Filled, Dispatched, Place, Agrees;
    var v, f := Receiver(p.start - 1, [Entry(p.start, Partly(p, i))] + entries, delivered), Fragment(p, i);
    StandsFirst(v, entries, p.start);
    PresentPlace(v, p.start);
    var b := Partly(p, i);
    PartlyFits(p, i);
    PartlyRemains(p, i + 1);
    assert Partly(p, i + 1) == Filled(b, f);
    var u := Placed(v, 0, f);
    assert u.entries == [Entry(p.start, Partly(p, i + 1))] + entries;
    if i + 1 == Count(p) {
      CompletesFirst(u, p, entries, delivered);
    }
  }

  lemma PartlyFits(p: Sent, i: nat)
    requires Sendable(p) && Fragmented(p) && i < Count(p)
    ensures Fits(Fragment(p, i), Partly(p, i)) && i < |Partly(p, i).have| && !Partly(p, i).have[i]
  {
  }

  lemma CompletesFirst(u: Receiver, p: Sent, entries: seq<Entry>, delivered: seq<seq<uint8>>)
    requires Sendable(p) && Fragmented(p) && p.start >= 1 && QueuedBehind(p.start - 1, entries)
    requires u == Receiver(p.start - 1, [Entry(p.start, Partly(p, Count(p)))] + entries, delivered)
    ensures Dispatched(u) == Receiver(Last(p), entries, delivered + [p.data])
  {
    hide Wire, Partly;
    PartlyRemains(p, Count(p));
    var w := Delivered(u);
    assert w == Receiver(Last(p), entries, delivered + [p.data]);
    BehindHolds(p.start - 1, entries);
    HeldUp(w);
  }

  /** The next fragment of the packet that is coming. */
  lemma NextFragment(p: Sent, i: nat, entries: seq<Entry>, delivered: seq<seq<uint8>>)
    requires Sendable(p) && Fragmented(p) && i < Count(p) && p.start >= 1 && |p.data| <= LIMIT
    requires QueuedBehind(p.start - 1, entries)
    ensures Receives(Receiving(p, i, entries, delivered), p, i, p.data, false, Connected, LIMIT)
            == Reception(Receiving(p, i + 1, entries, delivered), true)
  {
    hide Place, QueuedBehind, Wire, Unwire, Count, Partly, OutsideWindows, Present, WithFirst, WithPiece, Fits;
    var v, f := Receiving(p, i, entries, delivered), Fragment(p, i);
    NextStart(p, v);
    CountCovers(p);
    Partition(p, i);
    assert Plausible(f, LIMIT);
    if i == 0 {
      FirstFragment(p, entries, delivered);
    } else {
      AnotherFragment(p, i, entries, delivered);
    }
  }

  // ----- the sender's side of it

  /** The system while a packet passes, from s on: i fragments are transmitted, delivered and, all but one, acknowledged. */
  ghost function Passing(s: System, p: Sent, i: nat, lost: nat): System
    requires Sendable(p) && Fragmented(p) && i <= Count(p) && p.start >= 1
  {
    s.(sent := s.sent + i,
       outstanding := s.outstanding + (if p.start <= lost < p.start + i then {lost} else {}),
       acknowledgements := s.acknowledgements + Numbers(p.start, i),
       receiver := Receiving(p, i, s.receiver.entries, s.receiver.delivered))
  }

  /** Everything sent is delivered, and p comes next, of which m fragments are less than seven windows ahead. */
  ghost predicate Ahead(s: System, p: Sent, lost: nat, m: nat) {
    var last := p.start + m - 1;
    && Contiguous(s.packets) && s.packets != [] && s.packets[|s.packets| - 1] == p && Sendable(p) && Fragmented(p) && p.start >= 1
    && |p.data| <= LIMIT && s.sent == s.receiver.received == p.start - 1
    && QueuedBehind(p.start - 1, s.receiver.entries)
    && m <= Count(p) && WindowOf(last) < WindowOf(p.start - 1) + FREE_RELIABLE_WINDOWS - 1
    && s.outstanding <= {lost} && (s.outstanding == {lost} ==> lost < p.start)
    && (s.outstanding == {lost} || p.start <= lost <= last ==> 1 <= lost <= last && WindowOf(last) <= WindowOf(lost) + 6)
  }

  lemma MayStartAlone(outstanding: set<nat>, lost: nat, n: nat)
    requires outstanding <= {lost} && (lost in outstanding ==> lost < n && WindowOf(n) <= WindowOf(lost) + 6)
    ensures MayStart(outstanding, n)
  {
    var w := (WindowOf(n) + RELIABLE_WINDOWS - 1) % RELIABLE_WINDOWS;
    SubsetSize(InWindow(outstanding, w), {lost});
    if lost in outstanding && n % RELIABLE_WINDOW_SIZE == 0 {
      WindowsApart(lost, n);
    }
  }

  lemma WindowsApart(m: nat, n: nat)
    requires m < n && WindowOf(n) <= WindowOf(m) + 6 && n % RELIABLE_WINDOW_SIZE == 0
    ensures (WindowOf(m) - WindowOf(n)) % RELIABLE_WINDOWS >= FREE_RELIABLE_WINDOWS + 2
  {
  }

  lemma MayStartAhead(s: System, p: Sent, i: nat, lost: nat, m: nat)
    requires Ahead(s, p, lost, m) && i < m
    ensures MayStart(Passing(s, p, i, lost).outstanding, p.start + i)
  {
    hide WindowOf, MayStart, Contiguous, QueuedBehind, Count;
    WindowMonotone(p.start + i, p.start + m - 1);
    MayStartAlone(Passing(s, p, i, lost).outstanding, lost, p.start + i);
  }

  lemma EndOfLast(packets: seq<Sent>)
    requires Contiguous(packets) && packets != []
    ensures End(packets) == Last(packets[|packets| - 1])
  {
  }

  lemma Transmitted(s: System, p: Sent, i: nat, lost: nat, m: nat)
    requires Ahead(s, p, lost, m) && i < m
    ensures Contiguous(Passing(s, p, i, lost).packets) && Enabled(Passing(s, p, i, lost), Transmit)
    ensures var y := After(Passing(s, p, i, lost), Transmit);
            && y == Passing(s, p, i, lost).(sent := p.start + i, outstanding := Passing(s, p, i, lost).outstanding + {p.start + i})
            && y.packets == s.packets && y.receiver == Receiving(p, i, s.receiver.entries, s.receiver.delivered)
  {
    hide WindowOf, MayStart, Contiguous, QueuedBehind, Count;
    EndOfLast(s.packets);
    MayStartAhead(s, p, i, lost, m);
  }

  /** ... and acknowledged. */
  lemma AcknowledgedAhead(p: Sent, i: nat, entries: seq<Entry>, delivered: seq<seq<uint8>>)
    requires Sendable(p) && Fragmented(p) && i < Count(p) && p.start >= 1
    requires WindowOf(p.start + i) < WindowOf(p.start - 1) + FREE_RELIABLE_WINDOWS - 1
    ensures IsAcknowledged(Reception(Receiving(p, i + 1, entries, delivered), true), p.start + i)
  {
    hide Count, Partly, WindowOf;
    var v, n := Receiving(p, i + 1, entries, delivered), p.start + i;
    SevenWindows(p.start - 1, n);
    UnwireUnique(v.received, n);
  }

  lemma SevenWindows(m: nat, n: nat)
    requires m <= n && WindowOf(n) < WindowOf(m) + FREE_RELIABLE_WINDOWS - 1
    ensures n < m + SPACE
  {
  }

  lemma Arrived(s: System, x: System, p: Sent, i: nat, lost: nat, m: nat)
    requires Ahead(s, p, lost, m) && i < m
    requires x == Passing(s, p, i, lost).(sent := p.start + i, outstanding := Passing(s, p, i, lost).outstanding + {p.start + i})
    ensures var step := Deliver(|s.packets| - 1, i, p.data, false, LIMIT);
            && Enabled(x, step) && Recent(x, step) && Timely(x, step)
            && After(x, step) == Passing(s, p, i + 1, lost).(outstanding := x.outstanding)
  {
    hide WindowOf, MayStart, Contiguous, QueuedBehind, Count, Receives, Receiving, IsAcknowledged, Ahead, Numbers;
    AheadPackets(s, p, lost, m);
    NextFragment(p, i, s.receiver.entries, s.receiver.delivered);
    WindowMonotone(p.start + i, p.start + m - 1);
    AcknowledgedAhead(p, i, s.receiver.entries, s.receiver.delivered);
    ReceivingAt(p, i, s.receiver.entries, s.receiver.delivered);
    NumbersNext(s.acknowledgements, p.start, i);
  }

  lemma NumbersNext(a: set<nat>, base: nat, length: nat)
    ensures a + Numbers(base, length + 1) == a + Numbers(base, length) + {base + length}
  {
  }

  lemma ReceivingAt(p: Sent, i: nat, entries: seq<Entry>, delivered: seq<seq<uint8>>)
    requires Sendable(p) && Fragmented(p) && i < Count(p) && p.start >= 1
    ensures Receiving(p, i, entries, delivered).received == p.start - 1
    ensures WindowOf(p.start + i) >= WindowOf(p.start) >= WindowOf(p.start - 1)
  {
    WindowMonotone(p.start - 1, p.start);
    WindowMonotone(p.start, p.start + i);
  }

  lemma Settled(s: System, x: System, p: Sent, i: nat, lost: nat, m: nat)
    requires Ahead(s, p, lost, m) && i < m && p.start + i != lost
    requires x == Passing(s, p, i + 1, lost).(outstanding := Passing(s, p, i, lost).outstanding + {p.start + i})
    ensures var step := Acknowledge(p.start + i);
            && Enabled(x, step) && Recent(x, step) && After(x, step) == Passing(s, p, i + 1, lost)
  {
    hide WindowOf, MayStart, Contiguous, QueuedBehind, Count, Passing, Ahead, Wire;
    var n := p.start + i;
    AheadPackets(s, p, lost, m);
    PassingOutstanding(s, p, i, lost, m);
    WindowMonotone(n, x.sent);
    Without(Passing(s, p, i, lost).outstanding, n);
  }

  lemma PassingOutstanding(s: System, p: Sent, i: nat, lost: nat, m: nat)
    requires Ahead(s, p, lost, m) && i < m && p.start + i != lost
    ensures var x, y, n := Passing(s, p, i, lost), Passing(s, p, i + 1, lost), p.start + i;
            && y.outstanding == x.outstanding && y.sent == n && n in y.acknowledgements && y.packets == s.packets
            && forall m :: m in x.outstanding ==> Wire(m) != Wire(n)
  {
    hide WindowOf, MayStart, Contiguous, QueuedBehind, Count, Receiving, Wire;
    var n := p.start + i;
    if lost in Passing(s, p, i, lost).outstanding {
      LostApart(p.start, p.start + m - 1, lost, n);
    }
  }

  lemma Without(o: set<nat>, n: nat)
    requires forall m :: m in o ==> Wire(m) != Wire(n)
    ensures (set m: nat | m in o + {n} && Wire(m) != Wire(n)) == o
  {
  }

  lemma LostApart(start: nat, last: nat, lost: nat, n: nat)
    requires 1 <= start <= n <= last && lost <= last && lost != n
    requires WindowOf(last) <= WindowOf(lost) + 6 && WindowOf(last) < WindowOf(start - 1) + FREE_RELIABLE_WINDOWS - 1
    ensures Wire(lost) != Wire(n)
  {
    if Wire(lost) == Wire(n) {
      WireInjective(if lost < n then lost else n, lost, n);
    }
  }

  lemma AheadPackets(s: System, p: Sent, lost: nat, m: nat)
    requires Ahead(s, p, lost, m)
    ensures Contiguous(s.packets) && s.packets != [] && s.packets[|s.packets| - 1] == p && Sendable(p) && Fragmented(p) && p.start >= 1
    ensures |p.data| <= LIMIT && s.sent == p.start - 1 && QueuedBehind(p.start - 1, s.receiver.entries)
    ensures m <= Count(p) && WindowOf(p.start + m - 1) < WindowOf(p.start - 1) + FREE_RELIABLE_WINDOWS - 1
  {
  }

  /** The rest of m fragments passes. */
  lemma {:induction false} Passes(run: seq<System>, steps: seq<Step>, s: System, p: Sent, i: nat, lost: nat, m: nat)
    returns (longer: seq<System>, more: seq<Step>)
    requires Ahead(s, p, lost, m) && i <= m && IsRecentRun(run, steps) && |run| == |steps| + 1
    requires run[|steps|] == Passing(s, p, i, lost)
    ensures IsRecentRun(longer, more) && |longer| == |more| + 1 && longer[|more|] == Passing(s, p, m, lost)
    ensures AllTimely(run, steps) ==> AllTimely(longer, more)
    decreases m - i
  {
    hide IsRecentRun, Ahead, Receiving, Enabled, After, Contiguous, Count, Numbers, WindowOf;
    AheadPackets(s, p, lost, m);
    longer, more := run, steps;
    if i < m {
      Transmitted(s, p, i, lost, m);
      longer, more := Extended(run, steps, Transmit);
      Arrived(s, longer[|more|], p, i, lost, m);
      longer, more := Extended(longer, more, Deliver(|s.packets| - 1, i, p.data, false, LIMIT));
      if p.start + i != lost {
        Settled(s, longer[|more|], p, i, lost, m);
        longer, more := Extended(longer, more, Acknowledge(p.start + i));
      }
      longer, more := Passes(longer, more, s, p, i + 1, lost, m);
    }
  }

  // ----- the run

  /** A packet of so many fragments, as an mtu of 576 cuts them. */
  function Long(start: nat, count: nat): Sent {
    Sent(start, seq(count * 548, _ => 0), 548)
  }

  lemma LongSizes(start: nat, count: nat)
    requires 2 <= count <= 30000
    ensures var p := Long(start, count);
            && p.start == start && p.fragmentLength == 548 && p == Sent(start, p.data, 548)
            && Sendable(p) && Fragmented(p) && Count(p) == count && Last(p) == start + count - 1 && |p.data| <= LIMIT
  {
  }

  lemma ContiguousMore(packets: seq<Sent>, p: Sent)
    requires Contiguous(packets) && Sendable(p) && p.start == End(packets) + 1
    ensures Contiguous(packets + [p]) && End(packets + [p]) == Last(p)
  {
    var more := packets + [p];
    forall j | 0 <= j < |more|
      ensures more[j].start == End(more[..j]) + 1
    {
      assert more[..j] == packets[..j];
    }
  }

  /** Sends a long packet and lets it pass. */
  lemma PassesLong(run: seq<System>, steps: seq<Step>, x: System, count: nat, lost: nat)
    returns (longer: seq<System>, more: seq<Step>)
    requires IsRecentRun(run, steps) && |run| == |steps| + 1 && run[|steps|] == x && 2 <= count <= 30000
    requires Contiguous(x.packets) && End(x.packets) == x.sent == x.receiver.received && x.outstanding <= {lost}
    requires x.outstanding == {lost} ==> lost <= x.sent
    requires var last := x.sent + count;
             && QueuedBehind(x.sent, x.receiver.entries)
             && WindowOf(last) < WindowOf(x.sent) + FREE_RELIABLE_WINDOWS - 1
             && (x.outstanding == {lost} || x.sent < lost <= last ==> 1 <= lost <= last && WindowOf(last) <= WindowOf(lost) + 6)
    ensures IsRecentRun(longer, more) && |longer| == |more| + 1
    ensures var y, p := longer[|more|], Long(x.sent + 1, count);
            && y.packets == x.packets + [p] && Contiguous(y.packets) && End(y.packets) == y.sent == x.sent + count
            && y.outstanding == x.outstanding + (if x.sent < lost <= y.sent then {lost} else {})
            && y.acknowledgements == x.acknowledgements + Numbers(x.sent + 1, count)
            && y.receiver == Receiver(y.sent, x.receiver.entries, x.receiver.delivered + [p.data])
  {
    hide IsRecentRun, Count, Contiguous, QueuedBehind, WindowOf, Sendable, Long, Passing, Ahead, Numbers;
    var p := Long(x.sent + 1, count);
    LongSizes(x.sent + 1, count);
    ContiguousMore(x.packets, p);
    longer, more := Extended(run, steps, Send(p.data, 548));
    var s := longer[|more|];
    LongAhead(x, s, p, count, lost);
    PassingStarts(s, p, lost, count);
    PassingEnds(s, p, lost, count);
    longer, more := Passes(longer, more, s, p, 0, lost, count);
  }

  lemma LongAhead(x: System, s: System, p: Sent, count: nat, lost: nat)
    requires p.start == x.sent + 1 && Sendable(p) && Fragmented(p) && Count(p) == count && |p.data| <= LIMIT
    requires s == x.(packets := x.packets + [p]) && Contiguous(s.packets)
    requires x.sent == x.receiver.received && x.outstanding <= {lost} && (x.outstanding == {lost} ==> lost <= x.sent)
    requires QueuedBehind(x.sent, x.receiver.entries) && WindowOf(x.sent + count) < WindowOf(x.sent) + FREE_RELIABLE_WINDOWS - 1
    requires x.outstanding == {lost} || x.sent < lost <= x.sent + count ==>
               1 <= lost <= x.sent + count && WindowOf(x.sent + count) <= WindowOf(lost) + 6
    ensures Ahead(s, p, lost, count)
  {
    hide Contiguous, QueuedBehind, WindowOf, Sendable, Count;
  }

  lemma PassingStarts(s: System, p: Sent, lost: nat, m: nat)
    requires Ahead(s, p, lost, m)
    ensures s == Passing(s, p, 0, lost)
  {
    hide Contiguous, QueuedBehind, WindowOf, Count;
    assert s.acknowledgements + Numbers(p.start, 0) == s.acknowledgements;
    assert s.outstanding + {} == s.outstanding;
  }

  lemma PassingEnds(s: System, p: Sent, lost: nat, m: nat)
    requires Ahead(s, p, lost, m)
    ensures var y := Passing(s, p, Count(p), lost);
            && y.packets == s.packets && y.sent == Last(p)
            && y.outstanding == s.outstanding + (if s.sent < lost <= Last(p) then {lost} else {})
            && y.acknowledgements == s.acknowledgements + Numbers(p.start, Count(p))
            && y.receiver == Receiver(Last(p), s.receiver.entries, s.receiver.delivered + [p.data])
  {
    hide Contiguous, QueuedBehind, WindowOf, Numbers;
    CountCovers(p);
  }

  /** Two packets of five windows are delivered, and only the acknowledgement of the first one's last fragment is still
      missing. */
  lemma FirstTwo() returns (run: seq<System>, steps: seq<Step>)
    ensures IsRecentRun(run, steps) && |run| == |steps| + 1
    ensures var x := run[|steps|];
            && x.packets == [Long(1, 20480), Long(20481, 20480)] && Contiguous(x.packets) && End(x.packets) == x.sent == 40960
            && x.outstanding == {20480} && 20480 in x.acknowledgements
            && x.receiver == Receiver(40960, [], [Long(1, 20480).data, Long(20481, 20480).data])
  {
    hide IsRecentRun, Contiguous, Numbers, Long;
    run, steps := [START], [];
    Starts();
    run, steps := PassesLong(run, steps, START, 20480, 20480);
    run, steps := PassesLong(run, steps, run[|steps|], 20480, 20480);
  }

  lemma Starts()
    ensures IsRecentRun([START], []) && Contiguous(START.packets) && End(START.packets) == 0
  {
  }

  /** The retransmission of that fragment, by then, is taken for a fragment of a packet 2^16 numbers later. */
  lemma RetransmissionTakenForNew(delivered: seq<seq<uint8>>)
    ensures var p := Long(1, 20480);
            && Sendable(p) && Fragmented(p) && Count(p) == 20480
            && Receives(Receiver(40960, [], delivered), p, 20479, p.data, false, Connected, LIMIT)
               == Reception(Receiver(40960, [Stray()], delivered), true)
  {
    hide Filled, Blank, Long, Count, Offset, Length, Dispatched, Stray, Placed, Plausible, Inserted;
    var p := Long(1, 20480);
    LongSizes(1, 20480);
    StrayBody();
    CountCovers(p);
    UnwireOld(40960, 1);
    var u := Receiver(40960, [Entry(1 + SPACE, Blank(20480, p.data))], delivered);
    BlankOk(20480, p.data);
    InsertedAlone(Receiver(40960, [], delivered), Entry(1 + SPACE, Blank(20480, p.data)));
    HeldUp(u);
    StrayPlaced(u);
  }

  lemma InsertedAlone(v: Receiver, e: Entry)
    requires v.entries == []
    ensures Inserted(v, e) == v.(entries := [e])
  {
  }

  lemma StrayPlaced(v: Receiver)
    requires v.entries == [Entry(1 + SPACE, Blank(20480, Long(1, 20480).data))]
    ensures var p := Long(1, 20480);
            && Sendable(p) && Fragmented(p) && Count(p) == 20480
            && var f := Fragment(p, 20479);
               && 0 < |f.data| <= LIMIT && Plausible(f, LIMIT) && f.index == 20479 && f.offset + |f.data| <= |p.data|
               && |v.entries[0].body.have| == 20480 && |v.entries[0].body.data| == |p.data|
               && Placed(v, 0, f) == v.(entries := [Stray()])
  {
    hide Filled, Blank, Long, Count, Offset, Length;
    var p := Long(1, 20480);
    LongSizes(1, 20480);
    Partition(p, 20479);
    CountCovers(p);
    BlankOk(20480, p.data);
  }

  /** What it leaves in the queue. */
  ghost function Stray(): Entry {
    var p := Long(1, 20480);
    LongSizes(1, 20480);
    BlankOk(20480, p.data);
    Entry(1 + SPACE, Filled(Blank(20480, p.data), Fragment(p, 20479)))
  }

  lemma StrayBody()
    ensures Stray().number == 1 + SPACE
    ensures var b := Stray().body; b.count == |b.have| == 20480 && !b.have[0] && b.remaining > 0
  {
    hide Long;
    var p := Long(1, 20480);
    LongSizes(1, 20480);
    BlankOk(20480, p.data);
    FilledOk(Blank(20480, p.data), Fragment(p, 20479));
    MissingNone(Stray().body.have);
  }

  lemma LosesLast(run: seq<System>, steps: seq<Step>, x: System) returns (longer: seq<System>, more: seq<Step>)
    requires IsRecentRun(run, steps) && |run| == |steps| + 1 && run[|steps|] == x && Contiguous(x.packets)
    requires End(x.packets) == x.sent == x.receiver.received == 65536 && x.receiver.entries == [Stray()] && x.outstanding == {}
    ensures IsRecentRun(longer, more) && |longer| == |more| + 1
    ensures var y := longer[|more|];
            && y.packets == x.packets + [Sent(65537, [7], 548)] && Contiguous(y.packets) && y.sent == End(y.packets) == 65537
            && y.outstanding == {} && 65537 in y.acknowledgements && y.receiver == x.receiver && !Accepted(y.receiver, 65537)
  {
    hide IsRecentRun, Contiguous, Stray, Receives, IsAcknowledged, Accepted;
    var p := Sent(65537, [7], 548);
    StrayDiscards(x.receiver, p);
    ContiguousMore(x.packets, p);
    longer, more := Extended(run, steps, Send([7], 548));
    longer, more := Extended(longer, more, Transmit);
    longer, more := Extended(longer, more, Deliver(|x.packets|, 0, [7], false, LIMIT));
    longer, more := Extended(longer, more, Acknowledge(65537));
  }

  lemma StrayDiscards(v: Receiver, p: Sent)
    requires v.received == 65536 && v.entries == [Stray()] && p == Sent(65537, [7], 548)
    ensures Sendable(p) && Count(p) == 1
    ensures Receives(v, p, 0, [7], false, Connected, LIMIT) == Reception(v, true)
    ensures IsAcknowledged(Reception(v, true), 65537) && !Accepted(v, 65537)
  {
    hide Stray;
    StrayBody();
    assert Place(v.received, v.entries, 65537) == 1;
  }

  /** The whole run: the retransmission is acknowledged as well, a third packet of six windows passes, and the fourth, of
      one byte, gets the number under which the stray fragment is queued. It is acknowledged, forgotten by the sender,
      and was never accepted: without YoungDatagram, acknowledged does not imply accepted. */
  lemma AcknowledgedAndLost() returns (run: seq<System>, steps: seq<Step>)
    ensures IsRecentRun(run, steps) && |run| == |steps| + 1
    ensures var x := run[|steps|];
            && |x.packets| == 4 && x.packets[3] == Sent(65537, [7], 548) && Contiguous(x.packets)
            && x.sent == End(x.packets) == 65537 && x.outstanding == {}
            && 65537 in x.acknowledgements && !Accepted(x.receiver, 65537)
            && x.receiver.delivered == Datas(x.packets[..3]) && Stalled(x.receiver)
  {
    hide IsRecentRun, Contiguous, Numbers, Long, Stray, Receives, IsAcknowledged;
    run, steps := FirstTwo();
    var x := run[|steps|];
    var p := Long(1, 20480);
    LongSizes(1, 20480);
    RetransmissionTakenForNew(x.receiver.delivered);
    StrayBody();
    run, steps := Extended(run, steps, Deliver(0, 20479, p.data, false, LIMIT));
    run, steps := Extended(run, steps, Acknowledge(20480));
    x := run[|steps|];
    assert x.outstanding == {};
    assert QueuedBehind(40960, [Stray()]);
    run, steps := PassesLong(run, steps, x, 24576, 0);
    run, steps := LosesLast(run, steps, run[|steps|]);
    var packets := run[|steps|].packets;
    assert Datas(packets[..3]) == [packets[0].data, packets[1].data, packets[2].data];
  }

  // ----- and what comes after it

  /** The front of the queue is the next packet, and incomplete. */
  ghost predicate Stalled(v: Receiver) {
    v.entries != [] && v.entries[0].number == v.received + 1 && v.entries[0].body.remaining > 0
  }

  /** A number other than the next has its place further back. */
  lemma {:induction false} PlaceBehind(received: nat, entries: seq<Entry>, n: nat)
    requires entries != [] && entries[0].number == received + 1 && received < n < received + SPACE
    ensures Place(received, entries, n) >= 1
    decreases |entries|
  {
    DistanceNear(received, received + 1);
    DistanceNear(received, n);
    if |entries| > 1 {
      PlaceBehind(received, entries[..|entries| - 1], n);
    }
  }

  lemma FoundBehind(v: Receiver, n: nat)
    requires Stalled(v) && Wire(n) != Wire(v.received + 1)
    ensures Present(v, n) ==> Place(v.received, v.entries, n) >= 2
  {
  }

  lemma StaysStalled(v: Receiver, k: nat, p: Piece)
    requires Stalled(v) && 0 < k < |v.entries|
    requires p.index < |v.entries[k].body.have| && p.offset + |p.data| <= |v.entries[k].body.data|
    ensures WithPiece(v, k, p).received == v.received && WithPiece(v, k, p).entries != []
    ensures WithPiece(v, k, p).entries[..1] == v.entries[..1]
    ensures WithPiece(v, k, p).delivered == v.delivered
  {
    hide Filled;
    HeldUp(Placed(v, k, p));
  }

  /** Whatever arrives then, nothing is delivered, unless it is a datagram with the number of the packet in front. */
  lemma NothingDelivered(v: Receiver, p: Sent, i: nat, memory: seq<uint8>, full: bool, state: PeerState, maximumPacketSize: nat)
    requires Stalled(v) && Sendable(p) && i < Count(p) && |memory| == |p.data| && Wire(p.start) != Wire(v.received + 1)
    ensures var w := Receives(v, p, i, memory, full, state, maximumPacketSize).receiver;
            Stalled(w) && w.received == v.received && w.entries[0] == v.entries[0] && w.delivered == v.delivered
  {
    hide Place, Present, Wire, Count, Dispatched, WithPiece, Blank, OutsideWindows;
    var n := Unwire(v.received, Wire(p.start));
    WireOfUnwire(v.received, Wire(p.start));
    var k := Place(v.received, v.entries, n);
    FoundBehind(v, n);
    if n != v.received {
      PlaceBehind(v.received, v.entries, n);
    }
    if Fragmented(p) {
      FragmentStalled(v, n, k, Fragment(p, i), memory);
    } else if n != v.received {
      HeldUp(Inserted(v, Entry(n, Whole(p.data))));
    }
  }

  lemma FragmentStalled(v: Receiver, n: nat, k: nat, f: Piece, memory: seq<uint8>)
    requires Stalled(v) && k == Place(v.received, v.entries, n)
    requires |memory| == f.total && f.index < f.count && f.offset + |f.data| <= f.total
    ensures k >= 2 && f.index < |v.entries[k - 1].body.have| && f.offset + |f.data| <= |v.entries[k - 1].body.data| ==>
              var w := WithPiece(v, k - 1, f);
              Stalled(w) && w.received == v.received && w.entries[0] == v.entries[0] && w.delivered == v.delivered
    ensures k >= 1 ==>
              var w := WithFirst(v, n, f, memory);
              Stalled(w) && w.received == v.received && w.entries[0] == v.entries[0] && w.delivered == v.delivered
  {
    hide Place, Present, Dispatched, WithPiece, Blank;
    if k >= 2 && f.index < |v.entries[k - 1].body.have| && f.offset + |f.data| <= |v.entries[k - 1].body.data| {
      StaysStalled(v, k - 1, f);
      FrontStays(v, WithPiece(v, k - 1, f));
    }
    if k >= 1 {
      var u := Inserted(v, Entry(n, Blank(f.count, memory)));
      BlankOk(f.count, memory);
      HeldUp(u);
      StaysStalled(u, k, f);
      FrontStays(v, WithPiece(u, k, f));
    }
  }

  lemma FrontStays(v: Receiver, w: Receiver)
    requires Stalled(v) && w.received == v.received && w.entries != [] && w.entries[..1] == v.entries[..1]
    ensures Stalled(w) && w.entries[0] == v.entries[0]
  {
    assert v.entries[..1][0] == v.entries[0];
  }
}
