/** How long a reliable packet may be: one that reaches more than seven windows ahead is accepted for sending, and is
    never delivered. */
module ReliableSizes {
  import opened Integers
  import opened SequenceNumbers
  import opened PeerStates
  import opened Reassembly
  import opened ReliableReceiver
  import opened Fragmentation
  import opened ReliableDelivery
  import opened ReliableLimits

  // ----- too long

  /** The last fragment lies more than seven windows behind what comes before the packet. */
  ghost predicate TooLong(p: Sent) {
    p.fragmentLength > 0 && p.start >= 1 && WindowOf(Last(p)) > WindowOf(p.start - 1) + FREE_RELIABLE_WINDOWS - 1
  }

  lemma EndGrows(packets: seq<Sent>, d: nat, j: nat)
    requires Contiguous(packets) && d <= |packets| && j < |packets|
    ensures Sendable(packets[j]) && 1 <= packets[j].start
    ensures d <= j ==> End(packets[..d]) <= packets[j].start - 1
    ensures d > j ==> End(packets[..d]) >= Last(packets[j])
  {
    hide Count, Contiguous, Sendable;
    Widths(packets, j);
    if d > 0 {
      assert packets[..d][d - 1] == packets[d - 1];
      Widths(packets, d - 1);
      if d - 1 < j {
        Later(packets, d - 1, j);
      } else if d - 1 > j {
        Later(packets, j, d - 1);
      }
    }
  }

  lemma NotPassed(s: System, y: System, j: nat)
    requires Inv(s) && Inv(y) && y.packets == s.packets && y.sent == s.sent && j < |s.packets|
    requires |s.receiver.delivered| <= j && TooLong(s.packets[j])
    ensures |y.receiver.delivered| <= j
  {
    hide Count, Contiguous, Accepted, SenderInv, Queued, WindowOf;
    EndGrows(s.packets, |s.receiver.delivered|, j);
    EndGrows(s.packets, |y.receiver.delivered|, j);
    if |y.receiver.delivered| > j {
      WindowMonotone(Last(s.packets[j]), s.sent);
      WindowMonotone(s.receiver.received, s.packets[j].start - 1);
    }
  }

  lemma NoneBeyond(s: System)
    requires Inv(s)
    ensures |s.receiver.delivered| <= |s.packets| && Contiguous(s.packets)
  {
  }

  lemma StepNotPassed(s: System, step: Step, j: nat)
    requires Inv(s) && Contiguous(s.packets) && Enabled(s, step) && Inv(After(s, step)) && j < |After(s, step).packets|
    requires TooLong(After(s, step).packets[j]) && |s.receiver.delivered| <= |s.packets|
    requires j < |s.packets| && TooLong(s.packets[j]) ==> |s.receiver.delivered| <= j
    ensures |After(s, step).receiver.delivered| <= j
  {
    hide Inv, Enabled, TooLong, Receives, IsAcknowledged, Contiguous;
    if j < |s.packets| && step.Deliver? {
      NotPassed(s, After(s, step), j);
    }
  }

  lemma StepPackets(s: System, step: Step, j: nat)
    requires Contiguous(s.packets) && Enabled(s, step) && j < |s.packets|
    ensures j < |After(s, step).packets| && After(s, step).packets[j] == s.packets[j]
  {
    hide Enabled, Contiguous, Receives, IsAcknowledged;
  }

  /** In no run with a timely network is a packet delivered that is too long, nor one behind it. */
  lemma {:induction false} NeverDelivered(run: seq<System>, steps: seq<Step>, k: nat, j: nat)
    requires IsRun(run, steps) && AllTimely(run, steps) && k < |run| && j < |run[k].packets| && TooLong(run[k].packets[j])
    ensures |run[k].receiver.delivered| <= j
  {
    hide Inv, Enabled, AllTimely, TooLong, After, Contiguous;
    if k > 0 {
      var s, step := run[k - 1], steps[k - 1];
      RunKeeps(run, steps, k - 1);
      RunKeeps(run, steps, k);
      NoneBeyond(s);
      if j < |s.packets| {
        StepPackets(s, step, j);
        NeverDelivered(run, steps, k - 1, j);
      }
      StepNotPassed(s, step, j);
    }
  }

  // ----- not too long

  /** How many fragments of p lie less than seven windows ahead. */
  ghost function Within(p: Sent): nat
    requires p.fragmentLength > 0 && p.start >= 1 && !TooLong(p)
  {
    var first := (WindowOf(p.start - 1) + FREE_RELIABLE_WINDOWS - 1) * RELIABLE_WINDOW_SIZE;
    if Last(p) < first then Count(p) else first - p.start
  }

  lemma WithinWindows(p: Sent)
    requires Sendable(p) && Fragmented(p) && p.start >= 1 && !TooLong(p)
    ensures Within(p) <= Count(p) && WindowOf(p.start + Within(p) - 1) < WindowOf(p.start - 1) + FREE_RELIABLE_WINDOWS - 1
    ensures forall n :: p.start + Within(p) < n <= Last(p) ==> n % RELIABLE_WINDOW_SIZE != 0
  {
    CountCovers(p);
    var w := WindowOf(p.start - 1) + FREE_RELIABLE_WINDOWS - 1;
    var first := w * RELIABLE_WINDOW_SIZE;
    FirstOfWindow(p.start - 1, w);
    WindowBelow(p.start + Within(p) - 1, w);
    forall n | p.start + Within(p) < n <= Last(p)
      ensures n % RELIABLE_WINDOW_SIZE != 0
    {
      InsideWindow(n, Last(p), w);
    }
  }

  lemma FirstOfWindow(n: nat, w: nat)
    requires WindowOf(n) < w
    ensures n < w * RELIABLE_WINDOW_SIZE
  {
  }

  lemma WindowBelow(n: nat, w: nat)
    requires n < w * RELIABLE_WINDOW_SIZE
    ensures WindowOf(n) < w
  {
  }

  lemma InsideWindow(n: nat, last: nat, w: nat)
    requires w * RELIABLE_WINDOW_SIZE < n <= last && WindowOf(last) <= w
    ensures n % RELIABLE_WINDOW_SIZE != 0
  {
  }

  /** The system while the last fragments of p pass, from the m-th on, which are not acknowledged before all have come. */
  ghost predicate Trailing(y: System, s: System, p: Sent, i: nat, m: nat)
    requires Sendable(p) && Fragmented(p) && i <= Count(p) && p.start >= 1
  {
    && y.packets == s.packets && y.sent == s.sent + i && (i == m ==> y.outstanding == {})
    && y.receiver == Receiving(p, i, s.receiver.entries, s.receiver.delivered)
  }

  lemma MayStartEmpty(n: nat)
    ensures MayStart({}, n)
  {
    assert InWindow({}, (WindowOf(n) + RELIABLE_WINDOWS - 1) % RELIABLE_WINDOWS) == {};
  }

  lemma TrailingStep(y: System, s: System, p: Sent, i: nat, m: nat)
    requires Ahead(s, p, 0, m) && m <= i < Count(p) && Trailing(y, s, p, i, m)
    requires forall n :: p.start + m < n <= Last(p) ==> n % RELIABLE_WINDOW_SIZE != 0
    ensures Contiguous(y.packets) && Enabled(y, Transmit) && |s.packets| > 0
    ensures var x, step := After(y, Transmit), Deliver(|s.packets| - 1, i, p.data, false, LIMIT);
            && x.packets == s.packets && Enabled(x, step) && Recent(x, step) && Timely(x, step)
            && Trailing(After(x, step), s, p, i + 1, m)
  {
    hide WindowOf, MayStart, Contiguous, QueuedBehind, Count, Receives, Receiving, IsAcknowledged, Ahead;
    AheadPackets(s, p, 0, m);
    EndOfLast(s.packets);
    if i == m {
      MayStartEmpty(p.start + i);
    } else {
      MayStartInside(y.outstanding, p.start + i);
    }
    NextFragment(p, i, s.receiver.entries, s.receiver.delivered);
    ReceivingAt(p, i, s.receiver.entries, s.receiver.delivered);
  }

  lemma MayStartInside(outstanding: set<nat>, n: nat)
    requires n % RELIABLE_WINDOW_SIZE != 0
    ensures MayStart(outstanding, n)
  {
  }

  lemma {:induction false} Trails(run: seq<System>, steps: seq<Step>, s: System, p: Sent, i: nat, m: nat)
    returns (longer: seq<System>, more: seq<Step>)
    requires Ahead(s, p, 0, m) && m <= i <= Count(p) && IsRecentRun(run, steps) && |run| == |steps| + 1
    requires Trailing(run[|steps|], s, p, i, m)
    requires forall n :: p.start + m < n <= Last(p) ==> n % RELIABLE_WINDOW_SIZE != 0
    ensures IsRecentRun(longer, more) && |longer| == |more| + 1 && Trailing(longer[|more|], s, p, Count(p), m)
    ensures AllTimely(run, steps) ==> AllTimely(longer, more)
    decreases Count(p) - i
  {
    hide IsRecentRun, Ahead, Trailing, Enabled, After, Contiguous, Count, Recent, Timely;
    longer, more := run, steps;
    AheadPackets(s, p, 0, m);
    if i < Count(p) {
      var y := run[|steps|];
      TrailingStep(y, s, p, i, m);
      TransmitRecent(y);
      longer, more := Extended(run, steps, Transmit);
      longer, more := Extended(longer, more, Deliver(|s.packets| - 1, i, p.data, false, LIMIT));
      longer, more := Trails(longer, more, s, p, i + 1, m);
    }
  }

  lemma TransmitRecent(y: System)
    ensures Recent(y, Transmit) && Timely(y, Transmit)
  {
  }

  /** On a channel where nothing is under way, every fragmented packet that is not too long can be delivered. */
  lemma CanBeDelivered(run: seq<System>, steps: seq<Step>, data: seq<uint8>, fragmentLength: nat)
    returns (longer: seq<System>, more: seq<Step>)
    requires IsRecentRun(run, steps) && |run| == |steps| + 1 && Contiguous(run[|steps|].packets)
    requires var x := run[|steps|];
             && End(x.packets) == x.sent == x.receiver.received && x.outstanding == {} && x.receiver.entries == []
             && var p := Sent(x.sent + 1, data, fragmentLength);
                Sendable(p) && Fragmented(p) && |data| <= LIMIT && !TooLong(p)
    ensures IsRecentRun(longer, more) && |longer| == |more| + 1
    ensures AllTimely(run, steps) ==> AllTimely(longer, more)
    ensures longer[|more|].packets == run[|steps|].packets + [Sent(run[|steps|].sent + 1, data, fragmentLength)]
    ensures longer[|more|].receiver.delivered == run[|steps|].receiver.delivered + [data]
  {
    hide IsRecentRun, End, Datas, Contiguous, Count, WindowOf, Sendable, Passing, TooLong, Within, AllTimely, QueuedBehind, Fragmented, Ahead, Trailing,
         Receiving;
    var x := run[|steps|];
    var p := Sent(x.sent + 1, data, fragmentLength);
    SendablePositive(p);
    var m := Within(p);
    WithinWindows(p);
    ContiguousMore(x.packets, p);
    longer, more := Extended(run, steps, Send(data, fragmentLength));
    var s := longer[|more|];
    IdleAhead(s, p, m);
    PassingStarts(s, p, 0, m);
    longer, more := Passes(longer, more, s, p, 0, 0, m);
    PassingTrails(s, p, m);
    longer, more := Trails(longer, more, s, p, m, m);
    TrailingEnds(longer[|more|], s, p, m);
  }

  lemma SendablePositive(p: Sent)
    requires Sendable(p)
    ensures p.fragmentLength > 0
  {
  }

  lemma IdleAhead(s: System, p: Sent, m: nat)
    requires Contiguous(s.packets) && s.packets != [] && s.packets[|s.packets| - 1] == p && Sendable(p) && Fragmented(p) && p.start >= 1
    requires |p.data| <= LIMIT && s.sent == s.receiver.received == p.start - 1 && s.outstanding == {} && s.receiver.entries == []
    requires m <= Count(p) && WindowOf(p.start + m - 1) < WindowOf(p.start - 1) + FREE_RELIABLE_WINDOWS - 1
    ensures Ahead(s, p, 0, m)
  {
    hide Contiguous, Count, WindowOf, Sendable;
  }

  lemma PassingTrails(s: System, p: Sent, m: nat)
    requires Ahead(s, p, 0, m) && s.outstanding == {}
    ensures Trailing(Passing(s, p, m, 0), s, p, m, m)
  {
    hide Contiguous, Count, WindowOf, Sendable, Numbers, Receiving, QueuedBehind;
  }

  lemma TrailingEnds(y: System, s: System, p: Sent, m: nat)
    requires Ahead(s, p, 0, m) && Trailing(y, s, p, Count(p), m)
    ensures y.packets == s.packets && y.receiver.delivered == s.receiver.delivered + [p.data]
  {
    hide Contiguous, WindowOf, QueuedBehind;
    CountCovers(p);
  }

  /** A packet that fits one datagram is delivered when it arrives, and acknowledged, and nothing is under way again. */
  lemma WholeCanBeDelivered(run: seq<System>, steps: seq<Step>, data: seq<uint8>, fragmentLength: nat)
    returns (longer: seq<System>, more: seq<Step>)
    requires IsRecentRun(run, steps) && |run| == |steps| + 1 && Contiguous(run[|steps|].packets)
    requires var x := run[|steps|];
             && End(x.packets) == x.sent == x.receiver.received && x.outstanding == {} && x.receiver.entries == []
             && var p := Sent(x.sent + 1, data, fragmentLength); Sendable(p) && !Fragmented(p) && |data| <= LIMIT
    ensures IsRecentRun(longer, more) && |longer| == |more| + 1
    ensures AllTimely(run, steps) ==> AllTimely(longer, more)
    ensures var x, y := run[|steps|], longer[|more|];
            && y.packets == x.packets + [Sent(x.sent + 1, data, fragmentLength)] && Contiguous(y.packets)
            && y.receiver.delivered == x.receiver.delivered + [data]
            && End(y.packets) == y.sent == y.receiver.received && y.outstanding == {} && y.receiver.entries == []
  {
    hide IsRecentRun, Contiguous, WindowOf, AllTimely, Receives, IsAcknowledged, MayStart, Count;
    var x := run[|steps|];
    var p := Sent(x.sent + 1, data, fragmentLength);
    ContiguousMore(x.packets, p);
    WholeSizes(p);
    longer, more := Extended(run, steps, Send(data, fragmentLength));
    MayStartEmpty(x.sent + 1);
    longer, more := Extended(longer, more, Transmit);
    WholeArrives(x.receiver, p);
    longer, more := Extended(longer, more, Deliver(|x.packets|, 0, data, false, LIMIT));
    var z := longer[|more|];
    assert z.outstanding == {p.start} && p.start in z.acknowledgements;
    YoungAtOnce(p.start);
    longer, more := Extended(longer, more, Acknowledge(p.start));
    assert longer[|more|].outstanding == {};
  }

  lemma YoungAtOnce(n: nat)
    ensures WindowOf(n) + 15 >= WindowOf(n)
  {
  }

  lemma WholeSizes(p: Sent)
    requires Sendable(p) && !Fragmented(p)
    ensures Count(p) == 1 && Last(p) == p.start && WindowOf(p.start) + 9 >= WindowOf(if p.start > 0 then p.start - 1 else 0)
  {
    WindowMonotone(if p.start > 0 then p.start - 1 else 0, p.start);
  }

  lemma WholeArrives(v: Receiver, p: Sent)
    requires Sendable(p) && !Fragmented(p) && p.start == v.received + 1 && v.entries == [] && |p.data| <= LIMIT
    ensures 0 < Count(p)
    ensures Receives(v, p, 0, p.data, false, Connected, LIMIT) == Reception(Receiver(p.start, [], v.delivered + [p.data]), true)
    ensures IsAcknowledged(Reception(Receiver(p.start, [], v.delivered + [p.data]), true), p.start)
  {
    hide WindowOf;
    NextStart(p, v);
    var u := Inserted(v, Entry(p.start, Whole(p.data)));
    assert u.entries == [Entry(p.start, Whole(p.data))];
    assert Delivered(u) == Receiver(p.start, [], v.delivered + [p.data]);
    HeldUp(Delivered(u));
    UnwireUnique(p.start, p.start);
  }

  /** For the first packet of a channel the limit is 32767 fragments. */
  lemma FirstTooLong(p: Sent)
    requires p.fragmentLength > 0 && p.start == 1
    ensures TooLong(p) <==> Count(p) >= FREE_RELIABLE_WINDOWS * RELIABLE_WINDOW_SIZE
  {
    hide Count;
  }
}
