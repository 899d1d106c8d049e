/** What one peer keeps about the commands it sends: its queues, the window counters of every channel, the data
    in transit, and the references to packets; and the accounts that hold between all of them. */
module SendLedger {
  import opened Integers
  import opened Options
  import opened SequenceNumbers
  import opened ReliableDelivery
  import opened WindowMask

  datatype Kind = NoCommand | AcknowledgeCommand | Connect | VerifyConnect | Disconnect | Ping | SendReliable | SendUnreliable
                | SendFragment | SendUnsequenced | BandwidthLimit | ThrottleConfigure | SendUnreliableFragment

  /** commandSizes. */
  function CommandSize(kind: Kind): nat {
    match kind
    case NoCommand => 0
    case AcknowledgeCommand => 8
    case Connect => 48
    case VerifyConnect => 44
    case Disconnect => 8
    case Ping => 4
    case SendReliable => 6
    case SendUnreliable => 8
    case SendFragment => 24
    case SendUnsequenced => 8
    case BandwidthLimit => 12
    case ThrottleConfigure => 16
    case SendUnreliableFragment => 24
  }

  /** An outgoing command. number is the unbounded form of its reliable sequence number: the program stores and
      compares Wire(number). */
  datatype Command = Command(
    kind: Kind, acknowledge: bool, channelID: uint8, number: nat, unreliable: uint16,
    packet: Option<nat>, fragmentOffset: uint32, fragmentLength: uint16,
    sendAttempts: nat, queueTime: uint32, sentTime: uint32, roundTripTimeout: uint32)

  // ----- counting over a queue

  /** Things a command may count for, 0 or more. */
  datatype Measure = Windowed(channel: nat, window: nat) | Numbered(channel: nat, number: nat) | Bytes | Holding(packet: nat)

  /** Windowed and Numbered count the commands that have been transmitted. */
  ghost function Weight(m: Measure, c: Command): nat {
    match m
    case Windowed(channel, w) =>
      if c.acknowledge && c.sendAttempts >= 1 && c.channelID == channel && Wire(c.number) / RELIABLE_WINDOW_SIZE == w then 1 else 0
    case Numbered(channel, n) =>
      if c.acknowledge && c.sendAttempts >= 1 && c.channelID == channel && c.number == n then 1 else 0
    case Bytes => c.fragmentLength
    case Holding(id) => if c.packet == Some(id) then 1 else 0
  }

  ghost function Tally(q: seq<Command>, m: Measure): nat {
    if q == [] then 0 else Weight(m, q[0]) + Tally(q[1..], m)
  }

  lemma {:induction false} TallyConcat(a: seq<Command>, b: seq<Command>, m: Measure)
    ensures Tally(a + b, m) == Tally(a, m) + Tally(b, m)
    decreases |a|
  {
    if a == [] {
      assert a + b == b;
    } else {
      assert (a + b)[0] == a[0] && (a + b)[1..] == a[1..] + b;
      TallyConcat(a[1..], b, m);
    }
  }

  function Without(q: seq<Command>, i: nat): seq<Command>
    requires i < |q|
  {
    q[..i] + q[i + 1..]
  }

  function With(q: seq<Command>, i: nat, c: Command): seq<Command>
    requires i <= |q|
  {
    q[..i] + [c] + q[i..]
  }

  lemma TallyOne(c: Command, m: Measure)
    ensures Tally([c], m) == Weight(m, c)
  {
  }

  lemma TallyWithout(q: seq<Command>, i: nat, m: Measure)
    requires i < |q|
    ensures Tally(q, m) == Tally(Without(q, i), m) + Weight(m, q[i])
  {
    assert q == q[..i] + ([q[i]] + q[i + 1..]);
    TallyConcat(q[..i], [q[i]] + q[i + 1..], m);
    TallyConcat([q[i]], q[i + 1..], m);
    TallyConcat(q[..i], q[i + 1..], m);
    TallyOne(q[i], m);
  }

  lemma TallyWith(q: seq<Command>, i: nat, c: Command, m: Measure)
    requires i <= |q|
    ensures Tally(With(q, i, c), m) == Tally(q, m) + Weight(m, c)
  {
    TallyWithout(With(q, i, c), i, m);
    assert Without(With(q, i, c), i) == q;
  }

  // ----- the ledger

  /** started and outstanding follow each channel in unbounded numbers: the last number transmitted, and the
      transmitted numbers that are not acknowledged. */
  datatype Ledger = Ledger(
    outgoing: seq<Command>, sendReliable: seq<Command>, sent: seq<Command>, sentUnreliable: seq<Command>,
    windows: seq<seq<nat>>, used: seq<bv16>, inTransit: nat, references: map<nat, nat>,
    queued: seq<nat>, started: seq<nat>, outstanding: seq<set<nat>>)

  ghost function Total(l: Ledger, m: Measure): nat {
    Tally(l.outgoing, m) + Tally(l.sendReliable, m) + Tally(l.sent, m) + Tally(l.sentUnreliable, m)
  }

  ghost predicate Shapes(l: Ledger) {
    var n := |l.windows|;
    && n <= 255 && |l.used| == n && |l.queued| == n && |l.started| == n && |l.outstanding| == n
    && forall ch :: 0 <= ch < n ==> |l.windows[ch]| == RELIABLE_WINDOWS
  }

  /** reliableWindows counts the transmitted commands of each window, usedReliableWindows marks the windows in use,
      and reliableDataInTransit adds up what is in sentReliableCommands. */
  ghost predicate Counters(l: Ledger)
    requires Shapes(l)
  {
    && (forall ch, w :: 0 <= ch < |l.windows| && 0 <= w < RELIABLE_WINDOWS ==> l.windows[ch][w] == Total(l, Windowed(ch, w)))
    && (forall ch, w :: 0 <= ch < |l.windows| && 0 <= w < RELIABLE_WINDOWS ==> (Bit(l.used[ch], w) <==> l.windows[ch][w] > 0))
    && l.inTransit == Tally(l.sent, Bytes)
  }

  function ReferenceCount(references: map<nat, nat>, id: nat): nat {
    if id in references then references[id] else 0
  }

  /** A packet's referenceCount is the number of commands that hold it; at 0 the packet is gone. */
  ghost predicate References(l: Ledger) {
    && (forall id :: ReferenceCount(l.references, id) == Total(l, Holding(id)))
    && (forall id :: id in l.references ==> l.references[id] > 0)
  }

  /** Retransmissions come before what has never been sent. */
  ghost predicate AttemptedFirst(q: seq<Command>) {
    forall i, j :: 0 <= i < j < |q| && q[i].acknowledge && q[j].acknowledge && q[j].sendAttempts >= 1 ==> q[i].sendAttempts >= 1
  }

  ghost predicate OutgoingOk(c: Command, channels: nat) {
    c.acknowledge ==> c.packet.None? && c.channelID >= channels && c.fragmentLength == 0
  }

  ghost predicate SendReliableOk(c: Command, channels: nat) {
    c.acknowledge && c.packet.Some? && c.channelID < channels
  }

  ghost predicate SentOk(c: Command, channels: nat) {
    c.sendAttempts >= 1 && (if c.packet.Some? then SendReliableOk(c, channels) else c.acknowledge && OutgoingOk(c, channels))
  }

  ghost predicate Orders(l: Ledger) {
    var n := |l.windows|;
    && AttemptedFirst(l.outgoing) && AttemptedFirst(l.sendReliable)
    && (forall i :: 0 <= i < |l.outgoing| ==> OutgoingOk(l.outgoing[i], n))
    && (forall i :: 0 <= i < |l.sendReliable| ==> SendReliableOk(l.sendReliable[i], n))
    && (forall i :: 0 <= i < |l.sent| ==> SentOk(l.sent[i], n))
    && (forall i :: 0 <= i < |l.sentUnreliable| ==> !l.sentUnreliable[i].acknowledge && l.sentUnreliable[i].packet.Some?)
  }

  /** The numbers of a channel's commands that have never been sent, in queue order. */
  ghost function Unsent(q: seq<Command>, channel: nat): seq<nat> {
    if q == [] then []
    else (if q[0].sendAttempts == 0 && q[0].channelID == channel then [q[0].number] else []) + Unsent(q[1..], channel)
  }

  ghost function Interval(from: nat, to: nat): seq<nat> {
    seq(if from <= to then to - from else 0, i requires 0 <= i => from + 1 + i)
  }

  /** On every channel, what has never been sent is numbered on from what has, and every transmitted number that
      is outstanding belongs to exactly one command. */
  ghost predicate Numbering(l: Ledger)
    requires Shapes(l)
  {
    && (forall ch :: 0 <= ch < |l.windows| ==> l.started[ch] <= l.queued[ch])
    && (forall ch :: 0 <= ch < |l.windows| ==> Unsent(l.sendReliable, ch) == Interval(l.started[ch], l.queued[ch]))
    && (forall ch, n :: 0 <= ch < |l.windows| ==> Total(l, Numbered(ch, n)) == if n in l.outstanding[ch] then 1 else 0)
    && (forall ch, n :: 0 <= ch < |l.windows| && n in l.outstanding[ch] ==> 1 <= n <= l.started[ch])
  }

  ghost predicate LedgerOk(l: Ledger) {
    Shapes(l) && Counters(l) && References(l) && Orders(l) && Numbering(l)
  }

  // ----- the moves

  function Retained(references: map<nat, nat>, packet: Option<nat>): map<nat, nat> {
    match packet
    case None => references
    case Some(id) => references[id := ReferenceCount(references, id) + 1]
  }

  function Released(references: map<nat, nat>, packet: Option<nat>): map<nat, nat> {
    match packet
    case None => references
    case Some(id) => if ReferenceCount(references, id) <= 1 then references - {id} else references[id := references[id] - 1]
  }

  /** enet_peer_setup_outgoing_command: a new command at the end of its queue. */
  ghost function Queue(l: Ledger, c: Command): Ledger {
    var r := l.(references := Retained(l.references, c.packet));
    if c.acknowledge && c.packet.Some? then
      r.(sendReliable := l.sendReliable + [c], queued := if c.channelID < |l.queued| then l.queued[c.channelID as int := c.number] else l.queued)
    else r.(outgoing := l.outgoing + [c])
  }

  ghost predicate Queueable(l: Ledger, c: Command) {
    && c.sendAttempts == 0
    && (c.acknowledge && c.packet.Some? ==> c.channelID < |l.queued| && c.number == l.queued[c.channelID] + 1)
    && (c.acknowledge && c.packet.None? ==> c.channelID >= |l.queued| && c.fragmentLength == 0)
  }

  /** What transmission makes of a command. */
  function Attempted(c: Command, time: uint32, timeout: uint32): Command {
    c.(sendAttempts := c.sendAttempts + 1, sentTime := time, roundTripTimeout := timeout)
  }

  /** The first send of a command opens or fills a window of its channel. */
  ghost function Opened(l: Ledger, c: Command): Ledger
    requires Shapes(l)
  {
    if c.sendAttempts > 0 || c.channelID >= |l.windows| then l
    else
      var ch, w := c.channelID as int, Wire(c.number) / RELIABLE_WINDOW_SIZE;
      l.(windows := l.windows[ch := l.windows[ch][w := l.windows[ch][w] + 1]],
         used := l.used[ch := Set(l.used[ch], w)],
         started := l.started[ch := c.number],
         outstanding := l.outstanding[ch := l.outstanding[ch] + {c.number}])
  }

  /** A reliable packet command leaves the head of its queue for sentReliableCommands. */
  ghost function TransmitReliable(l: Ledger, time: uint32, timeout: uint32): Ledger
    requires Shapes(l) && l.sendReliable != []
  {
    var c := l.sendReliable[0];
    Opened(l, c).(sendReliable := l.sendReliable[1..], sent := l.sent + [Attempted(c, time, timeout)], inTransit := l.inTransit + c.fragmentLength)
  }

  ghost function TransmitControl(l: Ledger, time: uint32, timeout: uint32): Ledger
    requires l.outgoing != []
  {
    var c := l.outgoing[0];
    l.(outgoing := l.outgoing[1..], sent := l.sent + [Attempted(c, time, timeout)], inTransit := l.inTransit + c.fragmentLength)
  }

  ghost function TransmitUnreliable(l: Ledger): Ledger
    requires l.outgoing != []
  {
    l.(outgoing := l.outgoing[1..],
       sentUnreliable := if l.outgoing[0].packet.Some? then l.sentUnreliable + [l.outgoing[0]] else l.sentUnreliable)
  }

  ghost function Drop(l: Ledger): Ledger
    requires l.outgoing != []
  {
    l.(outgoing := l.outgoing[1..], references := Released(l.references, l.outgoing[0].packet))
  }

  ghost function Release(l: Ledger): Ledger
    requires l.sentUnreliable != []
  {
    l.(sentUnreliable := l.sentUnreliable[1..], references := Released(l.references, l.sentUnreliable[0].packet))
  }

  /** What a transmitted command carries is in transit, so that taking it off cannot wrap around. */
  lemma InTransitCovers(l: Ledger, i: nat)
    requires LedgerOk(l) && i < |l.sent|
    ensures l.inTransit >= l.sent[i].fragmentLength
  {
    TallyWithout(l.sent, i, Bytes);
  }

  /** A timeout: a sent command goes back to place k of its queue. */
  ghost function Expire(l: Ledger, i: nat, k: nat, timeout: uint32): Ledger
    requires LedgerOk(l) && i < |l.sent| && k <= |if l.sent[i].packet.Some? then l.sendReliable else l.outgoing|
  {
    var c := l.sent[i].(roundTripTimeout := timeout);
    InTransitCovers(l, i);
    if c.packet.Some? then
      l.(sent := Without(l.sent, i), sendReliable := With(l.sendReliable, k, c), inTransit := l.inTransit - c.fragmentLength)
    else l.(sent := Without(l.sent, i), outgoing := With(l.outgoing, k, c))
  }

  /** The counters' side of an acknowledgement. */
  ghost function Closed(l: Ledger, c: Command): Ledger
    requires Shapes(l)
  {
    if c.channelID >= |l.windows| then l
    else
      var ch, w := c.channelID as int, Wire(c.number) / RELIABLE_WINDOW_SIZE;
      var o := l.(outstanding := l.outstanding[ch := l.outstanding[ch] - {c.number}]);
      if l.windows[ch][w] == 0 then o
      else o.(windows := l.windows[ch := l.windows[ch][w := l.windows[ch][w] - 1]],
              used := if l.windows[ch][w] == 1 then l.used[ch := Clear(l.used[ch], w)] else l.used)
  }

  ghost function AcknowledgeSent(l: Ledger, i: nat): Ledger
    requires LedgerOk(l) && i < |l.sent|
  {
    var c := l.sent[i];
    InTransitCovers(l, i);
    Closed(l, c).(sent := Without(l.sent, i), references := Released(l.references, c.packet),
                  inTransit := if c.packet.Some? then l.inTransit - c.fragmentLength else l.inTransit)
  }

  ghost function AcknowledgeOutgoing(l: Ledger, i: nat): Ledger
    requires Shapes(l) && i < |l.outgoing|
  {
    Closed(l, l.outgoing[i]).(outgoing := Without(l.outgoing, i), references := Released(l.references, l.outgoing[i].packet))
  }

  ghost function AcknowledgeQueued(l: Ledger, i: nat): Ledger
    requires Shapes(l) && i < |l.sendReliable|
  {
    Closed(l, l.sendReliable[i]).(sendReliable := Without(l.sendReliable, i), references := Released(l.references, l.sendReliable[i].packet))
  }

  // ----- every move keeps the ledger: pieces

  /** l' has traded command c for c', as far as any count can tell. */
  ghost predicate Traded(l: Ledger, l': Ledger, c: Command, c': Command) {
    forall m :: Total(l', m) == Total(l, m) - Weight(m, c) + Weight(m, c')
  }

  lemma SameWeights(c: Command, c': Command, m: Measure)
    requires c' == c.(sendAttempts := c'.sendAttempts, sentTime := c'.sentTime, roundTripTimeout := c'.roundTripTimeout)
    requires c.sendAttempts >= 1 <==> c'.sendAttempts >= 1
    ensures Weight(m, c) == Weight(m, c')
  {
  }

  lemma WindowIndex(n: nat)
    ensures Wire(n) / RELIABLE_WINDOW_SIZE < RELIABLE_WINDOWS
    ensures Wire(n) / RELIABLE_WINDOW_SIZE == WindowOf(n) % RELIABLE_WINDOWS
    ensures Wire(n) % RELIABLE_WINDOW_SIZE == n % RELIABLE_WINDOW_SIZE
  {
  }

  ghost predicate WindowCounts(l: Ledger)
    requires Shapes(l)
  {
    && (forall ch, w :: 0 <= ch < |l.windows| && 0 <= w < RELIABLE_WINDOWS ==> l.windows[ch][w] == Total(l, Windowed(ch, w)))
    && (forall ch, w :: 0 <= ch < |l.windows| && 0 <= w < RELIABLE_WINDOWS ==> (Bit(l.used[ch], w) <==> l.windows[ch][w] > 0))
  }

  lemma OpenedCounts(l: Ledger, l': Ledger, c: Command, c': Command)
    requires Shapes(l) && WindowCounts(l) && Traded(l, l', c, c')
    requires c.acknowledge && c' == c.(sendAttempts := c.sendAttempts + 1, sentTime := c'.sentTime, roundTripTimeout := c'.roundTripTimeout)
    requires l'.windows == Opened(l, c).windows && l'.used == Opened(l, c).used
    requires |l'.queued| == |l.queued| && |l'.started| == |l.started| && |l'.outstanding| == |l.outstanding|
    ensures Shapes(l') && WindowCounts(l')
  {
    hide Total, Bit, Wire;
    WindowIndex(c.number);
    forall ch, w | 0 <= ch < |l.windows| && 0 <= w < RELIABLE_WINDOWS
      ensures l'.windows[ch][w] == Total(l', Windowed(ch, w)) && (Bit(l'.used[ch], w) <==> l'.windows[ch][w] > 0)
    {
      assert Total(l', Windowed(ch, w)) == Total(l, Windowed(ch, w)) - Weight(Windowed(ch, w), c) + Weight(Windowed(ch, w), c');
      SetBits(l.used[ch], Wire(c.number) / RELIABLE_WINDOW_SIZE, w);
    }
  }

  lemma ClosedCounts(l: Ledger, l': Ledger, c: Command)
    requires Shapes(l) && WindowCounts(l) && c.acknowledge && c.sendAttempts >= 1
    requires forall m :: Total(l', m) == Total(l, m) - Weight(m, c)
    requires l'.windows == Closed(l, c).windows && l'.used == Closed(l, c).used
    requires |l'.queued| == |l.queued| && |l'.started| == |l.started| && |l'.outstanding| == |l.outstanding|
    ensures Shapes(l') && WindowCounts(l')
  {
    hide Total, Bit, Wire;
    WindowIndex(c.number);
    forall ch, w | 0 <= ch < |l.windows| && 0 <= w < RELIABLE_WINDOWS
      ensures l'.windows[ch][w] == Total(l', Windowed(ch, w)) && (Bit(l'.used[ch], w) <==> l'.windows[ch][w] > 0)
    {
      assert Total(l', Windowed(ch, w)) == Total(l, Windowed(ch, w)) - Weight(Windowed(ch, w), c);
      SetBits(l.used[ch], Wire(c.number) / RELIABLE_WINDOW_SIZE, w);
    }
  }

  lemma SameCounts(l: Ledger, l': Ledger)
    requires Shapes(l) && WindowCounts(l) && l'.windows == l.windows && l'.used == l.used
    requires forall ch, w :: 0 <= ch < |l.windows| && 0 <= w < RELIABLE_WINDOWS ==> Total(l', Windowed(ch, w)) == Total(l, Windowed(ch, w))
    requires |l'.queued| == |l.queued| && |l'.started| == |l.started| && |l'.outstanding| == |l.outstanding|
    ensures Shapes(l') && WindowCounts(l')
  {
  }

  lemma ReleasedReferences(l: Ledger, l': Ledger, c: Command)
    requires References(l) && l'.references == Released(l.references, c.packet)
    requires forall id :: Total(l', Holding(id)) == Total(l, Holding(id)) - Weight(Holding(id), c)
    ensures References(l')
  {
    hide Total;
    forall id
      ensures ReferenceCount(l'.references, id) == Total(l', Holding(id))
    {
      assert ReferenceCount(l.references, id) == Total(l, Holding(id));
    }
  }

  lemma RetainedReferences(l: Ledger, l': Ledger, c: Command)
    requires References(l) && l'.references == Retained(l.references, c.packet)
    requires forall id :: Total(l', Holding(id)) == Total(l, Holding(id)) + Weight(Holding(id), c)
    ensures References(l')
  {
    hide Total;
    forall id
      ensures ReferenceCount(l'.references, id) == Total(l', Holding(id))
    {
      assert ReferenceCount(l.references, id) == Total(l, Holding(id));
    }
  }

  lemma {:induction false} UnsentConcat(a: seq<Command>, b: seq<Command>, ch: nat)
    ensures Unsent(a + b, ch) == Unsent(a, ch) + Unsent(b, ch)
    decreases |a|
  {
    if a == [] {
      assert a + b == b;
    } else {
      assert (a + b)[0] == a[0] && (a + b)[1..] == a[1..] + b;
      UnsentConcat(a[1..], b, ch);
    }
  }

  lemma UnsentWithout(q: seq<Command>, i: nat, ch: nat)
    requires i < |q| && q[i].sendAttempts >= 1
    ensures Unsent(Without(q, i), ch) == Unsent(q, ch)
  {
    assert q == q[..i] + ([q[i]] + q[i + 1..]);
    UnsentConcat(q[..i], [q[i]] + q[i + 1..], ch);
    UnsentConcat(q[..i], q[i + 1..], ch);
    assert ([q[i]] + q[i + 1..])[1..] == q[i + 1..];
  }

  lemma UnsentWith(q: seq<Command>, i: nat, c: Command, ch: nat)
    requires i <= |q| && c.sendAttempts >= 1
    ensures Unsent(With(q, i, c), ch) == Unsent(q, ch)
  {
    UnsentWithout(With(q, i, c), i, ch);
    assert Without(With(q, i, c), i) == q;
  }

  lemma IntervalTail(from: nat, to: nat, tail: seq<nat>)
    requires from <= to && Interval(from, to) == [from + 1] + tail
    ensures from < to && tail == Interval(from + 1, to)
  {
    assert |Interval(from, to)| == |tail| + 1;
    assert forall i :: 0 <= i < |tail| ==> tail[i] == Interval(from, to)[i + 1];
  }

  lemma IntervalHead(from: nat, to: nat, head: nat, tail: seq<nat>)
    requires Interval(from, to) == [head] + tail
    ensures from < to && head == from + 1
  {
    assert |Interval(from, to)| == |tail| + 1;
    assert Interval(from, to)[0] == head;
  }

  lemma IntervalGrows(from: nat, to: nat)
    requires from <= to
    ensures Interval(from, to + 1) == Interval(from, to) + [to + 1]
  {
  }

  lemma AttemptedFirstWith(q: seq<Command>, k: nat, c: Command)
    requires AttemptedFirst(q) && k <= |q| && c.sendAttempts >= 1
    requires forall i :: 0 <= i < k && q[i].acknowledge ==> q[i].sendAttempts >= 1
    ensures AttemptedFirst(With(q, k, c))
  {
  }

  lemma AttemptedFirstWithout(q: seq<Command>, k: nat)
    requires AttemptedFirst(q) && k < |q|
    ensures AttemptedFirst(Without(q, k))
  {
  }

  // ----- every move keeps the ledger

  lemma QueueTotals(l: Ledger, c: Command, m: Measure)
    requires Queueable(l, c)
    ensures Total(Queue(l, c), m) == Total(l, m) + Weight(m, c)
  {
    TallyConcat(l.sendReliable, [c], m);
    TallyConcat(l.outgoing, [c], m);
    TallyOne(c, m);
  }

  lemma QueueKeeps(l: Ledger, c: Command)
    requires LedgerOk(l) && Queueable(l, c)
    ensures LedgerOk(Queue(l, c))
  {
    hide Total, Tally, Bit, Unsent, Interval, References;
    var l' := Queue(l, c);
    forall m
      ensures Total(l', m) == Total(l, m) + Weight(m, c)
    {
      QueueTotals(l, c, m);
    }
    SameCounts(l, l');
    RetainedReferences(l, l', c);
    forall ch | 0 <= ch < |l.windows|
      ensures Unsent(l'.sendReliable, ch) == Interval(l'.started[ch], l'.queued[ch])
    {
      QueueUnsent(l, c, ch);
    }
  }

  lemma QueueUnsent(l: Ledger, c: Command, ch: nat)
    requires Shapes(l) && Numbering(l) && Queueable(l, c) && ch < |l.windows|
    ensures Unsent(Queue(l, c).sendReliable, ch) == Interval(l.started[ch], Queue(l, c).queued[ch])
  {
    UnsentConcat(l.sendReliable, [c], ch);
    IntervalGrows(l.started[ch], l.queued[ch]);
    assert Unsent(l.sendReliable, ch) == Interval(l.started[ch], l.queued[ch]);
  }

  lemma TransmitReliableTotals(l: Ledger, time: uint32, timeout: uint32, m: Measure)
    requires Shapes(l) && l.sendReliable != []
    ensures var c := l.sendReliable[0];
            Total(TransmitReliable(l, time, timeout), m) == Total(l, m) - Weight(m, c) + Weight(m, Attempted(c, time, timeout))
  {
    var c := Attempted(l.sendReliable[0], time, timeout);
    TallyConcat(l.sent, [c], m);
    TallyOne(c, m);
  }

  /** The first command of the queue that has never been sent is the channel's next number. */
  lemma NextUnsent(l: Ledger)
    requires Shapes(l) && Orders(l) && Numbering(l) && l.sendReliable != []
    ensures var c := l.sendReliable[0];
            && c.channelID < |l.windows|
            && (c.sendAttempts == 0 ==> && c.number == l.started[c.channelID] + 1 <= l.queued[c.channelID]
                                        && c.number !in l.outstanding[c.channelID])
  {
    hide Total;
    var c := l.sendReliable[0];
    assert SendReliableOk(c, |l.windows|);
    if c.sendAttempts == 0 {
      var ch := c.channelID;
      assert Unsent(l.sendReliable, ch) == [c.number] + Unsent(l.sendReliable[1..], ch);
      IntervalHead(l.started[ch], l.queued[ch], c.number, Unsent(l.sendReliable[1..], ch));
    }
  }

  lemma TransmitNumbering(l: Ledger, time: uint32, timeout: uint32)
    requires Shapes(l) && Orders(l) && Numbering(l) && l.sendReliable != []
    ensures Shapes(TransmitReliable(l, time, timeout)) && Numbering(TransmitReliable(l, time, timeout))
  {
    hide Total, Interval;
    NextUnsent(l);
    var c := l.sendReliable[0];
    var c' := Attempted(c, time, timeout);
    var l' := TransmitReliable(l, time, timeout);
    assert SendReliableOk(c, |l.windows|);
    forall ch | 0 <= ch < |l.windows|
      ensures l'.started[ch] <= l'.queued[ch] && Unsent(l'.sendReliable, ch) == Interval(l'.started[ch], l'.queued[ch])
    {
      assert Unsent(l.sendReliable, ch) == Interval(l.started[ch], l.queued[ch]);
      if ch == c.channelID && c.sendAttempts == 0 {
        assert Unsent(l.sendReliable, ch) == [c.number] + Unsent(l'.sendReliable, ch);
        IntervalTail(l.started[ch], l.queued[ch], Unsent(l'.sendReliable, ch));
      }
    }
    forall ch, n | 0 <= ch < |l.windows|
      ensures Total(l', Numbered(ch, n)) == (if n in l'.outstanding[ch] then 1 else 0)
      ensures n in l'.outstanding[ch] ==> 1 <= n <= l'.started[ch]
    {
      TransmitReliableTotals(l, time, timeout, Numbered(ch, n));
      assert Total(l, Numbered(ch, n)) == (if n in l.outstanding[ch] then 1 else 0);
    }
  }

  lemma TransmitReliableKeeps(l: Ledger, time: uint32, timeout: uint32)
    requires LedgerOk(l) && l.sendReliable != []
    ensures LedgerOk(TransmitReliable(l, time, timeout))
  {
    hide Total, Tally, Bit, Unsent, Interval, References, Numbering, Wire;
    TransmitNumbering(l, time, timeout);
    var c := l.sendReliable[0];
    var c' := Attempted(c, time, timeout);
    var l' := TransmitReliable(l, time, timeout);
    assert SendReliableOk(c, |l.windows|);
    forall m
      ensures Total(l', m) == Total(l, m) - Weight(m, c) + Weight(m, c')
    {
      TransmitReliableTotals(l, time, timeout, m);
    }
    OpenedCounts(l, l', c, c');
    SameReferences(l, l');
    TallyConcat(l.sent, [c'], Bytes);
    TallyOne(c', Bytes);
    AttemptedFirstTail(l.sendReliable);
  }

  lemma SameReferences(l: Ledger, l': Ledger)
    requires References(l) && l'.references == l.references && forall id :: Total(l', Holding(id)) == Total(l, Holding(id))
    ensures References(l')
  {
  }

  lemma AttemptedFirstTail(q: seq<Command>)
    requires AttemptedFirst(q) && q != []
    ensures AttemptedFirst(q[1..])
  {
  }

  /** A move that trades no transmitted reliable command for anything else leaves numbers and windows alone. */
  lemma SameNumbering(l: Ledger, l': Ledger)
    requires Shapes(l) && Numbering(l)
    requires l'.windows == l.windows && l'.used == l.used && l'.queued == l.queued && l'.started == l.started
    requires l'.outstanding == l.outstanding
    requires forall ch :: 0 <= ch < |l.windows| ==> Unsent(l'.sendReliable, ch) == Unsent(l.sendReliable, ch)
    requires forall ch, n :: 0 <= ch < |l.windows| ==> Total(l', Numbered(ch, n)) == Total(l, Numbered(ch, n))
    ensures Shapes(l') && Numbering(l')
  {
  }

  lemma TransmitControlKeeps(l: Ledger, time: uint32, timeout: uint32)
    requires LedgerOk(l) && l.outgoing != [] && l.outgoing[0].acknowledge
    ensures LedgerOk(TransmitControl(l, time, timeout))
  {
    hide Total, Tally, Bit, Unsent, Interval, References, Numbering, Wire;
    var c := l.outgoing[0];
    var c' := Attempted(c, time, timeout);
    var l' := TransmitControl(l, time, timeout);
    assert OutgoingOk(c, |l.windows|);
    forall m
      ensures Total(l', m) == Total(l, m) - Weight(m, c) + Weight(m, c')
    {
      TransmitControlTotals(l, time, timeout, m);
    }
    SameCounts(l, l');
    SameReferences(l, l');
    SameNumbering(l, l');
    TallyConcat(l.sent, [c'], Bytes);
    TallyOne(c', Bytes);
    AttemptedFirstTail(l.outgoing);
  }

  lemma TransmitControlTotals(l: Ledger, time: uint32, timeout: uint32, m: Measure)
    requires l.outgoing != []
    ensures var c := l.outgoing[0];
            Total(TransmitControl(l, time, timeout), m) == Total(l, m) - Weight(m, c) + Weight(m, Attempted(c, time, timeout))
  {
    var c := Attempted(l.outgoing[0], time, timeout);
    TallyConcat(l.sent, [c], m);
    TallyOne(c, m);
  }

  /** The three moves of unreliable commands change no count of reliable ones. */
  lemma UnreliableKeeps(l: Ledger, l': Ledger, c: Command)
    requires LedgerOk(l) && !c.acknowledge
    requires l' == l.(outgoing := l'.outgoing, sentUnreliable := l'.sentUnreliable, references := l'.references)
    requires References(l') && AttemptedFirst(l'.outgoing)
    requires forall m: Measure :: m.Windowed? || m.Numbered? ==> Total(l', m) == Total(l, m)
    requires forall i :: 0 <= i < |l'.outgoing| ==> OutgoingOk(l'.outgoing[i], |l.windows|)
    requires forall i :: 0 <= i < |l'.sentUnreliable| ==> !l'.sentUnreliable[i].acknowledge && l'.sentUnreliable[i].packet.Some?
    ensures LedgerOk(l')
  {
    hide Total, Tally, Bit, Unsent, Interval, References, Numbering, OutgoingOk, AttemptedFirst;
    SameCounts(l, l');
    SameNumbering(l, l');
  }

  lemma TransmitUnreliableKeeps(l: Ledger)
    requires LedgerOk(l) && l.outgoing != [] && !l.outgoing[0].acknowledge
    ensures LedgerOk(TransmitUnreliable(l))
  {
    hide Bit, Unsent, Interval, References, Numbering, Counters;
    var c, l' := l.outgoing[0], TransmitUnreliable(l);
    forall m
      ensures Total(l', m) == Total(l, m) - (if c.packet.None? then Weight(m, c) else 0)
    {
      TallyConcat(l.sentUnreliable, [c], m);
      TallyOne(c, m);
    }
    SameReferences(l, l');
    AttemptedFirstTail(l.outgoing);
    UnreliableKeeps(l, l', c);
  }

  lemma DropKeeps(l: Ledger)
    requires LedgerOk(l) && l.outgoing != [] && !l.outgoing[0].acknowledge
    ensures LedgerOk(Drop(l))
  {
    hide Bit, Unsent, Interval, References, Numbering, Counters;
    var c, l' := l.outgoing[0], Drop(l);
    assert forall m :: Total(l', m) == Total(l, m) - Weight(m, c);
    ReleasedReferences(l, l', c);
    AttemptedFirstTail(l.outgoing);
    UnreliableKeeps(l, l', c);
  }

  lemma ReleaseKeeps(l: Ledger)
    requires LedgerOk(l) && l.sentUnreliable != []
    ensures LedgerOk(Release(l))
  {
    hide Bit, Unsent, Interval, References, Numbering, Counters, AttemptedFirst;
    var c, l' := l.sentUnreliable[0], Release(l);
    assert forall m :: Total(l', m) == Total(l, m) - Weight(m, c);
    ReleasedReferences(l, l', c);
    UnreliableKeeps(l, l', c);
  }

  lemma ExpireTotals(l: Ledger, i: nat, k: nat, timeout: uint32, m: Measure)
    requires LedgerOk(l) && i < |l.sent| && k <= |if l.sent[i].packet.Some? then l.sendReliable else l.outgoing|
    ensures Total(Expire(l, i, k, timeout), m) == Total(l, m)
  {
    hide LedgerOk;
    var c := l.sent[i].(roundTripTimeout := timeout);
    SameWeights(l.sent[i], c, m);
    TallyWithout(l.sent, i, m);
    if c.packet.Some? {
      TallyWith(l.sendReliable, k, c, m);
    } else {
      TallyWith(l.outgoing, k, c, m);
    }
  }

  /** A timed-out command goes in front of what has never been sent. */
  lemma ExpireKeeps(l: Ledger, i: nat, k: nat, timeout: uint32)
    requires LedgerOk(l) && i < |l.sent|
    requires var q := if l.sent[i].packet.Some? then l.sendReliable else l.outgoing;
             k <= |q| && forall x :: 0 <= x < k && q[x].acknowledge ==> q[x].sendAttempts >= 1
    ensures LedgerOk(Expire(l, i, k, timeout))
  {
    hide Total, Tally, Bit, Unsent, Interval, References, Numbering, AttemptedFirst, WindowCounts;
    var c, l' := l.sent[i].(roundTripTimeout := timeout), Expire(l, i, k, timeout);
    assert SentOk(l.sent[i], |l.windows|);
    forall m
      ensures Total(l', m) == Total(l, m)
    {
      ExpireTotals(l, i, k, timeout, m);
    }
    assert WindowCounts(l) by { CountersParts(l); }
    SameCounts(l, l');
    SameReferences(l, l');
    TallyWithout(l.sent, i, Bytes);
    if c.packet.Some? {
      forall ch: nat
        ensures Unsent(l'.sendReliable, ch) == Unsent(l.sendReliable, ch)
      {
        UnsentWith(l.sendReliable, k, c, ch);
      }
      AttemptedFirstWith(l.sendReliable, k, c);
    } else {
      AttemptedFirstWith(l.outgoing, k, c);
    }
    SameNumbering(l, l');
    CountersWhole(l');
  }

  lemma CountersParts(l: Ledger)
    requires Shapes(l) && Counters(l)
    ensures WindowCounts(l) && l.inTransit == Tally(l.sent, Bytes)
  {
  }

  lemma CountersWhole(l: Ledger)
    requires Shapes(l) && WindowCounts(l) && l.inTransit == Tally(l.sent, Bytes)
    ensures Counters(l)
  {
  }

  /** What the three forms of an acknowledgement share: one transmitted command is gone. */
  lemma RemovedKeeps(l: Ledger, l': Ledger, c: Command)
    requires LedgerOk(l) && c.acknowledge && c.sendAttempts >= 1
    requires forall m :: Total(l', m) == Total(l, m) - Weight(m, c)
    requires l' == Closed(l, c).(outgoing := l'.outgoing, sendReliable := l'.sendReliable, sent := l'.sent, inTransit := l'.inTransit,
                                 references := Released(l.references, c.packet))
    requires Orders(l') && l'.inTransit == Tally(l'.sent, Bytes)
    requires forall ch :: 0 <= ch < |l.windows| ==> Unsent(l'.sendReliable, ch) == Unsent(l.sendReliable, ch)
    ensures LedgerOk(l')
  {
    hide Total, Tally, Bit, Unsent, Interval, References, WindowCounts, Orders, Wire;
    WindowIndex(c.number);
    CountersParts(l);
    ClosedCounts(l, l', c);
    ReleasedReferences(l, l', c);
    CountersWhole(l');
    ClosedNumbering(l, l', c);
  }

  lemma ClosedNumbering(l: Ledger, l': Ledger, c: Command)
    requires Shapes(l) && Shapes(l') && Numbering(l) && c.acknowledge && c.sendAttempts >= 1
    requires forall m :: Total(l', m) == Total(l, m) - Weight(m, c)
    requires |l'.windows| == |l.windows| && l'.queued == l.queued && l'.started == l.started
    requires l'.outstanding == if c.channelID >= |l.windows| then l.outstanding
                               else l.outstanding[c.channelID as int := l.outstanding[c.channelID] - {c.number}]
    requires forall ch :: 0 <= ch < |l.windows| ==> Unsent(l'.sendReliable, ch) == Unsent(l.sendReliable, ch)
    ensures Numbering(l')
  {
    hide Total, Unsent, Interval;
    forall ch, n | 0 <= ch < |l.windows|
      ensures Total(l', Numbered(ch, n)) == (if n in l'.outstanding[ch] then 1 else 0)
    {
      assert Total(l, Numbered(ch, n)) == (if n in l.outstanding[ch] then 1 else 0);
      assert Total(l', Numbered(ch, n)) == Total(l, Numbered(ch, n)) - Weight(Numbered(ch, n), c);
    }
  }

  lemma AcknowledgeSentKeeps(l: Ledger, i: nat)
    requires LedgerOk(l) && i < |l.sent|
    ensures LedgerOk(AcknowledgeSent(l, i))
  {
    hide Total, Bit, Unsent, Interval, References, Numbering, AttemptedFirst, Wire;
    var c, l' := l.sent[i], AcknowledgeSent(l, i);
    WindowIndex(c.number);
    assert SentOk(c, |l.windows|);
    forall m
      ensures Total(l', m) == Total(l, m) - Weight(m, c)
    {
      AcknowledgeTotals(l, l', c, m, i, 0);
    }
    TallyWithout(l.sent, i, Bytes);
    RemovedKeeps(l, l', c);
  }

  lemma AcknowledgeOutgoingKeeps(l: Ledger, i: nat)
    requires LedgerOk(l) && i < |l.outgoing| && l.outgoing[i].acknowledge && l.outgoing[i].sendAttempts >= 1
    ensures LedgerOk(AcknowledgeOutgoing(l, i))
  {
    hide Total, Bit, Unsent, Interval, References, Numbering, AttemptedFirst, Wire;
    var c, l' := l.outgoing[i], AcknowledgeOutgoing(l, i);
    WindowIndex(c.number);
    assert OutgoingOk(c, |l.windows|);
    forall m
      ensures Total(l', m) == Total(l, m) - Weight(m, c)
    {
      AcknowledgeTotals(l, l', c, m, i, 1);
    }
    AttemptedFirstWithout(l.outgoing, i);
    RemovedKeeps(l, l', c);
  }

  lemma AcknowledgeQueuedKeeps(l: Ledger, i: nat)
    requires LedgerOk(l) && i < |l.sendReliable| && l.sendReliable[i].sendAttempts >= 1
    ensures LedgerOk(AcknowledgeQueued(l, i))
  {
    hide Total, Bit, Unsent, Interval, References, Numbering, AttemptedFirst, Wire;
    var c, l' := l.sendReliable[i], AcknowledgeQueued(l, i);
    WindowIndex(c.number);
    assert SendReliableOk(c, |l.windows|);
    forall m
      ensures Total(l', m) == Total(l, m) - Weight(m, c)
    {
      AcknowledgeTotals(l, l', c, m, i, 2);
    }
    AttemptedFirstWithout(l.sendReliable, i);
    forall ch: nat
      ensures Unsent(l'.sendReliable, ch) == Unsent(l.sendReliable, ch)
    {
      UnsentWithout(l.sendReliable, i, ch);
    }
    RemovedKeeps(l, l', c);
  }

  /** Taking command i out of one of the three queues. */
  lemma AcknowledgeTotals(l: Ledger, l': Ledger, c: Command, m: Measure, i: nat, queue: nat)
    requires l'.sentUnreliable == l.sentUnreliable
    requires match queue
             case 0 => i < |l.sent| && c == l.sent[i] && l'.sent == Without(l.sent, i)
                       && l'.outgoing == l.outgoing && l'.sendReliable == l.sendReliable
             case 1 => i < |l.outgoing| && c == l.outgoing[i] && l'.outgoing == Without(l.outgoing, i)
                       && l'.sent == l.sent && l'.sendReliable == l.sendReliable
             case _ => i < |l.sendReliable| && c == l.sendReliable[i] && l'.sendReliable == Without(l.sendReliable, i)
                       && l'.outgoing == l.outgoing && l'.sent == l.sent
    ensures Total(l', m) == Total(l, m) - Weight(m, c)
  {
    match queue
    case 0 => TallyWithout(l.sent, i, m);
    case 1 => TallyWithout(l.outgoing, i, m);
    case _ => TallyWithout(l.sendReliable, i, m);
  }

  // ----- what the counters mean in unbounded numbers

  /** The transmitted commands of a queue in window w, when no number occurs twice. */
  lemma {:induction false} TallyIsSize(q: seq<Command>, ch: nat, w: nat, o: set<nat>)
    requires forall n :: Tally(q, Numbered(ch, n)) == if n in o then 1 else 0
    ensures Tally(q, Windowed(ch, w)) == |InWindow(o, w)|
    decreases |q|
  {
    if q == [] {
      forall n
        ensures n !in o
      {
        assert Tally(q, Numbered(ch, n)) == 0;
      }
      assert InWindow(o, w) == {};
    } else {
      var c := q[0];
      WindowIndex(c.number);
      if c.acknowledge && c.sendAttempts >= 1 && c.channelID == ch {
        var n := c.number;
        assert Tally(q, Numbered(ch, n)) == 1 + Tally(q[1..], Numbered(ch, n));
        var o' := o - {n};
        forall k
          ensures Tally(q[1..], Numbered(ch, k)) == if k in o' then 1 else 0
        {
          assert Tally(q, Numbered(ch, k)) == Weight(Numbered(ch, k), c) + Tally(q[1..], Numbered(ch, k));
        }
        TallyIsSize(q[1..], ch, w, o');
        if WindowOf(n) % RELIABLE_WINDOWS == w {
          assert InWindow(o, w) == InWindow(o', w) + {n};
        } else {
          assert InWindow(o, w) == InWindow(o', w);
        }
      } else {
        forall k
          ensures Tally(q[1..], Numbered(ch, k)) == if k in o then 1 else 0
        {
          assert Tally(q, Numbered(ch, k)) == Weight(Numbered(ch, k), c) + Tally(q[1..], Numbered(ch, k));
        }
        TallyIsSize(q[1..], ch, w, o);
      }
    }
  }

  lemma TotalIsTally(l: Ledger, m: Measure)
    ensures Total(l, m) == Tally(l.outgoing + l.sendReliable + l.sent + l.sentUnreliable, m)
  {
    TallyConcat(l.outgoing, l.sendReliable, m);
    TallyConcat(l.outgoing + l.sendReliable, l.sent, m);
    TallyConcat(l.outgoing + l.sendReliable + l.sent, l.sentUnreliable, m);
  }

  /** reliableWindows[w] is the number of outstanding numbers in window w. */
  lemma CounterIsSize(l: Ledger, ch: nat, w: nat)
    requires LedgerOk(l) && ch < |l.windows| && w < RELIABLE_WINDOWS
    ensures l.windows[ch][w] == |InWindow(l.outstanding[ch], w)|
    ensures Bit(l.used[ch], w) <==> InWindow(l.outstanding[ch], w) != {}
  {
    hide Total, Tally, Bit, InWindow, Orders, References;
    var q := l.outgoing + l.sendReliable + l.sent + l.sentUnreliable;
    forall n
      ensures Tally(q, Numbered(ch, n)) == if n in l.outstanding[ch] then 1 else 0
    {
      TotalIsTally(l, Numbered(ch, n));
      assert Total(l, Numbered(ch, n)) == (if n in l.outstanding[ch] then 1 else 0);
    }
    TotalIsTally(l, Windowed(ch, w));
    TallyIsSize(q, ch, w, l.outstanding[ch]);
  }

  /** The test before a new window is entered. */
  predicate Blocked(windows: seq<nat>, used: bv16, c: Command)
    requires |windows| == RELIABLE_WINDOWS
  {
    var w := Wire(c.number) / RELIABLE_WINDOW_SIZE;
    && c.sendAttempts < 1
    && Wire(c.number) % RELIABLE_WINDOW_SIZE == 0
    && (windows[(w + RELIABLE_WINDOWS - 1) % RELIABLE_WINDOWS] >= RELIABLE_WINDOW_SIZE || MaskHits(used, w))
  }

  /** With the ledger in order, that test decides on the outstanding numbers themselves. */
  lemma BlockedExactly(l: Ledger, ch: nat, c: Command)
    requires LedgerOk(l) && ch < |l.windows| && c.sendAttempts == 0
    ensures Shapes(l)
    ensures Blocked(l.windows[ch], l.used[ch], c) <==> !MayStart(l.outstanding[ch], c.number)
  {
    hide LedgerOk, Bit, InWindow, MaskHits, Wire;
    LedgerShapes(l);
    var o, n := l.outstanding[ch], c.number;
    WindowIndex(n);
    var w := Wire(n) / RELIABLE_WINDOW_SIZE;
    CounterIsSize(l, ch, (w + RELIABLE_WINDOWS - 1) % RELIABLE_WINDOWS);
    AroundWindows(WindowOf(n), w);
    MaskBits(l.used[ch], w);
    if MaskHits(l.used[ch], w) {
      var k: nat :| k < RELIABLE_WINDOWS && (k - w) % RELIABLE_WINDOWS < FREE_RELIABLE_WINDOWS + 2 && Bit(l.used[ch], k);
      CounterIsSize(l, ch, k);
      var m := SomeInWindow(o, k);
      SameResidue(WindowOf(m), WindowOf(n), k, w);
    }
    if m :| m in o && (WindowOf(m) - WindowOf(n)) % RELIABLE_WINDOWS < FREE_RELIABLE_WINDOWS + 2 {
      var k := WindowOf(m) % RELIABLE_WINDOWS;
      InItsWindow(o, m);
      CounterIsSize(l, ch, k);
      SameResidue(WindowOf(m), WindowOf(n), k, w);
    }
  }

  lemma LedgerShapes(l: Ledger)
    requires LedgerOk(l)
    ensures Shapes(l)
  {
  }

  lemma SomeInWindow(o: set<nat>, k: nat) returns (m: nat)
    requires InWindow(o, k) != {}
    ensures m in o && WindowOf(m) % RELIABLE_WINDOWS == k
  {
    m :| m in InWindow(o, k);
  }

  lemma InItsWindow(o: set<nat>, m: nat)
    requires m in o
    ensures InWindow(o, WindowOf(m) % RELIABLE_WINDOWS) != {}
  {
    assert m in InWindow(o, WindowOf(m) % RELIABLE_WINDOWS);
  }

  lemma AroundWindows(x: nat, w: nat)
    requires w == x % RELIABLE_WINDOWS
    ensures (x + RELIABLE_WINDOWS - 1) % RELIABLE_WINDOWS == (w + RELIABLE_WINDOWS - 1) % RELIABLE_WINDOWS
  {
  }

  lemma SameResidue(x: nat, y: nat, k: nat, w: nat)
    requires k == x % RELIABLE_WINDOWS && w == y % RELIABLE_WINDOWS
    ensures (x - y) % RELIABLE_WINDOWS == (k - w) % RELIABLE_WINDOWS
  {
  }

  // ----- what a channel's first transmissions amount to

  /** What is outstanding once the numbers from+1 to `to` have been transmitted as well. */
  ghost function Reached(o: set<nat>, from: nat, to: nat): set<nat> {
    if to <= from then o else Reached(o, from, to - 1) + {to}
  }

  /** ... and each of them might start when it did. */
  ghost predicate MayReach(o: set<nat>, from: nat, to: nat) {
    to <= from || (MayReach(o, from, to - 1) && MayStart(Reached(o, from, to - 1), to))
  }

  ghost predicate Begins(o: set<nat>, from: nat, o': set<nat>, to: nat) {
    from <= to && o' == Reached(o, from, to) && MayReach(o, from, to)
  }

  ghost predicate Progress(l: Ledger, l': Ledger) {
    && |l.outstanding| == |l.started| == |l'.outstanding| == |l'.started| && l'.queued == l.queued
    && forall ch :: 0 <= ch < |l.started| ==> Begins(l.outstanding[ch], l.started[ch], l'.outstanding[ch], l'.started[ch])
  }

  lemma ProgressSelf(l: Ledger)
    requires Shapes(l)
    ensures Progress(l, l)
  {
  }

  lemma ProgressTransmit(start: Ledger, l: Ledger, time: uint32, timeout: uint32)
    requires LedgerOk(l) && Progress(start, l) && l.sendReliable != []
    requires var c := l.sendReliable[0];
             c.channelID < |l.windows| && !Blocked(l.windows[c.channelID], l.used[c.channelID], c)
    ensures Shapes(l) && Progress(start, TransmitReliable(l, time, timeout))
  {
    hide Counters, References, Orders, MayStart, Blocked;
    var c, l' := l.sendReliable[0], TransmitReliable(l, time, timeout);
    assert Orders(l) && Numbering(l);
    NextUnsent(l);
    if c.sendAttempts == 0 {
      var ch := c.channelID;
      BlockedExactly(l, ch, c);
    }
  }

  lemma ProgressOther(start: Ledger, l: Ledger, l': Ledger)
    requires Progress(start, l) && l'.outstanding == l.outstanding && l'.started == l.started && l'.queued == l.queued
    ensures Progress(start, l')
  {
  }

  /** Such transmissions are steps of the channel's system, and so keep the invariant between the two peers. */
  lemma {:induction false} BeginsKeeps(s: System, o': set<nat>, n: nat)
    requires Inv(s) && Begins(s.outstanding, s.sent, o', n) && n <= End(s.packets)
    ensures Inv(s.(sent := n, outstanding := o'))
    decreases n
  {
    hide MayStart, Inv;
    InvPackets(s);
    if s.sent < n {
      var o := Reached(s.outstanding, s.sent, n - 1);
      BeginsKeeps(s, o, n - 1);
      TransmitKeeps(s.(sent := n - 1, outstanding := o));
    }
  }
}
