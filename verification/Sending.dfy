/** The sending half of a peer, as the program keeps it: four queues of commands, counters that are updated in
    place, and the datagram that is being filled. */
module Sending {
  import opened Integers
  import opened Options
  import opened Words
  import opened SequenceNumbers
  import opened WindowMask
  import opened Fragmentation
  import opened SendingOrder
  import Reassembly
  import opened ReliableDelivery
  import opened SendLedger

  const TIME_OVERFLOW := 86400000

  predicate TimeLess(a: uint32, b: uint32) {
    Wrap32(a - b) >= TIME_OVERFLOW
  }

  function TimeDifference(a: uint32, b: uint32): uint32 {
    if Wrap32(a - b) >= TIME_OVERFLOW then Wrap32(b - a) else Wrap32(a - b)
  }

  // ----- what a timeout check does to the queue of sent commands

  predicate Expired(c: Command, time: uint32) {
    TimeDifference(time, c.sentTime) >= c.roundTripTimeout
  }

  /** When a transmitted command times out. */
  function Deadline(c: Command): uint32 {
    Wrap32(c.sentTime + c.roundTripTimeout)
  }

  /** The test that saves a look at the queue is exact for its first command, for times less than a day apart. */
  lemma DueExactly(c: Command, time: uint32)
    requires Wrap32(time - c.sentTime) < TIME_OVERFLOW && c.roundTripTimeout <= TIME_OVERFLOW
    ensures !TimeLess(time, Deadline(c)) <==> Expired(c, time)
    ensures Expired(c, time) <==> Wrap32(time - c.sentTime) >= c.roundTripTimeout
  {
    hide Wrap32;
    var d: uint32 := Wrap32(time - c.sentTime);
    WrapDifference(time, c.sentTime, c.roundTripTimeout);
    WrapSmall(d - c.roundTripTimeout);
  }

  lemma WrapDifference(time: uint32, a: uint32, r: uint32)
    ensures Wrap32(time - Wrap32(a + r)) == Wrap32(Wrap32(time - a) - r)
  {
  }

  lemma WrapNext(x: int)
    ensures Wrap32((Wrap32(x) as int) + 1) == Wrap32(x + 1)
  {
  }

  lemma WrapSmall(x: int)
    ensures 0 <= x < 0x1_0000_0000 ==> Wrap32(x) == x
    ensures -0x1_0000_0000 < x < 0 ==> Wrap32(x) == x + 0x1_0000_0000
  {
  }

  function Doubled(c: Command): Command {
    c.(roundTripTimeout := Wrap32(2 * c.roundTripTimeout))
  }

  ghost function Kept(q: seq<Command>, time: uint32): seq<Command> {
    if q == [] then []
    else if Expired(q[|q| - 1], time) then Kept(q[..|q| - 1], time)
    else Kept(q[..|q| - 1], time) + [q[|q| - 1]]
  }

  /** The expired commands with a packet, or those without, in order. */
  ghost function Requeued(q: seq<Command>, time: uint32, packets: bool): seq<Command> {
    if q == [] then []
    else
      var c := q[|q| - 1];
      if Expired(c, time) && c.packet.Some? == packets then Requeued(q[..|q| - 1], time, packets) + [Doubled(c)]
      else Requeued(q[..|q| - 1], time, packets)
  }

  lemma KeptStart(q: seq<Command>, time: uint32)
    ensures q[..0] == [] && q[0..] == q
    ensures Kept([], time) == [] && Requeued([], time, true) == [] && Requeued([], time, false) == []
  {
  }

  /** One turn of the check. */
  lemma KeptStep(q: seq<Command>, k: nat, time: uint32)
    requires k < |q|
    ensures (Kept(q[..k], time) + q[k..])[|Kept(q[..k], time)|] == q[k]
    ensures Kept(q[..k + 1], time) == if Expired(q[k], time) then Kept(q[..k], time) else Kept(q[..k], time) + [q[k]]
    ensures forall packets :: Requeued(q[..k + 1], time, packets)
                              == if Expired(q[k], time) && q[k].packet.Some? == packets
                                 then Requeued(q[..k], time, packets) + [Doubled(q[k])] else Requeued(q[..k], time, packets)
    ensures Kept(q[..k], time) + q[k..] == Kept(q[..k], time) + [q[k]] + q[k + 1..]
    ensures |Kept(q[..k], time)| < |Kept(q[..k], time) + q[k..]|
  {
    assert q[..k + 1][..k] == q[..k] && q[..k + 1][k] == q[k];
  }

  // ----- when a peer is given up

  /** earliestTimeout after a check of these commands. */
  ghost function Earliest(q: seq<Command>, time: uint32, earliest: uint32): uint32 {
    if q == [] then earliest
    else
      var c, e := q[|q| - 1], Earliest(q[..|q| - 1], time, earliest);
      if Expired(c, time) && (e == 0 || TimeLess(c.sentTime, e)) then c.sentTime else e
  }

  lemma EarliestStart(time: uint32, earliest: uint32, p: Patience)
    ensures Earliest([], time, earliest) == earliest && !Hopeless([], time, earliest, p)
  {
  }

  lemma EarliestStep(q: seq<Command>, k: nat, time: uint32, earliest: uint32)
    requires k < |q|
    ensures var e := Earliest(q[..k], time, earliest);
            Earliest(q[..k + 1], time, earliest)
            == if Expired(q[k], time) && (e == 0 || TimeLess(q[k].sentTime, e)) then q[k].sentTime else e
  {
    assert q[..k + 1][..k] == q[..k];
  }

  /** The silence has lasted too long for an expired command. */
  predicate GivesUp(earliest: uint32, c: Command, time: uint32, p: Patience) {
    && earliest != 0
    && (TimeDifference(time, earliest) >= p.maximum
        || (Power(c.sendAttempts) >= 2 * p.limit && TimeDifference(time, earliest) >= p.minimum))
  }

  /** With a limit that is a power of two, the number of attempts is what counts. */
  lemma GivesUpMeans(earliest: uint32, c: Command, time: uint32, p: Patience, k: nat)
    requires p.limit == Power(k) && Wrap32(time - earliest) < TIME_OVERFLOW
    ensures GivesUp(earliest, c, time, p) <==>
              var silence := Wrap32(time - earliest);
              earliest != 0 && (silence >= p.maximum || (silence >= p.minimum && c.sendAttempts > k))
  {
    PowerGrows(k + 1, c.sendAttempts);
    if c.sendAttempts <= k {
      PowerGrows(c.sendAttempts, k);
    }
  }

  lemma {:induction false} PowerGrows(j: nat, k: nat)
    ensures j <= k ==> Power(j) <= Power(k)
    decreases k
  {
    if j < k {
      PowerGrows(j, k - 1);
    }
  }

  /** With the limits every peer starts with, that is after thirty seconds, or after five and six attempts. */
  lemma GivesUpByDefault(earliest: uint32, c: Command, time: uint32)
    requires Wrap32(time - earliest) < TIME_OVERFLOW
    ensures GivesUp(earliest, c, time, Patience(32, 5000, 30000)) <==>
              var silence := Wrap32(time - earliest);
              earliest != 0 && (silence >= 30000 || (silence >= 5000 && c.sendAttempts >= 6))
  {
    GivesUpMeans(earliest, c, time, Patience(32, 5000, 30000), 5);
  }

  /** If nothing was sent at clock value 0, which stands for none, earliestTimeout is the time of the oldest transmission that
      has expired, in this check or since it was last cleared. */
  lemma {:induction false} EarliestMeans(q: seq<Command>, time: uint32, e: uint32, base: uint32)
    requires forall i :: 0 <= i < |q| ==> q[i].sentTime != 0 && Since(q[i].sentTime, base) < TIME_OVERFLOW
    requires e != 0 ==> Since(e, base) < TIME_OVERFLOW
    ensures var r := Earliest(q, time, e);
            && (r == e || exists i :: 0 <= i < |q| && Expired(q[i], time) && r == q[i].sentTime)
            && (e != 0 ==> r != 0 && Since(r, base) <= Since(e, base))
            && forall i :: 0 <= i < |q| && Expired(q[i], time) ==> r != 0 && Since(r, base) <= Since(q[i].sentTime, base)
  {
    if q != [] {
      hide Expired, TimeLess;
      var rest, c := q[..|q| - 1], q[|q| - 1];
      EarliestMeans(rest, time, e, base);
      assert forall i :: 0 <= i < |rest| ==> rest[i] == q[i];
      OlderTime(c.sentTime, Earliest(rest, time, e), base);
    }
  }

  function Since(time: uint32, base: uint32): uint32 {
    Wrap32(time - base)
  }

  lemma OlderTime(a: uint32, b: uint32, base: uint32)
    ensures Since(a, base) < TIME_OVERFLOW && Since(b, base) < TIME_OVERFLOW ==>
              (TimeLess(a, b) <==> Since(a, base) < Since(b, base))
  {
    WrapTwo(a, b, base);
    WrapSmall(Since(a, base) - Since(b, base));
  }

  lemma WrapTwo(a: uint32, b: uint32, base: uint32)
    ensures Wrap32(a - b) == Wrap32((Wrap32(a - base) as int) - Wrap32(b - base))
  {
  }

  datatype Patience = Patience(limit: uint32, minimum: uint32, maximum: uint32)

  /** ... which ends the check. */
  ghost predicate Hopeless(q: seq<Command>, time: uint32, earliest: uint32, p: Patience) {
    q != [] && (Hopeless(q[..|q| - 1], time, earliest, p)
                || (Expired(q[|q| - 1], time) && GivesUp(Earliest(q, time, earliest), q[|q| - 1], time, p)))
  }

  lemma HopelessStep(q: seq<Command>, k: nat, time: uint32, earliest: uint32, p: Patience)
    requires k < |q|
    ensures Hopeless(q[..k + 1], time, earliest, p) <==>
            Hopeless(q[..k], time, earliest, p) || (Expired(q[k], time) && GivesUp(Earliest(q[..k + 1], time, earliest), q[k], time, p))
  {
    assert q[..k + 1][..k] == q[..k];
  }

  lemma {:induction false} HopelessStays(q: seq<Command>, k: nat, time: uint32, earliest: uint32, p: Patience)
    requires k <= |q| && Hopeless(q[..k], time, earliest, p)
    ensures Hopeless(q, time, earliest, p)
    decreases |q|
  {
    if k < |q| {
      assert q[..|q| - 1][..k] == q[..k];
      HopelessStays(q[..|q| - 1], k, time, earliest, p);
    } else {
      assert q[..k] == q;
    }
  }

  lemma SentAttempted(l: Ledger)
    requires LedgerOk(l)
    ensures forall i :: 0 <= i < |l.sent| ==> l.sent[i].sendAttempts >= 1
  {
  }

  /** The check has come to place k of q: x stays, r and s go back to their queues, and lost of them were lost before. */
  ghost predicate Checked(q: seq<Command>, k: nat, time: uint32, e: uint32, p: Patience, lost: int,
                          x: seq<Command>, r: seq<Command>, s: seq<Command>, earliest: uint32, packetsLost: uint32) {
    && k <= |q| && x == Kept(q[..k], time)
    && r == Requeued(q[..k], time, true) && s == Requeued(q[..k], time, false)
    && earliest == Earliest(q[..k], time, e) && !Hopeless(q[..k], time, e, p)
    && packetsLost == Wrap32(lost + k - |x|)
  }

  lemma CheckedStart(q: seq<Command>, time: uint32, e: uint32, p: Patience, lost: uint32)
    ensures Checked(q, 0, time, e, p, lost, [], [], [], e, lost) && q[0..] == q
  {
    KeptStart(q, time);
    EarliestStart(time, e, p);
    WrapSmall(lost);
  }

  lemma CheckedStep(q: seq<Command>, k: nat, time: uint32, e: uint32, p: Patience, lost: int,
                    x: seq<Command>, r: seq<Command>, s: seq<Command>, earliest: uint32, packetsLost: uint32)
    requires Checked(q, k, time, e, p, lost, x, r, s, earliest, packetsLost) && k < |q|
    ensures (x + q[k..])[|x|] == q[k] && x + q[k..] == x + [q[k]] + q[k + 1..] && |x| < |x + q[k..]|
    ensures var c := q[k];
            if TimeDifference(time, c.sentTime) < c.roundTripTimeout then
              Checked(q, k + 1, time, e, p, lost, x + [c], r, s, earliest, packetsLost)
            else
              var earliest' := if earliest == 0 || TimeLess(c.sentTime, earliest) then c.sentTime else earliest;
              if GivesUp(earliest', c, time, p) then Hopeless(q, time, e, p)
              else Checked(q, k + 1, time, e, p, lost, x, if c.packet.Some? then r + [Doubled(c)] else r,
                           if c.packet.Some? then s else s + [Doubled(c)], earliest', Wrap32((packetsLost as int) + 1))
  {
    hide Kept, Requeued, Doubled, TimeDifference, TimeLess, Earliest, GivesUp, Hopeless, Wrap32;
    KeptStep(q, k, time);
    EarliestStep(q, k, time, e);
    HopelessStep(q, k, time, e, p);
    WrapNext(lost + k - |x|);
    if Hopeless(q[..k + 1], time, e, p) {
      HopelessStays(q, k + 1, time, e, p);
    }
  }

  lemma CheckedSent(q: seq<Command>, k: nat, time: uint32, e: uint32, p: Patience, lost: int,
                    x: seq<Command>, r: seq<Command>, s: seq<Command>, earliest: uint32, packetsLost: uint32)
    requires Checked(q, k, time, e, p, lost, x, r, s, earliest, packetsLost)
    requires forall i :: 0 <= i < |q| ==> q[i].sendAttempts >= 1
    ensures forall i :: 0 <= i < |r| ==> r[i].sendAttempts >= 1
    ensures forall i :: 0 <= i < |s| ==> s[i].sendAttempts >= 1
  {
    RequeuedSent(q[..k], time, true);
    RequeuedSent(q[..k], time, false);
  }

  lemma CheckedEnd(q: seq<Command>, time: uint32, e: uint32, p: Patience, lost: int,
                   x: seq<Command>, r: seq<Command>, s: seq<Command>, earliest: uint32, packetsLost: uint32)
    requires Checked(q, |q|, time, e, p, lost, x, r, s, earliest, packetsLost)
    ensures x == Kept(q, time) && r == Requeued(q, time, true) && s == Requeued(q, time, false)
    ensures earliest == Earliest(q, time, e) && !Hopeless(q, time, e, p) && packetsLost == Wrap32(lost + |q| - |x|)
  {
    assert q[..|q|] == q;
  }

  lemma MoveAt(x: seq<Command>, c: Command, y: seq<Command>, r: seq<Command>, b: seq<Command>, s: seq<Command>, a: seq<Command>)
    ensures Without(x + [c] + y, |x|) == x + y && (x + [c] + y)[|x|] == c
    ensures forall d :: With(r + b, |r|, d) == r + [d] + b && With(s + a, |s|, d) == s + [d] + a
  {
  }

  lemma {:induction false} RequeuedSent(q: seq<Command>, time: uint32, packets: bool)
    requires forall i :: 0 <= i < |q| ==> q[i].sendAttempts >= 1
    ensures forall i :: 0 <= i < |Requeued(q, time, packets)| ==> Requeued(q, time, packets)[i].sendAttempts >= 1
  {
    if q != [] {
      RequeuedSent(q[..|q| - 1], time, packets);
    }
  }

  // ----- which command an acknowledgement is for

  predicate Matching(c: Command, number: uint16, channelID: uint8) {
    Wire(c.number) == number && c.channelID == channelID
  }

  /** A transmitted reliable command with that number. */
  ghost predicate Answers(c: Command, number: uint16, channelID: uint8) {
    c.acknowledge && c.sendAttempts >= 1 && Matching(c, number, channelID)
  }

  ghost predicate NoAnswer(q: seq<Command>, number: uint16, channelID: uint8) {
    forall i :: 0 <= i < |q| ==> !Answers(q[i], number, channelID)
  }

  /** A packet on its way into the queues. number is the channel's reliable number, which an unreliable packet takes. */
  datatype Posting = Posting(manner: Manner, number: nat, packet: Sent, id: nat, channelID: uint8)

  function KindOf(manner: Manner, fragmented: bool): Kind {
    match manner
    case Reliably => if fragmented then SendFragment else SendReliable
    case Unreliably => if fragmented then SendUnreliableFragment else SendUnreliable
    case OutOfSequence => SendUnsequenced
  }

  /** Fragment i of a packet as a queued command, or the whole of it. */
  ghost predicate Carries(c: Command, t: Posting, i: nat) {
    var p := t.packet;
    && p.fragmentLength > 0 && i < Count(p) && Offset(p, i) <= |p.data|
    && c.kind == KindOf(t.manner, Fragmented(p)) && (c.acknowledge <==> t.manner == Reliably)
    && c.sendAttempts == 0 && c.channelID == t.channelID && c.packet == Some(t.id)
    && c.fragmentOffset == Offset(p, i) && c.fragmentLength == (if Fragmented(p) then Length(p, i) else |p.data|)
    && match t.manner
       case Reliably => c.number == p.start + i && c.unreliable == 0
       case Unreliably => c.number == t.number && c.unreliable == p.start
       case OutOfSequence => c.number == 0 && c.unreliable == 0
  }

  ghost predicate CarriesAll(q: seq<Command>, t: Posting) {
    forall k :: 0 <= k < |q| ==> Carries(q[k], t, k)
  }

  /** Queueing a fragment while the references of all fragments are counted already. */
  lemma QueueFragment(l: Ledger, c: Command, references: map<nat, nat>, id: nat)
    requires LedgerOk(l) && Queueable(l.(references := references), c) && c.packet == Some(id)
    ensures Queueable(l, c) && LedgerOk(Queue(l, c)) && Shapes(Queue(l, c))
    ensures Queue(l.(references := references), c).(references := references) == Queue(l, c).(references := references)
    ensures Queue(l, c).references == l.references[id := ReferenceCount(l.references, id) + 1]
  {
    hide LedgerOk;
    QueueKeeps(l, c);
    LedgerShapes(Queue(l, c));
  }

  lemma CarriedFit(before: seq<Command>, q: seq<Command>, t: Posting, mtu: nat)
    requires AllFitEmpty(before, mtu) && CarriesAll(q, t)
    requires t.packet.fragmentLength > 0 && HEADER_SIZE + CommandSize(SendFragment) + t.packet.fragmentLength <= mtu
    ensures AllFitEmpty(before + q, mtu)
  {
  }

  ghost predicate Cut(p: Sent, i: nat) {
    p.fragmentLength < 0x1_0000 && Offset(p, i) < |p.data| < 0x1_0000_0000
  }

  ghost function FragmentCommand(t: Posting, i: nat): Command
    requires Cut(t.packet, i)
  {
    Command(KindOf(t.manner, true), t.manner == Reliably, t.channelID, 0, 0, Some(t.id), Offset(t.packet, i), Length(t.packet, i), 0, 0, 0, 0)
  }

  /** The fragments of a packet, as far as they are cut. */
  ghost predicate Pieces(fragments: seq<Command>, t: Posting) {
    forall i :: 0 <= i < |fragments| ==> Cut(t.packet, i) && fragments[i] == FragmentCommand(t, i)
  }

  lemma PieceAt(fragments: seq<Command>, t: Posting, i: nat)
    requires Pieces(fragments, t) && i < |fragments|
    ensures Cut(t.packet, i) && fragments[i] == FragmentCommand(t, i)
  {
  }

  lemma FragmentFields(t: Posting)
    ensures forall i :: 0 <= i && Cut(t.packet, i) ==>
              var c := FragmentCommand(t, i);
              && (c.acknowledge <==> t.manner == Reliably) && c.packet == Some(t.id) && c.channelID == t.channelID
              && (t.manner != OutOfSequence ==> c.kind != SendUnsequenced) && c.fragmentOffset == Offset(t.packet, i)
  {
  }

  /** One turn of the loop that cuts a packet. */
  lemma CutTurn(p: Sent, i: nat, fragmentOffset: nat, length: nat)
    requires 0 < p.fragmentLength < 0x1_0000 && Fragmented(p) && |p.data| < 0x1_0000_0000
    requires i < Count(p) && fragmentOffset == Offset(p, i)
    requires length == if |p.data| - fragmentOffset < p.fragmentLength then |p.data| - fragmentOffset else p.fragmentLength
    ensures Cut(p, i) && length == Length(p, i)
    ensures i + 1 < Count(p) ==> fragmentOffset + length == Offset(p, i + 1) < |p.data| && length == p.fragmentLength
    ensures i + 1 == Count(p) ==> fragmentOffset + length == |p.data|
  {
    Partition(p, i);
    if i + 1 < Count(p) {
      Partition(p, i + 1);
    }
  }

  lemma CutStart(p: Sent)
    ensures Offset(p, 0) == 0
  {
  }

  lemma OffsetPositive(p: Sent, i: nat)
    requires p.fragmentLength > 0
    ensures Offset(p, i) == 0 <==> i == 0
  {
  }

  /** One of the two queues of new commands has grown. */
  ghost predicate Extends(reliable: bool, queued: seq<Command>, l: Ledger, l': Ledger) {
    && l'.sendReliable == (if reliable then l.sendReliable + queued else l.sendReliable)
    && l'.outgoing == (if reliable then l.outgoing else l.outgoing + queued)
    && l'.sent == l.sent && l'.sentUnreliable == l.sentUnreliable
  }

  lemma ExtendsMore(reliable: bool, queued: seq<Command>, l: Ledger, l': Ledger, c: Command, l'': Ledger)
    requires Extends(reliable, queued, l, l') && Extends(reliable, [c], l', l'')
    ensures Extends(reliable, queued + [c], l, l'')
  {
  }

  /** i references to a packet are counted one by one. */
  ghost predicate Referred(l: Ledger, l': Ledger, id: nat, i: nat) {
    l'.references == if i == 0 then l.references else l.references[id := ReferenceCount(l.references, id) + i]
  }

  lemma QueuesStart(l: Ledger, c: Counts, t: Posting, numbers: seq<nat>, unreliable: seq<uint16>)
    requires t.channelID < |numbers| == |unreliable| && c == Counts(numbers[t.channelID], unreliable[t.channelID])
    ensures Extends(t.manner == Reliably, [], l, l) && CarriesAll([], t) && Referred(l, l, t.id, 0)
    ensures Counted(t, c, 0, numbers, numbers, unreliable, unreliable)
  {
  }

  lemma ReferredAll(l: Ledger, l': Ledger, id: nat, n: nat)
    requires Referred(l, l', id, n) && n > 0
    ensures l'.references == l.references[id := ReferenceCount(l.references, id) + n]
    ensures ReferenceCount(l'.references, id) == ReferenceCount(l.references, id) + n
  {
  }

  lemma QueuesEnd(c: Counts, t: Posting, was: seq<nat>, now: seq<nat>, wasUnreliable: seq<uint16>, nowUnreliable: seq<uint16>)
    requires t.packet.fragmentLength > 0 && Fragmented(t.packet)
    requires if t.manner == Reliably then t.packet.start == c.reliable + 1 else t.packet.start == c.unreliable + 1 <= 0xFFFF
    requires Counted(t, c, Count(t.packet), was, now, wasUnreliable, nowUnreliable)
    ensures Count(t.packet) > 0
    ensures now == if t.manner == Reliably then was[t.channelID as int := Last(t.packet)] else was
    ensures nowUnreliable == wasUnreliable[t.channelID as int := if t.manner == Reliably then 0 else c.unreliable + 1]
  {
    CountCovers(t.packet);
  }

  /** The numbers of the channel that a packet is queued on, when i of its fragments are. */
  ghost predicate Counted(t: Posting, c: Counts, i: nat, was: seq<nat>, now: seq<nat>, wasUnreliable: seq<uint16>, nowUnreliable: seq<uint16>) {
    && t.channelID < |was| == |wasUnreliable|
    && now == (if t.manner == Reliably then was[t.channelID as int := c.reliable + i] else was)
    && nowUnreliable == if i == 0 then wasUnreliable
                        else wasUnreliable[t.channelID as int := if t.manner == Reliably || c.unreliable == 0xFFFF then 0 else c.unreliable + 1]
  }

  lemma FragmentCarries(c: Command, t: Posting, i: nat)
    requires var p := t.packet; p.fragmentLength > 0 && Fragmented(p) && i < Count(p) && Cut(p, i)
    requires c == FragmentCommand(t, i).(number := c.number, unreliable := c.unreliable, sendAttempts := 0,
                                         sentTime := 0, roundTripTimeout := 0, queueTime := c.queueTime)
    requires if t.manner == Reliably then c.number == t.packet.start + i && c.unreliable == 0
             else t.manner == Unreliably && c.number == t.number && c.unreliable == t.packet.start
    ensures Carries(c, t, i)
  {
  }

  /** No transmitted command carries the number. */
  ghost predicate Unanswered(l: Ledger, number: uint16, channelID: uint8) {
    NoAnswer(l.sent, number, channelID) && NoAnswer(l.outgoing, number, channelID) && NoAnswer(l.sendReliable, number, channelID)
  }

  /** One command, c, is gone from its queue. */
  ghost predicate RemovedOne(l: Ledger, l': Ledger, c: Command) {
    || (l'.outgoing == l.outgoing && l'.sendReliable == l.sendReliable && RemovedFrom(l.sent, l'.sent, c))
    || (l'.outgoing == l.outgoing && l'.sent == l.sent && RemovedFrom(l.sendReliable, l'.sendReliable, c))
    || (l'.sendReliable == l.sendReliable && l'.sent == l.sent && RemovedFrom(l.outgoing, l'.outgoing, c))
  }

  ghost predicate RemovedFrom(q: seq<Command>, q': seq<Command>, c: Command) {
    exists i :: 0 <= i < |q| && q[i] == c && q' == Without(q, i)
  }

  lemma LedgerOrders(l: Ledger)
    requires LedgerOk(l)
    ensures Shapes(l) && AttemptedFirst(l.outgoing) && AttemptedFirst(l.sendReliable)
  {
  }

  lemma SentAnswers(l: Ledger, i: nat, number: uint16, channelID: uint8)
    requires LedgerOk(l) && i < |l.sent|
    ensures Matching(l.sent[i], number, channelID) <==> Answers(l.sent[i], number, channelID)
  {
  }

  /** A transmitted command of a channel is outstanding there. */
  lemma OutstandingHas(l: Ledger, c: Command, queue: nat, i: nat)
    requires LedgerOk(l) && c.acknowledge && c.sendAttempts >= 1
    requires match queue
             case 0 => i < |l.sent| && c == l.sent[i]
             case 1 => i < |l.outgoing| && c == l.outgoing[i]
             case _ => i < |l.sendReliable| && c == l.sendReliable[i]
    ensures c.channelID < |l.outstanding| ==> c.number in l.outstanding[c.channelID]
  {
    if c.channelID < |l.outstanding| {
      var m := Numbered(c.channelID, c.number);
      match queue {
        case 0 => TallyWithout(l.sent, i, m);
        case 1 => TallyWithout(l.outgoing, i, m);
        case _ => TallyWithout(l.sendReliable, i, m);
      }
      assert Total(l, m) >= 1;
    }
  }

  /** How many commands at the head of a queue share the numbers of the one that is dropped. */
  ghost function DropSpan(q: seq<Command>, first: Command): (n: nat)
    ensures n <= |q|
  {
    if q == [] || Wire(q[0].number) != Wire(first.number) || q[0].unreliable != first.unreliable || q[0].packet.None? then 0
    else 1 + DropSpan(q[1..], first)
  }

  // ----- the datagram that is being filled

  const HEADER_SIZE := 4
  const MAXIMUM_PACKET_COMMANDS := 32
  const BUFFER_MAXIMUM := 1 + 2 * MAXIMUM_PACKET_COMMANDS
  const MINIMUM_MTU := 576
  const MAXIMUM_MTU := 4096
  const PACKET_THROTTLE_SCALE := 32
  const PACKET_THROTTLE_COUNTER := 7

  ghost function Sum(buffers: seq<nat>): nat {
    if buffers == [] then 0 else Sum(buffers[..|buffers| - 1]) + buffers[|buffers| - 1]
  }

  lemma SumMore(buffers: seq<nat>, n: nat)
    ensures Sum(buffers + [n]) == Sum(buffers) + n
  {
  }

  /** The command fits a datagram of its own; and pings are reliable. */
  ghost predicate FitsEmpty(c: Command, mtu: nat) {
    HEADER_SIZE + CommandSize(c.kind) + c.fragmentLength <= mtu && (c.kind == Ping ==> c.acknowledge)
  }

  ghost predicate AllFitEmpty(q: seq<Command>, mtu: nat) {
    forall i :: 0 <= i < |q| ==> FitsEmpty(q[i], mtu)
  }

  /** A measure of what is still to be sent: pings, which sending itself can add, weigh less than anything else. */
  function Weighed(c: Command): nat {
    if c.kind == Ping then 2 else 4
  }

  ghost function Load(q: seq<Command>): nat {
    if q == [] then 0 else Load(q[..|q| - 1]) + Weighed(q[|q| - 1])
  }

  lemma {:induction false} LoadConcat(a: seq<Command>, b: seq<Command>)
    ensures Load(a + b) == Load(a) + Load(b)
    decreases |b|
  {
    if b == [] {
      assert a + b == a;
    } else {
      assert (a + b)[..|a + b| - 1] == a + b[..|b| - 1];
      LoadConcat(a, b[..|b| - 1]);
    }
  }

  lemma LoadHead(q: seq<Command>)
    requires q != []
    ensures Load(q) == Weighed(q[0]) + Load(q[1..])
  {
    assert q == [q[0]] + q[1..];
    LoadConcat([q[0]], q[1..]);
    assert [q[0]][..0] == [];
  }

  /** What the timeout check would put back. */
  ghost function ExpiredLoad(q: seq<Command>, time: uint32): nat {
    Load(Requeued(q, time, true)) + Load(Requeued(q, time, false))
  }

  ghost predicate JustSent(q: seq<Command>, time: uint32) {
    forall i :: 0 <= i < |q| ==> !Expired(q[i], time)
  }

  lemma JustSentMore(a: seq<Command>, b: seq<Command>, c: seq<Command>, time: uint32)
    requires a <= b <= c && JustSent(b[|a|..], time) && JustSent(c[|b|..], time)
    ensures a <= c && JustSent(c[|a|..], time)
  {
    forall i | 0 <= i < |c[|a|..]|
      ensures !Expired(c[|a|..][i], time)
    {
      if |a| + i < |b| {
        assert b[|a|..][i] == c[|a|..][i];
      } else {
        assert c[|b|..][|a| + i - |b|] == c[|a|..][i];
      }
    }
  }

  lemma {:induction false} JustSentKept(q: seq<Command>, x: seq<Command>, time: uint32)
    requires JustSent(x, time)
    ensures Kept(q + x, time) == Kept(q, time) + x && ExpiredLoad(q + x, time) == ExpiredLoad(q, time)
    decreases |x|
  {
    if x == [] {
      assert q + x == q;
    } else {
      assert (q + x)[..|q + x| - 1] == q + x[..|x| - 1];
      JustSentKept(q, x[..|x| - 1], time);
    }
  }

  lemma LedgerHeads(l: Ledger)
    requires LedgerOk(l)
    ensures l.outgoing != [] ==> OutgoingOk(l.outgoing[0], |l.windows|)
    ensures l.sendReliable != [] ==> SendReliableOk(l.sendReliable[0], |l.windows|)
  {
  }

  ghost predicate MayLeave(l: Ledger, c: Command) {
    Shapes(l) && c.channelID < |l.windows| && !Blocked(l.windows[c.channelID], l.used[c.channelID], c)
  }

  lemma FreshCommand(c: Command, time: uint32, timeout: uint32)
    requires timeout > 0
    ensures !Expired(Attempted(c, time, timeout), time)
    ensures forall mtu :: FitsEmpty(c, mtu) ==> FitsEmpty(Attempted(c, time, timeout), mtu)
  {
  }

  lemma FitsHead(q: seq<Command>, mtu: nat)
    requires AllFitEmpty(q, mtu)
    ensures q != [] ==> FitsEmpty(q[0], mtu) && (q[0].kind == Ping ==> q[0].acknowledge)
  {
  }

  lemma FitsTail(q: seq<Command>, mtu: nat)
    requires q != [] && AllFitEmpty(q, mtu)
    ensures AllFitEmpty(q[1..], mtu)
  {
  }

  lemma FitsMoved(a: seq<Command>, b: seq<Command>, d: Command, mtu: nat)
    requires AllFitEmpty(a, mtu) && AllFitEmpty(b, mtu) && a != [] && (FitsEmpty(a[0], mtu) ==> FitsEmpty(d, mtu))
    ensures AllFitEmpty(a[1..], mtu) && AllFitEmpty(b + [d], mtu)
  {
  }

  lemma LoadOne(c: Command)
    ensures Load([c]) == Weighed(c)
  {
  }

  lemma {:induction false} RequeuedFits(q: seq<Command>, time: uint32, packets: bool, mtu: nat)
    requires AllFitEmpty(q, mtu)
    ensures AllFitEmpty(Requeued(q, time, packets), mtu)
  {
    if q != [] {
      RequeuedFits(q[..|q| - 1], time, packets, mtu);
      assert FitsEmpty(q[|q| - 1], mtu);
    }
  }

  lemma {:induction false} KeptFits(q: seq<Command>, time: uint32, mtu: nat)
    requires AllFitEmpty(q, mtu)
    ensures AllFitEmpty(Kept(q, time), mtu)
  {
    if q != [] {
      KeptFits(q[..|q| - 1], time, mtu);
      assert FitsEmpty(q[|q| - 1], mtu);
    }
  }

  lemma {:induction false} KeptNotExpired(q: seq<Command>, time: uint32)
    ensures JustSent(Kept(q, time), time)
  {
    if q != [] {
      KeptNotExpired(q[..|q| - 1], time);
    }
  }

  lemma NothingKept(q: seq<Command>, time: uint32)
    requires JustSent(q, time)
    ensures Kept(q, time) == q && ExpiredLoad(q, time) == 0
    ensures Kept([], time) == [] && ExpiredLoad([], time) == 0
  {
  }

  lemma KeptAgain(q: seq<Command>, time: uint32)
    ensures Kept(Kept(q, time), time) == Kept(q, time) && ExpiredLoad(Kept(q, time), time) == 0
  {
  }

  // ----- what becomes of the commands that wait

  /** d is c after one more transmission at this time; one that has no timeout yet gets the current one. */
  ghost predicate Again(c: Command, d: Command, time: uint32, timeout: uint32) {
    d == c.(sendAttempts := c.sendAttempts + 1, sentTime := time,
            roundTripTimeout := if c.roundTripTimeout == 0 then timeout else c.roundTripTimeout)
  }

  /** The reliable command c is still queued, or it has been transmitted once more. */
  ghost predicate Pending(c: Command, l: Ledger, time: uint32, timeout: uint32) {
    c.acknowledge && (c in l.outgoing || c in l.sendReliable || (exists d :: d in l.sent && Again(c, d, time, timeout)))
  }

  ghost predicate AllPending(q: seq<Command>, l: Ledger, time: uint32, timeout: uint32) {
    forall c :: c in q && c.acknowledge ==> Pending(c, l, time, timeout)
  }

  /** Everything expired waits to be sent again, with its timeout doubled, or has been. */
  ghost predicate ExpiredPending(q: seq<Command>, l: Ledger, time: uint32, timeout: uint32) {
    forall c :: c in q && Expired(c, time) ==> Pending(Doubled(c), l, time, timeout)
  }

  /** The queue of sent commands is due for a check. */
  ghost predicate Overdue(q: seq<Command>, time: uint32) {
    q != [] && !TimeLess(time, Deadline(q[0]))
  }

  /** What sending does to the queues: no reliable command is lost, and the commands that had been sent before stay where
      they are, but for the expired ones after a check. */
  ghost predicate Resent(l: Ledger, l': Ledger, check: bool, time: uint32, timeout: uint32) {
    var kept := if check then Kept(l.sent, time) else l.sent;
    && kept <= l'.sent && JustSent(l'.sent[|kept|..], time)
    && AllPending(l.outgoing, l', time, timeout) && AllPending(l.sendReliable, l', time, timeout)
    && (check ==> ExpiredPending(l.sent, l', time, timeout))
  }

  /** packetsLost after a check: it has grown by the number of expired commands. */
  ghost function Lost(packetsLost: uint32, q: seq<Command>, time: uint32): uint32 {
    Wrap32((packetsLost as int) + |q| - |Kept(q, time)|)
  }

  lemma ResentSent(l: Ledger, l': Ledger, time: uint32, timeout: uint32)
    requires Resent(l, l', false, time, timeout)
    ensures l.sent <= l'.sent && JustSent(l'.sent[|l.sent|..], time)
  {
  }

  /** Queues that only grow forget nothing. */
  lemma ResentGrown(l: Ledger, l': Ledger, time: uint32, timeout: uint32)
    requires l'.sent == l.sent && l.outgoing <= l'.outgoing && l'.sendReliable == l.sendReliable
    ensures Resent(l, l', false, time, timeout)
  {
  }

  lemma PendingOn(c: Command, l: Ledger, l': Ledger, time: uint32, timeout: uint32)
    requires Pending(c, l, time, timeout) && Resent(l, l', false, time, timeout)
    ensures Pending(c, l', time, timeout)
  {
  }

  lemma ResentMore(l: Ledger, l': Ledger, l'': Ledger, check: bool, time: uint32, timeout: uint32)
    requires Resent(l, l', check, time, timeout) && Resent(l', l'', false, time, timeout)
    ensures Resent(l, l'', check, time, timeout)
  {
    hide Pending, Kept, Doubled, JustSent, Expired;
    var kept := if check then Kept(l.sent, time) else l.sent;
    JustSentMore(kept, l'.sent, l''.sent, time);
    forall c | (c in l.outgoing || c in l.sendReliable) && c.acknowledge
      ensures Pending(c, l'', time, timeout)
    {
      PendingOn(c, l', l'', time, timeout);
    }
    if check {
      forall c | c in l.sent && Expired(c, time)
        ensures Pending(Doubled(c), l'', time, timeout)
      {
        PendingOn(Doubled(c), l', l'', time, timeout);
      }
    }
  }

  /** The head of one of the queues is transmitted. */
  lemma ResentHead(l: Ledger, l': Ledger, c: Command, d: Command, time: uint32, timeout: uint32)
    requires l'.sent == l.sent + [d] && Again(c, d, time, timeout) && !Expired(d, time)
    requires || (l.outgoing == [c] + l'.outgoing && l'.sendReliable == l.sendReliable)
             || (l.sendReliable == [c] + l'.sendReliable && l'.outgoing == l.outgoing)
    ensures Resent(l, l', false, time, timeout)
  {
    hide Again, Expired;
    assert d in l'.sent;
    assert l'.sent[|l.sent|..] == [d];
  }

  /** The head of the queue of reliable packet commands ... */
  lemma ResentReliable(l: Ledger, time: uint32, timeout: uint32, first: uint32)
    requires Shapes(l) && l.sendReliable != [] && timeout > 0
    requires timeout == if l.sendReliable[0].roundTripTimeout == 0 then first else l.sendReliable[0].roundTripTimeout
    ensures Resent(l, TransmitReliable(l, time, timeout), false, time, first)
  {
    hide Resent, Set;
    var c := l.sendReliable[0];
    FreshCommand(c, time, timeout);
    assert l.sendReliable == [c] + l.sendReliable[1..];
    ResentHead(l, TransmitReliable(l, time, timeout), c, Attempted(c, time, timeout), time, first);
  }

  lemma TransmittedReliable(l: Ledger, time: uint32, timeout: uint32)
    requires Shapes(l) && l.sendReliable != []
    ensures var l' := TransmitReliable(l, time, timeout);
            && l'.sent == l.sent + [Attempted(l.sendReliable[0], time, timeout)] && l'.sendReliable == l.sendReliable[1..]
            && l'.outgoing == l.outgoing && l'.inTransit == l.inTransit + l.sendReliable[0].fragmentLength
  {
  }

  /** ... or of the others. */
  lemma ResentControl(l: Ledger, time: uint32, timeout: uint32, first: uint32)
    requires l.outgoing != [] && timeout > 0
    requires timeout == if l.outgoing[0].roundTripTimeout == 0 then first else l.outgoing[0].roundTripTimeout
    ensures Resent(l, TransmitControl(l, time, timeout), false, time, first)
  {
    hide Resent;
    var c := l.outgoing[0];
    FreshCommand(c, time, timeout);
    assert l.outgoing == [c] + l.outgoing[1..];
    ResentHead(l, TransmitControl(l, time, timeout), c, Attempted(c, time, timeout), time, first);
  }

  /** Commands that are not reliable leave the queue. */
  lemma ResentWithout(l: Ledger, l': Ledger, n: nat, time: uint32, timeout: uint32)
    requires n <= |l.outgoing| && l'.outgoing == l.outgoing[n..] && l'.sendReliable == l.sendReliable && l'.sent == l.sent
    requires forall i :: 0 <= i < n ==> !l.outgoing[i].acknowledge
    ensures Resent(l, l', false, time, timeout)
  {
    assert l.outgoing == l.outgoing[..n] + l.outgoing[n..];
  }

  lemma {:induction false} DropSpanPackets(q: seq<Command>, first: Command)
    ensures forall i :: 0 <= i < DropSpan(q, first) ==> q[i].packet.Some?
  {
    if DropSpan(q, first) > 0 {
      DropSpanPackets(q[1..], first);
      assert forall i :: 0 < i < DropSpan(q, first) ==> q[i] == q[1..][i - 1];
    }
  }

  lemma ResentDropped(l: Ledger, l': Ledger, time: uint32, timeout: uint32)
    requires LedgerOk(l) && l.outgoing != [] && l.outgoing[0].packet.Some? && l'.sendReliable == l.sendReliable && l'.sent == l.sent
    requires l'.outgoing == l.outgoing[DropSpan(l.outgoing[1..], l.outgoing[0]) + 1..]
    ensures Resent(l, l', false, time, timeout)
  {
    hide LedgerOk, DropSpan;
    var n := DropSpan(l.outgoing[1..], l.outgoing[0]) + 1;
    DropSpanPackets(l.outgoing[1..], l.outgoing[0]);
    OutgoingPackets(l);
    assert forall i :: 0 < i < n ==> l.outgoing[i] == l.outgoing[1..][i - 1];
    ResentWithout(l, l', n, time, timeout);
  }

  lemma OutgoingPackets(l: Ledger)
    requires LedgerOk(l)
    ensures forall i :: 0 <= i < |l.outgoing| ==> l.outgoing[i].packet.None? || !l.outgoing[i].acknowledge
    ensures forall i :: 0 <= i < |l.sent| ==> l.sent[i].acknowledge
  {
  }

  lemma {:induction false} RequeuedHas(q: seq<Command>, time: uint32, c: Command)
    requires c in q && Expired(c, time)
    ensures Doubled(c) in Requeued(q, time, c.packet.Some?)
  {
    if c != q[|q| - 1] {
      RequeuedHas(q[..|q| - 1], time, c);
    }
  }

  /** The check puts everything expired back. */
  lemma ResentChecked(l: Ledger, l': Ledger, time: uint32, timeout: uint32)
    requires LedgerOk(l) && l'.sent == Kept(l.sent, time)
    requires l'.sendReliable == Requeued(l.sent, time, true) + l.sendReliable
    requires l'.outgoing == Requeued(l.sent, time, false) + l.outgoing
    ensures Resent(l, l', true, time, timeout)
  {
    hide LedgerOk, Kept, Requeued, Expired;
    OutgoingPackets(l);
    assert forall c :: c in l.sendReliable ==> c in l'.sendReliable;
    assert forall c :: c in l.outgoing ==> c in l'.outgoing;
    forall c | c in l.sent && Expired(c, time)
      ensures Pending(Doubled(c), l', time, timeout)
    {
      RequeuedHas(l.sent, time, c);
    }
  }

  /** A check that finds nothing expired. */
  lemma {:induction false} NothingExpired(q: seq<Command>, time: uint32, e: uint32, p: Patience)
    requires JustSent(q, time)
    ensures !Hopeless(q, time, e, p) && Kept(q, time) == q
  {
    if q != [] {
      NothingExpired(q[..|q| - 1], time, e, p);
    }
  }

  lemma NothingLost(packetsLost: uint32, q: seq<Command>, time: uint32)
    requires Kept(q, time) == q
    ensures Lost(packetsLost, q, time) == packetsLost
  {
    WrapSmall(packetsLost);
  }

  lemma KeptJustSent(l: Ledger, l': Ledger, time: uint32, timeout: uint32)
    requires Resent(l, l', true, time, timeout)
    ensures JustSent(l'.sent, time)
  {
    hide Expired, AllPending, ExpiredPending;
    var kept := Kept(l.sent, time);
    KeptNotExpired(l.sent, time);
    forall i | 0 <= i < |l'.sent|
      ensures !Expired(l'.sent[i], time)
    {
      if i < |kept| {
        assert l'.sent[i] == kept[i];
      } else {
        assert l'.sent[i] == l'.sent[|kept|..][i - |kept|];
      }
    }
  }

  /** After the first pass nothing is expired, or nothing is checked. */
  lemma LaterPass(l: Ledger, l': Ledger, checkTimeouts: bool, time: uint32, timeout: uint32)
    requires Resent(l, l', checkTimeouts && Overdue(l.sent, time), time, timeout)
    ensures checkTimeouts && Overdue(l'.sent, time) ==> JustSent(l'.sent, time)
  {
    hide AllPending, ExpiredPending, TimeLess, Expired, Kept;
    if checkTimeouts && Overdue(l.sent, time) {
      KeptJustSent(l, l', time, timeout);
    } else if checkTimeouts && l.sent == [] {
      assert l'.sent[0..] == l'.sent;
    }
  }

  lemma ResentNow(l: Ledger, l': Ledger, later: bool, time: uint32, timeout: uint32)
    requires Resent(l, l', later, time, timeout) && (later ==> JustSent(l.sent, time))
    ensures Resent(l, l', false, time, timeout)
  {
    hide AllPending, ExpiredPending, Kept, Expired, JustSent;
    if later {
      NothingKept(l.sent, time);
    }
  }

  /** A later pass adds to the first. */
  lemma ResentLater(l: Ledger, l': Ledger, l'': Ledger, first: bool, later: bool, time: uint32, timeout: uint32)
    requires Resent(l, l', first, time, timeout) && Resent(l', l'', later, time, timeout)
    requires later ==> JustSent(l'.sent, time)
    ensures Resent(l, l'', first, time, timeout)
  {
    hide AllPending, ExpiredPending, Kept, Expired, JustSent;
    ResentNow(l', l'', later, time, timeout);
    ResentMore(l, l', l'', first, time, timeout);
  }

  /** A ping is queued or has been sent. */
  ghost predicate Pinged(l: Ledger, time: uint32, timeout: uint32) {
    exists c: Command :: c.kind == Ping && c.packet.None? && Pending(c, l, time, timeout)
  }

  lemma PingedBy(c: Command, l: Ledger, time: uint32, timeout: uint32)
    requires c.kind == Ping && c.packet.None? && c.acknowledge && c in l.outgoing
    ensures Pinged(l, time, timeout)
  {
    assert Pending(c, l, time, timeout);
  }

  lemma PingedOn(l: Ledger, l': Ledger, time: uint32, timeout: uint32)
    requires Pinged(l, time, timeout) && Resent(l, l', false, time, timeout)
    ensures Pinged(l', time, timeout)
  {
    hide Resent, Pending;
    var c: Command :| c.kind == Ping && c.packet.None? && Pending(c, l, time, timeout);
    PendingOn(c, l, l', time, timeout);
  }

  lemma PingSent(l: Ledger, time: uint32, timeout: uint32)
    requires Pinged(l, time, timeout) && LedgerOk(l) && l.outgoing == []
    ensures exists d :: d in l.sent && d.kind == Ping
  {
    hide LedgerOk;
    PacketsQueued(l);
  }

  lemma PacketsQueued(l: Ledger)
    requires LedgerOk(l)
    ensures forall c :: c in l.sendReliable ==> c.packet.Some?
  {
  }

  // ----- the order in which commands leave

  /** How much later than base a command was queued. */
  function Queued(c: Command, base: uint32): uint32 {
    Since(c.queueTime, base)
  }

  /** The commands were queued in this order, less than a day after base. */
  ghost predicate Chronological(q: seq<Command>, base: uint32) {
    && (forall i :: 0 <= i < |q| ==> Queued(q[i], base) < TIME_OVERFLOW)
    && (forall i, j :: 0 <= i < j < |q| ==> Queued(q[i], base) <= Queued(q[j], base))
  }

  ghost function Reliables(q: seq<Command>): seq<Command> {
    if q == [] then []
    else Reliables(q[..|q| - 1]) + (if q[|q| - 1].acknowledge then [q[|q| - 1]] else [])
  }

  /** packed is what has been put into the datagram, as it was sent. If both queues were in the order of queueing it is in
      that order too, and it is older than what is left in the queues, but for a queue that is stalled. */
  ghost predicate InTurn(l: Ledger, l': Ledger, packed: seq<Command>, stalled: bool) {
    && l'.sent == l.sent + Reliables(packed)
    && forall base :: Chronological(l.outgoing, base) && Chronological(l.sendReliable, base) ==>
         Chronological(packed + l'.outgoing, base) && (stalled || Chronological(packed + l'.sendReliable, base))
  }

  /** The head of a queue is gone. d, if there is one, is what was sent of it. */
  ghost predicate Took(l: Ledger, l': Ledger, fromSendReliable: bool, d: Option<Command>) {
    && (if fromSendReliable then
          && l.sendReliable != [] && l'.sendReliable == l.sendReliable[1..] && l'.outgoing == l.outgoing
          && d.Some? && d.value.queueTime == l.sendReliable[0].queueTime
        else
          && l'.sendReliable == l.sendReliable && |l'.outgoing| < |l.outgoing|
          && l'.outgoing == l.outgoing[|l.outgoing| - |l'.outgoing|..]
          && (d.Some? ==> d.value.queueTime == l.outgoing[0].queueTime))
    && l'.sent == l.sent + (if d.Some? && d.value.acknowledge then [d.value] else [])
  }

  lemma InTurnStart(l: Ledger, stalled: bool)
    ensures InTurn(l, l, [], stalled)
  {
    assert forall q: seq<Command> :: [] + q == q;
  }

  lemma InTurnStalls(l: Ledger, l': Ledger, packed: seq<Command>, stalled: bool)
    requires InTurn(l, l', packed, stalled)
    ensures InTurn(l, l', packed, true)
  {
  }

  lemma ReliablesMore(packed: seq<Command>, c: Command)
    ensures Reliables(packed + [c]) == Reliables(packed) + (if c.acknowledge then [c] else [])
  {
  }

  lemma SameAge(c: Command, d: Command, base: uint32)
    requires c.queueTime == d.queueTime
    ensures Queued(c, base) == Queued(d, base)
  {
  }

  /** Dropping some of what comes after. */
  lemma ChronologicalLess(a: seq<Command>, b: seq<Command>, n: nat, base: uint32)
    requires Chronological(a + b, base) && n <= |b|
    ensures Chronological(a + b[n..], base)
  {
    hide Queued;
    var x, y := a + b, a + b[n..];
    assert forall i :: 0 <= i < |y| ==> y[i] == x[if i < |a| then i else i + n];
  }

  /** The head of the rest goes to the end of the beginning. */
  lemma ChronologicalShift(a: seq<Command>, b: seq<Command>, d: Command, n: nat, base: uint32)
    requires Chronological(a + b, base) && 0 < n <= |b| && d.queueTime == b[0].queueTime
    ensures Chronological(a + [d] + b[n..], base)
  {
    hide Queued;
    var x, y := a + b, a + [d] + b[n..];
    assert x[|a|] == b[0];
    SameAge(d, b[0], base);
    assert forall i :: 0 <= i < |y| && i != |a| ==> y[i] == x[if i < |a| then i else i + n - 1];
  }

  /** A command that is between the beginning and the rest. */
  lemma ChronologicalBetween(a: seq<Command>, b: seq<Command>, c: seq<Command>, d: Command, base: uint32)
    requires Chronological(a + b, base) && Chronological(a + c, base) && b != [] && d.queueTime == b[0].queueTime
    requires c != [] ==> Queued(d, base) <= Queued(c[0], base)
    ensures Chronological(a + [d] + c, base)
  {
    hide Queued;
    var x, y, z := a + b, a + c, a + [d] + c;
    assert x[|a|] == b[0];
    SameAge(d, b[0], base);
    assert forall i :: 0 <= i < |a| ==> z[i] == y[i] && z[i] == x[i];
    assert forall i :: |a| < i < |z| ==> z[i] == y[i - 1];
    assert z[|a|] == d;
    forall i, j | 0 <= i < j < |z|
      ensures Queued(z[i], base) <= Queued(z[j], base)
    {
      if i == |a| {
        assert y[|a|] == c[0];
        assert Queued(y[|a|], base) <= Queued(y[j - 1], base);
      }
    }
  }

  /** Comparing the times is comparing the ages, for times less than a day apart. */
  lemma OlderExactly(c: Command, d: Command, base: uint32)
    requires Queued(c, base) < TIME_OVERFLOW && Queued(d, base) < TIME_OVERFLOW
    ensures TimeLess(c.queueTime, d.queueTime) <==> Queued(c, base) < Queued(d, base)
  {
    OlderTime(c.queueTime, d.queueTime, base);
  }

  /** One more command leaves: the older of the two heads, unless a queue is stalled. */
  lemma InTurnMore(l: Ledger, l': Ledger, l'': Ledger, packed: seq<Command>, stalled: bool, fromSendReliable: bool, d: Option<Command>)
    requires InTurn(l, l', packed, stalled) && Took(l', l'', fromSendReliable, d)
    requires fromSendReliable ==>
               !stalled && (l'.outgoing != [] ==> TimeLess(l'.sendReliable[0].queueTime, l'.outgoing[0].queueTime))
    requires !fromSendReliable && !stalled ==>
               l'.sendReliable != [] && !TimeLess(l'.sendReliable[0].queueTime, l'.outgoing[0].queueTime)
    ensures InTurn(l, l'', if d.Some? then packed + [d.value] else packed, stalled)
  {
    hide Chronological, TimeLess, Queued;
    var packed' := if d.Some? then packed + [d.value] else packed;
    if d.Some? {
      ReliablesMore(packed, d.value);
    }
    forall base | Chronological(l.outgoing, base) && Chronological(l.sendReliable, base)
      ensures Chronological(packed' + l''.outgoing, base) && (stalled || Chronological(packed' + l''.sendReliable, base))
    {
      TakenInTurn(l', l'', packed, stalled, fromSendReliable, d, base);
    }
  }

  lemma HeadAge(a: seq<Command>, q: seq<Command>, base: uint32)
    requires Chronological(a + q, base) && q != []
    ensures Queued(q[0], base) < TIME_OVERFLOW
  {
    assert (a + q)[|a|] == q[0];
  }

  lemma TakenInTurn(l: Ledger, l': Ledger, packed: seq<Command>, stalled: bool, fromSendReliable: bool, d: Option<Command>, base: uint32)
    requires Chronological(packed + l.outgoing, base) && (stalled || Chronological(packed + l.sendReliable, base))
    requires Took(l, l', fromSendReliable, d)
    requires fromSendReliable ==>
               !stalled && (l.outgoing != [] ==> TimeLess(l.sendReliable[0].queueTime, l.outgoing[0].queueTime))
    requires !fromSendReliable && !stalled ==>
               l.sendReliable != [] && !TimeLess(l.sendReliable[0].queueTime, l.outgoing[0].queueTime)
    ensures var packed' := if d.Some? then packed + [d.value] else packed;
            Chronological(packed' + l'.outgoing, base) && (stalled || Chronological(packed' + l'.sendReliable, base))
  {
    hide Chronological, TimeLess;
    if l.outgoing != [] {
      HeadAge(packed, l.outgoing, base);
    }
    if !stalled && l.sendReliable != [] {
      HeadAge(packed, l.sendReliable, base);
      if l.outgoing != [] {
        OlderExactly(l.sendReliable[0], l.outgoing[0], base);
      }
    }
    if fromSendReliable {
      ChronologicalShift(packed, l.sendReliable, d.value, 1, base);
      ChronologicalBetween(packed, l.sendReliable, l.outgoing, d.value, base);
    } else {
      var n := |l.outgoing| - |l'.outgoing|;
      if d.None? {
        ChronologicalLess(packed, l.outgoing, n, base);
      } else {
        ChronologicalShift(packed, l.outgoing, d.value, n, base);
        if !stalled {
          ChronologicalBetween(packed, l.outgoing, l.sendReliable, d.value, base);
        }
      }
    }
  }

  ghost function ToSend(outgoing: seq<Command>, sendReliable: seq<Command>, sent: seq<Command>, time: uint32): nat {
    Load(outgoing) + Load(sendReliable) + ExpiredLoad(sent, time) + (if Kept(sent, time) == [] then 1 else 0)
  }

  /** What has just been sent is no load. */
  lemma SendingLess(outgoing: seq<Command>, sendReliable: seq<Command>, sent: seq<Command>,
                    outgoing': seq<Command>, sendReliable': seq<Command>, sent': seq<Command>, n: nat, time: uint32)
    requires sent <= sent' && JustSent(sent'[|sent|..], time)
    requires Load(outgoing') + Load(sendReliable') + (if sent == sent' then 4 else 2) * n <= Load(outgoing) + Load(sendReliable)
    ensures ToSend(outgoing', sendReliable', sent', time) + (if sent' == [] then 4 else 2) * n <= ToSend(outgoing, sendReliable, sent, time)
    ensures sent == [] && n > 0 ==>
              ToSend(outgoing', sendReliable', sent', time) + 2 * n < ToSend(outgoing, sendReliable, sent, time)
  {
    hide Load, Kept, ExpiredLoad, JustSent;
    assert sent' == sent + sent'[|sent|..];
    JustSentKept(sent, sent'[|sent|..], time);
    if sent == [] {
      NothingKept(sent, time);
      assert sent'[0..] == sent';
      NothingKept(sent', time);
    }
  }

  class SendingPeer {
    var outgoingCommands: seq<Command>
    var outgoingSendReliableCommands: seq<Command>
    var sentReliableCommands: seq<Command>
    var sentUnreliableCommands: seq<Command>
    var reliableWindows: seq<seq<nat>>
    var usedReliableWindows: seq<bv16>
    var reliableDataInTransit: nat
    var referenceCounts: map<nat, nat>
    /** The channels' outgoingReliableSequenceNumber in unbounded form, then the peer's own. */
    var outgoingNumbers: seq<nat>
    var peerNumber: nat
    var outgoingUnreliableNumbers: seq<uint16>
    var outgoingUnsequencedGroup: uint16
    var totalQueued: uint32
    var earliestTimeout: uint32
    var nextTimeout: uint32
    var packetsLost: uint32
    var lastReceiveTime: uint32
    var pingInterval: uint32
    var timeoutLimit: uint32
    var timeoutMinimum: uint32
    var timeoutMaximum: uint32
    var acknowledgements: seq<uint16>
    var mtu: nat
    var packetThrottle: uint32
    var packetThrottleCounter: uint32
    var windowSize: uint32
    var roundTripTime: uint32
    var roundTripTimeVariance: uint32
    var continueSending: bool
    /** The host's datagram: how many commands, and the lengths of the buffers behind the header's. */
    var commandCount: nat
    var buffers: seq<nat>
    var packetSize: nat
    ghost var started: seq<nat>
    ghost var outstanding: seq<set<nat>>

    ghost function State(): Ledger
      reads this`outgoingCommands, this`outgoingSendReliableCommands, this`sentReliableCommands, this`sentUnreliableCommands
      reads this`reliableWindows, this`usedReliableWindows, this`reliableDataInTransit, this`referenceCounts
      reads this`outgoingNumbers, this`started, this`outstanding
    {
      Ledger(outgoingCommands, outgoingSendReliableCommands, sentReliableCommands, sentUnreliableCommands,
             reliableWindows, usedReliableWindows, reliableDataInTransit, referenceCounts,
             outgoingNumbers, started, outstanding)
    }

    /** nextTimeout is when the oldest command waiting for its acknowledgement times out. */
    ghost predicate Timed()
      reads this`sentReliableCommands, this`nextTimeout
    {
      sentReliableCommands != [] ==> nextTimeout == Deadline(sentReliableCommands[0])
    }

    function Tolerance(): Patience
      reads this`timeoutLimit, this`timeoutMinimum, this`timeoutMaximum
    {
      Patience(timeoutLimit, timeoutMinimum, timeoutMaximum)
    }

    /** The timeout of a command that is sent for the first time. */
    function FirstTimeout(): uint32
      reads this`roundTripTime, this`roundTripTimeVariance
    {
      Wrap32(roundTripTime + 4 * roundTripTimeVariance)
    }

    ghost predicate Valid()
      reads this`outgoingCommands, this`outgoingSendReliableCommands, this`sentReliableCommands, this`sentUnreliableCommands
      reads this`reliableWindows, this`usedReliableWindows, this`reliableDataInTransit, this`referenceCounts
      reads this`outgoingNumbers, this`started, this`outstanding, this`nextTimeout
    {
      LedgerOk(State()) && Timed()
    }

    constructor (channelCount: nat)
      requires channelCount <= 255
      ensures Valid() && outgoingNumbers == seq(channelCount, _ => 0)
    {
      outgoingCommands, outgoingSendReliableCommands, sentReliableCommands, sentUnreliableCommands := [], [], [], [];
      reliableWindows := seq(channelCount, _ => seq(RELIABLE_WINDOWS, _ => 0));
      usedReliableWindows := seq(channelCount, _ => 0);
      reliableDataInTransit, referenceCounts := 0, map[];
      outgoingNumbers, peerNumber, totalQueued := seq(channelCount, _ => 0), 0, 0;
      outgoingUnreliableNumbers, outgoingUnsequencedGroup := seq(channelCount, _ => 0), 0;
      nextTimeout, earliestTimeout, timeoutLimit, timeoutMinimum, timeoutMaximum := 0, 0, 32, 5000, 30000;
      acknowledgements, mtu, windowSize := [], 1392, 0x1_0000;
      packetThrottle, packetThrottleCounter, roundTripTime, roundTripTimeVariance := PACKET_THROTTLE_SCALE, 0, 500, 0;
      packetsLost, lastReceiveTime, pingInterval := 0, 0, 500;
      continueSending, commandCount, buffers, packetSize := false, 0, [], HEADER_SIZE;
      started := seq(channelCount, _ => 0);
      outstanding := seq(channelCount, _ => {});
      new;
      forall w | 0 <= w < RELIABLE_WINDOWS
        ensures !Bit(0, w)
      {
        NoBits(w);
      }
    }

    /** What the callers of enet_peer_queue_outgoing_command pass. */
    ghost predicate Acceptable(c: Command)
      reads this`outgoingNumbers, this`outgoingUnreliableNumbers
    {
      && |outgoingNumbers| == |outgoingUnreliableNumbers| <= 255
      && (c.channelID < |outgoingNumbers| || c.channelID == 0xFF)
      && (c.acknowledge ==> (c.packet.Some? <==> c.channelID < |outgoingNumbers|))
      && (c.acknowledge && c.packet.None? ==> c.fragmentLength == 0)
    }

    /** enet_peer_setup_outgoing_command. */
    method SetupOutgoing(c: Command) returns (command: Command)
      requires Acceptable(c)
      modifies this`outgoingCommands, this`outgoingSendReliableCommands, this`outgoingNumbers, this`peerNumber
      modifies this`outgoingUnreliableNumbers, this`outgoingUnsequencedGroup, this`totalQueued
      ensures command == c.(number := command.number, unreliable := command.unreliable, sendAttempts := 0, sentTime := 0,
                            roundTripTimeout := 0, queueTime := totalQueued)
      ensures |outgoingUnreliableNumbers| == |outgoingNumbers| == old(|outgoingNumbers|)
      ensures c.channelID == 0xFF ==>
                && peerNumber == old(peerNumber) + 1 && command.number == peerNumber && command.unreliable == 0
                && outgoingNumbers == old(outgoingNumbers) && outgoingUnreliableNumbers == old(outgoingUnreliableNumbers)
                && outgoingUnsequencedGroup == old(outgoingUnsequencedGroup)
      ensures c.channelID != 0xFF && c.acknowledge ==>
                && command.number == old(outgoingNumbers)[c.channelID] + 1 && command.unreliable == 0
                && outgoingNumbers == old(outgoingNumbers)[c.channelID as int := command.number]
                && outgoingUnreliableNumbers == old(outgoingUnreliableNumbers)[c.channelID as int := 0]
                && peerNumber == old(peerNumber) && outgoingUnsequencedGroup == old(outgoingUnsequencedGroup)
      ensures c.channelID != 0xFF && !c.acknowledge && c.kind == SendUnsequenced ==>
                && command.number == 0 && command.unreliable == 0
                && outgoingUnsequencedGroup == Wrap16((old(outgoingUnsequencedGroup) as int) + 1)
                && outgoingNumbers == old(outgoingNumbers) && outgoingUnreliableNumbers == old(outgoingUnreliableNumbers)
                && peerNumber == old(peerNumber)
      ensures c.channelID != 0xFF && !c.acknowledge && c.kind != SendUnsequenced ==>
                && command.number == old(outgoingNumbers)[c.channelID]
                && command.unreliable == Wrap16((old(outgoingUnreliableNumbers)[c.channelID] as int) + (if c.fragmentOffset == 0 then 1 else 0))
                && outgoingUnreliableNumbers == old(outgoingUnreliableNumbers)[c.channelID as int := command.unreliable]
                && outgoingNumbers == old(outgoingNumbers) && peerNumber == old(peerNumber)
                && outgoingUnsequencedGroup == old(outgoingUnsequencedGroup)
      ensures Queueable(old(State()), command) && State() == Queue(old(State()), command).(references := referenceCounts)
    {
      hide Wrap16, Wrap32;
      command := AssignNumber(c);
      totalQueued := Wrap32(totalQueued + 1);
      command := command.(sendAttempts := 0, sentTime := 0, roundTripTimeout := 0, queueTime := totalQueued);
      if command.acknowledge && command.packet.Some? {
        outgoingSendReliableCommands := outgoingSendReliableCommands + [command];
      } else {
        outgoingCommands := outgoingCommands + [command];
      }
    }

    method AssignNumber(c: Command) returns (command: Command)
      requires Acceptable(c)
      modifies this`outgoingNumbers, this`peerNumber, this`outgoingUnreliableNumbers, this`outgoingUnsequencedGroup
      ensures command == c.(number := command.number, unreliable := command.unreliable)
      ensures |outgoingUnreliableNumbers| == |outgoingNumbers| == old(|outgoingNumbers|)
      ensures c.channelID == 0xFF ==>
                && peerNumber == old(peerNumber) + 1 && command.number == peerNumber && command.unreliable == 0
                && outgoingNumbers == old(outgoingNumbers) && outgoingUnreliableNumbers == old(outgoingUnreliableNumbers)
                && outgoingUnsequencedGroup == old(outgoingUnsequencedGroup)
      ensures c.channelID != 0xFF && c.acknowledge ==>
                && command.number == old(outgoingNumbers)[c.channelID] + 1 && command.unreliable == 0
                && outgoingNumbers == old(outgoingNumbers)[c.channelID as int := command.number]
                && outgoingUnreliableNumbers == old(outgoingUnreliableNumbers)[c.channelID as int := 0]
                && peerNumber == old(peerNumber) && outgoingUnsequencedGroup == old(outgoingUnsequencedGroup)
      ensures c.channelID != 0xFF && !c.acknowledge && c.kind == SendUnsequenced ==>
                && command.number == 0 && command.unreliable == 0
                && outgoingUnsequencedGroup == Wrap16((old(outgoingUnsequencedGroup) as int) + 1)
                && outgoingNumbers == old(outgoingNumbers) && outgoingUnreliableNumbers == old(outgoingUnreliableNumbers)
                && peerNumber == old(peerNumber)
      ensures c.channelID != 0xFF && !c.acknowledge && c.kind != SendUnsequenced ==>
                && command.number == old(outgoingNumbers)[c.channelID]
                && command.unreliable == Wrap16((old(outgoingUnreliableNumbers)[c.channelID] as int) + (if c.fragmentOffset == 0 then 1 else 0))
                && outgoingUnreliableNumbers == old(outgoingUnreliableNumbers)[c.channelID as int := command.unreliable]
                && outgoingNumbers == old(outgoingNumbers) && peerNumber == old(peerNumber)
                && outgoingUnsequencedGroup == old(outgoingUnsequencedGroup)
    {
      if c.channelID == 0xFF {
        peerNumber := peerNumber + 1;
        command := c.(number := peerNumber, unreliable := 0);
      } else {
        var channel := c.channelID as int;
        if c.acknowledge {
          outgoingNumbers := outgoingNumbers[channel := outgoingNumbers[channel] + 1];
          outgoingUnreliableNumbers := outgoingUnreliableNumbers[channel := 0];
          command := c.(number := outgoingNumbers[channel], unreliable := 0);
        } else if c.kind == SendUnsequenced {
          outgoingUnsequencedGroup := Wrap16((outgoingUnsequencedGroup as int) + 1);
          command := c.(number := 0, unreliable := 0);
        } else {
          if c.fragmentOffset == 0 {
            outgoingUnreliableNumbers := outgoingUnreliableNumbers[channel := Wrap16((outgoingUnreliableNumbers[channel] as int) + 1)];
          }
          command := c.(number := outgoingNumbers[channel], unreliable := outgoingUnreliableNumbers[channel]);
        }
      }
    }

    /** enet_peer_queue_outgoing_command. */
    method QueueOutgoing(c: Command) returns (command: Command)
      requires Valid() && Acceptable(c)
      modifies this`outgoingCommands, this`outgoingSendReliableCommands, this`outgoingNumbers, this`peerNumber
      modifies this`outgoingUnreliableNumbers, this`outgoingUnsequencedGroup, this`totalQueued, this`referenceCounts
      ensures Valid() && Queueable(old(State()), command) && State() == Queue(old(State()), command)
      ensures command == c.(number := command.number, unreliable := command.unreliable, sendAttempts := 0, sentTime := 0,
                            roundTripTimeout := 0, queueTime := totalQueued)
      ensures |outgoingUnreliableNumbers| == |outgoingNumbers| == old(|outgoingNumbers|)
      ensures c.channelID != 0xFF && c.acknowledge ==>
                && command.number == old(outgoingNumbers)[c.channelID] + 1 && command.unreliable == 0
                && outgoingUnreliableNumbers == old(outgoingUnreliableNumbers)[c.channelID as int := 0]
      ensures c.channelID != 0xFF && !c.acknowledge && c.kind == SendUnsequenced ==>
                && command.number == 0 && command.unreliable == 0
                && outgoingNumbers == old(outgoingNumbers) && outgoingUnreliableNumbers == old(outgoingUnreliableNumbers)
      ensures c.channelID != 0xFF && !c.acknowledge && c.kind != SendUnsequenced ==>
                && command.number == old(outgoingNumbers)[c.channelID] && outgoingNumbers == old(outgoingNumbers)
                && command.unreliable == Wrap16((old(outgoingUnreliableNumbers)[c.channelID] as int) + (if c.fragmentOffset == 0 then 1 else 0))
                && outgoingUnreliableNumbers == old(outgoingUnreliableNumbers)[c.channelID as int := command.unreliable]
    {
      hide LedgerOk;
      ghost var l := State();
      LedgerShapes(l);
      referenceCounts := Retained(referenceCounts, c.packet);
      command := SetupOutgoing(c);
      QueueKeeps(l, command);
    }

    /** enet_peer_send, id being the identity of the packet; fragmentLength is what the mtu leaves for data. false stands
        for the source's -1. queued are the commands that the packet becomes. */
    method SendPacket(id: nat, data: seq<uint8>, flags: Flags, channelID: uint8, fragmentLength: uint16, connected: bool,
                      maximumPacketSize: nat)
      returns (ok: bool, ghost queued: seq<Command>)
      requires Valid() && |outgoingNumbers| == |outgoingUnreliableNumbers| && fragmentLength > 0 && |data| < 0x1_0000_0000
      modifies this`outgoingCommands, this`outgoingSendReliableCommands, this`outgoingNumbers, this`peerNumber
      modifies this`outgoingUnreliableNumbers, this`outgoingUnsequencedGroup, this`totalQueued, this`referenceCounts
      ensures Valid() && |outgoingNumbers| == |outgoingUnreliableNumbers|
      ensures ok <==> connected && channelID < old(|outgoingNumbers|) && |data| <= maximumPacketSize
                      && Count(Sent(0, data, fragmentLength)) <= Reassembly.MAXIMUM_FRAGMENT_COUNT
      ensures !ok ==> State() == old(State()) && outgoingUnreliableNumbers == old(outgoingUnreliableNumbers)
      ensures ok ==>
                var channel, r := channelID as int, Request(data, fragmentLength, flags);
                var c := Counts(old(outgoingNumbers)[channel], old(outgoingUnreliableNumbers)[channel]);
                && outgoingNumbers == old(outgoingNumbers)[channel := CountsAfter(c, r).reliable]
                && outgoingUnreliableNumbers == old(outgoingUnreliableNumbers)[channel := CountsAfter(c, r).unreliable]
                && |queued| == Count(PacketOf(c, r))
                && CarriesAll(queued, Posting(MannerFor(c, r), c.reliable, PacketOf(c, r), id, channelID))
                && Extends(MannerFor(c, r) == Reliably, queued, old(State()), State())
                && ReferenceCount(referenceCounts, id) == ReferenceCount(old(referenceCounts), id) + |queued|
      ensures old(Fitting()) && HEADER_SIZE + CommandSize(SendFragment) + fragmentLength <= mtu ==> Fitting()
    {
      hide LedgerOk, Carries, Queue, Timed;
      queued := [];
      ghost var l := State();
      LedgerShapes(l);
      if !connected || channelID >= |outgoingNumbers| || |data| > maximumPacketSize { return false, []; }
      var channel := channelID as int;
      ghost var r := Request(data, fragmentLength, flags);
      ghost var c := Counts(outgoingNumbers[channel], outgoingUnreliableNumbers[channel]);
      ghost var t := Posting(MannerFor(c, r), c.reliable, PacketOf(c, r), id, channelID);
      if |data| > fragmentLength {
        var fragmentCount := (|data| + fragmentLength - 1) / fragmentLength;
        if fragmentCount > Reassembly.MAXIMUM_FRAGMENT_COUNT { return false, []; }
        var unreliably := !flags.reliable && flags.unreliableFragment && outgoingUnreliableNumbers[channel] < 0xFFFF;
        var fragments := CutFragments(|data|, unreliably, id, channelID, fragmentLength, t);
        queued := QueueFragments(fragments, id, channelID, c, t);
      } else {
        queued := QueueWhole(id, |data|, flags, channelID, c, t);
      }
      if AllFitEmpty(l.sendReliable, mtu) && AllFitEmpty(l.outgoing, mtu) && HEADER_SIZE + CommandSize(SendFragment) + fragmentLength <= mtu {
        CarriedFit(l.sendReliable, queued, t, mtu);
        CarriedFit(l.outgoing, queued, t, mtu);
      }
      ok := true;
    }

    /** The part for a packet that fits one command. */
    method QueueWhole(id: nat, dataLength: uint16, flags: Flags, channelID: uint8, ghost c: Counts, ghost t: Posting)
      returns (ghost queued: seq<Command>)
      requires Valid() && |outgoingNumbers| == |outgoingUnreliableNumbers| && channelID < |outgoingNumbers| <= 255
      requires c == Counts(outgoingNumbers[channelID], outgoingUnreliableNumbers[channelID])
      requires t == Posting(MannerOf(flags, false, c.unreliable), c.reliable, t.packet, id, channelID)
      requires t.packet.fragmentLength > 0 && !Fragmented(t.packet) && |t.packet.data| == dataLength
      requires t.packet.start == if t.manner == Reliably then c.reliable + 1 else c.unreliable + 1
      modifies this`outgoingCommands, this`outgoingSendReliableCommands, this`outgoingNumbers, this`peerNumber
      modifies this`outgoingUnreliableNumbers, this`outgoingUnsequencedGroup, this`totalQueued, this`referenceCounts
      ensures Valid() && |queued| == 1 && CarriesAll(queued, t) && Extends(t.manner == Reliably, queued, old(State()), State())
      ensures outgoingNumbers == if t.manner == Reliably then old(outgoingNumbers)[channelID as int := t.packet.start] else old(outgoingNumbers)
      ensures outgoingUnreliableNumbers
              == match t.manner
                 case Reliably => old(outgoingUnreliableNumbers)[channelID as int := 0]
                 case Unreliably => old(outgoingUnreliableNumbers)[channelID as int := c.unreliable + 1]
                 case OutOfSequence => old(outgoingUnreliableNumbers)
      ensures ReferenceCount(referenceCounts, id) == ReferenceCount(old(referenceCounts), id) + 1
    {
      hide LedgerOk, Timed;
      var command := Command(NoCommand, false, channelID, 0, 0, Some(id), 0, dataLength, 0, 0, 0, 0);
      if !flags.reliable && flags.unsequenced {
        command := command.(kind := SendUnsequenced);
      } else if flags.reliable || outgoingUnreliableNumbers[channelID] >= 0xFFFF {
        command := command.(kind := SendReliable, acknowledge := true);
      } else {
        command := command.(kind := SendUnreliable);
      }
      command := QueueOutgoing(command);
      CutStart(t.packet);
      queued := [command];
    }

    /** The loop that cuts a packet. */
    method CutFragments(dataLength: nat, unreliably: bool, id: nat, channelID: uint8, fragmentLength: uint16, ghost t: Posting)
      returns (fragments: seq<Command>)
      requires 0 < fragmentLength == t.packet.fragmentLength && dataLength == |t.packet.data| < 0x1_0000_0000 && Fragmented(t.packet)
      requires t.id == id && t.channelID == channelID && t.manner == if unreliably then Unreliably else Reliably
      ensures |fragments| == Count(t.packet) && Pieces(fragments, t)
    {
      hide Count, Offset, Length, FragmentCommand;
      fragments := [];
      ghost var p := t.packet;
      var fragmentOffset, length: uint16 := 0, fragmentLength;
      CountCovers(p);
      CutStart(p);
      while fragmentOffset < dataLength
        invariant |fragments| <= Count(p)
        invariant |fragments| < Count(p) ==> fragmentOffset == Offset(p, |fragments|) < dataLength && length == fragmentLength
        invariant |fragments| == Count(p) ==> fragmentOffset == dataLength
        invariant Pieces(fragments, t)
        decreases Count(p) - |fragments|
      {
        if dataLength - fragmentOffset < length {
          length := dataLength - fragmentOffset;
        }
        CutTurn(p, |fragments|, fragmentOffset, length);
        fragments := AddFragment(fragments, unreliably, id, channelID, fragmentOffset, length, t);
        fragmentOffset := fragmentOffset + length;
      }
    }

    method AddFragment(fragments: seq<Command>, unreliably: bool, id: nat, channelID: uint8, fragmentOffset: uint32,
                       fragmentLength: uint16, ghost t: Posting)
      returns (more: seq<Command>)
      requires t.id == id && t.channelID == channelID && t.manner == if unreliably then Unreliably else Reliably
      requires Cut(t.packet, |fragments|) && fragmentOffset == Offset(t.packet, |fragments|)
      requires fragmentLength == Length(t.packet, |fragments|)
      ensures more == fragments + [FragmentCommand(t, |fragments|)]
    {
      var kind := if unreliably then SendUnreliableFragment else SendFragment;
      more := fragments + [Command(kind, !unreliably, channelID, 0, 0, Some(id), fragmentOffset, fragmentLength, 0, 0, 0, 0)];
    }

    method QueueOne(fragment: Command, id: nat, ghost l: Ledger) returns (command: Command, ghost l': Ledger)
      requires LedgerOk(l) && State() == l.(references := referenceCounts) && |outgoingNumbers| == |outgoingUnreliableNumbers|
      requires fragment.packet == Some(id) && fragment.channelID < |outgoingNumbers| && fragment.kind != SendUnsequenced
      modifies this`outgoingCommands, this`outgoingSendReliableCommands, this`outgoingNumbers, this`peerNumber
      modifies this`outgoingUnreliableNumbers, this`outgoingUnsequencedGroup, this`totalQueued
      ensures LedgerOk(l') && Shapes(l') && State() == l'.(references := referenceCounts)
      ensures |outgoingNumbers| == |outgoingUnreliableNumbers|
      ensures l'.references == l.references[id := ReferenceCount(l.references, id) + 1]
      ensures command == fragment.(number := command.number, unreliable := command.unreliable,
                                   sendAttempts := 0, sentTime := 0, roundTripTimeout := 0, queueTime := command.queueTime)
      ensures Extends(fragment.acknowledge, [command], l, l')
      ensures var channel := fragment.channelID as int;
              if fragment.acknowledge then
                && command.number == old(outgoingNumbers)[channel] + 1 && command.unreliable == 0
                && outgoingNumbers == old(outgoingNumbers)[channel := command.number]
                && outgoingUnreliableNumbers == old(outgoingUnreliableNumbers)[channel := 0]
              else
                && command.number == old(outgoingNumbers)[channel] && outgoingNumbers == old(outgoingNumbers)
                && command.unreliable == Wrap16((old(outgoingUnreliableNumbers)[channel] as int) + (if fragment.fragmentOffset == 0 then 1 else 0))
                && outgoingUnreliableNumbers == old(outgoingUnreliableNumbers)[channel := command.unreliable]
    {
      hide LedgerOk, Wrap16;
      LedgerShapes(l);
      command := SetupOutgoing(fragment);
      QueueFragment(l, command, referenceCounts, id);
      l' := Queue(l, command);
    }

    /** One turn of the loop that queues the pieces of t. */
    method QueueTurn(fragment: Command, id: nat, ghost i: nat, ghost c: Counts, ghost t: Posting, ghost l0: Ledger, ghost l: Ledger,
                     ghost queued: seq<Command>, ghost was: seq<nat>, ghost wasUnreliable: seq<uint16>)
      returns (ghost l': Ledger, ghost more: seq<Command>)
      requires LedgerOk(l) && State() == l.(references := referenceCounts) && |outgoingNumbers| == |outgoingUnreliableNumbers|
      requires t.manner != OutOfSequence && t.number == c.reliable && t.id == id && t.channelID < |was|
      requires t.packet.start == (if t.manner == Reliably then c.reliable + 1 else c.unreliable + 1)
      requires t.manner == Unreliably ==> c.unreliable < 0xFFFF
      requires t.packet.fragmentLength > 0 && Fragmented(t.packet) && i < Count(t.packet) && Cut(t.packet, i)
      requires fragment == FragmentCommand(t, i)
      requires c == Counts(was[t.channelID], if t.channelID < |wasUnreliable| then wasUnreliable[t.channelID] else 0)
      requires Counted(t, c, i, was, outgoingNumbers, wasUnreliable, outgoingUnreliableNumbers)
      requires |queued| == i && CarriesAll(queued, t) && Extends(t.manner == Reliably, queued, l0, l) && Referred(l0, l, id, i)
      modifies this`outgoingCommands, this`outgoingSendReliableCommands, this`outgoingNumbers, this`peerNumber
      modifies this`outgoingUnreliableNumbers, this`outgoingUnsequencedGroup, this`totalQueued
      ensures LedgerOk(l') && Shapes(l') && State() == l'.(references := referenceCounts)
      ensures |outgoingNumbers| == |outgoingUnreliableNumbers|
      ensures Referred(l0, l', id, i + 1)
      ensures Counted(t, c, i + 1, was, outgoingNumbers, wasUnreliable, outgoingUnreliableNumbers)
      ensures |more| == i + 1 && CarriesAll(more, t) && Extends(t.manner == Reliably, more, l0, l')
    {
      hide Timed, LedgerOk, Count, Offset, Length, Carries, Queue, Cut, FragmentCommand, Wrap16, Extends;
      FragmentFields(t);
      OffsetPositive(t.packet, i);
      NoWrap16(if c.unreliable < 0xFFFF then c.unreliable + 1 else 0);
      NoWrap16(c.unreliable);
      var command;
      command, l' := QueueOne(fragment, id, l);
      FragmentCarries(command, t, i);
      ExtendsMore(t.manner == Reliably, queued, l0, l, command, l');
      more := queued + [command];
    }

    /** The loop that queues the pieces. The references of all of them are counted before. */
    method QueueFragments(fragments: seq<Command>, id: nat, channelID: uint8, ghost c: Counts, ghost t: Posting)
      returns (ghost queued: seq<Command>)
      requires Valid() && |outgoingNumbers| == |outgoingUnreliableNumbers| && channelID < |outgoingNumbers|
      requires c == Counts(outgoingNumbers[channelID], outgoingUnreliableNumbers[channelID])
      requires t == Posting(t.manner, c.reliable, t.packet, id, channelID) && t.manner != OutOfSequence
      requires if t.manner == Reliably then t.packet.start == c.reliable + 1 else t.packet.start == c.unreliable + 1 <= 0xFFFF
      requires t.packet.fragmentLength > 0 && Fragmented(t.packet) && |fragments| == Count(t.packet) && Pieces(fragments, t)
      modifies this`outgoingCommands, this`outgoingSendReliableCommands, this`outgoingNumbers, this`peerNumber
      modifies this`outgoingUnreliableNumbers, this`outgoingUnsequencedGroup, this`totalQueued, this`referenceCounts
      ensures Valid() && |queued| == Count(t.packet) && CarriesAll(queued, t)
      ensures Extends(t.manner == Reliably, queued, old(State()), State())
      ensures outgoingNumbers == if t.manner == Reliably then old(outgoingNumbers)[channelID as int := Last(t.packet)] else old(outgoingNumbers)
      ensures outgoingUnreliableNumbers == old(outgoingUnreliableNumbers)[channelID as int := if t.manner == Reliably then 0 else c.unreliable + 1]
      ensures ReferenceCount(referenceCounts, id) == ReferenceCount(old(referenceCounts), id) + |queued|
    {
      hide Timed, LedgerOk, Count, Offset, Length, Carries, Queue, Cut, FragmentCommand, Wrap16, Extends, CarriesAll, Counted, Shapes, Pieces, Referred, ReferenceCount;
      ghost var l, l0 := State(), State();
      LedgerShapes(l);
      var before := ReferenceCount(referenceCounts, id);
      referenceCounts := referenceCounts[id := before + |fragments|];
      ghost var full := referenceCounts;
      queued := [];
      QueuesStart(l0, c, t, outgoingNumbers, outgoingUnreliableNumbers);
      var i := 0;
      while i < |fragments|
        invariant i <= |fragments| && |outgoingNumbers| == |outgoingUnreliableNumbers| && LedgerOk(l) && Shapes(l)
        invariant referenceCounts == full && State() == l.(references := full)
        invariant |queued| == i && CarriesAll(queued, t) && Extends(t.manner == Reliably, queued, l0, l) && Referred(l0, l, id, i)
        invariant Counted(t, c, i, old(outgoingNumbers), outgoingNumbers, old(outgoingUnreliableNumbers), outgoingUnreliableNumbers)
      {
        PieceAt(fragments, t, i);
        l, queued := QueueTurn(fragments[i], id, i, c, t, l0, l, queued, old(outgoingNumbers), old(outgoingUnreliableNumbers));
        i := i + 1;
      }
      QueuesEnd(c, t, old(outgoingNumbers), outgoingNumbers, old(outgoingUnreliableNumbers), outgoingUnreliableNumbers);
      ReferredAll(l0, l, id, |fragments|);
      assert State() == l;
    }

    /** enet_protocol_find_sent_reliable_command: it may stop at the first reliable command that was never sent. */
    method FindSentReliable(queue: seq<Command>, number: uint16, channelID: uint8) returns (i: int)
      requires AttemptedFirst(queue)
      ensures i < 0 ==> NoAnswer(queue, number, channelID)
      ensures i >= 0 ==> i < |queue| && Answers(queue[i], number, channelID) && NoAnswer(queue[..i], number, channelID)
    {
      i := 0;
      while i < |queue|
        invariant 0 <= i <= |queue| && NoAnswer(queue[..i], number, channelID)
      {
        if queue[i].acknowledge {
          if queue[i].sendAttempts < 1 { break; }
          if Matching(queue[i], number, channelID) { return; }
        }
        i := i + 1;
      }
      i := -1;
    }

    /** enet_protocol_remove_sent_reliable_command: removed is the command that goes, if one does. */
    method RemoveSentReliable(number: uint16, channelID: uint8) returns (kind: Kind, ghost removed: Option<Command>)
      requires Valid()
      modifies this
      ensures Valid() && started == old(started) && outgoingNumbers == old(outgoingNumbers)
      ensures Unanswered(old(State()), number, channelID) ==> kind == NoCommand && removed == None && State() == old(State())
      ensures !Unanswered(old(State()), number, channelID) ==> removed.Some?
      ensures removed.Some? ==>
                var c := removed.value;
                && Answers(c, number, channelID) && kind == c.kind && RemovedOne(old(State()), State(), c)
                && (channelID < |old(outstanding)| ==>
                      && c.number in old(outstanding)[channelID]
                      && outstanding == old(outstanding)[channelID as int := old(outstanding)[channelID] - {c.number}])
    {
      hide Timed, LedgerOk, Answers, AttemptedFirst;
      LedgerOrders(State());
      kind, removed := NoCommand, None;
      var i := 0;
      while i < |sentReliableCommands|
        modifies {}
        invariant 0 <= i <= |sentReliableCommands| && NoAnswer(sentReliableCommands[..i], number, channelID)
      {
        SentAnswers(State(), i, number, channelID);
        if Matching(sentReliableCommands[i], number, channelID) { break; }
        i := i + 1;
      }
      if i < |sentReliableCommands| {
        removed := Some(sentReliableCommands[i]);
        kind := RemoveFromSent(i, number, channelID);
        return;
      }
      i := FindSentReliable(outgoingCommands, number, channelID);
      if i >= 0 {
        removed := Some(outgoingCommands[i]);
        kind := RemoveFromOutgoing(i, number, channelID);
        return;
      }
      i := FindSentReliable(outgoingSendReliableCommands, number, channelID);
      if i >= 0 {
        removed := Some(outgoingSendReliableCommands[i]);
        kind := RemoveFromSendReliable(i, number, channelID);
      }
    }

    method RemoveFromSent(i: nat, number: uint16, channelID: uint8) returns (kind: Kind)
      requires Valid() && i < |sentReliableCommands| && Answers(sentReliableCommands[i], number, channelID)
      modifies this
      ensures Valid() && State() == AcknowledgeSent(old(State()), i) && kind == old(sentReliableCommands)[i].kind
      ensures channelID < |old(outstanding)| ==>
                var n := old(sentReliableCommands)[i].number;
                && n in old(outstanding)[channelID]
                && outstanding == old(outstanding)[channelID as int := old(outstanding)[channelID] - {n}]
    {
      hide Timed, LedgerOk;
      ghost var l := State();
      LedgerShapes(l);
      AcknowledgeSentKeeps(l, i);
      InTransitCovers(l, i);
      var c := sentReliableCommands[i];
      OutstandingHas(l, c, 0, i);
      CloseWindow(c);
      sentReliableCommands := Without(sentReliableCommands, i);
      Unreference(c, true);
      UpdateTimeout();
      kind := c.kind;
      assert State() == AcknowledgeSent(l, i);
    }

    method RemoveFromOutgoing(i: nat, number: uint16, channelID: uint8) returns (kind: Kind)
      requires Valid() && i < |outgoingCommands| && Answers(outgoingCommands[i], number, channelID)
      modifies this
      ensures Valid() && State() == AcknowledgeOutgoing(old(State()), i) && kind == old(outgoingCommands)[i].kind
      ensures channelID < |old(outstanding)| ==>
                var n := old(outgoingCommands)[i].number;
                && n in old(outstanding)[channelID]
                && outstanding == old(outstanding)[channelID as int := old(outstanding)[channelID] - {n}]
    {
      hide Timed, LedgerOk;
      ghost var l := State();
      LedgerShapes(l);
      AcknowledgeOutgoingKeeps(l, i);
      var c := outgoingCommands[i];
      OutstandingHas(l, c, 1, i);
      CloseWindow(c);
      outgoingCommands := Without(outgoingCommands, i);
      Unreference(c, false);
      UpdateTimeout();
      kind := c.kind;
      assert State() == AcknowledgeOutgoing(l, i);
    }

    method RemoveFromSendReliable(i: nat, number: uint16, channelID: uint8) returns (kind: Kind)
      requires Valid() && i < |outgoingSendReliableCommands| && Answers(outgoingSendReliableCommands[i], number, channelID)
      modifies this
      ensures Valid() && State() == AcknowledgeQueued(old(State()), i) && kind == old(outgoingSendReliableCommands)[i].kind
      ensures channelID < |old(outstanding)| ==>
                var n := old(outgoingSendReliableCommands)[i].number;
                && n in old(outstanding)[channelID]
                && outstanding == old(outstanding)[channelID as int := old(outstanding)[channelID] - {n}]
    {
      hide Timed, LedgerOk;
      ghost var l := State();
      LedgerShapes(l);
      AcknowledgeQueuedKeeps(l, i);
      var c := outgoingSendReliableCommands[i];
      OutstandingHas(l, c, 2, i);
      CloseWindow(c);
      outgoingSendReliableCommands := Without(outgoingSendReliableCommands, i);
      Unreference(c, false);
      UpdateTimeout();
      kind := c.kind;
      assert State() == AcknowledgeQueued(l, i);
    }

    method UpdateTimeout()
      modifies this`nextTimeout
      ensures Timed()
    {
      if sentReliableCommands != [] {
        nextTimeout := Deadline(sentReliableCommands[0]);
      }
    }

    /** The window counters' share of it. */
    method CloseWindow(c: Command)
      requires Shapes(State())
      modifies this`reliableWindows, this`usedReliableWindows, this`outstanding
      ensures State() == Closed(old(State()), c)
    {
      if c.channelID < |reliableWindows| {
        WindowIndex(c.number);
        var channel, reliableWindow := c.channelID as int, Wire(c.number) / RELIABLE_WINDOW_SIZE;
        if reliableWindows[channel][reliableWindow] > 0 {
          reliableWindows := reliableWindows[channel := reliableWindows[channel][reliableWindow := reliableWindows[channel][reliableWindow] - 1]];
          if reliableWindows[channel][reliableWindow] == 0 {
            usedReliableWindows := usedReliableWindows[channel := Clear(usedReliableWindows[channel], reliableWindow)];
          }
        }
        outstanding := outstanding[channel := outstanding[channel] - {c.number}];
      }
    }

    /** ... and the packet's. */
    method Unreference(c: Command, wasSent: bool)
      requires wasSent ==> reliableDataInTransit >= c.fragmentLength
      modifies this`reliableDataInTransit, this`referenceCounts
      ensures referenceCounts == Released(old(referenceCounts), c.packet)
      ensures reliableDataInTransit
              == if wasSent && c.packet.Some? then old(reliableDataInTransit) - c.fragmentLength else old(reliableDataInTransit)
    {
      if c.packet.Some? {
        if wasSent {
          reliableDataInTransit := reliableDataInTransit - c.fragmentLength;
        }
        referenceCounts := Released(referenceCounts, c.packet);
      }
    }

    /** enet_protocol_remove_sent_unreliable_commands. */
    method RemoveSentUnreliable()
      requires Valid()
      modifies this`sentUnreliableCommands, this`referenceCounts
      ensures Valid() && sentUnreliableCommands == []
    {
      hide LedgerOk;
      while sentUnreliableCommands != []
        invariant Valid()
        decreases |sentUnreliableCommands|
      {
        ReleaseKeeps(State());
        ghost var l := Release(State());
        referenceCounts := Released(referenceCounts, sentUnreliableCommands[0].packet);
        sentUnreliableCommands := sentUnreliableCommands[1..];
        assert State() == l;
      }
    }

    /** enet_protocol_check_timeouts: every expired command goes back to the front of its queue, in order, with its
        timeout doubled; true when the peer has been silent for so long that it is disconnected. */
    method CheckTimeouts(serviceTime: uint32) returns (disconnect: bool)
      requires Valid()
      modifies this`outgoingCommands, this`outgoingSendReliableCommands, this`sentReliableCommands, this`reliableDataInTransit
      modifies this`earliestTimeout, this`nextTimeout, this`packetsLost
      ensures Valid()
      ensures !disconnect ==>
                && sentReliableCommands == Kept(old(sentReliableCommands), serviceTime)
                && outgoingSendReliableCommands == Requeued(old(sentReliableCommands), serviceTime, true) + old(outgoingSendReliableCommands)
                && outgoingCommands == Requeued(old(sentReliableCommands), serviceTime, false) + old(outgoingCommands)
                && earliestTimeout == Earliest(old(sentReliableCommands), serviceTime, old(earliestTimeout))
                && packetsLost == Wrap32((old(packetsLost) as int) + old(|sentReliableCommands|) - |sentReliableCommands|)
      ensures disconnect == Hopeless(old(sentReliableCommands), serviceTime, old(earliestTimeout), Tolerance())
    {
      hide Valid, State, Timed, Deadline, Kept, Requeued, Doubled, TimeDifference, TimeLess, Power, Earliest, GivesUp, Hopeless, Wrap32, Checked;
      ghost var e, lost := earliestTimeout, packetsLost;
      var patience := Patience(timeoutLimit, timeoutMinimum, timeoutMaximum);
      ghost var q, a, b := sentReliableCommands, outgoingCommands, outgoingSendReliableCommands;
      ghost var x: seq<Command>, r: seq<Command>, s: seq<Command> := [], [], [];
      var i, insertPosition, insertSendReliablePosition := 0, 0, 0;
      ghost var k: nat := 0;
      CheckedStart(q, serviceTime, e, patience, lost);
      ValidAttempted();
      while i < |sentReliableCommands|
        invariant Valid() && k <= |q| && i == |x| && insertSendReliablePosition == |r| && insertPosition == |s|
        invariant Checked(q, k, serviceTime, e, patience, lost, x, r, s, earliestTimeout, packetsLost)
        invariant sentReliableCommands == x + q[k..]
        invariant outgoingSendReliableCommands == r + b && outgoingCommands == s + a
        decreases |q| - k
      {
        var c := sentReliableCommands[i];
        CheckedStep(q, k, serviceTime, e, patience, lost, x, r, s, earliestTimeout, packetsLost);
        CheckedSent(q, k, serviceTime, e, patience, lost, x, r, s, earliestTimeout, packetsLost);
        k := k + 1;
        if TimeDifference(serviceTime, c.sentTime) < c.roundTripTimeout {
          i := i + 1;
          x := x + [c];
          continue;
        }
        if earliestTimeout == 0 || TimeLess(c.sentTime, earliestTimeout) {
          earliestTimeout := c.sentTime;
        }
        if GivesUp(earliestTimeout, c, serviceTime, patience) { return true; }
        packetsLost := Wrap32((packetsLost as int) + 1);
        RequeueExpired(i, insertPosition, insertSendReliablePosition, x, q[k..], r, b, s, a);
        if c.packet.Some? {
          insertSendReliablePosition := insertSendReliablePosition + 1;
          r := r + [Doubled(c)];
        } else {
          insertPosition := insertPosition + 1;
          s := s + [Doubled(c)];
        }
      }
      disconnect := false;
      CheckedEnd(q, serviceTime, e, patience, lost, x, r, s, earliestTimeout, packetsLost);
    }

    lemma ValidAttempted()
      requires Valid()
      ensures forall i :: 0 <= i < |sentReliableCommands| ==> sentReliableCommands[i].sendAttempts >= 1
    {
      hide LedgerOk;
      SentAttempted(State());
    }

    method RequeueExpired(i: nat, insertPosition: nat, insertSendReliablePosition: nat, ghost x: seq<Command>, ghost y: seq<Command>,
                          ghost r: seq<Command>, ghost b: seq<Command>, ghost s: seq<Command>, ghost a: seq<Command>)
      requires Valid() && i < |sentReliableCommands| && i == |x| && sentReliableCommands == x + [sentReliableCommands[i]] + y
      requires outgoingSendReliableCommands == r + b && insertSendReliablePosition == |r|
      requires outgoingCommands == s + a && insertPosition == |s|
      requires forall k :: 0 <= k < |r| ==> r[k].sendAttempts >= 1
      requires forall k :: 0 <= k < |s| ==> s[k].sendAttempts >= 1
      modifies this`outgoingCommands, this`outgoingSendReliableCommands, this`sentReliableCommands, this`reliableDataInTransit
      modifies this`nextTimeout
      ensures Valid() && sentReliableCommands == x + y
      ensures var c := old(sentReliableCommands)[i];
              if c.packet.Some? then
                outgoingSendReliableCommands == r + [Doubled(c)] + b && outgoingCommands == s + a
              else outgoingSendReliableCommands == r + b && outgoingCommands == s + [Doubled(c)] + a
    {
      hide LedgerOk;
      ghost var l, c := State(), sentReliableCommands[i];
      MoveAt(x, c, y, r, b, s, a);
      ExpireKeeps(l, i, if c.packet.Some? then insertSendReliablePosition else insertPosition, Wrap32(2 * c.roundTripTimeout));
      MoveBack(i, insertPosition, insertSendReliablePosition);
      if i == 0 {
        UpdateTimeout();
      }
    }

    method MoveBack(i: nat, insertPosition: nat, insertSendReliablePosition: nat)
      requires Valid() && i < |sentReliableCommands| && insertPosition <= |outgoingCommands|
      requires insertSendReliablePosition <= |outgoingSendReliableCommands|
      modifies this`outgoingCommands, this`outgoingSendReliableCommands, this`sentReliableCommands, this`reliableDataInTransit
      ensures var c := old(sentReliableCommands)[i];
              State() == Expire(old(State()), i, if c.packet.Some? then insertSendReliablePosition else insertPosition,
                                Wrap32(2 * c.roundTripTimeout))
    {
      hide Timed, LedgerOk;
      var c := Doubled(sentReliableCommands[i]);
      InTransitCovers(State(), i);
      sentReliableCommands := Without(sentReliableCommands, i);
      if c.packet.Some? {
        reliableDataInTransit := reliableDataInTransit - c.fragmentLength;
        outgoingSendReliableCommands := With(outgoingSendReliableCommands, insertSendReliablePosition, c);
      } else {
        outgoingCommands := With(outgoingCommands, insertPosition, c);
      }
    }

    // ----- packing

    /** packetSize counts the header and every buffer, and none of the limits is passed. */
    ghost predicate Packed()
      reads this`mtu, this`packetSize, this`buffers, this`commandCount
    {
      && MINIMUM_MTU <= mtu <= MAXIMUM_MTU
      && packetSize == HEADER_SIZE + Sum(buffers) <= mtu
      && commandCount <= MAXIMUM_PACKET_COMMANDS && |buffers| <= 2 * commandCount && 1 + |buffers| <= BUFFER_MAXIMUM
    }

    ghost predicate Fitting()
      reads this`mtu, this`outgoingCommands, this`outgoingSendReliableCommands, this`sentReliableCommands
    {
      && AllFitEmpty(outgoingCommands, mtu) && AllFitEmpty(outgoingSendReliableCommands, mtu)
      && AllFitEmpty(sentReliableCommands, mtu)
    }

    ghost predicate RoundTripOk()
      reads this`roundTripTime, this`roundTripTimeVariance
    {
      1 <= roundTripTime && roundTripTime + 4 * roundTripTimeVariance < 0x1_0000_0000
    }

    ghost function QueueLoad(): nat
      reads this`outgoingCommands, this`outgoingSendReliableCommands
    {
      Load(outgoingCommands) + Load(outgoingSendReliableCommands)
    }

    predicate HasRoom(c: Command)
      reads this`mtu, this`packetSize, this`buffers, this`commandCount
    {
      && commandCount < MAXIMUM_PACKET_COMMANDS && 1 + |buffers| + 1 < BUFFER_MAXIMUM
      && mtu - packetSize >= CommandSize(c.kind)
      && (c.packet.Some? ==> Wrap16(mtu - packetSize) >= Wrap16(CommandSize(c.kind) + c.fragmentLength))
    }

    method Pack(c: Command)
      requires Packed() && HasRoom(c) && FitsEmpty(c, mtu)
      modifies this`commandCount, this`buffers, this`packetSize
      ensures Packed() && commandCount == old(commandCount) + 1
      ensures buffers == old(buffers) + [CommandSize(c.kind)] + (if c.packet.Some? then [c.fragmentLength as nat] else [])
    {
      hide CommandSize, Sum;
      SumMore(buffers, CommandSize(c.kind));
      buffers := buffers + [CommandSize(c.kind)];
      packetSize := packetSize + CommandSize(c.kind);
      if c.packet.Some? {
        SumMore(buffers, c.fragmentLength);
        buffers := buffers + [c.fragmentLength];
        packetSize := packetSize + c.fragmentLength;
      }
      commandCount := commandCount + 1;
    }

    /** enet_protocol_send_acknowledgements. */
    method SendAcknowledgements()
      requires Packed()
      modifies this`acknowledgements, this`commandCount, this`buffers, this`packetSize, this`continueSending
      ensures Packed()
      ensures |acknowledgements| + commandCount == old(|acknowledgements| + commandCount) && commandCount >= old(commandCount)
      ensures acknowledgements == old(acknowledgements)[commandCount - old(commandCount)..]
      ensures continueSending && !old(continueSending) ==> commandCount > 0
      ensures (old(continueSending) ==> continueSending) && (continueSending || acknowledgements == [])
      ensures acknowledgements == [] || AcknowledgementsFull()
    {
      hide Sum, CommandSize, Packed, AcknowledgementsFull;
      ghost var all, before, gone: seq<uint16> := acknowledgements, commandCount, [];
      while acknowledgements != []
        invariant Packed() && continueSending == old(continueSending)
        invariant all == gone + acknowledgements && commandCount == before + |gone|
        decreases |acknowledgements|
      {
        RoomForAcknowledgement();
        if commandCount >= MAXIMUM_PACKET_COMMANDS || 1 + |buffers| >= BUFFER_MAXIMUM
           || mtu - packetSize < CommandSize(AcknowledgeCommand) {
          continueSending := true;
          assert AcknowledgementsFull();
          break;
        }
        PackAcknowledgement();
        gone := gone + acknowledgements[..1];
        acknowledgements := acknowledgements[1..];
      }
    }

    /** There is no room for one more acknowledgement. */
    ghost predicate AcknowledgementsFull()
      reads this`mtu, this`packetSize, this`commandCount
    {
      commandCount == MAXIMUM_PACKET_COMMANDS || packetSize + 8 > mtu
    }

    method PackAcknowledgement()
      requires Packed() && commandCount < MAXIMUM_PACKET_COMMANDS && 1 + |buffers| < BUFFER_MAXIMUM
      requires mtu - packetSize >= CommandSize(AcknowledgeCommand)
      modifies this`commandCount, this`buffers, this`packetSize
      ensures Packed() && commandCount == old(commandCount) + 1
    {
      hide Sum;
      SumMore(buffers, CommandSize(AcknowledgeCommand));
      buffers := buffers + [CommandSize(AcknowledgeCommand)];
      packetSize := packetSize + CommandSize(AcknowledgeCommand);
      commandCount := commandCount + 1;
    }

    lemma RoomForAcknowledgement()
      requires Packed()
      ensures commandCount == 0 ==> 1 + |buffers| < BUFFER_MAXIMUM && mtu - packetSize >= CommandSize(AcknowledgeCommand)
      ensures commandCount <= MAXIMUM_PACKET_COMMANDS
      ensures commandCount == MAXIMUM_PACKET_COMMANDS || 1 + |buffers| >= BUFFER_MAXIMUM || mtu - packetSize < CommandSize(AcknowledgeCommand)
              ==> AcknowledgementsFull()
    {
    }

    /** A reliable command with a packet is sent, and waits for its acknowledgement. */
    method SendFromSendReliable(serviceTime: uint32, ghost start: Ledger) returns (sent: Command)
      requires Valid() && Fitting() && RoundTripOk() && Progress(start, State())
      requires outgoingSendReliableCommands != []
      requires MayLeave(State(), outgoingSendReliableCommands[0])
      modifies this`outgoingSendReliableCommands, this`sentReliableCommands, this`reliableDataInTransit, this`nextTimeout
      modifies this`reliableWindows, this`usedReliableWindows, this`started, this`outstanding
      ensures Valid() && Fitting() && Progress(start, State())
      ensures sentReliableCommands == old(sentReliableCommands) + [sent] && sent.acknowledge
      ensures Resent(old(State()), State(), false, serviceTime, FirstTimeout())
      ensures outgoingSendReliableCommands == old(outgoingSendReliableCommands)[1..]
      ensures sent.queueTime == old(outgoingSendReliableCommands)[0].queueTime
      ensures reliableDataInTransit == old(reliableDataInTransit) + old(outgoingSendReliableCommands)[0].fragmentLength
    {
      hide Timed, LedgerOk, Progress, Blocked, CommandSize, Set, Reached, MayReach, Opened, FitsEmpty, Resent, Expired, AllFitEmpty, TransmitReliable;
      ghost var l := State();
      LedgerShapes(l);
      LedgerHeads(l);
      var c := outgoingSendReliableCommands[0];
      var timeout := if c.roundTripTimeout == 0 then Wrap32(roundTripTime + 4 * roundTripTimeVariance) else c.roundTripTimeout;
      FreshCommand(c, serviceTime, timeout);
      FitsMoved(l.sendReliable, l.sent, Attempted(c, serviceTime, timeout), mtu);
      ResentReliable(l, serviceTime, timeout, FirstTimeout());
      ProgressTransmit(start, l, serviceTime, timeout);
      TransmitReliableKeeps(l, serviceTime, timeout);
      TransmittedReliable(l, serviceTime, timeout);
      sent := Attempted(c, serviceTime, timeout);
      TakeSendReliable(sent);
    }

    /** Its window is opened and it moves to the queue of sent commands. */
    method TakeSendReliable(sent: Command)
      requires Shapes(State()) && Timed() && outgoingSendReliableCommands != []
      requires sent == Attempted(outgoingSendReliableCommands[0], sent.sentTime, sent.roundTripTimeout)
      modifies this`outgoingSendReliableCommands, this`sentReliableCommands, this`reliableDataInTransit, this`nextTimeout
      modifies this`reliableWindows, this`usedReliableWindows, this`started, this`outstanding
      ensures State() == TransmitReliable(old(State()), sent.sentTime, sent.roundTripTimeout) && Timed()
    {
      hide Timed, Set;
      ghost var l := State();
      var c := outgoingSendReliableCommands[0];
      OpenWindow(c);
      outgoingSendReliableCommands := outgoingSendReliableCommands[1..];
      Await(sent);
      reliableDataInTransit := reliableDataInTransit + c.fragmentLength;
    }

    /** ... and one without. */
    method SendFromOutgoing(serviceTime: uint32, ghost start: Ledger) returns (sent: Command)
      requires Valid() && Fitting() && RoundTripOk() && Progress(start, State())
      requires outgoingCommands != [] && outgoingCommands[0].acknowledge
      modifies this`outgoingCommands, this`sentReliableCommands, this`reliableDataInTransit, this`nextTimeout
      ensures Valid() && Fitting() && Progress(start, State())
      ensures sentReliableCommands == old(sentReliableCommands) + [sent] && sent.acknowledge
      ensures Resent(old(State()), State(), false, serviceTime, FirstTimeout())
      ensures outgoingCommands == old(outgoingCommands)[1..] && sent.queueTime == old(outgoingCommands)[0].queueTime
      ensures reliableDataInTransit == old(reliableDataInTransit)
    {
      hide Timed, LedgerOk, Progress, CommandSize, FitsEmpty, Resent, Expired, AllFitEmpty;
      ghost var l := State();
      LedgerHeads(l);
      var c := outgoingCommands[0];
      var timeout := if c.roundTripTimeout == 0 then Wrap32(roundTripTime + 4 * roundTripTimeVariance) else c.roundTripTimeout;
      FreshCommand(c, serviceTime, timeout);
      FitsMoved(l.outgoing, l.sent, Attempted(c, serviceTime, timeout), mtu);
      ResentControl(l, serviceTime, timeout, FirstTimeout());
      ProgressOther(start, l, TransmitControl(l, serviceTime, timeout));
      TransmitControlKeeps(l, serviceTime, timeout);
      outgoingCommands := outgoingCommands[1..];
      sent := Attempted(c, serviceTime, timeout);
      Await(sent);
      reliableDataInTransit := reliableDataInTransit + c.fragmentLength;
      assert State() == TransmitControl(l, serviceTime, timeout);
    }

    /** The command waits for its acknowledgement. */
    method Await(c: Command)
      requires Timed()
      modifies this`sentReliableCommands, this`nextTimeout
      ensures Timed() && sentReliableCommands == old(sentReliableCommands) + [c]
    {
      if sentReliableCommands == [] {
        nextTimeout := Deadline(c);
      }
      sentReliableCommands := sentReliableCommands + [c];
    }

    method OpenWindow(c: Command)
      requires Shapes(State())
      modifies this`reliableWindows, this`usedReliableWindows, this`started, this`outstanding
      ensures State() == Opened(old(State()), c)
    {
      if c.channelID < |reliableWindows| && c.sendAttempts < 1 {
        WindowIndex(c.number);
        var channel, reliableWindow := c.channelID as int, Wire(c.number) / RELIABLE_WINDOW_SIZE;
        usedReliableWindows := usedReliableWindows[channel := Set(usedReliableWindows[channel], reliableWindow)];
        reliableWindows := reliableWindows[channel := reliableWindows[channel][reliableWindow := reliableWindows[channel][reliableWindow] + 1]];
        started := started[channel := c.number];
        outstanding := outstanding[channel := outstanding[channel] + {c.number}];
      }
    }

    /** The branch for unreliable commands, which may drop a whole packet instead. The source takes it for granted
        that every command it drops there has a packet. */
    method SendUnreliableHead(ghost start: Ledger) returns (dropped: bool)
      requires Valid() && Fitting() && Progress(start, State())
      requires outgoingCommands != [] && !outgoingCommands[0].acknowledge
      modifies this`outgoingCommands, this`sentUnreliableCommands, this`referenceCounts, this`packetThrottleCounter
      ensures Valid() && Fitting() && Progress(start, State())
      ensures |outgoingCommands| < old(|outgoingCommands|)
      ensures Load(outgoingCommands) + Weighed(old(outgoingCommands)[0]) <= old(Load(outgoingCommands))
      ensures !dropped ==> State() == TransmitUnreliable(old(State()))
      ensures dropped ==> && sentUnreliableCommands == old(sentUnreliableCommands) && packetThrottleCounter > packetThrottle
                          && outgoingCommands == old(outgoingCommands)[DropSpan(old(outgoingCommands)[1..], old(outgoingCommands)[0]) + 1..]
      ensures var c := old(outgoingCommands)[0];
              if c.packet.Some? && c.fragmentOffset == 0 then
                && packetThrottleCounter == Wrap32((old(packetThrottleCounter) as int) + PACKET_THROTTLE_COUNTER) % PACKET_THROTTLE_SCALE
                && dropped == (packetThrottleCounter > packetThrottle)
              else !dropped && packetThrottleCounter == old(packetThrottleCounter)
    {
      hide Timed, LedgerOk, Progress, CommandSize, Load, FitsEmpty, DropSpan, AllFitEmpty;
      var c := outgoingCommands[0];
      FitsTail(outgoingCommands, mtu);
      if c.packet.Some? && c.fragmentOffset == 0 {
        packetThrottleCounter := Wrap32((packetThrottleCounter as int) + PACKET_THROTTLE_COUNTER) % PACKET_THROTTLE_SCALE;
        if packetThrottleCounter > packetThrottle {
          DropPacket(start);
          return true;
        }
      }
      ghost var l := State();
      LoadHead(outgoingCommands);
      TransmitUnreliableKeeps(l);
      ProgressOther(start, l, TransmitUnreliable(l));
      outgoingCommands := outgoingCommands[1..];
      if c.packet.Some? {
        sentUnreliableCommands := sentUnreliableCommands + [c];
      }
      assert State() == TransmitUnreliable(l);
      dropped := false;
    }

    /** Drops the first command and those that follow it with the same numbers. */
    method DropPacket(ghost start: Ledger)
      requires Valid() && Fitting() && Progress(start, State())
      requires outgoingCommands != [] && outgoingCommands[0].packet.Some?
      modifies this`outgoingCommands, this`referenceCounts
      ensures Valid() && Fitting() && Progress(start, State())
      ensures |outgoingCommands| < old(|outgoingCommands|)
      ensures Load(outgoingCommands) + Weighed(old(outgoingCommands)[0]) <= old(Load(outgoingCommands))
      ensures outgoingCommands == old(outgoingCommands)[DropSpan(old(outgoingCommands)[1..], old(outgoingCommands)[0]) + 1..]
    {
      hide Timed, LedgerOk, Progress, CommandSize, Load, AllFitEmpty;
      ghost var q := outgoingCommands;
      var first := outgoingCommands[0];
      LoadHead(outgoingCommands);
      DropFirst(start);
      ghost var n := 1;
      while outgoingCommands != []
        invariant 1 <= n <= |q| && outgoingCommands == q[n..] && DropSpan(q[1..], first) == n - 1 + DropSpan(q[n..], first)
        invariant Valid() && Fitting() && Progress(start, State())
        invariant |outgoingCommands| < old(|outgoingCommands|)
        invariant Load(outgoingCommands) + Weighed(first) <= old(Load(outgoingCommands))
        decreases |outgoingCommands|
      {
        var next := outgoingCommands[0];
        if Wire(next.number) != Wire(first.number) || next.unreliable != first.unreliable || next.packet.None? { break; }
        LoadHead(outgoingCommands);
        DropFirst(start);
        n := n + 1;
      }
    }

    method DropFirst(ghost start: Ledger)
      requires Valid() && Fitting() && Progress(start, State()) && outgoingCommands != [] && outgoingCommands[0].packet.Some?
      modifies this`outgoingCommands, this`referenceCounts
      ensures Valid() && Fitting() && Progress(start, State()) && outgoingCommands == old(outgoingCommands)[1..]
    {
      hide Timed, LedgerOk, Progress, CommandSize, AllFitEmpty;
      ghost var l := State();
      LedgerHeads(l);
      FitsTail(outgoingCommands, mtu);
      DropKeeps(l);
      ProgressOther(start, l, Drop(l));
      referenceCounts := Released(referenceCounts, outgoingCommands[0].packet);
      outgoingCommands := outgoingCommands[1..];
      assert State() == Drop(l);
    }

    /** enet_protocol_check_outgoing_commands: fills the datagram from both queues in the order of queueing. */
    method CheckOutgoing(serviceTime: uint32, ghost start: Ledger) returns (canPing: bool, ghost packed: seq<Command>)
      requires Sound(start)
      modifies this`outgoingCommands, this`outgoingSendReliableCommands, this`sentReliableCommands, this`sentUnreliableCommands
      modifies this`reliableDataInTransit, this`nextTimeout, this`reliableWindows, this`usedReliableWindows, this`started, this`outstanding
      modifies this`referenceCounts, this`packetThrottleCounter, this`continueSending
      modifies this`commandCount, this`buffers, this`packetSize
      ensures Sound(start)
      ensures old(sentReliableCommands) <= sentReliableCommands
      ensures Resent(old(State()), State(), false, serviceTime, FirstTimeout())
      ensures commandCount == old(commandCount) + |packed| && InTurn(old(State()), State(), packed, true)
      ensures reliableDataInTransit <= old(reliableDataInTransit) || reliableDataInTransit <= InTransitLimit()
      ensures continueSending && !old(continueSending) ==> Crowded()
      ensures LoadLeft(serviceTime) + (if sentReliableCommands == [] then 4 else 2) * |packed| <= old(LoadLeft(serviceTime))
      ensures old(sentReliableCommands) == [] && packed != [] ==> LoadLeft(serviceTime) + 2 * |packed| < old(LoadLeft(serviceTime))
      ensures continueSending && !old(continueSending) ==> commandCount > 0
      ensures (old(continueSending) ==> continueSending) && (continueSending || (outgoingCommands == [] && HeldBack()))
    {
      hide Filled, Sound, CommandSize, NoRoom, Load, Expired, FitsEmpty, Blocked, HasRoom, RoundTripOk, TimeLess, InTransitLimit,
           Resent, InTurn, Took;
      ghost var l, count, stalled := State(), commandCount, outgoingSendReliableCommands == [];
      packed := [];
      FilledStart(start, stalled, serviceTime);
      var currentCommand, currentSendReliableCommand, windowWrap := 0, 0, false;
      canPing := true;
      while true
        invariant Filled(start, l, count, packed, stalled, serviceTime)
        invariant stalled == (currentSendReliableCommand == |outgoingSendReliableCommands|)
        invariant continueSending == old(continueSending)
        invariant currentCommand == 0
        invariant currentSendReliableCommand == 0 || currentSendReliableCommand == |outgoingSendReliableCommands|
        invariant reliableDataInTransit <= old(reliableDataInTransit) || reliableDataInTransit <= InTransitLimit()
        invariant windowWrap ==> currentSendReliableCommand == |outgoingSendReliableCommands|
        invariant currentSendReliableCommand == |outgoingSendReliableCommands| ==> HeldBack()
        decreases |outgoingCommands| + |outgoingSendReliableCommands|, |outgoingSendReliableCommands| - currentSendReliableCommand
      {
        FilledHeads(start, l, count, packed, stalled, serviceTime);
        var fromSendReliable := true;
        if currentCommand < |outgoingCommands| {
          fromSendReliable := currentSendReliableCommand < |outgoingSendReliableCommands|
            && TimeLess(outgoingSendReliableCommands[currentSendReliableCommand].queueTime, outgoingCommands[currentCommand].queueTime);
        } else if currentSendReliableCommand >= |outgoingSendReliableCommands| {
          break;
        }
        var outgoingCommand := if fromSendReliable then outgoingSendReliableCommands[currentSendReliableCommand]
                               else outgoingCommands[currentCommand];
        if outgoingCommand.acknowledge {
          if outgoingCommand.channelID < |reliableWindows| {
            if windowWrap {
              // the source passes over the command here; but then it had left this queue for good
              assert false;
            }
            if Blocked(reliableWindows[outgoingCommand.channelID], usedReliableWindows[outgoingCommand.channelID], outgoingCommand) {
              windowWrap := true;
              currentSendReliableCommand, stalled := |outgoingSendReliableCommands|, true;
              continue;
            }
          }
          if outgoingCommand.packet.Some? && reliableDataInTransit + outgoingCommand.fragmentLength > InTransitLimit() {
            currentSendReliableCommand, stalled := |outgoingSendReliableCommands|, true;
            continue;
          }
          canPing := false;
        }
        if !HasRoom(outgoingCommand) {
          continueSending := true;
          break;
        }
        packed := SendNext(serviceTime, fromSendReliable, start, l, count, packed, stalled);
        stalled := currentSendReliableCommand == |outgoingSendReliableCommands|;
      }
      FilledEnd(start, l, count, packed, stalled, serviceTime);
    }

    /** What sending keeps. */
    ghost predicate Sound(start: Ledger)
      reads this`outgoingCommands, this`outgoingSendReliableCommands, this`sentReliableCommands, this`sentUnreliableCommands
      reads this`reliableWindows, this`usedReliableWindows, this`reliableDataInTransit, this`referenceCounts
      reads this`outgoingNumbers, this`started, this`outstanding, this`nextTimeout
      reads this`mtu, this`packetSize, this`buffers, this`commandCount, this`roundTripTime, this`roundTripTimeVariance
    {
      Valid() && Packed() && Fitting() && RoundTripOk() && Progress(start, State())
    }

    /** What filling the datagram has come to. */
    ghost predicate Filled(start: Ledger, l: Ledger, count: nat, packed: seq<Command>, stalled: bool, serviceTime: uint32)
      reads this`outgoingCommands, this`outgoingSendReliableCommands, this`sentReliableCommands, this`sentUnreliableCommands
      reads this`reliableWindows, this`usedReliableWindows, this`reliableDataInTransit, this`referenceCounts
      reads this`outgoingNumbers, this`started, this`outstanding, this`nextTimeout
      reads this`mtu, this`packetSize, this`buffers, this`commandCount, this`roundTripTime, this`roundTripTimeVariance
    {
      && Sound(start) && l.sent <= sentReliableCommands && Resent(l, State(), false, serviceTime, FirstTimeout())
      && InTurn(l, State(), packed, stalled) && commandCount == count + |packed|
      && QueueLoad() + (if sentReliableCommands == l.sent then 4 else 2) * |packed| <= Load(l.outgoing) + Load(l.sendReliable)
    }

    lemma FilledStart(start: Ledger, stalled: bool, serviceTime: uint32)
      requires Sound(start)
      ensures Filled(start, State(), commandCount, [], stalled, serviceTime)
    {
      hide Sound, Resent, InTurn, Load;
      ResentGrown(State(), State(), serviceTime, FirstTimeout());
      InTurnStart(State(), stalled);
    }

    lemma FilledHeads(start: Ledger, l: Ledger, count: nat, packed: seq<Command>, stalled: bool, serviceTime: uint32)
      requires Filled(start, l, count, packed, stalled, serviceTime)
      ensures Sound(start) && Shapes(State()) && Filled(start, l, count, packed, true, serviceTime)
      ensures outgoingCommands != [] ==>
                && OutgoingOk(outgoingCommands[0], |reliableWindows|)
                && (!HasRoom(outgoingCommands[0]) ==> NoRoom(outgoingCommands[0]) && commandCount > 0)
      ensures outgoingSendReliableCommands != [] ==>
                && SendReliableOk(outgoingSendReliableCommands[0], |reliableWindows|)
                && (!HasRoom(outgoingSendReliableCommands[0]) ==> NoRoom(outgoingSendReliableCommands[0]) && commandCount > 0)
    {
      hide Sound, Resent, InTurn, Load, HasRoom, NoRoom, OutgoingOk, SendReliableOk, Shapes;
      SoundHeads(start);
      InTurnStalls(l, State(), packed, stalled);
    }

    lemma FilledEnd(start: Ledger, l: Ledger, count: nat, packed: seq<Command>, stalled: bool, serviceTime: uint32)
      requires Filled(start, l, count, packed, stalled, serviceTime)
      ensures Sound(start) && l.sent <= sentReliableCommands && Resent(l, State(), false, serviceTime, FirstTimeout())
      ensures commandCount == count + |packed| && InTurn(l, State(), packed, true)
      ensures LoadLeft(serviceTime) + (if sentReliableCommands == [] then 4 else 2) * |packed|
              <= ToSend(l.outgoing, l.sendReliable, l.sent, serviceTime)
      ensures l.sent == [] && packed != [] ==>
                LoadLeft(serviceTime) + 2 * |packed| < ToSend(l.outgoing, l.sendReliable, l.sent, serviceTime)
    {
      hide Sound, Resent, InTurn, Load, ToSend;
      ResentSent(l, State(), serviceTime, FirstTimeout());
      SendingLess(l.outgoing, l.sendReliable, l.sent, outgoingCommands, outgoingSendReliableCommands, sentReliableCommands, |packed|, serviceTime);
      InTurnStalls(l, State(), packed, stalled);
    }

    /** What it tells about the heads of the queues. */
    lemma SoundHeads(start: Ledger)
      requires Sound(start)
      ensures Shapes(State())
      ensures outgoingCommands != [] ==>
                && OutgoingOk(outgoingCommands[0], |reliableWindows|)
                && (!HasRoom(outgoingCommands[0]) ==> NoRoom(outgoingCommands[0]) && commandCount > 0)
      ensures outgoingSendReliableCommands != [] ==>
                && SendReliableOk(outgoingSendReliableCommands[0], |reliableWindows|)
                && (!HasRoom(outgoingSendReliableCommands[0]) ==> NoRoom(outgoingSendReliableCommands[0]) && commandCount > 0)
    {
      hide LedgerOk, Shapes, FitsEmpty, HasRoom, NoRoom, Packed, CommandSize, AllFitEmpty, OutgoingOk, SendReliableOk, Progress;
      LedgerShapes(State());
      LedgerHeads(State());
      FitsHead(outgoingCommands, mtu);
      FitsHead(outgoingSendReliableCommands, mtu);
      if outgoingCommands != [] {
        RoomAtFirst(outgoingCommands[0]);
      }
      if outgoingSendReliableCommands != [] {
        RoomAtFirst(outgoingSendReliableCommands[0]);
      }
    }

    /** The reliable packet command that is next waits for a window, or for data in transit to be acknowledged. */
    ghost predicate HeldBack()
      reads this`outgoingSendReliableCommands, this`reliableWindows, this`usedReliableWindows, this`reliableDataInTransit
      reads this`packetThrottle, this`windowSize, this`mtu
    {
      outgoingSendReliableCommands != [] ==>
        var c := outgoingSendReliableCommands[0];
        || (c.channelID < |reliableWindows| && c.channelID < |usedReliableWindows| && |reliableWindows[c.channelID]| == RELIABLE_WINDOWS
            && Blocked(reliableWindows[c.channelID], usedReliableWindows[c.channelID], c))
        || reliableDataInTransit + c.fragmentLength > InTransitLimit()
    }

    /** Nothing is left that may be sent now. */
    ghost predicate Done()
      reads this`outgoingSendReliableCommands, this`reliableWindows, this`usedReliableWindows, this`reliableDataInTransit
      reads this`packetThrottle, this`windowSize, this`mtu, this`acknowledgements, this`outgoingCommands
    {
      acknowledgements == [] && outgoingCommands == [] && HeldBack()
    }

    /** The command does not fit the datagram any more. */
    ghost predicate NoRoom(c: Command)
      reads this`mtu, this`packetSize, this`commandCount
    {
      || commandCount == MAXIMUM_PACKET_COMMANDS
      || packetSize + CommandSize(c.kind) + (if c.packet.Some? then c.fragmentLength else 0) > mtu
    }

    /** One of the queues goes on with a command that does not fit. */
    ghost predicate Crowded()
      reads this`mtu, this`packetSize, this`commandCount, this`outgoingCommands, this`outgoingSendReliableCommands
    {
      || (outgoingCommands != [] && NoRoom(outgoingCommands[0]))
      || (outgoingSendReliableCommands != [] && NoRoom(outgoingSendReliableCommands[0]))
    }

    lemma RoomAtFirst(c: Command)
      requires Packed() && FitsEmpty(c, mtu)
      ensures commandCount == 0 ==> HasRoom(c)
      ensures !HasRoom(c) ==> NoRoom(c)
    {
    }

    /** The command at the head of one of the queues goes into the datagram. */
    method SendOne(serviceTime: uint32, fromSendReliable: bool, ghost start: Ledger) returns (dropped: bool, ghost sent: Option<Command>)
      requires Valid() && Fitting() && RoundTripOk() && Progress(start, State())
      requires if fromSendReliable then outgoingSendReliableCommands != [] && MayLeave(State(), outgoingSendReliableCommands[0])
               else outgoingCommands != []
      modifies this`outgoingCommands, this`outgoingSendReliableCommands, this`sentReliableCommands, this`sentUnreliableCommands
      modifies this`reliableDataInTransit, this`nextTimeout, this`reliableWindows, this`usedReliableWindows, this`started, this`outstanding
      modifies this`referenceCounts, this`packetThrottleCounter
      ensures Valid() && Fitting() && Progress(start, State())
      ensures old(sentReliableCommands) <= sentReliableCommands
      ensures Resent(old(State()), State(), false, serviceTime, FirstTimeout())
      ensures dropped == sent.None? && Took(old(State()), State(), fromSendReliable, sent)
      ensures if fromSendReliable then
                outgoingSendReliableCommands == old(outgoingSendReliableCommands)[1..] && outgoingCommands == old(outgoingCommands)
                && reliableDataInTransit == old(reliableDataInTransit) + old(outgoingSendReliableCommands)[0].fragmentLength
              else && |outgoingCommands| < old(|outgoingCommands|) && outgoingSendReliableCommands == old(outgoingSendReliableCommands)
                   && reliableWindows == old(reliableWindows) && usedReliableWindows == old(usedReliableWindows)
                   && reliableDataInTransit == old(reliableDataInTransit)
      ensures |sentReliableCommands| == old(|sentReliableCommands|) ==> QueueLoad() + 4 <= old(QueueLoad())
      ensures QueueLoad() + 2 <= old(QueueLoad())
    {
      hide Timed, LedgerOk, CommandSize, Blocked, RoundTripOk, Progress, Load, Expired, MayLeave, FitsEmpty, Resent, DropSpan, AllFitEmpty;
      LedgerHeads(State());
      FitsHead(outgoingCommands, mtu);
      dropped := false;
      if fromSendReliable {
        LoadHead(outgoingSendReliableCommands);
        var c := SendFromSendReliable(serviceTime, start);
        sent := Some(c);
      } else if outgoingCommands[0].acknowledge {
        LoadHead(outgoingCommands);
        var c := SendFromOutgoing(serviceTime, start);
        sent := Some(c);
      } else {
        ghost var l := State();
        dropped := SendUnreliableHead(start);
        sent := if dropped then None else Some(l.outgoing[0]);
        if dropped {
          ResentDropped(l, State(), serviceTime, FirstTimeout());
        } else {
          ResentWithout(l, State(), 1, serviceTime, FirstTimeout());
        }
      }
    }

    /** ... in its turn: the older of the two heads, unless the queue of reliable packet commands is stalled. */
    method SendNext(serviceTime: uint32, fromSendReliable: bool, ghost start: Ledger, ghost l: Ledger, ghost count: nat, ghost packed: seq<Command>, ghost stalled: bool)
      returns (ghost packed': seq<Command>)
      requires Filled(start, l, count, packed, stalled, serviceTime)
      requires if fromSendReliable then
                 && outgoingSendReliableCommands != [] && HasRoom(outgoingSendReliableCommands[0])
                 && MayLeave(State(), outgoingSendReliableCommands[0])
               else outgoingCommands != [] && HasRoom(outgoingCommands[0])
      requires if fromSendReliable then
                 !stalled && (outgoingCommands != [] ==> TimeLess(outgoingSendReliableCommands[0].queueTime, outgoingCommands[0].queueTime))
               else stalled || (outgoingSendReliableCommands != []
                                && !TimeLess(outgoingSendReliableCommands[0].queueTime, outgoingCommands[0].queueTime))
      modifies this`outgoingCommands, this`outgoingSendReliableCommands, this`sentReliableCommands, this`sentUnreliableCommands
      modifies this`reliableDataInTransit, this`nextTimeout, this`reliableWindows, this`usedReliableWindows, this`started, this`outstanding
      modifies this`referenceCounts, this`packetThrottleCounter
      modifies this`commandCount, this`buffers, this`packetSize
      ensures Filled(start, l, count, packed', stalled, serviceTime) && Filled(start, l, count, packed', true, serviceTime)
      ensures if fromSendReliable then
                outgoingSendReliableCommands == old(outgoingSendReliableCommands)[1..] && outgoingCommands == old(outgoingCommands)
                && reliableDataInTransit == old(reliableDataInTransit) + old(outgoingSendReliableCommands)[0].fragmentLength
              else && |outgoingCommands| < old(|outgoingCommands|) && outgoingSendReliableCommands == old(outgoingSendReliableCommands)
                   && reliableWindows == old(reliableWindows) && usedReliableWindows == old(usedReliableWindows)
                   && reliableDataInTransit == old(reliableDataInTransit)
    {
      hide Timed, LedgerOk, CommandSize, Blocked, RoundTripOk, Progress, Load, Expired, MayLeave, Packed, HasRoom, FitsEmpty, AllFitEmpty, Resent,
           InTurn, Took, TimeLess, InTransitLimit;
      ghost var l' := State();
      var c := if fromSendReliable then outgoingSendReliableCommands[0] else outgoingCommands[0];
      FitsHead(outgoingCommands, mtu);
      FitsHead(outgoingSendReliableCommands, mtu);
      ghost var d;
      var dropped;
      dropped, d := SendOne(serviceTime, fromSendReliable, start);
      if !dropped {
        Pack(c);
      }
      ResentMore(l, l', State(), false, serviceTime, FirstTimeout());
      InTurnMore(l, l', State(), packed, stalled, fromSendReliable, d);
      packed' := if d.Some? then packed + [d.value] else packed;
      InTurnStalls(l, State(), packed', stalled);
    }

    function InTransitLimit(): nat
      reads this`packetThrottle, this`windowSize, this`mtu
    {
      var window := Wrap32(packetThrottle * windowSize) / PACKET_THROTTLE_SCALE;
      if window > mtu then window else mtu
    }

    /** The limit is the share of the window that the throttle leaves, rounded down, and never less than an mtu. */
    lemma InTransitBounds()
      requires (packetThrottle as int) * windowSize < 0x1_0000_0000
      ensures mtu <= InTransitLimit() && (InTransitLimit() == mtu || 32 * InTransitLimit() <= packetThrottle * windowSize)
      ensures packetThrottle * windowSize < 32 * (InTransitLimit() + 1)
      ensures packetThrottle == 32 ==> InTransitLimit() == if windowSize > mtu then windowSize as int else mtu
    {
    }

    /** Nothing is to be sent and nothing waits for an acknowledgement. */
    ghost predicate Idle()
      reads this`acknowledgements, this`outgoingCommands, this`outgoingSendReliableCommands, this`sentReliableCommands
    {
      acknowledgements == [] && outgoingCommands == [] && outgoingSendReliableCommands == [] && sentReliableCommands == []
    }

    /** Nothing has been heard for too long. */
    ghost predicate PingDue(serviceTime: uint32)
      reads this`lastReceiveTime, this`pingInterval
    {
      TimeDifference(serviceTime, lastReceiveTime) >= pingInterval
    }

    lemma DoneEmpties()
      requires Done()
      ensures outgoingCommands == []
    {
    }

    lemma EmptyDatagram()
      requires Packed()
      ensures commandCount == 0 ==> packetSize == HEADER_SIZE && mtu - packetSize >= CommandSize(Ping)
    {
    }

    // ----- passes

    ghost function LoadLeft(serviceTime: uint32): nat
      reads this`outgoingCommands, this`outgoingSendReliableCommands, this`sentReliableCommands
    {
      ToSend(outgoingCommands, outgoingSendReliableCommands, sentReliableCommands, serviceTime)
    }

    /** What one call still has to send, with the pings it may yet add. */
    ghost function Remaining(serviceTime: uint32): nat
      reads this`outgoingCommands, this`outgoingSendReliableCommands, this`sentReliableCommands, this`acknowledgements
    {
      4 * |acknowledgements| + LoadLeft(serviceTime)
    }

    /** enet_peer_ping. */
    method PingPeer(connected: bool, ghost serviceTime: uint32, ghost start: Ledger)
      requires Sound(start) && |outgoingNumbers| == |outgoingUnreliableNumbers|
      modifies this`outgoingCommands, this`outgoingSendReliableCommands, this`outgoingNumbers, this`peerNumber
      modifies this`outgoingUnreliableNumbers, this`outgoingUnsequencedGroup, this`totalQueued, this`referenceCounts
      ensures Sound(start) && |outgoingNumbers| == |outgoingUnreliableNumbers|
      ensures LoadLeft(serviceTime) <= old(LoadLeft(serviceTime)) + 2
      ensures old(outgoingCommands) <= outgoingCommands && outgoingSendReliableCommands == old(outgoingSendReliableCommands)
      ensures connected ==> outgoingCommands != [] && (var c := outgoingCommands[|outgoingCommands| - 1]; c.kind == Ping && c.packet.None? && c.acknowledge)
    {
      hide LedgerOk, Progress, Load;
      if !connected { return; }
      ghost var l := State();
      LedgerShapes(l);
      var ping := Command(Ping, true, 0xFF, 0, 0, None, 0, 0, 0, 0, 0, 0);
      var command := SetupOutgoing(ping);
      QueueKeeps(l, command);
      ProgressOther(start, l, State());
      LoadConcat(l.outgoing, [command]);
      LoadOne(command);
    }

    /** The timeout check only moves what is still to be sent. */
    method ExpirePass(serviceTime: uint32, ghost start: Ledger) returns (disconnect: bool)
      requires Valid() && Fitting() && Progress(start, State())
      modifies this`outgoingCommands, this`outgoingSendReliableCommands, this`sentReliableCommands, this`reliableDataInTransit
      modifies this`earliestTimeout, this`nextTimeout, this`packetsLost
      ensures Valid()
      ensures disconnect == Hopeless(old(sentReliableCommands), serviceTime, old(earliestTimeout), Tolerance())
      ensures !disconnect ==> Fitting() && Progress(start, State()) && Remaining(serviceTime) == old(Remaining(serviceTime))
      ensures !disconnect ==> && Resent(old(State()), State(), true, serviceTime, FirstTimeout())
                              && packetsLost == Lost(old(packetsLost), old(sentReliableCommands), serviceTime)
    {
      hide LedgerOk, Progress, Load, Expired, FitsEmpty, Kept, Requeued, Resent, Hopeless;
      ghost var l := State();
      disconnect := CheckTimeouts(serviceTime);
      if !disconnect {
        ResentChecked(l, State(), serviceTime, FirstTimeout());
        ProgressOther(start, l, State());
        RequeuedFits(l.sent, serviceTime, true, mtu);
        RequeuedFits(l.sent, serviceTime, false, mtu);
        KeptFits(l.sent, serviceTime, mtu);
        KeptAgain(l.sent, serviceTime);
        LoadConcat(Requeued(l.sent, serviceTime, true), l.sendReliable);
        LoadConcat(Requeued(l.sent, serviceTime, false), l.outgoing);
      }
    }

    ghost predicate Steady(lost: uint32, timeout: uint32)
      reads this`packetsLost, this`roundTripTime, this`roundTripTimeVariance
    {
      packetsLost == lost && FirstTimeout() == timeout
    }

    /** The first of the two calls that fill the datagram. */
    method FillFirst(serviceTime: uint32, ghost start: Ledger) returns (canPing: bool)
      requires Sound(start)
      requires (continueSending ==> commandCount > 0) && (continueSending || acknowledgements == [])
      modifies this
      ensures Sound(start) && Steady(old(packetsLost), old(FirstTimeout()))
      ensures Resent(old(State()), State(), false, serviceTime, FirstTimeout())
      ensures continueSending || Done()
      ensures PingDue(serviceTime) == old(PingDue(serviceTime))
      ensures old(Idle()) ==> canPing && Idle() && commandCount == old(commandCount) && continueSending == old(continueSending)
      ensures outgoingNumbers == old(outgoingNumbers) && outgoingUnreliableNumbers == old(outgoingUnreliableNumbers)
      ensures commandCount >= old(commandCount) && (continueSending ==> commandCount > 0)
      ensures Remaining(serviceTime) + 2 * (commandCount - old(commandCount)) <= old(Remaining(serviceTime))
      ensures sentReliableCommands == [] ==>
                Remaining(serviceTime) + 4 * (commandCount - old(commandCount)) <= old(Remaining(serviceTime))
    {
      hide Sound, LoadLeft, Resent, InTurn, Crowded, InTransitLimit;
      ghost var l := State();
      canPing := true;
      ResentGrown(l, l, serviceTime, FirstTimeout());
      if outgoingCommands != [] || outgoingSendReliableCommands != [] {
        ghost var packed;
        canPing, packed := CheckOutgoing(serviceTime, start);
      }
    }

    /** ... and the second, for a ping when nothing reliable is under way. */
    method FillPing(serviceTime: uint32, connected: bool, ghost start: Ledger)
      requires Sound(start) && sentReliableCommands == []
      requires |outgoingNumbers| == |outgoingUnreliableNumbers| && (continueSending ==> commandCount > 0)
      requires continueSending || acknowledgements == []
      modifies this
      ensures Sound(start) && Steady(old(packetsLost), old(FirstTimeout()))
      ensures Resent(old(State()), State(), false, serviceTime, FirstTimeout())
      ensures continueSending || Done()
      ensures connected ==> Pinged(State(), serviceTime, FirstTimeout())
      ensures |outgoingNumbers| == |outgoingUnreliableNumbers|
      ensures continueSending ==> Remaining(serviceTime) < old(Remaining(serviceTime)) + (if old(commandCount) > 0 then 3 else 0)
    {
      hide Pinged, Sound, LoadLeft, Resent, InTurn, Crowded, InTransitLimit, HeldBack;
      ghost var l := State();
      PingPeer(connected, serviceTime, start);
      ghost var l' := State();
      ResentGrown(l, l', serviceTime, FirstTimeout());
      if connected {
        PingedBy(outgoingCommands[|outgoingCommands| - 1], l', serviceTime, FirstTimeout());
      }
      var _, _ := CheckOutgoing(serviceTime, start);
      if connected {
        PingedOn(l', State(), serviceTime, FirstTimeout());
      }
      ResentMore(l, l', State(), false, serviceTime, FirstTimeout());
    }

    method FillDatagram(serviceTime: uint32, connected: bool, ghost before: nat, ghost start: Ledger)
      requires Sound(start)
      requires |outgoingNumbers| == |outgoingUnreliableNumbers|
      requires Remaining(serviceTime) + 4 * commandCount <= before && (continueSending ==> commandCount > 0)
      requires continueSending || acknowledgements == []
      modifies this
      ensures continueSending || Done()
      ensures old(Idle() && commandCount == 0 && !continueSending && PingDue(serviceTime)) && connected ==>
                Pinged(State(), serviceTime, FirstTimeout())
      ensures old(Idle() && !continueSending && !PingDue(serviceTime)) ==> Idle() && !continueSending
      ensures Resent(old(State()), State(), false, serviceTime, FirstTimeout()) && Steady(old(packetsLost), old(FirstTimeout()))
      ensures Sound(start)
      ensures |outgoingNumbers| == |outgoingUnreliableNumbers|
      ensures continueSending ==> Remaining(serviceTime) < before
    {
      hide Pinged, LedgerOk, Progress, Fitting, Remaining, RoundTripOk, HasRoom, Sum, HeldBack, Resent;
      var canPing := FillFirst(serviceTime, start);
      ghost var l := State();
      EmptyDatagram();
      if canPing && sentReliableCommands == [] && TimeDifference(serviceTime, lastReceiveTime) >= pingInterval && mtu - packetSize >= CommandSize(Ping) {
        FillPing(serviceTime, connected, start);
        ResentMore(old(State()), l, State(), false, serviceTime, FirstTimeout());
      }
    }

    /** An empty datagram, and the acknowledgements that are due. */
    method StartDatagram()
      requires MINIMUM_MTU <= mtu <= MAXIMUM_MTU
      modifies this`continueSending, this`commandCount, this`buffers, this`packetSize, this`acknowledgements
      ensures Packed() && (continueSending ==> commandCount > 0) && (continueSending || acknowledgements == [])
      ensures |acknowledgements| + commandCount == old(|acknowledgements|)
    {
      continueSending := false;
      commandCount, buffers, packetSize := 0, [], HEADER_SIZE;
      if acknowledgements != [] {
        SendAcknowledgements();
      }
    }

    /** A pass starts with the acknowledgements that are due and with the timeouts. */
    method StartPass(serviceTime: uint32, checkTimeouts: bool, ghost start: Ledger) returns (disconnect: bool)
      requires Valid() && Fitting() && MINIMUM_MTU <= mtu <= MAXIMUM_MTU && Progress(start, State())
      modifies this`continueSending, this`commandCount, this`buffers, this`packetSize, this`acknowledgements
      modifies this`outgoingCommands, this`outgoingSendReliableCommands, this`sentReliableCommands, this`reliableDataInTransit
      modifies this`earliestTimeout, this`nextTimeout, this`packetsLost
      ensures Valid()
      ensures disconnect <==> checkTimeouts && old(Overdue(sentReliableCommands, serviceTime))
                              && Hopeless(old(sentReliableCommands), serviceTime, old(earliestTimeout), Tolerance())
      ensures var check := checkTimeouts && old(Overdue(sentReliableCommands, serviceTime));
              !disconnect ==>
                && Resent(old(State()), State(), check, serviceTime, FirstTimeout())
                && packetsLost == if check then Lost(old(packetsLost), old(sentReliableCommands), serviceTime) else old(packetsLost)
      ensures old(Idle()) ==> !disconnect && Idle() && commandCount == 0 && !continueSending
      ensures !disconnect ==> && Fitting() && Packed() && Progress(start, State()) && (continueSending ==> commandCount > 0)
                              && Remaining(serviceTime) + 4 * commandCount == old(Remaining(serviceTime))
                              && (continueSending || acknowledgements == [])
    {
      hide LedgerOk, Progress, Load, Expired, Fitting, Kept, ExpiredLoad, Packed, Resent, Hopeless, TimeLess, Lost;
      ResentGrown(State(), State(), serviceTime, FirstTimeout());
      StartDatagram();
      disconnect := false;
      if checkTimeouts && sentReliableCommands != [] && !TimeLess(serviceTime, nextTimeout) {
        disconnect := ExpirePass(serviceTime, start);
      }
    }

    /** One pass over the peer: true when it is to be disconnected. */
    method SendPass(serviceTime: uint32, checkTimeouts: bool, connected: bool, ghost start: Ledger)
      returns (disconnect: bool)
      requires Valid() && Fitting() && RoundTripOk() && MINIMUM_MTU <= mtu <= MAXIMUM_MTU && Progress(start, State())
      requires |outgoingNumbers| == |outgoingUnreliableNumbers|
      modifies this
      ensures Valid()
      ensures disconnect <==> checkTimeouts && old(Overdue(sentReliableCommands, serviceTime))
                              && old(Hopeless(sentReliableCommands, serviceTime, earliestTimeout, Tolerance()))
      ensures var check := checkTimeouts && old(Overdue(sentReliableCommands, serviceTime));
              !disconnect ==>
                && Resent(old(State()), State(), check, serviceTime, old(FirstTimeout())) && FirstTimeout() == old(FirstTimeout())
                && packetsLost == if check then Lost(old(packetsLost), old(sentReliableCommands), serviceTime) else old(packetsLost)
      ensures !disconnect ==> && Fitting() && RoundTripOk() && Packed() && Progress(start, State())
                              && |outgoingNumbers| == |outgoingUnreliableNumbers| && sentUnreliableCommands == []
      ensures !disconnect && continueSending ==> Remaining(serviceTime) < old(Remaining(serviceTime))
      ensures !disconnect && !continueSending ==> Done()
      ensures old(Idle()) ==> !disconnect
      ensures old(Idle()) && old(PingDue(serviceTime)) && connected ==> Pinged(State(), serviceTime, FirstTimeout())
      ensures old(Idle()) && !old(PingDue(serviceTime)) ==> Idle() && !continueSending
    {
      hide Pinged, PingDue, Idle, LedgerOk, Progress, Fitting, Packed, Remaining, RoundTripOk, Done, Resent, Hopeless, Overdue, Lost;
      ghost var before := Remaining(serviceTime);
      disconnect := StartPass(serviceTime, checkTimeouts, start);
      if !disconnect {
        ghost var l := State();
        FillDatagram(serviceTime, connected, before, start);
        ghost var l' := State();
        RemoveSentUnreliable();
        ProgressOther(start, l', State());
        ResentGrown(l', State(), serviceTime, FirstTimeout());
        if Pinged(l', serviceTime, FirstTimeout()) {
          PingedOn(l', State(), serviceTime, FirstTimeout());
        }
        ResentMore(l, l', State(), false, serviceTime, FirstTimeout());
        ResentMore(old(State()), l, State(), checkTimeouts && old(Overdue(sentReliableCommands, serviceTime)), serviceTime, FirstTimeout());
      }
    }

    /** enet_protocol_send_outgoing_commands for one peer: passes go on for as long as one leaves something behind for
        want of room, and they come to an end. */
    method SendOutgoing(serviceTime: uint32, checkTimeouts: bool, connected: bool) returns (disconnect: bool)
      requires Valid() && Fitting() && RoundTripOk() && MINIMUM_MTU <= mtu <= MAXIMUM_MTU
      requires |outgoingNumbers| == |outgoingUnreliableNumbers|
      modifies this
      ensures Valid()
      ensures !disconnect ==> Fitting() && Done() && sentUnreliableCommands == [] && Progress(old(State()), State())
      ensures disconnect <==> checkTimeouts && old(Overdue(sentReliableCommands, serviceTime))
                              && old(Hopeless(sentReliableCommands, serviceTime, earliestTimeout, Tolerance()))
      ensures var check := checkTimeouts && old(Overdue(sentReliableCommands, serviceTime));
              !disconnect ==>
                && Resent(old(State()), State(), check, serviceTime, old(FirstTimeout()))
                && packetsLost == (if check then Lost(old(packetsLost), old(sentReliableCommands), serviceTime) else old(packetsLost))
                && (check ==> JustSent(sentReliableCommands, serviceTime))
      ensures old(Idle()) ==>
                if !old(PingDue(serviceTime)) then Idle()
                else connected ==> exists c :: c in sentReliableCommands && c.kind == Ping
    {
      hide Pinged, LedgerOk, Progress, Fitting, Packed, Remaining, Done, Resent, Hopeless, Overdue, Lost, Kept, Expired, TimeLess, RoundTripOk;
      ghost var start, timeout := State(), FirstTimeout();
      LedgerShapes(start);
      ProgressSelf(start);
      ghost var check := checkTimeouts && Overdue(sentReliableCommands, serviceTime);
      disconnect := SendPass(serviceTime, checkTimeouts, connected, start);
      ghost var lost, hopeless := packetsLost, disconnect;
      while !disconnect && continueSending
        invariant Valid() && disconnect == hopeless
        invariant !disconnect ==> && Fitting() && RoundTripOk() && Packed() && Progress(start, State())
                                  && |outgoingNumbers| == |outgoingUnreliableNumbers| && sentUnreliableCommands == []
                                  && (continueSending || Done())
        invariant old(Idle()) ==> !disconnect
        invariant old(Idle()) && old(PingDue(serviceTime)) && connected ==> Pinged(State(), serviceTime, timeout)
        invariant old(Idle()) && !old(PingDue(serviceTime)) ==> Idle() && !continueSending
        invariant !disconnect ==> Resent(start, State(), check, serviceTime, timeout) && Steady(lost, timeout)
        decreases if disconnect || !continueSending then 0 else Remaining(serviceTime) + 1
      {
        PackedMtu();
        ghost var l := State();
        ghost var later := checkTimeouts && Overdue(l.sent, serviceTime);
        LaterPass(start, l, checkTimeouts, serviceTime, timeout);
        if later {
          NothingExpired(l.sent, serviceTime, earliestTimeout, Tolerance());
          NothingLost(packetsLost, l.sent, serviceTime);
        }
        disconnect := SendPass(serviceTime, checkTimeouts, connected, start);
        if old(Idle()) && old(PingDue(serviceTime)) && connected {
          ResentNow(l, State(), later, serviceTime, timeout);
          PingedOn(l, State(), serviceTime, timeout);
        }
        ResentLater(start, l, State(), check, later, serviceTime, timeout);
      }
      if old(Idle()) && old(PingDue(serviceTime)) && connected {
        DoneEmpties();
        PingSent(State(), serviceTime, timeout);
      }
      if check && !disconnect {
        KeptJustSent(start, State(), serviceTime, timeout);
      }
    }

    lemma PackedMtu()
      requires Packed()
      ensures MINIMUM_MTU <= mtu <= MAXIMUM_MTU
    {
    }
  }
}
