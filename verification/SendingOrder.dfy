/** In which manner a packet is sent, and how that numbers the packets of one channel. */
module SendingOrder {
  import opened Integers
  import opened SequenceNumbers
  import opened Reassembly
  import opened Fragmentation

  /** Of the flags of a packet, those that decide. */
  datatype Flags = Flags(reliable: bool, unsequenced: bool, unreliableFragment: bool)

  datatype Manner = Reliably | Unreliably | OutOfSequence

  /** count is the channel's outgoingUnreliableSequenceNumber: once it is used up, packets are sent reliably. */
  function MannerOf(flags: Flags, fragmented: bool, count: uint16): Manner {
    if fragmented then
      if !flags.reliable && flags.unreliableFragment && count < 0xFFFF then Unreliably else Reliably
    else if !flags.reliable && flags.unsequenced then OutOfSequence
    else if flags.reliable || count >= 0xFFFF then Reliably
    else Unreliably
  }

  datatype Request = Request(data: seq<uint8>, fragmentLength: nat, flags: Flags)

  /** A channel's two outgoing numbers. */
  datatype Counts = Counts(reliable: nat, unreliable: uint16)

  ghost predicate Allowed(r: Request) {
    Sendable(Sent(0, r.data, r.fragmentLength))
  }

  function MannerFor(c: Counts, r: Request): Manner {
    MannerOf(r.flags, |r.data| > r.fragmentLength, c.unreliable)
  }

  /** The packet with the first number it takes. */
  function PacketOf(c: Counts, r: Request): Sent {
    Sent(if MannerFor(c, r) == Reliably then c.reliable + 1 else c.unreliable + 1, r.data, r.fragmentLength)
  }

  function CountsAfter(c: Counts, r: Request): Counts
    requires r.fragmentLength > 0
  {
    match MannerFor(c, r)
    case Reliably => Counts(Last(PacketOf(c, r)), 0)
    case Unreliably => Counts(c.reliable, c.unreliable + 1)
    case OutOfSequence => c
  }

  /** An unreliable packet: number is the last reliable number the channel had given out when it was sent, and
      packet.start counts the unreliable packets since then. */
  datatype Message = Message(number: nat, packet: Sent)

  ghost predicate SentBefore(a: Message, b: Message) {
    a.number < b.number || (a.number == b.number && a.packet.start < b.packet.start)
  }

  /** Everything that is ever sent, in order. */
  ghost predicate Log(sent: seq<Message>) {
    && (forall j :: 0 <= j < |sent| ==> Sendable(sent[j].packet) && 1 <= sent[j].packet.start < SPACE)
    && (forall i, j :: 0 <= i < j < |sent| ==> SentBefore(sent[i], sent[j]))
  }

  ghost function CountsOf(requests: seq<Request>): Counts
    requires forall k :: 0 <= k < |requests| ==> Allowed(requests[k])
  {
    if requests == [] then Counts(0, 0)
    else
      var r := requests[|requests| - 1];
      assert Allowed(r);
      CountsAfter(CountsOf(requests[..|requests| - 1]), r)
  }

  /** The unreliable ones among the packets sent. */
  ghost function Messages(requests: seq<Request>): seq<Message>
    requires forall k :: 0 <= k < |requests| ==> Allowed(requests[k])
  {
    if requests == [] then []
    else
      var before, r := requests[..|requests| - 1], requests[|requests| - 1];
      var c := CountsOf(before);
      Messages(before) + (if MannerFor(c, r) == Unreliably then [Message(c.reliable, PacketOf(c, r))] else [])
  }

  ghost predicate UpTo(sent: seq<Message>, c: Counts) {
    forall j :: 0 <= j < |sent| ==>
      sent[j].number < c.reliable || (sent[j].number == c.reliable && sent[j].packet.start <= c.unreliable)
  }

  /** Whatever a channel is asked to send, its unreliable packets are numbered in the order of sending, and no number
      passes 16 bits, however many of them follow one another. */
  lemma {:induction false} SendsInOrder(requests: seq<Request>)
    requires forall k :: 0 <= k < |requests| ==> Allowed(requests[k])
    ensures Log(Messages(requests)) && UpTo(Messages(requests), CountsOf(requests))
  {
    if requests != [] {
      var before, r := requests[..|requests| - 1], requests[|requests| - 1];
      SendsInOrder(before);
      var c := CountsOf(before);
      LastGrows(c, r);
      if MannerFor(c, r) == Unreliably {
        LogGrows(Messages(before), c, Message(c.reliable, PacketOf(c, r)));
      }
    }
  }

  lemma LastGrows(c: Counts, r: Request)
    requires Allowed(r)
    ensures Last(Sent(c.reliable + 1, r.data, r.fragmentLength)) > c.reliable
  {
    if |r.data| > r.fragmentLength {
      CountCovers(Sent(c.reliable + 1, r.data, r.fragmentLength));
    }
  }

  lemma LogGrows(sent: seq<Message>, c: Counts, m: Message)
    requires Log(sent) && UpTo(sent, c) && c.unreliable < 0xFFFF
    requires m.number == c.reliable && m.packet.start == c.unreliable + 1 && Sendable(m.packet)
    ensures Log(sent + [m]) && UpTo(sent + [m], Counts(c.reliable, c.unreliable + 1))
  {
  }
}
