/** The buffers a datagram is gathered from, and what the compressor reads of them. */
module InputBuffers {
  import opened Integers
  import opened Options

  /** behind is the byte that follows the data in memory, if there is one that may be read. */
  datatype Buffer = Buffer(data: seq<uint8>, behind: Option<uint8>)

  /** There is a byte at the start of the buffer, though not necessarily of its own. */
  predicate Readable(b: Buffer) {
    b.data != [] || b.behind.Some?
  }

  function ByteAt(b: Buffer, i: nat): uint8
    requires i < |b.data| || b.behind.Some?
  {
    if i < |b.data| then b.data[i] else b.behind.value
  }

  ghost function Concat(buffers: seq<Buffer>): seq<uint8> {
    if buffers == [] then [] else buffers[0].data + Concat(buffers[1..])
  }

  /** The compressor takes at least one byte from every buffer but the first, without looking at its length. */
  ghost function ReadLater(buffers: seq<Buffer>): Option<seq<uint8>> {
    if buffers == [] then Some([])
    else if !Readable(buffers[0]) then None
    else
      match ReadLater(buffers[1..])
      case None => None
      case Some(rest) => Some((if buffers[0].data == [] then [ByteAt(buffers[0], 0)] else buffers[0].data) + rest)
  }

  /** All that it reads, or None if it reads what may not be read. */
  ghost function BytesRead(buffers: seq<Buffer>): Option<seq<uint8>> {
    if buffers == [] then Some([])
    else
      match ReadLater(buffers[1..])
      case None => None
      case Some(rest) => Some(buffers[0].data + rest)
  }

  /** What is still to be read, from place i of buffer b and from the buffers behind it. */
  ghost function Unread(b: Buffer, i: nat, later: seq<Buffer>): seq<uint8> {
    (if i <= |b.data| then b.data[i..] else []) + (if ReadLater(later).Some? then ReadLater(later).value else [])
  }

  /** One turn of reading. */
  lemma UnreadTurn(b: Buffer, i: nat, buffers: seq<Buffer>, next: nat)
    requires next <= |buffers| && ReadLater(buffers[next..]).Some?
    ensures i < |b.data| ==> Unread(b, i, buffers[next..]) == [ByteAt(b, i)] + Unread(b, i + 1, buffers[next..])
    ensures i >= |b.data| && next == |buffers| ==> Unread(b, i, buffers[next..]) == []
    ensures i >= |b.data| && next < |buffers| ==>
              && Readable(buffers[next]) && ReadLater(buffers[next + 1..]).Some?
              && Unread(b, i, buffers[next..]) == [ByteAt(buffers[next], 0)] + Unread(buffers[next], 1, buffers[next + 1..])
  {
    if next < |buffers| {
      assert buffers[next..][1..] == buffers[next + 1..];
    }
  }

  lemma UnreadStart(buffers: seq<Buffer>)
    requires buffers != [] && BytesRead(buffers).Some?
    ensures ReadLater(buffers[1..]).Some? && Unread(buffers[0], 0, buffers[1..]) == BytesRead(buffers).value
  {
  }

  lemma {:induction false} LaterDefined(buffers: seq<Buffer>)
    ensures ReadLater(buffers).Some? <==> forall i :: 0 <= i < |buffers| ==> Readable(buffers[i])
  {
    if buffers != [] {
      LaterDefined(buffers[1..]);
      assert forall i :: 0 < i < |buffers| ==> buffers[i] == buffers[1..][i - 1];
    }
  }

  /** Reading is defined exactly if every empty buffer but the first has a byte behind it. */
  lemma ReadingDefined(buffers: seq<Buffer>)
    ensures BytesRead(buffers).Some? <==> forall i :: 1 <= i < |buffers| ==> Readable(buffers[i])
  {
    if buffers != [] {
      LaterDefined(buffers[1..]);
      assert forall i :: 1 <= i < |buffers| ==> buffers[i] == buffers[1..][i - 1];
    }
  }

  lemma {:induction false} LaterLength(buffers: seq<Buffer>)
    requires ReadLater(buffers).Some?
    ensures |ReadLater(buffers).value| >= |Concat(buffers)|
    ensures |ReadLater(buffers).value| == |Concat(buffers)| <==> forall i :: 0 <= i < |buffers| ==> buffers[i].data != []
    ensures |ReadLater(buffers).value| == |Concat(buffers)| ==> ReadLater(buffers).value == Concat(buffers)
  {
    if buffers != [] {
      LaterLength(buffers[1..]);
      assert forall i :: 0 < i < |buffers| ==> buffers[i] == buffers[1..][i - 1];
    }
  }

  lemma TailBuffers(buffers: seq<Buffer>)
    requires buffers != []
    ensures (forall i :: 1 <= i < |buffers| ==> buffers[i].data != []) <==>
            forall i :: 0 <= i < |buffers[1..]| ==> buffers[1..][i].data != []
  {
    assert forall i :: 1 <= i < |buffers| ==> buffers[i] == buffers[1..][i - 1];
  }

  lemma LaterSame(later: seq<Buffer>)
    ensures ReadLater(later) == Some(Concat(later)) <==> forall i :: 0 <= i < |later| ==> later[i].data != []
  {
    hide ReadLater, Concat;
    LaterDefined(later);
    if ReadLater(later).Some? {
      LaterLength(later);
    }
  }

  lemma SameAfter(first: seq<uint8>, x: seq<uint8>, y: seq<uint8>)
    ensures first + x == first + y <==> x == y
  {
    assert (first + x)[|first|..] == x && (first + y)[|first|..] == y;
  }

  /** What is read is what was given exactly if no buffer but the first is empty. */
  lemma ReadsWhatIsGiven(buffers: seq<Buffer>)
    ensures BytesRead(buffers) == Some(Concat(buffers)) <==> forall i :: 1 <= i < |buffers| ==> buffers[i].data != []
  {
    hide ReadLater;
    if buffers != [] {
      var later := buffers[1..];
      TailBuffers(buffers);
      LaterSame(later);
      if ReadLater(later).Some? {
        SameAfter(buffers[0].data, ReadLater(later).value, Concat(later));
      }
    }
  }

  // ----- packets as buffers

  /** memory is what may be read from the packet's data pointer on; None stands for a null pointer. */
  datatype Packet = Packet(memory: Option<seq<uint8>>, dataLength: nat, noAllocate: bool)

  predicate PacketOk(p: Packet) {
    if p.memory.Some? then p.dataLength <= |p.memory.value| else p.dataLength == 0
  }

  /** enet_packet_create; raw is what newly allocated memory holds. */
  function Create(data: Option<seq<uint8>>, dataLength: nat, noAllocate: bool, raw: seq<uint8>): (p: Packet)
    requires |raw| == dataLength && (data.Some? ==> dataLength <= |data.value|) && (noAllocate && data.None? ==> dataLength == 0)
    ensures PacketOk(p)
  {
    if noAllocate then Packet(data, dataLength, true)
    else if dataLength <= 0 then Packet(None, dataLength, false)
    else Packet(Some(if data.Some? then data.value[..dataLength] else raw), dataLength, false)
  }

  /** enet_packet_resize. */
  function Resize(p: Packet, dataLength: nat, raw: seq<uint8>): (q: Packet)
    requires PacketOk(p) && |raw| == dataLength
    requires p.noAllocate ==> if p.memory.Some? then dataLength <= |p.memory.value| else dataLength == 0
    ensures PacketOk(q)
  {
    if dataLength <= p.dataLength || p.noAllocate then p.(dataLength := dataLength)
    else
      var kept := if p.memory.Some? then p.memory.value[..p.dataLength] else [];
      Packet(Some(kept + raw[p.dataLength..]), dataLength, false)
  }

  function AsBuffer(p: Packet): Buffer
    requires PacketOk(p)
  {
    match p.memory
    case None => Buffer([], None)
    case Some(memory) => Buffer(memory[..p.dataLength], if p.dataLength < |memory| then Some(memory[p.dataLength]) else None)
  }

  /** A packet created without data has nothing to read, nor has one that has no memory of its own and points nowhere; one
      that was resized to nothing still has its first byte. */
  lemma EmptyPackets(data: seq<uint8>)
    requires data != []
    ensures forall given: Option<seq<uint8>> :: !Readable(AsBuffer(Create(given, 0, false, [])))
    ensures !Readable(AsBuffer(Create(None, 0, true, [])))
    ensures AsBuffer(Create(Some(data), 0, true, [])) == Buffer([], Some(data[0]))
    ensures AsBuffer(Resize(Create(Some(data), |data|, false, data), 0, [])) == Buffer([], Some(data[0]))
  {
  }
}
