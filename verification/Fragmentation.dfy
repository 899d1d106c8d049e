/** How enet_peer_send cuts a packet into consecutively numbered commands, and why the pieces make it whole again. */
module Fragmentation {
  import opened Integers
  import opened Reassembly

  /** A packet queued for one channel: its first sequence number, its bytes, and the room for data in one datagram. */
  datatype Sent = Sent(start: nat, data: seq<uint8>, fragmentLength: nat)

  predicate Fragmented(p: Sent) {
    |p.data| > p.fragmentLength
  }

  function Count(p: Sent): nat
    requires p.fragmentLength > 0
  {
    if Fragmented(p) then (|p.data| + p.fragmentLength - 1) / p.fragmentLength else 1
  }

  function Last(p: Sent): nat
    requires p.fragmentLength > 0
  {
    p.start + Count(p) - 1
  }

  function Offset(p: Sent, i: nat): nat {
    i * p.fragmentLength
  }

  function Length(p: Sent, i: nat): nat
    requires Offset(p, i) <= |p.data|
  {
    if |p.data| - Offset(p, i) < p.fragmentLength then |p.data| - Offset(p, i) else p.fragmentLength
  }

  /** What enet_peer_send accepts: the numbers fit their fields on the wire. */
  ghost predicate Sendable(p: Sent) {
    p.fragmentLength > 0 && |p.data| < 0x1_0000_0000 && Count(p) <= MAXIMUM_FRAGMENT_COUNT
  }

  lemma CountCovers(p: Sent)
    requires p.fragmentLength > 0 && Fragmented(p)
    ensures Offset(p, Count(p) - 1) < |p.data| <= Offset(p, Count(p)) && 2 <= Count(p) <= |p.data|
  {
    var q, n := |p.data| + p.fragmentLength - 1, p.fragmentLength;
    assert q == q / n * n + q % n;
    assert Offset(p, 1) == n;
    ProductAtLeast(Count(p) - 1, n);
  }

  lemma ProductAtLeast(a: nat, n: nat)
    requires n > 0
    ensures a <= a * n
  {
  }

  /** Every fragment lies inside the packet and is not empty; consecutive fragments touch. */
  lemma Partition(p: Sent, i: nat)
    requires p.fragmentLength > 0 && Fragmented(p) && i < Count(p)
    ensures Offset(p, i) < |p.data| && 0 < Length(p, i) <= p.fragmentLength && Offset(p, i) + Length(p, i) <= |p.data|
    ensures i + 1 < Count(p) ==> Offset(p, i) + Length(p, i) == Offset(p, i + 1)
    ensures i + 1 == Count(p) ==> Offset(p, i) + Length(p, i) == |p.data|
  {
    CountCovers(p);
    MulMonotone(i, Count(p) - 1, p.fragmentLength);
    assert Offset(p, i + 1) == Offset(p, i) + p.fragmentLength;
    if i + 1 < Count(p) {
      MulMonotone(i + 1, Count(p) - 1, p.fragmentLength);
    }
  }

  function Slice(p: Sent, i: nat): seq<uint8>
    requires p.fragmentLength > 0 && Fragmented(p) && i < Count(p)
  {
    Partition(p, i);
    p.data[Offset(p, i)..Offset(p, i) + Length(p, i)]
  }

  /** Fragment i as it travels. */
  function Fragment(p: Sent, i: nat): (f: Piece)
    requires Sendable(p) && Fragmented(p) && i < Count(p)
    ensures f.index == i && f.count == Count(p) && f.total == |p.data| && f.data == Slice(p, i)
    ensures f.offset + |f.data| <= f.total && 0 < |f.data|
  {
    Partition(p, i);
    CountCovers(p);
    Piece(i, Count(p), Offset(p, i), |p.data|, Slice(p, i))
  }

  /** The buffer agrees with the packet on every fragment whose bit is set. */
  ghost predicate Agrees(b: Body, p: Sent)
    requires p.fragmentLength > 0 && Fragmented(p)
  {
    && b.fragment && b.count == |b.have| == Count(p) && |b.data| == |p.data| && b.remaining == Missing(b.have)
    && forall i :: 0 <= i < Count(p) && b.have[i] ==> SliceAgrees(b.data, p, i)
  }

  ghost predicate SliceAgrees(data: seq<uint8>, p: Sent, i: nat)
    requires p.fragmentLength > 0 && Fragmented(p) && i < Count(p) && |data| == |p.data|
  {
    forall x :: Offset(p, i) <= x < Offset(p, i) + p.fragmentLength && x < |data| ==> data[x] == p.data[x]
  }

  lemma BlankAgrees(p: Sent, memory: seq<uint8>)
    requires Sendable(p) && Fragmented(p) && |memory| == |p.data|
    ensures Agrees(Blank(Count(p), memory), p)
  {
    MissingAll(Count(p));
  }

  /** Entering any fragment, new or duplicate, keeps the agreement: no other fragment's bytes are touched. */
  lemma FilledAgrees(b: Body, p: Sent, i: nat)
    requires Sendable(p) && Fragmented(p) && i < Count(p) && Agrees(b, p)
    ensures Agrees(Filled(b, Fragment(p, i)), p) && Filled(b, Fragment(p, i)).have == b.have[i := true]
  {
    var f := Fragment(p, i);
    if b.have[i] {
      assert b.have[i := true] == b.have;
    } else {
      MissingOne(b.have, i);
      var b' := Filled(b, f);
      forall k | 0 <= k < Count(p) && b'.have[k]
        ensures SliceAgrees(b'.data, p, k)
      {
        if k != i {
          assert SliceAgrees(b.data, p, k);
          SlicesApart(p, i, k);
        } else {
          Partition(p, i);
        }
      }
    }
  }

  lemma SlicesApart(p: Sent, i: nat, k: nat)
    requires p.fragmentLength > 0 && i != k
    ensures Offset(p, i) + p.fragmentLength <= Offset(p, k) || Offset(p, k) + p.fragmentLength <= Offset(p, i)
  {
    if i < k {
      MulMonotone(i + 1, k, p.fragmentLength);
    } else {
      MulMonotone(k + 1, i, p.fragmentLength);
    }
  }

  /** When no fragment is missing, whatever order they came in, the buffer is the packet. */
  lemma Reassembled(b: Body, p: Sent)
    requires p.fragmentLength > 0 && Fragmented(p) && Agrees(b, p) && b.remaining == 0
    ensures b.data == p.data && b.have[Count(p) - 1]
  {
    hide SliceAgrees, Count;
    MissingNone(b.have);
    CountCovers(p);
    forall x | 0 <= x < |p.data|
      ensures b.data[x] == p.data[x]
    {
      var i := FragmentOf(p, x);
      assert SliceAgrees(b.data, p, i);
      SliceAt(b.data, p, i, x);
    }
  }

  lemma SliceAt(data: seq<uint8>, p: Sent, i: nat, x: nat)
    requires p.fragmentLength > 0 && Fragmented(p) && i < Count(p) && |data| == |p.data| && SliceAgrees(data, p, i)
    requires Offset(p, i) <= x < Offset(p, i) + p.fragmentLength && x < |data|
    ensures data[x] == p.data[x]
  {
  }

  lemma FragmentOf(p: Sent, x: nat) returns (i: nat)
    requires p.fragmentLength > 0 && Fragmented(p) && x < |p.data|
    ensures i < Count(p) && Offset(p, i) <= x < Offset(p, i) + p.fragmentLength
  {
    i := x / p.fragmentLength;
    CountCovers(p);
    if i >= Count(p) {
      MulMonotone(Count(p), i, p.fragmentLength);
    }
  }

  /** The buffer after fragments have arrived in this order, duplicates included. */
  ghost function Arrived(p: Sent, memory: seq<uint8>, order: seq<nat>): (b: Body)
    requires Sendable(p) && Fragmented(p) && |memory| == |p.data|
    requires forall k :: 0 <= k < |order| ==> order[k] < Count(p)
    ensures Agrees(b, p)
  {
    if order == [] then
      BlankAgrees(p, memory);
      Blank(Count(p), memory)
    else
      var b := Arrived(p, memory, order[..|order| - 1]);
      FilledAgrees(b, p, order[|order| - 1]);
      Filled(b, Fragment(p, order[|order| - 1]))
  }

  lemma {:induction false} ArrivedBits(p: Sent, memory: seq<uint8>, order: seq<nat>)
    requires Sendable(p) && Fragmented(p) && |memory| == |p.data|
    requires forall k :: 0 <= k < |order| ==> order[k] < Count(p)
    ensures forall i :: 0 <= i < Count(p) ==> (Arrived(p, memory, order).have[i] <==> i in order)
  {
    if order != [] {
      var rest, i := order[..|order| - 1], order[|order| - 1];
      ArrivedBits(p, memory, rest);
      FilledAgrees(Arrived(p, memory, rest), p, i);
      assert order == rest + [i];
    }
  }

  /** fragmentsRemaining reaches 0 exactly when every fragment has come, in whatever order and however often,
      and then the packet is complete and correct. */
  lemma AnyOrder(p: Sent, memory: seq<uint8>, order: seq<nat>)
    requires Sendable(p) && Fragmented(p) && |memory| == |p.data|
    requires forall k :: 0 <= k < |order| ==> order[k] < Count(p)
    ensures var b := Arrived(p, memory, order);
            && (b.remaining == 0 <==> forall i :: 0 <= i < Count(p) ==> i in order)
            && (b.remaining == 0 ==> b.data == p.data)
  {
    var b := Arrived(p, memory, order);
    ArrivedBits(p, memory, order);
    MissingNone(b.have);
    if b.remaining == 0 {
      Reassembled(b, p);
    }
  }
}
