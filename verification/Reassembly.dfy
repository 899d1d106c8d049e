/** Packets that arrive in fragments: a buffer, and a bit for each fragment that has come. */
module Reassembly {
  import opened Integers

  /** What becomes of a command that arrives. */
  datatype Outcome = Stored | Discarded | Refused

  const MAXIMUM_FRAGMENT_COUNT := 1024 * 1024

  /** What is queued under one number: a whole packet, or one that is being put together from fragments. */
  datatype Body = Body(fragment: bool, count: nat, remaining: nat, have: seq<bool>, data: seq<uint8>)

  /** One fragment as it arrives. */
  datatype Piece = Piece(index: uint32, count: uint32, offset: uint32, total: uint32, data: seq<uint8>)

  function Whole(data: seq<uint8>): Body {
    Body(false, 0, 0, [], data)
  }

  function Blank(count: nat, memory: seq<uint8>): Body {
    Body(true, count, count, seq(count, _ => false), memory)
  }

  /** The number of fragments still missing. */
  ghost function Missing(have: seq<bool>): nat {
    if have == [] then 0 else Missing(have[..|have| - 1]) + (if have[|have| - 1] then 0 else 1)
  }

  /** What the queue keeps of every body, however odd the traffic. */
  ghost predicate BodyOk(b: Body) {
    b.count == |b.have| && b.remaining == Missing(b.have) && (b.fragment <==> b.count > 0)
  }

  predicate Fits(p: Piece, b: Body) {
    b.fragment && |b.data| == p.total && b.count == p.count
  }

  function Filled(b: Body, p: Piece): Body
    requires p.index < |b.have| && p.offset + |p.data| <= |b.data|
  {
    if b.have[p.index] then b
    else b.(remaining := if b.remaining > 0 then b.remaining - 1 else 0, have := b.have[p.index := true],
            data := b.data[..p.offset] + p.data + b.data[p.offset + |p.data|..])
  }

  lemma {:induction false} MissingOne(have: seq<bool>, i: nat)
    requires i < |have| && !have[i]
    ensures Missing(have) == Missing(have[i := true]) + 1
  {
    var n := |have| - 1;
    if i < n {
      MissingOne(have[..n], i);
      assert have[i := true][..n] == have[..n][i := true];
    } else {
      assert have[i := true][..n] == have[..n];
    }
  }

  lemma {:induction false} MissingAll(n: nat)
    ensures Missing(seq(n, _ => false)) == n
  {
    if n > 0 {
      MissingAll(n - 1);
      assert seq(n, _ => false)[..n - 1] == seq(n - 1, _ => false);
    }
  }

  lemma {:induction false} MissingNone(have: seq<bool>)
    ensures Missing(have) == 0 <==> forall i :: 0 <= i < |have| ==> have[i]
  {
    if have != [] {
      MissingNone(have[..|have| - 1]);
    }
  }

  lemma BlankOk(count: nat, memory: seq<uint8>)
    requires count > 0
    ensures var b := Blank(count, memory);
            BodyOk(b) && |b.have| == count && b.data == memory && b.remaining > 0
  {
    MissingAll(count);
  }

  /** fragmentsRemaining stays the number of clear bits. */
  lemma FilledOk(b: Body, p: Piece)
    requires BodyOk(b) && p.index < |b.have| && p.offset + |p.data| <= |b.data|
    ensures BodyOk(Filled(b, p)) && |Filled(b, p).data| == |b.data|
    ensures !b.have[p.index] ==> b.remaining > 0
  {
    if !b.have[p.index] {
      MissingOne(b.have, p.index);
    }
  }
}
