/** Unsequenced packets: delivered in any order, but each at most once. */
module Unsequenced {
  import opened Integers
  import opened SequenceNumbers

  const UNSEQUENCED_WINDOW_SIZE := 1024
  const FREE_UNSEQUENCED_WINDOWS := 32

  function Block(n: nat): nat {
    n - n % UNSEQUENCED_WINDOW_SIZE
  }

  /** The receiver in unbounded group numbers: the block its bitmap covers, and the groups it has accepted. */
  datatype Receiver = Receiver(base: nat, accepted: set<nat>)

  /** The groups the bitmap has to remember are exactly the accepted ones of the block; nothing lies beyond it. */
  ghost predicate Remembers(v: Receiver, window: seq<bool>) {
    && |window| == UNSEQUENCED_WINDOW_SIZE && v.base % UNSEQUENCED_WINDOW_SIZE == 0
    && (forall i :: 0 <= i < UNSEQUENCED_WINDOW_SIZE ==> (window[i] <==> v.base + i in v.accepted))
    && forall n :: n in v.accepted ==> n < v.base + UNSEQUENCED_WINDOW_SIZE
  }

  datatype Verdict = Accepted | Ignored | Refused

  /** What becomes of group n, which is what the receiver takes the 16 bits for; full says that the packet cannot be kept. */
  ghost function Judged(v: Receiver, n: nat, full: bool): Verdict {
    if n >= v.base + FREE_UNSEQUENCED_WINDOWS * UNSEQUENCED_WINDOW_SIZE || n in v.accepted then Ignored
    else if full then Refused
    else Accepted
  }

  ghost function After(v: Receiver, n: nat, full: bool): Receiver {
    if n >= v.base + FREE_UNSEQUENCED_WINDOWS * UNSEQUENCED_WINDOW_SIZE then v
    else Receiver(Block(n), if Judged(v, n, full) == Accepted then v.accepted + {n} else v.accepted)
  }

  lemma BlockOnWire(base: nat, n: nat)
    requires base % UNSEQUENCED_WINDOW_SIZE == 0 && base <= n
    ensures Wire(n) % UNSEQUENCED_WINDOW_SIZE == n % UNSEQUENCED_WINDOW_SIZE
    ensures Wire(Block(n)) == Wire(n) - Wire(n) % UNSEQUENCED_WINDOW_SIZE
    ensures Block(n) % UNSEQUENCED_WINDOW_SIZE == 0 && base <= Block(n) <= n < Block(n) + UNSEQUENCED_WINDOW_SIZE
  {
    var q := n / SPACE;
    var r := Wire(n) % UNSEQUENCED_WINDOW_SIZE;
    assert n == q * 64 * UNSEQUENCED_WINDOW_SIZE + Wire(n);
    SameResidue(q * 64, Wire(n));
    var p := base / UNSEQUENCED_WINDOW_SIZE;
    assert base == p * UNSEQUENCED_WINDOW_SIZE;
    assert n / UNSEQUENCED_WINDOW_SIZE >= p;
    assert Block(n) == n / UNSEQUENCED_WINDOW_SIZE * UNSEQUENCED_WINDOW_SIZE;
    assert Block(n) == q * SPACE + (Wire(n) - r);
  }

  lemma SameResidue(k: nat, x: nat)
    ensures (k * UNSEQUENCED_WINDOW_SIZE + x) % UNSEQUENCED_WINDOW_SIZE == x % UNSEQUENCED_WINDOW_SIZE
  {
  }

  /** The arithmetic of the group test, for the group n that its 16 bits are taken for. */
  lemma GroupTests(base: nat, group: uint16, n: nat)
    requires base % UNSEQUENCED_WINDOW_SIZE == 0 && n == Unwire(base, group)
    ensures var g := group + (if group < Wire(base) then 0x1_0000 else 0);
            && (g >= Wire(base) + FREE_UNSEQUENCED_WINDOWS * UNSEQUENCED_WINDOW_SIZE
                <==> n >= base + FREE_UNSEQUENCED_WINDOWS * UNSEQUENCED_WINDOW_SIZE)
            && Wrap16(g) == group
    ensures group - group % UNSEQUENCED_WINDOW_SIZE == Wire(Block(n)) && group % UNSEQUENCED_WINDOW_SIZE == n - Block(n)
    ensures Wire(Block(n)) == Wire(base) <==> Block(n) == base
    ensures base <= Block(n) <= n && Block(n) % UNSEQUENCED_WINDOW_SIZE == 0 && n - Block(n) < UNSEQUENCED_WINDOW_SIZE
    ensures Block(n) != base ==> base + UNSEQUENCED_WINDOW_SIZE <= Block(n)
  {
    WireOfUnwire(base, group);
    DistanceOnWire(base, n);
    DistanceNear(base, n);
    BlockOnWire(base, n);
    if Wire(Block(n)) == Wire(base) {
      SameBlock(base, n);
    }
    NextBlock(base, Block(n));
  }

  lemma NextBlock(base: nat, next: nat)
    requires base % UNSEQUENCED_WINDOW_SIZE == 0 && next % UNSEQUENCED_WINDOW_SIZE == 0 && base <= next
    ensures next != base ==> base + UNSEQUENCED_WINDOW_SIZE <= next
  {
  }

  class UnsequencedWindow {
    var incomingUnsequencedGroup: uint16
    var unsequencedWindow: seq<bool>
    ghost var view: Receiver

    ghost predicate Valid()
      reads this
    {
      incomingUnsequencedGroup == Wire(view.base) && Remembers(view, unsequencedWindow)
    }

    constructor ()
      ensures Valid() && view == Receiver(0, {})
    {
      incomingUnsequencedGroup := 0;
      unsequencedWindow := seq(UNSEQUENCED_WINDOW_SIZE, _ => false);
      view := Receiver(0, {});
    }

    /** The group test of enet_protocol_handle_send_unsequenced; full is the outcome of queueing the packet. */
    method HandleSendUnsequenced(group: uint16, full: bool, ghost n: nat) returns (verdict: Verdict)
      requires Valid() && n == Unwire(view.base, group)
      modifies this
      ensures Valid() && verdict == Judged(old(view), n, full) && view == After(old(view), n, full)
    {
      hide Wire, Unwire, Block, Wrap16;
      GroupTests(view.base, group, n);
      var unsequencedGroup: int := group;
      var index := group % UNSEQUENCED_WINDOW_SIZE;
      if unsequencedGroup < incomingUnsequencedGroup {
        unsequencedGroup := unsequencedGroup + 0x1_0000;
      }
      if unsequencedGroup >= incomingUnsequencedGroup + FREE_UNSEQUENCED_WINDOWS * UNSEQUENCED_WINDOW_SIZE {
        return Ignored;
      }
      unsequencedGroup := Wrap16(unsequencedGroup);
      if unsequencedGroup - index != incomingUnsequencedGroup {
        incomingUnsequencedGroup := unsequencedGroup - index;
        unsequencedWindow := seq(UNSEQUENCED_WINDOW_SIZE, _ => false);
      } else if unsequencedWindow[index] {
        return Ignored;
      }
      view := view.(base := Block(n));
      if full { return Refused; }
      unsequencedWindow := unsequencedWindow[index := true];
      view := view.(accepted := view.accepted + {n});
      verdict := Accepted;
    }
  }

  lemma SameBlock(base: nat, n: nat)
    requires base % UNSEQUENCED_WINDOW_SIZE == 0 && base <= n < base + SPACE && Wire(Block(n)) == Wire(base)
    ensures Block(n) == base
  {
  }

  // ----- whole runs

  /** A datagram may be this late, or this far ahead, and no more. */
  ghost predicate InTime(v: Receiver, n: nat) {
    v.base <= n + FREE_UNSEQUENCED_WINDOWS * UNSEQUENCED_WINDOW_SIZE && n < v.base + SPACE
  }

  /** The receiver takes a group in time for itself, or for one it ignores. */
  lemma TakenFor(v: Receiver, n: nat)
    requires InTime(v, n)
    ensures v.base <= n ==> Unwire(v.base, Wire(n)) == n
    ensures n < v.base ==> Judged(v, Unwire(v.base, Wire(n)), false) == Ignored
  {
  }

  /** A group from before the bitmap's block is ignored exactly if it is at most 32768 behind. */
  lemma LateIgnored(v: Receiver, n: nat, window: seq<bool>)
    requires Remembers(v, window) && n < v.base <= n + SPACE
    ensures Judged(v, Unwire(v.base, Wire(n)), false) == Ignored <==>
            v.base <= n + FREE_UNSEQUENCED_WINDOWS * UNSEQUENCED_WINDOW_SIZE || n + SPACE in v.accepted
  {
  }

  datatype Arrival = Arrival(group: nat, full: bool)

  ghost function Received(v: Receiver, a: Arrival): Receiver {
    After(v, Unwire(v.base, Wire(a.group)), a.full)
  }

  ghost predicate IsAccepted(v: Receiver, a: Arrival) {
    Judged(v, Unwire(v.base, Wire(a.group)), a.full) == Accepted
  }

  /** A group of the bitmap's block or of the 31 that follow is accepted exactly if it is new and can be kept; the bitmap moves
      on to its block even if it cannot. */
  lemma NewTaken(v: Receiver, a: Arrival)
    requires v.base % UNSEQUENCED_WINDOW_SIZE == 0 && v.base <= a.group < v.base + 32 * 1024
    ensures IsAccepted(v, a) <==> !a.full && a.group !in v.accepted
    ensures Received(v, a).accepted == v.accepted + (if a.full then {} else {a.group})
    ensures Received(v, a).base <= a.group < Received(v, a).base + 1024
  {
    TakenFor(v, a.group);
  }

  ghost predicate IsRun(run: seq<Receiver>, arrivals: seq<Arrival>) {
    && |run| == |arrivals| + 1 && run[0] == Receiver(0, {})
    && forall k :: 0 <= k < |arrivals| ==> run[k + 1] == Received(run[k], arrivals[k])
  }

  ghost predicate AllInTime(run: seq<Receiver>, arrivals: seq<Arrival>) {
    forall k :: 0 <= k < |arrivals| < |run| ==> InTime(run[k], arrivals[k].group)
  }

  ghost predicate Inv(v: Receiver) {
    v.base % UNSEQUENCED_WINDOW_SIZE == 0 && forall n :: n in v.accepted ==> n < v.base + UNSEQUENCED_WINDOW_SIZE
  }

  lemma ReceivedKeeps(v: Receiver, a: Arrival)
    requires Inv(v) && InTime(v, a.group)
    ensures Inv(Received(v, a)) && v.base <= Received(v, a).base && v.accepted <= Received(v, a).accepted
    ensures IsAccepted(v, a) ==> a.group !in v.accepted && a.group in Received(v, a).accepted
  {
    WireOfUnwire(v.base, Wire(a.group));
    BlockOnWire(v.base, Unwire(v.base, Wire(a.group)));
    TakenFor(v, a.group);
  }

  lemma {:induction false} RunKeeps(run: seq<Receiver>, arrivals: seq<Arrival>, j: nat, k: nat)
    requires IsRun(run, arrivals) && AllInTime(run, arrivals) && j <= k < |run|
    ensures Inv(run[k]) && run[j].base <= run[k].base && run[j].accepted <= run[k].accepted
    decreases k
  {
    if k > 0 {
      RunKeeps(run, arrivals, if j < k then j else k - 1, k - 1);
      ReceivedKeeps(run[k - 1], arrivals[k - 1]);
    }
  }

  /** In every run whose datagrams are in time, no group is accepted twice, though the bitmap only covers one
      block of 1024 and is cleared whenever the block moves on. */
  lemma AtMostOnce(run: seq<Receiver>, arrivals: seq<Arrival>, j: nat, k: nat)
    requires IsRun(run, arrivals) && AllInTime(run, arrivals) && j < k < |arrivals| && arrivals[j].group == arrivals[k].group
    ensures !(IsAccepted(run[j], arrivals[j]) && IsAccepted(run[k], arrivals[k]))
  {
    RunKeeps(run, arrivals, j, j);
    RunKeeps(run, arrivals, j + 1, k);
    ReceivedKeeps(run[j], arrivals[j]);
    ReceivedKeeps(run[k], arrivals[k]);
  }

  /** A group that is repeated when the base has moved on by 40960 is accepted again. */
  lemma AcceptedTwice() returns (run: seq<Receiver>, arrivals: seq<Arrival>)
    ensures arrivals == [Arrival(1, false), Arrival(20000, false), Arrival(40960, false), Arrival(1, false)]
    ensures IsRun(run, arrivals) && IsAccepted(run[0], arrivals[0]) && IsAccepted(run[3], arrivals[3])
  {
    arrivals := [Arrival(1, false), Arrival(20000, false), Arrival(40960, false), Arrival(1, false)];
    var v0 := Receiver(0, {});
    var v1, v2, v3 := Receiver(0, {1}), Receiver(19456, {1, 20000}), Receiver(40960, {1, 20000, 40960});
    run := [v0, v1, v2, v3, Received(v3, arrivals[3])];
  }
}
