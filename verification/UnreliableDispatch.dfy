/** The queue of unreliable and unsequenced commands of one channel, and the loop that delivers from it. */
module UnreliableDispatch {
  import opened Integers
  import opened SequenceNumbers
  import opened PeerStates
  import opened Reassembly

  /** A queued command. number is the unbounded form of its reliable sequence number; id tells commands apart. */
  datatype Item = Item(id: nat, unsequenced: bool, number: nat, unreliable: uint16, body: Body)

  // ----- what the dispatch loop sees in an item, given the channel's position

  predicate Current(received: nat, c: Item) {
    !c.unsequenced && Wire(c.number) == Wire(received)
  }

  /** Waiting for reliable commands that are still to come. */
  predicate Waiting(received: nat, c: Item) {
    !c.unsequenced && Wire(c.number) != Wire(received)
    && 0 <= RelativeWindow(Wire(received), Wire(c.number)) < FREE_RELIABLE_WINDOWS - 1
  }

  predicate Deliverable(received: nat, c: Item) {
    c.unsequenced || (Current(received, c) && c.body.remaining == 0)
  }

  /** The items the loop gets to: those before the first that is waiting. */
  ghost function Reached(received: nat, q: seq<Item>): (n: nat)
    ensures n <= |q|
    ensures forall i :: 0 <= i < n ==> !Waiting(received, q[i])
    ensures n < |q| ==> Waiting(received, q[n])
  {
    if q == [] || Waiting(received, q[0]) then 0 else 1 + Reached(received, q[1..])
  }

  /** ... of which it delivers these */
  ghost function Delivered(received: nat, q: seq<Item>): seq<Item> {
    if q == [] then []
    else Delivered(received, q[..|q| - 1]) + (if Deliverable(received, q[|q| - 1]) then [q[|q| - 1]] else [])
  }

  /** ... and passes over these. */
  ghost function Passed(received: nat, q: seq<Item>): seq<Item> {
    if q == [] then []
    else Passed(received, q[..|q| - 1]) + (if Deliverable(received, q[|q| - 1]) then [] else [q[|q| - 1]])
  }

  /** The unreliable number of the last sequenced item delivered. */
  ghost function Position(received: nat, q: seq<Item>, u: uint16): uint16 {
    if q == [] then u
    else if Deliverable(received, q[|q| - 1]) && !q[|q| - 1].unsequenced then q[|q| - 1].unreliable
    else Position(received, q[..|q| - 1], u)
  }

  /** How many of the items passed over are dropped: those older than the position, and incomplete ones that have
      been overtaken by a delivery or by two more incomplete ones. */
  ghost function Overtaken(received: nat, q: seq<Item>): nat {
    if q == [] then 0
    else
      var p, c := q[..|q| - 1], q[|q| - 1];
      if Deliverable(received, c) then Overtaken(received, p)
      else if !Current(received, c) then |Passed(received, p)| + 1
      else if p != [] && Deliverable(received, p[|p| - 1]) then |Passed(received, p)|
      else if Overtaken(received, p) != |Passed(received, p)| then |Passed(received, p)| - 1
      else Overtaken(received, p)
  }

  ghost function Dropped(received: nat, q: seq<Item>): nat {
    if q != [] && Deliverable(received, q[|q| - 1]) then |Passed(received, q)| else Overtaken(received, q)
  }

  /** enet_peer_remove_incoming_commands: everything but the excluded command goes. */
  ghost function Excepted(q: seq<Item>, queued: int): seq<Item> {
    if q == [] then []
    else Excepted(q[..|q| - 1], queued) + (if q[|q| - 1].id == queued then [q[|q| - 1]] else [])
  }

  /** A channel, with its reliable position and unreliable position; next is the id of the next command to be allocated. */
  datatype Unreliable = Unreliable(received: nat, position: uint16, queue: seq<Item>, dispatched: seq<Item>, next: nat)

  /** The effect of the dispatch loop. queued is the id of a command that must stay, or -1. */
  ghost function Dispatched(v: Unreliable, queued: int): Unreliable {
    var n := Reached(v.received, v.queue);
    var p := v.queue[..n];
    var passed, d := Passed(v.received, p), Dropped(v.received, p);
    Unreliable(v.received, Position(v.received, p, v.position),
               (if d <= |passed| then Excepted(passed[..d], queued) + passed[d..] else Excepted(passed, queued)) + v.queue[n..],
               v.dispatched + Delivered(v.received, p), v.next)
  }

  lemma {:induction false} OvertakenBound(received: nat, q: seq<Item>)
    ensures Overtaken(received, q) <= |Passed(received, q)| && Dropped(received, q) <= |Passed(received, q)|
  {
    if q != [] {
      OvertakenBound(received, q[..|q| - 1]);
    }
  }

  lemma ScanStep(received: nat, q: seq<Item>, k: nat, u: uint16)
    requires k < |q|
    ensures Delivered(received, q[..k + 1]) == Delivered(received, q[..k]) + (if Deliverable(received, q[k]) then [q[k]] else [])
    ensures Passed(received, q[..k + 1]) == Passed(received, q[..k]) + (if Deliverable(received, q[k]) then [] else [q[k]])
    ensures Position(received, q[..k + 1], u)
            == if Deliverable(received, q[k]) && !q[k].unsequenced then q[k].unreliable else Position(received, q[..k], u)
    ensures Overtaken(received, q[..k + 1])
            == if Deliverable(received, q[k]) then Overtaken(received, q[..k])
               else if !Current(received, q[k]) then |Passed(received, q[..k])| + 1
               else if k > 0 && Deliverable(received, q[k - 1]) then |Passed(received, q[..k])|
               else if Overtaken(received, q[..k]) != |Passed(received, q[..k])| then |Passed(received, q[..k])| - 1
               else Overtaken(received, q[..k])
  {
    assert q[..k + 1][..k] == q[..k] && q[..k + 1][k] == q[k];
    OvertakenBound(received, q[..k]);
  }

  lemma {:induction false} ReachedPlus(received: nat, q: seq<Item>, n: nat)
    requires n <= |q| && (forall i :: 0 <= i < n ==> !Waiting(received, q[i])) && (n < |q| ==> Waiting(received, q[n]))
    ensures Reached(received, q) == n
  {
  }

  /** Where the loop stands after k items of q: `start` items passed over, up to `current` a block to be delivered. */
  ghost predicate Scanned(received: nat, q: seq<Item>, u: uint16, before: seq<Item>, k: nat, v: Unreliable,
                          start: nat, current: nat, dropped: int) {
    && k <= |q| && start <= current <= |v.queue| && v.received == received
    && v.queue[..start] == Passed(received, q[..k]) && v.queue[current..] == q[k..]
    && v.dispatched + v.queue[start..current] == before + Delivered(received, q[..k])
    && (start != current <==> k > 0 && Deliverable(received, q[k - 1]))
    && dropped == Overtaken(received, q[..k]) <= start
    && v.position == Position(received, q[..k], u)
  }

  ghost function Moved(v: Unreliable, start: nat, current: nat): Unreliable
    requires start <= current <= |v.queue|
  {
    v.(queue := v.queue[..start] + v.queue[current..], dispatched := v.dispatched + v.queue[start..current])
  }

  lemma MovedNothing(v: Unreliable, start: nat)
    requires start <= |v.queue|
    ensures Moved(v, start, start) == v
  {
  }

  ghost predicate ScannedNext(received: nat, q: seq<Item>, u: uint16, before: seq<Item>, k: nat, v: Unreliable,
                              start: nat, current: nat, dropped: int) {
    && Scanned(received, q, u, before, k, v, start, current, dropped)
    && |q| - k == |v.queue| - current
    && (current < |v.queue| ==> k < |q| && v.queue[current] == q[k])
  }

  lemma ScanNext(received: nat, q: seq<Item>, u: uint16, before: seq<Item>, k: nat, v: Unreliable,
                 start: nat, current: nat, dropped: int)
    requires Scanned(received, q, u, before, k, v, start, current, dropped)
    ensures ScannedNext(received, q, u, before, k, v, start, current, dropped)
  {
  }

  lemma ScanStart(received: nat, q: seq<Item>, u: uint16, before: seq<Item>, next: nat)
    ensures Scanned(received, q, u, before, 0, Unreliable(received, u, q, before, next), 0, 0, 0)
  {
  }

  lemma ScanDeliverable(received: nat, q: seq<Item>, u: uint16, before: seq<Item>, k: nat, v: Unreliable,
                     start: nat, current: nat, dropped: int)
    requires Scanned(received, q, u, before, k, v, start, current, dropped) && k < |q| && Deliverable(received, q[k])
    ensures ScannedNext(received, q, u, before, k + 1, v.(position := if q[k].unsequenced then v.position else q[k].unreliable),
                        start, current + 1, dropped)
  {
    hide Delivered, Passed, Position, Overtaken, Deliverable;
    ScanNext(received, q, u, before, k, v, start, current, dropped);
    ScanStep(received, q, k, u);
    assert v.queue[start..current + 1] == v.queue[start..current] + [q[k]];
    AppendBoth(v.dispatched, v.queue[start..current], before, Delivered(received, q[..k]), q[k]);
    ScanNext(received, q, u, before, k + 1, v.(position := if q[k].unsequenced then v.position else q[k].unreliable),
             start, current + 1, dropped);
  }

  lemma ScanStop(received: nat, q: seq<Item>, u: uint16, before: seq<Item>, k: nat, v: Unreliable,
                 start: nat, current: nat, dropped: int)
    requires Scanned(received, q, u, before, k, v, start, current, dropped) && k < |q| && !Deliverable(received, q[k])
    ensures ScannedNext(received, q, u, before, k + 1, Moved(v, start, current), start + 1, start + 1,
                        if !Current(received, q[k]) then start + 1
                        else if start != current then start
                        else if dropped != current then current - 1 else dropped)
  {
    hide Delivered, Passed, Position, Overtaken, Deliverable, Current;
    ScanNext(received, q, u, before, k, v, start, current, dropped);
    ScanStep(received, q, k, u);
    OvertakenBound(received, q[..k]);
    var w := Moved(v, start, current);
    assert |Passed(received, q[..k])| == start;
    assert w.queue[..start + 1] == v.queue[..start] + [q[k]];
    assert w.queue[start + 1..] == q[k + 1..];
    assert w.queue[start + 1..start + 1] == [];
    ScanNext(received, q, u, before, k + 1, w, start + 1, start + 1,
             if !Current(received, q[k]) then start + 1
             else if start != current then start
             else if dropped != current then current - 1 else dropped);
  }

  lemma ScanEnd(received: nat, q: seq<Item>, u: uint16, before: seq<Item>, k: nat, v: Unreliable,
                start: nat, current: nat, dropped: int, queued: int)
    requires Scanned(received, q, u, before, k, v, start, current, dropped) && Reached(received, q) == k
    ensures var w := Moved(v, start, current);
            var d := if start != current then start else dropped;
            && 0 <= d <= |w.queue|
            && w.(queue := Excepted(w.queue[..d], queued) + w.queue[d..]) == Dispatched(Unreliable(received, u, q, before, v.next), queued)
  {
    hide Delivered, Passed, Position, Overtaken, Deliverable, Reached, Excepted;
    var w := Moved(v, start, current);
    var passed := Passed(received, q[..k]);
    var d := if start != current then start else dropped;
    assert w.queue == passed + q[k..];
    assert k > 0 ==> q[..k][k - 1] == q[k - 1];
    assert w.queue[..d] == passed[..d] && w.queue[d..] == passed[d..] + q[k..];
  }

  lemma ExceptedStart(queued: int)
    ensures forall q: seq<Item> :: Excepted(q[..0], queued) == []
  {
  }

  lemma ExceptedStep(q: seq<Item>, k: nat, queued: int)
    requires k < |q|
    ensures Excepted(q[..k + 1], queued) == if q[k].id == queued then Excepted(q[..k], queued) + [q[k]] else Excepted(q[..k], queued)
  {
    assert q[..k + 1][..k] == q[..k];
  }

  lemma TakeHead(kept: seq<Item>, q: seq<Item>, k: nat)
    requires k < |q|
    ensures (kept + q[k..])[|kept|] == q[k] && kept + q[k..] == (kept + [q[k]]) + q[k + 1..]
    ensures (kept + q[k..])[..|kept|] + (kept + q[k..])[|kept| + 1..] == kept + q[k + 1..]
  {
  }

  lemma AppendBoth(a: seq<Item>, b: seq<Item>, x: seq<Item>, y: seq<Item>, c: Item)
    requires a + b == x + y
    ensures a + (b + [c]) == x + (y + [c])
  {
    assert a + (b + [c]) == (a + b) + [c];
    assert x + (y + [c]) == (x + y) + [c];
  }

  // ----- what the queue and the deliveries satisfy

  /** Order of sending: by reliable number, then by unreliable number. */
  ghost predicate Before(a: Item, b: Item) {
    a.number < b.number || (a.number == b.number && a.unreliable < b.unreliable)
  }

  ghost predicate Sorted(q: seq<Item>) {
    forall i, j :: 0 <= i < j < |q| ==> Before(q[i], q[j])
  }

  ghost predicate Sequenced(q: seq<Item>) {
    forall i :: 0 <= i < |q| ==> !q[i].unsequenced
  }

  ghost predicate Near(received: nat, c: Item) {
    && WindowOf(c.number) + 9 >= WindowOf(received)
    && WindowOf(c.number) < WindowOf(received) + FREE_RELIABLE_WINDOWS - 1
  }

  /** Between calls, everything queued is ahead of the last delivery; what is not waiting is incomplete. */
  ghost predicate Settled(v: Unreliable) {
    && Sequenced(v.queue) && Sorted(v.queue)
    && forall i :: 0 <= i < |v.queue| ==>
         && Near(v.received, v.queue[i]) && v.received <= v.queue[i].number
         && (v.queue[i].number == v.received ==> v.queue[i].body.remaining > 0 && v.position < v.queue[i].unreliable)
  }

  /** Before a dispatch: there may be one unsequenced command in front, old ones, and complete ones. */
  ghost predicate Ready(v: Unreliable, front: nat) {
    && front <= 1 && front <= |v.queue| && (front == 1 ==> v.queue[0].unsequenced)
    && Sequenced(v.queue[front..]) && Sorted(v.queue[front..])
    && forall i :: front <= i < |v.queue| ==>
         Near(v.received, v.queue[i]) && (v.queue[i].number == v.received ==> v.position < v.queue[i].unreliable)
  }

  /** The command that must stay is delivered, or waits, or nothing that is its rival is complete. */
  ghost predicate Excludable(v: Unreliable, queued: int) {
    forall i :: 0 <= i < |v.queue| && v.queue[i].id == queued ==>
      || Deliverable(v.received, v.queue[i])
      || v.received < v.queue[i].number
      || (v.received == v.queue[i].number
          && forall j :: 0 <= j < |v.queue| && !v.queue[j].unsequenced && v.queue[j].number == v.received ==> v.queue[j].body.remaining > 0)
  }

  /** Sequenced deliveries so far: complete, strictly increasing, and none beyond the channel's position. */
  ghost predicate Increasing(d: seq<Item>) {
    forall i, j :: 0 <= i < j < |d| && !d[i].unsequenced && !d[j].unsequenced ==> Before(d[i], d[j])
  }

  ghost predicate History(v: Unreliable) {
    && Increasing(v.dispatched)
    && forall i :: 0 <= i < |v.dispatched| && !v.dispatched[i].unsequenced ==>
         && v.dispatched[i].body.remaining == 0
         && (v.dispatched[i].number < v.received || (v.dispatched[i].number == v.received && v.dispatched[i].unreliable <= v.position))
  }

  /** What the loop's tests on 16-bit numbers mean for commands nearby. */
  lemma TestsExact(received: nat, c: Item)
    requires !c.unsequenced && Near(received, c)
    ensures Current(received, c) <==> c.number == received
    ensures Waiting(received, c) <==> received < c.number
  {
    RelativeWindowExact(received, Wire(c.number));
    if c.number >= received {
      UnwireUnique(received, c.number);
      if Wire(c.number) == Wire(received) {
        WireInjective(received, received, c.number);
      }
      WindowMonotone(received, c.number);
    } else {
      UnwireOld(received, c.number);
      assert WindowOf(c.number + SPACE) == WindowOf(c.number) + RELIABLE_WINDOWS;
      if Wire(c.number) == Wire(received) {
        UnwireUnique(received, received);
      }
    }
  }

  /** Where an item that was passed over came from. */
  lemma {:induction false} PassedAt(received: nat, q: seq<Item>, m: nat) returns (i: nat)
    requires m < |Passed(received, q)|
    ensures i < |q| && !Deliverable(received, q[i]) && Passed(received, q)[m] == q[i] && |Passed(received, q[..i + 1])| == m + 1
    decreases |q|
  {
    var k := |q| - 1;
    ScanStep(received, q, k, 0);
    assert q[..k + 1] == q;
    if m < |Passed(received, q[..k])| {
      i := PassedAt(received, q[..k], m);
      assert q[..k][..i + 1] == q[..i + 1];
    } else {
      i := k;
    }
  }

  lemma DroppedGrows(received: nat, q: seq<Item>)
    requires q != []
    ensures Dropped(received, q[..|q| - 1]) <= Dropped(received, q)
  {
  }

  /** Old items are dropped. */
  lemma {:induction false} OldDropped(received: nat, q: seq<Item>, i: nat)
    requires i < |q| && !Deliverable(received, q[i]) && !Current(received, q[i])
    ensures |Passed(received, q[..i + 1])| <= Dropped(received, q)
    decreases |q|
  {
    hide Current;
    var k := |q| - 1;
    if i == k {
      assert q[..i + 1] == q;
    } else {
      OldDropped(received, q[..k], i);
      assert q[..k][..i + 1] == q[..i + 1];
      DroppedGrows(received, q);
    }
  }

  /** ... and so is whatever a delivery has overtaken. */
  lemma {:induction false} OvertakenDropped(received: nat, q: seq<Item>, i: nat, j: nat)
    requires i < j < |q| && Deliverable(received, q[j])
    ensures |Passed(received, q[..i + 1])| <= Dropped(received, q)
    decreases |q|
  {
    var k := |q| - 1;
    if j == k {
      PassedGrows(received, q, i + 1);
    } else {
      OvertakenDropped(received, q[..k], i, j);
      assert q[..k][..i + 1] == q[..i + 1];
      DroppedGrows(received, q);
    }
  }

  lemma {:induction false} PassedGrows(received: nat, q: seq<Item>, i: nat)
    requires i <= |q|
    ensures |Passed(received, q[..i])| <= |Passed(received, q)|
    decreases |q|
  {
    if i < |q| {
      var k := |q| - 1;
      PassedGrows(received, q[..k], i);
      assert q[..k][..i] == q[..i];
    } else {
      assert q[..i] == q;
    }
  }

  // ----- one dispatch

  ghost predicate Within(x: seq<Item>, q: seq<Item>) {
    forall i :: 0 <= i < |x| ==> x[i] in q
  }

  lemma {:induction false} PassedWithin(received: nat, q: seq<Item>)
    ensures Within(Passed(received, q), q) && Sequenced(Passed(received, q))
    ensures forall i :: 0 <= i < |Passed(received, q)| ==> !Deliverable(received, Passed(received, q)[i])
    decreases |q|
  {
    hide Current;
    if q != [] {
      PassedWithin(received, q[..|q| - 1]);
    }
  }

  lemma {:induction false} PassedOrder(received: nat, q: seq<Item>)
    requires forall i, j :: 0 <= i < j < |q| && !q[i].unsequenced && !q[j].unsequenced ==> Before(q[i], q[j])
    ensures Sorted(Passed(received, q))
    decreases |q|
  {
    hide Current, Before;
    if q != [] {
      var p := q[..|q| - 1];
      PassedOrder(received, p);
      PassedWithin(received, p);
    }
  }

  lemma {:induction false} ExceptedOrder(q: seq<Item>, queued: int)
    ensures Within(Excepted(q, queued), q)
    ensures forall i :: 0 <= i < |Excepted(q, queued)| ==> Excepted(q, queued)[i].id == queued
    ensures Sorted(q) ==> Sorted(Excepted(q, queued))
    decreases |q|
  {
    if q != [] {
      ExceptedOrder(q[..|q| - 1], queued);
    }
  }

  lemma {:induction false} DeliveredOrder(received: nat, q: seq<Item>)
    ensures Within(Delivered(received, q), q)
    ensures forall i :: 0 <= i < |Delivered(received, q)| ==> Deliverable(received, Delivered(received, q)[i])
    decreases |q|
  {
    if q != [] {
      DeliveredOrder(received, q[..|q| - 1]);
    }
  }

  /** Deliveries from a sorted queue keep its order, and end at the new position. */
  lemma {:induction false} DeliveredIncreasing(received: nat, q: seq<Item>, u: uint16)
    requires forall i :: 0 <= i < |q| && !q[i].unsequenced && Deliverable(received, q[i]) ==> q[i].number == received && u < q[i].unreliable
    requires forall i, j :: 0 <= i < j < |q| && !q[i].unsequenced && !q[j].unsequenced ==> Before(q[i], q[j])
    ensures Increasing(Delivered(received, q)) && u <= Position(received, q, u)
    ensures forall i :: 0 <= i < |Delivered(received, q)| && !Delivered(received, q)[i].unsequenced ==>
              Delivered(received, q)[i].number == received && u < Delivered(received, q)[i].unreliable <= Position(received, q, u)
    decreases |q|
  {
    if q != [] {
      var p, c := q[..|q| - 1], q[|q| - 1];
      DeliveredIncreasing(received, p, u);
      DeliveredOrder(received, p);
    }
  }

  lemma {:induction false} PositionFrom(received: nat, q: seq<Item>, u: uint16) returns (j: int)
    ensures j < |q| && (j < 0 ==> Position(received, q, u) == u)
    ensures j >= 0 ==> Deliverable(received, q[j]) && !q[j].unsequenced && Position(received, q, u) == q[j].unreliable
    decreases |q|
  {
    if q == [] {
      j := -1;
    } else if Deliverable(received, q[|q| - 1]) && !q[|q| - 1].unsequenced {
      j := |q| - 1;
    } else {
      j := PositionFrom(received, q[..|q| - 1], u);
    }
  }

  /** What is known of the queue before a dispatch, item by item. */
  lemma ReadyItems(v: Unreliable, front: nat)
    requires Ready(v, front)
    ensures var q, n := v.queue, Reached(v.received, v.queue);
            && front <= n
            && (forall i :: front <= i < |q| ==> !q[i].unsequenced)
            && (forall i, j :: front <= i < j < |q| ==> Before(q[i], q[j]))
            && (forall i, j :: 0 <= i < j < |q| && !q[i].unsequenced && !q[j].unsequenced ==> Before(q[i], q[j]))
            && (forall i :: front <= i < n ==> q[i].number <= v.received)
            && (forall i :: n <= i < |q| ==> v.received < q[i].number)
            && (forall i :: front <= i < |q| ==> (Current(v.received, q[i]) <==> q[i].number == v.received))
  {
    hide Near, Current, Waiting, Sorted;
    var q, n := v.queue, Reached(v.received, v.queue);
    forall i | front <= i < |q|
      ensures !q[i].unsequenced && (Current(v.received, q[i]) <==> q[i].number == v.received)
      ensures Waiting(v.received, q[i]) <==> v.received < q[i].number
    {
      assert !q[front..][i - front].unsequenced;
      TestsExact(v.received, q[i]);
    }
    ReadyOrder(v, front);
    if front == 1 {
      UnsequencedPasses(v.received, q);
    }
  }

  lemma ReadyOrder(v: Unreliable, front: nat)
    requires Ready(v, front)
    ensures forall i, j :: front <= i < j < |v.queue| ==> Before(v.queue[i], v.queue[j])
    ensures forall i, j :: 0 <= i < j < |v.queue| && !v.queue[i].unsequenced && !v.queue[j].unsequenced ==> Before(v.queue[i], v.queue[j])
  {
    hide Near, Before, Sequenced;
    forall i, j | front <= i < j < |v.queue|
      ensures Before(v.queue[i], v.queue[j])
    {
      assert Before(v.queue[front..][i - front], v.queue[front..][j - front]);
    }
  }

  lemma UnsequencedPasses(received: nat, q: seq<Item>)
    requires q != [] && q[0].unsequenced
    ensures Reached(received, q) >= 1
  {
  }

  ghost predicate SettledItem(v: Unreliable, received: nat, position: uint16, c: Item) {
    && c in v.queue && !c.unsequenced && Near(received, c) && received <= c.number
    && (c.number == received ==> c.body.remaining > 0 && position < c.unreliable)
  }

  /** An item that stays although the loop passed it is the newest of its kind, still incomplete. */
  lemma KeptItem(v: Unreliable, front: nat, m: nat)
    requires Ready(v, front)
    requires var p := v.queue[..Reached(v.received, v.queue)];
             Dropped(v.received, p) <= m < |Passed(v.received, p)|
    ensures var p := v.queue[..Reached(v.received, v.queue)];
            var x := Passed(v.received, p)[m];
            SettledItem(v, v.received, Position(v.received, p, v.position), x)
  {
    hide Near, Waiting, Reached, Passed, Position, Overtaken, Dropped, Current;
    ReadyItems(v, front);
    var p := v.queue[..Reached(v.received, v.queue)];
    var i := PassedAt(v.received, p, m);
    if !Current(v.received, p[i]) {
      OldDropped(v.received, p, i);
    }
    var j := PositionFrom(v.received, p, v.position);
    if j > i {
      OvertakenDropped(v.received, p, i, j);
    }
  }

  /** An item that stays because it is excluded from removal. */
  lemma ExceptedItem(v: Unreliable, front: nat, queued: int, x: Item)
    requires Ready(v, front) && Excludable(v, queued) && x.id == queued
    requires x in v.queue[..Reached(v.received, v.queue)] && !Deliverable(v.received, x)
    ensures var p := v.queue[..Reached(v.received, v.queue)];
            SettledItem(v, v.received, Position(v.received, p, v.position), x)
  {
    hide Near, Waiting, Reached, Position;
    ReadyItems(v, front);
    var p := v.queue[..Reached(v.received, v.queue)];
    var i :| 0 <= i < |p| && p[i] == x;
    assert v.queue[i] == x;
    var j := PositionFrom(v.received, p, v.position);
  }

  lemma DispatchItem(v: Unreliable, front: nat, queued: int, c: Item)
    requires Ready(v, front) && Excludable(v, queued) && c in Dispatched(v, queued).queue
    ensures SettledItem(v, v.received, Dispatched(v, queued).position, c)
  {
    hide Near, Waiting, Reached, Passed, Position, Overtaken, Dropped, Current, Excepted, Excludable, Deliverable, Before, Sorted, Sequenced,
         Ready, Dispatched, SettledItem;
    DispatchedParts(v, queued);
    var n := Reached(v.received, v.queue);
    var p := v.queue[..n];
    var passed, d := Passed(v.received, p), Dropped(v.received, p);
    OvertakenBound(v.received, p);
    PassedWithin(v.received, p);
    ExceptedOrder(passed[..d], queued);
    var e, k, rest := Excepted(passed[..d], queued), passed[d..], v.queue[n..];
    if c in e {
      assert c in passed;
      ExceptedItem(v, front, queued, c);
    } else if c in k {
      var m :| 0 <= m < |k| && k[m] == c;
      assert passed[d + m] == c;
      KeptItem(v, front, d + m);
    } else {
      var m :| 0 <= m < |rest| && rest[m] == c;
      assert v.queue[n + m] == c;
      WaitingItem(v, front, n + m);
    }
  }

  lemma DispatchedParts(v: Unreliable, queued: int)
    ensures var n := Reached(v.received, v.queue);
            var p := v.queue[..n];
            var passed, d := Passed(v.received, p), Dropped(v.received, p);
            && d <= |passed| && Dispatched(v, queued).queue == Excepted(passed[..d], queued) + passed[d..] + v.queue[n..]
            && Dispatched(v, queued).position == Position(v.received, p, v.position)
  {
    OvertakenBound(v.received, v.queue[..Reached(v.received, v.queue)]);
  }

  lemma WaitingItem(v: Unreliable, front: nat, i: nat)
    requires Ready(v, front) && Reached(v.received, v.queue) <= i < |v.queue|
    ensures forall position :: SettledItem(v, v.received, position, v.queue[i])
  {
    hide Near, Waiting, Reached, Current, Before;
    ReadyItems(v, front);
    ReadyNear(v, front, i);
  }

  lemma ReadyNear(v: Unreliable, front: nat, i: nat)
    requires Ready(v, front) && front <= i < |v.queue|
    ensures Near(v.received, v.queue[i])
  {
  }

  lemma DispatchOrder(v: Unreliable, front: nat, queued: int)
    requires Ready(v, front)
    ensures Sorted(Dispatched(v, queued).queue)
  {
    hide Near, Waiting, Reached, Passed, Position, Overtaken, Dropped, Current, Excepted, Deliverable;
    ReadyItems(v, front);
    var n := Reached(v.received, v.queue);
    var p := v.queue[..n];
    var passed, d := Passed(v.received, p), Dropped(v.received, p);
    OvertakenBound(v.received, p);
    PassedOrder(v.received, p);
    ExceptedOrder(passed[..d], queued);
    PassedBelow(v, front);
    SettledOrder(v, n, passed, d, Excepted(passed[..d], queued), front);
  }

  lemma PassedBelow(v: Unreliable, front: nat)
    requires Ready(v, front)
    ensures var p := v.queue[..Reached(v.received, v.queue)];
            forall i :: 0 <= i < |Passed(v.received, p)| ==>
              Passed(v.received, p)[i] in p && Passed(v.received, p)[i].number <= v.received
  {
    hide Near, Waiting, Reached, Passed, Current, Before;
    ReadyItems(v, front);
    var p := v.queue[..Reached(v.received, v.queue)];
    forall i | 0 <= i < |Passed(v.received, p)|
      ensures Passed(v.received, p)[i] in p && Passed(v.received, p)[i].number <= v.received
    {
      var k := PassedAt(v.received, p, i);
      assert p[k] == v.queue[k];
    }
  }

  /** After a dispatch the queue is settled again. */
  lemma DispatchSettles(v: Unreliable, front: nat, queued: int)
    requires Ready(v, front) && Excludable(v, queued)
    ensures Settled(Dispatched(v, queued))
  {
    hide Dispatched, Near, Before, Excludable, Ready;
    DispatchOrder(v, front, queued);
    var w := Dispatched(v, queued);
    assert w.received == v.received by { SameReceived(v, queued); }
    forall i | 0 <= i < |w.queue|
      ensures SettledItem(v, v.received, w.position, w.queue[i])
    {
      DispatchItem(v, front, queued, w.queue[i]);
    }
  }

  lemma SameReceived(v: Unreliable, queued: int)
    ensures Dispatched(v, queued).received == v.received
  {
  }

  lemma SettledOrder(v: Unreliable, n: nat, passed: seq<Item>, d: nat, e: seq<Item>, front: nat)
    requires n <= |v.queue| && front <= n && Sorted(passed) && d <= |passed| && Sorted(e) && Within(e, passed[..d])
    requires forall i, j :: front <= i < j < |v.queue| ==> Before(v.queue[i], v.queue[j])
    requires forall i :: 0 <= i < |passed| ==> passed[i] in v.queue[..n] && passed[i].number <= v.received
    requires forall i :: n <= i < |v.queue| ==> v.received < v.queue[i].number
    ensures Sorted(e + passed[d..] + v.queue[n..])
  {
  }

  /** ... and the deliveries go on in order, with nothing incomplete and nothing but the channel's current number. */
  lemma DispatchHistory(v: Unreliable, front: nat, queued: int)
    requires Ready(v, front) && History(v)
    ensures History(Dispatched(v, queued))
    ensures var w := Dispatched(v, queued);
            && v.dispatched <= w.dispatched && v.position <= w.position
            && (forall i :: |v.dispatched| <= i < |w.dispatched| && !w.dispatched[i].unsequenced ==>
                  w.dispatched[i].number == v.received && w.dispatched[i].body.remaining == 0)
            && (front == 1 ==> v.queue[0] in w.dispatched[|v.dispatched|..])
  {
    hide Near, Waiting, Reached, Passed, Overtaken, Dropped, Excepted;
    ReadyItems(v, front);
    var p := v.queue[..Reached(v.received, v.queue)];
    DeliveredIncreasing(v.received, p, v.position);
    DeliveredOrder(v.received, p);
    if front == 1 {
      DeliversAll(v.received, p, 0);
    }
  }

  lemma {:induction false} DeliversAll(received: nat, q: seq<Item>, i: nat)
    requires i < |q| && Deliverable(received, q[i])
    ensures q[i] in Delivered(received, q)
    decreases |q|
  {
    if i < |q| - 1 {
      DeliversAll(received, q[..|q| - 1], i);
    }
  }

  // ----- receiving, as a function of the positions and the queue; ok is false for the source's -1

  datatype Reception = Reception(view: Unreliable, ok: bool)

  ghost predicate Further(received: nat, a: Item, c: Item) {
    || Distance(received, a.number) > Distance(received, c.number)
    || (Distance(received, a.number) == Distance(received, c.number) && a.unreliable > c.unreliable)
  }

  /** The place behind the last item that is no further than c. */
  ghost function Spot(received: nat, q: seq<Item>, c: Item): (k: nat)
    ensures k <= |q|
  {
    if q == [] || !Further(received, q[|q| - 1], c) then |q| else Spot(received, q[..|q| - 1], c)
  }

  ghost predicate Duplicate(v: Unreliable, c: Item) {
    var k := Spot(v.received, v.queue, c);
    k > 0 && Wire(v.queue[k - 1].number) == Wire(c.number) && v.queue[k - 1].unreliable == c.unreliable
  }

  /** Too far ahead, too old to be told from that, or superseded. */
  ghost predicate Useless(v: Unreliable, c: Item) {
    OutsideWindows(v.received, c.number) || (c.number == v.received && c.unreliable <= v.position)
  }

  ghost function Admitted(v: Unreliable, c: Item, full: bool, state: PeerState): Outcome {
    if state == DisconnectLater || Useless(v, c) || Duplicate(v, c) then Discarded
    else if full then Refused
    else Stored
  }

  ghost function Entered(v: Unreliable, k: nat, c: Item): Unreliable
    requires k <= |v.queue|
  {
    v.(queue := v.queue[..k] + [c] + v.queue[k..], next := v.next + 1)
  }

  ghost function Queued(v: Unreliable, c: Item): Unreliable {
    Dispatched(Entered(v, Spot(v.received, v.queue, c), c), c.id)
  }

  /** A whole packet; number is what the receiver takes its reliable number for. */
  ghost function AfterWhole(v: Unreliable, number: nat, unreliable: uint16, data: seq<uint8>, full: bool, state: PeerState,
                            maximumPacketSize: nat): Reception {
    var c := Item(v.next, false, number, unreliable, Whole(data));
    if !IsConnected(state) || |data| > maximumPacketSize then Reception(v, false)
    else if Admitted(v, c, full, state) == Stored then Reception(Queued(v, c), true)
    else Reception(v, Admitted(v, c, full, state) == Discarded)
  }

  /** The checks on a fragment's own fields, which are not quite those for reliable fragments. */
  predicate Plausible(p: Piece, maximumPacketSize: nat) {
    && p.count <= MAXIMUM_FRAGMENT_COUNT && p.index < p.count
    && p.total <= maximumPacketSize && p.offset < p.total && |p.data| <= p.total - p.offset
  }

  /** Enters a fragment in the packet queued at place k. */
  ghost function Placed(v: Unreliable, k: nat, p: Piece): Unreliable
    requires k < |v.queue| && p.index < |v.queue[k].body.have| && p.offset + |p.data| <= |v.queue[k].body.data|
  {
    v.(queue := v.queue[k := v.queue[k].(body := Filled(v.queue[k].body, p))])
  }

  ghost function WithPiece(v: Unreliable, k: nat, p: Piece): Unreliable
    requires k < |v.queue| && p.index < |v.queue[k].body.have| && p.offset + |p.data| <= |v.queue[k].body.data|
  {
    var w := Placed(v, k, p);
    if !v.queue[k].body.have[p.index] && w.queue[k].body.remaining == 0 then Dispatched(w, -1) else w
  }

  /** The place of an item that is queued. */
  ghost function PlaceOf(q: seq<Item>, c: Item): (k: nat)
    requires c in q
    ensures k < |q| && q[k] == c
  {
    if q[0] == c then 0 else 1 + PlaceOf(q[1..], c)
  }

  /** An incomplete packet that must stay is not removed by a dispatch. */
  lemma ExcludedStays(v: Unreliable, c: Item)
    requires c in v.queue && !c.unsequenced && c.body.remaining > 0
    ensures c in Dispatched(v, c.id).queue
  {
    hide Waiting, Current, Overtaken, Dropped, Delivered, Position, Reached, Excepted;
    var n := Reached(v.received, v.queue);
    var p := v.queue[..n];
    var passed, d := Passed(v.received, p), Dropped(v.received, p);
    OvertakenBound(v.received, p);
    var i :| 0 <= i < |v.queue| && v.queue[i] == c;
    if i < n {
      PassedHolds(v.received, p, i);
      var m :| 0 <= m < |passed| && passed[m] == c;
      if m < d {
        assert passed[..d][m] == c;
        ExceptedHolds(passed[..d], m);
      } else {
        assert passed[d..][m - d] == c;
      }
    } else {
      assert v.queue[n..][i - n] == c;
    }
  }

  lemma {:induction false} PassedHolds(received: nat, q: seq<Item>, i: nat)
    requires i < |q| && !Deliverable(received, q[i])
    ensures q[i] in Passed(received, q)
    decreases |q|
  {
    if i < |q| - 1 {
      PassedHolds(received, q[..|q| - 1], i);
    }
  }

  lemma {:induction false} ExceptedHolds(q: seq<Item>, i: nat)
    requires i < |q|
    ensures q[i] in Excepted(q, q[i].id)
    decreases |q|
  {
    if i < |q| - 1 {
      ExceptedHolds(q[..|q| - 1], i);
    }
  }

  lemma EnteredAt(v: Unreliable, k: nat, c: Item)
    requires k <= |v.queue|
    ensures c in Entered(v, k, c).queue
  {
    assert Entered(v, k, c).queue[k] == c;
  }

  /** Queues a packet of which p is the first fragment to arrive. */
  ghost function WithFirst(v: Unreliable, c: Item, p: Piece): Unreliable
    requires !c.unsequenced && |c.body.data| == p.total && c.body.remaining > 0
    requires p.index < |c.body.have| && p.offset + |p.data| <= p.total
  {
    var k := Spot(v.received, v.queue, c);
    EnteredAt(v, k, c);
    ExcludedStays(Entered(v, k, c), c);
    WithPiece(Queued(v, c), PlaceOf(Queued(v, c).queue, c), p)
  }

  ghost function AfterFragment(v: Unreliable, number: nat, unreliable: uint16, p: Piece, memory: seq<uint8>, full: bool,
                               state: PeerState, maximumPacketSize: nat): Reception
    requires |memory| == p.total
  {
    var c := Item(v.next, false, number, unreliable, Blank(p.count, memory));
    var k := Spot(v.received, v.queue, c);
    if !IsConnected(state) || |p.data| > maximumPacketSize then Reception(v, false)
    else if Useless(v, c) then Reception(v, true)
    else if !Plausible(p, maximumPacketSize) then Reception(v, false)
    else if Duplicate(v, c) then
      var b := v.queue[k - 1].body;
      if Fits(p, b) && p.index < |b.have| then Reception(WithPiece(v, k - 1, p), true) else Reception(v, false)
    else if Admitted(v, c, full, state) != Stored then Reception(v, false)
    else Reception(WithFirst(v, c, p), true)
  }

  /** An unsequenced packet goes in front. */
  ghost function AfterUnsequenced(v: Unreliable, number: uint16, data: seq<uint8>, full: bool, state: PeerState): Reception {
    var c := Item(v.next, true, number, 0, Whole(data));
    if state == DisconnectLater || full then Reception(v, state == DisconnectLater) else Reception(Dispatched(Entered(v, 0, c), c.id), true)
  }

  /** The channel's reliable position moves on to n. */
  ghost function AfterReliable(v: Unreliable, n: nat): Unreliable {
    var w := v.(received := n, position := 0);
    if v.queue == [] then w else Dispatched(w, -1)
  }

  // ----- every operation leaves a queue that is ready for the dispatch

  lemma {:induction false} SpotSplits(received: nat, q: seq<Item>, c: Item)
    requires Sorted(q) && received <= c.number < received + SPACE
    requires forall i :: 0 <= i < |q| ==> received <= q[i].number < received + SPACE
    ensures var k := Spot(received, q, c);
            && (forall i :: 0 <= i < k ==> !Before(c, q[i]))
            && (forall i :: k <= i < |q| ==> Before(c, q[i]))
            && (k > 0 && !(Wire(q[k - 1].number) == Wire(c.number) && q[k - 1].unreliable == c.unreliable) ==> Before(q[k - 1], c))
  {
    if q != [] {
      var last := q[|q| - 1];
      DistanceNear(received, last.number);
      DistanceNear(received, c.number);
      if Further(received, last, c) {
        SpotSplits(received, q[..|q| - 1], c);
      } else if last.number == c.number {
        assert Wire(last.number) == Wire(c.number);
      }
    }
  }

  lemma SettledNear(v: Unreliable)
    requires Settled(v)
    ensures forall i :: 0 <= i < |v.queue| ==> v.received <= v.queue[i].number < v.received + SPACE
  {
  }

  /** A fresh sequenced command: numbered from the current position on, and unlike every other. */
  ghost predicate Fresh(v: Unreliable, c: Item) {
    && (!c.unsequenced ==> c.unreliable >= 1 && v.received <= c.number < v.received + SPACE)
    && forall i :: 0 <= i < |v.queue| ==> v.queue[i].id != c.id
  }

  lemma EnteredReady(v: Unreliable, c: Item, full: bool)
    requires Settled(v) && Fresh(v, c) && !c.unsequenced && Admitted(v, c, full, Connected) == Stored
    ensures var w := Entered(v, Spot(v.received, v.queue, c), c); Ready(w, 0) && Excludable(w, c.id)
  {
    hide Spot, Settled, Near, Sorted, Before, Fresh, Excludable;
    SettledNear(v);
    var k := Spot(v.received, v.queue, c);
    var w := Entered(v, k, c);
    EnteredPlace(v, c);
    EnteredSorted(v.queue, k, c);
    assert w.queue[0..] == w.queue;
    forall i | 0 <= i < |w.queue|
      ensures !w.queue[i].unsequenced && Near(v.received, w.queue[i])
      ensures w.queue[i].number == v.received ==> v.position < w.queue[i].unreliable
      ensures w.queue[i].id == c.id ==> w.queue[i] == c
      ensures w.queue[i] != c && w.queue[i].number == v.received ==> w.queue[i].body.remaining > 0
    {
      if i != k {
        SettledAt(v, c, if i < k then i else i - 1);
      } else {
        FreshNear(v, c);
      }
    }
    EnteredExcludable(w, c);
  }

  lemma EnteredExcludable(w: Unreliable, c: Item)
    requires !c.unsequenced && w.received <= c.number < w.received + SPACE
    requires forall i :: 0 <= i < |w.queue| && w.queue[i].id == c.id ==> w.queue[i] == c
    requires forall i :: 0 <= i < |w.queue| && w.queue[i] != c && w.queue[i].number == w.received ==> w.queue[i].body.remaining > 0
    ensures Excludable(w, c.id)
  {
  }

  lemma EnteredPlace(v: Unreliable, c: Item)
    requires Settled(v) && Fresh(v, c) && !c.unsequenced && !Duplicate(v, c)
    ensures var k := Spot(v.received, v.queue, c);
            (k > 0 ==> Before(v.queue[k - 1], c)) && forall i :: k <= i < |v.queue| ==> Before(c, v.queue[i])
    ensures Sorted(v.queue) && c.number < v.received + SPACE && v.received <= c.number
  {
    hide Spot, Near, Before;
    SettledNear(v);
    SpotSplits(v.received, v.queue, c);
  }

  lemma SettledAt(v: Unreliable, c: Item, i: nat)
    requires Settled(v) && Fresh(v, c) && i < |v.queue|
    ensures !v.queue[i].unsequenced && Near(v.received, v.queue[i]) && v.queue[i].id != c.id
    ensures v.queue[i].number == v.received ==> v.position < v.queue[i].unreliable && v.queue[i].body.remaining > 0
  {
  }

  lemma FreshNear(v: Unreliable, c: Item)
    requires Fresh(v, c) && !c.unsequenced && WindowOf(c.number) < WindowOf(v.received) + FREE_RELIABLE_WINDOWS - 1
    ensures Near(v.received, c)
  {
  }

  lemma EnteredSorted(q: seq<Item>, k: nat, c: Item)
    requires Sorted(q) && k <= |q| && (k > 0 ==> Before(q[k - 1], c)) && forall i :: k <= i < |q| ==> Before(c, q[i])
    ensures Sorted(q[..k] + [c] + q[k..])
  {
  }

  lemma UnsequencedReady(v: Unreliable, c: Item)
    requires Settled(v) && Fresh(v, c) && c.unsequenced
    ensures Ready(Entered(v, 0, c), 1) && Excludable(Entered(v, 0, c), c.id)
  {
  }

  lemma PlacedReady(v: Unreliable, k: nat, p: Piece)
    requires Settled(v) && k < |v.queue| && p.index < |v.queue[k].body.have| && p.offset + |p.data| <= |v.queue[k].body.data|
    ensures var w := Placed(v, k, p);
            && Ready(w, 0) && Excludable(w, -1)
            && (v.queue[k].body.have[p.index] || w.queue[k].body.remaining > 0 ==> Settled(w))
  {
    hide Filled;
    var w := Placed(v, k, p);
    assert w.queue[0..] == w.queue;
    FilledSame(v.queue[k].body, p);
  }

  lemma FilledSame(b: Body, p: Piece)
    requires p.index < |b.have| && p.offset + |p.data| <= |b.data|
    ensures b.have[p.index] ==> Filled(b, p) == b
  {
  }

  lemma ReliableReady(v: Unreliable, n: nat)
    requires Settled(v) && v.received < n && WindowOf(n) <= WindowOf(v.received) + 9
    requires forall i :: 0 <= i < |v.queue| ==> v.queue[i].unreliable >= 1
    ensures Ready(v.(received := n, position := 0), 0) && Excludable(v.(received := n, position := 0), -1)
  {
  }
}
