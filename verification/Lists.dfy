/** The intrusive circular list under all queues: relinking nodes refines splicing sequences. */
module Lists {
  /** ENetListNode; the items of a list embed one each. */
  class Node {
    var next: Node?
    var previous: Node?

    constructor ()
      ensures next == null && previous == null
    {
      next, previous := null, null;
    }
  }

  function After(c: seq<Node>, i: nat): Node
    requires i < |c|
  {
    if i + 1 < |c| then c[i + 1] else c[0]
  }

  function Before(c: seq<Node>, i: nat): Node
    requires i < |c|
  {
    if i > 0 then c[i - 1] else c[|c| - 1]
  }

  ghost predicate Distinct(c: seq<Node>) {
    forall i, j :: 0 <= i < j < |c| ==> c[i] != c[j]
  }

  /** c is the whole circle, from the sentinel on. */
  ghost predicate Circle(c: seq<Node>)
    reads c
  {
    && |c| > 0 && Distinct(c)
    && forall i :: 0 <= i < |c| ==> c[i].next == After(c, i) && c[i].previous == Before(c, i)
  }

  /** The contents of a list: all but the sentinel. */
  ghost function Contents(c: seq<Node>): seq<Node>
    requires |c| > 0
  {
    c[1..]
  }

  /** enet_list_clear. */
  method Clear(sentinel: Node) returns (ghost c: seq<Node>)
    modifies sentinel
    ensures c == [sentinel] && Circle(c)
  {
    sentinel.next := sentinel;
    sentinel.previous := sentinel;
    c := [sentinel];
  }

  /** The place in the circle in front of position k, the sentinel standing for the end. */
  function Place(c: seq<Node>, k: nat): nat
    requires k < |c|
  {
    if k == 0 then |c| else k
  }

  /** enet_list_insert: in front of position c[k]; the sentinel, k = 0, means at the end. */
  method Insert(position: Node, result: Node, ghost c: seq<Node>, ghost k: nat) returns (ghost c': seq<Node>)
    requires Circle(c) && k < |c| && c[k] == position && result !in c
    modifies c, result
    ensures Circle(c') && c' == c[..Place(c, k)] + [result] + c[Place(c, k)..]
    ensures c'[0] == c[0]
  {
    hide Circle, Distinct;
    ghost var p := Place(c, k);
    c' := c[..p] + [result] + c[p..];
    CircleLinks(c);
    InsertedDistinct(c, p, result, c');
    result.previous := position.previous;
    result.next := position;
    result.previous.next := result;
    position.previous := result;
    forall i | 0 <= i < |c'|
      ensures c'[i].next == After(c', i) && c'[i].previous == Before(c', i)
    {
      InsertedAt(c, p, result, c', i);
      var m := if i < p then i else i - 1;
      if i != p {
        Unlike(c, m, p - 1);
        Unlike(c, m, k);
      }
    }
    LinksCircle(c');
  }

  lemma CircleLinks(c: seq<Node>)
    requires Circle(c)
    ensures |c| > 0 && Distinct(c)
    ensures forall i :: 0 <= i < |c| ==> c[i].next == After(c, i) && c[i].previous == Before(c, i)
  {
  }

  lemma LinksCircle(c: seq<Node>)
    requires |c| > 0 && Distinct(c)
    requires forall i :: 0 <= i < |c| ==> c[i].next == After(c, i) && c[i].previous == Before(c, i)
    ensures Circle(c)
  {
  }

  lemma Unlike(c: seq<Node>, i: nat, j: nat)
    requires Distinct(c) && i < |c| && j < |c|
    ensures c[i] == c[j] <==> i == j
  {
  }

  lemma InsertedDistinct(c: seq<Node>, p: nat, result: Node, c': seq<Node>)
    requires 0 < p <= |c| && c' == c[..p] + [result] + c[p..] && result !in c && Distinct(c)
    ensures Distinct(c')
  {
  }

  /** The neighbours in the circle with one more node. */
  lemma InsertedAt(c: seq<Node>, p: nat, result: Node, c': seq<Node>, i: nat)
    requires 0 < p <= |c| && c' == c[..p] + [result] + c[p..] && i < |c'|
    ensures i == p ==> c'[i] == result && After(c', i) == After(c, p - 1) && Before(c', i) == c[p - 1]
    ensures i != p ==>
              var m := if i < p then i else i - 1;
              && c'[i] == c[m]
              && After(c', i) == (if m == p - 1 then result else After(c, m))
              && Before(c', i) == (if m == p || (m == 0 && p == |c|) then result else Before(c, m))
  {
  }

  /** enet_list_remove. */
  method Remove(position: Node, ghost c: seq<Node>, ghost k: nat) returns (ghost c': seq<Node>)
    requires Circle(c) && 0 < k < |c| && c[k] == position
    modifies c
    ensures Circle(c') && c' == c[..k] + c[k + 1..]
    ensures c'[0] == c[0]
  {
    hide Circle, Distinct, After, Before;
    CircleLinks(c);
    c' := c[..k] + c[k + 1..];
    RemovedDistinct(c, k, c');
    RemovedNeighbours(c, k);
    position.previous.next := position.next;
    position.next.previous := position.previous;
    forall i: nat | i < |c'|
      ensures c'[i].next == After(c', i) && c'[i].previous == Before(c', i)
    {
      RemovedAt(c, k, c', i);
      var m := if i < k then i else i + 1;
      Unlike(c, m, k - 1);
      Unlike(c, m, if k + 1 < |c| then k + 1 else 0);
    }
    LinksCircle(c');
  }

  lemma RemovedDistinct(c: seq<Node>, k: nat, c': seq<Node>)
    requires 0 < k < |c| && c' == c[..k] + c[k + 1..] && Distinct(c)
    ensures Distinct(c')
  {
  }

  lemma RemovedNeighbours(c: seq<Node>, k: nat)
    requires 0 < k < |c|
    ensures Before(c, k) == c[k - 1] && After(c, k) == c[if k + 1 < |c| then k + 1 else 0]
  {
  }

  /** The neighbours in the circle with one node less. */
  lemma RemovedAt(c: seq<Node>, k: nat, c': seq<Node>, i: nat)
    requires 0 < k < |c| && c' == c[..k] + c[k + 1..] && i < |c'|
    ensures var m := if i < k then i else i + 1;
            && c'[i] == c[m]
            && After(c', i) == (if m == k - 1 then After(c, k) else After(c, m))
            && Before(c', i) == (if m == (if k + 1 < |c| then k + 1 else 0) then c[k - 1] else Before(c, m))
  {
  }

  /** A piece of a circle: neighbours inside it point at each other. */
  ghost predicate Chain(m: seq<Node>)
    reads m
  {
    Distinct(m) && forall x :: 0 <= x < |m| - 1 ==> m[x].next == m[x + 1] && m[x + 1].previous == m[x]
  }

  /** enet_list_move: the items from first to last go from their list to the place in front of position in another. */
  method Move(position: Node, first: Node, last: Node, ghost c: seq<Node>, ghost k: nat, ghost d: seq<Node>, ghost i: nat, ghost j: nat)
    returns (ghost c': seq<Node>, ghost d': seq<Node>)
    requires Circle(c) && k < |c| && c[k] == position
    requires Circle(d) && 0 < i <= j < |d| && d[i] == first && d[j] == last
    requires forall x, y :: 0 <= x < |c| && 0 <= y < |d| ==> c[x] != d[y]
    modifies c, d
    ensures Circle(c') && c' == c[..Place(c, k)] + d[i..j + 1] + c[Place(c, k)..]
    ensures Circle(d') && d' == d[..i] + d[j + 1..]
  {
    hide Circle, Chain, Distinct;
    ghost var m := d[i..j + 1];
    d' := d[..i] + d[j + 1..];
    PartsApart(d, i, j, m, d');
    d' := Unlink(first, last, d, i, j);
    c' := Splice(position, first, last, c, k, m);
  }

  /** Its first half: the rest of the old list closes up. */
  method Unlink(first: Node, last: Node, ghost d: seq<Node>, ghost i: nat, ghost j: nat) returns (ghost d': seq<Node>)
    requires Circle(d) && 0 < i <= j < |d| && d[i] == first && d[j] == last
    modifies d
    ensures d' == d[..i] + d[j + 1..] && Circle(d') && Chain(d[i..j + 1])
  {
    hide Circle, Distinct, After, Before;
    d' := d[..i] + d[j + 1..];
    CircleLinks(d);
    RemainsDistinct(d, i, j, d');
    Edges(d, i, j);
    ghost var m := d[i..j + 1];
    ghost var e := if j + 1 < |d| then j + 1 else 0;
    first.previous.next := last.next;
    last.next.previous := first.previous;
    forall x | 0 <= x < |d'|
      ensures d'[x].next == After(d', x) && d'[x].previous == Before(d', x)
    {
      RemainsAt(d, i, j, d', x);
      var y := if x < i then x else x + (j + 1 - i);
      Unlike(d, y, i - 1);
      Unlike(d, y, e);
    }
    forall x | 0 <= x < |m| - 1
      ensures m[x].next == m[x + 1] && m[x + 1].previous == m[x]
    {
      Inside(d, i + x);
      Unlike(d, i + x, i - 1);
      Unlike(d, i + x + 1, e);
    }
    LinksCircle(d');
  }

  lemma Edges(d: seq<Node>, i: nat, j: nat)
    requires 0 < i <= j < |d|
    ensures Before(d, i) == d[i - 1] && After(d, j) == d[if j + 1 < |d| then j + 1 else 0]
  {
  }

  lemma Inside(d: seq<Node>, y: nat)
    requires y + 1 < |d|
    ensures After(d, y) == d[y + 1] && Before(d, y + 1) == d[y]
  {
  }

  lemma PartsApart(d: seq<Node>, i: nat, j: nat, m: seq<Node>, d': seq<Node>)
    requires Circle(d) && 0 < i <= j < |d| && m == d[i..j + 1] && d' == d[..i] + d[j + 1..]
    ensures forall x, y :: 0 <= x < |d'| && 0 <= y < |m| ==> d'[x] != m[y]
    ensures forall x :: 0 <= x < |d'| ==> d'[x] in d
    ensures forall y :: 0 <= y < |m| ==> m[y] in d
  {
  }

  /** Its second half: the chain goes into the new list. */
  method Splice(position: Node, first: Node, last: Node, ghost c: seq<Node>, ghost k: nat, ghost m: seq<Node>)
    returns (ghost c': seq<Node>)
    requires Circle(c) && k < |c| && c[k] == position
    requires Chain(m) && m != [] && m[0] == first && m[|m| - 1] == last
    requires forall x, y :: 0 <= x < |c| && 0 <= y < |m| ==> c[x] != m[y]
    modifies c, m
    ensures c' == c[..Place(c, k)] + m + c[Place(c, k)..] && Circle(c')
  {
    hide Circle, Distinct;
    ghost var p := Place(c, k);
    c' := c[..p] + m + c[p..];
    CircleLinks(c);
    SplicedDistinct(c, p, m, c');
    first.previous := position.previous;
    last.next := position;
    first.previous.next := first;
    position.previous := last;
    forall x | 0 <= x < |c'|
      ensures c'[x].next == After(c', x) && c'[x].previous == Before(c', x)
    {
      SplicedAt(c, p, m, c', x);
      if p <= x < p + |m| {
        Unlike(m, x - p, 0);
        Unlike(m, x - p, |m| - 1);
      } else {
        var y := if x < p then x else x - |m|;
        Unlike(c, y, p - 1);
        Unlike(c, y, k);
      }
    }
    LinksCircle(c');
  }

  lemma SplicedDistinct(c: seq<Node>, p: nat, m: seq<Node>, c': seq<Node>)
    requires 0 < p <= |c| && Distinct(c) && Distinct(m) && c' == c[..p] + m + c[p..]
    requires forall x, y :: 0 <= x < |c| && 0 <= y < |m| ==> c[x] != m[y]
    ensures Distinct(c')
  {
  }

  lemma RemainsDistinct(d: seq<Node>, i: nat, j: nat, d': seq<Node>)
    requires 0 < i <= j < |d| && Distinct(d) && d' == d[..i] + d[j + 1..]
    ensures Distinct(d') && Distinct(d[i..j + 1])
  {
  }

  /** The neighbours in the circle that is left. */
  lemma RemainsAt(d: seq<Node>, i: nat, j: nat, d': seq<Node>, x: nat)
    requires 0 < i <= j < |d| && d' == d[..i] + d[j + 1..] && x < |d'|
    ensures var m := if x < i then x else x + (j + 1 - i);
            && d'[x] == d[m]
            && After(d', x) == (if m == i - 1 then After(d, j) else After(d, m))
            && Before(d', x) == (if m == j + 1 || (m == 0 && j + 1 == |d|) then d[i - 1] else Before(d, m))
  {
  }

  /** ... and in the one that has grown. */
  lemma SplicedAt(c: seq<Node>, p: nat, m: seq<Node>, c': seq<Node>, x: nat)
    requires 0 < p <= |c| && m != [] && c' == c[..p] + m + c[p..] && x < |c'|
    ensures p <= x < p + |m| ==>
              && c'[x] == m[x - p]
              && After(c', x) == (if x - p == |m| - 1 then After(c, p - 1) else m[x - p + 1])
              && Before(c', x) == (if x == p then c[p - 1] else m[x - p - 1])
    ensures x < p || x >= p + |m| ==>
              var y := if x < p then x else x - |m|;
              && c'[x] == c[y]
              && After(c', x) == (if y == p - 1 then m[0] else After(c, y))
              && Before(c', x) == (if y == p || (y == 0 && p == |c|) then m[|m| - 1] else Before(c, y))
  {
  }

  /** enet_list_size. */
  method Size(sentinel: Node, ghost c: seq<Node>) returns (size: nat)
    requires Circle(c) && c[0] == sentinel
    ensures size == |Contents(c)|
  {
    size := 0;
    var position := sentinel.next;
    while position != sentinel
      invariant size < |c| && position == After(c, size)
      decreases |c| - size
    {
      size := size + 1;
      position := position.next;
    }
  }

  /** What is inserted in front of the sentinel comes last. */
  lemma EndsAtSentinel(c: seq<Node>, result: Node)
    requires |c| > 0
    ensures Contents(c[..Place(c, 0)] + [result] + c[Place(c, 0)..]) == Contents(c) + [result]
  {
  }
}
