/** The symbol arena of one coder: a tree of symbols for every context, the symbols being contexts themselves.
    Ghost paths name each symbol by the bytes that lead to it; nothing else depends on allocation order. */
module SymbolArena {
  import opened Integers
  import opened RangeCoding
  import opened PredictionModel
  import opened ContextTree

  /** For every allocated symbol: the tree of its context, and the bytes it stands for. */
  datatype Shape = Shape(trees: seq<Tree>, paths: seq<History>)

  const MAXIMUM_PATH := SUBCONTEXT_ORDER + 1

  /** The symbols in the tree of context c extend the bytes of c by their own value. */
  ghost predicate Named(a: Arena, s: Shape, c: nat)
    requires c < |s.paths| == |s.trees| && |s.paths| <= |a|
  {
    forall j :: j in Nodes(s.trees[c]) ==> j < |s.paths| && s.paths[j] == s.paths[c] + [a[j].value]
  }

  ghost predicate Wf(a: Arena, s: Shape) {
    var n := |s.paths|;
    && |a| == ARENA_SIZE && 1 <= n <= ARENA_SIZE && |s.trees| == n
    && s.paths[0] == []
    && (forall i :: 0 < i < n ==> 1 <= |s.paths[i]| <= MAXIMUM_PATH)
    && (forall i :: 0 <= i < n ==> Holds(a, i, a[i].symbols, s.trees[i]) && Shaped(s.trees[i]))
    && (forall i :: 0 <= i < n ==> Named(a, s, i))
    && (forall i, j :: 0 <= i < j < n ==> Nodes(s.trees[i]) !! Nodes(s.trees[j]))
  }

  lemma WfSizes(a: Arena, s: Shape)
    requires Wf(a, s)
    ensures |a| == ARENA_SIZE && 1 <= |s.paths| == |s.trees| <= ARENA_SIZE
    ensures s.paths[0] == [] && forall i :: 0 < i < |s.paths| ==> s.paths[i] != []
  {
  }

  lemma TouchedPaths(a: Arena, s: Shape, b: Arena, s': Shape, c: nat)
    requires Touched(a, s, b, s', c)
    ensures |s.paths| == |s.trees| <= |a| && |s'.paths| == |s'.trees| <= |b| && s.paths <= s'.paths
  {
  }

  function Minimum(c: nat): nat {
    if c == 0 then CONTEXT_SYMBOL_MINIMUM else 0
  }

  function Cap(c: nat): nat {
    if c == 0 then CONTEXT_COUNT_CAP else SUBCONTEXT_COUNT_CAP
  }

  /** The total of context c is short of its tree by `owed` occurrences. */
  ghost predicate Accounts(a: Arena, c: nat, t: Tree, owed: nat) {
    && c < |a|
    && a[c].total + owed == a[c].escapes + 256 * Minimum(c) + Sum(t)
    && a[c].total <= TOTAL_LIMIT
    && (c == 0 ==> a[c].escapes == CONTEXT_ESCAPE_MINIMUM)
  }

  ghost predicate Balanced(a: Arena, s: Shape, except: int) {
    && |s.trees| <= |a|
    && forall i :: 0 <= i < |s.trees| && i != except ==>
      CountsIn(s.trees[i], Cap(i)) && Accounts(a, i, s.trees[i], 0)
  }

  /** Every symbol's parent stands for the same bytes but the first. */
  ghost predicate Linked(a: Arena, s: Shape, except: int) {
    && |s.paths| <= |a|
    && forall i :: 0 < i < |s.paths| && i != except ==>
      a[i].parent < |s.paths| && |s.paths[i]| >= 1 && s.paths[a[i].parent] == s.paths[i][1..]
  }

  // ----- one occurrence of v entered in context c

  ghost function Entered(a: Arena, c: nat, t: Tree, p: Route, v: uint8, delta: uint8, n: nat): (b: Arena)
    requires c < |a| && n < |a| && Within(t, a) && Leads(t, p)
    ensures |b| == |a|
  {
    if t.Node? then Descended(a, t, p, v, delta, n)
    else
      var b := a[n := Fresh(v, delta)];
      b[c := b[c].(symbols := Wrap16(n - c))]
  }

  ghost function Grown(s: Shape, c: nat, p: Route, v: uint8, delta: nat): Shape
    requires c < |s.trees| == |s.paths| && Leads(s.trees[c], p)
  {
    var trees := s.trees[c := Bump(s.trees[c], p, v, delta, |s.paths|)];
    if End(s.trees[c], p).Leaf? then Shape(trees + [Leaf], s.paths + [s.paths[c] + [v]])
    else Shape(trees, s.paths)
  }

  /** The symbol a route ends at, or the one that will be created there. */
  ghost function SymbolAt(t: Tree, p: Route, n: nat): nat
    requires Leads(t, p)
  {
    if End(t, p).Node? then End(t, p).index else n
  }

  ghost predicate CanEnter(a: Arena, s: Shape, c: nat, p: Route, v: uint8, delta: uint8) {
    && Wf(a, s) && Balanced(a, s, -1)
    && c < |s.paths| < ARENA_SIZE && |s.paths[c]| <= SUBCONTEXT_ORDER
    && Leads(s.trees[c], p)
    && (End(s.trees[c], p).Node? ==> End(s.trees[c], p).value == v)
    && 1 <= delta <= 3 && Cap(c) + delta <= 0xFF
  }

  lemma NodesAllocated(a: Arena, s: Shape, c: nat)
    requires Wf(a, s) && c < |s.paths|
    ensures Within(s.trees[c], a)
    ensures forall j :: j in Nodes(s.trees[c]) ==> c < j < |s.paths|
  {
    var t := s.trees[c];
    assert Holds(a, c, a[c].symbols, t);
    assert Named(a, s, c);
    HoldsInBounds(a, c, a[c].symbols, t);
  }

  /** What entering leaves alone, and what it allocates. */
  lemma EnterFrame(a: Arena, s: Shape, c: nat, p: Route, v: uint8, delta: uint8)
    requires CanEnter(a, s, c, p, v, delta)
    ensures Within(s.trees[c], a)
    ensures var n, t := |s.paths|, s.trees[c];
            var b := Entered(a, c, t, p, v, delta, n);
            && (forall j :: 0 <= j < n && j !in Nodes(t) && j != c ==> b[j] == a[j])
            && (forall j :: 0 <= j < n && j != c ==> SameContext(a[j], b[j]))
            && SameNode(a[c], b[c]) && a[c].escapes == b[c].escapes
            && a[c].total == b[c].total && a[c].parent == b[c].parent
            && (t.Node? ==> a[c].symbols == b[c].symbols)
            && b[n] == (if End(t, p).Leaf? then Fresh(v, delta) else a[n])
  {
    NodesAllocated(a, s, c);
    if s.trees[c].Node? {
      DescentFrame(a, s.trees[c], p, v, delta, |s.paths|);
    }
  }

  lemma EnterHolds(a: Arena, s: Shape, c: nat, p: Route, v: uint8, delta: uint8)
    requires CanEnter(a, s, c, p, v, delta)
    ensures Within(s.trees[c], a)
    ensures var b := Entered(a, c, s.trees[c], p, v, delta, |s.paths|);
            Holds(b, c, b[c].symbols, Bump(s.trees[c], p, v, delta, |s.paths|))
  {
    NodesAllocated(a, s, c);
    EnterFrame(a, s, c, p, v, delta);
    if s.trees[c].Node? {
      DescentRefines(a, c, a[c].symbols, s.trees[c], p, v, delta, |s.paths|, Cap(c));
    }
  }

  lemma EnterHoldsOthers(a: Arena, s: Shape, c: nat, p: Route, v: uint8, delta: uint8, i: nat)
    requires CanEnter(a, s, c, p, v, delta) && Within(s.trees[c], a)
    requires i < |s.paths| && i != c
    ensures var b := Entered(a, c, s.trees[c], p, v, delta, |s.paths|);
            Holds(b, i, b[i].symbols, s.trees[i])
  {
    NodesAllocated(a, s, i);
    EnterFrame(a, s, c, p, v, delta);
    var b := Entered(a, c, s.trees[c], p, v, delta, |s.paths|);
    assert Nodes(s.trees[i]) !! Nodes(s.trees[c]);
    HoldsFrame(a, b, i, a[i].symbols, s.trees[i]);
  }

  lemma LeafHolds(b: Arena, n: nat)
    ensures Holds(b, n, 0, Leaf) && Shaped(Leaf)
  {
  }

  /** Entering keeps the arena well formed, whatever route was taken. */
  lemma EnterWf(a: Arena, s: Shape, c: nat, p: Route, v: uint8, delta: uint8)
    requires CanEnter(a, s, c, p, v, delta)
    ensures Within(s.trees[c], a)
    ensures Wf(Entered(a, c, s.trees[c], p, v, delta, |s.paths|), Grown(s, c, p, v, delta))
  {
    hide Holds, Shaped, Bump, Entered, Balanced;
    var n, t := |s.paths|, s.trees[c];
    NodesAllocated(a, s, c);
    var b, s' := Entered(a, c, t, p, v, delta, n), Grown(s, c, p, v, delta);
    EnterFrame(a, s, c, p, v, delta);
    LeafHolds(b, n);
    BumpNodes(t, p, v, delta, n);
    BumpShape(t, p, v, delta, n);
    forall i | 0 <= i < |s'.paths|
      ensures Holds(b, i, b[i].symbols, s'.trees[i]) && Shaped(s'.trees[i])
    {
      if i == c {
        EnterHolds(a, s, c, p, v, delta);
      } else if i < n {
        EnterHoldsOthers(a, s, c, p, v, delta, i);
      }
    }
    forall i | 0 <= i < |s'.paths|
      ensures Named(b, s', i)
    {
      forall j | j in Nodes(s'.trees[i])
        ensures j < |s'.paths| && s'.paths[j] == s'.paths[i] + [b[j].value]
      {
        EnterPaths(a, s, c, p, v, delta, i, j);
      }
    }
    forall i, j | 0 <= i < j < |s'.paths|
      ensures Nodes(s'.trees[i]) !! Nodes(s'.trees[j])
    {
      if i < n && j < n {
        NodesAllocated(a, s, i);
        NodesAllocated(a, s, j);
      }
    }
  }

  lemma EnterPaths(a: Arena, s: Shape, c: nat, p: Route, v: uint8, delta: uint8, i: nat, j: nat)
    requires CanEnter(a, s, c, p, v, delta) && Within(s.trees[c], a)
    requires var s' := Grown(s, c, p, v, delta); i < |s'.paths| && j in Nodes(s'.trees[i])
    ensures var b, s' := Entered(a, c, s.trees[c], p, v, delta, |s.paths|), Grown(s, c, p, v, delta);
            j < |s'.paths| && j < |b| && s'.paths[j] == s'.paths[i] + [b[j].value]
  {
    var n, t := |s.paths|, s.trees[c];
    EnterFrame(a, s, c, p, v, delta);
    BumpNodes(t, p, v, delta, n);
    if i == c && j !in Nodes(t) {
      assert j == n;
    } else {
      assert i < n && j in Nodes(s.trees[i]) && Named(a, s, i);
      NodesAllocated(a, s, i);
      EnterValues(a, s, c, p, v, delta, j);
    }
  }

  lemma EnterValues(a: Arena, s: Shape, c: nat, p: Route, v: uint8, delta: uint8, j: nat)
    requires CanEnter(a, s, c, p, v, delta) && Within(s.trees[c], a)
    requires j < |s.paths|
    ensures Entered(a, c, s.trees[c], p, v, delta, |s.paths|)[j].value == a[j].value
  {
    NodesAllocated(a, s, c);
    if s.trees[c].Node? {
      DescentValues(a, s.trees[c], p, v, delta, |s.paths|, j);
    }
  }

  lemma {:induction false} DescentValues(a: Arena, t: Tree, p: Route, v: uint8, delta: uint8, next: nat, j: nat)
    requires t.Node? && Leads(t, p) && Within(t, a) && next < |a|
    requires j < |a| && j != next
    ensures Descended(a, t, p, v, delta, next)[j].value == a[j].value
    decreases t
  {
    SubtreeNodes(t);
    var i := t.index;
    if p != [] && p[0] && t.left.Node? {
      DescentValues(a[i := a[i].(under := Wrap16(a[i].under + delta))], t.left, p[1..], v, delta, next, j);
    }
    if p != [] && !p[0] && t.right.Node? {
      DescentValues(a, t.right, p[1..], v, delta, next, j);
    }
  }

  /** Entering owes context c the update; every other context stays balanced. */
  lemma EnterBalance(a: Arena, s: Shape, c: nat, p: Route, v: uint8, delta: uint8, cap: nat)
    requires CanEnter(a, s, c, p, v, delta)
    requires Cap(c) <= cap && delta <= cap
    requires End(s.trees[c], p).Node? ==> End(s.trees[c], p).count + delta <= cap
    ensures Within(s.trees[c], a)
    ensures var b, s' := Entered(a, c, s.trees[c], p, v, delta, |s.paths|), Grown(s, c, p, v, delta);
            && |s'.paths| == |s'.trees| <= |b|
            && Balanced(b, s', c)
            && Accounts(b, c, s'.trees[c], delta)
            && CountsIn(s'.trees[c], cap)
  {
    var n, t := |s.paths|, s.trees[c];
    EnterFrame(a, s, c, p, v, delta);
    var b, s' := Entered(a, c, t, p, v, delta, n), Grown(s, c, p, v, delta);
    BumpNodes(t, p, v, delta, n);
    BumpCountsIn(t, p, v, delta, n, Cap(c), cap);
    forall i | 0 <= i < |s'.trees| && i != c
      ensures CountsIn(s'.trees[i], Cap(i)) && Accounts(b, i, s'.trees[i], 0)
    {
      if i < n {
        assert CountsIn(s.trees[i], Cap(i)) && Accounts(a, i, s.trees[i], 0);
        assert SameContext(a[i], b[i]);
      }
    }
  }

  /** A new symbol's parent is still to be set, except under the root, whose symbols have parent 0. */
  lemma EnterLinks(a: Arena, s: Shape, c: nat, p: Route, v: uint8, delta: uint8, q: int)
    requires CanEnter(a, s, c, p, v, delta) && Linked(a, s, q)
    requires 0 <= q < |s.paths| ==> s.paths[q] != [] && s.paths[q][1..] == s.paths[c] + [v]
    ensures Within(s.trees[c], a)
    ensures var n, t := |s.paths|, s.trees[c];
            var b, s' := Entered(a, c, t, p, v, delta, n), Grown(s, c, p, v, delta);
            var b' := if 0 <= q < n then b[q := b[q].(parent := Wrap16(SymbolAt(t, p, n)))] else b;
            && |s'.paths| <= |b'|
            && Linked(b', s', if End(t, p).Leaf? && c != 0 then n else -1)
  {
    var n, t := |s.paths|, s.trees[c];
    EnterFrame(a, s, c, p, v, delta);
    var b, s' := Entered(a, c, t, p, v, delta, n), Grown(s, c, p, v, delta);
    SymbolPath(a, s, c, p, v, delta);
    var except := if End(t, p).Leaf? && c != 0 then n else -1;
    ParentsKept(a, s, c, b);
    if c == 0 && End(t, p).Leaf? {
      assert s'.paths[n] == [v] && b[n].parent == 0 && s'.paths[0] == [];
    }
    LinksKept(a, s, b, s', q, SymbolAt(t, p, n), except);
  }

  lemma ParentsKept(a: Arena, s: Shape, c: nat, b: Arena)
    requires |s.paths| <= |a| == |b| && c < |s.paths|
    requires forall j :: 0 <= j < |s.paths| && j != c ==> SameContext(a[j], b[j])
    requires a[c].parent == b[c].parent
    ensures forall j :: 0 <= j < |s.paths| ==> a[j].parent == b[j].parent
  {
  }

  lemma LinksKept(a: Arena, s: Shape, b: Arena, s': Shape, q: int, j: nat, except: int)
    requires |s.paths| <= |a| == |b| && Linked(a, s, q)
    requires forall i :: 0 <= i < |s.paths| ==> a[i].parent == b[i].parent
    requires s.paths <= s'.paths && |s'.paths| <= |b|
    requires 0 <= q < |s.paths| ==> s.paths[q] != [] && j < |s'.paths| && s'.paths[j] == s.paths[q][1..]
    requires forall i :: |s.paths| <= i < |s'.paths| && i != except ==>
               b[i].parent < |s'.paths| && s'.paths[i] != [] && s'.paths[b[i].parent] == s'.paths[i][1..]
    requires |b| <= ARENA_SIZE
    ensures Linked(if 0 <= q < |s.paths| then b[q := b[q].(parent := Wrap16(j))] else b, s', except)
  {
    var b' := if 0 <= q < |s.paths| then b[q := b[q].(parent := Wrap16(j))] else b;
    forall i | 0 < i < |s'.paths| && i != except
      ensures b'[i].parent < |s'.paths| && |s'.paths[i]| >= 1 && s'.paths[b'[i].parent] == s'.paths[i][1..]
    {
      if i < |s.paths| {
        assert s'.paths[i] == s.paths[i];
        if i != q {
          assert s'.paths[a[i].parent] == s.paths[a[i].parent];
        }
      }
    }
  }

  lemma SymbolPath(a: Arena, s: Shape, c: nat, p: Route, v: uint8, delta: uint8)
    requires CanEnter(a, s, c, p, v, delta)
    ensures var j, s' := SymbolAt(s.trees[c], p, |s.paths|), Grown(s, c, p, v, delta);
            c < j < |s'.paths| && s'.paths[j] == s.paths[c] + [v]
    ensures End(s.trees[c], p).Node? ==> SymbolAt(s.trees[c], p, |s.paths|) < |s.paths|
  {
    NodesAllocated(a, s, c);
    if End(s.trees[c], p).Node? {
      HoldsEnd(a, c, a[c].symbols, s.trees[c], p);
      assert Named(a, s, c);
    }
  }

  // ----- settling a context after an entry

  /** Changing only the context fields of c (not its tree) keeps the arena well formed. */
  lemma ContextFieldsWf(a: Arena, s: Shape, c: nat, e: uint16, total: uint16, parent: uint16)
    requires Wf(a, s) && c < |s.paths|
    ensures Wf(a[c := a[c].(escapes := e, total := total, parent := parent)], s)
  {
    var b := a[c := a[c].(escapes := e, total := total, parent := parent)];
    forall i | 0 <= i < |s.paths|
      ensures Holds(b, i, b[i].symbols, s.trees[i]) && Named(b, s, i)
    {
      assert Named(a, s, i);
      NodesAllocated(a, s, i);
      HoldsFrame(a, b, i, a[i].symbols, s.trees[i]);
    }
  }

  lemma RescaleWf(a: Arena, s: Shape, c: nat, cap: nat)
    requires Wf(a, s) && c < |s.paths| && CountsIn(s.trees[c], cap) && Sum(s.trees[c]) < 0x1_0000
    ensures Within(s.trees[c], a)
    ensures Wf(RescaledArena(a, s.trees[c]), s.(trees := s.trees[c := Halved(s.trees[c])]))
  {
    NodesAllocated(a, s, c);
    var t := s.trees[c];
    var b, s' := RescaledArena(a, t), s.(trees := s.trees[c := Halved(t)]);
    RescaleRefines(a, c, a[c].symbols, t, cap);
    RescaleFrame(a, t);
    HalvedNodes(t);
    HalvedShape(t, cap);
    forall i | 0 <= i < |s.paths|
      ensures Holds(b, i, b[i].symbols, s'.trees[i]) && Named(b, s', i)
    {
      assert Named(a, s, i);
      NodesAllocated(a, s, i);
      assert b[i].symbols == a[i].symbols;
      RescaleValues(a, t);
      if i != c {
        assert Nodes(s.trees[i]) !! Nodes(t);
        HoldsFrame(a, b, i, a[i].symbols, s.trees[i]);
      }
    }
  }

  lemma {:induction false} RescaleValues(a: Arena, t: Tree)
    requires Within(t, a)
    ensures forall j :: 0 <= j < |a| ==> RescaledArena(a, t)[j].value == a[j].value
    decreases t
  {
    match t
    case Leaf =>
    case Node(l, i, _, _, r) =>
      SubtreeNodes(t);
      var count := Half(a[i].count);
      var a1 := a[i := a[i].(count := count, under := count)];
      RescaleValues(a1, l);
      assert forall j :: 0 <= j < |a| ==> a1[j].value == a[j].value;
      var b := RescaledLeft(a, i, l);
      assert forall j :: 0 <= j < |a| ==> b[j].value == RescaledArena(a1, l)[j].value;
      RescaleValues(b, r);
  }

  /** Halving always brings a total back under the limit: a tree has fewer nodes than the arena has symbols. */
  lemma RescaleRoom(a: Arena, s: Shape, c: nat, cap: nat)
    requires Wf(a, s) && c < |s.paths| && CountsIn(s.trees[c], cap)
    ensures 2 * Sum(Halved(s.trees[c])) <= Sum(s.trees[c]) + ARENA_SIZE
    ensures CountsIn(Halved(s.trees[c]), Half(cap))
  {
    NodesAllocated(a, s, c);
    var t := s.trees[c];
    HalvedShape(t, cap);
    SizeIsCardinality(t);
    SubsetSize(Nodes(t), Segment(ARENA_SIZE));
  }

  ghost function Segment(n: nat): (r: set<nat>)
    ensures |r| == n && forall j :: j in r <==> 0 <= j < n
  {
    if n == 0 then {} else Segment(n - 1) + {n - 1}
  }

  lemma {:induction false} SubsetSize(x: set<nat>, y: set<nat>)
    requires x <= y
    ensures |x| <= |y|
    decreases x
  {
    if x != {} {
      var e :| e in x;
      SubsetSize(x - {e}, y - {e});
    }
  }

  /** Only context c, its symbols and possibly one new symbol differ. */
  ghost predicate Touched(a: Arena, s: Shape, b: Arena, s': Shape, c: nat) {
    var n := |s.paths|;
    && n == |s.trees| <= |a| && |s'.paths| == |s'.trees| <= |b|
    && s.paths <= s'.paths && |s'.paths| <= n + 1
    && (forall i :: 0 <= i < n && i != c ==>
          s'.trees[i] == s.trees[i] && b[i].escapes == a[i].escapes && b[i].total == a[i].total)
    && (n < |s'.paths| ==> s'.trees[n] == Leaf && b[n].escapes == 0)
  }

  lemma EnterTouches(a: Arena, s: Shape, c: nat, p: Route, v: uint8, delta: uint8)
    requires CanEnter(a, s, c, p, v, delta)
    ensures Within(s.trees[c], a)
    ensures Touched(a, s, Entered(a, c, s.trees[c], p, v, delta, |s.paths|), Grown(s, c, p, v, delta), c)
  {
    hide Holds, Shaped, Entered, Bump, Descended;
    EnterFrame(a, s, c, p, v, delta);
    var b := Entered(a, c, s.trees[c], p, v, delta, |s.paths|);
    forall i | 0 <= i < |s.paths| && i != c
      ensures b[i].escapes == a[i].escapes && b[i].total == a[i].total
    {
      assert SameContext(a[i], b[i]);
    }
  }

  /** Entering v adds to its frequency in whatever context c tells. */
  lemma EnterTells(a: Arena, s: Shape, c: nat, v: uint8, delta: uint8, d: Context)
    requires c < |s.trees| && CanEnter(a, s, c, Search(s.trees[c], v), v, delta)
    requires TellsContext(a, s.trees[c], c, d)
    ensures Within(s.trees[c], a)
    ensures var t, p := s.trees[c], Search(s.trees[c], v);
            var b := Entered(a, c, t, p, v, delta, |s.paths|);
            && TellsContext(b, Grown(s, c, p, v, delta).trees[c], c, Heard(d, v, delta))
            && (End(t, p).Leaf? <==> d.freq[v] == 0)
            && (if End(t, p).Node? then End(t, p).count else 0) == d.freq[v]
            && Along(t, p) == Below(d.freq, v)
  {
    var t, p := s.trees[c], Search(s.trees[c], v);
    NodesAllocated(a, s, c);
    EnterFrame(a, s, c, p, v, delta);
    assert CountsIn(t, Cap(c));
    BumpTabulates(t, d.freq, v, delta, |s.paths|, Cap(c));
    BumpLayout(t, v, delta, |s.paths|);
    SearchFinds(t, -1, 0x100, v, Cap(c), delta, |s.paths|);
    AlongSearch(t, -1, 0x100, v);
    LessIsBelow(t, d.freq, v);
  }

  // ----- the arena of a coder that has seen well-formed data tells a prediction model

  ghost predicate Seen(contexts: map<History, Context>, k: History) {
    k != [] && Lookup(contexts, k[..|k| - 1]).freq[k[|k| - 1]] > 0
  }

  ghost predicate TellsContext(a: Arena, t: Tree, i: nat, c: Context) {
    i < |a| && Sorted(t) && Tabulates(t, c.freq) && a[i].escapes == c.escapes && LayoutOf(t) == c.layout
  }

  /** The arena holds exactly these contexts, each under one symbol, whatever its index. */
  ghost predicate Tells(a: Arena, s: Shape, contexts: map<History, Context>) {
    && |s.paths| == |s.trees| <= |a|
    && (forall i, j :: 0 <= i < j < |s.paths| ==> s.paths[i] != s.paths[j])
    && (forall i :: 0 <= i < |s.paths| ==> TellsContext(a, s.trees[i], i, Lookup(contexts, s.paths[i])))
    && (forall i :: 0 < i < |s.paths| ==> Seen(contexts, s.paths[i]))
    && (forall k :: k in contexts ==> k in s.paths)
  }

  /** Context c was visited with byte v and now reads as d; its symbols, and only it, may have changed. */
  ghost predicate Visited(a: Arena, s: Shape, contexts: map<History, Context>, b: Arena, s': Shape, c: nat, v: uint8, d: Context) {
    var n := |s.paths|;
    && n == |s.trees| <= |a| && |s'.paths| == |s'.trees| <= |b|
    && c < n
    && var k := s.paths[c];
    && var f := Lookup(contexts, k).freq;
    && s'.paths == (if f[v] == 0 then s.paths + [k + [v]] else s.paths)
    && (forall u :: 0 <= u < 0x100 && (u == v || f[u] > 0) ==> d.freq[u] > 0)
    && (forall i :: 0 <= i < n && i != c ==> s'.trees[i] == s.trees[i] && b[i].escapes == a[i].escapes)
    && (n < |s'.paths| ==> s'.trees[n] == Leaf && b[n].escapes == 0)
    && TellsContext(b, s'.trees[c], c, d)
  }

  lemma NewPath(a: Arena, s: Shape, contexts: map<History, Context>, c: nat, v: uint8)
    requires |s.paths| == |s.trees| <= |a| && Tells(a, s, contexts) && c < |s.paths|
    requires Lookup(contexts, s.paths[c]).freq[v] == 0
    ensures s.paths[c] + [v] !in s.paths || s.paths[c] + [v] == s.paths[0]
  {
  }

  lemma SameTells(a: Arena, b: Arena, t: Tree, i: nat, d: Context)
    requires TellsContext(a, t, i, d) && i < |b| && b[i].escapes == a[i].escapes
    ensures TellsContext(b, t, i, d)
  {
  }

  lemma UnseenTells(b: Arena)
    ensures forall i: nat :: i < |b| && b[i].escapes == 0 ==> TellsContext(b, Leaf, i, UNSEEN)
  {
  }

  lemma TellsVisitedContexts(a: Arena, s: Shape, contexts: map<History, Context>, b: Arena, s': Shape, c: nat, v: uint8, d: Context)
    requires |s.paths| == |s.trees| <= |a| && Tells(a, s, contexts) && |s.paths| > 0 && s.paths[0] == []
    requires |s'.paths| == |s'.trees| <= |b| && Visited(a, s, contexts, b, s', c, v, d)
    ensures forall i :: 0 <= i < |s'.paths| ==>
              TellsContext(b, s'.trees[i], i, Lookup(contexts[s.paths[c] := d], s'.paths[i]))
  {
    hide TellsContext, Seen;
    var contexts' := contexts[s.paths[c] := d];
    UnseenTells(b);
    forall i | 0 <= i < |s'.paths|
      ensures TellsContext(b, s'.trees[i], i, Lookup(contexts', s'.paths[i]))
    {
      if i < |s.paths| {
        assert s'.paths[i] == s.paths[i];
        if i != c {
          assert s.paths[i] != s.paths[c];
          SameTells(a, b, s.trees[i], i, Lookup(contexts, s.paths[i]));
        }
      } else {
        NewPath(a, s, contexts, c, v);
        assert s'.paths[i] == s.paths[c] + [v] && s'.paths[i] !in contexts;
      }
    }
  }

  lemma SeenStays(contexts: map<History, Context>, k: History, v: uint8, d: Context, path: History)
    requires Seen(contexts, path)
    requires forall u :: 0 <= u < 0x100 && (u == v || Lookup(contexts, k).freq[u] > 0) ==> d.freq[u] > 0
    ensures Seen(contexts[k := d], path)
  {
  }

  lemma TellsVisitedSeen(a: Arena, s: Shape, contexts: map<History, Context>, b: Arena, s': Shape, c: nat, v: uint8, d: Context)
    requires |s.paths| == |s.trees| <= |a| && Tells(a, s, contexts)
    requires |s'.paths| == |s'.trees| <= |b| && Visited(a, s, contexts, b, s', c, v, d)
    ensures forall i :: 0 < i < |s'.paths| ==> Seen(contexts[s.paths[c] := d], s'.paths[i])
  {
    hide TellsContext;
    var contexts' := contexts[s.paths[c] := d];
    forall i | 0 < i < |s'.paths|
      ensures Seen(contexts', s'.paths[i])
    {
      if i < |s.paths| {
        SeenStays(contexts, s.paths[c], v, d, s.paths[i]);
      } else {
        assert (s.paths[c] + [v])[..|s.paths[c] + [v]| - 1] == s.paths[c];
      }
    }
  }

  /** Replacing the one context that was visited. */
  lemma TellsVisited(a: Arena, s: Shape, contexts: map<History, Context>, b: Arena, s': Shape, c: nat, v: uint8, d: Context)
    requires |s.paths| == |s.trees| <= |a| && Tells(a, s, contexts) && |s.paths| > 0 && s.paths[0] == []
    requires |s'.paths| == |s'.trees| <= |b| && Visited(a, s, contexts, b, s', c, v, d)
    ensures Tells(b, s', contexts[s.paths[c] := d])
  {
    hide TellsContext, Seen;
    TellsVisitedContexts(a, s, contexts, b, s', c, v, d);
    TellsVisitedSeen(a, s, contexts, b, s', c, v, d);
    if |s.paths| < |s'.paths| {
      NewPath(a, s, contexts, c, v);
    }
    assert forall k :: k in s.paths ==> k in s'.paths;
  }

  /** What a context needs before enet_symbol_rescale goes through its tree, and what it gets. */
  lemma RescaleSpace(a: Arena, s: Shape, c: nat, cap: nat)
    requires Wf(a, s) && c < |s.paths| && CountsIn(s.trees[c], cap)
    requires a[c].total == a[c].escapes + 256 * Minimum(c) + Sum(s.trees[c])
    ensures var t := s.trees[c];
            && Within(t, a) && Holds(a, c, a[c].symbols, t) && Shaped(t) && Sum(t) < 0x1_0000
            && (t.Leaf? <==> a[c].symbols == 0)
            && (t.Node? ==> t.index == c + a[c].symbols)
            && (t.Leaf? ==> RescaledArena(a, t) == a && Sum(Halved(t)) == 0)
            && Sum(Halved(t)) <= Sum(t)
            && Wf(RescaledArena(a, t), s.(trees := s.trees[c := Halved(t)]))
            && (forall i :: 0 <= i < |a| ==> SameContext(a[i], RescaledArena(a, t)[i]))
  {
    var t := s.trees[c];
    NodesAllocated(a, s, c);
    RescaleWf(a, s, c, cap);
    RescaleFrame(a, t);
    HalvedSum(t, cap);
  }

  lemma TellsTotal(a: Arena, t: Tree, c: nat, d: Context)
    requires c < |a| && TellsContext(a, t, c, d)
    ensures Total(d, Minimum(c)) == a[c].escapes + 256 * Minimum(c) + Sum(t)
  {
    SumIsBelow(t, d.freq);
  }

  lemma BalancedAfter(a: Arena, s: Shape, b: Arena, s': Shape, c: nat)
    requires |s.trees| == |s'.trees| <= |a| == |b| && c < |s.trees| && Balanced(a, s, c)
    requires forall i :: 0 <= i < |s.trees| && i != c ==>
               s'.trees[i] == s.trees[i] && b[i].escapes == a[i].escapes && b[i].total == a[i].total
    requires CountsIn(s'.trees[c], Cap(c)) && Accounts(b, c, s'.trees[c], 0)
    ensures Balanced(b, s', -1)
  {
  }

  lemma HalfFacts(cap: nat, escapes: nat)
    requires cap <= 0xFF
    ensures Half(cap) <= CONTEXT_COUNT_CAP
    ensures 2 * Half(escapes) <= escapes + 1 && (escapes == 1 ==> Half(escapes) == 1)
  {
  }

  lemma ParentOnly(b: Arena, s: Shape, c: nat, q: nat, parent: uint16)
    requires |s.paths| == |s.trees| <= |b| && c < |s.paths| && q < |b|
    ensures var b' := b[q := b[q].(parent := parent)];
            && (Balanced(b, s, c) ==> Balanced(b', s, c))
            && (forall u: nat :: Accounts(b, c, s.trees[c], u) ==> Accounts(b', c, s.trees[c], u))
            && (forall d: Context :: TellsContext(b, s.trees[c], c, d) ==> TellsContext(b', s.trees[c], c, d))
  {
  }

  /** Everything an entry along any route keeps, and what it owes. */
  lemma EnterFacts(a: Arena, s: Shape, c: nat, p: Route, v: uint8, delta: uint8, q: int)
    requires CanEnter(a, s, c, p, v, delta) && Linked(a, s, q)
    requires q == -1 || (0 <= q < |s.paths| && s.paths[q] != [] && s.paths[q][1..] == s.paths[c] + [v])
    ensures Within(s.trees[c], a)
    ensures var n, t := |s.paths|, s.trees[c];
            var b, s' := Entered(a, c, t, p, v, delta, n), Grown(s, c, p, v, delta);
            var before := if End(t, p).Node? then End(t, p).count else 0;
            var j := SymbolAt(t, p, n);
            && Wf(b, s') && Touched(a, s, b, s', c)
            && b[c].escapes == a[c].escapes && b[c].total == a[c].total
            && Balanced(b, s', c) && Accounts(b, c, s'.trees[c], delta)
            && before <= Cap(c) && (End(t, p).Node? ==> 1 <= before) && before <= Sum(t)
            && CountsIn(s'.trees[c], if before + delta <= Cap(c) then Cap(c) else 0xFF)
            && c < j < |s'.paths| && s'.paths[j] == s.paths[c] + [v]
            && |s'.paths| == n + (if End(t, p).Leaf? then 1 else 0)
            && (j < n || End(t, p).Leaf?)
            && Linked(if 0 <= q < n then b[q := b[q].(parent := Wrap16(j))] else b, s',
                      if End(t, p).Leaf? && c != 0 then n else -1)
            && (forall i :: 0 <= i < n ==> b[i].parent == a[i].parent)
  {
    hide Holds, Shaped, CountsIn, Wf, Entered, Linked, Balanced, Bump, End, Along, Below, Descended, Touched;
    WfSizes(a, s);
    var n, t := |s.paths|, s.trees[c];
    NodesAllocated(a, s, c);
    EnterWf(a, s, c, p, v, delta);
    EnterTouches(a, s, c, p, v, delta);
    EnterFrame(a, s, c, p, v, delta);
    SymbolPath(a, s, c, p, v, delta);
    EnterLinks(a, s, c, p, v, delta, q);
    BalancedAt(a, s, c);
    AlongWithin(t, p);
    if End(t, p).Node? {
      EndCounts(t, p, Cap(c));
    }
    EnterBalance(a, s, c, p, v, delta,
                 if (if End(t, p).Node? then End(t, p).count else 0) + delta <= Cap(c) then Cap(c) else 0xFF);
    ParentsKept(a, s, c, Entered(a, c, t, p, v, delta, n));
  }

  lemma CanEnterAt(a: Arena, s: Shape, c: nat, p: Route, v: uint8, delta: uint8)
    requires Wf(a, s) && Balanced(a, s, -1)
    requires c < |s.paths| < ARENA_SIZE && |s.paths[c]| <= SUBCONTEXT_ORDER
    requires Leads(s.trees[c], p) && (End(s.trees[c], p).Node? ==> End(s.trees[c], p).value == v)
    requires delta == (if c == 0 then CONTEXT_SYMBOL_DELTA else SUBCONTEXT_SYMBOL_DELTA)
    ensures CanEnter(a, s, c, p, v, delta)
  {
  }

  lemma BalancedAt(a: Arena, s: Shape, c: nat)
    requires |s.trees| <= |a| && Balanced(a, s, -1) && c < |s.trees|
    ensures CountsIn(s.trees[c], Cap(c)) && Accounts(a, c, s.trees[c], 0)
  {
  }

  /** In an arena that tells d, the stored fields give the slots of the model. */
  lemma TellsSlots(a: Arena, s: Shape, c: nat, v: uint8, d: Context)
    requires |s.trees| <= |a| && 0 < c < |s.trees| && Balanced(a, s, -1)
    requires TellsContext(a, s.trees[c], c, d) && SubcontextOk(d)
    ensures a[c].total == Total(d, 0) && a[c].escapes == d.escapes
    ensures d.freq[v] > 0 ==> a[c].escapes + Below(d.freq, v) < a[c].total
                              && SubcontextSlots(d, v) == [Slot(a[c].escapes + Below(d.freq, v), d.freq[v], a[c].total)]
    ensures d.freq[v] == 0 && 0 < a[c].escapes < a[c].total ==> SubcontextSlots(d, v) == [Slot(0, a[c].escapes, a[c].total)]
    ensures d.freq[v] == 0 && !(0 < a[c].escapes < a[c].total) ==> SubcontextSlots(d, v) == []
  {
    hide Balanced, CountsIn, Sorted, Tabulates, Escapable, Sum, Below;
    BalancedAt(a, s, c);
    TellsTotal(a, s.trees[c], c, d);
    BelowAt(d.freq, v);
  }

  lemma TouchedAgain(a: Arena, s: Shape, b: Arena, s': Shape, e: Arena, s'': Shape, c: nat)
    requires Touched(a, s, b, s', c) && Touched(b, s', e, s'', c) && s'.paths == s''.paths && c < |s.paths|
    ensures Touched(a, s, e, s'', c)
  {
  }

  lemma SameParentsLinked(a: Arena, s: Shape, b: Arena, s': Shape, except: int)
    requires |s.paths| <= |a| == |b| && s.paths == s'.paths && Linked(a, s, except)
    requires forall i :: 0 <= i < |s.paths| ==> b[i].parent == a[i].parent
    ensures Linked(b, s', except)
  {
  }

  lemma TellsRootSlot(a: Arena, s: Shape, v: uint8, d: Context)
    requires 0 < |s.trees| <= |a| && Balanced(a, s, -1)
    requires TellsContext(a, s.trees[0], 0, d) && Bounded(d, CONTEXT_COUNT_CAP, 1)
    ensures a[0].total == Total(d, 1) && a[0].escapes == d.escapes == CONTEXT_ESCAPE_MINIMUM
    ensures a[0].escapes + v + Below(d.freq, v) < a[0].total
    ensures SymbolSlot(d, v, 1) == Slot(a[0].escapes + v + Below(d.freq, v), 1 + d.freq[v], a[0].total)
  {
    hide Balanced, CountsIn, Sorted, Tabulates, Escapable, Sum, Below;
    BalancedAt(a, s, 0);
    TellsTotal(a, s.trees[0], 0, d);
    BelowAt(d.freq, v);
  }

  /** A visit that turned context c from d into d', read off the whole model. */
  lemma VisitTells(a: Arena, s: Shape, contexts: map<History, Context>, b: Arena, s': Shape, c: nat, v: uint8, d': Context)
    requires |s.paths| > 0 && c < |s.paths| && Touched(a, s, b, s', c)
    requires s.paths[0] == [] && Tells(a, s, contexts)
    requires s'.paths == (if Lookup(contexts, s.paths[c]).freq[v] == 0 then s.paths + [s.paths[c] + [v]] else s.paths)
    requires forall u :: 0 <= u < 0x100 && (u == v || Lookup(contexts, s.paths[c]).freq[u] > 0) ==> d'.freq[u] > 0
    requires TellsContext(b, s'.trees[c], c, d')
    ensures Tells(b, s', contexts[s.paths[c] := d'])
  {
    hide TellsContext, Tells;
    TellsVisited(a, s, contexts, b, s', c, v, d');
  }

  lemma TellsAt(a: Arena, s: Shape, contexts: map<History, Context>, c: nat)
    requires |s.paths| == |s.trees| <= |a| && c < |s.paths| && Tells(a, s, contexts)
    ensures TellsContext(a, s.trees[c], c, Lookup(contexts, s.paths[c]))
  {
  }

  lemma LinkedAt(a: Arena, s: Shape, except: int, c: nat)
    requires |s.paths| <= |a| && 0 < c < |s.paths| && c != except && Linked(a, s, except)
    ensures a[c].parent < |s.paths| && s.paths[c] != [] && s.paths[a[c].parent] == s.paths[c][1..]
  {
  }

  /** What both descents rely on when they start in context c. */
  lemma DescentReady(a: Arena, s: Shape, c: nat)
    requires Wf(a, s) && Balanced(a, s, -1) && c < |s.trees|
    ensures var t := s.trees[c];
            && |a| == ARENA_SIZE && |s.trees| == |s.paths|
            && Within(t, a) && (forall j :: j in Nodes(t) ==> c < j < |s.paths|)
            && Shaped(t) && CountsIn(t, Cap(c)) && Sum(t) + 0x100 * Minimum(c) <= TOTAL_LIMIT
            && (t.Leaf? <==> a[c].symbols == 0)
            && (t.Node? ==> t.index == c + a[c].symbols && Holds(a, c, t.index - c, t))
  {
    NodesAllocated(a, s, c);
    BalancedAt(a, s, c);
  }

  const ROOT_SHAPE := Shape([Leaf], [[]])

  /** A fresh root context tells the initial model. */
  lemma FreshArena(a: Arena)
    requires |a| == ARENA_SIZE
    requires a[0] == Fresh(0, 0).(escapes := CONTEXT_ESCAPE_MINIMUM,
                                  total := CONTEXT_ESCAPE_MINIMUM + 256 * CONTEXT_SYMBOL_MINIMUM)
    ensures Wf(a, ROOT_SHAPE) && Balanced(a, ROOT_SHAPE, -1) && Linked(a, ROOT_SHAPE, -1)
    ensures Tells(a, ROOT_SHAPE, INITIAL.contexts)
  {
    assert forall v: nat :: v < 256 ==> Count(Leaf, v) == FRESH_ROOT.freq[v];
  }

  /** A decoded route that ends at a symbol is a visit to that symbol; one that ends below creates it. */
  lemma DecodeTells(a: Arena, s: Shape, c: nat, code: nat, v: uint8, d: Context)
    requires c < |s.trees| && Wf(a, s) && Balanced(a, s, -1) && TellsContext(a, s.trees[c], c, d)
    requires v * Minimum(c) + Below(d.freq, v) <= code < v * Minimum(c) + Below(d.freq, v) + Minimum(c) + d.freq[v]
    ensures var t, p := s.trees[c], Search(s.trees[c], v);
            && Decode(t, code, 0, Minimum(c)) == p
            && (End(t, p).Leaf? <==> d.freq[v] == 0)
            && (End(t, p).Node? ==> End(t, p).value == v && End(t, p).count == d.freq[v])
            && Along(t, p) == Below(d.freq, v)
            && (End(t, p).Leaf? ==> Wrap8(code - Along(t, p)) == v && code == v * Minimum(c) + Below(d.freq, v))
  {
    hide Decode, Search, Along, End, Below, Less, Count, Wf, Tabulates;
    var t := s.trees[c];
    assert Tabulates(t, d.freq) && Sorted(t);
    TabulatesAt(t, d.freq, v);
    BalancedAt(a, s, c);
    LessIsBelow(t, d.freq, v);
    DecodeIsSearch(t, -1, 0x100, v, code, 0, Minimum(c));
    SearchFinds(t, -1, 0x100, v, Cap(c), 1, 0);
    AlongSearch(t, -1, 0x100, v);
    if End(t, Search(t, v)).Leaf? {
      assert c == 0;
      assert code - Along(t, Search(t, v)) == v;
    }
  }

  /** The contexts from chain[0] down through their parents. */
  ghost predicate Chained(a: Arena, s: Shape, chain: seq<nat>) {
    && |chain| >= 1 && chain[0] < |s.paths|
    && (forall i :: 0 <= i < |chain| ==> chain[i] < |s.paths| && |s.paths[chain[i]]| == |s.paths[chain[0]]| - i)
    && (forall i :: 0 <= i < |chain| - 1 ==>
          && chain[i] < |a| && a[chain[i]].parent == chain[i + 1]
          && s.paths[chain[i + 1]] == s.paths[chain[i]][1..])
  }

  /** Every context in the chain before the last has still to learn v. */
  ghost predicate Skipped(s: Shape, contexts: map<History, Context>, chain: seq<nat>, v: uint8) {
    forall i :: 0 <= i < |chain| - 1 ==> chain[i] < |s.paths| && Lookup(contexts, s.paths[chain[i]]).freq[v] == 0
  }

  lemma SkippedTail(s: Shape, s': Shape, contexts: map<History, Context>, chain: seq<nat>, v: uint8)
    requires Skipped(s, contexts, chain, v) && |chain| > 1 && s.paths <= s'.paths
    ensures Skipped(s', contexts, chain[1..], v) && chain[0] < |s.paths| && Lookup(contexts, s.paths[chain[0]]).freq[v] == 0
  {
  }

  lemma SkippedStep(s: Shape, contexts: map<History, Context>, chain: seq<nat>, c: nat, v: uint8)
    requires Skipped(s, contexts, chain, v) && |chain| > 0
    requires chain[|chain| - 1] < |s.paths| && Lookup(contexts, s.paths[chain[|chain| - 1]]).freq[v] == 0
    ensures Skipped(s, contexts, chain + [c], v)
  {
  }

  /** Setting parents of symbols longer than every context left in the chain leaves the chain alone. */
  lemma ChainKept(a: Arena, s: Shape, b: Arena, s': Shape, chain: seq<nat>, q: int)
    requires Chained(a, s, chain) && s.paths <= s'.paths && |s.paths| <= |a| == |b|
    requires forall i :: 0 <= i < |s.paths| && i != q ==> b[i].parent == a[i].parent
    requires 0 <= q < |s.paths| ==> |s.paths[q]| > |s.paths[chain[0]]|
    ensures Chained(b, s', chain)
  {
  }

  lemma ChainTail(a: Arena, s: Shape, chain: seq<nat>)
    requires Chained(a, s, chain) && |chain| > 1
    ensures Chained(a, s, chain[1..])
    ensures chain[0] < |s.paths| && chain[0] < |a| && a[chain[0]].parent == chain[1] < |s.paths|
    ensures s.paths[chain[0]] != [] && s.paths[chain[1]] == s.paths[chain[0]][1..]
  {
  }

  /** Setting the one pending parent completes the links. */
  lemma LinkLast(a: Arena, s: Shape, q: nat, bottom: nat)
    requires Wf(a, s) && Balanced(a, s, -1) && Linked(a, s, q)
    requires q < |s.paths| && s.paths[q] != [] && bottom < |s.paths| && s.paths[bottom] == s.paths[q][1..]
    ensures var b := a[q := a[q].(parent := Wrap16(bottom))];
            Wf(b, s) && Balanced(b, s, -1) && Linked(b, s, -1)
  {
    hide Wf, CountsIn, Sum;
    WfSizes(a, s);
    ContextFieldsWf(a, s, q, a[q].escapes, a[q].total, Wrap16(bottom));
    var b := a[q := a[q].(parent := Wrap16(bottom))];
    assert b == a[q := a[q].(escapes := a[q].escapes, total := a[q].total, parent := Wrap16(bottom))];
    forall i | 0 <= i < |s.trees|
      ensures CountsIn(s.trees[i], Cap(i)) && Accounts(b, i, s.trees[i], 0)
    {
      BalancedAt(a, s, i);
    }
  }

  /** What an arena tells does not depend on the parents. */
  lemma LinkTells(a: Arena, s: Shape, q: nat, parent: uint16, contexts: map<History, Context>)
    requires |s.paths| == |s.trees| <= |a| && q < |a| && Tells(a, s, contexts)
    ensures Tells(a[q := a[q].(parent := parent)], s, contexts)
  {
    hide Sorted, Tabulates, Seen;
    var b := a[q := a[q].(parent := parent)];
    forall i | 0 <= i < |s.paths|
      ensures TellsContext(b, s.trees[i], i, Lookup(contexts, s.paths[i]))
    {
      TellsAt(a, s, contexts, i);
    }
  }

  lemma ChainStart(a: Arena, s: Shape, c: nat)
    requires c < |s.paths|
    ensures Chained(a, s, [c])
  {
  }

  lemma ChainStep(a: Arena, s: Shape, chain: seq<nat>)
    requires |s.paths| <= |a| && Linked(a, s, -1) && Chained(a, s, chain) && chain[|chain| - 1] != 0
    ensures chain[|chain| - 1] < |s.paths|
    ensures Chained(a, s, chain + [a[chain[|chain| - 1]].parent as nat])
  {
    var c := chain[|chain| - 1];
    var longer := chain + [a[c].parent as nat];
    LinkedAt(a, s, -1, c);
    forall i | 0 <= i < |longer| - 1
      ensures longer[i] < |a| && a[longer[i]].parent == longer[i + 1] && s.paths[longer[i + 1]] == s.paths[longer[i]][1..]
    {
      if i == |chain| - 1 {
        assert longer[i] == c;
      } else {
        assert longer[i] == chain[i] && longer[i + 1] == chain[i + 1];
      }
    }
  }

  lemma ChainEnds(a: Arena, s: Shape, chain: seq<nat>)
    requires Chained(a, s, chain)
    ensures |chain| >= 1 && forall i :: 0 <= i < |chain| ==> chain[i] < |s.paths|
    ensures |s.paths[chain[|chain| - 1]]| + |chain| - 1 == |s.paths[chain[0]]|
  {
  }

  /** Visiting a context the decoder had skipped, after the one (end) where it found the byte. */
  lemma PatchTells(a: Arena, s: Shape, contexts: map<History, Context>, x: map<History, Context>, end: History, d: Context,
                   c: nat, v: uint8, b: Arena, s': Shape)
    requires Wf(a, s) && c < |s.paths| && Touched(a, s, b, s', c)
    requires s.paths[c] != [] && s.paths[c] != end
    requires ContextsOk(contexts) && Agree(x, contexts, |s.paths[c]|) && Tells(a, s, x[end := d])
    requires var e := Lookup(contexts, s.paths[c]);
             && e.freq[v] == 0
             && (TellsContext(a, s.trees[c], c, e) ==>
                   && TellsContext(b, s'.trees[c], c, SubcontextAfter(e, v))
                   && s'.paths == s.paths + [s.paths[c] + [v]])
    ensures var k := s.paths[c];
            var x' := x[k := SubcontextAfter(Lookup(contexts, k), v)];
            && Tells(b, s', x'[end := d]) && Agree(x', contexts, |k| - 1)
            && Learned(x, k, v) == Learned(x', k[1..], v)
            && Created(contexts, k, v) == 1 + Created(contexts, k[1..], v)
            && |s'.paths| == |s.paths| + 1
  {
    hide TellsContext, Tells, Wf, SubcontextAfter, Slots, SubcontextSlots, Learned, Created;
    WfSizes(a, s);
    var k := s.paths[c];
    var e := Lookup(contexts, k);
    WalkStep(contexts, x, k, v, []);
    LookupOther(x, end, d, k);
    TellsAt(a, s, x[end := d], c);
    VisitTells(a, s, x[end := d], b, s', c, v, SubcontextAfter(e, v));
    assert x[end := d][k := SubcontextAfter(e, v)] == x[k := SubcontextAfter(e, v)][end := d];
  }

  /** Where a walk that has come down from h to k stands: the symbol whose parent is due, and the new `predicted`. */
  ghost predicate Pending(s: Shape, q: int, predicted: nat, h: History, k: History, v: uint8) {
    if q == -1 then k == h
    else && 0 < q < |s.paths| && s.paths[q] != [] && s.paths[q][1..] == k + [v]
         && predicted < |s.paths| && s.paths[predicted] == h + [v]
  }

  lemma PendingStart(s: Shape, predicted: nat, h: History, v: uint8)
    ensures Pending(s, -1, predicted, h, h, v)
  {
  }

  lemma PendingNext(s: Shape, q: int, predicted: nat, h: History, k: History, v: uint8, s': Shape, symbol: nat, predicted': nat)
    requires Pending(s, q, predicted, h, k, v) && s.paths <= s'.paths && k != []
    requires 0 < symbol < |s'.paths| && s'.paths[symbol] == k + [v]
    requires predicted' == if q < 0 then symbol else predicted
    ensures Pending(s', symbol, predicted', h, k[1..], v)
    ensures predicted' < |s'.paths| && s'.paths[predicted'] == h + [v]
  {
  }

  lemma PendingAt(s: Shape, q: int, predicted: nat, h: History, k: History, v: uint8)
    requires Pending(s, q, predicted, h, k, v)
    ensures q == -1 || (0 <= q < |s.paths| && s.paths[q] != [] && s.paths[q][1..] == k + [v] && |s.paths[q]| == |k| + 2
                        && predicted < |s.paths| && s.paths[predicted] == h + [v])
    ensures q == -1 ==> k == h
  {
  }
}
