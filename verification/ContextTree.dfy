/** The binary search tree of one context, first as a value, then as laid out in the symbol arena.
    In the arena each node also keeps `under`: its own count plus the sum of its left subtree. */
module ContextTree {
  import opened Integers
  import opened PredictionModel

  datatype Tree = Leaf | Node(left: Tree, index: nat, value: uint8, count: nat, right: Tree)

  ghost function Sum(t: Tree): nat {
    match t
    case Leaf => 0
    case Node(l, _, _, c, r) => Sum(l) + c + Sum(r)
  }

  ghost function Size(t: Tree): nat {
    match t
    case Leaf => 0
    case Node(l, _, _, _, r) => Size(l) + 1 + Size(r)
  }

  ghost function Nodes(t: Tree): set<nat> {
    match t
    case Leaf => {}
    case Node(l, i, _, _, r) => Nodes(l) + {i} + Nodes(r)
  }

  /** The number of occurrences the tree records for byte v. */
  ghost function Count(t: Tree, v: nat): nat {
    match t
    case Leaf => 0
    case Node(l, _, x, c, r) => Count(l, v) + (if x == v then c else 0) + Count(r, v)
  }

  /** The number of occurrences the tree records for the bytes smaller than v. */
  ghost function Less(t: Tree, v: nat): nat {
    match t
    case Leaf => 0
    case Node(l, _, x, c, r) => Less(l, v) + (if x < v then c else 0) + Less(r, v)
  }

  ghost predicate Between(t: Tree, lo: int, hi: int) {
    match t
    case Leaf => true
    case Node(l, _, x, _, r) => lo < x < hi && Between(l, lo, x) && Between(r, x, hi)
  }

  /** Search order: strictly increasing from left to right. */
  ghost predicate Sorted(t: Tree) {
    Between(t, -1, 0x100)
  }

  ghost predicate CountsIn(t: Tree, cap: nat) {
    match t
    case Leaf => true
    case Node(l, _, _, c, r) => 1 <= c <= cap && CountsIn(l, cap) && CountsIn(r, cap)
  }

  /** No node is met twice, and children were allocated after their parents. */
  ghost predicate Shaped(t: Tree) {
    match t
    case Leaf => true
    case Node(l, i, _, _, r) =>
      && (forall j :: j in Nodes(l) ==> i < j)
      && (forall j :: j in Nodes(r) ==> i < j)
      && Nodes(l) !! Nodes(r)
      && Shaped(l) && Shaped(r)
  }

  // ----- counting

  lemma {:induction false} BetweenCount(t: Tree, lo: int, hi: int, v: nat)
    requires Between(t, lo, hi)
    ensures v <= lo ==> Count(t, v) == 0 && Less(t, v) == 0
    ensures hi <= v ==> Count(t, v) == 0 && Less(t, v) == Sum(t)
  {
    match t
    case Leaf =>
    case Node(l, _, x, _, r) =>
      BetweenCount(l, lo, x, v);
      BetweenCount(r, x, hi, v);
  }

  lemma {:induction false} LessStep(t: Tree, v: nat)
    ensures Less(t, v + 1) == Less(t, v) + Count(t, v)
  {
    match t
    case Leaf =>
    case Node(l, _, _, _, r) =>
      LessStep(l, v);
      LessStep(r, v);
  }

  lemma {:induction false} LessEnds(t: Tree)
    ensures Less(t, 0) == 0 && Less(t, 0x100) == Sum(t)
  {
    match t
    case Leaf =>
    case Node(l, _, _, _, r) =>
      LessEnds(l);
      LessEnds(r);
  }

  /** The tree holds exactly the frequency table f. */
  ghost predicate Tabulates(t: Tree, f: Frequencies) {
    forall v :: 0 <= v < 0x100 ==> Count(t, v) == f[v]
  }

  lemma {:induction false} LessIsBelow(t: Tree, f: Frequencies, v: nat)
    requires Tabulates(t, f) && v <= 0x100
    ensures Less(t, v) == Below(f, v)
    decreases v
  {
    if v == 0 {
      LessEnds(t);
    } else {
      LessIsBelow(t, f, v - 1);
      LessStep(t, v - 1);
    }
  }

  lemma TabulatesAt(t: Tree, f: Frequencies, v: nat)
    requires Tabulates(t, f) && v < 0x100
    ensures Count(t, v) == f[v]
  {
  }

  lemma SumIsBelow(t: Tree, f: Frequencies)
    requires Tabulates(t, f)
    ensures Sum(t) == Below(f, 0x100)
  {
    LessEnds(t);
    LessIsBelow(t, f, 0x100);
  }

  // ----- adding occurrences at the end of a route from the root (true: left, false: right)

  type Route = seq<bool>

  /** The route ends at a node or just below one. */
  ghost predicate Leads(t: Tree, p: Route)
    decreases t
  {
    p == [] || (t.Node? && Leads(if p[0] then t.left else t.right, p[1..]))
  }

  ghost function End(t: Tree, p: Route): Tree
    requires Leads(t, p)
    decreases t
  {
    if p == [] then t else End(if p[0] then t.left else t.right, p[1..])
  }

  ghost function Bump(t: Tree, p: Route, v: uint8, delta: nat, next: nat): Tree
    requires Leads(t, p)
    decreases t
  {
    match t
    case Leaf => Node(Leaf, next, v, delta, Leaf)
    case Node(l, i, x, c, r) =>
      if p == [] then Node(l, i, x, c + delta, r)
      else if p[0] then Node(Bump(l, p[1..], v, delta, next), i, x, c, r)
      else Node(l, i, x, c, Bump(r, p[1..], v, delta, next))
  }

  lemma SubtreeNodes(t: Tree)
    requires t.Node?
    ensures t.index in Nodes(t)
    ensures forall j :: j in Nodes(t.left) ==> j in Nodes(t)
    ensures forall j :: j in Nodes(t.right) ==> j in Nodes(t)
  {
  }

  lemma {:induction false} BumpNodes(t: Tree, p: Route, v: uint8, delta: nat, next: nat)
    requires Leads(t, p)
    ensures var u := Bump(t, p, v, delta, next);
            && Sum(u) == Sum(t) + delta
            && Size(u) == Size(t) + (if End(t, p).Leaf? then 1 else 0)
            && Nodes(u) == (if End(t, p).Leaf? then Nodes(t) + {next} else Nodes(t))
    decreases t
  {
    match t
    case Leaf =>
    case Node(l, _, _, _, r) =>
      if p != [] {
        if p[0] {
          BumpNodes(l, p[1..], v, delta, next);
        } else {
          BumpNodes(r, p[1..], v, delta, next);
        }
      }
  }

  lemma {:induction false} BumpShape(t: Tree, p: Route, v: uint8, delta: nat, next: nat)
    requires Leads(t, p) && Shaped(t)
    requires forall j :: j in Nodes(t) ==> j < next
    ensures Shaped(Bump(t, p, v, delta, next))
    decreases t
  {
    match t
    case Leaf =>
    case Node(l, _, _, _, r) =>
      SubtreeNodes(t);
      if p != [] {
        if p[0] {
          BumpShape(l, p[1..], v, delta, next);
          BumpNodes(l, p[1..], v, delta, next);
        } else {
          BumpShape(r, p[1..], v, delta, next);
          BumpNodes(r, p[1..], v, delta, next);
        }
      }
  }

  lemma {:induction false} BumpCountsIn(t: Tree, p: Route, v: uint8, delta: nat, next: nat, cap: nat, cap': nat)
    requires Leads(t, p) && CountsIn(t, cap) && cap <= cap' && 1 <= delta <= cap'
    requires End(t, p).Node? ==> End(t, p).count + delta <= cap'
    ensures CountsIn(Bump(t, p, v, delta, next), cap')
    decreases t
  {
    match t
    case Leaf =>
    case Node(l, _, _, _, r) =>
      CountsWeaken(l, cap, cap');
      CountsWeaken(r, cap, cap');
      if p != [] {
        if p[0] {
          BumpCountsIn(l, p[1..], v, delta, next, cap, cap');
        } else {
          BumpCountsIn(r, p[1..], v, delta, next, cap, cap');
        }
      }
  }

  lemma {:induction false} CountsWeaken(t: Tree, cap: nat, cap': nat)
    requires CountsIn(t, cap) && cap <= cap'
    ensures CountsIn(t, cap')
  {
    match t
    case Leaf =>
    case Node(l, _, _, _, r) =>
      CountsWeaken(l, cap, cap');
      CountsWeaken(r, cap, cap');
  }

  ghost function Search(t: Tree, v: uint8): (p: Route)
    ensures Leads(t, p)
  {
    match t
    case Leaf => []
    case Node(l, _, x, _, r) =>
      if v < x then [true] + Search(l, v)
      else if v > x then [false] + Search(r, v)
      else []
  }

  /** Searching finds the one node for v if there is one, and inserting keeps the search order. */
  lemma {:induction false} SearchFinds(t: Tree, lo: int, hi: int, v: uint8, cap: nat, delta: nat, next: nat)
    requires Between(t, lo, hi) && lo < v < hi && CountsIn(t, cap)
    ensures End(t, Search(t, v)).Leaf? <==> Count(t, v) == 0
    ensures End(t, Search(t, v)).Node? ==> End(t, Search(t, v)).value == v
                                           && End(t, Search(t, v)).count == Count(t, v)
    ensures Between(Bump(t, Search(t, v), v, delta, next), lo, hi)
  {
    match t
    case Leaf =>
    case Node(l, _, x, _, r) =>
      BetweenCount(l, lo, x, v);
      BetweenCount(r, x, hi, v);
      if v < x {
        SearchFinds(l, lo, x, v, cap, delta, next);
      } else if v > x {
        SearchFinds(r, x, hi, v, cap, delta, next);
      }
  }

  lemma {:induction false} BumpCounts(t: Tree, p: Route, v: uint8, delta: nat, next: nat, u: nat)
    requires Leads(t, p) && (End(t, p).Node? ==> End(t, p).value == v)
    ensures Count(Bump(t, p, v, delta, next), u) == Count(t, u) + (if u == v then delta else 0)
    decreases t
  {
    match t
    case Leaf =>
    case Node(l, _, _, _, r) =>
      if p != [] {
        BumpCounts(if p[0] then l else r, p[1..], v, delta, next, u);
      }
  }

  /** How the tree branches, by bytes. */
  ghost function LayoutOf(t: Tree): Layout {
    match t
    case Leaf => Nil
    case Node(l, _, x, _, r) => Fork(LayoutOf(l), x, LayoutOf(r))
  }

  lemma {:induction false} BumpLayout(t: Tree, v: uint8, delta: nat, next: nat)
    ensures LayoutOf(Bump(t, Search(t, v), v, delta, next)) == Grafted(LayoutOf(t), v)
  {
    match t
    case Leaf =>
    case Node(l, _, x, _, r) =>
      if v < x {
        BumpLayout(l, v, delta, next);
      } else if v > x {
        BumpLayout(r, v, delta, next);
      }
  }

  lemma BumpTabulates(t: Tree, f: Frequencies, v: uint8, delta: nat, next: nat, cap: nat)
    requires Sorted(t) && CountsIn(t, cap) && Tabulates(t, f)
    ensures var u := Bump(t, Search(t, v), v, delta, next);
            Sorted(u) && Tabulates(u, f[v := f[v] + delta])
    ensures End(t, Search(t, v)).Leaf? <==> f[v] == 0
  {
    SearchFinds(t, -1, 0x100, v, cap, delta, next);
    forall u: nat | u < 0x100
      ensures Count(Bump(t, Search(t, v), v, delta, next), u) == f[v := f[v] + delta][u]
    {
      BumpCounts(t, Search(t, v), v, delta, next, u);
    }
  }

  /** The occurrences skipped on the way: everything to the left of where the route ends. */
  ghost function Along(t: Tree, p: Route): nat
    requires Leads(t, p)
    decreases t
  {
    match t
    case Leaf => 0
    case Node(l, _, _, c, r) =>
      if p == [] then Sum(l)
      else if p[0] then Along(l, p[1..])
      else Sum(l) + c + Along(r, p[1..])
  }

  lemma {:induction false} AlongWithin(t: Tree, p: Route)
    requires Leads(t, p)
    ensures Along(t, p) + (if End(t, p).Node? then End(t, p).count else 0) <= Sum(t)
    decreases t
  {
    if t.Node? && p != [] {
      if p[0] {
        AlongWithin(t.left, p[1..]);
      } else {
        AlongWithin(t.right, p[1..]);
      }
    }
  }

  /** On the way to v exactly the smaller bytes are skipped. */
  lemma {:induction false} AlongSearch(t: Tree, lo: int, hi: int, v: uint8)
    requires Between(t, lo, hi) && lo < v < hi
    ensures Along(t, Search(t, v)) == Less(t, v)
  {
    match t
    case Leaf =>
    case Node(l, _, x, _, r) =>
      BetweenCount(l, lo, x, v);
      BetweenCount(r, x, hi, v);
      if v < x {
        AlongSearch(l, lo, x, v);
      } else if v > x {
        AlongSearch(r, x, hi, v);
      }
  }

  lemma {:induction false} SearchEnd(t: Tree, v: uint8)
    ensures End(t, Search(t, v)).Node? ==> End(t, Search(t, v)).value == v
  {
    match t
    case Leaf =>
    case Node(l, _, _, _, r) =>
      SearchEnd(l, v);
      SearchEnd(r, v);
  }

  lemma SearchLeaf(t: Tree, v: uint8)
    ensures t.Leaf? ==> Search(t, v) == [] && Along(t, []) == 0 && End(t, []) == Leaf
  {
  }

  lemma SearchTail(t: Tree, v: uint8)
    requires t.Node?
    ensures v < t.value ==> Search(t, v) != [] && Search(t, v)[0] && Search(t, v)[1..] == Search(t.left, v)
    ensures v > t.value ==> Search(t, v) != [] && !Search(t, v)[0] && Search(t, v)[1..] == Search(t.right, v)
    ensures v == t.value ==> Search(t, v) == []
  {
  }

  // ----- decoding: the route found by comparing a code with cumulative frequencies

  ghost function Under(t: Tree): nat
    requires t.Node?
  {
    Sum(t.left) + t.count
  }

  ghost function Decode(t: Tree, code: int, under: int, minimum: int): (p: Route)
    ensures Leads(t, p)
    decreases t
  {
    match t
    case Leaf => []
    case Node(l, _, x, c, r) =>
      var after := under + Under(t) + (x + 1) * minimum;
      if code >= after then [false] + Decode(r, code, under + Under(t), minimum)
      else if code < after - (c + minimum) then [true] + Decode(l, code, under, minimum)
      else []
  }

  lemma DecodeTail(t: Tree, code: int, under: int, minimum: int)
    requires t.Node? && 0 <= minimum
    ensures var p, after := Decode(t, code, under, minimum), under + Under(t) + (t.value + 1) * minimum;
            && (code >= after ==> p != [] && !p[0] && p[1..] == Decode(t.right, code, under + Under(t), minimum))
            && (code < after - (t.count + minimum) ==> p != [] && p[0] && p[1..] == Decode(t.left, code, under, minimum))
            && (after - (t.count + minimum) <= code < after ==> p == [])
  {
  }

  /** Where a code for v must lie: [under, under + count) as the encoder computes them in subtree t. */
  ghost predicate CodeFor(t: Tree, v: uint8, code: int, under: int, minimum: int) {
    under + v * minimum + Less(t, v) <= code < under + v * minimum + Less(t, v) + minimum + Count(t, v)
  }

  /** Decoding is the inverse of encoding: any code in v's share is followed to where a search for v ends. */
  lemma {:induction false} DecodeIsSearch(t: Tree, lo: int, hi: int, v: uint8, code: int, under: int, minimum: int)
    requires Between(t, lo, hi) && 0 <= minimum <= 1
    requires CodeFor(t, v, code, under, minimum)
    ensures Decode(t, code, under, minimum) == Search(t, v)
  {
    match t
    case Leaf =>
    case Node(l, _, x, c, r) =>
      BetweenCount(l, lo, x, v);
      BetweenCount(r, x, hi, v);
      CodeSteps(t, lo, hi, v, code, under, minimum);
      if v < x {
        DecodeIsSearch(l, lo, x, v, code, under, minimum);
      } else if v > x {
        DecodeIsSearch(r, x, hi, v, code, under + Under(t), minimum);
      }
  }

  /** One step of the descent, as both loops over the arena take it. */
  lemma CodeSteps(t: Tree, lo: int, hi: int, v: uint8, code: int, under: int, minimum: int)
    requires t.Node? && Between(t, lo, hi) && 0 <= minimum <= 1
    requires CodeFor(t, v, code, under, minimum)
    ensures var after := under + Under(t) + (t.value + 1) * minimum;
            && (v > t.value <==> code >= after)
            && (v < t.value <==> code < after - (t.count + minimum))
            && (v > t.value ==> CodeFor(t.right, v, code, under + Under(t), minimum))
            && (v < t.value ==> CodeFor(t.left, v, code, under, minimum))
  {
    BetweenCount(t.left, lo, t.value, v);
    BetweenCount(t.right, t.value, hi, v);
    LessWithin(t.left, v);
    if minimum == 0 {
    } else {
      assert minimum == 1;
    }
  }

  lemma {:induction false} LessWithin(t: Tree, v: nat)
    ensures Less(t, v) + Count(t, v) <= Sum(t)
  {
    match t
    case Leaf =>
    case Node(l, _, _, _, r) =>
      LessWithin(l, v);
      LessWithin(r, v);
  }

  // ----- halving all counts

  ghost function Halved(t: Tree): Tree {
    match t
    case Leaf => Leaf
    case Node(l, i, x, c, r) => Node(Halved(l), i, x, Half(c), Halved(r))
  }

  lemma {:induction false} HalvedShape(t: Tree, cap: nat)
    requires Shaped(t) && CountsIn(t, cap)
    ensures Nodes(Halved(t)) == Nodes(t) && Shaped(Halved(t)) && Size(Halved(t)) == Size(t)
    ensures CountsIn(Halved(t), Half(cap))
    ensures 2 * Sum(Halved(t)) <= Sum(t) + Size(t)
  {
    match t
    case Leaf =>
    case Node(l, _, _, _, r) =>
      HalvedShape(l, cap);
      HalvedShape(r, cap);
  }

  lemma {:induction false} HalvedCounts(t: Tree, lo: int, hi: int, v: nat)
    requires Between(t, lo, hi)
    ensures Between(Halved(t), lo, hi)
    ensures Count(Halved(t), v) == Half(Count(t, v))
  {
    match t
    case Leaf =>
    case Node(l, _, x, _, r) =>
      HalvedCounts(l, lo, x, v);
      HalvedCounts(r, x, hi, v);
      BetweenCount(l, lo, x, v);
      BetweenCount(r, x, hi, v);
  }

  lemma {:induction false} HalvedLayout(t: Tree)
    ensures LayoutOf(Halved(t)) == LayoutOf(t)
  {
    match t
    case Leaf =>
    case Node(l, _, _, _, r) =>
      HalvedLayout(l);
      HalvedLayout(r);
  }

  lemma HalvedTabulates(t: Tree, c: Context)
    requires Sorted(t) && Tabulates(t, c.freq)
    ensures Sorted(Halved(t)) && Tabulates(Halved(t), Rescaled(c).freq)
  {
    forall v: nat | v < 0x100
      ensures Count(Halved(t), v) == Rescaled(c).freq[v]
    {
      HalvedCounts(t, -1, 0x100, v);
    }
    HalvedCounts(t, -1, 0x100, 0);
  }

  lemma {:induction false} SizeAtMostSum(t: Tree, cap: nat)
    requires CountsIn(t, cap)
    ensures Size(t) <= Sum(t)
  {
    match t
    case Leaf =>
    case Node(l, _, _, _, r) =>
      SizeAtMostSum(l, cap);
      SizeAtMostSum(r, cap);
  }

  lemma {:induction false} EndCounts(t: Tree, p: Route, cap: nat)
    requires CountsIn(t, cap) && Leads(t, p) && End(t, p).Node?
    ensures 1 <= End(t, p).count <= cap
    decreases t
  {
    if p != [] {
      if p[0] {
        EndCounts(t.left, p[1..], cap);
      } else {
        EndCounts(t.right, p[1..], cap);
      }
    }
  }

  lemma HalvedSum(t: Tree, cap: nat)
    requires Shaped(t) && CountsIn(t, cap)
    ensures Sum(Halved(t)) <= Sum(t)
  {
  }

  lemma {:induction false} SizeIsCardinality(t: Tree)
    requires Shaped(t)
    ensures Size(t) == |Nodes(t)|
  {
    match t
    case Leaf =>
    case Node(l, _, _, _, r) =>
      SizeIsCardinality(l);
      SizeIsCardinality(r);
  }

  // ----- the arena

  datatype Symbol = Symbol(value: uint8, count: uint8, under: uint16, left: uint16, right: uint16,
                           symbols: uint16, escapes: uint16, total: uint16, parent: uint16)

  function Fresh(value: uint8, count: uint8): Symbol {
    Symbol(value, count, count, 0, 0, 0, 0, 0, 0)
  }

  type Arena = seq<Symbol>

  /** The arena holds tree t, its root being offset entries above base (0: no tree). */
  ghost predicate Holds(a: Arena, base: nat, offset: nat, t: Tree)
    decreases t
  {
    match t
    case Leaf => offset == 0
    case Node(l, i, x, c, r) =>
      && offset != 0 && i == base + offset && i < |a|
      && a[i].value == x && a[i].count == c && a[i].under == Sum(l) + c
      && Holds(a, i, a[i].left, l)
      && Holds(a, i, a[i].right, r)
  }

  ghost predicate SameNode(s: Symbol, s': Symbol) {
    && s.value == s'.value && s.count == s'.count && s.under == s'.under
    && s.left == s'.left && s.right == s'.right
  }

  ghost predicate SameContext(s: Symbol, s': Symbol) {
    && s.symbols == s'.symbols && s.escapes == s'.escapes
    && s.total == s'.total && s.parent == s'.parent
  }

  ghost predicate Within(t: Tree, a: Arena) {
    forall j :: j in Nodes(t) ==> j < |a|
  }

  lemma {:induction false} HoldsInBounds(a: Arena, base: nat, offset: nat, t: Tree)
    requires Holds(a, base, offset, t)
    ensures Within(t, a)
    ensures forall j :: j in Nodes(t) ==> base < j < |a|
    decreases t
  {
    match t
    case Leaf =>
    case Node(l, i, _, _, r) =>
      HoldsInBounds(a, i, a[i].left, l);
      HoldsInBounds(a, i, a[i].right, r);
  }

  lemma {:induction false} HoldsFrame(a: Arena, b: Arena, base: nat, offset: nat, t: Tree)
    requires Holds(a, base, offset, t) && |a| <= |b|
    requires forall j :: j in Nodes(t) && j < |a| ==> SameNode(a[j], b[j])
    ensures Holds(b, base, offset, t)
    decreases t
  {
    match t
    case Leaf =>
    case Node(l, i, _, _, r) =>
      HoldsFrame(a, b, i, a[i].left, l);
      HoldsFrame(a, b, i, a[i].right, r);
  }

  lemma Parts(t: Tree, cap: nat)
    requires t.Node? && Shaped(t) && CountsIn(t, cap)
    ensures Shaped(t.left) && CountsIn(t.left, cap) && Shaped(t.right) && CountsIn(t.right, cap)
    ensures Sum(t) == Sum(t.left) + t.count + Sum(t.right) && 1 <= t.count <= cap
    ensures t.index !in Nodes(t.left) && t.index !in Nodes(t.right) && t.index in Nodes(t)
    ensures Nodes(t.left) !! Nodes(t.right) && Nodes(t.left) <= Nodes(t) && Nodes(t.right) <= Nodes(t)
  {
  }

  lemma HoldsParts(a: Arena, base: nat, offset: nat, t: Tree)
    requires t.Node?
    ensures var i := t.index;
            Holds(a, base, offset, t) <==>
            && offset != 0 && i == base + offset && i < |a|
            && a[i].value == t.value && a[i].count == t.count && a[i].under == Sum(t.left) + t.count
            && Holds(a, i, a[i].left, t.left)
            && Holds(a, i, a[i].right, t.right)
  {
  }

  lemma {:induction false} HoldsEnd(a: Arena, base: nat, offset: nat, t: Tree, p: Route)
    requires Holds(a, base, offset, t) && Leads(t, p) && End(t, p).Node?
    ensures var e := End(t, p); e.index in Nodes(t) && e.index < |a| && a[e.index].value == e.value && a[e.index].count == e.count
    decreases t
  {
    if p != [] {
      SubtreeNodes(t);
      if p[0] {
        HoldsEnd(a, t.index, a[t.index].left, t.left, p[1..]);
      } else {
        HoldsEnd(a, t.index, a[t.index].right, t.right, p[1..]);
      }
    }
  }

  /** The arena after the descent along p has added delta on its way, entry by entry. */
  ghost function Descended(a: Arena, t: Tree, p: Route, v: uint8, delta: uint8, next: nat): (b: Arena)
    requires t.Node? && Leads(t, p) && Within(t, a) && next < |a|
    ensures |b| == |a|
    decreases t
  {
    assert t.index in Nodes(t);
    var i, s := t.index, a[t.index];
    if p == [] then
      a[i := s.(under := Wrap16(s.under + delta), count := Wrap8(s.count + delta))]
    else if p[0] then
      var b := a[i := s.(under := Wrap16(s.under + delta))];
      if t.left.Node? then Descended(b, t.left, p[1..], v, delta, next)
      else
        var b' := b[next := Fresh(v, delta)];
        b'[i := b'[i].(left := Wrap16(next - i))]
    else
      if t.right.Node? then Descended(a, t.right, p[1..], v, delta, next)
      else
        var b' := a[next := Fresh(v, delta)];
        b'[i := b'[i].(right := Wrap16(next - i))]
  }

  lemma {:induction false} DescentFrame(a: Arena, t: Tree, p: Route, v: uint8, delta: uint8, next: nat)
    requires t.Node? && Leads(t, p) && Within(t, a) && Shaped(t)
    requires next < |a| && forall j :: j in Nodes(t) ==> j < next
    ensures var b := Descended(a, t, p, v, delta, next);
            && (forall j :: 0 <= j < |a| && j !in Nodes(t) && j != next ==> b[j] == a[j])
            && (forall j :: j in Nodes(t) ==> SameContext(a[j], b[j]))
            && b[next] == (if End(t, p).Leaf? then Fresh(v, delta) else a[next])
    decreases t
  {
    SubtreeNodes(t);
    var i, l, r := t.index, t.left, t.right;
    if p != [] && p[0] && l.Node? {
      DescentFrame(a[i := a[i].(under := Wrap16(a[i].under + delta))], l, p[1..], v, delta, next);
    }
    if p != [] && !p[0] && r.Node? {
      DescentFrame(a, r, p[1..], v, delta, next);
    }
  }

  /** A descent through the arena is a descent through the tree. */
  lemma {:induction false} DescentRefines(a: Arena, base: nat, offset: nat, t: Tree, p: Route,
                                          v: uint8, delta: uint8, next: nat, cap: nat)
    requires t.Node? && Leads(t, p) && Holds(a, base, offset, t) && Shaped(t)
    requires CountsIn(t, cap) && 1 <= delta && cap + delta < 0x100 && Sum(t) + delta < 0x1_0000
    requires next < |a| <= ARENA_SIZE && forall j :: j in Nodes(t) ==> j < next
    ensures Within(t, a)
    ensures Holds(Descended(a, t, p, v, delta, next), base, offset, Bump(t, p, v, delta, next))
    decreases t, 1
  {
    HoldsInBounds(a, base, offset, t);
    SubtreeNodes(t);
    var i, l, r := t.index, t.left, t.right;
    if p == [] {
      var b := Descended(a, t, p, v, delta, next);
      HoldsFrame(a, b, i, a[i].left, l);
      HoldsFrame(a, b, i, a[i].right, r);
    } else if p[0] {
      DescentLeft(a, base, offset, t, p, v, delta, next, cap);
    } else {
      DescentRight(a, base, offset, t, p, v, delta, next, cap);
    }
  }

  lemma {:induction false} DescentLeft(a: Arena, base: nat, offset: nat, t: Tree, p: Route,
                                       v: uint8, delta: uint8, next: nat, cap: nat)
    requires t.Node? && Leads(t, p) && Holds(a, base, offset, t) && Shaped(t) && p != [] && p[0]
    requires CountsIn(t, cap) && 1 <= delta && cap + delta < 0x100 && Sum(t) + delta < 0x1_0000
    requires next < |a| <= ARENA_SIZE && (forall j :: j in Nodes(t) ==> j < next) && Within(t, a)
    ensures Holds(Descended(a, t, p, v, delta, next), base, offset, Bump(t, p, v, delta, next))
    decreases t, 0
  {
    hide Holds, Shaped, Nodes, CountsIn, Sum, Bump, Descended;
    var i, l, r := t.index, t.left, t.right;
    Parts(t, cap);
    HoldsParts(a, base, offset, t);
    assert offset == i - base;
    TurnLeft(a, base, t, p, v, delta, next);
    var b := Descended(a, t, p, v, delta, next);
    var b0 := a[i := a[i].(under := Wrap16(a[i].under + delta))];
    var l' := Bump(l, p[1..], v, delta, next);
    BumpNodes(l, p[1..], v, delta, next);
    if l.Node? {
      DescentRefines(b0, i, a[i].left, l, p[1..], v, delta, next, cap);
      DescentFrame(b0, l, p[1..], v, delta, next);
    } else {
      FreshHolds(b, i, p[1..], v, delta, next);
    }
    HoldsFrame(a, b, i, a[i].right, r);
    BumpTurn(t, p, v, delta, next);
    HoldsParts(b, base, offset, Bump(t, p, v, delta, next));
  }

  lemma FreshHolds(b: Arena, i: nat, p: Route, v: uint8, delta: uint8, next: nat)
    requires i < next < |b| <= ARENA_SIZE && b[next] == Fresh(v, delta) && p == []
    ensures Holds(b, i, Wrap16(next - i), Bump(Leaf, p, v, delta, next))
    ensures Sum(Leaf) == 0
  {
  }

  lemma BumpTurn(t: Tree, p: Route, v: uint8, delta: nat, next: nat)
    requires t.Node? && p != [] && Leads(t, p)
    ensures p[0] ==> Leads(t.left, p[1..])
                     && Bump(t, p, v, delta, next) == Node(Bump(t.left, p[1..], v, delta, next), t.index, t.value, t.count, t.right)
    ensures !p[0] ==> Leads(t.right, p[1..])
                      && Bump(t, p, v, delta, next) == Node(t.left, t.index, t.value, t.count, Bump(t.right, p[1..], v, delta, next))
  {
  }

  lemma {:induction false} DescentRight(a: Arena, base: nat, offset: nat, t: Tree, p: Route,
                                        v: uint8, delta: uint8, next: nat, cap: nat)
    requires t.Node? && Leads(t, p) && Holds(a, base, offset, t) && Shaped(t) && p != [] && !p[0]
    requires CountsIn(t, cap) && 1 <= delta && cap + delta < 0x100 && Sum(t) + delta < 0x1_0000
    requires next < |a| <= ARENA_SIZE && (forall j :: j in Nodes(t) ==> j < next) && Within(t, a)
    ensures Holds(Descended(a, t, p, v, delta, next), base, offset, Bump(t, p, v, delta, next))
    decreases t, 0
  {
    hide Holds, Shaped, Nodes, CountsIn, Sum, Bump, Descended;
    var i, l, r := t.index, t.left, t.right;
    Parts(t, cap);
    HoldsParts(a, base, offset, t);
    assert offset == i - base;
    TurnRight(a, base, t, p, v, delta, next);
    var b := Descended(a, t, p, v, delta, next);
    BumpNodes(r, p[1..], v, delta, next);
    if r.Node? {
      DescentRefines(a, i, a[i].right, r, p[1..], v, delta, next, cap);
      DescentFrame(a, r, p[1..], v, delta, next);
    } else {
      FreshHolds(b, i, p[1..], v, delta, next);
    }
    HoldsFrame(a, b, i, a[i].left, l);
    BumpTurn(t, p, v, delta, next);
    HoldsParts(b, base, offset, Bump(t, p, v, delta, next));
  }

  /** The arena once node i and its left subtree l are done. */
  ghost function RescaledLeft(a: Arena, i: nat, l: Tree): (b: Arena)
    requires i < |a| && Within(l, a)
    ensures |b| == |a|
    decreases l, 1
  {
    var count := Half(a[i].count);
    var b := RescaledArena(a[i := a[i].(count := count, under := count)], l);
    b[i := b[i].(under := Wrap16(count + Sum(Halved(l))))]
  }

  /** The arena after enet_symbol_rescale has gone through tree t. */
  ghost function RescaledArena(a: Arena, t: Tree): (b: Arena)
    requires Within(t, a)
    ensures |b| == |a|
    decreases t, 0
  {
    match t
    case Leaf => a
    case Node(l, i, _, _, r) =>
      assert i in Nodes(t);
      RescaledArena(RescaledLeft(a, i, l), r)
  }

  lemma {:induction false} RescaleFrame(a: Arena, t: Tree)
    requires Within(t, a)
    ensures var b := RescaledArena(a, t);
            && (forall j :: 0 <= j < |a| && j !in Nodes(t) ==> b[j] == a[j])
            && (forall j :: j in Nodes(t) ==> SameContext(a[j], b[j]))
    decreases t
  {
    match t
    case Leaf =>
    case Node(l, i, _, _, r) =>
      SubtreeNodes(t);
      var count := Half(a[i].count);
      var a1 := a[i := a[i].(count := count, under := count)];
      RescaleFrame(a1, l);
      var a2 := RescaledArena(a1, l);
      RescaleFrame(a2[i := a2[i].(under := Wrap16(count + Sum(Halved(l))))], r);
  }

  lemma {:induction false} RescaleRefines(a: Arena, base: nat, offset: nat, t: Tree, cap: nat)
    requires Holds(a, base, offset, t) && Shaped(t) && CountsIn(t, cap) && Sum(t) < 0x1_0000
    ensures Within(t, a)
    ensures Holds(RescaledArena(a, t), base, offset, Halved(t))
    decreases t, 1
  {
    hide Holds, Shaped, Nodes, CountsIn, Sum, Halved, RescaledArena, RescaledLeft;
    HoldsInBounds(a, base, offset, t);
    if t.Leaf? {
      RescaledLeafHolds(a, base, offset);
    } else {
      var i, l, r := t.index, t.left, t.right;
      Parts(t, cap);
      HoldsParts(a, base, offset, t);
      RescaleLeftRefines(a, base, offset, t, cap);
      var a3 := RescaledLeft(a, i, l);
      RescaleFrame(a3, r);
      RescaledTurn(a, t);
      var a4 := RescaledArena(a3, r);
      RescaleRefines(a3, i, a[i].right, r, cap);
      HalvedNodes(l);
      HoldsFrame(a3, a4, i, a[i].left, Halved(l));
      HoldsParts(a4, base, offset, Halved(t));
    }
  }

  lemma RescaledLeafHolds(a: Arena, base: nat, offset: nat)
    ensures Within(Leaf, a) && RescaledArena(a, Leaf) == a
    ensures Holds(a, base, offset, Leaf) ==> Holds(a, base, offset, Halved(Leaf))
  {
  }

  lemma RescaledTurn(a: Arena, t: Tree)
    requires t.Node? && Within(t, a) && Within(t.left, a) && t.index < |a|
    requires Within(t.right, RescaledLeft(a, t.index, t.left))
    ensures RescaledArena(a, t) == RescaledArena(RescaledLeft(a, t.index, t.left), t.right)
    ensures Halved(t) == Node(Halved(t.left), t.index, t.value, Half(t.count), Halved(t.right))
  {
  }

  lemma HalfAtMost(n: nat)
    ensures Half(n) <= n
  {
  }

  lemma {:induction false} RescaleLeftRefines(a: Arena, base: nat, offset: nat, t: Tree, cap: nat)
    requires t.Node? && Holds(a, base, offset, t) && Shaped(t) && CountsIn(t, cap) && Sum(t) < 0x1_0000
    requires Within(t, a) && Within(t.left, a)
    ensures var i, b := t.index, RescaledLeft(a, t.index, t.left);
            && b[i].value == t.value && b[i].left == a[i].left && b[i].right == a[i].right
            && b[i].count == Half(t.count) && b[i].under == Half(t.count) + Sum(Halved(t.left))
            && Holds(b, i, a[i].left, Halved(t.left))
            && Holds(b, i, a[i].right, t.right)
    decreases t, 0
  {
    hide Holds, Shaped, Nodes, CountsIn, Sum, Halved, RescaledArena, Half;
    var i, l, r := t.index, t.left, t.right;
    Parts(t, cap);
    HoldsParts(a, base, offset, t);
    HalfAtMost(a[i].count);
    var count := Half(a[i].count);
    var a1 := a[i := a[i].(count := count, under := count)];
    RescaleFrame(a1, l);
    var a2, b := RescaledArena(a1, l), RescaledLeft(a, i, l);
    HalvedNodes(l);
    HalvedSum(l, cap);
    HoldsFrame(a, a1, i, a[i].left, l);
    RescaleRefines(a1, i, a[i].left, l, cap);
    HoldsFrame(a2, b, i, a[i].left, Halved(l));
    HoldsFrame(a, b, i, a[i].right, r);
    NoWrap16(count + Sum(Halved(l)));
  }

  lemma {:induction false} HalvedNodes(t: Tree)
    ensures Nodes(Halved(t)) == Nodes(t)
  {
    match t
    case Leaf =>
    case Node(l, _, _, _, r) =>
      HalvedNodes(l);
      HalvedNodes(r);
  }

  // ----- one turn of each loop over the arena

  lemma TurnLeft(a: Arena, base: nat, t: Tree, p: Route, v: uint8, delta: uint8, next: nat)
    requires t.Node? && base < t.index && Holds(a, base, t.index - base, t) && Shaped(t)
    requires Leads(t, p) && p != [] && p[0]
    requires next < |a| && Within(t, a)
    ensures var i, l := t.index, t.left;
            var b := a[i := a[i].(under := Wrap16(a[i].under + delta))];
            && Holds(b, i, a[i].left, l) && Within(l, b)
            && Shaped(l) && Nodes(l) <= Nodes(t) && (l.Leaf? <==> a[i].left == 0) && b[i].left == a[i].left
            && (l.Node? ==> i < l.index == i + a[i].left < |a|
                            && Descended(a, t, p, v, delta, next) == Descended(b, l, p[1..], v, delta, next))
            && End(t, p) == End(l, p[1..]) && Along(t, p) == Along(l, p[1..])
            && (l.Leaf? ==> a[i].under == a[i].count)
            && (l.Leaf? ==> End(t, p) == Leaf && Along(t, p) == 0 && Descended(a, t, p, v, delta, next)
                            == b[next := Fresh(v, delta)][i := b[next := Fresh(v, delta)][i].(left := Wrap16(next - i))])
  {
    SubtreeNodes(t);
    var i, l := t.index, t.left;
    HoldsFrame(a, a[i := a[i].(under := Wrap16(a[i].under + delta))], i, a[i].left, l);
  }

  lemma TurnRight(a: Arena, base: nat, t: Tree, p: Route, v: uint8, delta: uint8, next: nat)
    requires t.Node? && base < t.index && Holds(a, base, t.index - base, t) && Shaped(t)
    requires Leads(t, p) && p != [] && !p[0]
    requires next < |a| && Within(t, a)
    ensures var i, r := t.index, t.right;
            && Holds(a, i, a[i].right, r) && Within(r, a)
            && Shaped(r) && Nodes(r) <= Nodes(t) && (r.Leaf? <==> a[i].right == 0)
            && (r.Node? ==> i < r.index == i + a[i].right < |a|
                            && Descended(a, t, p, v, delta, next) == Descended(a, r, p[1..], v, delta, next))
            && End(t, p) == End(r, p[1..]) && Along(t, p) == a[i].under + Along(r, p[1..])
            && (r.Leaf? ==> End(t, p) == Leaf && Along(t, p) == a[i].under && Descended(a, t, p, v, delta, next)
                            == a[next := Fresh(v, delta)][i := a[next := Fresh(v, delta)][i].(right := Wrap16(next - i))])
  {
    SubtreeNodes(t);
  }

  lemma TurnFound(a: Arena, base: nat, t: Tree, p: Route, v: uint8, delta: uint8, next: nat)
    requires t.Node? && base < t.index && Holds(a, base, t.index - base, t) && Shaped(t)
    requires p == [] && next < |a| && Within(t, a)
    ensures var i := t.index;
            && End(t, p) == t && Along(t, p) + a[i].count == a[i].under && a[i].count == t.count
            && Descended(a, t, p, v, delta, next)
               == a[i := a[i].(under := Wrap16(a[i].under + delta), count := Wrap8(a[i].count + delta))]
  {
  }

  lemma HoldsRoot(a: Arena, base: nat, t: Tree)
    requires t.Node? && base < t.index && Holds(a, base, t.index - base, t)
    ensures t.index in Nodes(t) && t.index < |a| && a[t.index].value == t.value
  {
  }

  lemma SumParts(a: Arena, base: nat, t: Tree)
    requires t.Node? && base < t.index && Holds(a, base, t.index - base, t)
    ensures a[t.index].under + Sum(t.right) == Sum(t) && a[t.index].under == Sum(t.left) + t.count == Under(t)
    ensures a[t.index].count == t.count
  {
  }

  lemma RescaleTurn(a: Arena, base: nat, t: Tree, cap: nat)
    requires t.Node? && base < t.index && Holds(a, base, t.index - base, t) && Shaped(t)
    requires CountsIn(t, cap) && Sum(t) < 0x1_0000
    ensures t.index < |a| && Within(t, a)
    ensures var i, l, r := t.index, t.left, t.right;
            var b := a[i := a[i].(count := Half(a[i].count), under := Half(a[i].count))];
            && Within(l, b) && Holds(b, i, a[i].left, l)
            && (l.Leaf? <==> a[i].left == 0)
            && (l.Node? ==> i < l.index == i + a[i].left)
            && RescaledArena(b, l)[i] == b[i]
            && (l.Leaf? ==> RescaledArena(b, l) == b && Sum(Halved(l)) == 0)
            && Shaped(l) && CountsIn(l, cap) && Sum(l) < 0x1_0000 && Size(l) < Size(t)
  {
    SubtreeNodes(t);
    HoldsInBounds(a, base, t.index - base, t);
    var i, l := t.index, t.left;
    var b := a[i := a[i].(count := Half(a[i].count), under := Half(a[i].count))];
    HoldsFrame(a, b, i, a[i].left, l);
    RescaleFrame(b, l);
  }

  lemma RescaleTurnRight(a: Arena, base: nat, t: Tree, cap: nat)
    requires t.Node? && base < t.index && Holds(a, base, t.index - base, t) && Shaped(t)
    requires CountsIn(t, cap) && Sum(t) < 0x1_0000
    ensures Within(t, a) && Within(t.left, a)
    ensures var i, r := t.index, t.right;
            var b := RescaledLeft(a, i, t.left);
            && b[i].right == a[i].right && b[i].under == Sum(Halved(t)) - Sum(Halved(r))
            && Within(r, b) && Holds(b, i, a[i].right, r)
            && (r.Leaf? <==> a[i].right == 0) && Size(r) < Size(t)
            && (r.Node? ==> i < r.index == i + a[i].right < |a|)
            && RescaledArena(a, t) == RescaledArena(b, r)
            && (r.Leaf? ==> RescaledArena(a, t) == b && Sum(Halved(r)) == 0)
            && Shaped(r) && CountsIn(r, cap) && Sum(r) < 0x1_0000
  {
    SubtreeNodes(t);
    HoldsInBounds(a, base, t.index - base, t);
    RescaleLeftRefines(a, base, t.index - base, t, cap);
  }
}
