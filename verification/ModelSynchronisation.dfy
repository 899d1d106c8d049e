/** The compressor and the decompressor allocate their symbols in different orders. Their arenas are nevertheless
    equal up to a renaming of the indices whenever both tell the same prediction model. */
module ModelSynchronisation {
  import opened Integers
  import opened PredictionModel
  import opened ContextTree
  import opened SymbolArena

  /** What holds of either coder's arena between two bytes. */
  ghost predicate Modelled(a: Arena, s: Shape, contexts: map<History, Context>) {
    Wf(a, s) && Balanced(a, s, -1) && Linked(a, s, -1) && Tells(a, s, contexts)
  }

  /** r gives the index in (b, s') of every symbol of (a, s): a bijection under which the arenas are the same. */
  ghost predicate Renamed(a: Arena, s: Shape, b: Arena, s': Shape, r: seq<nat>) {
    var n := |s.paths|;
    && 1 <= n == |s.trees| == |s'.paths| == |s'.trees| == |r| && n <= |a| && n <= |b|
    && (forall i :: 0 <= i < n ==> r[i] < n)
    && (forall i, j :: 0 <= i < j < n ==> r[i] != r[j])
    && r[0] == 0
    && (forall i :: 0 <= i < n ==> SameSymbol(a, s, b, s', r, i))
    && (forall i :: 0 <= i < n ==> SameLink(i, a[i].symbols, b[r[i]].symbols, r))
    && (forall i :: 0 < i < n ==> SameNodes(a, b, r, i))
  }

  /** An offset from symbol i, or 0 for none, is renamed along. */
  ghost predicate SameLink(i: nat, offset: nat, offset': nat, r: seq<nat>)
    requires i < |r|
  {
    && (offset == 0 <==> offset' == 0)
    && (offset != 0 ==> i + offset < |r| && r[i] + offset' == r[i + offset])
  }

  /** A symbol as a node of its tree: the same sums, and the same neighbours. */
  ghost predicate SameNodes(a: Arena, b: Arena, r: seq<nat>, i: nat)
    requires i < |r| <= |a| && r[i] < |b|
  {
    && b[r[i]].under == a[i].under
    && SameLink(i, a[i].left, b[r[i]].left, r)
    && SameLink(i, a[i].right, b[r[i]].right, r)
  }

  /** The same bytes, escapes and total, the same value, count and parent, and the same symbols in its context. */
  ghost predicate SameSymbol(a: Arena, s: Shape, b: Arena, s': Shape, r: seq<nat>, i: nat)
    requires i < |s.paths| == |s.trees| == |s'.paths| == |s'.trees| == |r| && |r| <= |a| && |r| <= |b|
    requires forall i :: 0 <= i < |r| ==> r[i] < |r|
  {
    && s'.paths[r[i]] == s.paths[i]
    && b[r[i]].escapes == a[i].escapes && b[r[i]].total == a[i].total
    && (forall v :: 0 <= v < 0x100 ==> Count(s'.trees[r[i]], v) == Count(s.trees[i], v))
    && (i > 0 ==> && a[i].parent < |r| && b[r[i]].parent == r[a[i].parent]
                  && b[r[i]].value == a[i].value && b[r[i]].count == a[i].count)
    && (forall j :: 0 <= j < |r| ==> (j in Nodes(s.trees[i]) <==> r[j] in Nodes(s'.trees[r[i]])))
  }

  /** A byte that a context knows has its symbol there, and nowhere else. */
  lemma SymbolOf(a: Arena, s: Shape, contexts: map<History, Context>, c: nat, v: uint8) returns (m: nat)
    requires Modelled(a, s, contexts) && c < |s.paths| && Lookup(contexts, s.paths[c]).freq[v] > 0
    ensures c < |s.trees| && m < |s.paths| && m < |a| && m in Nodes(s.trees[c]) && s.paths[m] == s.paths[c] + [v]
    ensures a[m].value == v && a[m].count == Lookup(contexts, s.paths[c]).freq[v]
  {
    hide Holds, Shaped, End, Search, Linked, Leads;
    var t := s.trees[c];
    TellsAt(a, s, contexts, c);
    BalancedAt(a, s, c);
    TabulatesAt(t, Lookup(contexts, s.paths[c]).freq, v);
    SearchFinds(t, -1, 0x100, v, Cap(c), 1, 0);
    HoldsEnd(a, c, a[c].symbols, t, Search(t, v));
    m := End(t, Search(t, v)).index;
    assert Named(a, s, c);
  }

  /** Every symbol but the root is the symbol of its last byte in the context of the bytes before. */
  lemma SymbolContext(a: Arena, s: Shape, contexts: map<History, Context>, i: nat) returns (c: nat, v: uint8)
    requires Modelled(a, s, contexts) && 0 < i < |s.paths|
    ensures c < |s.paths| == |s.trees| <= |a| && s.paths[i] == s.paths[c] + [v] && i in Nodes(s.trees[c])
    ensures Lookup(contexts, s.paths[c]).freq[v] > 0
    ensures a[i].value == v && a[i].count == Lookup(contexts, s.paths[c]).freq[v]
  {
    hide Nodes, Wf, Balanced, Linked, TellsContext;
    WfSizes(a, s);
    var p := s.paths[i];
    assert Seen(contexts, p);
    var k := p[..|p| - 1];
    v := p[|p| - 1];
    assert p == k + [v];
    assert k in contexts;
    c :| c < |s.paths| && s.paths[c] == k;
    var m := SymbolOf(a, s, contexts, c, v);
    SamePath(a, s, contexts, i, m);
  }

  lemma SamePath(a: Arena, s: Shape, contexts: map<History, Context>, i: nat, j: nat)
    requires Tells(a, s, contexts) && i < |s.paths| && j < |s.paths| && s.paths[i] == s.paths[j]
    ensures i == j
  {
  }

  /** An arena's symbols are exactly the histories its model has seen. */
  lemma Counterpart(a: Arena, s: Shape, b: Arena, s': Shape, contexts: map<History, Context>, i: nat) returns (j: nat)
    requires Modelled(a, s, contexts) && Modelled(b, s', contexts) && i < |s.paths|
    ensures |s.trees| == |s.paths| <= |a| && |s'.trees| == |s'.paths| <= |b|
    ensures j < |s'.paths| && s'.paths[j] == s.paths[i] && (j == 0 <==> i == 0)
    ensures i > 0 ==> b[j].value == a[i].value && b[j].count == a[i].count
  {
    hide Modelled;
    ModelledSizes(a, s, contexts);
    ModelledSizes(b, s', contexts);
    if i == 0 {
      j := 0;
    } else {
      var c, v := SymbolContext(a, s, contexts, i);
      var k := s.paths[c];
      var c' := ContextOf(b, s', contexts, k, v);
      j := SymbolOf(b, s', contexts, c', v);
    }
  }

  lemma ModelledSizes(a: Arena, s: Shape, contexts: map<History, Context>)
    requires Modelled(a, s, contexts)
    ensures |a| == ARENA_SIZE && 1 <= |s.paths| == |s.trees| <= ARENA_SIZE
    ensures s.paths[0] == [] && forall i :: 0 < i < |s.paths| ==> s.paths[i] != []
  {
  }

  lemma ContextOf(b: Arena, s': Shape, contexts: map<History, Context>, k: History, v: uint8) returns (c: nat)
    requires Modelled(b, s', contexts) && Lookup(contexts, k).freq[v] > 0
    ensures c < |s'.paths| && s'.paths[c] == k
  {
    assert k in contexts;
    c :| c < |s'.paths| && s'.paths[c] == k;
  }

  lemma RenamedContext(a: Arena, s: Shape, b: Arena, s': Shape, contexts: map<History, Context>, i: nat, j: nat)
    requires Modelled(a, s, contexts) && Modelled(b, s', contexts)
    requires i < |s.paths| && j < |s'.paths| && s'.paths[j] == s.paths[i] && (i == 0 <==> j == 0)
    ensures i < |s.trees| && j < |s'.trees| && i < |a| && j < |b|
    ensures b[j].escapes == a[i].escapes && b[j].total == a[i].total
    ensures forall v :: 0 <= v < 0x100 ==> Count(s'.trees[j], v) == Count(s.trees[i], v)
  {
    hide Wf, Linked, Sorted, Total;
    var d := Lookup(contexts, s.paths[i]);
    TellsAt(a, s, contexts, i);
    TellsAt(b, s', contexts, j);
    TellsTotal(a, s.trees[i], i, d);
    TellsTotal(b, s'.trees[j], j, d);
    BalancedAt(a, s, i);
    BalancedAt(b, s', j);
    forall v | 0 <= v < 0x100
      ensures Count(s'.trees[j], v) == Count(s.trees[i], v)
    {
      TabulatesAt(s.trees[i], d.freq, v);
      TabulatesAt(s'.trees[j], d.freq, v);
    }
  }

  /** Two symbols stand in the same context exactly when their bytes differ in the last byte only. */
  lemma InTree(a: Arena, s: Shape, contexts: map<History, Context>, i: nat, j: nat)
    requires Modelled(a, s, contexts) && i < |s.paths| && j < |s.paths|
    ensures i < |s.trees| && (j in Nodes(s.trees[i]) <==> s.paths[j] != [] && s.paths[j][..|s.paths[j]| - 1] == s.paths[i])
  {
    hide Holds, Shaped, Balanced, Linked, TellsContext;
    if j in Nodes(s.trees[i]) {
      assert Named(a, s, i);
      assert s.paths[j][..|s.paths[j]| - 1] == s.paths[i];
    }
    if s.paths[j] != [] && s.paths[j][..|s.paths[j]| - 1] == s.paths[i] {
      var c, v := SymbolContext(a, s, contexts, j);
      assert s.paths[j][..|s.paths[j]| - 1] == s.paths[c];
      SamePath(a, s, contexts, c, i);
    }
  }

  ghost function Place(s': Shape, p: History): (j: nat)
    requires exists j :: 0 <= j < |s'.paths| && s'.paths[j] == p
    ensures j < |s'.paths| && s'.paths[j] == p
  {
    var j :| 0 <= j < |s'.paths| && s'.paths[j] == p;
    j
  }

  lemma Placed(a: Arena, s: Shape, b: Arena, s': Shape, contexts: map<History, Context>)
    requires Modelled(a, s, contexts) && Modelled(b, s', contexts)
    ensures forall i :: 0 <= i < |s.paths| ==> exists j :: 0 <= j < |s'.paths| && s'.paths[j] == s.paths[i]
  {
    forall i | 0 <= i < |s.paths|
      ensures exists j :: 0 <= j < |s'.paths| && s'.paths[j] == s.paths[i]
    {
      var j := Counterpart(a, s, b, s', contexts, i);
    }
  }

  /** The renaming itself. */
  ghost function Renaming(s: Shape, s': Shape): (r: seq<nat>)
    requires forall i :: 0 <= i < |s.paths| ==> exists j :: 0 <= j < |s'.paths| && s'.paths[j] == s.paths[i]
  {
    seq(|s.paths|, i requires 0 <= i < |s.paths| => Place(s', s.paths[i]))
  }

  lemma SameSymbols(a: Arena, s: Shape, b: Arena, s': Shape, contexts: map<History, Context>, r: seq<nat>, i: nat)
    requires Modelled(a, s, contexts) && Modelled(b, s', contexts)
    requires i < |s.paths| == |s.trees| == |s'.paths| == |s'.trees| == |r| && |r| <= |a| && |r| <= |b|
    requires forall i :: 0 <= i < |r| ==> r[i] < |r| && s'.paths[r[i]] == s.paths[i]
    ensures SameSymbol(a, s, b, s', r, i)
  {
    hide Wf, Balanced, Modelled, TellsContext, Tells;
    ModelledSizes(a, s, contexts);
    ModelledSizes(b, s', contexts);
    var j := Counterpart(a, s, b, s', contexts, i);
    ModelledPath(b, s', contexts, j, r[i]);
    RenamedContext(a, s, b, s', contexts, i, r[i]);
    if i > 0 {
      ModelledParent(a, s, contexts, i);
      ModelledParent(b, s', contexts, r[i]);
      ModelledPath(b, s', contexts, b[r[i]].parent, r[a[i].parent]);
    }
    forall j | 0 <= j < |r|
      ensures j in Nodes(s.trees[i]) <==> r[j] in Nodes(s'.trees[r[i]])
    {
      InTree(a, s, contexts, i, j);
      InTree(b, s', contexts, r[i], r[j]);
    }
  }

  /** Each node of the tree stands for the bytes of its context and its own. */
  ghost predicate NamedTree(s: Shape, k: History, t: Tree) {
    match t
    case Leaf => true
    case Node(l, i, x, _, r) => i < |s.paths| && s.paths[i] == k + [x] && NamedTree(s, k, l) && NamedTree(s, k, r)
  }

  lemma {:induction false} NodesNamed(a: Arena, s: Shape, k: History, base: nat, offset: nat, t: Tree)
    requires Holds(a, base, offset, t) && |s.paths| <= |a|
    requires forall j :: j in Nodes(t) ==> j < |s.paths| && s.paths[j] == k + [a[j].value]
    ensures NamedTree(s, k, t)
    decreases t
  {
    match t
    case Leaf =>
    case Node(l, i, _, _, r) =>
      SubtreeNodes(t);
      NodesNamed(a, s, k, i, a[i].left, l);
      NodesNamed(a, s, k, i, a[i].right, r);
  }

  /** The trees are the same under r. */
  ghost predicate RenamedTree(t: Tree, t': Tree, r: seq<nat>) {
    match t
    case Leaf => t' == Leaf
    case Node(l, i, x, c, u) =>
      && t'.Node? && i < |r| && t'.index == r[i] && t'.value == x && t'.count == c
      && RenamedTree(l, t'.left, r) && RenamedTree(u, t'.right, r)
  }

  /** Trees that branch alike, by bytes, and stand for the same bytes are the same under the renaming. */
  lemma {:induction false} SameTrees(a: Arena, s: Shape, b: Arena, s': Shape, contexts: map<History, Context>, r: seq<nat>, k: History,
                                     base: nat, offset: nat, t: Tree, base': nat, offset': nat, t': Tree)
    requires Modelled(b, s', contexts) && |s.paths| == |s'.paths| == |r| <= |a| == |b|
    requires forall i :: 0 <= i < |r| ==> r[i] < |r| && s'.paths[r[i]] == s.paths[i]
    requires forall i :: 0 < i < |r| ==> b[r[i]].count == a[i].count
    requires LayoutOf(t) == LayoutOf(t') && NamedTree(s, k, t) && NamedTree(s', k, t')
    requires Holds(a, base, offset, t) && Holds(b, base', offset', t')
    ensures RenamedTree(t, t', r)
    decreases t
  {
    hide Modelled;
    if t.Node? {
      ModelledPath(b, s', contexts, t'.index, r[t.index]);
      SameTrees(a, s, b, s', contexts, r, k, t.index, a[t.index].left, t.left, t'.index, b[t'.index].left, t'.left);
      SameTrees(a, s, b, s', contexts, r, k, t.index, a[t.index].right, t.right, t'.index, b[t'.index].right, t'.right);
    }
  }

  lemma {:induction false} SameSums(t: Tree, t': Tree, r: seq<nat>)
    requires RenamedTree(t, t', r)
    ensures Sum(t) == Sum(t')
  {
    if t.Node? {
      SameSums(t.left, t'.left, r);
      SameSums(t.right, t'.right, r);
    }
  }

  /** What that says of the arenas. */
  lemma {:induction false} SameLinks(a: Arena, b: Arena, r: seq<nat>, base: nat, offset: nat, t: Tree, base': nat, offset': nat, t': Tree)
    requires |r| <= |a| == |b| && (forall i :: 0 <= i < |r| ==> r[i] < |r|)
    requires base < |r| && base' == r[base] && RenamedTree(t, t', r)
    requires Holds(a, base, offset, t) && Holds(b, base', offset', t')
    ensures SameLink(base, offset, offset', r)
    ensures forall j :: j in Nodes(t) ==> j < |r| && SameNodes(a, b, r, j)
    decreases t
  {
    if t.Node? {
      SameSums(t.left, t'.left, r);
      SameLinks(a, b, r, t.index, a[t.index].left, t.left, t'.index, b[t'.index].left, t'.left);
      SameLinks(a, b, r, t.index, a[t.index].right, t.right, t'.index, b[t'.index].right, t'.right);
    }
  }

  lemma ContextTold(a: Arena, s: Shape, contexts: map<History, Context>, c: nat)
    requires Modelled(a, s, contexts) && c < |s.paths|
    ensures |s.trees| == |s.paths| <= |a| && Holds(a, c, a[c].symbols, s.trees[c]) && NamedTree(s, s.paths[c], s.trees[c])
    ensures LayoutOf(s.trees[c]) == Lookup(contexts, s.paths[c]).layout
  {
    hide Holds, Shaped, Balanced, Linked, Lookup;
    TellsAt(a, s, contexts, c);
    assert Named(a, s, c);
    NodesNamed(a, s, s.paths[c], c, a[c].symbols, s.trees[c]);
  }

  lemma SameContexts(a: Arena, s: Shape, b: Arena, s': Shape, contexts: map<History, Context>, r: seq<nat>, c: nat)
    requires Modelled(a, s, contexts) && Modelled(b, s', contexts) && c < |s.paths| == |s'.paths| == |r|
    requires forall i :: 0 <= i < |r| ==> r[i] < |r| && s'.paths[r[i]] == s.paths[i]
    ensures |s.trees| == |r| <= |a| == |b| && SameLink(c, a[c].symbols, b[r[c]].symbols, r)
    ensures forall j :: j in Nodes(s.trees[c]) ==> j < |r| && SameNodes(a, b, r, j)
  {
    hide Modelled, Holds, NamedTree, LayoutOf, SameLink, SameNodes;
    ModelledSizes(a, s, contexts);
    ModelledSizes(b, s', contexts);
    ContextTold(a, s, contexts, c);
    ContextTold(b, s', contexts, r[c]);
    forall i | 0 < i < |r|
      ensures b[r[i]].count == a[i].count
    {
      var j := Counterpart(a, s, b, s', contexts, i);
      ModelledPath(b, s', contexts, j, r[i]);
    }
    var t, t' := s.trees[c], s'.trees[r[c]];
    SameTrees(a, s, b, s', contexts, r, s.paths[c], c, a[c].symbols, t, r[c], b[r[c]].symbols, t');
    SameLinks(a, b, r, c, a[c].symbols, t, r[c], b[r[c]].symbols, t');
  }

  lemma ModelledPath(a: Arena, s: Shape, contexts: map<History, Context>, i: nat, j: nat)
    requires Modelled(a, s, contexts) && i < |s.paths| && j < |s.paths| && s.paths[i] == s.paths[j]
    ensures i == j
  {
    SamePath(a, s, contexts, i, j);
  }

  lemma ModelledParent(a: Arena, s: Shape, contexts: map<History, Context>, i: nat)
    requires Modelled(a, s, contexts) && 0 < i < |s.paths|
    ensures i < |a| && a[i].parent < |s.paths| && s.paths[i] != [] && s.paths[a[i].parent] == s.paths[i][1..]
  {
  }

  /** Coders in step agree on everything but the order of their symbols, down to the links of every search tree. */
  lemma ArenasAgree(a: Arena, s: Shape, b: Arena, s': Shape, contexts: map<History, Context>) returns (r: seq<nat>)
    requires Modelled(a, s, contexts) && Modelled(b, s', contexts) && |s.paths| == |s'.paths|
    ensures Renamed(a, s, b, s', r)
  {
    hide Modelled, SameSymbol, SameNodes, SameLink;
    ModelledSizes(a, s, contexts);
    ModelledSizes(b, s', contexts);
    Placed(a, s, b, s', contexts);
    r := Renaming(s, s');
    forall i, j | 0 <= i < j < |r|
      ensures r[i] != r[j]
    {
      if r[i] == r[j] {
        ModelledPath(a, s, contexts, i, j);
      }
    }
    forall i | 0 <= i < |r|
      ensures SameSymbol(a, s, b, s', r, i)
    {
      SameSymbols(a, s, b, s', contexts, r, i);
    }
    forall i | 0 <= i < |r|
      ensures SameLink(i, a[i].symbols, b[r[i]].symbols, r) && (i > 0 ==> SameNodes(a, b, r, i))
    {
      SameContexts(a, s, b, s', contexts, r, i);
      if i > 0 {
        var c, v := SymbolContext(a, s, contexts, i);
        SameContexts(a, s, b, s', contexts, r, c);
      }
    }
    ModelledPath(b, s', contexts, r[0], 0);
  }
}
