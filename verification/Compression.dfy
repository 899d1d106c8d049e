/** The adaptive range coder itself: compress and decompress over one arena of 4096 symbols. */
module Compression {
  import opened Integers
  import opened Options
  import opened RangeCoding
  import opened PredictionModel
  import opened ContextTree
  import opened SymbolArena
  import opened CoderLoops
  import opened UniqueDecoding
  import opened InputBuffers

  class RangeCoder {
    const symbols: array<Symbol>
    ghost var shape: Shape

    constructor ()
      ensures fresh(symbols) && symbols.Length == ARENA_SIZE
    {
      symbols := new Symbol[ARENA_SIZE](_ => Fresh(0, 0));
      shape := Shape([], []);
    }

    /** enet_symbol_rescale: recursive to the left, a loop to the right. */
    method Rescale(symbol: nat, ghost base: nat, ghost t: Tree, ghost cap: nat) returns (total: uint16)
      requires t.Node? && base < symbol == t.index && Holds(symbols[..], base, symbol - base, t)
      requires Shaped(t) && CountsIn(t, cap) && Sum(t) < 0x1_0000
      modifies symbols
      ensures Within(t, old(symbols[..])) && symbols[..] == RescaledArena(old(symbols[..]), t)
      ensures total == Sum(Halved(t))
      decreases Size(t), 1
    {
      hide Holds, Shaped, Nodes, CountsIn, RescaledArena, RescaledLeft, Halved, Sum, Size;
      var node := symbol;
      ghost var rest: Tree, above: nat := t, base;
      total := 0;
      HoldsInBounds(symbols[..], base, symbol - base, t);
      HoldsRoot(symbols[..], base, t);
      HalvedSum(t, cap);
      while true
        invariant Size(rest) <= Size(t)
        invariant rest.Node? && above < node == rest.index < symbols.Length
        invariant Holds(symbols[..], above, node - above, rest) && Within(rest, symbols[..])
        invariant Shaped(rest) && CountsIn(rest, cap) && Sum(rest) < 0x1_0000
        invariant RescaledArena(symbols[..], rest) == RescaledArena(old(symbols[..]), t)
        invariant total + Sum(Halved(rest)) == Sum(Halved(t)) < 0x1_0000
        decreases rest
      {
        RescaleTurnRight(symbols[..], above, rest, cap);
        ghost var b := RescaledLeft(symbols[..], node, rest.left);
        RescaleNode(node, above, rest, cap);
        assert symbols[node] == b[node];
        NoWrap16(total + symbols[node].under);
        total := Wrap16(total + symbols[node].under);
        assert total + Sum(Halved(rest.right)) == Sum(Halved(t));
        if symbols[node].right == 0 { break; }
        rest, above := rest.right, node;
        node := node + symbols[node].right;
      }
    }

    /** One turn of that loop: halve the node, then rescale below it to the left. */
    method RescaleNode(node: nat, ghost base: nat, ghost t: Tree, ghost cap: nat)
      requires t.Node? && base < node == t.index && Holds(symbols[..], base, node - base, t)
      requires Shaped(t) && CountsIn(t, cap) && Sum(t) < 0x1_0000
      modifies symbols
      ensures node < symbols.Length && Within(t.left, old(symbols[..]))
      ensures symbols[..] == RescaledLeft(old(symbols[..]), node, t.left)
      decreases Size(t), 0
    {
      hide Holds, Shaped, Nodes, CountsIn, RescaledArena, Halved, Sum, Size;
      ghost var a := symbols[..];
      RescaleTurn(a, base, t, cap);
      var count := Half(symbols[node].count);
      symbols[node] := symbols[node].(count := count, under := count);
      assert symbols[..] == a[node := a[node].(count := count, under := count)];
      if symbols[node].left != 0 {
        var below := Rescale(node + symbols[node].left, node, t.left, cap);
        symbols[node] := symbols[node].(under := Wrap16(symbols[node].under + below));
      }
    }

    /** ENET_SYMBOL_CREATE: the next symbol of the arena. */
    method CreateSymbol(value: uint8, count: uint8, nextSymbol: nat) returns (symbol: nat, nextSymbol': nat)
      requires nextSymbol < symbols.Length
      modifies symbols
      ensures symbol == nextSymbol && nextSymbol' == nextSymbol + 1
      ensures symbols[..] == old(symbols[..])[nextSymbol := Fresh(value, count)]
    {
      symbol, nextSymbol' := nextSymbol, nextSymbol + 1;
      symbols[symbol] := Symbol(value, count, count, 0, 0, 0, 0, 0, 0);
    }

    /** Creates the right or left child of a node. */
    method CreateChild(node: nat, right: bool, value: uint8, count: uint8, nextSymbol: nat) returns (symbol: nat, nextSymbol': nat)
      requires node < nextSymbol < symbols.Length
      modifies symbols
      ensures symbol == nextSymbol && nextSymbol' == nextSymbol + 1
      ensures var b := old(symbols[..])[nextSymbol := Fresh(value, count)];
              symbols[..] == b[node := if right then b[node].(right := Wrap16(symbol - node))
                                       else b[node].(left := Wrap16(symbol - node))]
    {
      symbol, nextSymbol' := CreateSymbol(value, count, nextSymbol);
      symbols[node] := if right then symbols[node].(right := Wrap16(symbol - node))
                       else symbols[node].(left := Wrap16(symbol - node));
    }

    /** ENET_CONTEXT_ENCODE: looks value up in the tree of context c, adding update occurrences on the way,
        and creates its symbol where the search ends if there is none. */
    method ContextEncode(c: nat, value: uint8, update: uint8, minimum: uint8, nextSymbol: nat)
      returns (symbol: nat, under: uint16, count: uint16, nextSymbol': nat)
      requires c < |shape.trees| && CanEnter(symbols[..], shape, c, Search(shape.trees[c], value), value, update)
      requires nextSymbol == |shape.paths| && minimum == Minimum(c)
      modifies symbols, this`shape
      ensures var t := old(shape).trees[c];
              var p := Search(t, value);
              && Within(t, old(symbols[..]))
              && symbols[..] == Entered(old(symbols[..]), c, t, p, value, update, nextSymbol)
              && shape == Grown(old(shape), c, p, value, update)
              && symbol == SymbolAt(t, p, nextSymbol)
              && nextSymbol' == |shape.paths|
              && count == minimum + (if End(t, p).Node? then End(t, p).count else 0)
              && under == value * minimum + Along(t, p)
    {
      hide Holds, Shaped, CountsIn, Wf, Balanced, Sum, Descended, Along, Nodes, Search, Bump;
      ghost var a, t := symbols[..], shape.trees[c];
      ghost var p := Search(t, value);
      DescentReady(a, shape, c);
      SearchLeaf(t, value);
      nextSymbol' := nextSymbol;
      under, count := value * minimum, minimum;
      if symbols[c].symbols == 0 {
        symbol, nextSymbol' := CreateSymbol(value, update, nextSymbol');
        symbols[c] := symbols[c].(symbols := Wrap16(symbol - c));
      } else {
        symbol, under, count, nextSymbol' :=
          Descend(c, c + symbols[c].symbols, value, update, minimum, nextSymbol, t);
      }
      shape := Grown(shape, c, p, value, update);
    }

    method Descend(ghost base: nat, root: nat, value: uint8, update: uint8, minimum: uint8, nextSymbol: nat, ghost t: Tree)
      returns (symbol: nat, under: uint16, count: uint16, nextSymbol': nat)
      requires t.Node? && base < root == t.index && Holds(symbols[..], base, root - base, t) && Within(t, symbols[..])
      requires Shaped(t) && minimum <= 1 && value * minimum + Sum(t) < 0x1_0000
      requires nextSymbol < symbols.Length && forall j :: j in Nodes(t) ==> j < nextSymbol
      modifies symbols
      ensures var p := Search(t, value);
              && symbols[..] == Descended(old(symbols[..]), t, p, value, update, nextSymbol)
              && symbol == SymbolAt(t, p, nextSymbol)
              && nextSymbol' == nextSymbol + (if End(t, p).Leaf? then 1 else 0)
              && count == minimum + (if End(t, p).Node? then End(t, p).count else 0)
              && under == value * minimum + Along(t, p)
    {
      hide Holds, Shaped, Nodes, Descended, Along, End, Search, Leads, Sum, Wrap8, Wrap16;
      ghost var a, p := symbols[..], Search(t, value);
      ghost var cur: Tree, above: nat, path: Route := t, base, p;
      AlongWithin(t, p);
      assert Along(t, p) <= Sum(t);
      var node := root;
      nextSymbol' := nextSymbol;
      under, count := value * minimum, minimum;
      ghost var offset := under;
      SubtreeNodes(t);
      while true
        invariant cur.Node? && above < node == cur.index < symbols.Length
        invariant Holds(symbols[..], above, node - above, cur) && Within(cur, symbols[..]) && Shaped(cur)
        invariant forall j :: j in Nodes(cur) ==> j < nextSymbol
        invariant path == Search(cur, value) && End(cur, path) == End(t, p)
        invariant Descended(symbols[..], cur, path, value, update, nextSymbol) == Descended(a, t, p, value, update, nextSymbol)
        invariant under + Along(cur, path) == offset + Along(t, p) < 0x1_0000
        decreases cur
      {
        ghost var b := symbols[..];
        HoldsRoot(b, above, cur);
        SearchTail(cur, value);
        if value < symbols[node].value {
          TurnLeft(b, above, cur, path, value, update, nextSymbol);
          symbols[node] := symbols[node].(under := Wrap16(symbols[node].under + update));
          assert symbols[..] == b[node := b[node].(under := Wrap16(b[node].under + update))];
          if symbols[node].left != 0 {
            above, cur, path := node, cur.left, path[1..];
            node := node + symbols[node].left;
            continue;
          }
          symbol, nextSymbol' := CreateChild(node, false, value, update, nextSymbol');
          assert symbols[..] == Descended(b, cur, path, value, update, nextSymbol);
        } else if value > symbols[node].value {
          TurnRight(b, above, cur, path, value, update, nextSymbol);
          NoWrap16(under + symbols[node].under);
          under := Wrap16(under + symbols[node].under);
          if symbols[node].right != 0 {
            above, cur, path := node, cur.right, path[1..];
            node := node + symbols[node].right;
            continue;
          }
          symbol, nextSymbol' := CreateChild(node, true, value, update, nextSymbol');
          assert symbols[..] == Descended(b, cur, path, value, update, nextSymbol);
        } else {
          TurnFound(b, above, cur, path, value, update, nextSymbol);
          NoWrap16(count + symbols[node].count);
          count := Wrap16(count + symbols[node].count);
          NoWrap16(under + symbols[node].under - symbols[node].count);
          under := Wrap16(under + symbols[node].under - symbols[node].count);
          symbols[node] := symbols[node].(under := Wrap16(symbols[node].under + update),
                                          count := Wrap8(symbols[node].count + update));
          symbol := node;
          assert symbols[..] == Descended(b, cur, path, value, update, nextSymbol);
        }
        break;
      }
    }

    /** ENET_CONTEXT_DECODE: follows code down the tree of context c. Where the tree ends, ENET_CONTEXT_TRY_DECODE
        gives up (create is false) and ENET_CONTEXT_ROOT_DECODE creates the symbol that lies there. */
    method ContextDecode(c: nat, code: uint16, update: uint8, minimum: uint8, create: bool, nextSymbol: nat)
      returns (ok: bool, symbol: nat, value: uint8, under: uint16, count: uint16, nextSymbol': nat)
      requires c < |shape.trees| && minimum == Minimum(c) && create == (minimum == 1)
      requires Wf(symbols[..], shape) && Balanced(symbols[..], shape, -1)
      requires |shape.paths[c]| <= SUBCONTEXT_ORDER && 1 <= update <= 3 && Cap(c) + update <= 0xFF
      requires nextSymbol == |shape.paths| < ARENA_SIZE
      modifies symbols, this`shape
      ensures var t := old(shape).trees[c];
              var p := Decode(t, code, 0, minimum);
              && Within(t, old(symbols[..]))
              && ok == (create || End(t, p).Node?)
              && (ok ==>
                    && value == (if End(t, p).Node? then End(t, p).value else Wrap8(code - Along(t, p)))
                    && CanEnter(old(symbols[..]), old(shape), c, p, value, update)
                    && symbols[..] == Entered(old(symbols[..]), c, t, p, value, update, nextSymbol)
                    && shape == Grown(old(shape), c, p, value, update)
                    && symbol == SymbolAt(t, p, nextSymbol)
                    && nextSymbol' == |shape.paths|
                    && count == minimum + (if End(t, p).Node? then End(t, p).count else 0)
                    && under == (if End(t, p).Node? then value * minimum + Along(t, p) else code))
    {
      ghost var a, t := symbols[..], shape.trees[c];
      ghost var p := Decode(t, code, 0, minimum);
      DescentReady(a, shape, c);
      nextSymbol' := nextSymbol;
      under, count := 0, minimum;
      if symbols[c].symbols == 0 {
        if !create { return false, 0, 0, 0, 0, nextSymbol; }
        value, under := Wrap8(code), code;
        symbol, nextSymbol' := CreateSymbol(value, update, nextSymbol');
        symbols[c] := symbols[c].(symbols := Wrap16(symbol - c));
        ok := true;
      } else {
        ok, symbol, value, under, count, nextSymbol' :=
          Follow(c, c + symbols[c].symbols, code, update, minimum, create, nextSymbol, t);
      }
      if ok {
        shape := Grown(shape, c, p, value, update);
      }
    }

    method Follow(ghost base: nat, root: nat, code: uint16, update: uint8, minimum: uint8, create: bool, nextSymbol: nat, ghost t: Tree)
      returns (ok: bool, symbol: nat, value: uint8, under: uint16, count: uint16, nextSymbol': nat)
      requires t.Node? && base < root == t.index && Holds(symbols[..], base, root - base, t) && Within(t, symbols[..])
      requires Shaped(t) && minimum <= 1 && 0x100 * minimum + Sum(t) < 0x1_0000 && create == (minimum == 1)
      requires nextSymbol < symbols.Length && forall j :: j in Nodes(t) ==> j < nextSymbol
      modifies symbols
      ensures var p := Decode(t, code, 0, minimum);
              && ok == (create || End(t, p).Node?)
              && (ok ==>
                    && value == (if End(t, p).Node? then End(t, p).value else Wrap8(code - Along(t, p)))
                    && symbols[..] == Descended(old(symbols[..]), t, p, value, update, nextSymbol)
                    && symbol == SymbolAt(t, p, nextSymbol)
                    && nextSymbol' == nextSymbol + (if End(t, p).Leaf? then 1 else 0)
                    && count == minimum + (if End(t, p).Node? then End(t, p).count else 0)
                    && under == (if End(t, p).Node? then value * minimum + Along(t, p) else code))
    {
      hide Holds, Shaped, Nodes, Descended, Along, End, Decode, Leads, Sum, Under, Wrap8, Wrap16;
      ghost var a, p := symbols[..], Decode(t, code, 0, minimum);
      ghost var cur: Tree, above: nat, path: Route := t, base, p;
      ghost var v: uint8 := if End(t, p).Node? then End(t, p).value else Wrap8(code - Along(t, p));
      AlongWithin(t, p);
      HoldsRoot(a, base, t);
      var node := root;
      nextSymbol' := nextSymbol;
      under, count, ok := 0, minimum, true;
      while true
        invariant cur.Node? && above < node == cur.index < symbols.Length
        invariant Holds(symbols[..], above, node - above, cur) && Within(cur, symbols[..]) && Shaped(cur)
        invariant forall j :: j in Nodes(cur) ==> j < nextSymbol
        invariant path == Decode(cur, code, under, minimum) && End(cur, path) == End(t, p)
        invariant Descended(symbols[..], cur, path, v, update, nextSymbol) == Descended(a, t, p, v, update, nextSymbol)
        invariant under + Along(cur, path) == Along(t, p)
        invariant under + Sum(cur) <= Sum(t)
        decreases cur
      {
        ghost var b := symbols[..];
        HoldsRoot(b, above, cur);
        SumParts(b, above, cur);
        DecodeTail(cur, code, under, minimum);
        NoWrap16(under + symbols[node].under + (symbols[node].value + 1) * minimum);
        var after := Wrap16(under + symbols[node].under + (symbols[node].value + 1) * minimum);
        var before := symbols[node].count + minimum;
        if code >= after {
          TurnRight(b, above, cur, path, v, update, nextSymbol);
          NoWrap16(under + symbols[node].under);
          under := Wrap16(under + symbols[node].under);
          if symbols[node].right != 0 {
            above, cur, path := node, cur.right, path[1..];
            node := node + symbols[node].right;
            continue;
          }
          if !create { return false, 0, 0, 0, 0, nextSymbol; }
          value := Wrap8(symbols[node].value + 1 + (code - after));
          assert value == v;
          under := code;
          symbol, nextSymbol' := CreateChild(node, true, value, update, nextSymbol');
          assert symbols[..] == Descended(b, cur, path, v, update, nextSymbol);
        } else if code < after - before {
          TurnLeft(b, above, cur, path, v, update, nextSymbol);
          symbols[node] := symbols[node].(under := Wrap16(symbols[node].under + update));
          assert symbols[..] == b[node := b[node].(under := Wrap16(b[node].under + update))];
          if symbols[node].left != 0 {
            above, cur, path := node, cur.left, path[1..];
            node := node + symbols[node].left;
            continue;
          }
          if !create { return false, 0, 0, 0, 0, nextSymbol; }
          value := Wrap8(symbols[node].value - 1 - (after - before - code - 1));
          assert value == v;
          under := code;
          symbol, nextSymbol' := CreateChild(node, false, value, update, nextSymbol');
          assert symbols[..] == Descended(b, cur, path, v, update, nextSymbol);
        } else {
          TurnFound(b, above, cur, path, v, update, nextSymbol);
          value := symbols[node].value;
          NoWrap16(count + symbols[node].count);
          count := Wrap16(count + symbols[node].count);
          NoWrap16(after - before);
          under := Wrap16(after - before);
          symbols[node] := symbols[node].(under := Wrap16(symbols[node].under + update),
                                          count := Wrap8(symbols[node].count + update));
          symbol := node;
          assert symbols[..] == Descended(b, cur, path, v, update, nextSymbol);
        }
        break;
      }
    }

    /** ENET_CONTEXT_RESCALE. */
    method ContextRescale(c: nat, minimum: uint8, ghost cap: nat)
      requires Wf(symbols[..], shape) && c < |shape.paths| && minimum == Minimum(c)
      requires CountsIn(shape.trees[c], cap)
      requires symbols[c].total == symbols[c].escapes + 256 * minimum + Sum(shape.trees[c])
      modifies symbols, this`shape
      ensures Wf(symbols[..], shape)
      ensures shape == old(shape).(trees := old(shape).trees[c := Halved(old(shape).trees[c])])
      ensures forall i :: 0 <= i < symbols.Length && i != c ==> SameContext(old(symbols[..])[i], symbols[i])
      ensures symbols[c].parent == old(symbols[c].parent)
      ensures symbols[c].escapes == Half(old(symbols[c].escapes))
      ensures symbols[c].total == symbols[c].escapes + 256 * minimum + Sum(shape.trees[c])
    {
      hide Holds, Shaped, CountsIn, Halved, RescaledArena;
      ghost var a, t := symbols[..], shape.trees[c];
      RescaleSpace(a, shape, c, cap);
      var total: uint16 := 0;
      if symbols[c].symbols != 0 {
        total := Rescale(c + symbols[c].symbols, c, t, cap);
      }
      shape := shape.(trees := shape.trees[c := Halved(t)]);
      var escapes := Half(symbols[c].escapes);
      NoWrap16(total + escapes + 256 * minimum);
      total := Wrap16(total + escapes + 256 * minimum);
      ContextFieldsWf(symbols[..], shape, c, escapes, total, symbols[c].parent);
      ghost var b := symbols[..];
      symbols[c] := symbols[c].(escapes := escapes, total := total);
      assert symbols[..] == b[c := b[c].(escapes := escapes, total := total, parent := b[c].parent)];
    }

    /** The end of a visit: the update is added to the total, and the context rescaled if it has grown too much. */
    method Settle(c: nat, count: uint16, update: uint8, limit: nat, minimum: uint8, ghost cap: nat, ghost d: Context)
      requires Wf(symbols[..], shape) && c < |shape.paths| && minimum == Minimum(c)
      requires Balanced(symbols[..], shape, c) && (c == 0 ==> symbols[c].escapes == CONTEXT_ESCAPE_MINIMUM)
      requires symbols[c].total + update == symbols[c].escapes + 256 * minimum + Sum(shape.trees[c])
      requires symbols[c].total <= TOTAL_LIMIT + SUBCONTEXT_ESCAPE_DELTA && update <= 3
      requires CountsIn(shape.trees[c], cap) && cap <= 0xFF && (count <= limit ==> cap <= Cap(c))
      modifies symbols, this`shape
      ensures Wf(symbols[..], shape) && Balanced(symbols[..], shape, -1)
      ensures Touched(old(symbols[..]), old(shape), symbols[..], shape, c) && shape.paths == old(shape).paths
      ensures forall i :: 0 <= i < symbols.Length ==> symbols[i].parent == old(symbols[..])[i].parent
      ensures TellsContext(old(symbols[..]), old(shape).trees[c], c, d) ==>
                TellsContext(symbols[..], shape.trees[c], c, Adapted(d, count, limit, minimum))
    {
      hide Holds, Shaped, CountsIn, Halved, Wf, Half;
      WfSizes(symbols[..], shape);
      ghost var a, s, t := symbols[..], shape, shape.trees[c];
      NoWrap16(symbols[c].total + update);
      ContextFieldsWf(a, s, c, a[c].escapes, Wrap16(a[c].total + update), a[c].parent);
      symbols[c] := symbols[c].(total := Wrap16(symbols[c].total + update));
      ghost var b := symbols[..];
      assert b == a[c := a[c].(escapes := a[c].escapes, total := Wrap16(a[c].total + update), parent := a[c].parent)];
      if TellsContext(a, t, c, d) {
        TellsTotal(b, t, c, d);
      }
      if count > limit || symbols[c].total > TOTAL_LIMIT {
        RescaleRoom(b, s, c, cap);
        ContextRescale(c, minimum, cap);
        HalfFacts(cap, b[c].escapes);
        CountsWeaken(shape.trees[c], Half(cap), Cap(c));
        if TellsContext(a, t, c, d) {
          HalvedTabulates(t, d);
          HalvedLayout(t);
        }
        assert forall i :: 0 <= i < |b| && i != c ==> SameContext(b[i], symbols[i]);
      } else {
        CountsWeaken(t, cap, Cap(c));
      }
      BalancedAfter(a, s, symbols[..], shape, c);
    }

    /** The rest of a visit to a subcontext: an unknown byte also raises its escapes. */
    method FinishSubcontext(c: nat, value: uint8, count: uint16, ghost d: Context)
      requires Wf(symbols[..], shape) && 0 < c < |shape.paths|
      requires Balanced(symbols[..], shape, c) && Accounts(symbols[..], c, shape.trees[c], SUBCONTEXT_SYMBOL_DELTA)
      requires count <= SUBCONTEXT_COUNT_CAP
      requires CountsIn(shape.trees[c], if count + SUBCONTEXT_SYMBOL_DELTA <= SUBCONTEXT_COUNT_CAP then SUBCONTEXT_COUNT_CAP else 0xFF)
      modifies symbols, this`shape
      ensures Wf(symbols[..], shape) && Balanced(symbols[..], shape, -1)
      ensures Touched(old(symbols[..]), old(shape), symbols[..], shape, c) && shape.paths == old(shape).paths
      ensures forall i :: 0 <= i < symbols.Length ==> symbols[i].parent == old(symbols[..])[i].parent
      ensures count == d.freq[value] &&
              TellsContext(old(symbols[..]), old(shape).trees[c], c,
                           Heard(d, value, SUBCONTEXT_SYMBOL_DELTA)) ==>
                TellsContext(symbols[..], shape.trees[c], c, SubcontextAfter(d, value))
    {
      hide Holds, Shaped, CountsIn, Wf, Sorted, Tabulates, Adapted;
      WfSizes(symbols[..], shape);
      ghost var a := symbols[..];
      ghost var heard := Heard(d, value, SUBCONTEXT_SYMBOL_DELTA);
      if count == 0 {
        ContextFieldsWf(a, shape, c, Wrap16(a[c].escapes + SUBCONTEXT_ESCAPE_DELTA),
                        Wrap16(a[c].total + SUBCONTEXT_ESCAPE_DELTA), a[c].parent);
        symbols[c] := symbols[c].(escapes := Wrap16(symbols[c].escapes + SUBCONTEXT_ESCAPE_DELTA),
                                  total := Wrap16(symbols[c].total + SUBCONTEXT_ESCAPE_DELTA));
        assert symbols[..] == a[c := a[c].(escapes := Wrap16(a[c].escapes + SUBCONTEXT_ESCAPE_DELTA),
                                           total := Wrap16(a[c].total + SUBCONTEXT_ESCAPE_DELTA), parent := a[c].parent)];
        Settle(c, count, SUBCONTEXT_SYMBOL_DELTA, SUBCONTEXT_COUNT_LIMIT, 0, SUBCONTEXT_COUNT_CAP,
               heard.(escapes := d.escapes + SUBCONTEXT_ESCAPE_DELTA));
      } else {
        Settle(c, count, SUBCONTEXT_SYMBOL_DELTA, SUBCONTEXT_COUNT_LIMIT, 0,
               if count + SUBCONTEXT_SYMBOL_DELTA <= SUBCONTEXT_COUNT_CAP then SUBCONTEXT_COUNT_CAP else 0xFF,
               heard);
      }
    }

    /** Both coders' step in one context: look the value up, then let *parent refer to its symbol.
        q is the symbol whose parent field is pending, or -1 for `predicted` itself. */
    method Visit(c: nat, value: uint8, update: uint8, minimum: uint8, q: int, predicted: nat, nextSymbol: nat, ghost d: Context)
      returns (symbol: nat, under: uint16, count: uint16, predicted': nat, nextSymbol': nat)
      requires Wf(symbols[..], shape) && Balanced(symbols[..], shape, -1) && Linked(symbols[..], shape, q)
      requires nextSymbol == |shape.paths| && c < nextSymbol < ARENA_SIZE && |shape.paths[c]| <= SUBCONTEXT_ORDER
      requires minimum == Minimum(c) && update == (if c == 0 then CONTEXT_SYMBOL_DELTA else SUBCONTEXT_SYMBOL_DELTA)
      requires q == -1 || (0 <= q < nextSymbol && shape.paths[q] != [] && shape.paths[q][1..] == shape.paths[c] + [value])
      modifies symbols, this`shape
      ensures Wf(symbols[..], shape) && nextSymbol' == |shape.paths|
      ensures Touched(old(symbols[..]), old(shape), symbols[..], shape, c)
      ensures symbols[c].escapes == old(symbols[..])[c].escapes && symbols[c].total == old(symbols[..])[c].total
      ensures Balanced(symbols[..], shape, c) && Accounts(symbols[..], c, shape.trees[c], update)
      ensures minimum <= count <= minimum + Cap(c)
      ensures CountsIn(shape.trees[c], if count - minimum + update <= Cap(c) then Cap(c) else 0xFF)
      ensures c < symbol < nextSymbol' && shape.paths[symbol] == shape.paths[c] + [value]
      ensures nextSymbol' == nextSymbol ==> symbol < nextSymbol
      ensures nextSymbol' > nextSymbol ==> symbol == nextSymbol && count == minimum
      ensures Linked(symbols[..], shape, if nextSymbol' > nextSymbol && c != 0 then symbol else -1)
      ensures forall i :: 0 <= i < nextSymbol && i != q ==> symbols[i].parent == old(symbols[..])[i].parent
      ensures predicted' == if q < 0 then symbol else predicted
      ensures TellsContext(old(symbols[..]), old(shape).trees[c], c, d) ==>
                && under == value * minimum + Below(d.freq, value) && count == minimum + d.freq[value]
                && (nextSymbol' > nextSymbol <==> d.freq[value] == 0)
                && TellsContext(symbols[..], shape.trees[c], c, Heard(d, value, update))
    {
      hide Holds, Shaped, CountsIn, Wf, Entered, Linked, Balanced, TellsContext, Bump, End, Search, Along, Below;
      WfSizes(symbols[..], shape);
      ghost var a, s := symbols[..], shape;
      SearchEnd(s.trees[c], value);
      CanEnterAt(a, s, c, Search(s.trees[c], value), value, update);
      EnterFacts(a, s, c, Search(s.trees[c], value), value, update, q);
      if TellsContext(a, s.trees[c], c, d) {
        EnterTells(a, s, c, value, update, d);
      }
      symbol, under, count, nextSymbol' := ContextEncode(c, value, update, minimum, nextSymbol);
      predicted' := predicted;
      ghost var b := symbols[..];
      if q < 0 {
        predicted' := symbol;
      } else {
        ContextFieldsWf(b, shape, q, b[q].escapes, b[q].total, Wrap16(symbol));
        symbols[q] := symbols[q].(parent := Wrap16(symbol));
        assert symbols[..] == b[q := b[q].(parent := Wrap16(symbol))];
        assert symbols[..] == b[q := b[q].(escapes := b[q].escapes, total := b[q].total, parent := Wrap16(symbol))];
        ParentOnly(b, shape, c, q, Wrap16(symbol));
      }
    }

    /** Encodes one slot, in terms of everything that is still to be encoded after it. */
    method EncodeSlot(low: uint32, range: uint32, t: Slot, outData: array<uint8>, outPos: nat, outLimit: nat, ghost us: seq<Slot>)
      returns (ok: bool, low': uint32, range': uint32, outPos': nat)
      requires Ready(Coder(low, range)) && Fits(t) && AllFit(us)
      requires outPos <= outLimit <= outData.Length
      modifies outData
      ensures !ok ==> outPos + |Encoding(Coder(low, range), [t] + us)| > outLimit
      ensures ok ==> && Ready(Coder(low', range')) && outPos' <= outLimit
                     && outData[..outPos'] + Encoding(Coder(low', range'), us)
                        == old(outData[..outPos]) + Encoding(Coder(low, range), [t] + us)
    {
      hide Encoding;
      EncodingStep(Coder(low, range), t, us);
      ok, low', range', outPos' := Encode(low, range, t, outData, outPos, outLimit);
    }

    /** The body of the encoder's loop over subcontexts. */
    method EncodeInSubcontext(c: nat, value: uint8, q: int, predicted: nat, nextSymbol: nat, low: uint32, range: uint32,
                              outData: array<uint8>, outPos: nat, outLimit: nat, ghost d: Context, ghost us: seq<Slot>)
      returns (ok: bool, found: bool, symbol: nat, predicted': nat, nextSymbol': nat, low': uint32, range': uint32, outPos': nat)
      requires Wf(symbols[..], shape) && Balanced(symbols[..], shape, -1) && Linked(symbols[..], shape, q)
      requires nextSymbol == |shape.paths| && 0 < c < nextSymbol < ARENA_SIZE && |shape.paths[c]| <= SUBCONTEXT_ORDER
      requires q == -1 || (0 <= q < nextSymbol && shape.paths[q] != [] && shape.paths[q][1..] == shape.paths[c] + [value])
      requires TellsContext(symbols[..], shape.trees[c], c, d) && SubcontextOk(d)
      requires Ready(Coder(low, range)) && AllFit(us) && outPos <= outLimit <= outData.Length
      modifies symbols, this`shape, outData
      ensures found == (d.freq[value] > 0)
      ensures !ok ==> outPos + |Encoding(Coder(low, range), SubcontextSlots(d, value) + us)| > outLimit
      ensures ok ==> && Ready(Coder(low', range')) && outPos' <= outLimit
                     && outData[..outPos'] + Encoding(Coder(low', range'), us)
                        == old(outData[..outPos]) + Encoding(Coder(low, range), SubcontextSlots(d, value) + us)
      ensures ok ==> && Wf(symbols[..], shape) && Balanced(symbols[..], shape, -1)
                     && Touched(old(symbols[..]), old(shape), symbols[..], shape, c)
                     && nextSymbol' == |shape.paths| == nextSymbol + (if found then 0 else 1)
                     && c < symbol < nextSymbol' && shape.paths[symbol] == shape.paths[c] + [value]
                     && (found || symbol == nextSymbol)
                     && Linked(symbols[..], shape, if found then -1 else symbol)
                     && (forall i :: 0 <= i < nextSymbol && i != q ==> symbols[i].parent == old(symbols[..])[i].parent)
                     && predicted' == (if q < 0 then symbol else predicted)
                     && TellsContext(symbols[..], shape.trees[c], c, SubcontextAfter(d, value))
    {
      hide Holds, Shaped, CountsIn, Wf, Linked, Balanced, TellsContext, Below, Encoding, SubcontextAfter, Renormalise, Emitted;
      WfSizes(symbols[..], shape);
      ghost var a, s := symbols[..], shape;
      TellsSlots(a, s, c, value, d);
      var under, count;
      symbol, under, count, predicted', nextSymbol' :=
        Visit(c, value, SUBCONTEXT_SYMBOL_DELTA, 0, q, predicted, nextSymbol, d);
      found := count > 0;
      var total, escapes := symbols[c].total, symbols[c].escapes;
      low', range', outPos', ok := low, range, outPos, true;
      if count > 0 {
        ok, low', range', outPos' := EncodeSlot(low, range, Slot(escapes + under, count, total), outData, outPos, outLimit, us);
      } else {
        if escapes > 0 && escapes < total {
          ok, low', range', outPos' := EncodeSlot(low, range, Slot(0, escapes, total), outData, outPos, outLimit, us);
        } else {
          assert SubcontextSlots(d, value) + us == us;
        }
      }
      if !ok { return; }
      ghost var b, s' := symbols[..], shape;
      FinishSubcontext(c, value, count, d);
      TouchedAgain(a, s, b, s', symbols[..], shape, c);
      SameParentsLinked(b, s', symbols[..], shape, if found then -1 else symbol);
    }

    /** The encoder's step in the order-0 context, which knows every byte. */
    method EncodeInRoot(value: uint8, q: int, predicted: nat, nextSymbol: nat, low: uint32, range: uint32,
                        outData: array<uint8>, outPos: nat, outLimit: nat, ghost d: Context, ghost us: seq<Slot>)
      returns (ok: bool, predicted': nat, nextSymbol': nat, low': uint32, range': uint32, outPos': nat)
      requires Wf(symbols[..], shape) && Balanced(symbols[..], shape, -1) && Linked(symbols[..], shape, q)
      requires predicted < nextSymbol == |shape.paths| < ARENA_SIZE
      requires q == -1 || (0 <= q < nextSymbol && shape.paths[q] != [] && shape.paths[q][1..] == [value])
      requires TellsContext(symbols[..], shape.trees[0], 0, d) && Bounded(d, CONTEXT_COUNT_CAP, 1)
      requires Ready(Coder(low, range)) && AllFit(us) && outPos <= outLimit <= outData.Length
      modifies symbols, this`shape, outData
      ensures !ok ==> outPos + |Encoding(Coder(low, range), [SymbolSlot(d, value, 1)] + us)| > outLimit
      ensures ok ==> && Ready(Coder(low', range')) && outPos' <= outLimit
                     && outData[..outPos'] + Encoding(Coder(low', range'), us)
                        == old(outData[..outPos]) + Encoding(Coder(low, range), [SymbolSlot(d, value, 1)] + us)
      ensures ok ==> && Wf(symbols[..], shape) && Balanced(symbols[..], shape, -1) && Linked(symbols[..], shape, -1)
                     && Touched(old(symbols[..]), old(shape), symbols[..], shape, 0)
                     && nextSymbol' == |shape.paths|
                     && shape.paths == (if d.freq[value] == 0 then old(shape).paths + [[value]] else old(shape).paths)
                     && predicted' < nextSymbol' && (q >= 0 ==> predicted' == predicted)
                     && (q < 0 ==> shape.paths[predicted'] == [value])
                     && TellsContext(symbols[..], shape.trees[0], 0, RootAfter(d, value))
    {
      hide Heard, Holds, Shaped, CountsIn, Linked, Balanced, TellsContext, Below, Encoding, Renormalise, Emitted;
      ghost var a, s := symbols[..], shape;
      TellsRootSlot(a, s, value, d);
      var symbol, under, count;
      symbol, under, count, predicted', nextSymbol' :=
        Visit(0, value, CONTEXT_SYMBOL_DELTA, CONTEXT_SYMBOL_MINIMUM, q, predicted, nextSymbol, d);
      assert shape.paths[symbol] == [value];
      var total := symbols[0].total;
      ok, low', range', outPos' :=
        EncodeSlot(low, range, Slot(symbols[0].escapes + under, count, total), outData, outPos, outLimit, us);
      if !ok { return; }
      ghost var b, s' := symbols[..], shape;
      Settle(0, count, CONTEXT_SYMBOL_DELTA, CONTEXT_COUNT_LIMIT, CONTEXT_SYMBOL_MINIMUM,
             if count - 1 + CONTEXT_SYMBOL_DELTA <= CONTEXT_COUNT_CAP then CONTEXT_COUNT_CAP else 0xFF,
             Heard(d, value, CONTEXT_SYMBOL_DELTA));
      TouchedAgain(a, s, b, s', symbols[..], shape, 0);
      SameParentsLinked(b, s', symbols[..], shape, -1);
    }

    /** Encodes one byte in the contexts from `predicted` down to the root. */
    method EncodeByte(value: uint8, predicted: nat, nextSymbol: nat, low: uint32, range: uint32,
                      outData: array<uint8>, outPos: nat, outLimit: nat, ghost m: Model, ghost us: seq<Slot>)
      returns (ok: bool, predicted': nat, nextSymbol': nat, low': uint32, range': uint32, outPos': nat)
      requires Wf(symbols[..], shape) && Balanced(symbols[..], shape, -1) && Linked(symbols[..], shape, -1)
      requires ModelOk(m) && Tells(symbols[..], shape, m.contexts)
      requires nextSymbol == |shape.paths| == m.nextSymbol && predicted < nextSymbol && shape.paths[predicted] == m.history
      requires Ready(Coder(low, range)) && AllFit(us) && outPos <= outLimit <= outData.Length
      modifies symbols, this`shape, outData
      ensures !ok ==> outPos + |Encoding(Coder(low, range), Slots(m.contexts, m.history, value) + us)| > outLimit
      ensures ok ==> && Ready(Coder(low', range')) && outPos' <= outLimit
                     && outData[..outPos'] + Encoding(Coder(low', range'), us)
                        == old(outData[..outPos]) + Encoding(Coder(low, range), Slots(m.contexts, m.history, value) + us)
      ensures ok ==> && Wf(symbols[..], shape) && Balanced(symbols[..], shape, -1) && Linked(symbols[..], shape, -1)
                     && Tells(symbols[..], shape, Learned(m.contexts, m.history, value))
                     && nextSymbol' == |shape.paths| == nextSymbol + Created(m.contexts, m.history, value)
                     && predicted' < nextSymbol' && shape.paths[predicted'] == m.history + [value]
    {
      hide Holds, Shaped, CountsIn, Linked, Balanced, TellsContext, Below, Encoding, Renormalise, Emitted,
           Learned, Created, Slots, SubcontextAfter, RootAfter, Wf, Touched, Tells, Agree, Bounded,
           Fits, Ready, Valid, ContextsOk, SubcontextOk, Lookup, Pending;
      WfSizes(symbols[..], shape);
      PendingStart(shape, predicted, m.history, value);
      var found, q: int, subcontext: nat := false, -1, predicted;
      ghost var k, cur, rest := m.history, m.contexts, us;
      ghost var start := outData[..outPos] + Encoding(Coder(low, range), Slots(m.contexts, m.history, value) + us);
      ok, predicted', nextSymbol', low', range', outPos' := true, predicted, nextSymbol, low, range, outPos;
      AgreeSelf(cur, |k|);
      while subcontext != 0
        invariant outPos' <= outLimit && Ready(Coder(low', range'))
        invariant |shape.trees| == |shape.paths| <= symbols.Length && (subcontext == 0 <==> k == [])
        invariant Wf(symbols[..], shape) && Balanced(symbols[..], shape, -1)
        invariant nextSymbol' == |shape.paths| <= nextSymbol + |m.history| - |k|
        invariant subcontext < nextSymbol' && shape.paths[subcontext] == k && |k| <= |m.history|
        invariant Tells(symbols[..], shape, cur) && Agree(cur, m.contexts, |k|)
        invariant Learned(cur, k, value) == Learned(m.contexts, m.history, value)
        invariant nextSymbol' + Created(m.contexts, k, value) == nextSymbol + Created(m.contexts, m.history, value)
        invariant outData[..outPos'] + Encoding(Coder(low', range'), Slots(m.contexts, k, value) + us) == start
        invariant Linked(symbols[..], shape, q) && predicted' < nextSymbol'
        invariant Pending(shape, q, predicted', m.history, k, value)
        decreases |k|
      {
        ghost var a, s, d, was := symbols[..], shape, Lookup(m.contexts, k), predicted';
        WalkStep(m.contexts, cur, k, value, us);
        TellsAt(a, s, cur, subcontext);
        PendingAt(s, q, was, m.history, k, value);
        var symbol;
        ok, found, symbol, predicted', nextSymbol', low', range', outPos' :=
          EncodeInSubcontext(subcontext, value, q, predicted', nextSymbol', low', range', outData, outPos', outLimit, d,
                             if d.freq[value] > 0 then us else Slots(m.contexts, k[1..], value) + us);
        if !ok { return; }
        TouchedPaths(a, s, symbols[..], shape, subcontext);
        WfSizes(symbols[..], shape);
        PendingNext(s, q, was, m.history, k, value, shape, symbol, predicted');
        VisitTells(a, s, cur, symbols[..], shape, subcontext, value, SubcontextAfter(d, value));
        cur := cur[k := SubcontextAfter(d, value)];
        if found { break; }
        LinkedAt(symbols[..], shape, symbol, subcontext);
        q, subcontext, k := symbol, symbols[subcontext].parent, k[1..];
      }
      if !found {
        ghost var a, s, d := symbols[..], shape, Lookup(m.contexts, []);
        WalkRoot(m.contexts, cur, value, us);
        TellsAt(a, s, cur, 0);
        PendingAt(s, q, predicted', m.history, k, value);
        ok, predicted', nextSymbol', low', range', outPos' :=
          EncodeInRoot(value, q, predicted', nextSymbol', low', range', outData, outPos', outLimit, d, us);
        if !ok { return; }
        TouchedPaths(a, s, symbols[..], shape, 0);
        assert s.paths[0] + [value] == [value];
        VisitTells(a, s, cur, symbols[..], shape, 0, value, RootAfter(d, value));
      }
    }

    /** ENET_CONTEXT_CREATE for the root, in an arena that starts over. */
    method CreateRoot() returns (nextSymbol: nat)
      requires symbols.Length == ARENA_SIZE
      modifies symbols, this`shape
      ensures nextSymbol == 1 && shape == ROOT_SHAPE
      ensures Wf(symbols[..], shape) && Balanced(symbols[..], shape, -1) && Linked(symbols[..], shape, -1)
      ensures Tells(symbols[..], shape, INITIAL.contexts)
    {
      var root;
      root, nextSymbol := CreateSymbol(0, 0, 0);
      symbols[root] := symbols[root].(escapes := CONTEXT_ESCAPE_MINIMUM,
                                      total := CONTEXT_ESCAPE_MINIMUM + 256 * CONTEXT_SYMBOL_MINIMUM, symbols := 0);
      shape := ROOT_SHAPE;
      FreshArena(symbols[..]);
    }

    /** nextInput and ENET_RANGE_CODER_FREE_SYMBOLS: move to the next context, and start over when symbols run out. */
    method NextInput(predicted: nat, order: nat, nextSymbol: nat)
      returns (predicted': nat, order': nat, nextSymbol': nat)
      requires Wf(symbols[..], shape) && Balanced(symbols[..], shape, -1) && Linked(symbols[..], shape, -1)
      requires predicted < nextSymbol == |shape.paths| && |shape.paths[predicted]| == order + 1 <= MAXIMUM_PATH
      modifies symbols, this`shape
      ensures Wf(symbols[..], shape) && Balanced(symbols[..], shape, -1) && Linked(symbols[..], shape, -1)
      ensures predicted' < nextSymbol' == |shape.paths| && |shape.paths[predicted']| == order' <= SUBCONTEXT_ORDER
      ensures nextSymbol' < ARENA_SIZE - SUBCONTEXT_ORDER
      ensures if nextSymbol >= ARENA_SIZE - SUBCONTEXT_ORDER then
                shape == ROOT_SHAPE && predicted' == 0 && Tells(symbols[..], shape, INITIAL.contexts)
              else
                && symbols[..] == old(symbols[..]) && shape == old(shape)
                && var p := shape.paths[predicted];
                shape.paths[predicted'] == if order >= SUBCONTEXT_ORDER then p[1..] else p
    {
      hide Wf, Balanced, Tells;
      WfSizes(symbols[..], shape);
      predicted', order', nextSymbol' := predicted, order, nextSymbol;
      if order >= SUBCONTEXT_ORDER {
        LinkedAt(symbols[..], shape, -1, predicted);
        predicted' := symbols[predicted].parent;
      } else {
        order' := order + 1;
      }
      if nextSymbol' >= symbols.Length - SUBCONTEXT_ORDER {
        nextSymbol' := CreateRoot();
        predicted', order' := 0, 0;
      }
    }

    /** enet_range_coder_compress: the code, or 0 if it does not fit. */
    method Compress(inBuffers: seq<Buffer>, inLimit: nat, outData: array<uint8>, outLimit: nat) returns (n: nat)
      requires symbols.Length == ARENA_SIZE && outLimit <= outData.Length && (inLimit != 0 ==> BytesRead(inBuffers).Some?)
      modifies symbols, this`shape, outData
      ensures inBuffers == [] || inLimit == 0 ==> n == 0
      ensures inBuffers != [] && inLimit != 0 ==>
                var code := Compressed(BytesRead(inBuffers).value);
                if |code| <= outLimit then n == |code| && outData[..n] == code else n == 0
    {
      hide Wf, Balanced, Linked, Tells, Encoding, AllSlots, Advance, Slots, Compressed, Learned, Created, Emitted, Renormalise, Unread, BytesRead, ReadLater;
      if |inBuffers| == 0 || inLimit == 0 { return 0; }
      var low: uint32, range: uint32 := 0, 0xFFFF_FFFF;
      var order, outPos: nat, predicted: nat := 0, 0, 0;
      var inData, inPos, nextBuffer: nat := inBuffers[0], 0, 1;
      var nextSymbol := CreateRoot();
      ghost var m, rest, code := INITIAL, BytesRead(inBuffers).value, Compressed(BytesRead(inBuffers).value);
      UnreadStart(inBuffers);
      CompressedStart(rest);
      while true
        invariant 1 <= nextBuffer <= |inBuffers| && ReadLater(inBuffers[nextBuffer..]).Some?
        invariant rest == Unread(inData, inPos, inBuffers[nextBuffer..])
        invariant ModelOk(m) && Tells(symbols[..], shape, m.contexts)
        invariant Wf(symbols[..], shape) && Balanced(symbols[..], shape, -1) && Linked(symbols[..], shape, -1)
        invariant predicted < nextSymbol == |shape.paths| == m.nextSymbol
        invariant shape.paths[predicted] == m.history && |m.history| == order
        invariant outPos <= outLimit && Ready(Coder(low, range))
        invariant outData[..outPos] + Encoding(Coder(low, range), AllSlots(m, rest)) == code
        decreases |rest|
      {
        UnreadTurn(inData, inPos, inBuffers, nextBuffer);
        if inPos >= |inData.data| {
          if nextBuffer >= |inBuffers| { break; }
          inData, inPos, nextBuffer := inBuffers[nextBuffer], 0, nextBuffer + 1;
        }
        var value := ByteAt(inData, inPos);
        inPos := inPos + 1;
        rest := Unread(inData, inPos, inBuffers[nextBuffer..]);
        AllSlotsStep(m, value, rest);
        var ok;
        ok, predicted, nextSymbol, low, range, outPos :=
          EncodeByte(value, predicted, nextSymbol, low, range, outData, outPos, outLimit, m, AllSlots(Advance(m, value), rest));
        if !ok { return 0; }
        predicted, order, nextSymbol := NextInput(predicted, order, nextSymbol);
        AdvanceFacts(m, value);
        m := Advance(m, value);
      }
      AllSlotsEnd(m, Coder(low, range));
      var ok;
      ok, outPos := FlushLow(low, outData, outPos, outLimit);
      if !ok { return 0; }
      n := outPos;
    }

    /** The body of the decoder's loop over subcontexts. For a decoder in step with an encoder (good), d is what
        context c tells, and what follows in the stream is the code of v and then of us, or nothing (atEnd). */
    method DecodeInSubcontext(c: nat, nextSymbol: nat, low: uint32, range: uint32, code: uint32, inData: seq<uint8>, inPos: nat,
                              ghost w: nat, ghost good: bool, ghost atEnd: bool, ghost d: Context, ghost v: uint8, ghost us: seq<Slot>)
      returns (failed: bool, found: bool, symbol: nat, value: uint8,
               low': uint32, range': uint32, code': uint32, inPos': nat, ghost w': nat)
      requires Wf(symbols[..], shape) && Balanced(symbols[..], shape, -1) && Linked(symbols[..], shape, -1)
      requires nextSymbol == |shape.paths| && 0 < c < nextSymbol < ARENA_SIZE && |shape.paths[c]| <= SUBCONTEXT_ORDER
      requires BOTTOM <= range && Positioned(inData, inPos, code, w)
      requires good ==> && TellsContext(symbols[..], shape.trees[c], c, d) && SubcontextOk(d)
                        && Ready(Coder(low, range)) && AllFit(us)
                        && Drop(inData, w) == if atEnd then Flush(low) else Encoding(Coder(low, range), SubcontextSlots(d, v) + us)
      modifies symbols, this`shape
      ensures BOTTOM <= range' && Positioned(inData, inPos', code', w')
      ensures !failed && !found ==> symbols[..] == old(symbols[..]) && shape == old(shape)
      ensures !failed && found ==> && Wf(symbols[..], shape) && Balanced(symbols[..], shape, -1)
                                   && Touched(old(symbols[..]), old(shape), symbols[..], shape, c)
                                   && shape.paths == old(shape).paths
                                   && c < symbol < nextSymbol && shape.paths[symbol] == shape.paths[c] + [value]
                                   && (forall i :: 0 <= i < nextSymbol ==> symbols[i].parent == old(symbols[..])[i].parent)
      ensures good && atEnd ==> !failed && !found && Ready(Coder(low', range')) && Drop(inData, w') == Flush(low')
      ensures good && !atEnd ==> && !failed && found == (d.freq[v] > 0)
                                 && Ready(Coder(low', range')) && Drop(inData, w') == Encoding(Coder(low', range'), us)
                                 && (found ==> value == v && TellsContext(symbols[..], shape.trees[c], c, SubcontextAfter(d, v)))
    {
      hide Heard, Holds, Shaped, CountsIn, Wf, Linked, TellsContext, Below, Encoding, SubcontextAfter, Renormalise, Emitted,
           Descended, Decode, Search, Along, End, Leads, Entered, Bump, Drop, Window, Flush, Touched, Tabulates, Sorted, Adapted;
      WfSizes(symbols[..], shape);
      failed, found, symbol, value := false, false, 0, 0;
      low', range', code', inPos', w' := low, range, code, inPos, w;
      ghost var a, s, t0 := symbols[..], shape, Coder(low, range);
      if good {
        TellsSlots(a, s, c, v, d);
      }
      assert Accounts(a, c, s.trees[c], 0) by { BalancedAt(a, s, c); }
      if symbols[c].escapes <= 0 {
        assert good ==> SubcontextSlots(d, v) + us == us;
        return;
      }
      var total, escapes := symbols[c].total, symbols[c].escapes;
      if escapes >= total {
        assert good ==> SubcontextSlots(d, v) + us == us;
        return;
      }
      var symbolCode, unit := ReadCode(code, low, range, total);
      ghost var slot := Slot(0, escapes, total);
      if good {
        if atEnd {
          ReadEnd(inData, w, code, t0, slot);
        } else {
          slot := SubcontextSlots(d, v)[0];
          assert SubcontextSlots(d, v) == [slot];
          ReadStep(inData, w, code, t0, slot, us);
        }
        assert symbolCode < escapes <==> atEnd || d.freq[v] == 0;
        StepIsRenormalise(t0, slot);
      }
      if symbolCode < escapes {
        UnitShare(range, total, escapes);
        low', range', code', inPos', w' := Consume(low, unit, 0, escapes, code, inData, inPos, w);
        assert good ==> Coder(low', range') == Step(t0, slot) && w' == w + |StepBytes(t0, slot)|;
        return;
      }
      symbolCode := symbolCode - escapes;
      if good {
        DecodeTells(a, s, c, symbolCode, v, d);
      }
      var ok, under, count, next;
      ok, symbol, value, under, count, next := ContextDecode(c, symbolCode, SUBCONTEXT_SYMBOL_DELTA, 0, false, nextSymbol);
      if !ok {
        failed := true;
        return;
      }
      found := true;
      ghost var p := Decode(s.trees[c], symbolCode, 0, 0);
      EnterFacts(a, s, c, p, value, SUBCONTEXT_SYMBOL_DELTA, -1);
      UnitShare(range, total, count);
      if good {
        EnterTells(a, s, c, v, SUBCONTEXT_SYMBOL_DELTA, d);
        assert slot.under == (escapes as int) + under && slot.count == count && slot.total == total;
      }
      low', range', code', inPos', w' := Consume(low, unit, (escapes as int) + under, count, code, inData, inPos, w);
      assert good ==> Coder(low', range') == Step(t0, slot) && w' == w + |StepBytes(t0, slot)|;
      ghost var b, s' := symbols[..], shape;
      FinishSubcontext(c, value, count, d);
      TouchedAgain(a, s, b, s', symbols[..], shape, c);
    }

    /** The decoder's step in the order-0 context, whose escape ends the stream. */
    method DecodeInRoot(nextSymbol: nat, low: uint32, range: uint32, code: uint32, inData: seq<uint8>, inPos: nat,
                        ghost w: nat, ghost good: bool, ghost atEnd: bool, ghost d: Context, ghost v: uint8, ghost us: seq<Slot>)
      returns (ended: bool, symbol: nat, value: uint8, nextSymbol': nat,
               low': uint32, range': uint32, code': uint32, inPos': nat, ghost w': nat)
      requires Wf(symbols[..], shape) && Balanced(symbols[..], shape, -1) && Linked(symbols[..], shape, -1)
      requires nextSymbol == |shape.paths| < ARENA_SIZE
      requires BOTTOM <= range && Positioned(inData, inPos, code, w)
      requires good ==> && TellsContext(symbols[..], shape.trees[0], 0, d) && Bounded(d, CONTEXT_COUNT_CAP, 1)
                        && Ready(Coder(low, range)) && AllFit(us)
                        && Drop(inData, w) == if atEnd then Flush(low) else Encoding(Coder(low, range), [SymbolSlot(d, v, 1)] + us)
      modifies symbols, this`shape
      ensures BOTTOM <= range' && Positioned(inData, inPos', code', w')
      ensures !ended ==> && Wf(symbols[..], shape) && Balanced(symbols[..], shape, -1) && Linked(symbols[..], shape, -1)
                         && Touched(old(symbols[..]), old(shape), symbols[..], shape, 0)
                         && 0 < symbol < nextSymbol' == |shape.paths| && shape.paths[symbol] == [value]
                         && shape.paths == (if nextSymbol' == nextSymbol then old(shape).paths else old(shape).paths + [[value]])
                         && (forall i :: 0 <= i < nextSymbol ==> symbols[i].parent == old(symbols[..])[i].parent)
      ensures good && atEnd ==> ended
      ensures good && !atEnd ==> && !ended && value == v && nextSymbol' == nextSymbol + (if d.freq[v] > 0 then 0 else 1)
                                 && Ready(Coder(low', range')) && Drop(inData, w') == Encoding(Coder(low', range'), us)
                                 && TellsContext(symbols[..], shape.trees[0], 0, RootAfter(d, v))
    {
      hide Fits, Nodes, Sum, Heard, Balanced, Holds, Shaped, CountsIn, Linked, TellsContext, Below, Encoding, Adapted, Renormalise, Emitted,
           Descended, Decode, Search, Along, End, Leads, Entered, Bump, Drop, Window, Flush, Wf, Step, StepBytes, Touched,
           SymbolSlot, Tabulates, Sorted, Wrap8;
      WfSizes(symbols[..], shape);
      ended, symbol, value, nextSymbol' := false, 0, 0, nextSymbol;
      low', range', code', inPos', w' := low, range, code, inPos, w;
      ghost var a, s, t0 := symbols[..], shape, Coder(low, range);
      if good {
        TellsRootSlot(a, s, v, d);
      }
      assert Accounts(a, 0, s.trees[0], 0) by { BalancedAt(a, s, 0); }
      var total, escapes := symbols[0].total, symbols[0].escapes;
      var symbolCode, unit := ReadCode(code, low, range, total);
      ghost var slot := Slot(0, escapes, total);
      if good {
        if atEnd {
          ReadEnd(inData, w, code, t0, slot);
        } else {
          slot := SymbolSlot(d, v, 1);
          ReadStep(inData, w, code, t0, slot, us);
        }
        assert symbolCode < escapes <==> atEnd;
      }
      if symbolCode < escapes {
        UnitShare(range, total, escapes);
        low', range', code', inPos', w' := Consume(low, unit, 0, escapes, code, inData, inPos, w);
        ended := true;
        return;
      }
      symbolCode := symbolCode - escapes;
      if good {
        DecodeTells(a, s, 0, symbolCode, v, d);
      }
      var ok, under, count;
      ok, symbol, value, under, count, nextSymbol' :=
        ContextDecode(0, symbolCode, CONTEXT_SYMBOL_DELTA, CONTEXT_SYMBOL_MINIMUM, true, nextSymbol);
      ghost var p := Decode(s.trees[0], symbolCode, 0, 1);
      EnterFacts(a, s, 0, p, value, CONTEXT_SYMBOL_DELTA, -1);
      UnitShare(range, total, count);
      if good {
        assert value == v;
        EnterTells(a, s, 0, v, CONTEXT_SYMBOL_DELTA, d);
        assert slot.under == (escapes as int) + under && slot.count == count && slot.total == total;
      }
      low', range', code', inPos', w' := Consume(low, unit, (escapes as int) + under, count, code, inData, inPos, w);
      if good {
        ConsumedSlot(t0, slot, unit, (escapes as int) + under, count, Coder(low', range'), w' - w);
      }
      ghost var b, s' := symbols[..], shape;
      Settle(0, count, CONTEXT_SYMBOL_DELTA, CONTEXT_COUNT_LIMIT, CONTEXT_SYMBOL_MINIMUM,
             if count - 1 + CONTEXT_SYMBOL_DELTA <= CONTEXT_COUNT_CAP then CONTEXT_COUNT_CAP else 0xFF,
             Heard(d, v, CONTEXT_SYMBOL_DELTA));
      TouchedAgain(a, s, b, s', symbols[..], shape, 0);
      SameParentsLinked(b, s', symbols[..], shape, -1);
    }

    /** The body of the decoder's patch loop. */
    method PatchOne(c: nat, value: uint8, q: int, predicted: nat, nextSymbol: nat, ghost d: Context)
      returns (symbol: nat, predicted': nat, nextSymbol': nat)
      requires Wf(symbols[..], shape) && Balanced(symbols[..], shape, -1) && Linked(symbols[..], shape, q)
      requires nextSymbol == |shape.paths| && 0 < c < nextSymbol < ARENA_SIZE && |shape.paths[c]| <= SUBCONTEXT_ORDER
      requires q == -1 || (0 <= q < nextSymbol && shape.paths[q] != [] && shape.paths[q][1..] == shape.paths[c] + [value])
      modifies symbols, this`shape
      ensures Wf(symbols[..], shape) && Balanced(symbols[..], shape, -1) && Linked(symbols[..], shape, symbol)
      ensures Touched(old(symbols[..]), old(shape), symbols[..], shape, c)
      ensures nextSymbol' == |shape.paths| && nextSymbol <= nextSymbol' <= nextSymbol + 1
      ensures c < symbol < nextSymbol' && shape.paths[symbol] == shape.paths[c] + [value]
      ensures forall i :: 0 <= i < nextSymbol && i != q ==> symbols[i].parent == old(symbols[..])[i].parent
      ensures predicted' == if q < 0 then symbol else predicted
      ensures TellsContext(old(symbols[..]), old(shape).trees[c], c, d) ==>
                && TellsContext(symbols[..], shape.trees[c], c, SubcontextAfter(d, value))
                && shape.paths == (if d.freq[value] == 0 then old(shape).paths + [shape.paths[c] + [value]] else old(shape).paths)
    {
      hide Holds, Shaped, CountsIn, Wf, TellsContext, Below, SubcontextAfter, Balanced;
      WfSizes(symbols[..], shape);
      ghost var a, s := symbols[..], shape;
      var under, count;
      symbol, under, count, predicted', nextSymbol' :=
        Visit(c, value, SUBCONTEXT_SYMBOL_DELTA, 0, q, predicted, nextSymbol, d);
      ghost var b, s' := symbols[..], shape;
      FinishSubcontext(c, value, count, d);
      TouchedAgain(a, s, b, s', symbols[..], shape, c);
      SameParentsLinked(b, s', symbols[..], shape, symbol);
    }

    /** *parent = bottom. */
    method JoinBottom(q: int, predicted: nat, bottom: nat, ghost contexts: map<History, Context>) returns (predicted': nat)
      requires Wf(symbols[..], shape) && Balanced(symbols[..], shape, -1) && Linked(symbols[..], shape, q)
      requires bottom < |shape.paths|
      requires q == -1 || (0 <= q < |shape.paths| && shape.paths[q] != [] && shape.paths[bottom] == shape.paths[q][1..])
      modifies symbols
      ensures Wf(symbols[..], shape) && Balanced(symbols[..], shape, -1) && Linked(symbols[..], shape, -1)
      ensures old(Tells(symbols[..], shape, contexts)) ==> Tells(symbols[..], shape, contexts)
      ensures predicted' == if q < 0 then bottom else predicted
    {
      hide Wf, Balanced, Linked, Tells;
      WfSizes(symbols[..], shape);
      predicted' := predicted;
      if q < 0 {
        predicted' := bottom;
      } else {
        ghost var b := symbols[..];
        LinkLast(b, shape, q, bottom);
        if Tells(b, shape, contexts) {
          LinkTells(b, shape, q, Wrap16(bottom), contexts);
        }
        symbols[q] := symbols[q].(parent := Wrap16(bottom));
        assert symbols[..] == b[q := b[q].(parent := Wrap16(bottom))];
      }
    }

    /** patchContexts: enters a decoded value in the longer contexts that escaped, and joins their symbols to `bottom`. */
    method PatchContexts(predicted: nat, subcontext: nat, value: uint8, bottom: nat, nextSymbol: nat, ghost chain: seq<nat>,
                         ghost good: bool, ghost contexts: map<History, Context>, ghost d: Context)
      returns (predicted': nat, nextSymbol': nat)
      requires Wf(symbols[..], shape) && Balanced(symbols[..], shape, -1) && Linked(symbols[..], shape, -1)
      requires nextSymbol == |shape.paths| && nextSymbol + |chain| - 1 <= ARENA_SIZE
      requires Chained(symbols[..], shape, chain) && chain[0] == predicted && chain[|chain| - 1] == subcontext
      requires |shape.paths[predicted]| <= SUBCONTEXT_ORDER
      requires bottom < nextSymbol && shape.paths[bottom] == shape.paths[subcontext] + [value]
      requires good ==> && ContextsOk(contexts) && Tells(symbols[..], shape, contexts[shape.paths[subcontext] := d])
                        && Skipped(shape, contexts, chain, value)
                        && FoundIn(contexts, shape.paths[subcontext], value, d)
      modifies symbols, this`shape
      ensures Wf(symbols[..], shape) && Balanced(symbols[..], shape, -1) && Linked(symbols[..], shape, -1)
      ensures predicted' < nextSymbol' == |shape.paths| <= nextSymbol + |chain| - 1
      ensures old(shape).paths <= shape.paths && shape.paths[predicted'] == old(shape).paths[predicted] + [value]
      ensures good ==> var k, h := old(shape).paths[subcontext], old(shape).paths[predicted];
                       && Tells(symbols[..], shape, Learned(contexts, h, value))
                       && nextSymbol' + Created(contexts, k, value) == nextSymbol + Created(contexts, h, value)
    {
      hide Heard, Wf, Balanced, Linked, Tells, Touched, Chained, Learned, Created, Agree, FoundIn, SubcontextAfter,
           ContextsOk, SubcontextOk, Lookup, TellsContext, Slots, SubcontextSlots, AllFit, Fits, ModelOk, Pending, Skipped;
      WfSizes(symbols[..], shape);
      predicted', nextSymbol' := predicted, nextSymbol;
      var q: int, patch: nat := -1, predicted;
      ChainEnds(symbols[..], shape, chain);
      PendingStart(shape, predicted, shape.paths[predicted], value);
      ghost var left: seq<nat>, x, k, h, end := chain, contexts, shape.paths[predicted], shape.paths[predicted], shape.paths[subcontext];
      AgreeSelf(x, |k|);
      while patch != subcontext
        invariant 1 <= |left| <= |chain|
        invariant nextSymbol <= nextSymbol' == |shape.paths| <= nextSymbol + |chain| - |left|
        invariant old(shape).paths <= shape.paths
        invariant Chained(symbols[..], shape, left) && left[0] == patch && left[|left| - 1] == subcontext
        invariant |left| > 1 <==> patch != subcontext
        invariant Wf(symbols[..], shape) && Balanced(symbols[..], shape, -1) && Linked(symbols[..], shape, q)
        invariant patch < nextSymbol && shape.paths[patch] == k && |k| <= |h|
        invariant Pending(shape, q, predicted', h, k, value)
        invariant forall i :: 0 <= i < |left| ==> left[i] < |shape.paths|
        invariant good ==> Skipped(shape, contexts, left, value)
        invariant good ==> && Tells(symbols[..], shape, x[end := d]) && Agree(x, contexts, |k|)
                           && Learned(x, k, value) == Learned(contexts, h, value)
                           && nextSymbol' + Created(contexts, k, value) == nextSymbol + Created(contexts, h, value)
        decreases |left|
      {
        ghost var a, s, e := symbols[..], shape, Lookup(contexts, k);
        ChainTail(a, s, left);
        ChainEnds(a, s, left);
        ghost var was := predicted';
        PendingAt(s, q, was, h, k, value);
        var symbol;
        symbol, predicted', nextSymbol' := PatchOne(patch, value, q, predicted', nextSymbol', e);
        TouchedPaths(a, s, symbols[..], shape, patch);
        WfSizes(symbols[..], shape);
        ChainKept(a, s, symbols[..], shape, left[1..], q);
        PendingNext(s, q, was, h, k, value, shape, symbol, predicted');
        if good {
          SkippedTail(s, shape, contexts, left, value);
          PatchTells(a, s, contexts, x, end, d, patch, value, symbols[..], shape);
        }
        x, k, left := x[k := SubcontextAfter(e, value)], k[1..], left[1..];
        q, patch := symbol, symbols[patch].parent;
      }
      if good {
        WalkEnd(contexts, x, k, value, d);
      }
      PendingAt(shape, q, predicted', h, k, value);
      assert shape.paths[bottom] == k + [value];
      predicted' := JoinBottom(q, predicted', bottom, Learned(contexts, h, value));
    }

    /** The decoder's search from `predicted` down for the subcontext that knows the next byte; subcontext is 0 if
        none does, and chain lists the contexts that were tried. */
    method FindContext(predicted: nat, nextSymbol: nat, low: uint32, range: uint32, code: uint32, inData: seq<uint8>, inPos: nat,
                       ghost w: nat, ghost good: bool, ghost atEnd: bool,
                       ghost contexts: map<History, Context>, ghost v: uint8, ghost us: seq<Slot>)
      returns (failed: bool, subcontext: nat, bottom: nat, value: uint8,
               low': uint32, range': uint32, code': uint32, inPos': nat, ghost w': nat, ghost chain: seq<nat>)
      requires Wf(symbols[..], shape) && Balanced(symbols[..], shape, -1) && Linked(symbols[..], shape, -1)
      requires predicted < nextSymbol == |shape.paths| < ARENA_SIZE && |shape.paths[predicted]| <= SUBCONTEXT_ORDER
      requires BOTTOM <= range && Positioned(inData, inPos, code, w)
      requires good ==> && ContextsOk(contexts) && Tells(symbols[..], shape, contexts) && Ready(Coder(low, range)) && AllFit(us)
                        && Drop(inData, w) == if atEnd then Flush(low)
                                              else Encoding(Coder(low, range), Slots(contexts, shape.paths[predicted], v) + us)
      modifies symbols, this`shape
      ensures BOTTOM <= range' && Positioned(inData, inPos', code', w')
      ensures !failed ==> && Wf(symbols[..], shape) && Balanced(symbols[..], shape, -1) && Linked(symbols[..], shape, -1)
                          && shape.paths == old(shape).paths && Chained(symbols[..], shape, chain) && |chain| >= 1
                          && chain[0] == predicted && chain[|chain| - 1] == subcontext < nextSymbol
      ensures !failed && subcontext == 0 ==> symbols[..] == old(symbols[..]) && shape == old(shape)
      ensures !failed && subcontext != 0 ==> bottom < nextSymbol && shape.paths[bottom] == shape.paths[subcontext] + [value]
      ensures good ==> !failed && Ready(Coder(low', range'))
      ensures good && atEnd ==> subcontext == 0 && Drop(inData, w') == Flush(low')
      ensures good && !atEnd ==>
                var k := shape.paths[subcontext];
                && Skipped(shape, contexts, chain, v)
                && (subcontext == 0 ==> Awaits(inData, w', Coder(low', range'), Slots(contexts, [], v) + us))
                && (subcontext != 0 ==>
                      && value == v && FoundIn(contexts, k, v, SubcontextAfter(Lookup(contexts, k), v))
                      && Awaits(inData, w', Coder(low', range'), us)
                      && Tells(symbols[..], shape, contexts[k := SubcontextAfter(Lookup(contexts, k), v)]))
    {
      hide Holds, Shaped, CountsIn, Linked, Balanced, TellsContext, Encoding, Learned, Created, Slots, SubcontextSlots,
           SubcontextAfter, Wf, Touched, Tells, Agree, Bounded, Fits, Ready, Valid, ContextsOk, SubcontextOk, Lookup,
           Drop, Flush, Chained, Positioned, Window;
      WfSizes(symbols[..], shape);
      failed, subcontext, bottom, value, chain := false, predicted, 0, 0, [predicted];
      low', range', code', inPos', w' := low, range, code, inPos, w;
      ghost var k: History := shape.paths[predicted];
      ChainStart(symbols[..], shape, predicted);
      while subcontext != 0
        invariant symbols[..] == old(symbols[..]) && shape == old(shape)
        invariant BOTTOM <= range' && Positioned(inData, inPos', code', w')
        invariant Chained(symbols[..], shape, chain) && |chain| >= 1
        invariant forall i :: 0 <= i < |chain| ==> chain[i] < |shape.paths|
        invariant chain[0] == predicted && chain[|chain| - 1] == subcontext < nextSymbol
        invariant shape.paths[subcontext] == k && |k| <= SUBCONTEXT_ORDER && (subcontext == 0 <==> k == [])
        invariant good ==> Ready(Coder(low', range'))
        invariant good && atEnd ==> Drop(inData, w') == Flush(low')
        invariant good && !atEnd ==> Drop(inData, w') == Encoding(Coder(low', range'), Slots(contexts, k, v) + us)
        invariant good && !atEnd ==> Skipped(shape, contexts, chain, v)
        decreases |k|
      {
        ghost var a, s, d := symbols[..], shape, Lookup(contexts, k);
        if good {
          AgreeSelf(contexts, |k|);
          WalkStep(contexts, contexts, k, v, us);
          TellsAt(a, s, contexts, subcontext);
        }
        LinkedAt(a, s, -1, subcontext);
        var found;
        failed, found, bottom, value, low', range', code', inPos', w' :=
          DecodeInSubcontext(subcontext, nextSymbol, low', range', code', inData, inPos', w', good, atEnd, d, v,
                             if d.freq[v] > 0 || !good || atEnd then us else Slots(contexts, k[1..], v) + us);
        if failed { return; }
        if found {
          TouchedPaths(a, s, symbols[..], shape, subcontext);
          WfSizes(symbols[..], shape);
          ChainKept(a, s, symbols[..], shape, chain, -1);
          SameParentsLinked(a, s, symbols[..], shape, -1);
          if good {
            VisitTells(a, s, contexts, symbols[..], shape, subcontext, v, SubcontextAfter(d, v));
          }
          return;
        }
        if good && !atEnd {
          SkippedStep(s, contexts, chain, symbols[subcontext].parent, v);
        }
        ChainStep(a, s, chain);
        chain := chain + [symbols[subcontext].parent as nat];
        subcontext, k := symbols[subcontext].parent, k[1..];
      }
    }

    /** Decodes one byte; `ended` after the root's escape, `failed` on a code no encoder produces. */
    method DecodeByte(predicted: nat, nextSymbol: nat, low: uint32, range: uint32, code: uint32, inData: seq<uint8>, inPos: nat,
                      ghost w: nat, ghost good: bool, ghost atEnd: bool, ghost m: Model, ghost v: uint8, ghost us: seq<Slot>)
      returns (failed: bool, ended: bool, value: uint8, predicted': nat, nextSymbol': nat,
               low': uint32, range': uint32, code': uint32, inPos': nat, ghost w': nat)
      requires Wf(symbols[..], shape) && Balanced(symbols[..], shape, -1) && Linked(symbols[..], shape, -1)
      requires predicted < nextSymbol == |shape.paths| < ARENA_SIZE - SUBCONTEXT_ORDER
      requires |shape.paths[predicted]| <= SUBCONTEXT_ORDER
      requires BOTTOM <= range && Positioned(inData, inPos, code, w)
      requires good ==> && ModelOk(m) && Tells(symbols[..], shape, m.contexts)
                        && nextSymbol == m.nextSymbol && shape.paths[predicted] == m.history
                        && Ready(Coder(low, range)) && AllFit(us)
                        && Drop(inData, w) == if atEnd then Flush(low)
                                              else Encoding(Coder(low, range), Slots(m.contexts, m.history, v) + us)
      modifies symbols, this`shape
      ensures BOTTOM <= range' && Positioned(inData, inPos', code', w')
      ensures !failed && !ended ==> && Wf(symbols[..], shape) && Balanced(symbols[..], shape, -1) && Linked(symbols[..], shape, -1)
                                    && predicted' < nextSymbol' == |shape.paths|
                                    && |shape.paths[predicted']| == |old(shape).paths[predicted]| + 1
      ensures good && atEnd ==> !failed && ended
      ensures good && !atEnd ==> && !failed && !ended && value == v
                                 && Ready(Coder(low', range')) && Drop(inData, w') == Encoding(Coder(low', range'), us)
                                 && Tells(symbols[..], shape, Learned(m.contexts, m.history, v))
                                 && nextSymbol' == nextSymbol + Created(m.contexts, m.history, v)
                                 && shape.paths[predicted'] == m.history + [v]
    {
      hide Holds, Shaped, CountsIn, Linked, Balanced, TellsContext, Encoding, Learned, Created, Slots, SubcontextSlots,
           SubcontextAfter, RootAfter, Wf, Touched, Tells, Agree, Bounded, Fits, Ready, Valid, ContextsOk, SubcontextOk, Lookup,
           Drop, Flush, Chained, Positioned, Window;
      WfSizes(symbols[..], shape);
      predicted', nextSymbol', ended := predicted, nextSymbol, false;
      ghost var a, s, synced := symbols[..], shape, good && !atEnd;
      var subcontext, bottom: nat;
      ghost var chain;
      failed, subcontext, bottom, value, low', range', code', inPos', w', chain :=
        FindContext(predicted, nextSymbol, low, range, code, inData, inPos, w, good, atEnd, m.contexts, v, us);
      if failed { return; }
      ghost var k := shape.paths[subcontext];
      ghost var d := SubcontextAfter(Lookup(m.contexts, k), v);
      if subcontext == 0 {
        ghost var root := Lookup(m.contexts, []);
        if good {
          AgreeSelf(m.contexts, 0);
          WalkRoot(m.contexts, m.contexts, v, us);
          TellsAt(a, s, m.contexts, 0);
        }
        ended, bottom, value, nextSymbol', low', range', code', inPos', w' :=
          DecodeInRoot(nextSymbol, low', range', code', inData, inPos', w', good, atEnd, root, v, us);
        if ended { return; }
        TouchedPaths(a, s, symbols[..], shape, 0);
        WfSizes(symbols[..], shape);
        ChainKept(a, s, symbols[..], shape, chain, -1);
        d := RootAfter(root, v);
        assert k == [];
        if synced {
          assert s.paths[0] + [v] == [v];
          VisitTells(a, s, m.contexts, symbols[..], shape, 0, v, d);
        }
      } else if synced {
        CreatedWhereFound(m.contexts, k, v, d);
      }
      ChainEnds(symbols[..], shape, chain);
      predicted', nextSymbol' :=
        PatchContexts(predicted, subcontext, value, bottom, nextSymbol', chain, synced, m.contexts, d);
    }

    /** enet_range_coder_decompress, on any bytes whatever: it stays inside the arena and the output limit, and
        ends. On the code of an input that fits the output it returns that input. */
    method Decompress(inData: seq<uint8>, outData: array<uint8>, outLimit: nat) returns (n: nat)
      requires symbols.Length == ARENA_SIZE && outLimit <= outData.Length
      modifies symbols, this`shape, outData
      ensures n <= outLimit && (inData == [] ==> n == 0)
      ensures forall original :: inData == Compressed(original) ==>
                if |original| <= outLimit then n == |original| && outData[..n] == original else n == 0
    {
      hide Compressed;
      CodeOfNothing([]);
      if |inData| <= 0 {
        forall original | inData == Compressed(original)
          ensures original == []
        {
          CodeOfNothing(original);
        }
        return 0;
      }
      ghost var good, original: seq<uint8> := false, [];
      if x :| inData == Compressed(x) {
        good, original := true, x;
      }
      n := DecompressCode(inData, outData, outLimit, good, original);
      forall other | inData == Compressed(other)
        ensures other == original
      {
        UniquelyDecodable(original, other);
      }
    }

    method DecompressCode(inData: seq<uint8>, outData: array<uint8>, outLimit: nat, ghost good: bool, ghost original: seq<uint8>)
      returns (n: nat)
      requires symbols.Length == ARENA_SIZE && outLimit <= outData.Length && inData != []
      requires good ==> inData == Compressed(original)
      modifies symbols, this`shape, outData
      ensures n <= outLimit
      ensures good ==> if |original| <= outLimit then n == |original| && outData[..n] == original else n == 0
    {
      hide Wf, Balanced, Linked, Tells, Encoding, AllSlots, Advance, Slots, Compressed, Learned, Created, Flush, Drop, Positioned,
           Ready, ModelOk, Fits, ContextsOk, SubcontextOk, Emitted, Renormalise, Lookup, Window;
      var low: uint32, range: uint32 := 0, 0xFFFF_FFFF;
      var order, outPos: nat, predicted: nat := 0, 0, 0;
      var nextSymbol := CreateRoot();
      var code, inPos := Seed(inData);
      ghost var m, rest, w: nat := INITIAL, original, 0;
      if good {
        CompressedStart(original);
        DropNone(inData);
      }
      while true
        invariant Wf(symbols[..], shape) && Balanced(symbols[..], shape, -1) && Linked(symbols[..], shape, -1)
        invariant predicted < nextSymbol == |shape.paths| < ARENA_SIZE - SUBCONTEXT_ORDER
        invariant |shape.paths[predicted]| == order <= SUBCONTEXT_ORDER
        invariant outPos <= outLimit && BOTTOM <= range && Positioned(inData, inPos, code, w)
        invariant good ==> && ModelOk(m) && Tells(symbols[..], shape, m.contexts)
                           && nextSymbol == m.nextSymbol && shape.paths[predicted] == m.history
                           && Ready(Coder(low, range)) && Drop(inData, w) == Encoding(Coder(low, range), AllSlots(m, rest))
                           && outData[..outPos] + rest == original
        decreases outLimit - outPos
      {
        ghost var atEnd := rest == [];
        ghost var v: uint8 := if atEnd then 0 else rest[0];
        ghost var us: seq<Slot> := [];
        if good {
          if atEnd {
            AllSlotsEnd(m, Coder(low, range));
          } else {
            assert rest == [v] + rest[1..];
            AllSlotsStep(m, v, rest[1..]);
            us := AllSlots(Advance(m, v), rest[1..]);
          }
        }
        var failed, ended, value;
        failed, ended, value, predicted, nextSymbol, low, range, code, inPos, w :=
          DecodeByte(predicted, nextSymbol, low, range, code, inData, inPos, w, good, atEnd, m, v, us);
        if failed { return 0; }
        if ended { break; }
        if outPos >= outLimit { return 0; }
        ghost var before := outData[..outPos];
        outData[outPos] := value;
        outPos := outPos + 1;
        assert outData[..outPos] == before + [value];
        predicted, order, nextSymbol := NextInput(predicted, order, nextSymbol);
        if good {
          AdvanceFacts(m, v);
          m, rest := Advance(m, v), rest[1..];
        }
      }
      n := outPos;
    }
  }

  /** What one peer compresses, another peer's own coder decompresses, if it allows for as much output. */
  method RoundTrip(sender: RangeCoder, receiver: RangeCoder, inBuffers: seq<Buffer>, inLimit: nat,
                   outData: array<uint8>, outLimit: nat, result: array<uint8>, resultLimit: nat)
    returns (n: nat, length: nat)
    requires sender.symbols.Length == receiver.symbols.Length == ARENA_SIZE
    requires BytesRead(inBuffers).Some?
    requires outLimit <= outData.Length && resultLimit <= result.Length && outData != result
    modifies sender, sender.symbols, receiver, receiver.symbols, outData, result
    ensures n > 0 && |BytesRead(inBuffers).value| <= resultLimit ==>
              && length == |BytesRead(inBuffers).value| && result[..length] == BytesRead(inBuffers).value
              && (result[..length] == Concat(inBuffers) <==> forall i :: 1 <= i < |inBuffers| ==> inBuffers[i].data != [])
    ensures n > 0 && |BytesRead(inBuffers).value| > resultLimit ==> length == 0
  {
    n := sender.Compress(inBuffers, inLimit, outData, outLimit);
    length := receiver.Decompress(outData[..n], result, resultLimit);
    ReadsWhatIsGiven(inBuffers);
  }
}
