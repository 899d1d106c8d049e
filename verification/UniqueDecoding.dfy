/** No two inputs have the same code, although the code holds no length and no end marker. */
module UniqueDecoding {
  import opened Integers
  import opened RangeCoding
  import opened PredictionModel

  /** Two slots of one total that start the same code overlap, because the decoder's read lies in both. */
  lemma SameReadOverlaps(c: Coder, t: Slot, us: seq<Slot>, t': Slot, us': seq<Slot>)
    requires Ready(c) && AllFit([t] + us) && AllFit([t'] + us') && t.total == t'.total
    requires Encoding(c, [t] + us) == Encoding(c, [t'] + us')
    ensures t.under < t'.under + t'.count && t'.under < t.under + t.count
  {
    ReadsSlot(c, [t] + us);
    ReadsSlot(c, [t'] + us');
  }

  /** The slots of different bytes in one context do not overlap. */
  lemma SlotsApart(d: Context, u: uint8, v: uint8, minimum: nat)
    requires Total(d, minimum) <= TOTAL_LIMIT && minimum <= 1 && u < v
    requires 0 < minimum + d.freq[u] && 0 < minimum + d.freq[v]
    ensures SymbolSlot(d, u, minimum).under + SymbolSlot(d, u, minimum).count <= SymbolSlot(d, v, minimum).under
  {
    BelowMonotone(d.freq, u + 1, v);
  }

  lemma SymbolTold(d: Context, c: Coder, u: uint8, us: seq<Slot>, v: uint8, vs: seq<Slot>, minimum: nat)
    requires Ready(c) && Total(d, minimum) <= TOTAL_LIMIT && minimum <= 1
    requires 0 < minimum + d.freq[u] && 0 < minimum + d.freq[v] && AllFit(us) && AllFit(vs)
    requires Encoding(c, [SymbolSlot(d, u, minimum)] + us) == Encoding(c, [SymbolSlot(d, v, minimum)] + vs)
    ensures u == v
  {
    hide Encoding;
    SameReadOverlaps(c, SymbolSlot(d, u, minimum), us, SymbolSlot(d, v, minimum), vs);
    if u < v {
      SlotsApart(d, u, v, minimum);
    } else if v < u {
      SlotsApart(d, v, u, minimum);
    }
  }

  lemma EscapeTold(d: Context, c: Coder, us: seq<Slot>, v: uint8, vs: seq<Slot>)
    requires Ready(c) && SubcontextOk(d) && SubcontextEscapes(d) && d.freq[v] > 0 && AllFit(us) && AllFit(vs)
    ensures Encoding(c, [EscapeSlot(d, 0)] + us) != Encoding(c, [SymbolSlot(d, v, 0)] + vs)
  {
    hide Encoding;
    if Encoding(c, [EscapeSlot(d, 0)] + us) == Encoding(c, [SymbolSlot(d, v, 0)] + vs) {
      SameReadOverlaps(c, EscapeSlot(d, 0), us, SymbolSlot(d, v, 0), vs);
    }
  }

  /** A subcontext without an escape slot knows no byte at all: its escapes are below its total otherwise. */
  lemma KnownEscapes(d: Context, v: uint8)
    requires SubcontextOk(d) && d.freq[v] > 0
    ensures SubcontextEscapes(d)
  {
    BelowAt(d.freq, v);
  }

  lemma SameSlotCancels(c: Coder, t: Slot, us: seq<Slot>, vs: seq<Slot>)
    requires Ready(c) && Fits(t) && AllFit(us) && AllFit(vs)
    requires Encoding(c, [t] + us) == Encoding(c, [t] + vs)
    ensures Encoding(Step(c, t), us) == Encoding(Step(c, t), vs)
  {
    hide Encoding;
    EncodingStep(c, t, us);
    EncodingStep(c, t, vs);
    var b := StepBytes(c, t);
    assert (b + Encoding(Step(c, t), us))[|b|..] == Encoding(Step(c, t), us);
    assert (b + Encoding(Step(c, t), vs))[|b|..] == Encoding(Step(c, t), vs);
  }

  /** Equal codes start with the same byte, whichever contexts it escaped from. */
  lemma {:induction false} FirstByteTold(contexts: map<History, Context>, k: History, c: Coder,
                                         u: uint8, us: seq<Slot>, v: uint8, vs: seq<Slot>)
    requires ContextsOk(contexts) && Ready(c) && AllFit(us) && AllFit(vs)
    requires Encoding(c, Slots(contexts, k, u) + us) == Encoding(c, Slots(contexts, k, v) + vs)
    ensures u == v
    decreases |k|
  {
    hide Encoding, Fits, Ready, Valid, ContextsOk, SymbolSlot, EscapeSlot, Step, Lookup, SubcontextOk, Slots;
    if k == [] {
      AgreeSelf(contexts, 0);
      WalkRoot(contexts, contexts, u, us);
      WalkRoot(contexts, contexts, v, vs);
      SymbolTold(Lookup(contexts, k), c, u, us, v, vs, CONTEXT_SYMBOL_MINIMUM);
    } else {
      SubcontextTold(contexts, k, c, u, us, v, vs);
      var d := Lookup(contexts, k);
      if d.freq[u] == 0 && d.freq[v] == 0 {
        var us', vs' := Slots(contexts, k[1..], u) + us, Slots(contexts, k[1..], v) + vs;
        if SubcontextEscapes(d) {
          SameSlotCancels(c, EscapeSlot(d, 0), us', vs');
          FirstByteTold(contexts, k[1..], Step(c, EscapeSlot(d, 0)), u, us, v, vs);
        } else {
          assert [] + us' == us' && [] + vs' == vs';
          FirstByteTold(contexts, k[1..], c, u, us, v, vs);
        }
      }
    }
  }

  lemma SubcontextTold(contexts: map<History, Context>, k: History, c: Coder, u: uint8, us: seq<Slot>, v: uint8, vs: seq<Slot>)
    requires ContextsOk(contexts) && Ready(c) && AllFit(us) && AllFit(vs) && k != []
    requires Encoding(c, Slots(contexts, k, u) + us) == Encoding(c, Slots(contexts, k, v) + vs)
    ensures var d := Lookup(contexts, k);
            && Bounded(d, SUBCONTEXT_COUNT_CAP, 0)
            && (d.freq[u] > 0 || d.freq[v] > 0 ==> u == v)
            && (d.freq[u] == 0 ==> Slots(contexts, k, u) + us == SubcontextSlots(d, u) + (Slots(contexts, k[1..], u) + us))
            && (d.freq[v] == 0 ==> Slots(contexts, k, v) + vs == SubcontextSlots(d, v) + (Slots(contexts, k[1..], v) + vs))
  {
    hide Encoding, Fits, Ready, Valid, ContextsOk, SymbolSlot, EscapeSlot, Lookup, Bounded, Slots;
    var d := Lookup(contexts, k);
    LookupOk(contexts, k);
    WalkSlots(contexts, k, u, us);
    WalkSlots(contexts, k, v, vs);
    var us', vs' := Slots(contexts, k[1..], u) + us, Slots(contexts, k[1..], v) + vs;
    hide SubcontextEscapes;
    if d.freq[u] > 0 && d.freq[v] > 0 {
      BoundedTotal(d);
      SymbolTold(d, c, u, us, v, vs, 0);
    } else if d.freq[u] > 0 {
      KnownEscapes(d, u);
      EscapeTold(d, c, vs', u, us);
    } else if d.freq[v] > 0 {
      KnownEscapes(d, v);
      EscapeTold(d, c, us', v, vs);
    }
  }

  lemma BoundedTotal(d: Context)
    requires Bounded(d, SUBCONTEXT_COUNT_CAP, 0)
    ensures Total(d, 0) <= TOTAL_LIMIT
  {
  }

  /** The end of the code reads 0 in every context, and so never looks like one more byte. */
  lemma {:induction false} EndTold(contexts: map<History, Context>, k: History, c: Coder, v: uint8, vs: seq<Slot>)
    requires ContextsOk(contexts) && Ready(c) && AllFit(vs)
    ensures Encoding(c, Slots(contexts, k, v) + vs) != Flush(c.low)
    decreases |k|
  {
    hide Encoding, Fits, Ready, Valid, Step, Flush, Window;
    if Encoding(c, Slots(contexts, k, v) + vs) == Flush(c.low) {
      if k == [] {
        EndReadsEscape(c, EscapeSlot(Lookup(contexts, k), 1));
        ReadsSlot(c, Slots(contexts, k, v) + vs);
      } else {
        var d := Lookup(contexts, k);
        LookupOk(contexts, k);
        WalkSlots(contexts, k, v, vs);
        var vs' := Slots(contexts, k[1..], v) + vs;
        if d.freq[v] > 0 {
          KnownEscapes(d, v);
          EndReadsEscape(c, EscapeSlot(d, 0));
          ReadsSlot(c, [SymbolSlot(d, v, 0)] + vs);
        } else if SubcontextEscapes(d) {
          var t := EscapeSlot(d, 0);
          EndReadsEscape(c, t);
          EncodingStep(c, t, vs');
          EndTold(contexts, k[1..], Step(c, t), v, vs);
        } else {
          assert [] + vs' == vs';
          EndTold(contexts, k[1..], c, v, vs);
        }
      }
    }
  }

  ghost function Stepped(c: Coder, ts: seq<Slot>): (r: Coder)
    requires Ready(c) && AllFit(ts)
    ensures Ready(r)
    decreases |ts|
  {
    if ts == [] then c else Stepped(Step(c, ts[0]), ts[1..])
  }

  lemma {:induction false} SlotsCancel(c: Coder, ts: seq<Slot>, us: seq<Slot>, vs: seq<Slot>)
    requires Ready(c) && AllFit(ts) && AllFit(us) && AllFit(vs)
    requires Encoding(c, ts + us) == Encoding(c, ts + vs)
    ensures Encoding(Stepped(c, ts), us) == Encoding(Stepped(c, ts), vs)
    decreases |ts|
  {
    hide Encoding, Fits, Ready, Valid, Step;
    if ts == [] {
      assert ts + us == us && ts + vs == vs;
    } else {
      assert ts + us == [ts[0]] + (ts[1..] + us) && ts + vs == [ts[0]] + (ts[1..] + vs);
      SameSlotCancels(c, ts[0], ts[1..] + us, ts[1..] + vs);
      SlotsCancel(Step(c, ts[0]), ts[1..], us, vs);
    }
  }

  lemma {:induction false} CodeTold(m: Model, c: Coder, x: seq<uint8>, y: seq<uint8>)
    requires ModelOk(m) && Ready(c)
    requires Encoding(c, AllSlots(m, x)) == Encoding(c, AllSlots(m, y))
    ensures x == y
    decreases |x| + |y|, |x|
  {
    hide Encoding, Fits, Ready, Valid, Advance, Slots;
    if x == [] {
      AllSlotsEnd(m, c);
      if y != [] {
        AdvanceOk(m, y[0]);
        EndTold(m.contexts, m.history, c, y[0], AllSlots(Advance(m, y[0]), y[1..]));
      }
    } else if y == [] {
      CodeTold(m, c, y, x);
    } else {
      AdvanceOk(m, x[0]);
      AdvanceOk(m, y[0]);
      var us, vs := AllSlots(Advance(m, x[0]), x[1..]), AllSlots(Advance(m, y[0]), y[1..]);
      FirstByteTold(m.contexts, m.history, c, x[0], us, y[0], vs);
      var ts := Slots(m.contexts, m.history, x[0]);
      SlotsCancel(c, ts, us, vs);
      CodeTold(Advance(m, x[0]), Stepped(c, ts), x[1..], y[1..]);
    }
  }

  lemma UniquelyDecodable(x: seq<uint8>, y: seq<uint8>)
    requires Compressed(x) == Compressed(y)
    ensures x == y
  {
    InitialOk();
    CodeTold(INITIAL, START, x, y);
  }

  lemma CodeOfNothing(x: seq<uint8>)
    ensures Compressed(x) == [] <==> x == []
  {
    InitialOk();
    assert Compressed([]) == [];
    if Compressed(x) == [] {
      UniquelyDecodable(x, []);
    }
  }
}
