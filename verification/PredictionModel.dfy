/** The adaptive order-2 prediction model, as values: one frequency table for each context, a context
    being the last zero, one or two bytes. Both directions of the coder are meant to walk through the same models. */
module PredictionModel {
  import opened Integers
  import opened RangeCoding

  const CONTEXT_SYMBOL_DELTA := 3
  const CONTEXT_SYMBOL_MINIMUM := 1
  const CONTEXT_ESCAPE_MINIMUM := 1
  const SUBCONTEXT_ORDER := 2
  const SUBCONTEXT_SYMBOL_DELTA := 2
  const SUBCONTEXT_ESCAPE_DELTA := 5
  const ARENA_SIZE := 4096
  const TOTAL_LIMIT := BOTTOM - 0x100
  const SUBCONTEXT_COUNT_LIMIT := 0xFF - 2 * SUBCONTEXT_SYMBOL_DELTA
  const CONTEXT_COUNT_LIMIT := 0xFF - 2 * CONTEXT_SYMBOL_DELTA + CONTEXT_SYMBOL_MINIMUM

  type Frequencies = f: seq<nat> | |f| == 256 witness seq(256, _ => 0)

  /** How the search tree of a context branches, by bytes. */
  datatype Layout = Nil | Fork(left: Layout, value: uint8, right: Layout)

  /** A byte that is new takes the place where the search for it ends. */
  function Grafted(l: Layout, v: uint8): Layout {
    match l
    case Nil => Fork(Nil, v, Nil)
    case Fork(left, x, right) =>
      if v < x then Fork(Grafted(left, v), x, right)
      else if v > x then Fork(left, x, Grafted(right, v))
      else l
  }

  datatype Context = Context(freq: Frequencies, escapes: nat, layout: Layout)

  function Zeros(): (f: Frequencies)
    ensures forall i :: 0 <= i < 256 ==> f[i] == 0
  {
    seq(256, _ => 0)
  }

  const UNSEEN := Context(Zeros(), 0, Nil)
  const FRESH_ROOT := Context(Zeros(), CONTEXT_ESCAPE_MINIMUM, Nil)

  /** The cumulative frequency of all bytes smaller than v. */
  ghost function Below(f: seq<nat>, v: nat): nat
    requires v <= |f|
  {
    if v == 0 then 0 else Below(f, v - 1) + f[v - 1]
  }

  ghost function Total(c: Context, minimum: nat): nat {
    c.escapes + 256 * minimum + Below(c.freq, 256)
  }

  function Half(n: nat): nat {
    n - n / 2
  }

  ghost function Rescaled(c: Context): Context {
    c.(freq := seq(256, i requires 0 <= i < 256 => Half(c.freq[i])), escapes := Half(c.escapes))
  }

  ghost function Adapted(c: Context, count: nat, limit: nat, minimum: nat): Context {
    if count > limit || Total(c, minimum) > TOTAL_LIMIT then Rescaled(c) else c
  }

  /** One more occurrence of v, counted delta times. */
  ghost function Heard(c: Context, v: uint8, delta: nat): Context {
    c.(freq := c.freq[v := c.freq[v] + delta], layout := Grafted(c.layout, v))
  }

  /** What coding byte v does to a subcontext that is tried. */
  ghost function SubcontextAfter(c: Context, v: uint8): Context {
    var e := if c.freq[v] > 0 then c.escapes else c.escapes + SUBCONTEXT_ESCAPE_DELTA;
    Adapted(Heard(c.(escapes := e), v, SUBCONTEXT_SYMBOL_DELTA), c.freq[v], SUBCONTEXT_COUNT_LIMIT, 0)
  }

  /** What coding byte v does to the order-0 context. */
  ghost function RootAfter(c: Context, v: uint8): Context {
    Adapted(Heard(c, v, CONTEXT_SYMBOL_DELTA),
            CONTEXT_SYMBOL_MINIMUM + c.freq[v], CONTEXT_COUNT_LIMIT, CONTEXT_SYMBOL_MINIMUM)
  }

  // ----- widths: the tables stay small enough for 8-bit counts and 16-bit totals

  const SUBCONTEXT_COUNT_CAP := 253
  const CONTEXT_COUNT_CAP := 252

  ghost predicate Bounded(c: Context, cap: nat, minimum: nat) {
    && (forall i :: 0 <= i < 256 ==> c.freq[i] <= cap)
    && Total(c, minimum) <= TOTAL_LIMIT
  }

  lemma {:induction false} BelowUpdate(f: seq<nat>, v: nat, delta: nat, n: nat)
    requires v < |f| && n <= |f|
    ensures Below(f[v := f[v] + delta], n) == Below(f, n) + (if v < n then delta else 0)
  {
    if n > 0 {
      BelowUpdate(f, v, delta, n - 1);
    }
  }

  lemma {:induction false} BelowMonotone(f: seq<nat>, m: nat, n: nat)
    requires m <= n <= |f|
    ensures Below(f, m) <= Below(f, n)
    decreases n
  {
    if m < n {
      BelowMonotone(f, m, n - 1);
    }
  }

  lemma BelowAt(f: seq<nat>, v: nat)
    requires v < |f|
    ensures Below(f, v) + f[v] <= Below(f, |f|)
  {
    BelowMonotone(f, v + 1, |f|);
  }

  lemma {:induction false} BelowHalved(f: seq<nat>, g: seq<nat>, n: nat)
    requires |f| == |g| && n <= |f|
    requires forall i :: 0 <= i < |f| ==> g[i] == Half(f[i])
    ensures 2 * Below(g, n) <= Below(f, n) + n
  {
    if n > 0 {
      BelowHalved(f, g, n - 1);
    }
  }

  lemma SubcontextBounded(c: Context, v: uint8)
    requires Bounded(c, SUBCONTEXT_COUNT_CAP, 0) && (c.freq[v] > 0 ==> c.escapes > 0)
    ensures Bounded(SubcontextAfter(c, v), SUBCONTEXT_COUNT_CAP, 0)
    ensures SubcontextAfter(c, v).escapes > 0
    ensures forall u :: 0 <= u < 256 && (u == v || c.freq[u] > 0) ==> SubcontextAfter(c, v).freq[u] > 0
  {
    var e := if c.freq[v] > 0 then c.escapes else c.escapes + SUBCONTEXT_ESCAPE_DELTA;
    var d := Heard(c.(escapes := e), v, SUBCONTEXT_SYMBOL_DELTA);
    BelowUpdate(c.freq, v, SUBCONTEXT_SYMBOL_DELTA, 256);
    BelowHalved(d.freq, Rescaled(d).freq, 256);
  }

  lemma RootBounded(c: Context, v: uint8)
    requires Bounded(c, CONTEXT_COUNT_CAP, 1) && c.escapes == CONTEXT_ESCAPE_MINIMUM
    ensures Bounded(RootAfter(c, v), CONTEXT_COUNT_CAP, 1) && RootAfter(c, v).escapes == CONTEXT_ESCAPE_MINIMUM
    ensures forall u :: 0 <= u < 256 && (u == v || c.freq[u] > 0) ==> RootAfter(c, v).freq[u] > 0
  {
    var d := Heard(c, v, CONTEXT_SYMBOL_DELTA);
    BelowUpdate(c.freq, v, CONTEXT_SYMBOL_DELTA, 256);
    BelowHalved(d.freq, Rescaled(d).freq, 256);
  }

  // ----- the slots a byte is coded with

  ghost predicate SubcontextEscapes(c: Context) {
    0 < c.escapes < Total(c, 0)
  }

  ghost function EscapeSlot(c: Context, minimum: nat): (t: Slot)
    requires Total(c, minimum) <= TOTAL_LIMIT && 0 < c.escapes
    ensures Fits(t)
  {
    Slot(0, c.escapes, Total(c, minimum))
  }

  /** The slot of byte v: after the escapes and the cumulative frequency of the smaller bytes. */
  ghost function SymbolSlot(c: Context, v: uint8, minimum: nat): (t: Slot)
    requires Total(c, minimum) <= TOTAL_LIMIT && minimum <= 1 && 0 < minimum + c.freq[v]
    ensures Fits(t)
  {
    BelowAt(c.freq, v);
    Slot(c.escapes + v * minimum + Below(c.freq, v), minimum + c.freq[v], Total(c, minimum))
  }

  type History = seq<uint8>

  ghost function Lookup(contexts: map<History, Context>, k: History): Context {
    if k in contexts then contexts[k] else UNSEEN
  }

  /** A context that knows any byte can also be escaped from. */
  ghost predicate Escapable(c: Context) {
    c.escapes == 0 ==> forall v :: 0 <= v < 256 ==> c.freq[v] == 0
  }

  ghost predicate SubcontextOk(c: Context) {
    Bounded(c, SUBCONTEXT_COUNT_CAP, 0) && Escapable(c)
  }

  ghost predicate ContextsOk(contexts: map<History, Context>) {
    && Bounded(Lookup(contexts, []), CONTEXT_COUNT_CAP, 1)
    && Lookup(contexts, []).escapes == CONTEXT_ESCAPE_MINIMUM
    && forall k :: k in contexts && k != [] ==> SubcontextOk(contexts[k])
  }

  lemma LookupOk(contexts: map<History, Context>, k: History)
    requires ContextsOk(contexts) && k != []
    ensures SubcontextOk(Lookup(contexts, k))
  {
    if k !in contexts {
      ZeroBelow(256);
    }
  }

  lemma {:induction false} ZeroBelow(n: nat)
    requires n <= 256
    ensures Below(UNSEEN.freq, n) == 0
  {
    if n > 0 {
      ZeroBelow(n - 1);
    }
  }

  /** What a subcontext contributes to the code of v: the symbol if it knows it, else an escape if it has one. */
  ghost function SubcontextSlots(c: Context, v: uint8): (ts: seq<Slot>)
    requires Bounded(c, SUBCONTEXT_COUNT_CAP, 0)
    ensures AllFit(ts)
  {
    if c.freq[v] > 0 then [SymbolSlot(c, v, 0)]
    else if SubcontextEscapes(c) then [EscapeSlot(c, 0)]
    else []
  }

  /** From the longest context down: an escape for each one that does not know v, then the symbol. */
  ghost function Slots(contexts: map<History, Context>, k: History, v: uint8): (ts: seq<Slot>)
    requires ContextsOk(contexts)
    ensures AllFit(ts)
    decreases |k|
  {
    if k == [] then
      [SymbolSlot(Lookup(contexts, k), v, CONTEXT_SYMBOL_MINIMUM)]
    else
      LookupOk(contexts, k);
      SubcontextSlots(Lookup(contexts, k), v)
      + (if Lookup(contexts, k).freq[v] > 0 then [] else Slots(contexts, k[1..], v))
  }

  ghost function Learned(contexts: map<History, Context>, k: History, v: uint8): map<History, Context>
    decreases |k|
  {
    var c := Lookup(contexts, k);
    if k == [] then contexts[k := RootAfter(c, v)]
    else if c.freq[v] > 0 then contexts[k := SubcontextAfter(c, v)]
    else Learned(contexts[k := SubcontextAfter(c, v)], k[1..], v)
  }

  /** How many contexts meet v for the first time. */
  ghost function Created(contexts: map<History, Context>, k: History, v: uint8): nat
    decreases |k|
  {
    if Lookup(contexts, k).freq[v] > 0 then 0
    else if k == [] then 1
    else 1 + Created(contexts, k[1..], v)
  }

  datatype Model = Model(contexts: map<History, Context>, history: History, nextSymbol: nat)

  const INITIAL := Model(map[[] := FRESH_ROOT], [], 1)

  ghost predicate ModelOk(m: Model) {
    && ContextsOk(m.contexts)
    && |m.history| <= SUBCONTEXT_ORDER
    && 1 <= m.nextSymbol < ARENA_SIZE - SUBCONTEXT_ORDER
  }

  ghost function Extended(h: History, v: uint8): History {
    if |h| >= SUBCONTEXT_ORDER then h[1..] + [v] else h + [v]
  }

  /** The model after byte v, starting over when the arena is about to run out. */
  ghost function Advance(m: Model, v: uint8): Model {
    var next := m.nextSymbol + Created(m.contexts, m.history, v);
    if next >= ARENA_SIZE - SUBCONTEXT_ORDER then INITIAL
    else Model(Learned(m.contexts, m.history, v), Extended(m.history, v), next)
  }

  lemma InitialOk()
    ensures ModelOk(INITIAL)
  {
    ZeroBelow(256);
  }

  lemma {:induction false} LearnedOk(contexts: map<History, Context>, k: History, v: uint8)
    requires ContextsOk(contexts)
    ensures ContextsOk(Learned(contexts, k, v))
    decreases |k|
  {
    var c := Lookup(contexts, k);
    if k == [] {
      RootBounded(c, v);
    } else {
      LookupOk(contexts, k);
      SubcontextBounded(c, v);
      if c.freq[v] == 0 {
        LearnedOk(contexts[k := SubcontextAfter(c, v)], k[1..], v);
      }
    }
  }

  lemma {:induction false} CreatedBound(contexts: map<History, Context>, k: History, v: uint8)
    ensures Created(contexts, k, v) <= |k| + 1
    decreases |k|
  {
    if k != [] {
      CreatedBound(contexts, k[1..], v);
    }
  }

  /** Each byte leaves counts within 8 bits, totals within 16, and room for the next byte's symbols. */
  lemma AdvanceOk(m: Model, v: uint8)
    requires ModelOk(m)
    ensures ModelOk(Advance(m, v))
    ensures m.nextSymbol + Created(m.contexts, m.history, v) <= ARENA_SIZE
  {
    InitialOk();
    LearnedOk(m.contexts, m.history, v);
    CreatedBound(m.contexts, m.history, v);
  }

  // ----- whole inputs

  ghost function After(m: Model, input: seq<uint8>): (r: Model)
    requires ModelOk(m)
    ensures ModelOk(r)
    decreases |input|
  {
    if input == [] then m
    else
      AdvanceOk(m, input[0]);
      After(Advance(m, input[0]), input[1..])
  }

  ghost function AllSlots(m: Model, input: seq<uint8>): (ts: seq<Slot>)
    requires ModelOk(m)
    ensures AllFit(ts)
    decreases |input|
  {
    if input == [] then []
    else
      AdvanceOk(m, input[0]);
      Slots(m.contexts, m.history, input[0]) + AllSlots(Advance(m, input[0]), input[1..])
  }

  /** The code for a whole input: no length, no end marker. */
  ghost function Compressed(input: seq<uint8>): seq<uint8> {
    InitialOk();
    Encoding(START, AllSlots(INITIAL, input))
  }

  // ----- one step down the chain of contexts

  ghost predicate Agree(x: map<History, Context>, y: map<History, Context>, n: int) {
    forall k: History :: |k| <= n ==> Lookup(x, k) == Lookup(y, k)
  }

  lemma WalkSlots(contexts: map<History, Context>, k: History, v: uint8, us: seq<Slot>)
    requires ContextsOk(contexts) && k != [] && SubcontextOk(Lookup(contexts, k))
    ensures var d := Lookup(contexts, k);
            && (d.freq[v] > 0 ==> Slots(contexts, k, v) + us == SubcontextSlots(d, v) + us)
            && (d.freq[v] == 0 ==> Slots(contexts, k, v) + us == SubcontextSlots(d, v) + (Slots(contexts, k[1..], v) + us))
  {
  }

  lemma WalkLearned(contexts: map<History, Context>, cur: map<History, Context>, k: History, v: uint8)
    requires Agree(cur, contexts, |k|) && k != []
    ensures var d := Lookup(contexts, k);
            && (d.freq[v] > 0 ==> && Learned(cur, k, v) == cur[k := SubcontextAfter(d, v)]
                                  && Created(contexts, k, v) == 0)
            && (d.freq[v] == 0 ==> && Learned(cur, k, v) == Learned(cur[k := SubcontextAfter(d, v)], k[1..], v)
                                   && Created(contexts, k, v) == 1 + Created(contexts, k[1..], v))
  {
    hide SubcontextAfter, RootAfter;
    assert Lookup(cur, k) == Lookup(contexts, k);
  }

  lemma AgreeSelf(contexts: map<History, Context>, n: int)
    ensures Agree(contexts, contexts, n)
  {
  }

  /** Walking from context k to k[1..]: what is coded, learned and created here and what is left for later. */
  lemma WalkStep(contexts: map<History, Context>, cur: map<History, Context>, k: History, v: uint8, us: seq<Slot>)
    requires ContextsOk(contexts) && Agree(cur, contexts, |k|) && k != []
    ensures var d := Lookup(contexts, k);
            && SubcontextOk(d) && Lookup(cur, k) == d
            && (d.freq[v] > 0 ==>
                  && Slots(contexts, k, v) + us == SubcontextSlots(d, v) + us
                  && Learned(cur, k, v) == cur[k := SubcontextAfter(d, v)]
                  && Created(contexts, k, v) == 0)
            && (d.freq[v] == 0 ==>
                  && Slots(contexts, k, v) + us == SubcontextSlots(d, v) + (Slots(contexts, k[1..], v) + us)
                  && Learned(cur, k, v) == Learned(cur[k := SubcontextAfter(d, v)], k[1..], v)
                  && Created(contexts, k, v) == 1 + Created(contexts, k[1..], v))
            && Agree(cur[k := SubcontextAfter(d, v)], contexts, |k| - 1)
            && (forall u :: 0 <= u < 256 && (u == v || d.freq[u] > 0) ==> SubcontextAfter(d, v).freq[u] > 0)
  {
    hide Slots, SubcontextSlots, Learned, Created, SubcontextAfter, Bounded;
    LookupOk(contexts, k);
    WalkSlots(contexts, k, v, us);
    WalkLearned(contexts, cur, k, v);
    SubcontextBounded(Lookup(contexts, k), v);
    assert Lookup(cur, k) == Lookup(contexts, k);
    AgreeBelow(contexts, cur, k, SubcontextAfter(Lookup(contexts, k), v));
  }

  lemma AgreeBelow(contexts: map<History, Context>, cur: map<History, Context>, k: History, d: Context)
    requires Agree(cur, contexts, |k|)
    ensures Agree(cur[k := d], contexts, |k| - 1)
  {
    forall x: History | |x| <= |k| - 1
      ensures Lookup(cur[k := d], x) == Lookup(contexts, x)
    {
      assert x != k;
      assert Lookup(cur, x) == Lookup(contexts, x);
    }
  }

  lemma WalkRoot(contexts: map<History, Context>, cur: map<History, Context>, v: uint8, us: seq<Slot>)
    requires ContextsOk(contexts) && Agree(cur, contexts, 0)
    ensures var d := Lookup(contexts, []);
            && Bounded(d, CONTEXT_COUNT_CAP, 1) && Lookup(cur, []) == d
            && Slots(contexts, [], v) + us == [SymbolSlot(d, v, 1)] + us
            && Learned(cur, [], v) == cur[[] := RootAfter(d, v)]
            && Created(contexts, [], v) == (if d.freq[v] > 0 then 0 else 1)
            && (forall u :: 0 <= u < 256 && (u == v || d.freq[u] > 0) ==> RootAfter(d, v).freq[u] > 0)
  {
    RootBounded(Lookup(contexts, []), v);
    assert Lookup(cur, []) == Lookup(contexts, []);
  }

  lemma AllSlotsStep(m: Model, v: uint8, rest: seq<uint8>)
    requires ModelOk(m)
    ensures ModelOk(Advance(m, v)) && ContextsOk(m.contexts)
    ensures AllSlots(m, [v] + rest) == Slots(m.contexts, m.history, v) + AllSlots(Advance(m, v), rest)
  {
    AdvanceOk(m, v);
    assert ([v] + rest)[0] == v && ([v] + rest)[1..] == rest;
  }

  lemma AllSlotsEnd(m: Model, c: Coder)
    requires ModelOk(m) && Ready(c)
    ensures Encoding(c, AllSlots(m, [])) == Flush(c.low)
  {
  }

  lemma CompressedStart(input: seq<uint8>)
    ensures ModelOk(INITIAL) && Ready(START)
    ensures Encoding(START, AllSlots(INITIAL, input)) == Compressed(input)
  {
    InitialOk();
  }

  lemma AdvanceFacts(m: Model, v: uint8)
    requires ModelOk(m)
    ensures var n, h := m.nextSymbol + Created(m.contexts, m.history, v), m.history + [v];
            && n <= ARENA_SIZE && |h| == |m.history| + 1
            && Advance(m, v) == (if n >= ARENA_SIZE - SUBCONTEXT_ORDER then INITIAL
                                 else Model(Learned(m.contexts, m.history, v), if |m.history| >= SUBCONTEXT_ORDER then h[1..] else h, n))
            && ModelOk(Advance(m, v))
  {
    AdvanceOk(m, v);
  }

  /** The context in which byte v is found is visited last by the walk, so it may as well be visited first. */
  ghost predicate FoundIn(contexts: map<History, Context>, k: History, v: uint8, d: Context) {
    if k == [] then d == RootAfter(Lookup(contexts, k), v)
    else Lookup(contexts, k).freq[v] > 0 && d == SubcontextAfter(Lookup(contexts, k), v)
  }

  lemma WalkEnd(contexts: map<History, Context>, cur: map<History, Context>, k: History, v: uint8, d: Context)
    requires Agree(cur, contexts, |k|) && FoundIn(contexts, k, v, d)
    ensures Learned(cur, k, v) == cur[k := d]
  {
    hide SubcontextAfter, RootAfter;
    assert Lookup(cur, k) == Lookup(contexts, k);
  }

  lemma CreatedWhereFound(contexts: map<History, Context>, k: History, v: uint8, d: Context)
    requires k != [] && FoundIn(contexts, k, v, d)
    ensures Created(contexts, k, v) == 0
  {
  }

  lemma LookupOther(contexts: map<History, Context>, k: History, d: Context, other: History)
    requires k != other
    ensures Lookup(contexts[k := d], other) == Lookup(contexts, other)
  {
  }
}
