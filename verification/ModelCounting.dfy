/** What the prediction model has counted after a whole input, told from the input alone: which strings of up to three
    bytes have occurred, and how often. */
module ModelCounting {
  import opened Integers
  import opened RangeCoding
  import opened PredictionModel

  // ----- strings of the input

  /** Context k stands before place i. */
  ghost predicate At(input: seq<uint8>, i: nat, k: History) {
    |k| <= i < |input| && input[i - |k|..i] == k
  }

  /** Byte i, with the m bytes before it, has occurred before. */
  ghost predicate Occurred(input: seq<uint8>, i: nat, m: nat)
    requires m <= i < |input|
  {
    exists j: nat :: j < i && At(input, j, input[i - m..i]) && input[j] == input[i]
  }

  /** Byte i is coded in its context of m bytes: not if it is known in a longer one. */
  ghost predicate CodedIn(input: seq<uint8>, i: nat, m: nat)
    requires m <= i < |input|
  {
    forall l :: m < l <= 2 && l <= i ==> !Occurred(input, i, l)
  }

  ghost predicate Coding(input: seq<uint8>, i: nat, k: History) {
    At(input, i, k) && CodedIn(input, i, |k|)
  }

  /** How often, before place n, byte v was coded in context k. */
  ghost function Codings(input: seq<uint8>, n: nat, k: History, v: nat): nat
    requires n <= |input|
  {
    if n == 0 then 0 else Codings(input, n - 1, k, v) + (if Coding(input, n - 1, k) && input[n - 1] == v then 1 else 0)
  }

  /** ... or any byte less than v. */
  ghost function CodingsBelow(input: seq<uint8>, n: nat, k: History, v: nat): nat
    requires n <= |input|
  {
    if n == 0 then 0 else CodingsBelow(input, n - 1, k, v) + (if Coding(input, n - 1, k) && input[n - 1] < v then 1 else 0)
  }

  /** How many different bytes followed context k. */
  ghost function Followers(input: seq<uint8>, n: nat, k: History): nat
    requires n <= |input|
  {
    if n == 0 then 0 else Followers(input, n - 1, k) + (if At(input, n - 1, k) && !Occurred(input, n - 1, |k|) then 1 else 0)
  }

  ghost function New(input: seq<uint8>, i: nat, m: nat): nat
    requires i < |input|
  {
    if m <= i && !Occurred(input, i, m) then 1 else 0
  }

  /** How many different strings of up to three bytes there are. */
  ghost function Strings(input: seq<uint8>, n: nat): nat
    requires n <= |input|
  {
    if n == 0 then 0 else Strings(input, n - 1) + New(input, n - 1, 0) + New(input, n - 1, 1) + New(input, n - 1, 2)
  }

  ghost function LastTwo(input: seq<uint8>, n: nat): History
    requires n <= |input|
  {
    if n < 2 then input[..n] else input[n - 2..n]
  }

  // ----- one step of the model, context by context

  /** The last l bytes. */
  ghost function Ending(h: History, l: nat): (k: History)
    requires l <= |h|
    ensures |k| == l
  {
    h[|h| - l..]
  }

  /** Context k is visited when v is coded behind h: it is an end of h, and no longer end of it knows v. */
  ghost predicate Visited(contexts: map<History, Context>, h: History, k: History, v: uint8) {
    && |k| <= |h| && Ending(h, |k|) == k
    && forall l :: |k| < l <= |h| ==> Lookup(contexts, Ending(h, l)).freq[v] == 0
  }

  ghost function AfterVisit(c: Context, k: History, v: uint8): Context {
    if k == [] then RootAfter(c, v) else SubcontextAfter(c, v)
  }

  lemma {:induction false} LearnedLookup(contexts: map<History, Context>, h: History, v: uint8, k: History)
    ensures Lookup(Learned(contexts, h, v), k)
            == if Visited(contexts, h, k, v) then AfterVisit(Lookup(contexts, k), k, v) else Lookup(contexts, k)
    decreases |h|
  {
    hide RootAfter, SubcontextAfter, Visited;
    WholeEnding(contexts, h, v, k);
    if h != [] {
      var d := SubcontextAfter(Lookup(contexts, h), v);
      if Lookup(contexts, h).freq[v] == 0 {
        LearnedLookup(contexts[h := d], h[1..], v, k);
        VisitedNext(contexts, h, d, v, k);
      }
    }
  }

  lemma WholeEnding(contexts: map<History, Context>, h: History, v: uint8, k: History)
    ensures Visited(contexts, h, h, v)
    ensures h != [] && Lookup(contexts, h).freq[v] > 0 && k != h ==> !Visited(contexts, h, k, v)
    ensures h == [] && k != h ==> !Visited(contexts, h, k, v)
  {
    assert Ending(h, |h|) == h;
  }

  lemma TailEnding(h: History, l: nat)
    requires l < |h|
    ensures Ending(h, l) == Ending(h[1..], l) != h
  {
  }

  lemma VisitedNext(contexts: map<History, Context>, h: History, d: Context, v: uint8, k: History)
    requires h != [] && Lookup(contexts, h).freq[v] == 0
    ensures k != h ==> (Visited(contexts, h, k, v) <==> Visited(contexts[h := d], h[1..], k, v))
    ensures !Visited(contexts[h := d], h[1..], h, v)
  {
    hide Ending;
    assert Ending(h, |h|) == h by { WholeIsEnding(h); }
    forall l: nat | l < |h|
      ensures Ending(h, l) == Ending(h[1..], l)
      ensures Lookup(contexts[h := d], Ending(h, l)) == Lookup(contexts, Ending(h, l))
    {
      TailEnding(h, l);
    }
  }

  lemma WholeIsEnding(h: History)
    ensures Ending(h, |h|) == h
  {
  }

  // ----- which bytes a context knows

  /** v has followed k. */
  ghost predicate Follows(input: seq<uint8>, n: nat, k: History, v: nat)
    requires n <= |input|
  {
    exists j: nat :: j < n && At(input, j, k) && input[j] == v
  }

  ghost predicate Knows(input: seq<uint8>, n: nat, contexts: map<History, Context>)
    requires n <= |input|
  {
    forall k: History, v: uint8 :: |k| <= 2 ==> (Lookup(contexts, k).freq[v] > 0 <==> Follows(input, n, k, v))
  }

  lemma VisitKnows(c: Context, k: History, v: uint8, u: uint8)
    ensures AfterVisit(c, k, v).freq[u] > 0 <==> u == v || c.freq[u] > 0
  {
  }

  lemma EndingAt(input: seq<uint8>, n: nat, l: nat)
    requires n < |input| && l <= |LastTwo(input, n)|
    ensures l <= n && Ending(LastTwo(input, n), l) == input[n - l..n] && At(input, n, input[n - l..n])
  {
    LastIs(input, n);
    SliceEnding(input, n - |LastTwo(input, n)|, n, l);
  }

  lemma LastIs(input: seq<uint8>, n: nat)
    requires n < |input|
    ensures |LastTwo(input, n)| == (if n < 2 then n else 2) && LastTwo(input, n) == input[n - |LastTwo(input, n)|..n]
  {
  }

  lemma SliceEnding(input: seq<uint8>, i: nat, n: nat, l: nat)
    requires i <= n < |input| && l <= n - i
    ensures input[i..n][n - i - l..] == input[n - l..n]
  {
  }

  /** A longer context that has stood before j ends with every shorter one. */
  lemma ShorterAt(input: seq<uint8>, n: nat, j: nat, m: nat, l: nat)
    requires n < |input| && m <= l <= n && At(input, j, input[n - l..n])
    ensures At(input, j, input[n - m..n])
  {
    assert input[n - m..n] == input[n - l..n][l - m..];
    assert input[j - m..j] == input[j - l..j][l - m..];
  }

  lemma OccurredShorter(input: seq<uint8>, n: nat, m: nat, l: nat)
    requires m <= l <= n < |input| && Occurred(input, n, l)
    ensures Occurred(input, n, m)
  {
    var j: nat :| j < n && At(input, j, input[n - l..n]) && input[j] == input[n];
    ShorterAt(input, n, j, m, l);
  }

  lemma OccurredKnown(input: seq<uint8>, n: nat, contexts: map<History, Context>, l: nat)
    requires n < |input| && Knows(input, n, contexts) && l <= |LastTwo(input, n)|
    ensures l <= n && (Occurred(input, n, l) <==> Lookup(contexts, Ending(LastTwo(input, n), l)).freq[input[n]] > 0)
  {
    EndingAt(input, n, l);
    assert Lookup(contexts, input[n - l..n]).freq[input[n]] > 0 <==> Follows(input, n, input[n - l..n], input[n]);
  }

  /** The contexts that are visited are those in which the byte is coded. */
  lemma VisitedIsCoding(input: seq<uint8>, n: nat, contexts: map<History, Context>, k: History)
    requires n < |input| && Knows(input, n, contexts) && |k| <= 2
    ensures Visited(contexts, LastTwo(input, n), k, input[n]) <==> Coding(input, n, k)
  {
    hide Occurred, Knows;
    var h := LastTwo(input, n);
    forall l: nat | l <= |h|
      ensures l <= n && (Occurred(input, n, l) <==> Lookup(contexts, Ending(h, l)).freq[input[n]] > 0)
    {
      OccurredKnown(input, n, contexts, l);
    }
    if |k| <= |h| {
      EndingAt(input, n, |k|);
    }
  }

  lemma KnownNext(input: seq<uint8>, n: nat, contexts: map<History, Context>, k: History, u: uint8)
    requires n < |input| && Knows(input, n, contexts) && |k| <= 2
    ensures Lookup(Learned(contexts, LastTwo(input, n), input[n]), k).freq[u] > 0 <==> Follows(input, n + 1, k, u)
  {
    hide AfterVisit, Visited, CodedIn, Learned;
    var v := input[n];
    LearnedLookup(contexts, LastTwo(input, n), v, k);
    VisitedIsCoding(input, n, contexts, k);
    VisitKnows(Lookup(contexts, k), k, v, u);
    assert Lookup(contexts, k).freq[u] > 0 <==> Follows(input, n, k, u);
    FollowsNext(input, n, k, u);
    if At(input, n, k) && !Coding(input, n, k) {
      NotCoded(input, n, k);
    }
  }

  lemma FollowsNext(input: seq<uint8>, n: nat, k: History, u: nat)
    requires n < |input|
    ensures Follows(input, n + 1, k, u) <==> Follows(input, n, k, u) || (At(input, n, k) && input[n] == u)
  {
  }

  /** What is not coded in a context is known to it. */
  lemma NotCoded(input: seq<uint8>, n: nat, k: History)
    requires At(input, n, k) && !Coding(input, n, k)
    ensures Follows(input, n, k, input[n]) && Occurred(input, n, |k|)
  {
    hide Occurred;
    var l: nat :| |k| < l <= 2 && l <= n && Occurred(input, n, l);
    OccurredShorter(input, n, |k|, l);
    OccurredFollows(input, n, k);
  }

  lemma OccurredFollows(input: seq<uint8>, n: nat, k: History)
    requires At(input, n, k)
    ensures Occurred(input, n, |k|) <==> Follows(input, n, k, input[n])
  {
  }

  lemma KnowsNext(input: seq<uint8>, n: nat, contexts: map<History, Context>)
    requires n < |input| && Knows(input, n, contexts)
    ensures Knows(input, n + 1, Learned(contexts, LastTwo(input, n), input[n]))
  {
    hide Learned, Follows;
    forall k: History, v: uint8 | |k| <= 2
      ensures Lookup(Learned(contexts, LastTwo(input, n), input[n]), k).freq[v] > 0 <==> Follows(input, n + 1, k, v)
    {
      KnownNext(input, n, contexts, k, v);
    }
  }

  /** Every string that is new takes one symbol. */
  lemma CreatedIsNew(input: seq<uint8>, n: nat, contexts: map<History, Context>)
    requires n < |input| && Knows(input, n, contexts)
    ensures Created(contexts, LastTwo(input, n), input[n]) == New(input, n, 0) + New(input, n, 1) + New(input, n, 2)
  {
    hide Occurred, Knows;
    var h, v := LastTwo(input, n), input[n];
    OccurredKnown(input, n, contexts, 0);
    if |h| >= 1 {
      OccurredKnown(input, n, contexts, 1);
      if Occurred(input, n, 1) {
        OccurredShorter(input, n, 0, 1);
      }
    }
    if |h| == 2 {
      OccurredKnown(input, n, contexts, 2);
      if Occurred(input, n, 2) {
        OccurredShorter(input, n, 1, 2);
      }
      assert h[1..] == Ending(h, 1) && h[1..][1..] == Ending(h, 0);
    }
    CreatedUnrolled(contexts, h, v);
  }

  lemma CreatedStep(contexts: map<History, Context>, h: History, v: uint8)
    ensures Created(contexts, h, v)
            == if Lookup(contexts, h).freq[v] > 0 then 0 else if h == [] then 1 else 1 + Created(contexts, h[1..], v)
  {
  }

  lemma EndingStep(h: History, l: nat)
    requires l <= |h|
    ensures Ending(h, |h|) == h && (l < |h| ==> Ending(h[1..], l) == Ending(h, l))
  {
  }

  lemma CreatedUnrolled(contexts: map<History, Context>, h: History, v: uint8)
    requires |h| <= 2
    ensures Created(contexts, h, v)
            == if Lookup(contexts, Ending(h, |h|)).freq[v] > 0 then 0
               else if |h| == 0 then 1
               else if Lookup(contexts, Ending(h, |h| - 1)).freq[v] > 0 then 1
               else if |h| == 1 then 2
               else if Lookup(contexts, Ending(h, |h| - 2)).freq[v] > 0 then 2
               else 3
  {
    hide Created, Lookup, Ending;
    CreatedStep(contexts, h, v);
    EndingStep(h, |h|);
    if |h| >= 1 {
      var t := h[1..];
      CreatedStep(contexts, t, v);
      EndingStep(h, |h| - 1);
      EndingStep(t, |t|);
      if |h| == 2 {
        CreatedStep(contexts, t[1..], v);
        EndingStep(h, 0);
        EndingStep(t, 0);
        EndingStep(t[1..], 0);
      }
    }
  }

  // ----- over whole inputs

  lemma {:induction false} AfterMore(m: Model, input: seq<uint8>, v: uint8)
    requires ModelOk(m)
    ensures After(m, input + [v]) == Advance(After(m, input), v)
    decreases |input|
  {
    hide Advance;
    AdvanceOk(m, v);
    if input == [] {
      assert [v][1..] == [] && input + [v] == [v];
    } else {
      AdvanceOk(m, input[0]);
      assert (input + [v])[0] == input[0] && (input + [v])[1..] == input[1..] + [v];
      AfterMore(Advance(m, input[0]), input[1..], v);
    }
  }

  ghost predicate Told(input: seq<uint8>, n: nat, m: Model)
    requires n <= |input|
  {
    && m.history == LastTwo(input, n) && m.nextSymbol == 1 + Strings(input, n) && Knows(input, n, m.contexts)
  }

  lemma ToldNext(input: seq<uint8>, n: nat, m: Model)
    requires n < |input| && ModelOk(m) && Told(input, n, m)
    ensures if 1 + Strings(input, n + 1) >= 4094 then Advance(m, input[n]) == INITIAL
            else Told(input, n + 1, Advance(m, input[n]))
  {
    hide Knows, Learned, Created;
    KnowsNext(input, n, m.contexts);
    CreatedIsNew(input, n, m.contexts);
  }

  lemma AfterNothing()
    ensures ModelOk(INITIAL) && After(INITIAL, []) == INITIAL
  {
    InitialOk();
  }

  lemma ToldAtStart(input: seq<uint8>)
    ensures Told(input, 0, INITIAL)
  {
    ZeroKnown();
  }

  lemma ZeroKnown()
    ensures forall k: History, v: uint8 :: Lookup(INITIAL.contexts, k).freq[v] == 0
  {
  }

  lemma {:induction false} StringsGrow(input: seq<uint8>, m: nat, n: nat)
    requires m <= n <= |input|
    ensures Strings(input, m) <= Strings(input, n)
    decreases n
  {
    if m < n {
      StringsGrow(input, m, n - 1);
    }
  }

  /** As long as the strings of up to three bytes are fewer than 4093, the model has not started over: its history is the last
      two bytes, it has a symbol for each of those strings, and a context knows the bytes that have followed it. */
  lemma {:induction false} HistoryTold(input: seq<uint8>, n: nat)
    requires n <= |input| && 1 + Strings(input, n) < 4094
    ensures ModelOk(INITIAL) && Told(input, n, After(INITIAL, input[..n]))
  {
    hide Told, Advance, After, Strings, ModelOk;
    InitialOk();
    if n == 0 {
      AfterNothing();
      assert input[..0] == [];
      ToldAtStart(input);
    } else {
      StringsGrow(input, n - 1, n);
      HistoryTold(input, n - 1);
      assert input[..n] == input[..n - 1] + [input[n - 1]];
      AfterMore(INITIAL, input[..n - 1], input[n - 1]);
      ToldNext(input, n - 1, After(INITIAL, input[..n - 1]));
    }
  }

  /** ... and with the byte that brings them to 4093 it starts over, as if nothing had been read. */
  lemma StartsOver(input: seq<uint8>, n: nat, rest: seq<uint8>)
    requires n < |input| && 1 + Strings(input, n) < 4094 <= 1 + Strings(input, n + 1)
    ensures ModelOk(INITIAL) && After(INITIAL, input[..n + 1]) == INITIAL
    ensures After(INITIAL, input[..n + 1] + rest) == After(INITIAL, rest)
  {
    hide Told, Advance, After, Strings;
    HistoryTold(input, n);
    assert input[..n + 1] == input[..n] + [input[n]];
    AfterMore(INITIAL, input[..n], input[n]);
    ToldNext(input, n, After(INITIAL, input[..n]));
    AfterConcat(INITIAL, input[..n + 1], rest);
  }

  lemma {:induction false} AfterConcat(m: Model, a: seq<uint8>, b: seq<uint8>)
    requires ModelOk(m)
    ensures After(m, a + b) == After(After(m, a), b)
    decreases |a|
  {
    hide Advance;
    if a == [] {
      assert a + b == b;
    } else {
      AdvanceOk(m, a[0]);
      assert (a + b)[0] == a[0] && (a + b)[1..] == a[1..] + b;
      AfterConcat(Advance(m, a[0]), a[1..], b);
    }
  }

  // ----- how often, as long as nothing is rescaled

  /** What one coding adds to a byte's count. */
  ghost function Increment(k: History): nat {
    if k == [] then 3 else 2
  }

  /** Coding byte i in its context of m bytes rescales nothing: the count it had and the total it leaves are within bounds. */
  ghost predicate Room(input: seq<uint8>, i: nat, m: nat)
    requires m <= i < |input|
  {
    var k := input[i - m..i];
    if m == 0 then 1 + 3 * Codings(input, i, k, input[i]) <= 250 && 1 + 256 + 3 * CodingsBelow(input, i + 1, k, 256) <= 0xFF00
    else 2 * Codings(input, i, k, input[i]) <= 251 && 5 * Followers(input, i + 1, k) + 2 * CodingsBelow(input, i + 1, k, 256) <= 0xFF00
  }

  ghost predicate Unscaled(input: seq<uint8>, n: nat)
    requires n <= |input|
  {
    forall i: nat, m: nat :: i < n && m <= i && m <= 2 && CodedIn(input, i, m) ==> Room(input, i, m)
  }

  ghost predicate Table(input: seq<uint8>, n: nat, k: History, c: Context)
    requires n <= |input|
  {
    && (forall v: uint8 :: c.freq[v] == Increment(k) * Codings(input, n, k, v))
    && c.escapes == if k == [] then 1 else 5 * Followers(input, n, k)
  }

  ghost predicate Tables(input: seq<uint8>, n: nat, contexts: map<History, Context>)
    requires n <= |input|
  {
    forall k: History :: |k| <= 2 ==> Table(input, n, k, Lookup(contexts, k))
  }

  /** The codings of the bytes below v add up. */
  lemma {:induction false} CodingsBelowAll(input: seq<uint8>, n: nat, k: History, v: nat)
    requires n <= |input| && v < 256
    ensures CodingsBelow(input, n, k, v + 1) == CodingsBelow(input, n, k, v) + Codings(input, n, k, v)
    ensures CodingsBelow(input, n, k, 0) == 0
  {
    hide Coding;
    if n > 0 {
      CodingsBelowAll(input, n - 1, k, v);
    }
  }

  lemma {:induction false} TableBelow(input: seq<uint8>, n: nat, k: History, c: Context, v: nat)
    requires n <= |input| && v <= 256 && Table(input, n, k, c)
    ensures Below(c.freq, v) == Increment(k) * CodingsBelow(input, n, k, v)
  {
    hide Codings, CodingsBelow, Followers;
    if v > 0 {
      TableBelow(input, n, k, c, v - 1);
      CodingsBelowAll(input, n, k, v - 1);
    } else {
      CodingsBelowAll(input, n, k, 0);
    }
  }

  /** A visit without rescaling. */
  lemma TableVisited(input: seq<uint8>, n: nat, k: History, c: Context)
    requires n < |input| && Table(input, n, k, c) && Coding(input, n, k) && |k| <= 2 && Room(input, n, |k|)
    requires c.freq[input[n]] > 0 <==> Occurred(input, n, |k|)
    ensures Table(input, n + 1, k, AfterVisit(c, k, input[n]))
  {
    hide Coding, Occurred;
    var v := input[n];
    assert input[n - |k|..n] == k by { CodingAt(input, n, k); }
    assert At(input, n, k) by { CodingAt(input, n, k); }
    var e := if k == [] || c.freq[v] > 0 then c.escapes else c.escapes + 5;
    var d := Heard(c.(escapes := e), v, Increment(k));
    assert Table(input, n + 1, k, d) by { HeardTable(input, n, k, c, d); }
    TableBelow(input, n + 1, k, d, 256);
    NotRescaled(c, k, v, d);
  }

  lemma CodingAt(input: seq<uint8>, n: nat, k: History)
    requires Coding(input, n, k)
    ensures At(input, n, k) && |k| <= n < |input| && input[n - |k|..n] == k
  {
  }

  lemma HeardTable(input: seq<uint8>, n: nat, k: History, c: Context, d: Context)
    requires n < |input| && Table(input, n, k, c) && Coding(input, n, k) && At(input, n, k)
    requires c.freq[input[n]] > 0 <==> Occurred(input, n, |k|)
    requires d == Heard(c.(escapes := if k == [] || c.freq[input[n]] > 0 then c.escapes else c.escapes + 5), input[n], Increment(k))
    ensures Table(input, n + 1, k, d)
  {
    hide Coding, At, Occurred;
    forall v: uint8
      ensures d.freq[v] == Increment(k) * Codings(input, n + 1, k, v)
    {
    }
  }

  lemma NotRescaled(c: Context, k: History, v: uint8, d: Context)
    requires d == Heard(c.(escapes := if k == [] || c.freq[v] > 0 then c.escapes else c.escapes + 5), v, Increment(k))
    requires if k == [] then 1 + c.freq[v] <= 250 && d.escapes + 256 + Below(d.freq, 256) <= 0xFF00
             else c.freq[v] <= 251 && d.escapes + Below(d.freq, 256) <= 0xFF00
    ensures AfterVisit(c, k, v) == d
  {
    hide Below;
  }

  lemma TableKept(input: seq<uint8>, n: nat, k: History, c: Context)
    requires n < |input| && Table(input, n, k, c) && !Coding(input, n, k)
    ensures Table(input, n + 1, k, c)
  {
    hide Coding, Occurred, At;
    if At(input, n, k) {
      NotCoded(input, n, k);
    }
  }

  lemma RoomAt(input: seq<uint8>, n: nat, k: History)
    requires n < |input| && Unscaled(input, n + 1) && Coding(input, n, k) && |k| <= 2
    ensures At(input, n, k) && Room(input, n, |k|)
  {
  }

  lemma TablesNext(input: seq<uint8>, n: nat, contexts: map<History, Context>)
    requires n < |input| && Knows(input, n, contexts) && Tables(input, n, contexts) && Unscaled(input, n + 1)
    ensures Tables(input, n + 1, Learned(contexts, LastTwo(input, n), input[n]))
  {
    hide Knows, Table, Learned, AfterVisit, Visited, Coding, Room, Unscaled, Occurred, Follows;
    forall k: History | |k| <= 2
      ensures Table(input, n + 1, k, Lookup(Learned(contexts, LastTwo(input, n), input[n]), k))
    {
      var c := Lookup(contexts, k);
      LearnedLookup(contexts, LastTwo(input, n), input[n], k);
      VisitedIsCoding(input, n, contexts, k);
      if Coding(input, n, k) {
        RoomAt(input, n, k);
        KnowsAt(input, n, contexts, k, input[n]);
        OccurredFollows(input, n, k);
        TableVisited(input, n, k, c);
      } else {
        TableKept(input, n, k, c);
      }
    }
  }

  lemma KnowsAt(input: seq<uint8>, n: nat, contexts: map<History, Context>, k: History, v: uint8)
    requires n <= |input| && Knows(input, n, contexts) && |k| <= 2
    ensures Lookup(contexts, k).freq[v] > 0 <==> Follows(input, n, k, v)
  {
  }

  lemma TablesAtStart(input: seq<uint8>)
    ensures Tables(input, 0, INITIAL.contexts)
  {
    forall k: History | |k| <= 2
      ensures Table(input, 0, k, Lookup(INITIAL.contexts, k))
    {
    }
  }

  lemma UnscaledBefore(input: seq<uint8>, n: nat)
    requires n < |input| && Unscaled(input, n + 1)
    ensures Unscaled(input, n)
  {
  }

  lemma AdvanceLearned(m: Model, v: uint8)
    ensures Advance(m, v) == INITIAL || Advance(m, v).contexts == Learned(m.contexts, m.history, v)
    ensures m.nextSymbol + Created(m.contexts, m.history, v) < 4094 ==> Advance(m, v).contexts == Learned(m.contexts, m.history, v)
  {
  }

  /** Until the model starts over or rescales, its tables are plain counts of the input. */
  lemma {:induction false} TablesTold(input: seq<uint8>, n: nat)
    requires n <= |input| && 1 + Strings(input, n) < 4094 && Unscaled(input, n)
    ensures ModelOk(INITIAL) && Tables(input, n, After(INITIAL, input[..n]).contexts)
  {
    hide Tables, Advance, After, ModelOk, Unscaled, Knows, Learned, Created, New;
    InitialOk();
    if n == 0 {
      AfterNothing();
      assert input[..0] == [];
      TablesAtStart(input);
    } else {
      var m := After(INITIAL, input[..n - 1]);
      StringsGrow(input, n - 1, n);
      UnscaledBefore(input, n - 1);
      TablesTold(input, n - 1);
      HistoryTold(input, n - 1);
      assert input[..n] == input[..n - 1] + [input[n - 1]];
      AfterMore(INITIAL, input[..n - 1], input[n - 1]);
      TablesNext(input, n - 1, m.contexts);
      CreatedIsNew(input, n - 1, m.contexts);
      AdvanceLearned(m, input[n - 1]);
    }
  }

  // ----- the code of such an input

  /** The slots of byte i from its context of m bytes down: an escape from each context that does not know it, and the symbol
      in the first that does. */
  ghost function Levels(input: seq<uint8>, i: nat, m: nat): seq<(nat, nat, nat)>
    requires m <= i < |input|
  {
    var k, v := input[i - m..i], input[i];
    var count, less, all := Codings(input, i, k, v), CodingsBelow(input, i, k, v), CodingsBelow(input, i, k, 256);
    if m == 0 then [(1 + v + 3 * less, 1 + 3 * count, 257 + 3 * all)]
    else
      var escapes := 5 * Followers(input, i, k);
      if count > 0 then [(escapes + 2 * less, 2 * count, escapes + 2 * all)]
      else (if escapes > 0 then [(0, escapes, escapes + 2 * all)] else []) + Levels(input, i, m - 1)
  }

  ghost function Triples(ts: seq<Slot>): seq<(nat, nat, nat)> {
    seq(|ts|, i requires 0 <= i < |ts| => (ts[i].under as nat, ts[i].count as nat, ts[i].total as nat))
  }

  ghost function AllLevels(input: seq<uint8>, n: nat): seq<(nat, nat, nat)>
    requires n <= |input|
  {
    if n == 0 then [] else AllLevels(input, n - 1) + Levels(input, n - 1, |LastTwo(input, n - 1)|)
  }

  lemma TriplesConcat(a: seq<Slot>, b: seq<Slot>)
    ensures Triples(a + b) == Triples(a) + Triples(b)
  {
  }

  /** What is new in a context is coded there. */
  lemma {:induction false} FollowersCoded(input: seq<uint8>, n: nat, k: History)
    requires n <= |input|
    ensures Followers(input, n, k) <= CodingsBelow(input, n, k, 256)
  {
    hide Coding, Occurred, At;
    if n > 0 {
      FollowersCoded(input, n - 1, k);
      if At(input, n - 1, k) && !Coding(input, n - 1, k) {
        NotCoded(input, n - 1, k);
      }
    }
  }

  lemma RootSlot(input: seq<uint8>, n: nat, c: Context, v: uint8)
    requires n <= |input| && Table(input, n, [], c) && Bounded(c, CONTEXT_COUNT_CAP, 1)
    ensures var t := SymbolSlot(c, v, 1);
            t.under == 1 + v + 3 * CodingsBelow(input, n, [], v) && t.count == 1 + 3 * Codings(input, n, [], v)
            && t.total == 257 + 3 * CodingsBelow(input, n, [], 256)
  {
    TableBelow(input, n, [], c, v);
    TableBelow(input, n, [], c, 256);
  }

  lemma LevelSlots(input: seq<uint8>, n: nat, k: History, c: Context, v: uint8)
    requires n <= |input| && k != [] && Table(input, n, k, c) && Bounded(c, SUBCONTEXT_COUNT_CAP, 0)
    ensures var e, count, all := 5 * Followers(input, n, k), 2 * Codings(input, n, k, v), 2 * CodingsBelow(input, n, k, 256);
            Triples(SubcontextSlots(c, v))
            == if count > 0 then [(e + 2 * CodingsBelow(input, n, k, v), count, e + all)]
               else if e > 0 then [(0, e, e + all)]
               else []
  {
    hide Codings, CodingsBelow, Followers;
    TableBelow(input, n, k, c, v);
    TableBelow(input, n, k, c, 256);
    FollowersCoded(input, n, k);
  }

  lemma TableOf(input: seq<uint8>, n: nat, contexts: map<History, Context>, k: History)
    requires n <= |input| && Tables(input, n, contexts) && |k| <= 2
    ensures Table(input, n, k, Lookup(contexts, k))
  {
  }

  lemma {:induction false} SlotsTold(input: seq<uint8>, n: nat, contexts: map<History, Context>, m: nat)
    requires n < |input| && ContextsOk(contexts) && Tables(input, n, contexts) && m <= n && m <= 2
    ensures Triples(Slots(contexts, input[n - m..n], input[n])) == Levels(input, n, m)
    decreases m
  {
    hide Tables, Table, ContextsOk, SubcontextSlots, SymbolSlot, Codings, CodingsBelow, Followers, Lookup;
    var k, v := input[n - m..n], input[n];
    var c := Lookup(contexts, k);
    TableOf(input, n, contexts, k);
    if m == 0 {
      assert k == [];
      assert Bounded(c, CONTEXT_COUNT_CAP, 1) by { RootOk(contexts); }
      RootSlot(input, n, c, v);
      assert Slots(contexts, k, v) == [SymbolSlot(c, v, 1)];
    } else {
      LookupOk(contexts, k);
      assert Bounded(c, SUBCONTEXT_COUNT_CAP, 0);
      LevelSlots(input, n, k, c, v);
      assert k[1..] == input[n - (m - 1)..n];
      SlotsTold(input, n, contexts, m - 1);
      TriplesConcat(SubcontextSlots(c, v), Slots(contexts, k[1..], v));
      TableCount(input, n, k, c, v);
      assert SubcontextSlots(c, v) + [] == SubcontextSlots(c, v);
    }
  }

  lemma RootOk(contexts: map<History, Context>)
    requires ContextsOk(contexts)
    ensures Bounded(Lookup(contexts, []), CONTEXT_COUNT_CAP, 1)
  {
  }

  lemma TableCount(input: seq<uint8>, n: nat, k: History, c: Context, v: uint8)
    requires n <= |input| && Table(input, n, k, c)
    ensures c.freq[v] > 0 <==> Codings(input, n, k, v) > 0
  {
  }

  lemma {:induction false} AllSlotsMore(m: Model, input: seq<uint8>, v: uint8)
    requires ModelOk(m)
    ensures AllSlots(m, input + [v]) == AllSlots(m, input) + Slots(After(m, input).contexts, After(m, input).history, v)
    decreases |input|
  {
    hide Advance, Slots;
    AdvanceOk(m, v);
    if input == [] {
      assert [v][1..] == [] && input + [v] == [v];
    } else {
      AdvanceOk(m, input[0]);
      assert (input + [v])[0] == input[0] && (input + [v])[1..] == input[1..] + [v];
      AllSlotsMore(Advance(m, input[0]), input[1..], v);
    }
  }

  lemma NoSlots()
    ensures ModelOk(INITIAL) && Triples(AllSlots(INITIAL, [])) == []
  {
    InitialOk();
  }

  /** ... and so is the code: the slots of every byte are those counts. */
  lemma {:induction false} CodeTold(input: seq<uint8>, n: nat)
    requires n <= |input| && 1 + Strings(input, n) < 4094 && Unscaled(input, n)
    ensures ModelOk(INITIAL) && Triples(AllSlots(INITIAL, input[..n])) == AllLevels(input, n)
  {
    hide Tables, Advance, After, AllSlots, Slots, Triples, Unscaled, Knows, Levels, Strings, ContextsOk;
    InitialOk();
    if n == 0 {
      NoSlots();
      assert input[..0] == [];
    } else {
      var m := After(INITIAL, input[..n - 1]);
      StringsGrow(input, n - 1, n);
      UnscaledBefore(input, n - 1);
      CodeTold(input, n - 1);
      TablesTold(input, n - 1);
      HistoryTold(input, n - 1);
      assert input[..n] == input[..n - 1] + [input[n - 1]];
      AllSlotsMore(INITIAL, input[..n - 1], input[n - 1]);
      LastIs(input, n - 1);
      SlotsTold(input, n - 1, m.contexts, |LastTwo(input, n - 1)|);
      TriplesConcat(AllSlots(INITIAL, input[..n - 1]), Slots(m.contexts, m.history, input[n - 1]));
    }
  }

  // ----- an example

  /** The byte x, over and over. */
  ghost predicate Same(input: seq<uint8>, x: uint8) {
    forall i :: 0 <= i < |input| ==> input[i] == x
  }

  lemma SameAt(input: seq<uint8>, x: uint8, i: nat, k: History)
    requires Same(input, x) && i < |input|
    ensures At(input, i, k) <==> |k| <= i && Same(k, x)
  {
    if |k| <= i && Same(k, x) {
      assert input[i - |k|..i] == k;
    } else if At(input, i, k) {
      assert forall l :: 0 <= l < |k| ==> k[l] == input[i - |k| + l];
    }
  }

  lemma SameOccurred(input: seq<uint8>, x: uint8, i: nat, m: nat)
    requires Same(input, x) && m <= i < |input|
    ensures Occurred(input, i, m) <==> m < i
  {
    hide Same, At;
    var k := input[i - m..i];
    assert Same(k, x) by { SameSlice(input, x, i - m, i); }
    forall j: nat | j < i
      ensures At(input, j, k) <==> m <= j
      ensures input[j] == input[i]
    {
      SameAt(input, x, j, k);
      SameByte(input, x, i, j);
    }
    if m < i {
      assert At(input, i - 1, k);
    }
  }

  lemma SameSlice(input: seq<uint8>, x: uint8, i: nat, j: nat)
    requires Same(input, x) && i <= j <= |input|
    ensures Same(input[i..j], x)
  {
  }

  lemma SameByte(input: seq<uint8>, x: uint8, i: nat, j: nat)
    requires Same(input, x) && i < |input| && j < |input|
    ensures input[i] == input[j] == x
  {
  }

  lemma SameCoding(input: seq<uint8>, x: uint8, i: nat, k: History)
    requires Same(input, x) && i < |input| && |k| <= 2
    ensures Coding(input, i, k) <==> |k| <= i && Same(k, x) && (|k| == 2 || i <= |k| + 1)
  {
    hide Same, At, Occurred;
    SameAt(input, x, i, k);
    forall l: nat | l <= i
      ensures Occurred(input, i, l) <==> l < i
    {
      SameOccurred(input, x, i, l);
    }
    if |k| <= i && |k| < 2 && i > |k| + 1 {
      assert Occurred(input, i, |k| + 1);
    }
  }

  /** The counts behind n bytes that are all x: 2 in the root, 2 in the context of one byte, the rest in that of two. */
  lemma {:induction false} SameCounts(input: seq<uint8>, x: uint8, n: nat, k: History)
    requires Same(input, x) && n <= |input| && |k| <= 2 && Same(k, x)
    ensures var c := if n <= |k| then 0 else if |k| == 2 || n <= |k| + 2 then n - |k| else 2;
            && Codings(input, n, k, x) == c && CodingsBelow(input, n, k, 256) == c && CodingsBelow(input, n, k, x) == 0
    ensures Followers(input, n, k) == if n <= |k| then 0 else 1
  {
    hide Same, At, Occurred, Coding;
    if n > 0 {
      SameCounts(input, x, n - 1, k);
      SameCoding(input, x, n - 1, k);
      SameAt(input, x, n - 1, k);
      SameByte(input, x, n - 1, n - 1);
      if |k| <= n - 1 {
        SameOccurred(input, x, n - 1, |k|);
      }
    }
  }

  lemma SameLevels(input: seq<uint8>, x: uint8, i: nat, m: nat)
    requires Same(input, x) && m <= i < |input| && m <= 2
    ensures Levels(input, i, m)
            == if m == 0 then
                 var c := if i <= 2 then i else 2;
                 [(1 + (x as int), 1 + 3 * c, 257 + 3 * c)]
               else
                 var c := if i <= m then 0 else if m == 2 || i <= m + 2 then i - m else 2;
                 if c > 0 then [(5, 2 * c, 5 + 2 * c)] else Levels(input, i, m - 1)
  {
    hide Same, Codings, CodingsBelow, Followers;
    SameSlice(input, x, i - m, i);
    SameByte(input, x, i, i);
    SameCounts(input, x, i, input[i - m..i]);
    var none: seq<(nat, nat, nat)> := [];
    assert m > 0 ==> none + Levels(input, i, m - 1) == Levels(input, i, m - 1);
  }

  lemma FourLevels(input: seq<uint8>)
    requires input == [97, 97, 97, 97]
    ensures AllLevels(input, 4) == [(98, 1, 257), (98, 4, 260), (5, 2, 7), (5, 2, 7)]
  {
    hide Levels;
    SameLevels(input, 97, 0, 0);
    SameLevels(input, 97, 1, 1);
    SameLevels(input, 97, 1, 0);
    SameLevels(input, 97, 2, 2);
    SameLevels(input, 97, 2, 1);
    SameLevels(input, 97, 3, 2);
    var none: seq<(nat, nat, nat)> := [];
    assert AllLevels(input, 0) == none;
    assert AllLevels(input, 1) == none + Levels(input, 0, 0);
    assert AllLevels(input, 2) == AllLevels(input, 1) + Levels(input, 1, 1);
    assert AllLevels(input, 3) == AllLevels(input, 2) + Levels(input, 2, 2);
    assert AllLevels(input, 4) == AllLevels(input, 3) + Levels(input, 3, 2);
  }

  lemma FourRoom(input: seq<uint8>)
    requires input == [97, 97, 97, 97]
    ensures Unscaled(input, 4) && Strings(input, 4) <= 12
  {
    hide Codings, CodingsBelow, Followers, Same, CodedIn, Occurred;
    assert Same(input, 97) by { FourSame(input); }
    forall i: nat, m: nat | i < 4 && m <= i && m <= 2
      ensures Room(input, i, m)
    {
      SameSlice(input, 97, i - m, i);
      SameByte(input, 97, i, i);
      SameCounts(input, 97, i, input[i - m..i]);
      SameCounts(input, 97, i + 1, input[i - m..i]);
    }
    StringsBound(input, 4);
  }

  lemma FourSame(input: seq<uint8>)
    requires input == [97, 97, 97, 97]
    ensures Same(input, 97)
  {
  }

  lemma {:induction false} StringsBound(input: seq<uint8>, n: nat)
    requires n <= |input|
    ensures Strings(input, n) <= 3 * n
  {
    hide New;
    if n > 0 {
      StringsBound(input, n - 1);
      NewBound(input, n - 1);
    }
  }

  lemma NewBound(input: seq<uint8>, i: nat)
    requires i < |input|
    ensures New(input, i, 0) <= 1 && New(input, i, 1) <= 1 && New(input, i, 2) <= 1
  {
  }

  lemma FourSlots()
    ensures ModelOk(INITIAL)
    ensures AllSlots(INITIAL, [97, 97, 97, 97]) == [Slot(98, 1, 257), Slot(98, 4, 260), Slot(5, 2, 7), Slot(5, 2, 7)]
  {
    hide AllLevels, Unscaled, Strings, AllSlots, INITIAL;
    var input: seq<uint8> := [97, 97, 97, 97];
    FourRoom(input);
    CodeTold(input, 4);
    FourLevels(input);
    assert input[..4] == input;
    TriplesAre(AllSlots(INITIAL, input), [Slot(98, 1, 257), Slot(98, 4, 260), Slot(5, 2, 7), Slot(5, 2, 7)]);
  }

  lemma TriplesAre(ts: seq<Slot>, us: seq<Slot>)
    requires Triples(ts) == Triples(us)
    ensures ts == us
  {
    forall i | 0 <= i < |ts|
      ensures |ts| == |us| && ts[i] == us[i]
    {
      assert |Triples(ts)| == |ts| && |Triples(us)| == |us|;
      assert Triples(ts)[i] == Triples(us)[i];
    }
    assert |Triples(ts)| == |ts| && |Triples(us)| == |us|;
  }

  lemma FirstStep()
    ensures Ready(START) && Fits(Slot(98, 1, 257))
    ensures Step(START, Slot(98, 1, 257)) == Coder(1637769630, 16711935) && StepBytes(START, Slot(98, 1, 257)) == []
  {
    assert Narrow(START, Slot(98, 1, 257)) == Coder(1637769630, 16711935);
  }

  lemma SecondStep()
    ensures var c, t := Coder(1637769630, 16711935), Slot(98, 4, 260);
            Ready(c) && Fits(t) && Step(c, t) == Coder(1644068678, 257104) && StepBytes(c, t) == []
  {
    assert Narrow(Coder(1637769630, 16711935), Slot(98, 4, 260)) == Coder(1644068678, 257104);
  }

  lemma ThirdStep()
    ensures var c, t := Coder(1644068678, 257104), Slot(5, 2, 7);
            Ready(c) && Fits(t) && Step(c, t) == Coder(21799680, 18805248) && StepBytes(c, t) == [0x62]
  {
    var d := Coder(1644252323, 73458);
    assert Narrow(Coder(1644068678, 257104), Slot(5, 2, 7)) == d;
    assert !Settled(d) && Shift(Truncate(d)) == Coder(21799680, 18805248);
    assert Settled(Coder(21799680, 18805248));
  }

  lemma FourthStep()
    ensures var c, t := Coder(21799680, 18805248), Slot(5, 2, 7);
            Ready(c) && Fits(t) && Step(c, t) == Coder(429457408, 1375469568) && StepBytes(c, t) == [0x02]
  {
    var d := Coder(35232000, 5372928);
    assert Narrow(Coder(21799680, 18805248), Slot(5, 2, 7)) == d;
    assert !Settled(d) && Shift(Truncate(d)) == Coder(429457408, 1375469568);
    assert Settled(Coder(429457408, 1375469568));
  }

  lemma LastFlush()
    ensures Flush(429457408) == [0x19, 0x99]
  {
    assert Flush(0) == [];
    assert Flush(2566914048) == [0x99] + Flush(0);
  }

  /** The code of "aaaa", to the last bit. */
  lemma CodeOfFour()
    ensures Compressed([97, 97, 97, 97]) == [0x62, 0x02, 0x19, 0x99]
  {
    hide Step, StepBytes, Flush, AllSlots, INITIAL;
    FourSlots();
    FirstStep();
    SecondStep();
    ThirdStep();
    FourthStep();
    LastFlush();
    var t1, t2, t3 := Slot(98, 1, 257), Slot(98, 4, 260), Slot(5, 2, 7);
    var c1, c2, c3, c4 := Coder(1637769630, 16711935), Coder(1644068678, 257104), Coder(21799680, 18805248), Coder(429457408, 1375469568);
    assert Encoding(c4, []) == [0x19, 0x99];
    EncodingStep(c3, t3, []);
    EncodingStep(c2, t3, [t3]);
    EncodingStep(c1, t2, [t3, t3]);
    EncodingStep(START, t1, [t2, t3, t3]);
    assert [t3] + [] == [t3] && [t3] + [t3] == [t3, t3] && [t2] + [t3, t3] == [t2, t3, t3] && [t1] + [t2, t3, t3] == [t1, t2, t3, t3];
  }
}
