/** The carryless 32-bit range coder under the compressor, apart from any model of the data:
    it encodes a list of slots (under, count, total) and its decoder reads them back. */
module RangeCoding {
  import opened Integers

  const TOP := 0x100_0000
  const BOTTOM := 0x1_0000
  const LIMIT := 0x1_0000_0000

  /** The interval [low, low + range) of 32-bit codes still possible. */
  datatype Coder = Coder(low: uint32, range: uint32)

  /** The share [under, under + count) out of total that one symbol or escape gets. */
  datatype Slot = Slot(under: uint16, count: uint16, total: uint16)

  const START := Coder(0, 0xFFFF_FFFF)

  ghost predicate Fits(t: Slot) {
    1 <= t.count && t.under + t.count <= t.total
  }

  /** What the encoder keeps: the interval never passes 2^32, and only touches it away from low codes. */
  ghost predicate Valid(c: Coder) {
    && 1 <= c.range
    && c.low + c.range <= LIMIT
    && (c.low + c.range == LIMIT ==> TOP <= c.low)
  }

  /** A valid interval wide enough to be divided by any 16-bit total. */
  ghost predicate Ready(c: Coder) {
    Valid(c) && BOTTOM <= c.range
  }

  // ----- one symbol, as ENET_RANGE_CODER_ENCODE and ENET_RANGE_CODER_DECODE both move the interval

  function Narrow(c: Coder, t: Slot): Coder
    requires t.total != 0
  {
    var unit := c.range / t.total;
    Coder(Wrap32(c.low + t.under * unit), Wrap32(unit * t.count))
  }

  /** (low ^ (low + range)) < TOP: the two ends agree on their top byte. */
  predicate SameTop(c: Coder) {
    c.low / TOP == Wrap32(c.low + c.range) / TOP
  }

  predicate Settled(c: Coder) {
    !SameTop(c) && BOTTOM <= c.range
  }

  /** range = -low & (BOTTOM - 1) when the interval is narrow but straddles two top bytes. */
  function Truncate(c: Coder): Coder {
    if SameTop(c) then c else Coder(c.low, (BOTTOM - c.low % BOTTOM) % BOTTOM)
  }

  function Shift(c: Coder): Coder {
    Coder(Wrap32(c.low * 0x100), Wrap32(c.range * 0x100))
  }

  /** The number of shifts after which low is zero. */
  ghost function Digits(low: uint32): nat {
    if low == 0 then 0
    else if low % TOP == 0 then 1
    else if low % BOTTOM == 0 then 2
    else if low % 0x100 == 0 then 3
    else 4
  }

  lemma ShiftLow(low: uint32)
    ensures Wrap32(low * 0x100) == low % TOP * 0x100
  {
  }

  lemma DigitsShrink(low: uint32)
    ensures low != 0 ==> Digits(Wrap32(low * 0x100)) < Digits(low)
  {
    ShiftLow(low);
    var b := low % TOP;
    if low % BOTTOM == 0 {
      ShiftTwo(low);
    } else if low % 0x100 == 0 {
      ShiftThree(low);
    } else {
      ShiftFour(b);
    }
  }

  lemma ShiftTwo(low: nat)
    requires low % BOTTOM == 0
    ensures low % TOP * 0x100 % TOP == 0
  {
    ModMod(low);
    var k := low % TOP / BOTTOM;
    assert low % TOP == k * BOTTOM;
  }

  lemma ModMod(low: nat)
    ensures low % TOP % BOTTOM == low % BOTTOM
  {
  }

  lemma ShiftThree(low: nat)
    requires low % 0x100 == 0
    ensures low % TOP * 0x100 % BOTTOM == 0
  {
    var k := low % TOP / 0x100;
    assert low % TOP == k * 0x100;
  }

  lemma ShiftFour(b: nat)
    ensures b * 0x100 % 0x100 == 0
  {
  }

  /** Truncation and shifting never empty the interval, whatever state a decoder is in. */
  lemma ShiftProgress(c: Coder)
    requires 1 <= c.range && !Settled(c)
    ensures 1 <= Truncate(c).range
    ensures 1 <= Shift(Truncate(c)).range
    ensures Digits(Shift(Truncate(c)).low) < Digits(c.low)
            || (c.low == 0 && Shift(Truncate(c)).low == 0 && c.range < Shift(Truncate(c)).range)
  {
    TruncatePositive(c);
    ShiftPositive(c);
    DigitsShrink(c.low);
    if c.low == 0 {
      assert SameTop(c) && c.range < TOP;
    }
  }

  lemma TruncatePositive(c: Coder)
    requires 1 <= c.range && !Settled(c)
    ensures 1 <= Truncate(c).range
    ensures !SameTop(c) ==> Truncate(c).range < BOTTOM
  {
  }

  lemma AlignedSameTop(c: Coder)
    requires c.range < BOTTOM
    ensures c.low % BOTTOM == 0 ==> SameTop(c)
  {
    var b := c.low / BOTTOM;
    if c.low == b * BOTTOM {
      assert (c.low + c.range) / TOP == b / 0x100;
      assert c.low / TOP == b / 0x100;
    }
  }

  lemma ShiftPositive(c: Coder)
    requires 1 <= c.range && !Settled(c)
    requires 1 <= Truncate(c).range && (!SameTop(c) ==> Truncate(c).range < BOTTOM)
    ensures 1 <= Shift(Truncate(c)).range
  {
  }

  function Renormalise(c: Coder): (r: Coder)
    requires 1 <= c.range
    ensures Settled(r)
    decreases Digits(c.low), LIMIT - c.range
  {
    if Settled(c) then c
    else
      ShiftProgress(c);
      Renormalise(Shift(Truncate(c)))
  }

  /** The top bytes the renormalisation loop emits on its way. */
  function Emitted(c: Coder): (bytes: seq<uint8>)
    requires 1 <= c.range
    decreases Digits(c.low), LIMIT - c.range
  {
    if Settled(c) then []
    else
      ShiftProgress(c);
      [c.low / TOP] + Emitted(Shift(Truncate(c)))
  }

  function Flush(low: uint32): (bytes: seq<uint8>)
    decreases Digits(low)
  {
    if low == 0 then []
    else
      DigitsShrink(low);
      [low / TOP] + Flush(Wrap32(low * 0x100))
  }

  lemma ShareFits(range: int, under: int, count: int, total: int)
    requires 1 <= total <= range && 0 <= under && 1 <= count && under + count <= total
    ensures 1 <= range / total
    ensures 0 <= under * (range / total)
    ensures 1 <= count * (range / total)
    ensures under * (range / total) + count * (range / total) <= range
  {
  }

  lemma NarrowKeeps(c: Coder, t: Slot)
    requires Ready(c) && Fits(t)
    ensures 1 <= c.range / t.total
    ensures Narrow(c, t).low == c.low + t.under * (c.range / t.total)
    ensures Narrow(c, t).range == t.count * (c.range / t.total)
    ensures Narrow(c, t).low + Narrow(c, t).range <= c.low + c.range
    ensures Valid(Narrow(c, t))
  {
    var unit := c.range / t.total;
    ShareFits(c.range, t.under, t.count, t.total);
    assert Narrow(c, t).low + Narrow(c, t).range <= c.low + c.range;
  }

  lemma ShiftKeeps(c: Coder)
    requires Valid(c) && !Settled(c)
    ensures Valid(Shift(Truncate(c)))
    ensures Truncate(c).range <= c.range
    ensures Shift(Truncate(c)).low == c.low % TOP * 0x100
    ensures Shift(Truncate(c)).range == Truncate(c).range * 0x100
  {
    var d := Truncate(c);
    if SameTop(c) {
      assert c.low % TOP + c.range < TOP by {
        SameTopNarrow(c);
      }
    } else {
      AlignedSameTop(c);
      StraddleBoundary(c);
    }
    ShiftLow(c.low);
    assert d.range < TOP;
  }

  lemma SameTopNarrow(c: Coder)
    requires Valid(c) && SameTop(c)
    ensures c.low % TOP + c.range < TOP
  {
  }

  /** A narrow interval over two top bytes is cut exactly at the boundary between them. */
  lemma StraddleBoundary(c: Coder)
    requires Valid(c) && !SameTop(c) && c.range < BOTTOM
    ensures Truncate(c).range <= c.range
    ensures c.low % TOP + Truncate(c).range == TOP
    ensures TOP - BOTTOM <= c.low % TOP
  {
    var top := c.low / TOP;
    assert c.low == top * TOP + c.low % TOP;
    assert c.low + c.range >= (top + 1) * TOP;
    var gap := TOP - c.low % TOP;
    assert 1 <= gap <= c.range < BOTTOM;
    assert c.low % BOTTOM == BOTTOM - gap;
  }

  lemma RenormaliseKeeps(c: Coder)
    requires Valid(c)
    ensures Ready(Renormalise(c))
    decreases Digits(c.low), LIMIT - c.range
  {
    if !Settled(c) {
      ShiftProgress(c);
      ShiftKeeps(c);
      RenormaliseKeeps(Shift(Truncate(c)));
    }
  }

  // ----- a list of slots

  ghost predicate AllFit(ts: seq<Slot>) {
    forall i :: 0 <= i < |ts| ==> Fits(ts[i])
  }

  function Step(c: Coder, t: Slot): (r: Coder)
    requires Ready(c) && Fits(t)
    ensures Ready(r)
  {
    NarrowKeeps(c, t);
    RenormaliseKeeps(Narrow(c, t));
    Renormalise(Narrow(c, t))
  }

  function StepBytes(c: Coder, t: Slot): seq<uint8>
    requires Ready(c) && Fits(t)
  {
    NarrowKeeps(c, t);
    Emitted(Narrow(c, t))
  }

  /** Everything the encoder still writes from interval c, including the final flush. */
  function Encoding(c: Coder, ts: seq<Slot>): seq<uint8>
    requires Ready(c) && AllFit(ts)
    decreases |ts|
  {
    if ts == [] then Flush(c.low)
    else StepBytes(c, ts[0]) + Encoding(Step(c, ts[0]), ts[1..])
  }

  lemma EncodingStep(c: Coder, t: Slot, us: seq<Slot>)
    requires Ready(c) && Fits(t) && AllFit(us)
    ensures AllFit([t] + us)
    ensures Encoding(c, [t] + us) == StepBytes(c, t) + Encoding(Step(c, t), us)
  {
  }

  // ----- the decoder's view: a 32-bit window on a byte stream that continues with zeros

  function Byte(s: seq<uint8>, i: nat): uint8 {
    if i < |s| then s[i] else 0
  }

  function Window(s: seq<uint8>): uint32 {
    Byte(s, 0) * TOP + Byte(s, 1) * BOTTOM + Byte(s, 2) * 0x100 + Byte(s, 3)
  }

  function Drop(s: seq<uint8>, n: nat): seq<uint8> {
    if n <= |s| then s[n..] else []
  }

  /** ENET_RANGE_CODER_READ before it is cut to 16 bits. */
  function Read(code: uint32, c: Coder, total: uint16): int
    requires total != 0 && c.range / total != 0
  {
    Wrap32(code - c.low) / (c.range / total)
  }

  lemma WindowTail(b: uint8, s: seq<uint8>)
    ensures Window([b] + s) == b * TOP + Window(s) / 0x100
    ensures Window(s) == Window([b] + s) % TOP * 0x100 + Byte(s, 3)
  {
  }

  lemma WindowEmpty()
    ensures Window([]) == 0
  {
  }

  lemma {:induction false} FlushWindow(low: uint32)
    ensures Window(Flush(low)) == low
    decreases Digits(low)
  {
    hide Window, Byte;
    if low == 0 {
      WindowEmpty();
    } else {
      ShiftLow(low);
      DigitsShrink(low);
      FlushWindow(Wrap32(low * 0x100));
      WindowTail(low / TOP, Flush(Wrap32(low * 0x100)));
    }
  }

  ghost predicate Inside(code: uint32, c: Coder) {
    c.low <= code < c.low + c.range
  }

  /** Emitted bytes never leave the interval they were emitted from. */
  lemma {:induction false} EmittedInside(c: Coder, rest: seq<uint8>)
    requires Valid(c)
    requires Inside(Window(rest), Renormalise(c))
    ensures Inside(Window(Emitted(c) + rest), c)
    decreases Digits(c.low), LIMIT - c.range
  {
    if Settled(c) {
      assert Emitted(c) + rest == rest;
    } else {
      ShiftProgress(c);
      ShiftKeeps(c);
      var d := Shift(Truncate(c));
      EmittedInside(d, rest);
      WindowTail(c.low / TOP, Emitted(d) + rest);
      assert Emitted(c) + rest == [c.low / TOP] + (Emitted(d) + rest);
    }
  }

  lemma {:induction false} EncodingInside(c: Coder, ts: seq<Slot>)
    requires Ready(c) && AllFit(ts)
    ensures Inside(Window(Encoding(c, ts)), c)
    ensures ts != [] ==> Inside(Window(Encoding(c, ts)), Narrow(c, ts[0]))
    decreases |ts|
  {
    if ts == [] {
      FlushWindow(c.low);
    } else {
      NarrowKeeps(c, ts[0]);
      EncodingInside(Step(c, ts[0]), ts[1..]);
      EmittedInside(Narrow(c, ts[0]), Encoding(Step(c, ts[0]), ts[1..]));
    }
  }

  /** The decoder, given only the totals, reads inside every slot the encoder wrote. */
  lemma ReadsSlot(c: Coder, ts: seq<Slot>)
    requires Ready(c) && AllFit(ts) && ts != []
    ensures 1 <= c.range / ts[0].total
    ensures ts[0].under <= Read(Window(Encoding(c, ts)), c, ts[0].total) < ts[0].under + ts[0].count
  {
    EncodingInside(c, ts);
    NarrowKeeps(c, ts[0]);
    ReadInside(Window(Encoding(c, ts)), c, ts[0]);
  }

  lemma ReadInside(code: uint32, c: Coder, t: Slot)
    requires Ready(c) && Fits(t) && Inside(code, Narrow(c, t))
    ensures 1 <= c.range / t.total
    ensures t.under <= Read(code, c, t.total) < t.under + t.count
  {
    hide Ready, Narrow, Read;
    NarrowKeeps(c, t);
    var unit := c.range / t.total;
    ReadAbove(code, c, t.total);
    QuotientBounds(code - c.low, unit, t.under, t.count);
  }

  lemma ReadAbove(code: uint32, c: Coder, total: uint16)
    requires total != 0 && c.range / total != 0 && c.low <= code
    ensures Read(code, c, total) == (code - c.low) / (c.range / total)
  {
  }

  lemma QuotientBounds(x: int, unit: int, lo: int, n: int)
    requires 1 <= unit && lo * unit <= x < lo * unit + n * unit
    ensures lo <= x / unit < lo + n
  {
    var q := x / unit;
    if q <= lo - 1 {
      MulMonotone(q + 1, lo, unit);
    }
    if lo + n <= q {
      MulMonotone(lo + n, q, unit);
    }
  }

  /** A decoder follows ts when each read lands in its slot and, after the last one, the code equals low. */
  ghost predicate Follows(c: Coder, s: seq<uint8>, ts: seq<Slot>)
    requires Ready(c) && AllFit(ts)
    decreases |ts|
  {
    if ts == [] then
      s == Flush(c.low) && Window(s) == c.low
    else
      && 1 <= c.range / ts[0].total
      && ts[0].under <= Read(Window(s), c, ts[0].total) < ts[0].under + ts[0].count
      && Follows(Step(c, ts[0]), Drop(s, |StepBytes(c, ts[0])|), ts[1..])
  }

  /** The decoder stays in lock-step with the encoder over any list of slots. */
  lemma {:induction false} DecoderFollows(c: Coder, ts: seq<Slot>)
    requires Ready(c) && AllFit(ts)
    ensures Follows(c, Encoding(c, ts), ts)
    decreases |ts|
  {
    if ts == [] {
      FlushWindow(c.low);
    } else {
      ReadsSlot(c, ts);
      DecoderFollows(Step(c, ts[0]), ts[1..]);
      assert Drop(Encoding(c, ts), |StepBytes(c, ts[0])|) == Encoding(Step(c, ts[0]), ts[1..]);
    }
  }

  // ----- past the end of the stream

  /** After the flush the code is low and stays low: an escape (under = 0) reads 0. */
  lemma {:induction false} FlushDrop(c: Coder)
    requires Valid(c)
    ensures Drop(Flush(c.low), |Emitted(c)|) == Flush(Renormalise(c).low)
    decreases Digits(c.low), LIMIT - c.range
  {
    if !Settled(c) {
      ShiftProgress(c);
      ShiftKeeps(c);
      var d := Shift(Truncate(c));
      FlushDrop(d);
      if c.low != 0 {
        assert Flush(c.low)[1..] == Flush(d.low);
      }
    }
  }

  lemma EndDrop(c: Coder, t: Slot)
    requires Ready(c) && Fits(t) && t.under == 0
    ensures Drop(Flush(c.low), |StepBytes(c, t)|) == Flush(Step(c, t).low)
  {
    NarrowKeeps(c, t);
    FlushDrop(Narrow(c, t));
  }

  lemma ReadAtLow(c: Coder, total: uint16)
    requires Ready(c) && 1 <= total
    ensures 1 <= c.range / total
    ensures Read(c.low, c, total) == 0
  {
  }

  lemma EndReadsEscape(c: Coder, t: Slot)
    requires Ready(c) && Fits(t) && t.under == 0
    ensures 1 <= c.range / t.total
    ensures Read(Window(Flush(c.low)), c, t.total) == 0
    ensures Drop(Flush(c.low), |StepBytes(c, t)|) == Flush(Step(c, t).low)
  {
    FlushWindow(c.low);
    ReadAtLow(c, t.total);
    EndDrop(c, t);
  }
}
