/** The loops of the range coder macros, over 32-bit words that wrap, each against its function in RangeCoding. */
module CoderLoops {
  import opened Integers
  import opened RangeCoding
  import opened Words

  /** The bit tests of the loop are the comparisons of RangeCoding. */
  lemma WordTests(c: Coder)
    ensures SameTop(c) <==> Xor(c.low, Wrap32(c.low + c.range)) < TOP
    ensures !SameTop(c) ==> Truncate(c).range == And(Wrap32(-(c.low as int)), BOTTOM - 1)
  {
    hide Xor, And, Wrap32;
    TopDiffers(c.low, Wrap32(c.low + c.range));
    LowHalf(Wrap32(-(c.low as int)));
    MinusLow(c.low);
  }

  lemma MinusLow(low: uint32)
    ensures Wrap32(-(low as int)) % BOTTOM == (BOTTOM - low % BOTTOM) % BOTTOM
  {
  }

  /** One turn of the renormalisation loop that ends both macros; range' > 0 even for a malformed stream. */
  method ShiftUnlessSettled(low: uint32, range: uint32) returns (settled: bool, low': uint32, range': uint32)
    requires 1 <= range
    ensures var c := Coder(low, range);
            && settled == Settled(c)
            && (settled ==> Renormalise(c) == c && Emitted(c) == [])
            && (!settled ==> && Coder(low', range') == Shift(Truncate(c)) && 1 <= range'
                             && Renormalise(c) == Renormalise(Coder(low', range'))
                             && Emitted(c) == [low / TOP] + Emitted(Coder(low', range'))
                             && (Digits(low') < Digits(low) || (low' == low == 0 && range < range')))
  {
    hide Xor, And;
    low', range' := low, range;
    WordTests(Coder(low, range));
    if Xor(low', Wrap32(low' + range')) >= TOP {
      if range' >= BOTTOM {
        return true, low', range';
      }
      range' := And(Wrap32(-(low' as int)), BOTTOM - 1);
    }
    settled := false;
    range' := Wrap32(range' * 0x100);
    low' := Wrap32(low' * 0x100);
    ShiftProgress(Coder(low, range));
    assert Coder(low', range') == Shift(Truncate(Coder(low, range)));
  }

  /** ENET_RANGE_CODER_ENCODE: false when the output limit is reached, as the macro's return 0. */
  method Encode(low: uint32, range: uint32, t: Slot, outData: array<uint8>, outPos: nat, outLimit: nat)
    returns (ok: bool, low': uint32, range': uint32, outPos': nat)
    requires Ready(Coder(low, range)) && Fits(t)
    requires outPos <= outLimit <= outData.Length
    modifies outData
    ensures var bytes := StepBytes(Coder(low, range), t);
            && ok == (outPos + |bytes| <= outLimit)
            && (ok ==> && outPos' == outPos + |bytes|
                       && Coder(low', range') == Step(Coder(low, range), t)
                       && outData[..outPos'] == old(outData[..outPos]) + bytes)
  {
    NarrowKeeps(Coder(low, range), t);
    ghost var start := Narrow(Coder(low, range), t);
    ghost var written := [];
    range' := range / t.total;
    low' := Wrap32(low + t.under * range');
    range' := Wrap32(range' * t.count);
    outPos' := outPos;
    while true
      invariant Valid(Coder(low', range'))
      invariant outPos <= outPos' <= outLimit
      invariant Renormalise(Coder(low', range')) == Renormalise(start)
      invariant written + Emitted(Coder(low', range')) == Emitted(start)
      invariant outPos' == outPos + |written|
      invariant outData[..outPos'] == old(outData[..outPos]) + written
      decreases Digits(low'), LIMIT - range'
    {
      ghost var c := Coder(low', range');
      var settled, low'', range'' := ShiftUnlessSettled(low', range');
      if settled { break; }
      ShiftKeeps(c);
      if outPos' >= outLimit {
        return false, low', range', outPos';
      }
      outData[outPos'] := low' / TOP;
      written := written + [low' / TOP];
      outPos' := outPos' + 1;
      low', range' := low'', range'';
    }
    ok := true;
  }

  lemma FlushTurn(low: uint32)
    ensures low == 0 ==> Flush(low) == []
    ensures low != 0 ==> && Flush(low) == [low / TOP] + Flush(Wrap32(low * 0x100))
                         && Digits(Wrap32(low * 0x100)) < Digits(low)
                         && 0 <= low / TOP < 0x100
    ensures Flush(0) == []
  {
    DigitsShrink(low);
  }

  /** ENET_RANGE_CODER_FLUSH. */
  method FlushLow(low: uint32, outData: array<uint8>, outPos: nat, outLimit: nat) returns (ok: bool, outPos': nat)
    requires outPos <= outLimit <= outData.Length
    modifies outData
    ensures ok == (outPos + |Flush(low)| <= outLimit)
    ensures ok ==> outPos' == outPos + |Flush(low)| && outData[..outPos'] == old(outData[..outPos]) + Flush(low)
  {
    hide Flush, Digits, Wrap32;
    var rest: uint32 := low;
    FlushTurn(low);
    ghost var written := [];
    outPos' := outPos;
    while rest != 0
      invariant outPos <= outPos' <= outLimit
      invariant written + Flush(rest) == Flush(low)
      invariant outPos' == outPos + |written|
      invariant outData[..outPos'] == old(outData[..outPos]) + written
      decreases Digits(rest)
    {
      FlushTurn(rest);
      if outPos' >= outLimit {
        return false, outPos';
      }
      outData[outPos'] := rest / TOP;
      written := written + [rest / TOP];
      outPos' := outPos' + 1;
      rest := Wrap32(rest * 0x100);
    }
    ok := true;
  }

  /** The decoder has read its 32-bit window, w bytes into the stream, and inPos points behind it. */
  ghost predicate Positioned(inData: seq<uint8>, inPos: nat, code: uint32, w: nat) {
    && inPos == (if w + 4 <= |inData| then w + 4 else |inData|)
    && code == Window(Drop(inData, w))
  }

  /** ENET_RANGE_CODER_SEED. */
  method Seed(inData: seq<uint8>) returns (code: uint32, inPos: nat)
    ensures Positioned(inData, inPos, code, 0)
  {
    code, inPos := 0, 0;
    if inPos < |inData| { code, inPos := (inData[inPos] as int) * TOP, inPos + 1; }
    if inPos < |inData| { code, inPos := code + (inData[inPos] as int) * BOTTOM, inPos + 1; }
    if inPos < |inData| { code, inPos := code + (inData[inPos] as int) * 0x100, inPos + 1; }
    if inPos < |inData| { code, inPos := code + inData[inPos], inPos + 1; }
    assert Drop(inData, 0) == inData;
  }

  lemma WindowShift(inData: seq<uint8>, w: nat)
    ensures Window(Drop(inData, w + 1)) == Wrap32(Window(Drop(inData, w)) * 0x100) + Byte(inData, w + 4)
    ensures Wrap32(Window(Drop(inData, w)) * 0x100) % 0x100 == 0
  {
    var s := Drop(inData, w);
    var s' := Drop(inData, w + 1);
    assert Byte(s', 3) == Byte(inData, w + 4);
    assert forall i: nat :: i < 3 ==> Byte(s', i) == Byte(s, i + 1);
  }

  /** ENET_RANGE_CODER_READ: divides the range, and cuts the quotient to 16 bits. */
  method ReadCode(code: uint32, low: uint32, range: uint32, total: uint16) returns (value: uint16, unit: uint32)
    requires 1 <= total && BOTTOM <= range
    ensures unit == range / total && 1 <= unit
    ensures value == Wrap16(Read(code, Coder(low, range), total))
  {
    unit := range / total;
    value := Wrap16(Wrap32(code - low) / unit);
  }

  /** ENET_RANGE_CODER_DECODE, safe and terminating on any state with a non-empty interval. */
  method Consume(low: uint32, unit: uint32, under: nat, count: uint16, code: uint32,
                 inData: seq<uint8>, inPos: nat, ghost w: nat)
    returns (low': uint32, range': uint32, code': uint32, inPos': nat, ghost w': nat)
    requires 1 <= Wrap32(unit * count)
    requires Positioned(inData, inPos, code, w)
    ensures var c := Coder(Wrap32(low + under * unit), Wrap32(unit * count));
            && Coder(low', range') == Renormalise(c)
            && w' == w + |Emitted(c)|
    ensures BOTTOM <= range'
    ensures Positioned(inData, inPos', code', w')
  {
    ghost var start := Coder(Wrap32(low + under * unit), Wrap32(unit * count));
    low' := Wrap32(low + under * unit);
    range' := Wrap32(unit * count);
    code', inPos', w' := code, inPos, w;
    while true
      invariant 1 <= range'
      invariant Renormalise(Coder(low', range')) == Renormalise(start)
      invariant w' + |Emitted(Coder(low', range'))| == w + |Emitted(start)|
      invariant Positioned(inData, inPos', code', w')
      decreases Digits(low'), LIMIT - range'
    {
      var settled, low'', range'' := ShiftUnlessSettled(low', range');
      if settled { break; }
      WindowShift(inData, w');
      code' := Wrap32(code' * 0x100);
      if inPos' < |inData| {
        code', inPos' := code' + inData[inPos'], inPos' + 1;
      }
      w' := w' + 1;
      low', range' := low'', range'';
    }
  }

  /** Dividing and multiplying back never empties or overflows an interval. */
  lemma UnitShare(range: uint32, total: uint16, count: uint16)
    requires BOTTOM <= range && 1 <= count <= total
    ensures 1 <= range / total && 1 <= Wrap32(range / total * count)
  {
    ShareFits(range, 0, count, total);
  }

  // ----- what a decoder in step with its encoder reads

  lemma ReadStep(inData: seq<uint8>, w: nat, code: uint32, c: Coder, t: Slot, us: seq<Slot>)
    requires Ready(c) && Fits(t) && AllFit(us) && AllFit([t] + us)
    requires Drop(inData, w) == Encoding(c, [t] + us) && code == Window(Drop(inData, w))
    ensures 1 <= c.range / t.total
    ensures t.under <= Wrap16(Read(code, c, t.total)) < t.under + t.count
    ensures Drop(inData, w + |StepBytes(c, t)|) == Encoding(Step(c, t), us)
  {
    hide Encoding, Window, Wrap32, Step, StepBytes;
    ReadsSlot(c, [t] + us);
    EncodingStep(c, t, us);
    NoWrap16(Read(code, c, t.total));
    DropAgain(inData, w, |StepBytes(c, t)|);
  }

  /** What lies ahead of a decoder in step with its encoder. */
  ghost predicate Awaits(inData: seq<uint8>, w: nat, c: Coder, ts: seq<Slot>) {
    Ready(c) && AllFit(ts) && Drop(inData, w) == Encoding(c, ts)
  }

  lemma DropNone(s: seq<uint8>)
    ensures Drop(s, 0) == s
  {
  }

  lemma DropAgain(s: seq<uint8>, m: nat, n: nat)
    ensures Drop(Drop(s, m), n) == Drop(s, m + n)
  {
  }

  lemma ReadEnd(inData: seq<uint8>, w: nat, code: uint32, c: Coder, t: Slot)
    requires Ready(c) && Fits(t) && t.under == 0
    requires Drop(inData, w) == Flush(c.low) && code == Window(Drop(inData, w))
    ensures 1 <= c.range / t.total
    ensures Wrap16(Read(code, c, t.total)) == 0
    ensures Drop(inData, w + |StepBytes(c, t)|) == Flush(Step(c, t).low)
  {
    EndReadsEscape(c, t);
    DropAgain(inData, w, |StepBytes(c, t)|);
  }

  lemma StepIsRenormalise(c: Coder, t: Slot)
    requires Ready(c) && Fits(t)
    ensures var d := Coder(Wrap32(c.low + t.under * (c.range / t.total)), Wrap32(c.range / t.total * t.count));
            && 1 <= d.range && Renormalise(d) == Step(c, t) && Emitted(d) == StepBytes(c, t)
  {
    NarrowKeeps(c, t);
  }

  /** Consuming the share of a slot is the encoder's step. */
  lemma ConsumedSlot(c: Coder, t: Slot, unit: uint32, under: nat, count: uint16, d: Coder, n: nat)
    requires Ready(c) && Fits(t) && unit == c.range / t.total && under == t.under && count == t.count
    requires 1 <= Wrap32(unit * count)
    requires var e := Coder(Wrap32(c.low + under * unit), Wrap32(unit * count)); d == Renormalise(e) && n == |Emitted(e)|
    ensures d == Step(c, t) && n == |StepBytes(c, t)|
  {
    hide Renormalise, Emitted, Step, StepBytes;
    StepIsRenormalise(c, t);
  }
}
