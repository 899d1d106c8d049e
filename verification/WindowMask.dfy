/** The 16 bits of usedReliableWindows, and the shifted mask that covers ten windows in a row. */
module WindowMask {
  import opened SequenceNumbers

  /** A window's number as a shift amount. */
  function Index(w: nat): bv16 {
    match w
    case 0 => 0
    case 1 => 1
    case 2 => 2
    case 3 => 3
    case 4 => 4
    case 5 => 5
    case 6 => 6
    case 7 => 7
    case 8 => 8
    case 9 => 9
    case 10 => 10
    case 11 => 11
    case 12 => 12
    case 13 => 13
    case 14 => 14
    case _ => 15
  }

  predicate Lit(bits: bv16, v: bv16) {
    v < 16 && (bits >> v) & 1 == 1
  }

  /** Bit w of usedReliableWindows. */
  predicate Bit(bits: bv16, w: nat) {
    Lit(bits, Index(w))
  }

  function Lighted(bits: bv16, v: bv16): bv16 {
    if v < 16 then bits | (1 << v) else bits
  }

  function Darkened(bits: bv16, v: bv16): bv16 {
    if v < 16 then bits & !(1 << v) else bits
  }

  function Set(bits: bv16, w: nat): bv16 {
    Lighted(bits, Index(w))
  }

  function Clear(bits: bv16, w: nat): bv16 {
    Darkened(bits, Index(w))
  }

  /** ((1 << 10) - 1) << w, and from below what that pushes past bit 15. */
  function Mask(v: bv16): bv32
    requires v < 16
  {
    (0x3FF << v) | (0x3FF >> (16 - v))
  }

  predicate Hits(bits: bv16, v: bv16) {
    v < 16 && (bits as bv32) & Mask(v) != 0
  }

  predicate MaskHits(bits: bv16, w: nat) {
    Hits(bits, Index(w))
  }

  lemma IndexInjective(w: nat, k: nat)
    requires w < RELIABLE_WINDOWS && k < RELIABLE_WINDOWS
    ensures Index(w) < 16 && (Index(w) == Index(k) <==> w == k)
  {
  }

  lemma SetLit(bits: bv16, v: bv16, u: bv16)
    requires v < 16 && u < 16
    ensures Lit(Lighted(bits, v), u) == (v == u || Lit(bits, u))
    ensures Lit(Darkened(bits, v), u) == (v != u && Lit(bits, u))
  {
  }

  lemma SetBits(bits: bv16, w: nat, k: nat)
    requires w < RELIABLE_WINDOWS && k < RELIABLE_WINDOWS
    ensures Bit(Set(bits, w), k) == (k == w || Bit(bits, k))
    ensures Bit(Clear(bits, w), k) == (k != w && Bit(bits, k))
  {
    hide Lit, Index, Lighted, Darkened;
    IndexInjective(w, k);
    IndexInjective(k, w);
    SetLit(bits, Index(w), Index(k));
  }

  lemma NoBits(w: nat)
    requires w < RELIABLE_WINDOWS
    ensures !Bit(0, w)
  {
  }

  /** n windows further around. */
  ghost function Turn(v: bv16, n: nat): bv16 {
    if n == 0 then v else (Turn(v, n - 1) + 1) & 15
  }

  lemma IndexNext(w: nat)
    requires w < RELIABLE_WINDOWS
    ensures Index((w + 1) % RELIABLE_WINDOWS) == (Index(w) + 1) & 15
  {
  }

  lemma {:induction false} IndexTurn(w: nat, n: nat)
    requires w < RELIABLE_WINDOWS
    ensures Index((w + n) % RELIABLE_WINDOWS) == Turn(Index(w), n)
  {
    hide Index;
    if n > 0 {
      IndexTurn(w, n - 1);
      IndexNext((w + n - 1) % RELIABLE_WINDOWS);
    }
  }

  lemma Turns(v: bv16)
    requires v < 16
    ensures Turn(v, 0) == (v + 0) & 15 && Turn(v, 1) == (v + 1) & 15 && Turn(v, 2) == (v + 2) & 15 && Turn(v, 3) == (v + 3) & 15 && Turn(v, 4) == (v + 4) & 15
            && Turn(v, 5) == (v + 5) & 15 && Turn(v, 6) == (v + 6) & 15 && Turn(v, 7) == (v + 7) & 15 && Turn(v, 8) == (v + 8) & 15 && Turn(v, 9) == (v + 9) & 15
  {
  }

  lemma MaskLit(bits: bv16, v: bv16)
    requires v < 16
    ensures (bits as bv32) & Mask(v) == 0 <==>
            && !Lit(bits, (v + 0) & 15) && !Lit(bits, (v + 1) & 15) && !Lit(bits, (v + 2) & 15) && !Lit(bits, (v + 3) & 15) && !Lit(bits, (v + 4) & 15)
            && !Lit(bits, (v + 5) & 15) && !Lit(bits, (v + 6) & 15) && !Lit(bits, (v + 7) & 15) && !Lit(bits, (v + 8) & 15) && !Lit(bits, (v + 9) & 15)
  {
  }

  lemma HitsTurns(bits: bv16, v: bv16)
    requires v < 16
    ensures Hits(bits, v) <==>
            || Lit(bits, Turn(v, 0)) || Lit(bits, Turn(v, 1)) || Lit(bits, Turn(v, 2)) || Lit(bits, Turn(v, 3)) || Lit(bits, Turn(v, 4))
            || Lit(bits, Turn(v, 5)) || Lit(bits, Turn(v, 6)) || Lit(bits, Turn(v, 7)) || Lit(bits, Turn(v, 8)) || Lit(bits, Turn(v, 9))
  {
    hide Lit, Turn, Mask;
    MaskLit(bits, v);
    Turns(v);
  }

  lemma HitsTurn(bits: bv16, v: bv16)
    requires v < 16
    ensures Hits(bits, v) <==> exists n: nat :: n < FREE_RELIABLE_WINDOWS + 2 && Lit(bits, Turn(v, n))
  {
    hide Lit, Turn, Hits;
    HitsTurns(bits, v);
    if n: nat :| n < FREE_RELIABLE_WINDOWS + 2 && Lit(bits, Turn(v, n)) {
      assert n == 0 || n == 1 || n == 2 || n == 3 || n == 4 || n == 5 || n == 6 || n == 7 || n == 8 || n == 9;
    }
  }

  /** The shifted mask meets the bits exactly if one of the ten windows from w on, counted around, is in use. */
  lemma MaskBits(bits: bv16, w: nat)
    requires w < RELIABLE_WINDOWS
    ensures MaskHits(bits, w) <==>
            exists k: nat :: k < RELIABLE_WINDOWS && (k - w) % RELIABLE_WINDOWS < FREE_RELIABLE_WINDOWS + 2 && Bit(bits, k)
  {
    IndexInjective(w, w);
    hide Index, Lit, Turn, Hits;
    HitsTurn(bits, Index(w));
    if MaskHits(bits, w) {
      var n: nat :| n < FREE_RELIABLE_WINDOWS + 2 && Lit(bits, Turn(Index(w), n));
      IndexTurn(w, n);
      AroundBack(w, n, (w + n) % RELIABLE_WINDOWS);
      assert Bit(bits, (w + n) % RELIABLE_WINDOWS);
    }
    if k: nat :| k < RELIABLE_WINDOWS && (k - w) % RELIABLE_WINDOWS < FREE_RELIABLE_WINDOWS + 2 && Bit(bits, k) {
      var n: nat := (k - w) % RELIABLE_WINDOWS;
      IndexTurn(w, n);
      AroundBack(w, n, k);
    }
  }

  lemma AroundBack(w: nat, n: nat, k: nat)
    requires w < RELIABLE_WINDOWS && n < RELIABLE_WINDOWS && k < RELIABLE_WINDOWS
    ensures k == (w + n) % RELIABLE_WINDOWS <==> (k - w) % RELIABLE_WINDOWS == n
  {
  }
}
