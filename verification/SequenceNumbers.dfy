/** 16-bit sequence numbers on the wire, and the unbounded numbers they stand for. */
module SequenceNumbers {
  import opened Integers

  const SPACE := 0x1_0000
  const RELIABLE_WINDOW_SIZE := 0x1000
  const RELIABLE_WINDOWS := 16
  const FREE_RELIABLE_WINDOWS := 8

  /** What is left of number n on the wire. */
  function Wire(n: nat): uint16 {
    n % SPACE
  }

  function WindowOf(n: nat): nat {
    n / RELIABLE_WINDOW_SIZE
  }

  /** The first number from base on that looks like s on the wire. */
  function Unwire(base: nat, s: uint16): nat {
    base + (s - base) % SPACE
  }

  /** How many windows s is ahead of base, as the receiver computes it from 16-bit numbers. */
  function RelativeWindow(base: uint16, s: uint16): int {
    s / RELIABLE_WINDOW_SIZE + (if s < base then RELIABLE_WINDOWS else 0) - base / RELIABLE_WINDOW_SIZE
  }

  lemma WireOfUnwire(base: nat, s: uint16)
    ensures Wire(Unwire(base, s)) == s
    ensures base <= Unwire(base, s) < base + SPACE
  {
  }

  /** Two numbers less than 2^16 apart with the same wire form are the same number. */
  lemma WireInjective(base: nat, m: nat, n: nat)
    requires base <= m < base + SPACE && base <= n < base + SPACE && Wire(m) == Wire(n)
    ensures m == n
  {
  }

  lemma UnwireUnique(base: nat, n: nat)
    requires base <= n < base + SPACE
    ensures Unwire(base, Wire(n)) == n
  {
  }

  /** The receiver takes a number it has passed for the one 2^16 later. */
  lemma UnwireOld(base: nat, n: nat)
    requires n < base <= n + SPACE
    ensures Unwire(base, Wire(n)) == n + SPACE
  {
  }

  /** The receiver's window arithmetic is exact for the number it takes s for. */
  lemma RelativeWindowExact(base: nat, s: uint16)
    ensures RelativeWindow(Wire(base), s) == WindowOf(Unwire(base, s)) - WindowOf(base)
  {
    WireOfUnwire(base, s);
    var n := Unwire(base, s);
    SplitWindow(base);
    SplitWindow(n);
    var p, q := base / SPACE, n / SPACE;
    assert base == p * SPACE + Wire(base) && n == q * SPACE + s;
  }

  lemma SplitWindow(n: nat)
    ensures WindowOf(n) == n / SPACE * RELIABLE_WINDOWS + Wire(n) / RELIABLE_WINDOW_SIZE
  {
  }

  /** How far n lies ahead on the circle of wire numbers. */
  ghost function Distance(base: nat, n: nat): nat {
    (n - base) % SPACE
  }

  /** Distances can be told from wire numbers alone. */
  lemma DistanceOnWire(base: nat, n: nat)
    ensures Distance(base, n) == Wire(n) - Wire(base) + (if Wire(n) < Wire(base) then SPACE else 0)
  {
  }

  lemma DistanceNear(base: nat, n: nat)
    requires base <= n < base + SPACE
    ensures Distance(base, n) == n - base
  {
  }

  /** Which of e and n is further ahead, by the comparisons the program makes on wire numbers. */
  lemma CompareOnWire(received: nat, n: nat, s: uint16, e: nat, c: uint16)
    requires Wire(received) == c && Wire(n) == s
    ensures Distance(received, e) <= Distance(received, n) <==>
            if s >= c then Wire(e) >= c && Wire(e) <= s else Wire(e) >= c || Wire(e) <= s
    ensures Distance(received, e) == Distance(received, n) <==> Wire(e) == s
  {
  }

  lemma WindowMonotone(m: nat, n: nat)
    requires m <= n
    ensures WindowOf(m) <= WindowOf(n)
  {
  }

  /** Too far ahead of received to be kept, which is also how old numbers look. */
  ghost predicate OutsideWindows(received: nat, n: nat) {
    WindowOf(n) >= WindowOf(received) + FREE_RELIABLE_WINDOWS - 1
  }

  /** The window test of the receiving handlers. */
  lemma WindowTest(received: nat, number: uint16, n: nat)
    requires n == Unwire(received, number)
    ensures Wire(n) == number
    ensures number / RELIABLE_WINDOW_SIZE + (if number < Wire(received) then RELIABLE_WINDOWS else 0)
            >= Wire(received) / RELIABLE_WINDOW_SIZE
    ensures OutsideWindows(received, n) <==>
            number / RELIABLE_WINDOW_SIZE + (if number < Wire(received) then RELIABLE_WINDOWS else 0)
            >= Wire(received) / RELIABLE_WINDOW_SIZE + FREE_RELIABLE_WINDOWS - 1
    ensures n == received <==> number == Wire(received)
  {
    WireOfUnwire(received, number);
    RelativeWindowExact(received, number);
    if number == Wire(received) {
      WireInjective(received, n, received);
    }
  }

  /** A number that is passed, but not by ten windows, looks too far ahead; one passed by more does not. */
  lemma OldLooksFar(received: nat, n: nat)
    requires n < received <= n + SPACE
    ensures Unwire(received, Wire(n)) == n + SPACE
    ensures OutsideWindows(received, n + SPACE) <==> WindowOf(n) + 9 >= WindowOf(received)
  {
    UnwireOld(received, n);
    assert WindowOf(n + SPACE) == WindowOf(n) + RELIABLE_WINDOWS;
  }
}
