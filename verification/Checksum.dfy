/** enet_crc32: the table-driven checksum of a datagram's buffers is the bit-by-bit CRC-32 of their concatenation. */
module Checksum {
  import opened Integers

  /** One bit, least significant first, with the reflected polynomial. */
  function Step(c: bv32): bv32 {
    if c & 1 == 1 then (c >> 1) ^ 0xEDB8_8320 else c >> 1
  }

  function Steps8(c: bv32): bv32 {
    Step(Step(Step(Step(Step(Step(Step(Step(c))))))))
  }

  /** The register after one more byte, as the sample code in section 8 of RFC 1952 defines its table. */
  function Byte(c: bv32, b: bv8): bv32 {
    Steps8(c ^ (b as bv32))
  }

  function Register(c: bv32, data: seq<bv8>): bv32 {
    if data == [] then c else Byte(Register(c, data[..|data| - 1]), data[|data| - 1])
  }

  /** The CRC-32 of a byte string. */
  function Crc(data: seq<bv8>): bv32 {
    !Register(0xFFFF_FFFF, data)
  }

  function Concat(buffers: seq<seq<bv8>>): seq<bv8> {
    if buffers == [] then [] else Concat(buffers[..|buffers| - 1]) + buffers[|buffers| - 1]
  }

  // ----- the table, sixteen entries a row

  function Row0(i: bv8): bv32 {
    if i == 0 then 0x00000000
    else if i == 1 then 0x77073096
    else if i == 2 then 0xEE0E612C
    else if i == 3 then 0x990951BA
    else if i == 4 then 0x076DC419
    else if i == 5 then 0x706AF48F
    else if i == 6 then 0xE963A535
    else if i == 7 then 0x9E6495A3
    else if i == 8 then 0x0EDB8832
    else if i == 9 then 0x79DCB8A4
    else if i == 10 then 0xE0D5E91E
    else if i == 11 then 0x97D2D988
    else if i == 12 then 0x09B64C2B
    else if i == 13 then 0x7EB17CBD
    else if i == 14 then 0xE7B82D07
    else 0x90BF1D91
  }

  function Row1(i: bv8): bv32 {
    if i == 0 then 0x1DB71064
    else if i == 1 then 0x6AB020F2
    else if i == 2 then 0xF3B97148
    else if i == 3 then 0x84BE41DE
    else if i == 4 then 0x1ADAD47D
    else if i == 5 then 0x6DDDE4EB
    else if i == 6 then 0xF4D4B551
    else if i == 7 then 0x83D385C7
    else if i == 8 then 0x136C9856
    else if i == 9 then 0x646BA8C0
    else if i == 10 then 0xFD62F97A
    else if i == 11 then 0x8A65C9EC
    else if i == 12 then 0x14015C4F
    else if i == 13 then 0x63066CD9
    else if i == 14 then 0xFA0F3D63
    else 0x8D080DF5
  }

  function Row2(i: bv8): bv32 {
    if i == 0 then 0x3B6E20C8
    else if i == 1 then 0x4C69105E
    else if i == 2 then 0xD56041E4
    else if i == 3 then 0xA2677172
    else if i == 4 then 0x3C03E4D1
    else if i == 5 then 0x4B04D447
    else if i == 6 then 0xD20D85FD
    else if i == 7 then 0xA50AB56B
    else if i == 8 then 0x35B5A8FA
    else if i == 9 then 0x42B2986C
    else if i == 10 then 0xDBBBC9D6
    else if i == 11 then 0xACBCF940
    else if i == 12 then 0x32D86CE3
    else if i == 13 then 0x45DF5C75
    else if i == 14 then 0xDCD60DCF
    else 0xABD13D59
  }

  function Row3(i: bv8): bv32 {
    if i == 0 then 0x26D930AC
    else if i == 1 then 0x51DE003A
    else if i == 2 then 0xC8D75180
    else if i == 3 then 0xBFD06116
    else if i == 4 then 0x21B4F4B5
    else if i == 5 then 0x56B3C423
    else if i == 6 then 0xCFBA9599
    else if i == 7 then 0xB8BDA50F
    else if i == 8 then 0x2802B89E
    else if i == 9 then 0x5F058808
    else if i == 10 then 0xC60CD9B2
    else if i == 11 then 0xB10BE924
    else if i == 12 then 0x2F6F7C87
    else if i == 13 then 0x58684C11
    else if i == 14 then 0xC1611DAB
    else 0xB6662D3D
  }

  function Row4(i: bv8): bv32 {
    if i == 0 then 0x76DC4190
    else if i == 1 then 0x01DB7106
    else if i == 2 then 0x98D220BC
    else if i == 3 then 0xEFD5102A
    else if i == 4 then 0x71B18589
    else if i == 5 then 0x06B6B51F
    else if i == 6 then 0x9FBFE4A5
    else if i == 7 then 0xE8B8D433
    else if i == 8 then 0x7807C9A2
    else if i == 9 then 0x0F00F934
    else if i == 10 then 0x9609A88E
    else if i == 11 then 0xE10E9818
    else if i == 12 then 0x7F6A0DBB
    else if i == 13 then 0x086D3D2D
    else if i == 14 then 0x91646C97
    else 0xE6635C01
  }

  function Row5(i: bv8): bv32 {
    if i == 0 then 0x6B6B51F4
    else if i == 1 then 0x1C6C6162
    else if i == 2 then 0x856530D8
    else if i == 3 then 0xF262004E
    else if i == 4 then 0x6C0695ED
    else if i == 5 then 0x1B01A57B
    else if i == 6 then 0x8208F4C1
    else if i == 7 then 0xF50FC457
    else if i == 8 then 0x65B0D9C6
    else if i == 9 then 0x12B7E950
    else if i == 10 then 0x8BBEB8EA
    else if i == 11 then 0xFCB9887C
    else if i == 12 then 0x62DD1DDF
    else if i == 13 then 0x15DA2D49
    else if i == 14 then 0x8CD37CF3
    else 0xFBD44C65
  }

  function Row6(i: bv8): bv32 {
    if i == 0 then 0x4DB26158
    else if i == 1 then 0x3AB551CE
    else if i == 2 then 0xA3BC0074
    else if i == 3 then 0xD4BB30E2
    else if i == 4 then 0x4ADFA541
    else if i == 5 then 0x3DD895D7
    else if i == 6 then 0xA4D1C46D
    else if i == 7 then 0xD3D6F4FB
    else if i == 8 then 0x4369E96A
    else if i == 9 then 0x346ED9FC
    else if i == 10 then 0xAD678846
    else if i == 11 then 0xDA60B8D0
    else if i == 12 then 0x44042D73
    else if i == 13 then 0x33031DE5
    else if i == 14 then 0xAA0A4C5F
    else 0xDD0D7CC9
  }

  function Row7(i: bv8): bv32 {
    if i == 0 then 0x5005713C
    else if i == 1 then 0x270241AA
    else if i == 2 then 0xBE0B1010
    else if i == 3 then 0xC90C2086
    else if i == 4 then 0x5768B525
    else if i == 5 then 0x206F85B3
    else if i == 6 then 0xB966D409
    else if i == 7 then 0xCE61E49F
    else if i == 8 then 0x5EDEF90E
    else if i == 9 then 0x29D9C998
    else if i == 10 then 0xB0D09822
    else if i == 11 then 0xC7D7A8B4
    else if i == 12 then 0x59B33D17
    else if i == 13 then 0x2EB40D81
    else if i == 14 then 0xB7BD5C3B
    else 0xC0BA6CAD
  }

  function Row8(i: bv8): bv32 {
    if i == 0 then 0xEDB88320
    else if i == 1 then 0x9ABFB3B6
    else if i == 2 then 0x03B6E20C
    else if i == 3 then 0x74B1D29A
    else if i == 4 then 0xEAD54739
    else if i == 5 then 0x9DD277AF
    else if i == 6 then 0x04DB2615
    else if i == 7 then 0x73DC1683
    else if i == 8 then 0xE3630B12
    else if i == 9 then 0x94643B84
    else if i == 10 then 0x0D6D6A3E
    else if i == 11 then 0x7A6A5AA8
    else if i == 12 then 0xE40ECF0B
    else if i == 13 then 0x9309FF9D
    else if i == 14 then 0x0A00AE27
    else 0x7D079EB1
  }

  function Row9(i: bv8): bv32 {
    if i == 0 then 0xF00F9344
    else if i == 1 then 0x8708A3D2
    else if i == 2 then 0x1E01F268
    else if i == 3 then 0x6906C2FE
    else if i == 4 then 0xF762575D
    else if i == 5 then 0x806567CB
    else if i == 6 then 0x196C3671
    else if i == 7 then 0x6E6B06E7
    else if i == 8 then 0xFED41B76
    else if i == 9 then 0x89D32BE0
    else if i == 10 then 0x10DA7A5A
    else if i == 11 then 0x67DD4ACC
    else if i == 12 then 0xF9B9DF6F
    else if i == 13 then 0x8EBEEFF9
    else if i == 14 then 0x17B7BE43
    else 0x60B08ED5
  }

  function RowA(i: bv8): bv32 {
    if i == 0 then 0xD6D6A3E8
    else if i == 1 then 0xA1D1937E
    else if i == 2 then 0x38D8C2C4
    else if i == 3 then 0x4FDFF252
    else if i == 4 then 0xD1BB67F1
    else if i == 5 then 0xA6BC5767
    else if i == 6 then 0x3FB506DD
    else if i == 7 then 0x48B2364B
    else if i == 8 then 0xD80D2BDA
    else if i == 9 then 0xAF0A1B4C
    else if i == 10 then 0x36034AF6
    else if i == 11 then 0x41047A60
    else if i == 12 then 0xDF60EFC3
    else if i == 13 then 0xA867DF55
    else if i == 14 then 0x316E8EEF
    else 0x4669BE79
  }

  function RowB(i: bv8): bv32 {
    if i == 0 then 0xCB61B38C
    else if i == 1 then 0xBC66831A
    else if i == 2 then 0x256FD2A0
    else if i == 3 then 0x5268E236
    else if i == 4 then 0xCC0C7795
    else if i == 5 then 0xBB0B4703
    else if i == 6 then 0x220216B9
    else if i == 7 then 0x5505262F
    else if i == 8 then 0xC5BA3BBE
    else if i == 9 then 0xB2BD0B28
    else if i == 10 then 0x2BB45A92
    else if i == 11 then 0x5CB36A04
    else if i == 12 then 0xC2D7FFA7
    else if i == 13 then 0xB5D0CF31
    else if i == 14 then 0x2CD99E8B
    else 0x5BDEAE1D
  }

  function RowC(i: bv8): bv32 {
    if i == 0 then 0x9B64C2B0
    else if i == 1 then 0xEC63F226
    else if i == 2 then 0x756AA39C
    else if i == 3 then 0x026D930A
    else if i == 4 then 0x9C0906A9
    else if i == 5 then 0xEB0E363F
    else if i == 6 then 0x72076785
    else if i == 7 then 0x05005713
    else if i == 8 then 0x95BF4A82
    else if i == 9 then 0xE2B87A14
    else if i == 10 then 0x7BB12BAE
    else if i == 11 then 0x0CB61B38
    else if i == 12 then 0x92D28E9B
    else if i == 13 then 0xE5D5BE0D
    else if i == 14 then 0x7CDCEFB7
    else 0x0BDBDF21
  }

  function RowD(i: bv8): bv32 {
    if i == 0 then 0x86D3D2D4
    else if i == 1 then 0xF1D4E242
    else if i == 2 then 0x68DDB3F8
    else if i == 3 then 0x1FDA836E
    else if i == 4 then 0x81BE16CD
    else if i == 5 then 0xF6B9265B
    else if i == 6 then 0x6FB077E1
    else if i == 7 then 0x18B74777
    else if i == 8 then 0x88085AE6
    else if i == 9 then 0xFF0F6A70
    else if i == 10 then 0x66063BCA
    else if i == 11 then 0x11010B5C
    else if i == 12 then 0x8F659EFF
    else if i == 13 then 0xF862AE69
    else if i == 14 then 0x616BFFD3
    else 0x166CCF45
  }

  function RowE(i: bv8): bv32 {
    if i == 0 then 0xA00AE278
    else if i == 1 then 0xD70DD2EE
    else if i == 2 then 0x4E048354
    else if i == 3 then 0x3903B3C2
    else if i == 4 then 0xA7672661
    else if i == 5 then 0xD06016F7
    else if i == 6 then 0x4969474D
    else if i == 7 then 0x3E6E77DB
    else if i == 8 then 0xAED16A4A
    else if i == 9 then 0xD9D65ADC
    else if i == 10 then 0x40DF0B66
    else if i == 11 then 0x37D83BF0
    else if i == 12 then 0xA9BCAE53
    else if i == 13 then 0xDEBB9EC5
    else if i == 14 then 0x47B2CF7F
    else 0x30B5FFE9
  }

  function RowF(i: bv8): bv32 {
    if i == 0 then 0xBDBDF21C
    else if i == 1 then 0xCABAC28A
    else if i == 2 then 0x53B39330
    else if i == 3 then 0x24B4A3A6
    else if i == 4 then 0xBAD03605
    else if i == 5 then 0xCDD70693
    else if i == 6 then 0x54DE5729
    else if i == 7 then 0x23D967BF
    else if i == 8 then 0xB3667A2E
    else if i == 9 then 0xC4614AB8
    else if i == 10 then 0x5D681B02
    else if i == 11 then 0x2A6F2B94
    else if i == 12 then 0xB40BBE37
    else if i == 13 then 0xC30C8EA1
    else if i == 14 then 0x5A05DF1B
    else 0x2D02EF8D
  }

  function TableRow(h: bv8, i: bv8): bv32 {
    if h == 0 then Row0(i)
    else if h == 1 then Row1(i)
    else if h == 2 then Row2(i)
    else if h == 3 then Row3(i)
    else if h == 4 then Row4(i)
    else if h == 5 then Row5(i)
    else if h == 6 then Row6(i)
    else if h == 7 then Row7(i)
    else if h == 8 then Row8(i)
    else if h == 9 then Row9(i)
    else if h == 10 then RowA(i)
    else if h == 11 then RowB(i)
    else if h == 12 then RowC(i)
    else if h == 13 then RowD(i)
    else if h == 14 then RowE(i)
    else RowF(i)
  }

  /** crcTable. */
  function Table(i: bv8): bv32 {
    TableRow(i >> 4, i & 15)
  }

  lemma TableExact(i: bv8)
    ensures Table(i) == Steps8(i as bv32)
  {
  }

  /** The steps are linear, so that the low byte's share of the register can be looked up apart. */
  function Half(c: bv32): bv32 {
    c >> 1
  }

  predicate Odd(c: bv32) {
    c & 1 == 1
  }

  function Flip(c: bv32): bv32 {
    c ^ 0xEDB8_8320
  }

  lemma HalfLinear(x: bv32, y: bv32)
    ensures Half(Plus(x, y)) == Plus(Half(x), Half(y))
  {
  }

  lemma OddLinear(x: bv32, y: bv32)
    ensures Odd(Plus(x, y)) <==> (Odd(x) != Odd(y))
  {
  }

  lemma FlipBoth(x: bv32, y: bv32)
    ensures Plus(Flip(x), Flip(y)) == Plus(x, y)
  {
  }

  lemma FlipFirst(x: bv32, y: bv32)
    ensures Plus(Flip(x), y) == Flip(Plus(x, y))
  {
  }

  lemma FlipSecond(x: bv32, y: bv32)
    ensures Plus(x, Flip(y)) == Flip(Plus(x, y))
  {
  }

  lemma StepCases(c: bv32)
    ensures Step(c) == if Odd(c) then Flip(Half(c)) else Half(c)
  {
  }

  lemma StepLinear(x: bv32, y: bv32)
    ensures Step(Plus(x, y)) == Plus(Step(x), Step(y))
  {
    hide Step, Half, Odd, Flip, Plus;
    HalfLinear(x, y);
    OddLinear(x, y);
    StepCases(x);
    StepCases(y);
    StepCases(Plus(x, y));
    FlipBoth(Half(x), Half(y));
    FlipFirst(Half(x), Half(y));
    FlipSecond(Half(x), Half(y));
  }

  lemma Steps8Linear(x: bv32, y: bv32)
    ensures Steps8(Plus(x, y)) == Plus(Steps8(x), Steps8(y))
  {
    hide Step, Plus;
    StepLinear(x, y);
    StepLinear(Step(x), Step(y));
    StepLinear(Step(Step(x)), Step(Step(y)));
    StepLinear(Step(Step(Step(x))), Step(Step(Step(y))));
    StepLinear(Step(Step(Step(Step(x)))), Step(Step(Step(Step(y)))));
    StepLinear(Step(Step(Step(Step(Step(x))))), Step(Step(Step(Step(Step(y))))));
    StepLinear(Step(Step(Step(Step(Step(Step(x)))))), Step(Step(Step(Step(Step(Step(y)))))));
    StepLinear(Step(Step(Step(Step(Step(Step(Step(x))))))), Step(Step(Step(Step(Step(Step(Step(y))))))));
  }

  function Plus(x: bv32, y: bv32): bv32 {
    x ^ y
  }

  function Low(c: bv32): bv32 {
    c & 0xFF
  }

  function High(c: bv32): bv32 {
    c & 0xFFFF_FF00
  }

  function Down(c: bv32): bv32 {
    c >> 8
  }

  lemma HighSteps(c: bv32)
    ensures Steps8(High(c)) == Down(c)
  {
  }

  lemma LowHigh(c: bv32)
    ensures Plus(Low(c), High(c)) == c
  {
  }

  /** The upper bytes of the register only move down. */
  lemma StepsSplit(c: bv32)
    ensures Steps8(c) == Plus(Steps8(Low(c)), Down(c))
  {
    hide Steps8, Plus, Low, High, Down;
    LowHigh(c);
    Steps8Linear(Low(c), High(c));
    HighSteps(c);
  }

  /** The index of the table for the next byte. */
  function Index(c: bv32, b: bv8): bv8 {
    ((c & 0xFF) as bv8) ^ b
  }

  /** One turn of the loop. */
  lemma TableStep(c: bv32, b: bv8)
    ensures (c >> 8) ^ Table(Index(c, b)) == Byte(c, b)
  {
    TurnsOut(c, b, Table(Index(c, b)));
    hide Table, Steps8, Index, Plus, Low, Down;
    TableExact(Index(c, b));
    Mixed(c, b);
    StepsSplit(Mix(c, b));
  }

  function Mix(c: bv32, b: bv8): bv32 {
    c ^ (b as bv32)
  }

  lemma TurnsOut(c: bv32, b: bv8, t: bv32)
    ensures (c >> 8) ^ t == Plus(t, Down(c)) && Byte(c, b) == Steps8(Mix(c, b))
  {
  }

  lemma Mixed(c: bv32, b: bv8)
    ensures Low(Mix(c, b)) == (Index(c, b) as bv32) && Down(Mix(c, b)) == Down(c)
  {
  }

  lemma RegisterStart(c: bv32)
    ensures Register(c, []) == c
  {
  }

  lemma RegisterMore(c: bv32, done: seq<bv8>, data: seq<bv8>, i: nat)
    requires i < |data|
    ensures Register(c, done + data[..i + 1]) == Byte(Register(c, done + data[..i]), data[i])
  {
    hide Byte;
    assert (done + data[..i + 1])[..|done| + i] == done + data[..i];
  }

  method Crc32(buffers: seq<seq<bv8>>) returns (crc: bv32)
    ensures crc == Crc(Concat(buffers))
  {
    hide Byte, Table, Index, Register;
    RegisterStart(0xFFFF_FFFF);
    crc := 0xFFFF_FFFF;
    var n := 0;
    while n < |buffers|
      invariant n <= |buffers| && crc == Register(0xFFFF_FFFF, Concat(buffers[..n]))
    {
      ghost var done := Concat(buffers[..n]);
      var data := buffers[n];
      var i := 0;
      assert done + data[..0] == done;
      while i < |data|
        invariant i <= |data| && crc == Register(0xFFFF_FFFF, done + data[..i])
      {
        TableStep(crc, data[i]);
        RegisterMore(0xFFFF_FFFF, done, data, i);
        crc := (crc >> 8) ^ Table(Index(crc, data[i]));
        i := i + 1;
      }
      assert buffers[..n + 1][..n] == buffers[..n];
      assert data[..i] == data;
      n := n + 1;
    }
    assert buffers[..n] == buffers;
    crc := !crc;
  }

  lemma {:induction false} RegisterConcat(c: bv32, a: seq<bv8>, b: seq<bv8>)
    ensures Register(c, a + b) == Register(Register(c, a), b)
    decreases |b|
  {
    if b == [] {
      assert a + b == a;
    } else {
      assert (a + b)[..|a + b| - 1] == a + b[..|b| - 1];
      RegisterConcat(c, a, b[..|b| - 1]);
    }
  }

  lemma StepInjective(c: bv32, d: bv32)
    requires Step(c) == Step(d)
    ensures c == d
  {
  }

  lemma BytesTold(c: bv32, d: bv32, b: bv8)
    requires Byte(c, b) == Byte(d, b)
    ensures c == d
  {
    hide Step;
    var x, y := c ^ (b as bv32), d ^ (b as bv32);
    Steps8Injective(x, y);
    XorCancels(c, d, b as bv32);
  }

  lemma XorCancels(c: bv32, d: bv32, b: bv32)
    ensures c ^ b == d ^ b ==> c == d
    ensures b ^ c == b ^ d ==> c == d
  {
  }

  lemma Steps8Injective(x: bv32, y: bv32)
    requires Steps8(x) == Steps8(y)
    ensures x == y
  {
    hide Step;
    StepInjective(Step(Step(Step(Step(Step(Step(Step(x))))))), Step(Step(Step(Step(Step(Step(Step(y))))))));
    StepInjective(Step(Step(Step(Step(Step(Step(x)))))), Step(Step(Step(Step(Step(Step(y)))))));
    StepInjective(Step(Step(Step(Step(Step(x))))), Step(Step(Step(Step(Step(y))))));
    StepInjective(Step(Step(Step(Step(x)))), Step(Step(Step(Step(y)))));
    StepInjective(Step(Step(Step(x))), Step(Step(Step(y))));
    StepInjective(Step(Step(x)), Step(Step(y)));
    StepInjective(Step(x), Step(y));
    StepInjective(x, y);
  }

  lemma {:induction false} RegistersTold(c: bv32, d: bv32, data: seq<bv8>)
    requires Register(c, data) == Register(d, data)
    ensures c == d
    decreases |data|
  {
    hide Byte;
    if data != [] {
      var n := |data| - 1;
      BytesTold(Register(c, data[..n]), Register(d, data[..n]), data[n]);
      RegistersTold(c, d, data[..n]);
    }
  }

  /** Damage to any one byte of a datagram shows in the checksum. */
  lemma DamageShows(before: seq<bv8>, b: bv8, b': bv8, after: seq<bv8>)
    requires b != b'
    ensures Crc(before + [b] + after) != Crc(before + [b'] + after)
  {
    hide Byte;
    var r := Register(0xFFFF_FFFF, before);
    RegisterConcat(0xFFFF_FFFF, before + [b], after);
    RegisterConcat(0xFFFF_FFFF, before + [b'], after);
    assert (before + [b])[..|before|] == before && (before + [b'])[..|before|] == before;
    if Crc(before + [b] + after) == Crc(before + [b'] + after) {
      NotInjective(Register(0xFFFF_FFFF, before + [b] + after), Register(0xFFFF_FFFF, before + [b'] + after));
      RegistersTold(Byte(r, b), Byte(r, b'), after);
      ByteTold(r, b, b');
    }
  }

  lemma NotInjective(c: bv32, d: bv32)
    ensures !c == !d ==> c == d
  {
  }

  lemma ByteTold(c: bv32, b: bv8, b': bv8)
    requires Byte(c, b) == Byte(c, b')
    ensures b == b'
  {
    hide Step, Steps8;
    Steps8Injective(c ^ (b as bv32), c ^ (b' as bv32));
    XorCancels(b as bv32, b' as bv32, c);
    Widened(b, b');
  }

  lemma Widened(b: bv8, b': bv8)
    ensures (b as bv32) == (b' as bv32) ==> b == b'
  {
  }

  // ----- bursts of four bytes

  function Up(b: bv32, k: nat): bv32
    requires k <= 3
  {
    if k == 0 then b else Left(Up(b, k - 1))
  }

  function Left(b: bv32): bv32 {
    b << 8
  }

  predicate IsByte(y: bv32) {
    y <= 0xFF
  }

  lemma UpDown(y: bv32, k: nat)
    requires IsByte(y) && k <= 2
    ensures High(Up(y, k + 1)) == Up(y, k + 1) && Down(Up(y, k + 1)) == Up(y, k)
  {
    UpIs(y);
    if k == 0 {
      OneUp(y);
    } else if k == 1 {
      TwoUp(y);
    } else {
      ThreeUp(y);
    }
  }

  lemma OneUp(y: bv32)
    requires IsByte(y)
    ensures High(Left(y)) == Left(y) && Down(Left(y)) == y
  {
  }

  lemma TwoUp(y: bv32)
    requires IsByte(y)
    ensures High(Left(Left(y))) == Left(Left(y)) && Down(Left(Left(y))) == Left(y)
  {
  }

  lemma ThreeUp(y: bv32)
    requires IsByte(y)
    ensures High(Left(Left(Left(y)))) == Left(Left(Left(y))) && Down(Left(Left(Left(y)))) == Left(Left(y))
  {
  }

  /** A byte that is added k bytes further up has moved to the bottom after k bytes. */
  lemma PushIn(c: bv32, y: bv32, k: nat)
    requires IsByte(y) && k <= 2
    ensures Plus(Steps8(c), Up(y, k)) == Steps8(Plus(c, Up(y, k + 1)))
  {
    hide Steps8, Plus, High, Down, Up;
    UpDown(y, k);
    HighSteps(Up(y, k + 1));
    Steps8Linear(c, Up(y, k + 1));
  }

  function Wide(b: bv8): bv32 {
    b as bv32
  }

  lemma WideIsByte(b: bv8)
    ensures IsByte(Wide(b)) && Up(Wide(b), 0) == Wide(b)
  {
  }

  lemma ByteIs(c: bv32, b: bv8)
    ensures Byte(c, b) == Steps8(Plus(c, Up(Wide(b), 0)))
  {
  }

  /** Four bytes are added as one word. */
  function Word(x: seq<bv8>): bv32
    requires |x| == 4
  {
    Plus(Plus(Plus(Up(Wide(x[0]), 0), Up(Wide(x[1]), 1)), Up(Wide(x[2]), 2)), Up(Wide(x[3]), 3))
  }

  function Added(c: bv32, x: seq<bv8>): bv32
    requires |x| == 4
  {
    Plus(Plus(Plus(Plus(c, Up(Wide(x[0]), 0)), Up(Wide(x[1]), 1)), Up(Wide(x[2]), 2)), Up(Wide(x[3]), 3))
  }

  lemma FourBytes(c: bv32, x: seq<bv8>)
    requires |x| == 4
    ensures Byte(Byte(Byte(Byte(c, x[0]), x[1]), x[2]), x[3]) == Steps8(Steps8(Steps8(Steps8(Added(c, x)))))
  {
    hide Steps8, Plus, Up, Byte;
    var y1, y2, y3 := Wide(x[1]), Wide(x[2]), Wide(x[3]);
    WideIsByte(x[1]);
    WideIsByte(x[2]);
    WideIsByte(x[3]);
    var a0 := Plus(c, Up(Wide(x[0]), 0));
    ByteIs(c, x[0]);
    var a1 := Plus(a0, Up(y1, 1));
    ByteIs(Steps8(a0), x[1]);
    PushIn(a0, y1, 0);
    var a2 := Plus(a1, Up(y2, 2));
    ByteIs(Steps8(Steps8(a1)), x[2]);
    PushIn(Steps8(a1), y2, 0);
    PushIn(a1, y2, 1);
    ByteIs(Steps8(Steps8(Steps8(a2))), x[3]);
    PushIn(Steps8(Steps8(a2)), y3, 0);
    PushIn(Steps8(a2), y3, 1);
    PushIn(a2, y3, 2);
  }

  lemma AddedIs(c: bv32, x: seq<bv8>)
    requires |x| == 4
    ensures Added(c, x) == Plus(c, Word(x))
  {
    hide Up;
    PlusAssociates(c, Up(Wide(x[0]), 0), Up(Wide(x[1]), 1), Up(Wide(x[2]), 2), Up(Wide(x[3]), 3));
  }

  lemma PlusAssociates(c: bv32, a: bv32, b: bv32, d: bv32, e: bv32)
    ensures Plus(Plus(Plus(Plus(c, a), b), d), e) == Plus(c, Plus(Plus(Plus(a, b), d), e))
  {
  }

  lemma UpIs(y: bv32)
    ensures Up(y, 0) == y && Up(y, 1) == Left(y) && Up(y, 2) == Left(Left(y)) && Up(y, 3) == Left(Left(Left(y)))
  {
    hide Left;
    assert Up(y, 2) == Left(Up(y, 1));
    assert Up(y, 3) == Left(Up(y, 2));
  }

  lemma WordIs(x: seq<bv8>)
    requires |x| == 4
    ensures Word(x) == Plus(Plus(Plus(Wide(x[0]), Left(Wide(x[1]))), Left(Left(Wide(x[2])))), Left(Left(Left(Wide(x[3])))))
  {
    hide Up, Plus, Wide, Left;
    UpIs(Wide(x[0]));
    UpIs(Wide(x[1]));
    UpIs(Wide(x[2]));
    UpIs(Wide(x[3]));
  }

  lemma WordTold(x: seq<bv8>, y: seq<bv8>)
    requires |x| == 4 && |y| == 4 && Word(x) == Word(y)
    ensures x == y
  {
    WordBytes(x[0], x[1], x[2], x[3], y[0], y[1], y[2], y[3]);
    WordIs(x);
    WordIs(y);
  }

  lemma WordBytes(x0: bv8, x1: bv8, x2: bv8, x3: bv8, y0: bv8, y1: bv8, y2: bv8, y3: bv8)
    ensures Plus(Plus(Plus(Wide(x0), Left(Wide(x1))), Left(Left(Wide(x2)))), Left(Left(Left(Wide(x3)))))
            == Plus(Plus(Plus(Wide(y0), Left(Wide(y1))), Left(Left(Wide(y2)))), Left(Left(Left(Wide(y3)))))
            ==> x0 == y0 && x1 == y1 && x2 == y2 && x3 == y3
  {
  }

  lemma RegisterFour(c: bv32, x: seq<bv8>)
    requires |x| == 4
    ensures Register(c, x) == Byte(Byte(Byte(Byte(c, x[0]), x[1]), x[2]), x[3])
  {
    hide Byte, Register;
    assert x[..3][..2] == x[..2] && x[..2][..1] == x[..1] && x[..1][..0] == [];
    RegisterLast(c, x);
    RegisterLast(c, x[..3]);
    RegisterLast(c, x[..2]);
    RegisterLast(c, x[..1]);
    RegisterStart(c);
  }

  lemma RegisterLast(c: bv32, x: seq<bv8>)
    requires x != []
    ensures Register(c, x) == Byte(Register(c, x[..|x| - 1]), x[|x| - 1])
  {
  }

  /** Four consecutive bytes cannot change without the checksum, whatever surrounds them. */
  lemma BurstShows(before: seq<bv8>, x: seq<bv8>, y: seq<bv8>, after: seq<bv8>)
    requires |x| == 4 && |y| == 4 && x != y
    ensures Crc(before + x + after) != Crc(before + y + after)
  {
    hide Byte, Register, Steps8, Word, Added, Plus;
    var r := Register(0xFFFF_FFFF, before);
    RegisterConcat(0xFFFF_FFFF, before + x, after);
    RegisterConcat(0xFFFF_FFFF, before + y, after);
    RegisterConcat(0xFFFF_FFFF, before, x);
    RegisterConcat(0xFFFF_FFFF, before, y);
    if Crc(before + x + after) == Crc(before + y + after) {
      NotInjective(Register(0xFFFF_FFFF, before + x + after), Register(0xFFFF_FFFF, before + y + after));
      RegistersTold(Register(r, x), Register(r, y), after);
      BurstTold(r, x, y);
    }
  }

  lemma BurstTold(r: bv32, x: seq<bv8>, y: seq<bv8>)
    requires |x| == 4 && |y| == 4 && Register(r, x) == Register(r, y)
    ensures x == y
  {
    hide Byte, Register, Steps8, Word, Added, Plus;
    RegisterFour(r, x);
    RegisterFour(r, y);
    FourBytes(r, x);
    FourBytes(r, y);
    var a, b := Added(r, x), Added(r, y);
    Steps8Injective(Steps8(Steps8(Steps8(a))), Steps8(Steps8(Steps8(b))));
    Steps8Injective(Steps8(Steps8(a)), Steps8(Steps8(b)));
    Steps8Injective(Steps8(a), Steps8(b));
    Steps8Injective(a, b);
    AddedIs(r, x);
    AddedIs(r, y);
    PlusCancels(r, Word(x), Word(y));
    WordTold(x, y);
  }

  lemma PlusCancels(r: bv32, a: bv32, b: bv32)
    ensures Plus(r, a) == Plus(r, b) ==> a == b
  {
  }

  // ----- the key

  function OfBits(b0: bool, b1: bool, b2: bool, b3: bool, b4: bool, b5: bool, b6: bool, b7: bool): bv8 {
    (if b0 then 1 else 0) | (if b1 then 2 else 0) | (if b2 then 4 else 0) | (if b3 then 8 else 0)
    | (if b4 then 16 else 0) | (if b5 then 32 else 0) | (if b6 then 64 else 0) | (if b7 then 128 else 0)
  }

  predicate BitOf(x: nat, unit: nat)
    requires unit > 0
  {
    Digit(x, unit) == 1
  }

  /** A number below 256, in binary. */
  function ByteOf(x: uint8): bv8 {
    OfBits(BitOf(x, 1), BitOf(x, 2), BitOf(x, 4), BitOf(x, 8), BitOf(x, 16), BitOf(x, 32), BitOf(x, 64), BitOf(x, 128))
  }

  /** A word in memory, its lowest byte first. */
  function KeyBytes(key: uint32): (r: seq<bv8>)
    ensures |r| == 4
  {
    [ByteOf(key % 0x100), ByteOf(key / 0x100 % 0x100), ByteOf(key / 0x1_0000 % 0x100), ByteOf(key / 0x100_0000)]
  }

  /** The checksum of a datagram whose checksum field holds the key while it is computed. */
  function Keyed(key: uint32, before: seq<bv8>, after: seq<bv8>): bv32 {
    Crc(before + KeyBytes(key) + after)
  }

  lemma BitsTold(b0: bool, b1: bool, b2: bool, b3: bool, b4: bool, b5: bool, b6: bool, b7: bool,
                 d0: bool, d1: bool, d2: bool, d3: bool, d4: bool, d5: bool, d6: bool, d7: bool)
    requires OfBits(b0, b1, b2, b3, b4, b5, b6, b7) == OfBits(d0, d1, d2, d3, d4, d5, d6, d7)
    ensures b0 == d0 && b1 == d1 && b2 == d2 && b3 == d3 && b4 == d4 && b5 == d5 && b6 == d6 && b7 == d7
  {
  }

  function Digit(x: nat, unit: nat): nat
    requires unit > 0
  {
    x / unit % 2
  }

  lemma BitsOf(x: uint8)
    ensures x == Digit(x, 1) + 2 * Digit(x, 2) + 4 * Digit(x, 4) + 8 * Digit(x, 8)
                 + 16 * Digit(x, 16) + 32 * Digit(x, 32) + 64 * Digit(x, 64) + 128 * Digit(x, 128)
  {
    assert x / 2 / 2 == x / 4 && x / 4 / 2 == x / 8 && x / 8 / 2 == x / 16;
    assert x / 16 / 2 == x / 32 && x / 32 / 2 == x / 64 && x / 64 / 2 == x / 128;
  }

  lemma SameDigit(x: nat, y: nat, unit: nat)
    requires unit > 0
    ensures BitOf(x, unit) == BitOf(y, unit) ==> Digit(x, unit) == Digit(y, unit)
  {
  }

  lemma SameBytes(x: uint8, y: uint8)
    requires ByteOf(x) == ByteOf(y)
    ensures x == y
  {
    hide OfBits, BitOf, Digit;
    BitsTold(BitOf(x, 1), BitOf(x, 2), BitOf(x, 4), BitOf(x, 8), BitOf(x, 16), BitOf(x, 32), BitOf(x, 64), BitOf(x, 128),
             BitOf(y, 1), BitOf(y, 2), BitOf(y, 4), BitOf(y, 8), BitOf(y, 16), BitOf(y, 32), BitOf(y, 64), BitOf(y, 128));
    SameDigit(x, y, 1);
    SameDigit(x, y, 2);
    SameDigit(x, y, 4);
    SameDigit(x, y, 8);
    SameDigit(x, y, 16);
    SameDigit(x, y, 32);
    SameDigit(x, y, 64);
    SameDigit(x, y, 128);
    BitsOf(x);
    BitsOf(y);
  }

  lemma KeyBytesTold(key: uint32, other: uint32)
    requires KeyBytes(key) == KeyBytes(other)
    ensures key == other
  {
    hide ByteOf;
    SameBytes(key % 0x100, other % 0x100);
    SameBytes(key / 0x100 % 0x100, other / 0x100 % 0x100);
    SameBytes(key / 0x1_0000 % 0x100, other / 0x1_0000 % 0x100);
    SameBytes(key / 0x100_0000, other / 0x100_0000);
    Digits(key);
    Digits(other);
  }

  lemma Digits(x: uint32)
    ensures x == x % 0x100 + 0x100 * (x / 0x100 % 0x100) + 0x1_0000 * (x / 0x1_0000 % 0x100) + 0x100_0000 * (x / 0x100_0000)
  {
    assert x / 0x100 / 0x100 == x / 0x1_0000;
    assert x / 0x1_0000 / 0x100 == x / 0x100_0000;
  }

  /** A datagram that was keyed with another number does not pass. */
  lemma KeyShows(key: uint32, other: uint32, before: seq<bv8>, after: seq<bv8>)
    requires key != other
    ensures Keyed(key, before, after) != Keyed(other, before, after)
  {
    hide Crc, KeyBytes;
    if KeyBytes(key) == KeyBytes(other) {
      KeyBytesTold(key, other);
    }
    BurstShows(before, KeyBytes(key), KeyBytes(other), after);
  }

  lemma RegisterAt(c: bv32, data: seq<bv8>, k: nat)
    requires k < |data|
    ensures Register(c, data[..k + 1]) == Byte(Register(c, data[..k]), data[k])
  {
    assert data[..k + 1][..k] == data[..k];
  }

  lemma DigitSteps()
    ensures Byte(0xFFFF_FFFF, 0x31) == 0x7C23_1048
    ensures Byte(0x7C23_1048, 0x32) == 0xB0AC_BB32
    ensures Byte(0xB0AC_BB32, 0x33) == 0x77B7_9C2D
    ensures Byte(0x77B7_9C2D, 0x34) == 0x641C_1F5C
    ensures Byte(0x641C_1F5C, 0x35) == 0x340A_C5E3
    ensures Byte(0x340A_C5E3, 0x36) == 0xF68D_2C9E
    ensures Byte(0xF68D_2C9E, 0x37) == 0xAFFC_9660
    ensures Byte(0xAFFC_9660, 0x38) == 0x651F_2550
    ensures Byte(0x651F_2550, 0x39) == 0x340B_C6D9
  {
  }

  /** The value by which this CRC-32 is known among others: that of the digits 1 to 9. */
  lemma CheckValue()
    ensures Crc([0x31, 0x32, 0x33, 0x34, 0x35, 0x36, 0x37, 0x38, 0x39]) == 0xCBF4_3926
  {
    hide Register, Byte;
    var data: seq<bv8> := [0x31, 0x32, 0x33, 0x34, 0x35, 0x36, 0x37, 0x38, 0x39];
    DigitSteps();
    RegisterStart(0xFFFF_FFFF);
    assert data[..0] == [] && data[..9] == data;
    RegisterAt(0xFFFF_FFFF, data, 0);
    RegisterAt(0xFFFF_FFFF, data, 1);
    RegisterAt(0xFFFF_FFFF, data, 2);
    RegisterAt(0xFFFF_FFFF, data, 3);
    RegisterAt(0xFFFF_FFFF, data, 4);
    RegisterAt(0xFFFF_FFFF, data, 5);
    RegisterAt(0xFFFF_FFFF, data, 6);
    RegisterAt(0xFFFF_FFFF, data, 7);
    RegisterAt(0xFFFF_FFFF, data, 8);
  }
}
