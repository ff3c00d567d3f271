/**
The bitwise CRC32C of the control-file tool (Castagnoli polynomial, reflected), its register
algebra, and the error-detection guarantee that a control file's trailer gives.

The register is a 32-bit word. One bit step is a bijection on words; four little-endian bytes
act as one xor followed by 32 bit steps; and a body followed by its own checksum always drives
the register to one constant, which is what makes burst errors detectable.
 */
module Crc32c {

  const POLY: bv32 := 0x82F63B78
  const INIT: bv32 := 0xFFFFFFFF

  /** What the register holds after a blob that ends in its own checksum. */
  const RESIDUE: bv32 := 0xB798B438

  // ----- Specification -------------------------------------------------------------------

  function Xor(a: bv32, b: bv32): bv32 { a ^ b }

  function Half(c: bv32): bv32 { c >> 1 }

  predicate Odd(c: bv32) { c & 1 == 1 }

  /** One bit step: division of the register by x modulo the polynomial. */
  function Step(c: bv32): bv32 {
    if Odd(c) then Xor(Half(c), POLY) else Half(c)
  }

  function Steps(c: bv32, n: nat): bv32 {
    if n == 0 then c else Step(Steps(c, n - 1))
  }

  /** One input byte: xor into the low bits, then eight bit steps. */
  function Feed(c: bv32, b: bv8): bv32 {
    Steps(Xor(c, b as bv32), 8)
  }

  /** The register after feeding the bytes of b, starting from c. */
  function Register(c: bv32, b: seq<bv8>): bv32 {
    if |b| == 0 then c else Feed(Register(c, b[..|b| - 1]), b[|b| - 1])
  }

  function Checksum(b: seq<bv8>): bv32 {
    Xor(Register(INIT, b), 0xFFFFFFFF)
  }

  /** A word whose lowest byte is b and whose other bytes are those of t. */
  function Join(b: bv8, t: bv32): bv32 {
    (b as bv32) | (t << 8)
  }

  /** Four bytes read as a little-endian word. */
  function Word(b: seq<bv8>): bv32
    requires |b| == 4
  {
    Join(b[0], Join(b[1], Join(b[2], b[3] as bv32)))
  }

  function WordBytes(w: bv32): (b: seq<bv8>)
    ensures |b| == 4 && Word(b) == w
  {
    [(w & 0xFF) as bv8, ((w >> 8) & 0xFF) as bv8, ((w >> 16) & 0xFF) as bv8, (w >> 24) as bv8]
  }

  /** The blob ends in the little-endian checksum of everything before it. */
  predicate Sealed(blob: seq<bv8>) {
    |blob| >= 4 && Checksum(blob[..|blob| - 4]) == Word(blob[|blob| - 4..])
  }

  // ----- The algorithm -------------------------------------------------------------------

  /** The source writes the conditional xor with an all-ones or all-zeros mask. */
  function MaskedStep(c: bv32): (r: bv32)
    ensures r == Step(c)
  {
    assert c & 1 == 0 || c & 1 == 1;
    (c >> 1) ^ (POLY & (0 - (c & 1)))
  }

  method Crc32c(b: seq<bv8>) returns (r: bv32)
    ensures r == Checksum(b)
  {
    hide Step, MaskedStep, Xor;
    var crc := INIT;
    for i := 0 to |b|
      invariant crc == Register(INIT, b[..i])
    {
      crc := Xor(crc, b[i] as bv32);
      ghost var fed := crc;
      for k := 0 to 8
        invariant crc == Steps(fed, k)
      {
        crc := MaskedStep(crc);
      }
      assert b[..i + 1][..i] == b[..i];
    }
    assert b[..|b|] == b;
    r := Xor(crc, 0xFFFFFFFF);
  }

  // ----- The register is a bijection -------------------------------------------------------

  lemma {:induction false} StepInjective(a: bv32, b: bv32)
    requires Step(a) == Step(b)
    ensures a == b
  {
  }

  lemma {:induction false} StepsInjective(a: bv32, b: bv32, n: nat)
    requires Steps(a, n) == Steps(b, n)
    ensures a == b
  {
    hide Step;
    if n > 0 {
      StepInjective(Steps(a, n - 1), Steps(b, n - 1));
      StepsInjective(a, b, n - 1);
    }
  }

  lemma {:induction false} XorInjective(a: bv32, b: bv32, m: bv32)
    ensures Xor(a, m) == Xor(b, m) ==> a == b
    ensures Xor(m, a) == Xor(m, b) ==> a == b
    ensures Xor(m, Xor(m, a)) == a
  {
  }

  lemma {:induction false} StepsAdd(c: bv32, m: nat, n: nat)
    ensures Steps(c, m + n) == Steps(Steps(c, m), n)
  {
    hide Step;
    if n > 0 {
      StepsAdd(c, m, n - 1);
    }
  }

  lemma {:induction false} RegisterConcat(c: bv32, x: seq<bv8>, y: seq<bv8>)
    ensures Register(c, x + y) == Register(Register(c, x), y)
  {
    hide Feed;
    if |y| == 0 {
      assert x + y == x;
    } else {
      var front := y[..|y| - 1];
      assert (x + y)[..|x + y| - 1] == x + front;
      RegisterConcat(c, x, front);
    }
  }

  /** Feeding the same bytes never merges two different registers. */
  lemma {:induction false} RegisterInjective(a: bv32, b: bv32, x: seq<bv8>)
    requires Register(a, x) == Register(b, x)
    ensures a == b
  {
    hide Feed;
    if |x| > 0 {
      var front, last := x[..|x| - 1], x[|x| - 1];
      FeedInjective(Register(a, front), Register(b, front), last);
      RegisterInjective(a, b, front);
    }
  }

  lemma {:induction false} FeedInjective(a: bv32, b: bv32, x: bv8)
    requires Feed(a, x) == Feed(b, x)
    ensures a == b
  {
    hide Steps, Xor;
    StepsInjective(Xor(a, x as bv32), Xor(b, x as bv32), 8);
    XorInjective(a, b, x as bv32);
  }

  // ----- Four bytes are one xor and 32 steps ------------------------------------------------

  function Halved(y: bv32, n: nat): bv32 {
    if n == 0 then y else Half(Halved(y, n - 1))
  }

  /** The n lowest bits of y are all zero. */
  predicate LowZero(y: bv32, n: nat) {
    n == 0 || (LowZero(y, n - 1) && !Odd(Halved(y, n - 1)))
  }

  /** A pending bit that the step does not feed back is simply shifted. */
  lemma {:induction false} StepPending(x: bv32, y: bv32)
    requires !Odd(y)
    ensures Step(Xor(x, y)) == Xor(Step(x), Half(y))
  {
    hide Half, Xor, Odd;
    XorOdd(x, y);
    XorHalf(x, y);
    XorSwap(Half(x), Half(y), POLY);
  }

  lemma {:induction false} XorOdd(x: bv32, y: bv32)
    requires !Odd(y)
    ensures Odd(Xor(x, y)) == Odd(x)
  {
  }

  lemma {:induction false} XorHalf(x: bv32, y: bv32)
    ensures Half(Xor(x, y)) == Xor(Half(x), Half(y))
  {
  }

  lemma {:induction false} XorSwap(x: bv32, y: bv32, m: bv32)
    ensures Xor(Xor(x, y), m) == Xor(Xor(x, m), y)
  {
    hide Xor;
    XorAssoc(x, y, m);
    XorComm(y, m);
    XorAssoc(x, m, y);
  }

  lemma {:induction false} XorAssoc(x: bv32, y: bv32, z: bv32)
    ensures Xor(Xor(x, y), z) == Xor(x, Xor(y, z))
  {
  }

  lemma {:induction false} XorComm(x: bv32, y: bv32)
    ensures Xor(x, y) == Xor(y, x)
  {
  }

  /** Bits that have not reached the low end yet pass through n steps by shifting alone. */
  lemma {:induction false} StepsPending(x: bv32, y: bv32, n: nat)
    requires LowZero(y, n)
    ensures Steps(Xor(x, y), n) == Xor(Steps(x, n), Halved(y, n))
  {
    hide Step, Xor, Half, Odd;
    if n > 0 {
      StepsPending(x, y, n - 1);
      StepPending(Steps(x, n - 1), Halved(y, n - 1));
    }
  }

  lemma {:induction false} ShiftedByte(t: bv32)
    requires t <= 0x00FFFFFF
    ensures LowZero(t << 8, 8) && Halved(t << 8, 8) == t
  {
    hide Odd, Half;
    var y := t << 8;
    Half8(t); Half7(t); Half6(t); Half5(t); Half4(t); Half3(t); Half2(t); Half1(t);
    assert LowZero(y, 0) && Halved(y, 0) == y;
    assert LowZero(y, 1) && Halved(y, 1) == t << 7;
    assert LowZero(y, 2) && Halved(y, 2) == t << 6;
    assert LowZero(y, 3) && Halved(y, 3) == t << 5;
    assert LowZero(y, 4) && Halved(y, 4) == t << 4;
    assert LowZero(y, 5) && Halved(y, 5) == t << 3;
    assert LowZero(y, 6) && Halved(y, 6) == t << 2;
    assert LowZero(y, 7) && Halved(y, 7) == t << 1;
  }

  lemma {:induction false} Half1(t: bv32)
    requires t <= 0x00FFFFFF
    ensures !Odd(t << 1) && Half(t << 1) == t
  {
  }

  lemma {:induction false} Half2(t: bv32)
    requires t <= 0x00FFFFFF
    ensures !Odd(t << 2) && Half(t << 2) == t << 1
  {
  }

  lemma {:induction false} Half3(t: bv32)
    requires t <= 0x00FFFFFF
    ensures !Odd(t << 3) && Half(t << 3) == t << 2
  {
  }

  lemma {:induction false} Half4(t: bv32)
    requires t <= 0x00FFFFFF
    ensures !Odd(t << 4) && Half(t << 4) == t << 3
  {
  }

  lemma {:induction false} Half5(t: bv32)
    requires t <= 0x00FFFFFF
    ensures !Odd(t << 5) && Half(t << 5) == t << 4
  {
  }

  lemma {:induction false} Half6(t: bv32)
    requires t <= 0x00FFFFFF
    ensures !Odd(t << 6) && Half(t << 6) == t << 5
  {
  }

  lemma {:induction false} Half7(t: bv32)
    requires t <= 0x00FFFFFF
    ensures !Odd(t << 7) && Half(t << 7) == t << 6
  {
  }

  lemma {:induction false} Half8(t: bv32)
    requires t <= 0x00FFFFFF
    ensures !Odd(t << 8) && Half(t << 8) == t << 7
  {
  }

  lemma {:induction false} JoinXor(c: bv32, b: bv8, t: bv32)
    ensures Xor(c, Join(b, t)) == Xor(Xor(c, b as bv32), t << 8)
  {
    assert (b as bv32) & (t << 8) == 0;
  }

  /** Eight steps consume the lowest byte of a pending word and leave the rest pending. */
  lemma {:induction false} FeedJoined(c: bv32, b: bv8, t: bv32)
    requires t <= 0x00FFFFFF
    ensures Steps(Xor(c, Join(b, t)), 8) == Xor(Feed(c, b), t)
  {
    hide Steps, Halved, LowZero, Xor, Join;
    JoinXor(c, b, t);
    ShiftedByte(t);
    StepsPending(Xor(c, b as bv32), t << 8, 8);
  }

  lemma {:induction false} JoinSmall(b1: bv8, b2: bv8, b3: bv8)
    ensures (b3 as bv32) <= 0x00FFFFFF && Join(b2, b3 as bv32) <= 0x00FFFFFF && Join(b1, Join(b2, b3 as bv32)) <= 0x00FFFFFF
  {
  }

  /** The four bytes of a word act on the register as one xor followed by 32 bit steps. */
  lemma {:induction false} FourBytes(c: bv32, b: seq<bv8>)
    requires |b| == 4
    ensures Register(c, b) == Steps(Xor(c, Word(b)), 32)
  {
    hide Steps, Xor, Join, Feed;
    var t3 := b[3] as bv32;
    var t2 := Join(b[2], t3);
    var t1 := Join(b[1], t2);
    var x := Xor(c, Word(b));
    JoinSmall(b[1], b[2], b[3]);
    RegisterFour(c, b);
    FeedJoined(c, b[0], t1);
    FeedJoined(Feed(c, b[0]), b[1], t2);
    FeedJoined(Feed(Feed(c, b[0]), b[1]), b[2], t3);
    var c3 := Feed(Feed(Feed(c, b[0]), b[1]), b[2]);
    assert Steps(Xor(c3, t3), 8) == Feed(c3, b[3]) by { FeedIsSteps(c3, b[3]); }
    StepsAdd(x, 8, 8);
    StepsAdd(x, 16, 8);
    StepsAdd(x, 24, 8);
  }

  lemma {:induction false} FeedIsSteps(c: bv32, b: bv8)
    ensures Feed(c, b) == Steps(Xor(c, b as bv32), 8)
  {
    hide Steps, Xor;
  }

  lemma {:induction false} RegisterFour(c: bv32, b: seq<bv8>)
    requires |b| == 4
    ensures Register(c, b) == Feed(Feed(Feed(Feed(c, b[0]), b[1]), b[2]), b[3])
  {
    hide Feed;
    assert b[..3][..2] == b[..2] && b[..2][..1] == b[..1] && b[..1][..0] == [];
    assert Register(c, b[..0]) == c;
    assert Register(c, b[..1]) == Feed(c, b[0]);
    assert Register(c, b[..2]) == Feed(Register(c, b[..1]), b[1]);
    assert Register(c, b[..3]) == Feed(Register(c, b[..2]), b[2]);
  }

  lemma {:induction false} JoinInjective(b: bv8, b': bv8, t: bv32, t': bv32)
    requires t <= 0x00FFFFFF && t' <= 0x00FFFFFF && Join(b, t) == Join(b', t')
    ensures b == b' && t == t'
  {
  }

  lemma {:induction false} WordInjective(x: seq<bv8>, y: seq<bv8>)
    requires |x| == 4 && |y| == 4 && Word(x) == Word(y)
    ensures x == y
  {
    hide Join;
    JoinSmall(x[1], x[2], x[3]);
    JoinSmall(y[1], y[2], y[3]);
    JoinInjective(x[0], y[0], Join(x[1], Join(x[2], x[3] as bv32)), Join(y[1], Join(y[2], y[3] as bv32)));
    JoinInjective(x[1], y[1], Join(x[2], x[3] as bv32), Join(y[2], y[3] as bv32));
    JoinInjective(x[2], y[2], x[3] as bv32, y[3] as bv32);
  }

  // ----- The residue ------------------------------------------------------------------------

  lemma {:induction false} FourSteps(c: bv32)
    ensures Steps(c, 4) == Step(Step(Step(Step(c))))
  {
    hide Step;
    assert Steps(c, 1) == Step(c);
    assert Steps(c, 2) == Step(Step(c));
    assert Steps(c, 3) == Step(Step(Step(c)));
  }

  lemma {:induction false} ResidueValue()
    ensures Steps(0xFFFFFFFF, 32) == RESIDUE
  {
    hide Steps;
    FourSteps(0xFFFFFFFF); StepsAdd(0xFFFFFFFF, 4, 4);
    FourSteps(0xFC91908A); StepsAdd(0xFFFFFFFF, 8, 4);
    FourSteps(0xAD82ACAE); StepsAdd(0xFFFFFFFF, 12, 4);
    FourSteps(0xE9E882D0); StepsAdd(0xFFFFFFFF, 16, 4);
    FourSteps(0x0E9E882D); StepsAdd(0xFFFFFFFF, 20, 4);
    FourSteps(0xD33A0929); StepsAdd(0xFFFFFFFF, 24, 4);
    FourSteps(0x9F9B5C85); StepsAdd(0xFFFFFFFF, 28, 4);
    FourSteps(0x58DC6F1B);
  }

  /** A blob carries its own checksum exactly when it leaves the register at RESIDUE. */
  lemma {:induction false} SealedResidue(blob: seq<bv8>)
    requires |blob| >= 4
    ensures Sealed(blob) <==> Register(INIT, blob) == RESIDUE
  {
    hide Xor, Steps, Register, Word;
    var body, trailer := blob[..|blob| - 4], blob[|blob| - 4..];
    var c, t := Register(INIT, body), Word(trailer);
    assert blob == body + trailer;
    RegisterConcat(INIT, body, trailer);
    FourBytes(c, trailer);
    ResidueValue();
    if Register(INIT, blob) == RESIDUE {
      StepsInjective(Xor(c, t), 0xFFFFFFFF, 32);
      XorInjective(t, t, c);
    }
    if Sealed(blob) {
      XorInjective(0xFFFFFFFF, t, c);
    }
  }

  // ----- The register bit by bit ----------------------------------------------------------------

  /** The bits of a byte in the order in which the register takes them, lowest first. */
  function ByteBits(b: bv8): (bits: seq<bool>)
    ensures |bits| == 8
  {
    [b & 1 == 1, (b >> 1) & 1 == 1, (b >> 2) & 1 == 1, (b >> 3) & 1 == 1,
     (b >> 4) & 1 == 1, (b >> 5) & 1 == 1, (b >> 6) & 1 == 1, (b >> 7) & 1 == 1]
  }

  function Bits(b: seq<bv8>): (bits: seq<bool>)
    ensures |bits| == 8 * |b|
  {
    seq(8 * |b|, (i: nat) requires i < 8 * |b| => ByteBits(b[i / 8])[i % 8])
  }

  function FeedBit(c: bv32, bit: bool): bv32 { Step(if bit then Xor(c, 1) else c) }

  function FeedBits(c: bv32, bits: seq<bool>): bv32
    decreases |bits|
  {
    if |bits| == 0 then c else FeedBits(FeedBit(c, bits[0]), bits[1..])
  }

  lemma {:induction false} FeedBitsConcat(c: bv32, x: seq<bool>, y: seq<bool>)
    ensures FeedBits(c, x + y) == FeedBits(FeedBits(c, x), y)
    decreases |x|
  {
    hide FeedBit;
    if |x| == 0 {
      assert x + y == y;
    } else {
      assert (x + y)[1..] == x[1..] + y;
      FeedBitsConcat(FeedBit(c, x[0]), x[1..], y);
    }
  }

  lemma {:induction false} FeedBitsInjective(a: bv32, b: bv32, bits: seq<bool>)
    requires FeedBits(a, bits) == FeedBits(b, bits)
    ensures a == b
    decreases |bits|
  {
    hide Step, Xor;
    if |bits| > 0 {
      FeedBitsInjective(FeedBit(a, bits[0]), FeedBit(b, bits[0]), bits[1..]);
      StepInjective(if bits[0] then Xor(a, 1) else a, if bits[0] then Xor(b, 1) else b);
      XorInjective(a, b, 1);
    }
  }

  // ----- Up to 32 bits are one xor and as many steps ---------------------------------------------

  /** A word whose lowest bit is bit and whose other bits are those of t. */
  function JoinBit(bit: bool, t: bv32): bv32 { if bit then (t << 1) | 1 else t << 1 }

  function Pack(bits: seq<bool>): bv32 {
    if |bits| == 0 then 0 else JoinBit(bits[0], Pack(bits[1..]))
  }

  /** The largest word of n bits. */
  function Ones(n: nat): bv32
    requires n <= 32
  {
    Halved(0xFFFFFFFF, 32 - n)
  }

  predicate AllOnes(l: bv32) { l & (l + 1) == 0 }

  lemma {:induction false} HalfOnes(l: bv32)
    requires AllOnes(l)
    ensures AllOnes(Half(l)) && Half(l) <= 0x7FFFFFFF
  {
  }

  lemma {:induction false} HalvedOnes(k: nat)
    ensures AllOnes(Halved(0xFFFFFFFF, k))
  {
    hide Half, AllOnes;
    if k == 0 {
      WholeWord();
    } else {
      HalvedOnes(k - 1);
      HalfOnes(Halved(0xFFFFFFFF, k - 1));
    }
  }

  lemma {:induction false} WholeWord()
    ensures AllOnes(0xFFFFFFFF)
  {
  }

  lemma {:induction false} FourMore(y: bv32, n: nat)
    ensures Halved(y, n + 4) == Half(Half(Half(Half(Halved(y, n)))))
  {
    hide Half;
    HalvedThrice(y, n);
  }

  lemma {:induction false} FourHalves(h: bv32)
    ensures Half(Half(Half(Half(h)))) == h >> 4
  {
  }

  /** The word runs out of ones only after 32 halvings. */
  lemma {:induction false} OnesLast(k: nat)
    requires k < 32
    ensures Halved(0xFFFFFFFF, k) != 0
    decreases 32 - k
  {
    hide Half, Halved;
    if k == 31 {
      LastOne();
    } else {
      OnesLast(k + 1);
      HalvedOnce(k);
    }
  }

  lemma {:induction false} HalvedOnce(k: nat)
    ensures Halved(0xFFFFFFFF, k) == 0 ==> Halved(0xFFFFFFFF, k + 1) == 0
  {
  }

  lemma {:induction false} LastOne()
    ensures Halved(0xFFFFFFFF, 31) == 1
  {
    hide Half, Halved;
    assert Halved(0xFFFFFFFF, 0) == 0xFFFFFFFF by { NotHalved(0xFFFFFFFF); }
    FourMore(0xFFFFFFFF, 0);
    FourHalves(0xFFFFFFFF);
    FourMore(0xFFFFFFFF, 4);
    FourHalves(0x0FFFFFFF);
    FourMore(0xFFFFFFFF, 8);
    FourHalves(0x00FFFFFF);
    FourMore(0xFFFFFFFF, 12);
    FourHalves(0x000FFFFF);
    FourMore(0xFFFFFFFF, 16);
    FourHalves(0x0000FFFF);
    FourMore(0xFFFFFFFF, 20);
    FourHalves(0x00000FFF);
    FourMore(0xFFFFFFFF, 24);
    FourHalves(0x000000FF);
    HalvedThrice(0xFFFFFFFF, 28);
    ThreeHalves();
  }

  lemma {:induction false} NotHalved(y: bv32)
    ensures Halved(y, 0) == y
  {
  }

  lemma {:induction false} HalvedThrice(y: bv32, n: nat)
    ensures Halved(y, n + 3) == Half(Half(Half(Halved(y, n))))
  {
    hide Half;
    assert Halved(y, n + 1) == Half(Halved(y, n));
    assert Halved(y, n + 2) == Half(Halved(y, n + 1));
  }

  lemma {:induction false} ThreeHalves()
    ensures Half(Half(Half(0xF))) == 1
  {
  }

  lemma {:induction false} OnesStep(n: nat)
    requires 0 < n <= 32
    ensures AllOnes(Ones(n)) && Ones(n) != 0 && Half(Ones(n)) == Ones(n - 1)
  {
    hide Half, AllOnes;
    HalvedOnes(32 - n);
    OnesLast(32 - n);
  }

  predicate Below(w: bv32, l: bv32) { w <= l }

  lemma {:induction false} JoinBitFits(bit: bool, t: bv32, l: bv32)
    requires AllOnes(l) && l != 0 && Below(t, Half(l))
    ensures Below(JoinBit(bit, t), l)
  {
  }

  lemma {:induction false} PackFits(bits: seq<bool>)
    requires |bits| <= 32
    ensures Below(Pack(bits), Ones(|bits|))
  {
    hide Half, AllOnes, JoinBit, Ones, Below;
    if |bits| == 0 {
      LeastWord(Ones(0));
    } else {
      PackFits(bits[1..]);
      OnesStep(|bits|);
      JoinBitFits(bits[0], Pack(bits[1..]), Ones(|bits|));
    }
  }

  lemma {:induction false} LeastWord(l: bv32)
    ensures Below(0, l)
  {
  }

  lemma {:induction false} PackSmall(bits: seq<bool>)
    requires |bits| < 32
    ensures Pack(bits) <= 0x7FFFFFFF
  {
    hide Half, AllOnes, Pack, Ones;
    PackFits(bits);
    OnesStep(|bits| + 1);
    HalfOnes(Ones(|bits| + 1));
  }

  lemma {:induction false} StepJoined(c: bv32, bit: bool, t: bv32)
    requires t <= 0x7FFFFFFF
    ensures Step(Xor(c, JoinBit(bit, t))) == Xor(FeedBit(c, bit), t)
  {
    hide Step, Xor, Half, Odd, JoinBit;
    JoinBitXor(c, bit, t);
    StepPending(if bit then Xor(c, 1) else c, JoinBit(false, t));
  }

  lemma {:induction false} JoinBitXor(c: bv32, bit: bool, t: bv32)
    requires t <= 0x7FFFFFFF
    ensures Xor(c, JoinBit(bit, t)) == Xor(if bit then Xor(c, 1) else c, JoinBit(false, t))
    ensures !Odd(JoinBit(false, t)) && Half(JoinBit(false, t)) == t
  {
    hide Xor, Half, Odd;
    if bit {
      JoinOne(t);
      XorComm(t << 1, 1);
      XorAssoc(c, 1, t << 1);
    }
    ShiftBack(t);
  }

  lemma {:induction false} JoinOne(t: bv32)
    ensures (t << 1) | 1 == Xor(t << 1, 1)
  {
    assert (t << 1) & 1 == 0;
  }

  lemma {:induction false} ShiftBack(t: bv32)
    requires t <= 0x7FFFFFFF
    ensures !Odd(t << 1) && Half(t << 1) == t
    ensures Odd((t << 1) | 1) && Half((t << 1) | 1) == t
  {
  }

  /** The bits of a word act on the register as one xor followed by a step for each. */
  lemma {:induction false} PackedBits(c: bv32, bits: seq<bool>)
    requires |bits| <= 32
    ensures FeedBits(c, bits) == Steps(Xor(c, Pack(bits)), |bits|)
    decreases |bits|
  {
    hide Step, Xor, JoinBit, FeedBit;
    if |bits| == 0 {
      XorNothing(c);
    } else {
      var rest := bits[1..];
      PackSmall(rest);
      PackedBits(FeedBit(c, bits[0]), rest);
      StepJoined(c, bits[0], Pack(rest));
      StepsAdd(Xor(c, Pack(bits)), 1, |rest|);
      assert Steps(Xor(c, Pack(bits)), 1) == Step(Xor(c, Pack(bits)));
    }
  }

  lemma {:induction false} XorNothing(c: bv32)
    ensures Xor(c, 0) == c
  {
  }

  lemma {:induction false} PackInjective(x: seq<bool>, y: seq<bool>)
    requires |x| == |y| && |y| <= 32 && Pack(x) == Pack(y)
    ensures x == y
  {
    hide JoinBit;
    if |x| > 0 {
      PackSmall(x[1..]);
      PackSmall(y[1..]);
      JoinBitInjective(x[0], Pack(x[1..]), y[0], Pack(y[1..]));
      PackInjective(x[1..], y[1..]);
      assert x == [x[0]] + x[1..] && y == [y[0]] + y[1..];
    }
  }

  lemma {:induction false} JoinBitInjective(a: bool, t: bv32, b: bool, u: bv32)
    requires t <= 0x7FFFFFFF && u <= 0x7FFFFFFF && JoinBit(a, t) == JoinBit(b, u)
    ensures a == b && t == u
  {
    hide Half, Odd;
    ShiftBack(t);
    ShiftBack(u);
  }

  // ----- Bytes as bits ------------------------------------------------------------------------------

  lemma {:induction false} PackFour(x: seq<bool>)
    requires |x| >= 4
    ensures Pack(x) == JoinBit(x[0], JoinBit(x[1], JoinBit(x[2], JoinBit(x[3], Pack(x[4..])))))
  {
    hide JoinBit;
    assert x[1..][1..] == x[2..] && x[2..][1..] == x[3..] && x[3..][1..] == x[4..];
    assert Pack(x[3..]) == JoinBit(x[3], Pack(x[4..]));
    assert Pack(x[2..]) == JoinBit(x[2], Pack(x[3..]));
    assert Pack(x[1..]) == JoinBit(x[1], Pack(x[2..]));
  }

  lemma {:induction false} PackByte(b: bv8)
    ensures Pack(ByteBits(b)) == b as bv32
  {
    hide JoinBit, ByteBits;
    var x := ByteBits(b);
    PackFour(x);
    PackFour(x[4..]);
    assert Pack(x[4..][4..]) == 0;
    EightBits(b);
  }

  lemma {:induction false} EightBits(b: bv8)
    ensures var x := ByteBits(b);
            JoinBit(x[0], JoinBit(x[1], JoinBit(x[2], JoinBit(x[3],
              JoinBit(x[4], JoinBit(x[5], JoinBit(x[6], JoinBit(x[7], 0)))))))) == b as bv32
  {
  }

  lemma {:induction false} FeedIsBits(c: bv32, b: bv8)
    ensures Feed(c, b) == FeedBits(c, ByteBits(b))
  {
    hide Xor, Steps, Pack, ByteBits;
    PackByte(b);
    PackedBits(c, ByteBits(b));
  }

  lemma {:induction false} BitsSnoc(b: seq<bv8>)
    requires |b| > 0
    ensures Bits(b) == Bits(b[..|b| - 1]) + ByteBits(b[|b| - 1])
  {
    hide ByteBits;
  }

  /** Feeding bytes is feeding their bits, lowest bit of each byte first. */
  lemma {:induction false} RegisterBits(c: bv32, b: seq<bv8>)
    ensures Register(c, b) == FeedBits(c, Bits(b))
  {
    hide Feed, Bits, ByteBits;
    if |b| > 0 {
      var front, last := b[..|b| - 1], b[|b| - 1];
      RegisterBits(c, front);
      FeedIsBits(Register(c, front), last);
      BitsSnoc(b);
      FeedBitsConcat(c, Bits(front), ByteBits(last));
    } else {
      assert Bits(b) == [];
    }
  }

  lemma {:induction false} BitsAt(b: seq<bv8>, k: nat)
    requires k < |b|
    ensures Bits(b)[8 * k..8 * k + 8] == ByteBits(b[k])
  {
    hide ByteBits;
  }

  lemma {:induction false} BitsInjective(x: seq<bv8>, y: seq<bv8>)
    requires Bits(x) == Bits(y)
    ensures x == y
  {
    hide ByteBits, Bits, Pack;
    assert |x| == |y|;
    forall k | 0 <= k < |x|
      ensures x[k] == y[k]
    {
      BitsAt(x, k);
      BitsAt(y, k);
      PackByte(x[k]);
      PackByte(y[k]);
      Widened(x[k], y[k]);
    }
  }

  lemma {:induction false} Widened(a: bv8, b: bv8)
    ensures a as bv32 == b as bv32 ==> a == b
  {
  }

  // ----- The start value ----------------------------------------------------------------------

  /** The first 32 bits are complemented before the division, and the remainder after it. */
  lemma {:induction false} FirstWordComplemented(w: bv32, rest: seq<bv8>)
    ensures Checksum(WordBytes(w) + rest)
         == Xor(Register(0, WordBytes(Xor(w, 0xFFFFFFFF)) + rest), 0xFFFFFFFF)
  {
    hide Xor, Steps, Register, Word, WordBytes;
    RegisterConcat(INIT, WordBytes(w), rest);
    RegisterConcat(0, WordBytes(Xor(w, 0xFFFFFFFF)), rest);
    FourBytes(INIT, WordBytes(w));
    FourBytes(0, WordBytes(Xor(w, 0xFFFFFFFF)));
    Complemented(w);
  }

  lemma {:induction false} Complemented(w: bv32)
    ensures Xor(INIT, w) == Xor(0, Xor(w, 0xFFFFFFFF))
  {
  }

  lemma {:induction false} FirstFour()
    ensures Steps(0xCBCCCDCE, 32) == 0x09C50B11
  {
    hide Steps;
    FourSteps(0xCBCCCDCE);
    StepsAdd(0xCBCCCDCE, 4, 4); FourSteps(0xEF8C64C6);
    StepsAdd(0xCBCCCDCE, 8, 4); FourSteps(0x6F3E552E);
    StepsAdd(0xCBCCCDCE, 12, 4); FourSteps(0xE5C34D48);
    StepsAdd(0xCBCCCDCE, 16, 4); FourSteps(0x8CAA0FAC);
    StepsAdd(0xCBCCCDCE, 20, 4); FourSteps(0xCB47863E);
    StepsAdd(0xCBCCCDCE, 24, 4); FourSteps(0xEF84D079);
    StepsAdd(0xCBCCCDCE, 28, 4); FourSteps(0x9C50B110);
  }

  lemma {:induction false} NextFour()
    ensures Steps(0x31F23D24, 32) == 0x9F787F65
  {
    hide Steps;
    FourSteps(0x31F23D24);
    StepsAdd(0x31F23D24, 4, 4); FourSteps(0x42643E6E);
    StepsAdd(0x31F23D24, 8, 4); FourSteps(0xE716EBFC);
    StepsAdd(0x31F23D24, 12, 4); FourSteps(0xCDFC487B);
    StepsAdd(0x31F23D24, 16, 4); FourSteps(0xBECAB64E);
    StepsAdd(0x31F23D24, 20, 4); FourSteps(0xE8DC037E);
    StepsAdd(0x31F23D24, 24, 4); FourSteps(0xEDBD682D);
    StepsAdd(0x31F23D24, 28, 4); FourSteps(0xDD083729);
  }

  lemma {:induction false} LastByte()
    ensures Steps(0x9F787F5C, 8) == 0x1CF96D7C
  {
    hide Steps;
    FourSteps(0x9F787F5C);
    StepsAdd(0x9F787F5C, 4, 4);
    FourSteps(0xCA7AA131);
  }

  /** The published check value of the algorithm: the checksum of the digits 1 to 9. */
  lemma {:induction false} CheckValue()
    ensures Checksum([0x31, 0x32, 0x33, 0x34, 0x35, 0x36, 0x37, 0x38, 0x39]) == 0xE3069283
  {
    hide Steps, Register;
    var a, b, c := [0x31, 0x32, 0x33, 0x34], [0x35, 0x36, 0x37, 0x38], [0x39];
    assert [0x31, 0x32, 0x33, 0x34, 0x35, 0x36, 0x37, 0x38, 0x39] == a + b + c;
    RegisterConcat(0xFFFFFFFF, a + b, c);
    RegisterConcat(0xFFFFFFFF, a, b);
    FourBytes(0xFFFFFFFF, a);
    FourBytes(0x09C50B11, b);
    OneByte(0x9F787F65, 0x39);
    FirstFour();
    NextFour();
    LastByte();
  }

  lemma {:induction false} OneByte(c: bv32, b: bv8)
    ensures Register(c, [b]) == Steps(Xor(c, b as bv32), 8)
  {
    hide Steps, Xor;
    assert [b][..0] == [];
  }

  // ----- Burst detection ----------------------------------------------------------------------

  /** x and y have one length and their bits agree outside the len bits starting at start. */
  predicate DifferOnlyInBits(x: seq<bv8>, y: seq<bv8>, start: nat, len: nat) {
    |x| == |y| && start + len <= 8 * |x|
    && forall i :: 0 <= i < 8 * |x| && !(start <= i < start + len) ==> Bits(x)[i] == Bits(y)[i]
  }

  /** Two blobs that carry valid checksums and differ only inside 32 consecutive bits are the same blob. */
  lemma {:induction false} BurstDetected(x: seq<bv8>, y: seq<bv8>, start: nat, len: nat)
    requires DifferOnlyInBits(x, y, start, len) && len <= 32
    requires Sealed(x) && Sealed(y)
    ensures x == y
  {
    hide Bits, Checksum, Word, FeedBits, Register, Steps, Xor, Pack;
    var left, right := Bits(x), Bits(y);
    var p, wx, wy, q := left[..start], left[start..start + len], right[start..start + len], left[start + len..];
    assert left == p + wx + q;
    assert right[..start] == p && right[start + len..] == q;
    assert right == p + wy + q;
    SealedResidue(x);
    SealedResidue(y);
    RegisterBits(INIT, x);
    RegisterBits(INIT, y);
    FeedBitsConcat(INIT, p + wx, q);
    FeedBitsConcat(INIT, p + wy, q);
    FeedBitsInjective(FeedBits(INIT, p + wx), FeedBits(INIT, p + wy), q);
    FeedBitsConcat(INIT, p, wx);
    FeedBitsConcat(INIT, p, wy);
    var c := FeedBits(INIT, p);
    PackedBits(c, wx);
    PackedBits(c, wy);
    StepsInjective(Xor(c, Pack(wx)), Xor(c, Pack(wy)), len);
    XorInjective(Pack(wx), Pack(wy), c);
    PackInjective(wx, wy);
    BitsInjective(x, y);
  }
}
