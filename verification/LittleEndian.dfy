/** Little-endian fixed-width numbers over bytes, as Python's struct module packs them. */
module LittleEndian {
  import opened Arithmetic

  function Pow256(width: nat): (p: nat)
    ensures p > 0
  {
    if width == 0 then 1 else 256 * Pow256(width - 1)
  }

  function Value(b: bv8): (n: int)
    ensures 0 <= n < 256
  {
    b as int
  }

  /** The byte of value n, counted up from zero. */
  function Byte(n: int): (b: bv8)
    requires 0 <= n < 256
    ensures Value(b) == n
  {
    if n == 0 then 0
    else
      Successor(Byte(n - 1));
      Byte(n - 1) + 1
  }

  lemma {:induction false} Successor(b: bv8)
    ensures Value(b) < 255 ==> Value(b + 1) == Value(b) + 1
  {
  }

  function ToBytes(n: nat, width: nat): (b: seq<bv8>)
    ensures |b| == width
    decreases width
  {
    if width == 0 then [] else [Byte(n % 256)] + ToBytes(n / 256, width - 1)
  }

  function FromBytes(b: seq<bv8>): nat {
    if |b| == 0 then 0 else Value(b[0]) + 256 * FromBytes(b[1..])
  }

  lemma {:induction false} ValueByte(b: bv8)
    ensures Byte(Value(b)) == b
  {
    SameValue(Byte(Value(b)), b);
  }

  lemma {:induction false} SameValue(a: bv8, b: bv8)
    requires Value(a) == Value(b)
    ensures a == b
  {
  }

  lemma {:induction false} FromToBytes(n: nat, width: nat)
    requires n < Pow256(width)
    ensures FromBytes(ToBytes(n, width)) == n
    decreases width
  {
    hide Byte, Value;
    if width > 0 {
      FromToBytes(n / 256, width - 1);
      assert ToBytes(n, width)[1..] == ToBytes(n / 256, width - 1);
    }
  }

  /** The k-th byte is the k-th digit to the base 256, lowest first. */
  lemma {:induction false} ByteAt(n: nat, width: nat, k: nat)
    requires k < width
    ensures Value(ToBytes(n, width)[k]) == (n / Pow256(k)) % 256
    decreases width
  {
    hide Byte, Value;
    if k == 0 {
      assert Pow256(0) == 1;
    } else {
      ByteAt(n / 256, width - 1, k - 1);
      DivideTwice(n, Pow256(k - 1));
    }
  }

  lemma {:induction false} DivideTwice(n: nat, p: nat)
    requires p > 0
    ensures n / 256 / p == n / (256 * p)
  {
    var q := n / 256 / p;
    var r := n / 256 % p;
    assert n / 256 == q * p + r && 0 <= r < p;
    assert q * (256 * p) == 256 * (q * p);
    Quotient(n, 256 * p, q);
  }

  lemma {:induction false} LowByte(v: nat, rest: nat)
    requires v < 256
    ensures (v + 256 * rest) % 256 == v && (v + 256 * rest) / 256 == rest
  {
  }

  lemma {:induction false} ToFromBytes(b: seq<bv8>)
    ensures FromBytes(b) < Pow256(|b|) && ToBytes(FromBytes(b), |b|) == b
  {
    hide Byte, Value;
    if |b| > 0 {
      ToFromBytes(b[1..]);
      ValueByte(b[0]);
      LowByte(Value(b[0]), FromBytes(b[1..]));
      assert b == [b[0]] + b[1..];
    }
  }

  lemma {:induction false} Widths()
    ensures Pow256(4) == 0x1_0000_0000 && Pow256(8) == 0x1_0000_0000_0000_0000
  {
    assert Pow256(2) == 65536;
    assert Pow256(4) == 65536 * 65536;
    assert Pow256(6) == 65536 * 65536 * 65536;
  }
}
