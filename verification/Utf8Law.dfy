/** UTF-8 as RFC 3629 defines it: the byte strings accepted are the encodings of sequences of scalar values. */
module Utf8Law {
  import opened LittleEndian
  import opened ControlFormat

  /** A Unicode code point that is not a surrogate. */
  predicate Scalar(c: int) { 0 <= c < 0xD800 || 0xE000 <= c < 0x11_0000 }

  /** The bytes of one code point, as numbers. */
  function Units(c: int): (us: seq<int>)
    requires Scalar(c)
    ensures |us| >= 1 && forall k :: 0 <= k < |us| ==> 0 <= us[k] < 256
  {
    if c < 0x80 then [c]
    else if c < 0x800 then [0xC0 + c / 0x40, 0x80 + c % 0x40]
    else if c < 0x1_0000 then [0xE0 + c / 0x1000, 0x80 + c / 0x40 % 0x40, 0x80 + c % 0x40]
    else [0xF0 + c / 0x4_0000, 0x80 + c / 0x1000 % 0x40, 0x80 + c / 0x40 % 0x40, 0x80 + c % 0x40]
  }

  function Bytes(us: seq<int>): seq<bv8>
    requires forall k :: 0 <= k < |us| ==> 0 <= us[k] < 256
  {
    seq(|us|, k requires 0 <= k < |us| => Byte(us[k]))
  }

  predicate Scalars(cs: seq<int>) { forall k :: 0 <= k < |cs| ==> Scalar(cs[k]) }

  function Encoded(cs: seq<int>): seq<bv8>
    requires Scalars(cs)
  {
    if |cs| == 0 then [] else Bytes(Units(cs[0])) + Encoded(cs[1..])
  }

  // ----- Bytes as numbers -------------------------------------------------------------------------------

  lemma {:induction false} Bounds(b: bv8)
    ensures b <= 0x7F <==> Value(b) <= 0x7F
    ensures 0xC2 <= b <= 0xDF <==> 0xC2 <= Value(b) <= 0xDF
    ensures 0xE0 <= b <= 0xEF <==> 0xE0 <= Value(b) <= 0xEF
    ensures 0xF0 <= b <= 0xF4 <==> 0xF0 <= Value(b) <= 0xF4
    ensures Continuation(b) <==> 0x80 <= Value(b) <= 0xBF
    ensures b == 0xE0 <==> Value(b) == 0xE0
    ensures b == 0xED <==> Value(b) == 0xED
    ensures b == 0xF0 <==> Value(b) == 0xF0
    ensures b == 0xF4 <==> Value(b) == 0xF4
    ensures b >= 0xA0 <==> Value(b) >= 0xA0
    ensures b <= 0x9F <==> Value(b) <= 0x9F
    ensures b >= 0x90 <==> Value(b) >= 0x90
    ensures b <= 0x8F <==> Value(b) <= 0x8F
  {
  }

  lemma {:induction false} UnitsAt(c: int, t: seq<bv8>)
    requires Scalar(c)
    ensures var s, us := Bytes(Units(c)) + t, Units(c);
            |s| >= |us| && s[|us|..] == t && forall k :: 0 <= k < |us| ==> Value(s[k]) == us[k]
  {
    hide Byte, Value, Units;
  }

  predicate Tail(v: int) { 0x80 <= v <= 0xBF }

  /** How a valid text starts, in numbers. */
  predicate Shaped(s: seq<bv8>)
    requires |s| > 0
  {
    var a := Value(s[0]);
    if a <= 0x7F then ValidUtf8(s[1..])
    else if a <= 0xDF then 0xC2 <= a && |s| >= 2 && Tail(Value(s[1])) && ValidUtf8(s[2..])
    else if a <= 0xEF then
      && |s| >= 3 && Tail(Value(s[1])) && Tail(Value(s[2])) && (a == 0xE0 ==> Value(s[1]) >= 0xA0)
      && (a == 0xED ==> Value(s[1]) <= 0x9F) && ValidUtf8(s[3..])
    else
      && a <= 0xF4 && |s| >= 4 && Tail(Value(s[1])) && Tail(Value(s[2])) && Tail(Value(s[3]))
      && (a == 0xF0 ==> Value(s[1]) >= 0x90) && (a == 0xF4 ==> Value(s[1]) <= 0x8F) && ValidUtf8(s[4..])
  }

  lemma {:induction false} ValidShaped(s: seq<bv8>)
    requires |s| > 0
    ensures ValidUtf8(s) <==> Shaped(s)
  {
    hide Value, Continuation;
    Bounds(s[0]);
    if |s| > 1 { Bounds(s[1]); }
    if |s| > 2 { Bounds(s[2]); }
    if |s| > 3 { Bounds(s[3]); }
  }

  /** One code point in front of a text leaves its validity as it is. */
  lemma {:induction false} PointInFront(c: int, t: seq<bv8>)
    requires Scalar(c)
    ensures ValidUtf8(Bytes(Units(c)) + t) <==> ValidUtf8(t)
  {
    hide Value, Bytes, ValidUtf8;
    UnitsAt(c, t);
    ValidShaped(Bytes(Units(c)) + t);
  }

  lemma {:induction false} Two(a: int, b: int)
    requires 0xC2 <= a <= 0xDF && Tail(b)
    ensures var c := (a - 0xC0) * 0x40 + (b - 0x80); Scalar(c) && Units(c) == [a, b]
  {
  }

  lemma {:induction false} Three(a: int, b: int, d: int)
    requires 0xE0 <= a <= 0xEF && Tail(b) && Tail(d) && (a == 0xE0 ==> b >= 0xA0) && (a == 0xED ==> b <= 0x9F)
    ensures var c := (a - 0xE0) * 0x1000 + (b - 0x80) * 0x40 + (d - 0x80); Scalar(c) && Units(c) == [a, b, d]
  {
  }

  lemma {:induction false} Four(a: int, b: int, d: int, e: int)
    requires 0xF0 <= a <= 0xF4 && Tail(b) && Tail(d) && Tail(e) && (a == 0xF0 ==> b >= 0x90) && (a == 0xF4 ==> b <= 0x8F)
    ensures var c := (a - 0xF0) * 0x4_0000 + (b - 0x80) * 0x1000 + (d - 0x80) * 0x40 + (e - 0x80);
            Scalar(c) && Units(c) == [a, b, d, e]
  {
    var x, y, z, w := a - 0xF0, b - 0x80, d - 0x80, e - 0x80;
    var c := x * 0x4_0000 + y * 0x1000 + z * 0x40 + w;
    var high, middle := x * 0x40 + y, x * 0x1000 + y * 0x40 + z;
    Sextet(middle, w);
    Sextet(high, z);
    Sextet(x, y);
    assert c == middle * 0x40 + w && middle == high * 0x40 + z;
    assert c / 0x1000 == high && c / 0x4_0000 == x;
  }

  lemma {:induction false} Sextet(q: int, r: int)
    requires 0 <= r < 0x40
    ensures (q * 0x40 + r) / 0x40 == q && (q * 0x40 + r) % 0x40 == r
  {
  }

  /** The code point a valid text starts with. */
  function Point(s: seq<bv8>): int
    requires |s| > 0 && Shaped(s)
  {
    var v := Value(s[0]);
    if v <= 0x7F then v
    else if v <= 0xDF then (v - 0xC0) * 0x40 + (Value(s[1]) - 0x80)
    else if v <= 0xEF then (v - 0xE0) * 0x1000 + (Value(s[1]) - 0x80) * 0x40 + (Value(s[2]) - 0x80)
    else (v - 0xF0) * 0x4_0000 + (Value(s[1]) - 0x80) * 0x1000 + (Value(s[2]) - 0x80) * 0x40 + (Value(s[3]) - 0x80)
  }

  lemma {:induction false} PointRead(s: seq<bv8>)
    requires |s| > 0 && Shaped(s)
    ensures var c := Point(s);
            && Scalar(c) && |s| >= |Units(c)| && (forall k :: 0 <= k < |Units(c)| ==> Units(c)[k] == Value(s[k]))
            && ValidUtf8(s[|Units(c)|..])
  {
    hide Value, ValidUtf8, Tail, Units, Scalar;
    var v := Value(s[0]);
    if v <= 0x7F {
      One(v);
    } else if v <= 0xDF {
      Two(v, Value(s[1]));
    } else if v <= 0xEF {
      Three(v, Value(s[1]), Value(s[2]));
    } else {
      Four(v, Value(s[1]), Value(s[2]), Value(s[3]));
    }
  }

  lemma {:induction false} One(c: int)
    requires 0 <= c <= 0x7F
    ensures Units(c) == [c] && Scalar(c)
  {
  }

  lemma {:induction false} SameBytes(s: seq<bv8>, us: seq<int>)
    requires |us| <= |s| && forall k :: 0 <= k < |us| ==> 0 <= us[k] < 256 && us[k] == Value(s[k])
    ensures Bytes(us) == s[..|us|]
  {
    hide Byte, Value;
    forall k | 0 <= k < |us|
      ensures Byte(us[k]) == s[k]
    {
      ValueByte(s[k]);
    }
  }

  lemma {:induction false} EncodedValid(cs: seq<int>)
    requires Scalars(cs)
    ensures ValidUtf8(Encoded(cs))
  {
    hide ValidUtf8, Units, Bytes;
    if |cs| == 0 {
      assert ValidUtf8([]) by { NothingValid(); }
    } else {
      EncodedValid(cs[1..]);
      PointInFront(cs[0], Encoded(cs[1..]));
    }
  }

  lemma {:induction false} NothingValid()
    ensures ValidUtf8([])
  {
  }

  lemma {:induction false} ValidEncoded(s: seq<bv8>) returns (cs: seq<int>)
    requires ValidUtf8(s)
    ensures Scalars(cs) && Encoded(cs) == s
  {
    hide ValidUtf8, Units, Bytes, Point, Scalar, Shaped;
    if |s| == 0 {
      cs := [];
    } else {
      ValidShaped(s);
      var c := Point(s);
      PointRead(s);
      SameBytes(s, Units(c));
      var rest := ValidEncoded(s[|Units(c)|..]);
      cs := [c] + rest;
      assert cs[1..] == rest;
      assert s == s[..|Units(c)|] + s[|Units(c)|..];
    }
  }

  /** A byte string is accepted as UTF-8 exactly when it encodes a sequence of Unicode scalar values. */
  lemma {:induction false} ValidExactlyWhenEncoded(s: seq<bv8>)
    ensures ValidUtf8(s) <==> exists cs :: Scalars(cs) && Encoded(cs) == s
  {
    hide ValidUtf8, Encoded, Scalars;
    if ValidUtf8(s) {
      var cs := ValidEncoded(s);
    }
    forall cs | Scalars(cs) && Encoded(cs) == s
      ensures ValidUtf8(s)
    {
      EncodedValid(cs);
    }
  }
}
