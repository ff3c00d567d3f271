/**
LSN-to-WAL-segment arithmetic of the control-file tool: 24-digit segment names, the truncation
point of an LSN, the segments of an LSN range, and the record a restore crafts.
 */
module WalSegments {
  import opened Arithmetic
  import opened Dictionary
  import opened Wrappers
  import opened ControlFormat

  const TWO32: nat := 0x1_0000_0000
  const TWO64: nat := 0x1_0000_0000_0000_0000

  // ----- Upper-case hexadecimal, zero-padded to a minimum width ---------------------------------

  function Digit(d: nat): char
    requires d < 16
  {
    if d < 10 then '0' + d as char else 'A' + (d - 10) as char
  }

  predicate IsDigit(c: char) { '0' <= c <= '9' || 'A' <= c <= 'F' }

  function DigitValue(c: char): (d: nat)
    requires IsDigit(c)
    ensures d < 16 && Digit(d) == c
  {
    if c <= '9' then (c - '0') as nat else (c - 'A') as nat + 10
  }

  function Hex(n: nat, width: nat): string
    decreases n + width
  {
    if n == 0 && width == 0 then ""
    else Hex(n / 16, if width == 0 then 0 else width - 1) + [Digit(n % 16)]
  }

  predicate AllDigits(s: string) { forall i :: 0 <= i < |s| ==> IsDigit(s[i]) }

  function FromHex(s: string): nat
    requires AllDigits(s)
  {
    if |s| == 0 then 0 else 16 * FromHex(s[..|s| - 1]) + DigitValue(s[|s| - 1])
  }

  function Pow16(k: nat): nat { if k == 0 then 1 else 16 * Pow16(k - 1) }

  lemma {:induction false} HexFixed(n: nat, width: nat)
    requires n < Pow16(width)
    ensures |Hex(n, width)| == width && AllDigits(Hex(n, width)) && FromHex(Hex(n, width)) == n
    decreases width
  {
    if width > 0 {
      HexFixed(n / 16, width - 1);
      var s := Hex(n, width);
      assert s[..|s| - 1] == Hex(n / 16, width - 1);
    }
  }

  lemma {:induction false} Distribute(a: nat, p: nat, b: nat)
    ensures 16 * (a * p + b) == a * (16 * p) + 16 * b
  {
  }

  lemma {:induction false} Pow16Of8()
    ensures Pow16(8) == TWO32
  {
    assert Pow16(4) == 65536;
  }

  lemma {:induction false} FromHexConcat(s: string, t: string)
    requires AllDigits(s) && AllDigits(t)
    ensures AllDigits(s + t) && FromHex(s + t) == FromHex(s) * Pow16(|t|) + FromHex(t)
  {
    if |t| == 0 {
      assert s + t == s;
    } else {
      var front := t[..|t| - 1];
      assert (s + t)[..|s + t| - 1] == s + front;
      FromHexConcat(s, front);
      assert FromHex(s + t) == 16 * FromHex(s + front) + DigitValue(t[|t| - 1]);
      Distribute(FromHex(s), Pow16(|front|), FromHex(front));
    }
  }

  lemma {:induction false} HexOrder(s: string, t: string)
    requires |s| == |t| && AllDigits(s) && AllDigits(t)
    ensures Before(s, t) <==> FromHex(s) < FromHex(t)
    ensures s == t <==> FromHex(s) == FromHex(t)
  {
    hide DigitValue, Before;
    if |s| == 0 {
      NothingBefore();
      assert s == "" && t == "";
    } else {
      var k := |s| - 1;
      var x, y := s[..k], t[..k];
      HexOrder(x, y);
      assert s == x + [s[k]] && t == y + [t[k]];
      BeforeStep(s, t);
      DigitOrder(s[k], t[k]);
      LastDigit(FromHex(x), FromHex(y), DigitValue(s[k]), DigitValue(t[k]));
    }
  }

  lemma {:induction false} NothingBefore()
    ensures !Before("", "")
  {
  }

  lemma {:induction false} DigitOrder(c: char, d: char)
    requires IsDigit(c) && IsDigit(d)
    ensures c < d <==> DigitValue(c) < DigitValue(d)
    ensures c == d <==> DigitValue(c) == DigitValue(d)
  {
  }

  lemma {:induction false} LastDigit(a: nat, b: nat, x: nat, y: nat)
    requires x < 16 && y < 16
    ensures 16 * a + x < 16 * b + y <==> a < b || (a == b && x < y)
    ensures 16 * a + x == 16 * b + y <==> a == b && x == y
  {
  }

  lemma {:induction false} BeforeStep(s: string, t: string)
    requires |s| == |t| > 0
    ensures var k := |s| - 1;
            Before(s, t) <==> Before(s[..k], t[..k]) || (s[..k] == t[..k] && s[k] < t[k])
  {
    var k := |s| - 1;
    if Before(s, t) {
      var i :| 0 <= i < |s| && s[..i] == t[..i] && s[i] < t[i];
      if i < k {
        assert s[..k][..i] == s[..i] && t[..k][..i] == t[..i];
      }
    }
    if Before(s[..k], t[..k]) {
      var i :| 0 <= i < k && s[..k][..i] == t[..k][..i] && s[..k][i] < t[..k][i];
      assert s[..k][..i] == s[..i] && t[..k][..i] == t[..i];
    }
  }

  /** Python's %0wX: a negative number gives one digit's place to its sign. */
  function Padded(n: int, width: nat): string
    requires width > 0
  {
    if n < 0 then "-" + Hex(-n, width - 1) else Hex(n, width)
  }

  lemma {:induction false} HexWide(n: nat, width: nat)
    ensures |Hex(n, width)| >= width && AllDigits(Hex(n, width))
    ensures n >= Pow16(width) ==> |Hex(n, width)| > width
    decreases n + width
  {
    if n > 0 || width > 0 { HexWide(n / 16, if width == 0 then 0 else width - 1); }
  }

  // ----- Segment numbers and names ---------------------------------------------------------------

  /** Python's floor division; the divisor is positive. */
  function SegNo(lsn: int, wss: nat): (n: int)
    requires wss > 0
    ensures n * wss <= lsn < (n + 1) * wss
    ensures lsn >= 0 <==> n >= 0
  {
    lsn / wss
  }

  /** How many segments one 4 GiB log file holds. */
  function PerXlogId(wss: nat): (per: nat)
    requires 0 < wss <= TWO32
    ensures 0 < per <= TWO32
  {
    TWO32 / wss
  }

  function LogFile(n: int, wss: nat): (hi: int)
    requires 0 < wss <= TWO32
    ensures hi >= 0 <==> n >= 0
  {
    n / PerXlogId(wss)
  }

  function SlotInFile(n: int, wss: nat): (lo: nat)
    requires 0 < wss <= TWO32
    ensures lo < PerXlogId(wss) && n == LogFile(n, wss) * PerXlogId(wss) + lo
  {
    n % PerXlogId(wss)
  }

  function SegName(lsn: int, wss: nat): string
    requires 0 < wss <= TWO32
  {
    var n := SegNo(lsn, wss);
    Padded(1, 8) + Padded(LogFile(n, wss), 8) + Padded(SlotInFile(n, wss), 8)
  }

  predicate IsName(name: string) { |name| == 24 && AllDigits(name) }

  /** Reads a 24-digit name back as a segment number. */
  function NamedSegment(name: string, wss: nat): nat
    requires IsName(name) && 0 < wss <= TWO32
  {
    FromHex(name[8..16]) * PerXlogId(wss) + FromHex(name[16..])
  }

  /** The position of segment n in the order of its name's digits. */
  function NameKey(n: nat, wss: nat): nat
    requires 0 < wss <= TWO32
  {
    TWO64 + LogFile(n, wss) * TWO32 + SlotInFile(n, wss)
  }

  /** Segment sizes that split the 4 GiB log file evenly number its files as the LSN's upper half does. */
  lemma {:induction false} LogFileFits(lsn: nat, wss: nat)
    requires 0 < wss <= TWO32 && TWO32 % wss == 0 && lsn < TWO64
    ensures LogFile(SegNo(lsn, wss), wss) < TWO32
  {
    hide SegNo, LogFile, SlotInFile;
    var per := PerXlogId(wss);
    var n := SegNo(lsn, wss);
    var hi, lo := LogFile(n, wss), SlotInFile(n, wss);
    assert per * wss == TWO32;
    MulMono(wss, hi * per, n);
    MulAssoc(hi, per, wss);
  }

  lemma {:induction false} MulAssoc(a: nat, b: nat, c: nat)
    ensures (a * b) * c == a * (b * c)
  {
  }

  lemma {:induction false} MulMono(k: nat, a: nat, b: nat)
    requires a <= b
    ensures k * a <= k * b && a * k <= b * k
  {
  }

  lemma {:induction false} NameParts(lsn: nat, wss: nat)
    requires 0 < wss <= TWO32 && LogFile(SegNo(lsn, wss), wss) < TWO32
    ensures var name := SegName(lsn, wss);
            var n := SegNo(lsn, wss);
            IsName(name)
            && FromHex(name[8..16]) == LogFile(n, wss) && FromHex(name[16..]) == SlotInFile(n, wss)
            && FromHex(name) == NameKey(n, wss)
  {
    hide Hex, FromHex, AllDigits, Pow16, SegNo, LogFile, SlotInFile;
    var n, name := SegNo(lsn, wss), SegName(lsn, wss);
    var one, hi, lo := Hex(1, 8), Hex(LogFile(n, wss), 8), Hex(SlotInFile(n, wss), 8);
    Pow16Of8();
    HexFixed(1, 8);
    HexFixed(LogFile(n, wss), 8);
    HexFixed(SlotInFile(n, wss), 8);
    assert name[8..16] == hi && name[16..] == lo;
    FromHexConcat(one, hi);
    FromHexConcat(one + hi, lo);
    assert FromHex(name) == (TWO32 + LogFile(n, wss)) * TWO32 + SlotInFile(n, wss);
  }

  /**
  The name of an LSN's segment has 24 digits exactly when its log file has a number of eight, and then
  it reads back as that segment's number. Sizes that divide 4 GiB give every 64-bit LSN such a name.
   */
  lemma {:induction false} NameDecodes(lsn: int, wss: nat)
    requires 0 < wss <= TWO32
    ensures var name := SegName(lsn, wss);
            && (IsName(name) <==> lsn >= 0 && LogFile(SegNo(lsn, wss), wss) < TWO32)
            && (IsName(name) ==> NamedSegment(name, wss) == SegNo(lsn, wss))
            && (TWO32 % wss == 0 && 0 <= lsn < TWO64 ==> IsName(name))
  {
    hide Hex, FromHex, SegNo, LogFile, SlotInFile, Pow16, AllDigits;
    var n := SegNo(lsn, wss);
    if lsn < 0 {
      Signed(Padded(1, 8), Hex(-LogFile(n, wss), 7), Padded(SlotInFile(n, wss), 8));
    } else {
      Pow16Of8();
      HexWide(1, 8);
      HexWide(LogFile(n, wss), 8);
      HexWide(SlotInFile(n, wss), 8);
      if LogFile(n, wss) < TWO32 { NameParts(lsn, wss); }
      if TWO32 % wss == 0 && lsn < TWO64 { LogFileFits(lsn, wss); }
    }
  }

  lemma {:induction false} Signed(a: string, b: string, c: string)
    ensures !AllDigits(a + ("-" + b) + c)
  {
    assert (a + ("-" + b) + c)[|a|] == '-';
  }

  /** A size that divides 4 GiB names an LSN by its upper half and by the segment its lower half is in, on timeline 1. */
  lemma {:induction false} NameLaw(lsn: nat, wss: nat)
    requires 0 < wss <= TWO32 && TWO32 % wss == 0 && lsn < TWO64
    ensures var name := SegName(lsn, wss);
            && IsName(name) && name[..8] == "00000001"
            && FromHex(name[8..16]) == lsn / 0x1_0000_0000
            && FromHex(name[16..]) == lsn % 0x1_0000_0000 / wss
  {
    hide Hex, FromHex, AllDigits, SegNo, LogFile, SlotInFile;
    LogFileFits(lsn, wss);
    NameParts(lsn, wss);
    FirstTimeline();
    assert SegName(lsn, wss)[..8] == Hex(1, 8) by { Pow16Of8(); HexFixed(1, 8); }
    Halves(lsn, wss);
  }

  lemma {:induction false} FirstTimeline()
    ensures Hex(1, 8) == "00000001"
  {
    hide Hex, Digit;
    HexZero(7);
    assert Hex(1, 8) == Hex(0, 7) + [Digit(1)] by { HexStep(1, 8); }
    assert Digit(1) == '1' by { DigitOne(); }
  }

  lemma {:induction false} HexStep(n: nat, width: nat)
    requires width > 0
    ensures Hex(n, width) == Hex(n / 16, width - 1) + [Digit(n % 16)]
  {
  }

  lemma {:induction false} DigitOne()
    ensures Digit(1) == '1' && Digit(0) == '0'
  {
  }

  lemma {:induction false} HexZero(width: nat)
    ensures |Hex(0, width)| == width && forall k :: 0 <= k < width ==> Hex(0, width)[k] == '0'
  {
    hide Digit;
    DigitOne();
    if width > 0 { HexZero(width - 1); }
  }

  lemma {:induction false} SegNoMeans(lsn: int, wss: nat)
    requires wss > 0
    ensures SegNo(lsn, wss) == lsn / wss
  {
  }

  lemma {:induction false} LogFileMeans(n: int, wss: nat)
    requires 0 < wss <= TWO32
    ensures LogFile(n, wss) == n / PerXlogId(wss)
  {
  }

  lemma {:induction false} SlotBelow(low: nat, per: nat, wss: nat)
    requires wss > 0 && low < per * wss
    ensures low / wss < per && low / wss * wss <= low < low / wss * wss + wss
  {
    var slot := low / wss;
    assert low == slot * wss + low % wss;
    if slot >= per { MulMono(wss, per, slot); }
  }

  lemma {:induction false} Halves(lsn: nat, wss: nat)
    requires 0 < wss <= TWO32 && TWO32 % wss == 0
    ensures LogFile(SegNo(lsn, wss), wss) == lsn / TWO32
    ensures SlotInFile(SegNo(lsn, wss), wss) == lsn % TWO32 / wss
  {
    hide SegNo, LogFile, SlotInFile;
    var per, hi, low := PerXlogId(wss), lsn / TWO32, lsn % TWO32;
    assert per * wss == TWO32 by { WholeFile(wss); }
    SlotBelow(low, per, wss);
    var slot := low / wss;
    var n := hi * per + slot;
    assert n * wss == hi * TWO32 + slot * wss by { MulAssoc(hi, per, wss); MulSum(hi * per, slot, wss); }
    assert lsn == hi * TWO32 + low;
    Quotient(lsn, wss, n);
    Quotient(n, per, hi);
    SegNoMeans(lsn, wss);
    LogFileMeans(n, wss);
  }

  lemma {:induction false} WholeFile(wss: nat)
    requires 0 < wss <= TWO32 && TWO32 % wss == 0
    ensures PerXlogId(wss) * wss == TWO32
  {
  }

  lemma {:induction false} MulSum(a: nat, b: nat, k: nat)
    ensures (a + b) * k == a * k + b * k
  {
  }

  /** Sorting segment names sorts the log. */
  lemma {:induction false} NameOrder(a: int, b: int, wss: nat)
    requires 0 < wss <= TWO32 && IsName(SegName(a, wss)) && IsName(SegName(b, wss))
    ensures Before(SegName(a, wss), SegName(b, wss)) <==> SegNo(a, wss) < SegNo(b, wss)
    ensures SegName(a, wss) == SegName(b, wss) <==> SegNo(a, wss) == SegNo(b, wss)
  {
    hide SegName, SegNo, FromHex, AllDigits, NameKey, Before, Hex, LogFile;
    NameDecodes(a, wss);
    NameDecodes(b, wss);
    NameParts(a, wss);
    NameParts(b, wss);
    HexOrder(SegName(a, wss), SegName(b, wss));
    KeyOrder(SegNo(a, wss), SegNo(b, wss), wss);
    KeyOrder(SegNo(b, wss), SegNo(a, wss), wss);
  }

  lemma {:induction false} KeyOrder(m: nat, n: nat, wss: nat)
    requires 0 < wss <= TWO32
    ensures m < n ==> NameKey(m, wss) < NameKey(n, wss)
    ensures m == n ==> NameKey(m, wss) == NameKey(n, wss)
  {
    hide LogFile, SlotInFile;
    var per, hm, hn := PerXlogId(wss), LogFile(m, wss), LogFile(n, wss);
    if m < n {
      if hm > hn {
        MulMono(per, hn + 1, hm);
      } else if hm < hn {
        MulMono(TWO32, hm + 1, hn);
      }
    }
  }

  // ----- The commands ------------------------------------------------------------------------------

  /** Where to truncate so that the log ends exactly at lsn: a segment name and a byte offset. */
  function TruncationPoint(lsn: int, wss: nat): (string, int)
    requires 0 < wss <= TWO32
  {
    var off := lsn - SegNo(lsn, wss) * wss;
    if off == 0 then (SegName(lsn - 1, wss), wss) else (SegName(lsn, wss), off)
  }

  /**
  The named segment's start plus the offset is the LSN itself, and the offset is never zero. The name is
  one, of the segment that holds the byte before the LSN, exactly when there is such a byte and its log file
  has a number of eight digits: LSN 0 gives a name with a minus sign in it.
   */
  lemma {:induction false} TruncationExact(lsn: int, wss: nat)
    requires 0 < wss <= TWO32
    ensures var (name, off) := TruncationPoint(lsn, wss);
            && (IsName(name) <==> lsn > 0 && LogFile(SegNo(lsn - 1, wss), wss) < TWO32)
            && (IsName(name) ==> NamedSegment(name, wss) * wss + off == lsn)
            && (TWO32 % wss == 0 && 0 < lsn < TWO64 ==> IsName(name))
            && 1 <= off <= wss
  {
    hide SegName, NamedSegment, IsName, LogFile, SegNo;
    NameDecodes(lsn, wss);
    NameDecodes(lsn - 1, wss);
    PreviousByte(lsn, wss);
  }

  /** The byte before an LSN is in the same segment, or ends the one before. */
  lemma {:induction false} PreviousByte(lsn: int, wss: nat)
    requires wss > 0
    ensures SegNo(lsn - 1, wss) == if SegNo(lsn, wss) * wss == lsn then SegNo(lsn, wss) - 1 else SegNo(lsn, wss)
  {
    hide SegNo;
    var n := SegNo(lsn, wss);
    DivUnique(SegNo(lsn - 1, wss), if n * wss == lsn then n - 1 else n, lsn - 1, wss);
  }

  /** The segments from one LSN to another: every one, in order, none twice. */
  method SegmentRange(from: int, to: int, wss: nat) returns (names: seq<string>)
    requires 0 < wss <= TWO32
    ensures var first := if SegNo(from, wss) < 0 then 0 else SegNo(from, wss);
            var last := SegNo(to, wss);
            |names| == (if last < first then 0 else last - first + 1)
            && forall i :: 0 <= i < |names| ==>
                 && (IsName(names[i]) <==> LogFile(first + i, wss) < TWO32)
                 && (IsName(names[i]) ==> NamedSegment(names[i], wss) == first + i)
                 && (TWO32 % wss == 0 && to < TWO64 ==> IsName(names[i]))
  {
    hide SegName, NamedSegment, IsName, SegNo, LogFile;
    var a, b := SegNo(from, wss), SegNo(to, wss);
    if a < 0 { a := 0; }
    names := [];
    var n := a;
    while n <= b
      invariant a <= n && (n <= b + 1 || n == a)
      invariant |names| == n - a
      invariant forall i :: 0 <= i < |names| ==>
                  && (IsName(names[i]) <==> LogFile(a + i, wss) < TWO32)
                  && (IsName(names[i]) ==> NamedSegment(names[i], wss) == a + i)
                  && (TWO32 % wss == 0 && to < TWO64 ==> IsName(names[i]))
      decreases b - n
    {
      if n < b { Apart(n, b, wss); }
      NameDecodes(n * wss, wss);
      DivUnique(SegNo(n * wss, wss), n, n * wss, wss);
      names := names + [SegName(n * wss, wss)];
      n := n + 1;
    }
  }

  // ----- The crafted record ------------------------------------------------------------------------

  function ZeroUuid(k: nat): (s: Utf8)
    ensures |s| == k
  {
    if k == 0 then [] else
      var s: seq<bv8> := [0x30] + ZeroUuid(k - 1);
      assert s[1..] == ZeroUuid(k - 1);
      s
  }

  /** The record written to re-seed a safekeeper whose log ends at commit. */
  function Craft(tenant: Utf8, timeline: Utf8, term: int, sysid: int, pgv: int, wss: int, commit: int, startArg: int): Control {
    var start := if startArg > commit then commit else startArg;
    Control(
      Acceptor(tenant, timeline, term, [Entry(term, start)]),
      Server(pgv, sysid, wss, ZeroUuid(32)),
      Positions(start, start, commit, (commit / 0x100_0000) * 0x100_0000, commit, commit),
      Backup(0, [], 0))
  }

  /**
  The crafted record, field by field: everything that follows the end of the log is at commit, everything
  that marks its start is at the given start or at commit, whichever is lower, and nothing is backed up in part.
   */
  lemma {:induction false} CraftLaw(tenant: Utf8, timeline: Utf8, term: int, sysid: int, pgv: int, wss: int, commit: int, startArg: int)
    ensures var st := Craft(tenant, timeline, term, sysid, pgv, wss, commit, startArg);
            var p, low := st.positions, if startArg <= commit then startArg else commit;
            && p.commitLsn == p.peerHorizonLsn == p.remoteConsistentLsn == commit
            && p.timelineStartLsn == p.localStartLsn == low
            && p.backupLsn <= commit < p.backupLsn + 0x100_0000 && p.backupLsn % 0x100_0000 == 0
            && st.acceptor.tenantId == tenant && st.acceptor.timelineId == timeline && st.acceptor.term == term
            && st.acceptor.termHistory == [Entry(term, low)]
            && st.server.pgVersion == pgv && st.server.systemId == sysid && st.server.walSegSize == wss
            && |st.server.proposerUuid| == 32 && (forall k :: 0 <= k < 32 ==> st.server.proposerUuid[k] == 0x30)
            && st.backup.leading == 0 && st.backup.segments == [] && st.backup.evictionState == 0
  {
    hide ValidUtf8;
    ZeroDigits(32);
  }

  lemma {:induction false} ZeroDigits(k: nat)
    ensures forall i :: 0 <= i < k ==> ZeroUuid(k)[i] == 0x30
  {
    hide ValidUtf8;
    if k > 0 { ZeroDigits(k - 1); }
  }

  /**
  A crafted record can be packed exactly when its arguments fit the format; then the file parses
  back to it, the timeline does not start above its end, and the backed-up position is the
  start of the 16 MiB block that holds the end.
   */
  lemma {:induction false} CraftRoundTrip(tenant: Utf8, timeline: Utf8, term: int, sysid: int, pgv: int, wss: int, commit: int, startArg: int)
    requires Fits64(|tenant|) && Fits64(|timeline|)
    ensures var st := Craft(tenant, timeline, term, sysid, pgv, wss, commit, startArg);
            && (Pack(st).Ok? <==> Fits64(term) && Fits64(sysid) && Fits32(pgv) && Fits32(wss) && Fits64(commit) && startArg >= 0)
            && (Pack(st).Ok? ==> Unpack(Pack(st).value) == Ok(st))
            && st.positions.timelineStartLsn <= st.positions.commitLsn
            && st.positions.backupLsn <= commit < st.positions.backupLsn + 0x100_0000
  {
    hide Unpack, Seal, RecordBytes, Fits;
    var st := Craft(tenant, timeline, term, sysid, pgv, wss, commit, startArg);
    CraftFits(tenant, timeline, term, sysid, pgv, wss, commit, startArg);
    if Pack(st).Ok? {
      UnpackPack(st);
    }
  }

  lemma {:induction false} CraftFits(tenant: Utf8, timeline: Utf8, term: int, sysid: int, pgv: int, wss: int, commit: int, startArg: int)
    requires Fits64(|tenant|) && Fits64(|timeline|)
    ensures Fits(Craft(tenant, timeline, term, sysid, pgv, wss, commit, startArg)) <==>
              Fits64(term) && Fits64(sysid) && Fits32(pgv) && Fits32(wss) && Fits64(commit) && startArg >= 0
  {
    hide ZeroUuid, ValidUtf8;
    var st := Craft(tenant, timeline, term, sysid, pgv, wss, commit, startArg);
    var h := st.acceptor.termHistory;
    assert h[1..] == [] && (HistoryFits(h) <==> EntryFits(h[0]));
    assert SegmentsFit(st.backup.segments);
    assert 0 <= commit ==> 0 <= st.positions.backupLsn;
  }
}
