/**
Where each field of a packed control file lies, by byte offset, and which files are refused for what:
the layout the safekeeper itself reads and writes.
 */
module ControlLayout {
  import opened Wrappers
  import opened LittleEndian
  import opened ControlFormat
  import Crc32c

  /** piece is what b holds from off on. */
  predicate At(b: seq<bv8>, off: nat, piece: seq<bv8>) { off + |piece| <= |b| && b[off..off + |piece|] == piece }

  predicate NumberAt(b: seq<bv8>, off: nat, n: int, width: nat) { n >= 0 && At(b, off, ToBytes(n, width)) }

  /** A length of eight bytes, then the bytes. */
  predicate TextAt(b: seq<bv8>, off: nat, s: seq<bv8>) { NumberAt(b, off, |s|, 8) && At(b, off + 8, s) }

  predicate AcceptorAt(b: seq<bv8>, off: nat, a: Acceptor) {
    var t, l := |a.tenantId|, |a.timelineId|;
    && TextAt(b, off, a.tenantId)
    && TextAt(b, off + 8 + t, a.timelineId)
    && NumberAt(b, off + 16 + t + l, a.term, 8)
    && NumberAt(b, off + 24 + t + l, |a.termHistory|, 8)
    && HistoryAt(b, off + 32 + t + l, a.termHistory)
  }

  function AcceptorSize(a: Acceptor): nat { 32 + |a.tenantId| + |a.timelineId| + 16 * |a.termHistory| }

  predicate HistoryAt(b: seq<bv8>, off: nat, h: seq<Entry>)
    decreases |h|
  {
    |h| == 0 || (NumberAt(b, off, h[0].term, 8) && NumberAt(b, off + 8, h[0].lsn, 8) && HistoryAt(b, off + 16, h[1..]))
  }

  predicate ServerAt(b: seq<bv8>, off: nat, s: Server) {
    && NumberAt(b, off, s.pgVersion, 4)
    && NumberAt(b, off + 4, s.systemId, 8)
    && NumberAt(b, off + 12, s.walSegSize, 4)
    && TextAt(b, off + 16, s.proposerUuid)
  }

  predicate PositionsAt(b: seq<bv8>, off: nat, p: Positions) {
    && NumberAt(b, off, p.timelineStartLsn, 8)
    && NumberAt(b, off + 8, p.localStartLsn, 8)
    && NumberAt(b, off + 16, p.commitLsn, 8)
    && NumberAt(b, off + 24, p.backupLsn, 8)
    && NumberAt(b, off + 32, p.peerHorizonLsn, 8)
    && NumberAt(b, off + 40, p.remoteConsistentLsn, 8)
  }

  predicate SegmentAt(b: seq<bv8>, off: nat, s: Segment) {
    var n := |s.name|;
    && NumberAt(b, off, s.status, 4)
    && TextAt(b, off + 4, s.name)
    && NumberAt(b, off + 12 + n, s.commit, 8)
    && NumberAt(b, off + 20 + n, s.flush, 8)
    && NumberAt(b, off + 28 + n, s.term, 8)
  }

  predicate SegmentsAt(b: seq<bv8>, off: nat, ss: seq<Segment>)
    decreases |ss|
  {
    |ss| == 0 || (SegmentAt(b, off, ss[0]) && SegmentsAt(b, off + 36 + |ss[0].name|, ss[1..]))
  }

  function SegmentsSize(ss: seq<Segment>): nat { if |ss| == 0 then 0 else 36 + |ss[0].name| + SegmentsSize(ss[1..]) }

  predicate BackupAt(b: seq<bv8>, off: nat, k: Backup) {
    && NumberAt(b, off, k.leading, 8)
    && NumberAt(b, off + 8, |k.segments|, 8)
    && SegmentsAt(b, off + 16, k.segments)
    && NumberAt(b, off + 16 + SegmentsSize(k.segments), k.evictionState, 4)
  }

  // ----- Piece by piece ----------------------------------------------------------------------------------------

  lemma {:induction false} HistoryLayout(h: seq<Entry>, b: seq<bv8>, off: nat, rest: seq<bv8>)
    requires HistoryFits(h) && off <= |b| && b[off..] == HistoryBytes(h) + rest
    ensures HistoryAt(b, off, h) && off + 16 * |h| <= |b| && b[off + 16 * |h|..] == rest
    decreases |h|
  {
    hide ToBytes;
    if |h| == 0 {
      assert b[off..] == rest;
    } else {
      Pieces(b, off, U64(h[0].term), U64(h[0].lsn) + HistoryBytes(h[1..]) + rest);
      Pieces(b, off + 8, U64(h[0].lsn), HistoryBytes(h[1..]) + rest);
      HistoryLayout(h[1..], b, off + 16, rest);
    }
  }

  /** What follows one piece starts right after it. */
  lemma {:induction false} Pieces(b: seq<bv8>, off: nat, piece: seq<bv8>, rest: seq<bv8>)
    requires off <= |b| && b[off..] == piece + rest
    ensures At(b, off, piece) && off + |piece| <= |b| && b[off + |piece|..] == rest
  {
    var tail := b[off..];
    assert tail[..|piece|] == piece && tail[|piece|..] == rest;
    assert b[off..off + |piece|] == tail[..|piece|];
    assert b[off + |piece|..] == tail[|piece|..];
  }

  lemma {:induction false} NumberPiece(b: seq<bv8>, off: nat, n: nat, width: nat, rest: seq<bv8>)
    requires off <= |b| && b[off..] == ToBytes(n, width) + rest
    ensures NumberAt(b, off, n, width) && off + width <= |b| && b[off + width..] == rest
  {
    hide ToBytes;
    Pieces(b, off, ToBytes(n, width), rest);
  }

  lemma {:induction false} TextPiece(b: seq<bv8>, off: nat, s: Utf8, rest: seq<bv8>)
    requires Fits64(|s|) && off <= |b| && b[off..] == Text(s) + rest
    ensures TextAt(b, off, s) && off + 8 + |s| <= |b| && b[off + 8 + |s|..] == rest
  {
    hide ToBytes, ValidUtf8;
    assert Text(s) + rest == ToBytes(|s|, 8) + (s + rest);
    NumberPiece(b, off, |s|, 8, s + rest);
    Pieces(b, off + 8, s, rest);
  }

  lemma {:induction false} AcceptorLayout(a: Acceptor, b: seq<bv8>, off: nat, rest: seq<bv8>)
    requires AcceptorFits(a) && off <= |b| && b[off..] == AcceptorBytes(a) + rest
    ensures AcceptorAt(b, off, a) && off + AcceptorSize(a) <= |b| && b[off + AcceptorSize(a)..] == rest
  {
    hide ToBytes, ValidUtf8, Text, HistoryBytes, HistoryFits, NumberAt, TextAt, HistoryAt;
    var t, l := |a.tenantId|, |a.timelineId|;
    var r4 := HistoryBytes(a.termHistory) + rest;
    var r3 := U64(|a.termHistory|) + r4;
    var r2 := U64(a.term) + r3;
    var r1 := Text(a.timelineId) + r2;
    assert AcceptorBytes(a) + rest == Text(a.tenantId) + r1;
    TextPiece(b, off, a.tenantId, r1);
    TextPiece(b, off + 8 + t, a.timelineId, r2);
    NumberPiece(b, off + 16 + t + l, a.term, 8, r3);
    NumberPiece(b, off + 24 + t + l, |a.termHistory|, 8, r4);
    HistoryLayout(a.termHistory, b, off + 32 + t + l, rest);
  }

  lemma {:induction false} ServerLayout(s: Server, b: seq<bv8>, off: nat, rest: seq<bv8>)
    requires ServerFits(s) && off <= |b| && b[off..] == ServerBytes(s) + rest
    ensures ServerAt(b, off, s) && off + 24 + |s.proposerUuid| <= |b| && b[off + 24 + |s.proposerUuid|..] == rest
  {
    hide ToBytes, ValidUtf8, Text, NumberAt, TextAt;
    var r3 := Text(s.proposerUuid) + rest;
    var r2 := U32(s.walSegSize) + r3;
    var r1 := U64(s.systemId) + r2;
    assert ServerBytes(s) + rest == U32(s.pgVersion) + r1;
    NumberPiece(b, off, s.pgVersion, 4, r1);
    NumberPiece(b, off + 4, s.systemId, 8, r2);
    NumberPiece(b, off + 12, s.walSegSize, 4, r3);
    TextPiece(b, off + 16, s.proposerUuid, rest);
  }

  lemma {:induction false} PositionsLayout(p: Positions, b: seq<bv8>, off: nat, rest: seq<bv8>)
    requires PositionsFit(p) && off <= |b| && b[off..] == PositionsBytes(p) + rest
    ensures PositionsAt(b, off, p) && off + 48 <= |b| && b[off + 48..] == rest
  {
    hide ToBytes, NumberAt;
    var r5 := U64(p.remoteConsistentLsn) + rest;
    var r4 := U64(p.peerHorizonLsn) + r5;
    var r3 := U64(p.backupLsn) + r4;
    var r2 := U64(p.commitLsn) + r3;
    var r1 := U64(p.localStartLsn) + r2;
    assert PositionsBytes(p) + rest == U64(p.timelineStartLsn) + r1;
    NumberPiece(b, off, p.timelineStartLsn, 8, r1);
    NumberPiece(b, off + 8, p.localStartLsn, 8, r2);
    NumberPiece(b, off + 16, p.commitLsn, 8, r3);
    NumberPiece(b, off + 24, p.backupLsn, 8, r4);
    NumberPiece(b, off + 32, p.peerHorizonLsn, 8, r5);
    NumberPiece(b, off + 40, p.remoteConsistentLsn, 8, rest);
  }

  lemma {:induction false} SegmentLayout(s: Segment, b: seq<bv8>, off: nat, rest: seq<bv8>)
    requires SegmentFits(s) && off <= |b| && b[off..] == SegmentBytes(s) + rest
    ensures SegmentAt(b, off, s) && off + 36 + |s.name| <= |b| && b[off + 36 + |s.name|..] == rest
  {
    hide ToBytes, ValidUtf8, Text, NumberAt, TextAt;
    var r4 := U64(s.term) + rest;
    var r3 := U64(s.flush) + r4;
    var r2 := U64(s.commit) + r3;
    var r1 := Text(s.name) + r2;
    assert SegmentBytes(s) + rest == U32(s.status) + r1;
    NumberPiece(b, off, s.status, 4, r1);
    TextPiece(b, off + 4, s.name, r2);
    NumberPiece(b, off + 12 + |s.name|, s.commit, 8, r3);
    NumberPiece(b, off + 20 + |s.name|, s.flush, 8, r4);
    NumberPiece(b, off + 28 + |s.name|, s.term, 8, rest);
  }

  lemma {:induction false} SegmentsLayout(ss: seq<Segment>, b: seq<bv8>, off: nat, rest: seq<bv8>)
    requires SegmentsFit(ss) && off <= |b| && b[off..] == SegmentsBytes(ss) + rest
    ensures SegmentsAt(b, off, ss) && off + SegmentsSize(ss) <= |b| && b[off + SegmentsSize(ss)..] == rest
    decreases |ss|
  {
    hide SegmentBytes, SegmentFits, SegmentAt;
    if |ss| == 0 {
      assert b[off..] == rest;
    } else {
      var r := SegmentsBytes(ss[1..]) + rest;
      assert SegmentsBytes(ss) + rest == SegmentBytes(ss[0]) + r;
      SegmentLayout(ss[0], b, off, r);
      SegmentsLayout(ss[1..], b, off + 36 + |ss[0].name|, rest);
    }
  }

  lemma {:induction false} BackupLayout(k: Backup, b: seq<bv8>, off: nat, rest: seq<bv8>)
    requires BackupFits(k) && off <= |b| && b[off..] == BackupBytes(k) + rest
    ensures BackupAt(b, off, k) && off + 20 + SegmentsSize(k.segments) <= |b|
    ensures b[off + 20 + SegmentsSize(k.segments)..] == rest
  {
    hide ToBytes, SegmentsBytes, SegmentsFit, SegmentsAt, NumberAt, SegmentsSize;
    var r3 := U32(k.evictionState) + rest;
    var r2 := SegmentsBytes(k.segments) + r3;
    var r1 := U64(|k.segments|) + r2;
    assert BackupBytes(k) + rest == U64(k.leading) + r1;
    NumberPiece(b, off, k.leading, 8, r1);
    NumberPiece(b, off + 8, |k.segments|, 8, r2);
    SegmentsLayout(k.segments, b, off + 16, r3);
    NumberPiece(b, off + 16 + SegmentsSize(k.segments), k.evictionState, 4, rest);
  }

  // ----- The whole file -----------------------------------------------------------------------------------------

  /** The magic number 0xCAFECEEF and version 9, lowest byte first. */
  const HEADER: seq<bv8> := [0xEF, 0xCE, 0xFE, 0xCA, 9, 0, 0, 0]

  lemma {:induction false} HeaderBytes()
    ensures Header() == HEADER
  {
    hide Byte;
    FourBytes(0xCAFECEEF, 0xEF, 0xCE, 0xFE, 0xCA);
    FourBytes(9, 9, 0, 0, 0);
  }

  lemma {:induction false} FourBytes(n: nat, b0: bv8, b1: bv8, b2: bv8, b3: bv8)
    requires n == Value(b0) + 256 * (Value(b1) + 256 * (Value(b2) + 256 * Value(b3)))
    ensures ToBytes(n, 4) == [b0, b1, b2, b3]
  {
    hide Byte, Value, ToBytes;
    var b := [b0, b1, b2, b3];
    assert b[1..] == [b1, b2, b3] && b[1..][1..] == [b2, b3] && b[1..][1..][1..] == [b3] && b[1..][1..][1..][1..] == [];
    assert FromBytes([b3]) == Value(b3);
    assert FromBytes([b2, b3]) == Value(b2) + 256 * FromBytes([b3]);
    assert FromBytes([b1, b2, b3]) == Value(b1) + 256 * FromBytes([b2, b3]);
    ToFromBytes(b);
  }

  /** The four sections, one after the other. */
  predicate RecordAt(b: seq<bv8>, off: nat, st: Control) {
    var server := off + AcceptorSize(st.acceptor);
    var positions := server + 24 + |st.server.proposerUuid|;
    && AcceptorAt(b, off, st.acceptor) && ServerAt(b, server, st.server)
    && PositionsAt(b, positions, st.positions) && BackupAt(b, positions + 48, st.backup)
  }

  function RecordSize(st: Control): nat {
    AcceptorSize(st.acceptor) + 24 + |st.server.proposerUuid| + 48 + 20 + SegmentsSize(st.backup.segments)
  }

  lemma {:induction false} RecordLayout(st: Control, b: seq<bv8>, off: nat, rest: seq<bv8>)
    requires Fits(st) && off <= |b| && b[off..] == RecordBytes(st) + rest
    ensures RecordAt(b, off, st) && off + RecordSize(st) <= |b| && b[off + RecordSize(st)..] == rest
  {
    hide AcceptorBytes, ServerBytes, PositionsBytes, BackupBytes, AcceptorAt, ServerAt, PositionsAt, BackupAt,
         AcceptorSize, SegmentsSize, AcceptorFits, ServerFits, PositionsFit, BackupFits;
    var r3 := BackupBytes(st.backup) + rest;
    var r2 := PositionsBytes(st.positions) + r3;
    var r1 := ServerBytes(st.server) + r2;
    assert RecordBytes(st) + rest == AcceptorBytes(st.acceptor) + r1;
    var server := off + AcceptorSize(st.acceptor);
    var positions := server + 24 + |st.server.proposerUuid|;
    AcceptorLayout(st.acceptor, b, off, r1);
    ServerLayout(st.server, b, server, r2);
    PositionsLayout(st.positions, b, positions, r3);
    BackupLayout(st.backup, b, positions + 48, rest);
  }

  /**
  The file, byte by byte: the header, the acceptor, the server, the six positions, the backup, and in the
  last four bytes the checksum of everything before them.
   */
  lemma {:induction false} FileLayout(st: Control)
    requires Fits(st)
    ensures Pack(st).Ok?
    ensures var b := Pack(st).value;
            && At(b, 0, [0xEF, 0xCE, 0xFE, 0xCA, 9, 0, 0, 0]) && RecordAt(b, 8, st)
            && |b| == 8 + RecordSize(st) + 4
            && b[|b| - 4..] == Crc32c.WordBytes(Crc32c.Checksum(b[..|b| - 4]))
  {
    hide RecordBytes, RecordAt, RecordSize, Header, Fits, Crc32c.Checksum, Crc32c.WordBytes, ToBytes, At;
    var body := Header() + RecordBytes(st);
    var trailer := Crc32c.WordBytes(Crc32c.Checksum(body));
    var b := body + trailer;
    HeaderBytes();
    assert b[0..] == HEADER + (RecordBytes(st) + trailer);
    Pieces(b, 0, HEADER, RecordBytes(st) + trailer);
    RecordLayout(st, b, 8, trailer);
    assert b[..|b| - 4] == body && b[|b| - 4..] == trailer;
  }

  /** What is refused before anything is parsed: a short file, another magic number, another version, a wrong checksum. */
  lemma {:induction false} Refusals(b: seq<bv8>)
    ensures |b| < 12 <==> Unpack(b) == Err(TooShort)
    ensures |b| >= 12 && b[..4] != [0xEF, 0xCE, 0xFE, 0xCA] <==> Unpack(b) == Err(BadMagic)
    ensures |b| >= 12 && b[..4] == [0xEF, 0xCE, 0xFE, 0xCA] && b[4..8] != [9, 0, 0, 0] <==> Unpack(b) == Err(BadVersion)
    ensures |b| >= 12 && b[..8] == HEADER && Crc32c.Checksum(b[..|b| - 4]) != Crc32c.Word(b[|b| - 4..]) <==>
              Unpack(b) == Err(CrcMismatch)
  {
    hide TakeRecord, Crc32c.Checksum, Crc32c.Word, FromBytes, ToBytes, Header;
    HeaderValue();
    HeaderBytes();
    assert HEADER[..4] == [0xEF, 0xCE, 0xFE, 0xCA] && HEADER[4..] == [9, 0, 0, 0];
    if |b| >= 12 {
      SameNumber(b[..4], HEADER[..4]);
      SameNumber(b[4..8], HEADER[4..]);
      assert b[..8] == b[..4] + b[4..8] && HEADER == HEADER[..4] + HEADER[4..];
      NoHeaderErrors(b[8..|b| - 4]);
    }
  }

  lemma {:induction false} SameNumber(x: seq<bv8>, y: seq<bv8>)
    requires |x| == |y|
    ensures FromBytes(x) == FromBytes(y) <==> x == y
  {
    hide FromBytes, ToBytes;
    ToFromBytes(x);
    ToFromBytes(y);
  }

  /** The record's own errors are others. */
  predicate RecordError(e: FormatError) { e == Truncated || e == NotUtf8 }

  lemma {:induction false} NumberErrors(r: seq<bv8>, width: nat)
    ensures TakeNumber(r, width).Err? ==> TakeNumber(r, width).error == Truncated
  {
  }

  lemma {:induction false} TextErrors(r: seq<bv8>)
    ensures TakeText(r).Err? ==> RecordError(TakeText(r).error)
  {
    hide ValidUtf8;
  }

  lemma {:induction false} HistoryErrors(r: seq<bv8>, n: nat)
    ensures TakeHistory(r, n).Err? ==> RecordError(TakeHistory(r, n).error)
    decreases n
  {
    hide FromBytes;
    if n > 0 && TakeEntry(r).Ok? { HistoryErrors(TakeEntry(r).value.1, n - 1); }
  }

  lemma {:induction false} SegmentErrors(r: seq<bv8>)
    ensures TakeSegment(r).Err? ==> RecordError(TakeSegment(r).error)
  {
    hide FromBytes, ValidUtf8;
  }

  lemma {:induction false} SegmentsErrors(r: seq<bv8>, n: nat)
    ensures TakeSegments(r, n).Err? ==> RecordError(TakeSegments(r, n).error)
    decreases n
  {
    hide TakeSegment;
    SegmentErrors(r);
    if n > 0 && TakeSegment(r).Ok? { SegmentsErrors(TakeSegment(r).value.1, n - 1); }
  }

  lemma {:induction false} AcceptorErrors(r: seq<bv8>)
    ensures TakeAcceptor(r).Err? ==> RecordError(TakeAcceptor(r).error)
  {
    hide FromBytes, ValidUtf8, TakeHistory;
    forall r, n: nat
      ensures TakeHistory(r, n).Err? ==> RecordError(TakeHistory(r, n).error)
    {
      HistoryErrors(r, n);
    }
  }

  lemma {:induction false} ServerErrors(r: seq<bv8>)
    ensures TakeServer(r).Err? ==> RecordError(TakeServer(r).error)
    ensures TakePositions(r).Err? ==> RecordError(TakePositions(r).error)
  {
    hide FromBytes, ValidUtf8;
  }

  lemma {:induction false} BackupErrors(r: seq<bv8>)
    ensures TakeBackup(r).Err? ==> RecordError(TakeBackup(r).error)
  {
    hide FromBytes, TakeSegments;
    forall r, n: nat
      ensures TakeSegments(r, n).Err? ==> RecordError(TakeSegments(r, n).error)
    {
      SegmentsErrors(r, n);
    }
  }

  lemma {:induction false} NoHeaderErrors(r: seq<bv8>)
    ensures TakeRecord(r).Err? ==> RecordError(TakeRecord(r).error)
  {
    hide TakeAcceptor, TakeServer, TakePositions, TakeBackup;
    AcceptorErrors(r);
    if TakeAcceptor(r).Ok? {
      var r1 := TakeAcceptor(r).value.1;
      ServerErrors(r1);
      if TakeServer(r1).Ok? {
        var r2 := TakeServer(r1).value.1;
        ServerErrors(r2);
        if TakePositions(r2).Ok? { BackupErrors(TakePositions(r2).value.1); }
      }
    }
  }
}
