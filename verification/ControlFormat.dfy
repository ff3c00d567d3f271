/**
The safekeeper.control format: one versioned binary record sealed by a CRC32C trailer, as a
printing function and a parsing function, with the proof that each undoes the other.

Strings are kept as the bytes of their UTF-8 encoding, so that encoding a string is the
identity and decoding one either accepts its bytes unchanged or fails.
 */
module ControlFormat {
  import opened Wrappers
  import opened LittleEndian
  import Crc32c

  const MAGIC: nat := 0xCAFECEEF
  const VERSION: nat := 9

  // ----- The record -------------------------------------------------------------------------

  predicate Continuation(b: bv8) { 0x80 <= b <= 0xBF }

  /** Well-formed UTF-8: no overlong forms, no surrogates, nothing above U+10FFFF. */
  predicate ValidUtf8(s: seq<bv8>) {
    if |s| == 0 then true
    else if s[0] <= 0x7F then ValidUtf8(s[1..])
    else if 0xC2 <= s[0] <= 0xDF then |s| >= 2 && Continuation(s[1]) && ValidUtf8(s[2..])
    else if 0xE0 <= s[0] <= 0xEF then
      |s| >= 3 && Continuation(s[1]) && Continuation(s[2])
      && (s[0] == 0xE0 ==> s[1] >= 0xA0) && (s[0] == 0xED ==> s[1] <= 0x9F)
      && ValidUtf8(s[3..])
    else if 0xF0 <= s[0] <= 0xF4 then
      |s| >= 4 && Continuation(s[1]) && Continuation(s[2]) && Continuation(s[3])
      && (s[0] == 0xF0 ==> s[1] >= 0x90) && (s[0] == 0xF4 ==> s[1] <= 0x8F)
      && ValidUtf8(s[4..])
    else false
  }

  type Utf8 = s: seq<bv8> | ValidUtf8(s) witness []

  datatype Entry = Entry(term: int, lsn: int)

  datatype Acceptor = Acceptor(tenantId: Utf8, timelineId: Utf8, term: int, termHistory: seq<Entry>)

  datatype Server = Server(pgVersion: int, systemId: int, walSegSize: int, proposerUuid: Utf8)

  datatype Positions = Positions(
    timelineStartLsn: int, localStartLsn: int, commitLsn: int,
    backupLsn: int, peerHorizonLsn: int, remoteConsistentLsn: int)

  datatype Segment = Segment(status: int, name: Utf8, commit: int, flush: int, term: int)

  datatype Backup = Backup(leading: int, segments: seq<Segment>, evictionState: int)

  datatype Control = Control(acceptor: Acceptor, server: Server, positions: Positions, backup: Backup)

  datatype FormatError =
    | TooShort | BadMagic | BadVersion | CrcMismatch | Truncated | TrailingBytes
    | NotUtf8       // the decoder's own exception
    | OutOfRange    // the packer's struct.error

  type Outcome<T> = Result<T, FormatError>

  // ----- What fits the format ------------------------------------------------------------------

  predicate Fits32(n: int) { 0 <= n < 0x1_0000_0000 }

  predicate Fits64(n: int) { 0 <= n < 0x1_0000_0000_0000_0000 }

  predicate EntryFits(e: Entry) { Fits64(e.term) && Fits64(e.lsn) }

  predicate HistoryFits(h: seq<Entry>) {
    |h| == 0 || (EntryFits(h[0]) && HistoryFits(h[1..]))
  }

  predicate AcceptorFits(a: Acceptor) {
    Fits64(|a.tenantId|) && Fits64(|a.timelineId|) && Fits64(a.term) && Fits64(|a.termHistory|)
    && HistoryFits(a.termHistory)
  }

  predicate ServerFits(s: Server) {
    Fits32(s.pgVersion) && Fits64(s.systemId) && Fits32(s.walSegSize) && Fits64(|s.proposerUuid|)
  }

  predicate PositionsFit(p: Positions) {
    Fits64(p.timelineStartLsn) && Fits64(p.localStartLsn) && Fits64(p.commitLsn)
    && Fits64(p.backupLsn) && Fits64(p.peerHorizonLsn) && Fits64(p.remoteConsistentLsn)
  }

  predicate SegmentFits(s: Segment) {
    Fits32(s.status) && Fits64(|s.name|) && Fits64(s.commit) && Fits64(s.flush) && Fits64(s.term)
  }

  predicate SegmentsFit(ss: seq<Segment>) {
    |ss| == 0 || (SegmentFits(ss[0]) && SegmentsFit(ss[1..]))
  }

  predicate BackupFits(b: Backup) {
    Fits64(b.leading) && Fits64(|b.segments|) && Fits32(b.evictionState) && SegmentsFit(b.segments)
  }

  predicate Fits(st: Control) {
    AcceptorFits(st.acceptor) && ServerFits(st.server) && PositionsFit(st.positions) && BackupFits(st.backup)
  }

  // ----- The byte layout --------------------------------------------------------------------

  function U32(n: int): seq<bv8>
    requires Fits32(n)
  {
    ToBytes(n, 4)
  }

  function U64(n: int): seq<bv8>
    requires Fits64(n)
  {
    ToBytes(n, 8)
  }

  function Text(s: Utf8): seq<bv8>
    requires Fits64(|s|)
  {
    U64(|s|) + s
  }

  function EntryBytes(e: Entry): seq<bv8>
    requires EntryFits(e)
  {
    U64(e.term) + U64(e.lsn)
  }

  function HistoryBytes(h: seq<Entry>): seq<bv8>
    requires HistoryFits(h)
  {
    if |h| == 0 then [] else EntryBytes(h[0]) + HistoryBytes(h[1..])
  }

  function SegmentBytes(s: Segment): seq<bv8>
    requires SegmentFits(s)
  {
    U32(s.status) + (Text(s.name) + (U64(s.commit) + (U64(s.flush) + U64(s.term))))
  }

  function SegmentsBytes(ss: seq<Segment>): seq<bv8>
    requires SegmentsFit(ss)
  {
    if |ss| == 0 then [] else SegmentBytes(ss[0]) + SegmentsBytes(ss[1..])
  }

  function AcceptorBytes(a: Acceptor): seq<bv8>
    requires AcceptorFits(a)
  {
    Text(a.tenantId) + (Text(a.timelineId) + (U64(a.term) + (U64(|a.termHistory|) + HistoryBytes(a.termHistory))))
  }

  function ServerBytes(s: Server): seq<bv8>
    requires ServerFits(s)
  {
    U32(s.pgVersion) + (U64(s.systemId) + (U32(s.walSegSize) + Text(s.proposerUuid)))
  }

  function PositionsBytes(p: Positions): seq<bv8>
    requires PositionsFit(p)
  {
    U64(p.timelineStartLsn) + (U64(p.localStartLsn) + (U64(p.commitLsn)
      + (U64(p.backupLsn) + (U64(p.peerHorizonLsn) + U64(p.remoteConsistentLsn)))))
  }

  function BackupBytes(b: Backup): seq<bv8>
    requires BackupFits(b)
  {
    U64(b.leading) + (U64(|b.segments|) + (SegmentsBytes(b.segments) + U32(b.evictionState)))
  }

  function RecordBytes(st: Control): seq<bv8>
    requires Fits(st)
  {
    AcceptorBytes(st.acceptor) + (ServerBytes(st.server) + (PositionsBytes(st.positions) + BackupBytes(st.backup)))
  }

  function Header(): seq<bv8> { U32(MAGIC) + U32(VERSION) }

  function Seal(b: seq<bv8>): seq<bv8> { b + Crc32c.WordBytes(Crc32c.Checksum(b)) }

  function Pack(st: Control): Outcome<seq<bv8>> {
    if Fits(st) then Ok(Seal(Header() + RecordBytes(st))) else Err(OutOfRange)
  }

  // ----- The parser, over the bytes that are left before the trailer ------------------------------

  type Parsed<T> = Outcome<(T, seq<bv8>)>

  function TakeNumber(rest: seq<bv8>, width: nat): Parsed<nat> {
    if |rest| < width then Err(Truncated) else Ok((FromBytes(rest[..width]), rest[width..]))
  }

  function TakeText(rest: seq<bv8>): Parsed<Utf8> {
    var (n, r) :- TakeNumber(rest, 8);
    if |r| < n then Err(Truncated)
    else if !ValidUtf8(r[..n]) then Err(NotUtf8)
    else Ok((r[..n], r[n..]))
  }

  function TakeEntry(rest: seq<bv8>): Parsed<Entry> {
    var (term, r1) :- TakeNumber(rest, 8);
    var (lsn, r2) :- TakeNumber(r1, 8);
    Ok((Entry(term, lsn), r2))
  }

  function TakeHistory(rest: seq<bv8>, n: nat): Parsed<seq<Entry>>
    decreases n
  {
    if n == 0 then Ok(([], rest)) else
      var (e, r1) :- TakeEntry(rest);
      var (tail, r) :- TakeHistory(r1, n - 1);
      Ok(([e] + tail, r))
  }

  function TakeSegment(rest: seq<bv8>): Parsed<Segment> {
    var (status, r1) :- TakeNumber(rest, 4);
    var (name, r2) :- TakeText(r1);
    var (commit, r3) :- TakeNumber(r2, 8);
    var (flush, r4) :- TakeNumber(r3, 8);
    var (term, r5) :- TakeNumber(r4, 8);
    Ok((Segment(status, name, commit, flush, term), r5))
  }

  function TakeSegments(rest: seq<bv8>, n: nat): Parsed<seq<Segment>>
    decreases n
  {
    if n == 0 then Ok(([], rest)) else
      var (s, r1) :- TakeSegment(rest);
      var (tail, r) :- TakeSegments(r1, n - 1);
      Ok(([s] + tail, r))
  }

  function TakeAcceptor(rest: seq<bv8>): Parsed<Acceptor> {
    var (tenant, r1) :- TakeText(rest);
    var (timeline, r2) :- TakeText(r1);
    var (term, r3) :- TakeNumber(r2, 8);
    var (nhist, r4) :- TakeNumber(r3, 8);
    var (history, r5) :- TakeHistory(r4, nhist);
    Ok((Acceptor(tenant, timeline, term, history), r5))
  }

  function TakeServer(rest: seq<bv8>): Parsed<Server> {
    var (pg, r1) :- TakeNumber(rest, 4);
    var (sysid, r2) :- TakeNumber(r1, 8);
    var (wss, r3) :- TakeNumber(r2, 4);
    var (uuid, r4) :- TakeText(r3);
    Ok((Server(pg, sysid, wss, uuid), r4))
  }

  function TakePositions(rest: seq<bv8>): Parsed<Positions> {
    var (timelineStart, r1) :- TakeNumber(rest, 8);
    var (localStart, r2) :- TakeNumber(r1, 8);
    var (commit, r3) :- TakeNumber(r2, 8);
    var (backup, r4) :- TakeNumber(r3, 8);
    var (horizon, r5) :- TakeNumber(r4, 8);
    var (remote, r6) :- TakeNumber(r5, 8);
    Ok((Positions(timelineStart, localStart, commit, backup, horizon, remote), r6))
  }

  function TakeBackup(rest: seq<bv8>): Parsed<Backup> {
    var (leading, r1) :- TakeNumber(rest, 8);
    var (nsegs, r2) :- TakeNumber(r1, 8);
    var (segments, r3) :- TakeSegments(r2, nsegs);
    var (eviction, r4) :- TakeNumber(r3, 4);
    Ok((Backup(leading, segments, eviction), r4))
  }

  function TakeRecord(rest: seq<bv8>): Parsed<Control> {
    var (acceptor, r1) :- TakeAcceptor(rest);
    var (server, r2) :- TakeServer(r1);
    var (positions, r3) :- TakePositions(r2);
    var (backup, r4) :- TakeBackup(r3);
    Ok((Control(acceptor, server, positions, backup), r4))
  }

  function Unpack(b: seq<bv8>): Outcome<Control> {
    if |b| < 12 then Err(TooShort)
    else if FromBytes(b[..4]) != MAGIC then Err(BadMagic)
    else if FromBytes(b[4..8]) != VERSION then Err(BadVersion)
    else if !Crc32c.Sealed(b) then Err(CrcMismatch)
    else
      var (st, left) :- TakeRecord(b[8..|b| - 4]);
      if left != [] then Err(TrailingBytes) else Ok(st)
  }

  // ----- Every piece: what was printed is what is parsed --------------------------------------------

  lemma {:induction false} NumberPrinted(n: nat, width: nat, rest: seq<bv8>)
    requires n < Pow256(width)
    ensures TakeNumber(ToBytes(n, width) + rest, width) == Ok((n, rest))
  {
    var b := ToBytes(n, width) + rest;
    assert b[..width] == ToBytes(n, width) && b[width..] == rest;
    FromToBytes(n, width);
  }

  lemma {:induction false} U32Printed(n: int, rest: seq<bv8>)
    requires Fits32(n)
    ensures TakeNumber(U32(n) + rest, 4) == Ok((n, rest))
  {
    Widths();
    NumberPrinted(n, 4, rest);
  }

  lemma {:induction false} U64Printed(n: int, rest: seq<bv8>)
    requires Fits64(n)
    ensures TakeNumber(U64(n) + rest, 8) == Ok((n, rest))
  {
    Widths();
    NumberPrinted(n, 8, rest);
  }

  lemma {:induction false} TextPrinted(s: Utf8, rest: seq<bv8>)
    requires Fits64(|s|)
    ensures TakeText(Text(s) + rest) == Ok((s, rest))
  {
    hide ValidUtf8;
    assert Text(s) + rest == U64(|s|) + (s + rest);
    U64Printed(|s|, s + rest);
    assert (s + rest)[..|s|] == s && (s + rest)[|s|..] == rest;
  }

  lemma {:induction false} EntryPrinted(e: Entry, rest: seq<bv8>)
    requires EntryFits(e)
    ensures TakeEntry(EntryBytes(e) + rest) == Ok((e, rest))
  {
    hide TakeNumber, U64;
    assert EntryBytes(e) + rest == U64(e.term) + (U64(e.lsn) + rest);
    U64Printed(e.term, U64(e.lsn) + rest);
    U64Printed(e.lsn, rest);
  }

  lemma {:induction false} HistoryPrinted(h: seq<Entry>, rest: seq<bv8>)
    requires HistoryFits(h)
    ensures TakeHistory(HistoryBytes(h) + rest, |h|) == Ok((h, rest))
  {
    hide TakeEntry, EntryBytes, EntryFits;
    if |h| == 0 {
      assert HistoryBytes(h) + rest == rest;
    } else {
      var tail := HistoryBytes(h[1..]) + rest;
      assert HistoryBytes(h) + rest == EntryBytes(h[0]) + tail;
      EntryPrinted(h[0], tail);
      HistoryPrinted(h[1..], rest);
      assert [h[0]] + h[1..] == h;
    }
  }

  lemma {:induction false} SegmentPrinted(s: Segment, rest: seq<bv8>)
    requires SegmentFits(s)
    ensures TakeSegment(SegmentBytes(s) + rest) == Ok((s, rest))
  {
    hide TakeNumber, TakeText, Text, U64, U32;
    var t4 := U64(s.term) + rest;
    var t3 := U64(s.flush) + t4;
    var t2 := U64(s.commit) + t3;
    var t1 := Text(s.name) + t2;
    assert SegmentBytes(s) + rest == U32(s.status) + t1;
    U32Printed(s.status, t1);
    TextPrinted(s.name, t2);
    U64Printed(s.commit, t3);
    U64Printed(s.flush, t4);
    U64Printed(s.term, rest);
  }

  lemma {:induction false} SegmentsPrinted(ss: seq<Segment>, rest: seq<bv8>)
    requires SegmentsFit(ss)
    ensures TakeSegments(SegmentsBytes(ss) + rest, |ss|) == Ok((ss, rest))
  {
    hide TakeSegment, SegmentBytes, SegmentFits;
    if |ss| == 0 {
      assert SegmentsBytes(ss) + rest == rest;
    } else {
      var tail := SegmentsBytes(ss[1..]) + rest;
      assert SegmentsBytes(ss) + rest == SegmentBytes(ss[0]) + tail;
      SegmentPrinted(ss[0], tail);
      SegmentsPrinted(ss[1..], rest);
      assert [ss[0]] + ss[1..] == ss;
    }
  }

  lemma {:induction false} AcceptorPrinted(a: Acceptor, rest: seq<bv8>)
    requires AcceptorFits(a)
    ensures TakeAcceptor(AcceptorBytes(a) + rest) == Ok((a, rest))
  {
    hide TakeNumber, TakeText, TakeHistory, Text, U64, HistoryBytes;
    var t4 := HistoryBytes(a.termHistory) + rest;
    var t3 := U64(|a.termHistory|) + t4;
    var t2 := U64(a.term) + t3;
    var t1 := Text(a.timelineId) + t2;
    assert AcceptorBytes(a) + rest == Text(a.tenantId) + t1;
    TextPrinted(a.tenantId, t1);
    TextPrinted(a.timelineId, t2);
    U64Printed(a.term, t3);
    U64Printed(|a.termHistory|, t4);
    HistoryPrinted(a.termHistory, rest);
  }

  lemma {:induction false} ServerPrinted(s: Server, rest: seq<bv8>)
    requires ServerFits(s)
    ensures TakeServer(ServerBytes(s) + rest) == Ok((s, rest))
  {
    hide TakeNumber, TakeText, Text, U64, U32;
    var t3 := Text(s.proposerUuid) + rest;
    var t2 := U32(s.walSegSize) + t3;
    var t1 := U64(s.systemId) + t2;
    assert ServerBytes(s) + rest == U32(s.pgVersion) + t1;
    U32Printed(s.pgVersion, t1);
    U64Printed(s.systemId, t2);
    U32Printed(s.walSegSize, t3);
    TextPrinted(s.proposerUuid, rest);
  }

  lemma {:induction false} PositionsPrinted(p: Positions, rest: seq<bv8>)
    requires PositionsFit(p)
    ensures TakePositions(PositionsBytes(p) + rest) == Ok((p, rest))
  {
    hide TakeNumber, U64;
    var t5 := U64(p.remoteConsistentLsn) + rest;
    var t4 := U64(p.peerHorizonLsn) + t5;
    var t3 := U64(p.backupLsn) + t4;
    var t2 := U64(p.commitLsn) + t3;
    var t1 := U64(p.localStartLsn) + t2;
    assert PositionsBytes(p) + rest == U64(p.timelineStartLsn) + t1;
    U64Printed(p.timelineStartLsn, t1);
    U64Printed(p.localStartLsn, t2);
    U64Printed(p.commitLsn, t3);
    U64Printed(p.backupLsn, t4);
    U64Printed(p.peerHorizonLsn, t5);
    U64Printed(p.remoteConsistentLsn, rest);
  }

  lemma {:induction false} BackupPrinted(b: Backup, rest: seq<bv8>)
    requires BackupFits(b)
    ensures TakeBackup(BackupBytes(b) + rest) == Ok((b, rest))
  {
    hide TakeNumber, TakeSegments, U64, U32, SegmentsBytes, SegmentFits;
    var t3 := U32(b.evictionState) + rest;
    var t2 := SegmentsBytes(b.segments) + t3;
    var t1 := U64(|b.segments|) + t2;
    assert BackupBytes(b) + rest == U64(b.leading) + t1;
    U64Printed(b.leading, t1);
    U64Printed(|b.segments|, t2);
    SegmentsPrinted(b.segments, t3);
    U32Printed(b.evictionState, rest);
  }

  lemma {:induction false} RecordPrinted(st: Control, rest: seq<bv8>)
    requires Fits(st)
    ensures TakeRecord(RecordBytes(st) + rest) == Ok((st, rest))
  {
    hide TakeAcceptor, TakeServer, TakePositions, TakeBackup;
    hide AcceptorBytes, ServerBytes, PositionsBytes, BackupBytes;
    hide AcceptorFits, ServerFits, PositionsFit, BackupFits;
    var t3 := BackupBytes(st.backup) + rest;
    var t2 := PositionsBytes(st.positions) + t3;
    var t1 := ServerBytes(st.server) + t2;
    assert RecordBytes(st) + rest == AcceptorBytes(st.acceptor) + t1;
    AcceptorPrinted(st.acceptor, t1);
    ServerPrinted(st.server, t2);
    PositionsPrinted(st.positions, t3);
    BackupPrinted(st.backup, rest);
  }

  // ----- Every piece: what is parsed is what would be printed ----------------------------------------

  lemma {:induction false} NumberParsed(rest: seq<bv8>, width: nat)
    requires TakeNumber(rest, width).Ok?
    ensures var (n, r) := TakeNumber(rest, width).value;
            n < Pow256(width) && rest == ToBytes(n, width) + r
  {
    assert rest == rest[..width] + rest[width..];
    ToFromBytes(rest[..width]);
  }

  lemma {:induction false} U32Parsed(rest: seq<bv8>)
    requires TakeNumber(rest, 4).Ok?
    ensures var (n, r) := TakeNumber(rest, 4).value;
            Fits32(n) && rest == U32(n) + r
  {
    Widths();
    NumberParsed(rest, 4);
  }

  lemma {:induction false} U64Parsed(rest: seq<bv8>)
    requires TakeNumber(rest, 8).Ok?
    ensures var (n, r) := TakeNumber(rest, 8).value;
            Fits64(n) && rest == U64(n) + r
  {
    Widths();
    NumberParsed(rest, 8);
  }

  lemma {:induction false} TextParsed(rest: seq<bv8>)
    requires TakeText(rest).Ok?
    ensures var (s, r) := TakeText(rest).value;
            Fits64(|s|) && rest == Text(s) + r
  {
    hide ValidUtf8, U64;
    U64Parsed(rest);
    var (n, r) := TakeNumber(rest, 8).value;
    assert r == r[..n] + r[n..];
    assert rest == U64(n) + (r[..n] + r[n..]) == (U64(n) + r[..n]) + r[n..];
  }

  lemma {:induction false} EntryParsed(rest: seq<bv8>)
    requires TakeEntry(rest).Ok?
    ensures var (e, r) := TakeEntry(rest).value;
            EntryFits(e) && rest == EntryBytes(e) + r
  {
    hide TakeNumber, U64;
    var (e, r) := TakeEntry(rest).value;
    U64Parsed(rest);
    U64Parsed(TakeNumber(rest, 8).value.1);
    assert rest == U64(e.term) + (U64(e.lsn) + r);
  }

  lemma {:induction false} HistoryParsed(rest: seq<bv8>, n: nat)
    requires TakeHistory(rest, n).Ok?
    ensures var (h, r) := TakeHistory(rest, n).value;
            |h| == n && HistoryFits(h) && rest == HistoryBytes(h) + r
    decreases n
  {
    hide TakeEntry, EntryBytes, EntryFits;
    var (h, r) := TakeHistory(rest, n).value;
    if n == 0 {
      assert rest == [] + rest;
    } else {
      EntryParsed(rest);
      var (e, r1) := TakeEntry(rest).value;
      HistoryParsed(r1, n - 1);
      assert h[0] == e && h[1..] == TakeHistory(r1, n - 1).value.0;
      assert rest == EntryBytes(e) + (HistoryBytes(h[1..]) + r);
    }
  }

  lemma {:induction false} SegmentParsed(rest: seq<bv8>)
    requires TakeSegment(rest).Ok?
    ensures var (s, r) := TakeSegment(rest).value;
            SegmentFits(s) && rest == SegmentBytes(s) + r
  {
    hide TakeNumber, TakeText, Text, U64, U32;
    U32Parsed(rest);
    var (status, r1) := TakeNumber(rest, 4).value;
    TextParsed(r1);
    var (name, r2) := TakeText(r1).value;
    U64Parsed(r2);
    var (commit, r3) := TakeNumber(r2, 8).value;
    U64Parsed(r3);
    var (flush, r4) := TakeNumber(r3, 8).value;
    U64Parsed(r4);
    var (term, r5) := TakeNumber(r4, 8).value;
    assert rest == U32(status) + (Text(name) + (U64(commit) + (U64(flush) + (U64(term) + r5))));
  }

  lemma {:induction false} SegmentsParsed(rest: seq<bv8>, n: nat)
    requires TakeSegments(rest, n).Ok?
    ensures var (ss, r) := TakeSegments(rest, n).value;
            |ss| == n && SegmentsFit(ss) && rest == SegmentsBytes(ss) + r
    decreases n
  {
    hide TakeSegment, SegmentBytes, SegmentFits;
    var (ss, r) := TakeSegments(rest, n).value;
    if n == 0 {
      assert rest == [] + rest;
    } else {
      SegmentParsed(rest);
      var (s, r1) := TakeSegment(rest).value;
      SegmentsParsed(r1, n - 1);
      assert ss[0] == s && ss[1..] == TakeSegments(r1, n - 1).value.0;
      assert rest == SegmentBytes(s) + (SegmentsBytes(ss[1..]) + r);
    }
  }

  lemma {:induction false} AcceptorParsed(rest: seq<bv8>)
    requires TakeAcceptor(rest).Ok?
    ensures var (a, r) := TakeAcceptor(rest).value;
            AcceptorFits(a) && rest == AcceptorBytes(a) + r
  {
    hide TakeNumber, TakeText, TakeHistory, Text, U64, HistoryBytes, HistoryFits;
    TextParsed(rest);
    var (tenant, r1) := TakeText(rest).value;
    TextParsed(r1);
    var (timeline, r2) := TakeText(r1).value;
    U64Parsed(r2);
    var (term, r3) := TakeNumber(r2, 8).value;
    U64Parsed(r3);
    var (nhist, r4) := TakeNumber(r3, 8).value;
    HistoryParsed(r4, nhist);
    var (history, r5) := TakeHistory(r4, nhist).value;
    assert rest == Text(tenant) + (Text(timeline) + (U64(term) + (U64(nhist) + (HistoryBytes(history) + r5))));
  }

  lemma {:induction false} ServerParsed(rest: seq<bv8>)
    requires TakeServer(rest).Ok?
    ensures var (s, r) := TakeServer(rest).value;
            ServerFits(s) && rest == ServerBytes(s) + r
  {
    hide TakeNumber, TakeText, Text, U64, U32;
    U32Parsed(rest);
    var (pg, r1) := TakeNumber(rest, 4).value;
    U64Parsed(r1);
    var (sysid, r2) := TakeNumber(r1, 8).value;
    U32Parsed(r2);
    var (wss, r3) := TakeNumber(r2, 4).value;
    TextParsed(r3);
    var (uuid, r4) := TakeText(r3).value;
    assert rest == U32(pg) + (U64(sysid) + (U32(wss) + (Text(uuid) + r4)));
  }

  lemma {:induction false} PositionsParsed(rest: seq<bv8>)
    requires TakePositions(rest).Ok?
    ensures var (p, r) := TakePositions(rest).value;
            PositionsFit(p) && rest == PositionsBytes(p) + r
  {
    hide TakeNumber, U64;
    U64Parsed(rest);
    var (n1, r1) := TakeNumber(rest, 8).value;
    U64Parsed(r1);
    var (n2, r2) := TakeNumber(r1, 8).value;
    U64Parsed(r2);
    var (n3, r3) := TakeNumber(r2, 8).value;
    U64Parsed(r3);
    var (n4, r4) := TakeNumber(r3, 8).value;
    U64Parsed(r4);
    var (n5, r5) := TakeNumber(r4, 8).value;
    U64Parsed(r5);
    var (n6, r6) := TakeNumber(r5, 8).value;
    assert rest == U64(n1) + (U64(n2) + (U64(n3) + (U64(n4) + (U64(n5) + (U64(n6) + r6)))));
  }

  lemma {:induction false} BackupParsed(rest: seq<bv8>)
    requires TakeBackup(rest).Ok?
    ensures var (b, r) := TakeBackup(rest).value;
            BackupFits(b) && rest == BackupBytes(b) + r
  {
    hide TakeNumber, TakeSegments, U64, U32, SegmentsBytes, SegmentsFit;
    U64Parsed(rest);
    var (leading, r1) := TakeNumber(rest, 8).value;
    U64Parsed(r1);
    var (nsegs, r2) := TakeNumber(r1, 8).value;
    SegmentsParsed(r2, nsegs);
    var (segments, r3) := TakeSegments(r2, nsegs).value;
    U32Parsed(r3);
    var (eviction, r4) := TakeNumber(r3, 4).value;
    assert rest == U64(leading) + (U64(nsegs) + (SegmentsBytes(segments) + (U32(eviction) + r4)));
  }

  lemma {:induction false} RecordParsed(rest: seq<bv8>)
    requires TakeRecord(rest).Ok?
    ensures var (st, r) := TakeRecord(rest).value;
            Fits(st) && rest == RecordBytes(st) + r
  {
    hide TakeAcceptor, TakeServer, TakePositions, TakeBackup;
    hide AcceptorBytes, ServerBytes, PositionsBytes, BackupBytes;
    hide AcceptorFits, ServerFits, PositionsFit, BackupFits;
    AcceptorParsed(rest);
    var (acceptor, r1) := TakeAcceptor(rest).value;
    ServerParsed(r1);
    var (server, r2) := TakeServer(r1).value;
    PositionsParsed(r2);
    var (positions, r3) := TakePositions(r2).value;
    BackupParsed(r3);
    var (backup, r4) := TakeBackup(r3).value;
    assert rest == AcceptorBytes(acceptor) + (ServerBytes(server) + (PositionsBytes(positions) + (BackupBytes(backup) + r4)));
  }

  // ----- Whole files --------------------------------------------------------------------------------

  lemma {:induction false} HeaderValue()
    ensures |Header()| == 8 && FromBytes(Header()[..4]) == MAGIC && FromBytes(Header()[4..]) == VERSION
  {
    Widths();
    assert Header()[..4] == U32(MAGIC) && Header()[4..] == U32(VERSION);
    FromToBytes(MAGIC, 4);
    FromToBytes(VERSION, 4);
  }

  lemma {:induction false} HeaderParsed(b: seq<bv8>)
    requires |b| >= 8 && FromBytes(b[..4]) == MAGIC && FromBytes(b[4..8]) == VERSION
    ensures b[..8] == Header()
  {
    ToFromBytes(b[..4]);
    ToFromBytes(b[4..8]);
    assert b[..8] == b[..4] + b[4..8];
  }

  lemma {:induction false} SealIsSealed(b: seq<bv8>)
    ensures Crc32c.Sealed(Seal(b)) && |Seal(b)| == |b| + 4 && Seal(b)[..|b|] == b
  {
    hide Crc32c.Checksum, Crc32c.Word;
    var sealed := Seal(b);
    assert sealed[..|sealed| - 4] == b && sealed[|sealed| - 4..] == Crc32c.WordBytes(Crc32c.Checksum(b));
  }

  lemma {:induction false} SealedIsSeal(b: seq<bv8>)
    requires Crc32c.Sealed(b)
    ensures b == Seal(b[..|b| - 4])
  {
    hide Crc32c.Checksum, Crc32c.Word;
    var body, trailer := b[..|b| - 4], b[|b| - 4..];
    Crc32c.WordInjective(trailer, Crc32c.WordBytes(Crc32c.Checksum(body)));
    assert b == body + trailer;
  }

  /** Unpacking a packed record gives that record back. */
  lemma {:induction false} UnpackPack(st: Control)
    requires Pack(st).Ok?
    ensures Unpack(Pack(st).value) == Ok(st)
  {
    hide Seal, Crc32c.Sealed, Crc32c.Checksum, Header, FromBytes, RecordBytes, TakeRecord, Fits;
    var record := RecordBytes(st);
    var b := Pack(st).value;
    SealIsSealed(Header() + record);
    HeaderValue();
    Framing(Header(), record, b);
    RecordPrinted(st, []);
    assert record + [] == record;
  }

  lemma {:induction false} Framing(header: seq<bv8>, record: seq<bv8>, b: seq<bv8>)
    requires |header| == 8 && |b| == 8 + |record| + 4 && b[..|b| - 4] == header + record
    ensures b[..4] == header[..4] && b[4..8] == header[4..] && b[8..|b| - 4] == record
  {
    var body := header + record;
    assert b[8..|b| - 4] == body[8..] == record;
    assert b[..4] == body[..4] && b[4..8] == body[4..8];
  }

  /** Every file the parser accepts is, byte for byte, what packing its record prints. */
  lemma {:induction false} PackUnpack(b: seq<bv8>)
    requires Unpack(b).Ok?
    ensures Pack(Unpack(b).value) == Ok(b)
  {
    hide Seal, Crc32c.Sealed, Crc32c.Checksum, Header, RecordBytes, TakeRecord, Fits;
    var record := b[8..|b| - 4];
    RecordParsed(record);
    var st := Unpack(b).value;
    assert record == RecordBytes(st) + [];
    HeaderParsed(b);
    SealedIsSeal(b);
    assert b[..|b| - 4] == b[..8] + record == Header() + RecordBytes(st);
  }

  /** The accepted files are exactly the images of the records that fit the format. */
  lemma {:induction false} AcceptedExactlyWhenPacked(b: seq<bv8>)
    ensures Unpack(b).Ok? <==> exists st :: Pack(st) == Ok(b)
  {
    hide Pack, Unpack;
    if Unpack(b).Ok? {
      PackUnpack(b);
    }
    forall st | Pack(st) == Ok(b) ensures Unpack(b).Ok? {
      UnpackPack(st);
    }
  }

  /** No accepted file becomes another accepted file by damage inside 32 consecutive bits. */
  lemma {:induction false} DamageRejected(good: seq<bv8>, bad: seq<bv8>, start: nat, len: nat)
    requires Unpack(good).Ok? && good != bad && len <= 32
    requires Crc32c.DifferOnlyInBits(good, bad, start, len)
    ensures Unpack(bad).Err?
  {
    hide Crc32c.Sealed, TakeRecord;
    if Unpack(bad).Ok? {
      Crc32c.BurstDetected(good, bad, start, len);
    }
  }
}
