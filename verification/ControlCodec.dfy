/**
The safekeeper.control codec as the tool runs it: a packer that grows a buffer and a parser
that moves a cursor, each proved equal to the functions of ControlFormat.
 */
module ControlCodec {
  import opened Wrappers
  import opened LittleEndian
  import opened ControlFormat
  import Crc32c

  // ----- The packer: a growing buffer ----------------------------------------------------------

  method AppendNumber(b: seq<bv8>, n: int, width: nat) returns (r: Outcome<seq<bv8>>)
    requires width == 4 || width == 8
    ensures r == if 0 <= n < Pow256(width) then Ok(b + ToBytes(n, width)) else Err(OutOfRange)
  {
    var bound := Pow256(width);
    if n < 0 || n >= bound { return Err(OutOfRange); }
    r := Ok(b + ToBytes(n, width));
  }

  method AppendText(b: seq<bv8>, s: Utf8) returns (r: Outcome<seq<bv8>>)
    ensures r == if Fits64(|s|) then Ok(b + Text(s)) else Err(OutOfRange)
  {
    hide ValidUtf8, ToBytes;
    Widths();
    var b1 :- AppendNumber(b, |s|, 8);
    r := Ok(b1 + s);
    assert b + Text(s) == b1 + s;
  }

  method AppendAcceptor(b: seq<bv8>, a: Acceptor) returns (r: Outcome<seq<bv8>>)
    ensures r == if AcceptorFits(a) then Ok(b + AcceptorBytes(a)) else Err(OutOfRange)
  {
    hide Text, ToBytes, EntryBytes;
    Widths();
    var b1 :- AppendText(b, a.tenantId);
    var b2 :- AppendText(b1, a.timelineId);
    var b3 :- AppendNumber(b2, a.term, 8);
    var b4 :- AppendNumber(b3, |a.termHistory|, 8);
    var grown := b4;
    var i := 0;
    while i < |a.termHistory|
      invariant 0 <= i <= |a.termHistory|
      invariant HistoryFits(a.termHistory) <==> HistoryFits(a.termHistory[i..])
      invariant HistoryFits(a.termHistory) ==> grown + HistoryBytes(a.termHistory[i..]) == b4 + HistoryBytes(a.termHistory)
    {
      var e := a.termHistory[i];
      assert a.termHistory[i..][0] == e && a.termHistory[i..][1..] == a.termHistory[i + 1..];
      var g1 :- AppendNumber(grown, e.term, 8);
      var g2 :- AppendNumber(g1, e.lsn, 8);
      if HistoryFits(a.termHistory) {
        assert g2 == grown + EntryBytes(e) by { EntryAppended(grown, e); }
        assert g2 + HistoryBytes(a.termHistory[i + 1..]) == grown + (EntryBytes(e) + HistoryBytes(a.termHistory[i + 1..]));
      }
      grown := g2;
      i := i + 1;
    }
    assert a.termHistory[|a.termHistory|..] == [];
    assert grown + [] == grown;
    r := Ok(grown);
    assert b4 + HistoryBytes(a.termHistory)
        == b + (Text(a.tenantId) + (Text(a.timelineId) + (U64(a.term) + (U64(|a.termHistory|) + HistoryBytes(a.termHistory)))));
  }

  lemma {:induction false} EntryAppended(b: seq<bv8>, e: Entry)
    requires EntryFits(e)
    ensures (b + ToBytes(e.term, 8)) + ToBytes(e.lsn, 8) == b + EntryBytes(e)
  {
  }

  method AppendServer(b: seq<bv8>, s: Server) returns (r: Outcome<seq<bv8>>)
    ensures r == if ServerFits(s) then Ok(b + ServerBytes(s)) else Err(OutOfRange)
  {
    hide Text, ToBytes;
    Widths();
    var b1 :- AppendNumber(b, s.pgVersion, 4);
    var b2 :- AppendNumber(b1, s.systemId, 8);
    var b3 :- AppendNumber(b2, s.walSegSize, 4);
    r := AppendText(b3, s.proposerUuid);
    if ServerFits(s) {
      assert b3 + Text(s.proposerUuid) == b + (U32(s.pgVersion) + (U64(s.systemId) + (U32(s.walSegSize) + Text(s.proposerUuid))));
    }
  }

  method AppendPositions(b: seq<bv8>, p: Positions) returns (r: Outcome<seq<bv8>>)
    ensures r == if PositionsFit(p) then Ok(b + PositionsBytes(p)) else Err(OutOfRange)
  {
    hide ToBytes;
    Widths();
    var b1 :- AppendNumber(b, p.timelineStartLsn, 8);
    var b2 :- AppendNumber(b1, p.localStartLsn, 8);
    var b3 :- AppendNumber(b2, p.commitLsn, 8);
    var b4 :- AppendNumber(b3, p.backupLsn, 8);
    var b5 :- AppendNumber(b4, p.peerHorizonLsn, 8);
    r := AppendNumber(b5, p.remoteConsistentLsn, 8);
    if PositionsFit(p) {
      assert b5 + U64(p.remoteConsistentLsn)
          == b + (U64(p.timelineStartLsn) + (U64(p.localStartLsn) + (U64(p.commitLsn)
             + (U64(p.backupLsn) + (U64(p.peerHorizonLsn) + U64(p.remoteConsistentLsn))))));
    }
  }

  method AppendSegment(b: seq<bv8>, s: Segment) returns (r: Outcome<seq<bv8>>)
    ensures r == if SegmentFits(s) then Ok(b + SegmentBytes(s)) else Err(OutOfRange)
  {
    hide Text, ToBytes;
    Widths();
    var b1 :- AppendNumber(b, s.status, 4);
    var b2 :- AppendText(b1, s.name);
    var b3 :- AppendNumber(b2, s.commit, 8);
    var b4 :- AppendNumber(b3, s.flush, 8);
    r := AppendNumber(b4, s.term, 8);
    if SegmentFits(s) {
      assert b4 + U64(s.term) == b + (U32(s.status) + (Text(s.name) + (U64(s.commit) + (U64(s.flush) + U64(s.term)))));
    }
  }

  method AppendBackup(b: seq<bv8>, k: Backup) returns (r: Outcome<seq<bv8>>)
    ensures r == if BackupFits(k) then Ok(b + BackupBytes(k)) else Err(OutOfRange)
  {
    hide ToBytes, SegmentBytes, SegmentFits;
    Widths();
    var b1 :- AppendNumber(b, k.leading, 8);
    var b2 :- AppendNumber(b1, |k.segments|, 8);
    var grown := b2;
    var i := 0;
    while i < |k.segments|
      invariant 0 <= i <= |k.segments|
      invariant SegmentsFit(k.segments) <==> SegmentsFit(k.segments[i..])
      invariant SegmentsFit(k.segments) ==> grown + SegmentsBytes(k.segments[i..]) == b2 + SegmentsBytes(k.segments)
    {
      var s := k.segments[i];
      assert k.segments[i..][0] == s && k.segments[i..][1..] == k.segments[i + 1..];
      var g :- AppendSegment(grown, s);
      if SegmentsFit(k.segments) {
        assert g + SegmentsBytes(k.segments[i + 1..]) == grown + (SegmentBytes(s) + SegmentsBytes(k.segments[i + 1..]));
      }
      grown := g;
      i := i + 1;
    }
    assert k.segments[|k.segments|..] == [];
    assert grown + [] == grown;
    r := AppendNumber(grown, k.evictionState, 4);
    if BackupFits(k) {
      assert (b2 + SegmentsBytes(k.segments)) + U32(k.evictionState)
          == b + (U64(k.leading) + (U64(|k.segments|) + (SegmentsBytes(k.segments) + U32(k.evictionState))));
    }
  }

  method PackControl(st: Control) returns (r: Outcome<seq<bv8>>)
    ensures r == Pack(st)
  {
    hide AcceptorBytes, ServerBytes, PositionsBytes, BackupBytes, Header, Crc32c.Checksum;
    hide AcceptorFits, ServerFits, PositionsFit, BackupFits;
    var b := Header();
    var b1 :- AppendAcceptor(b, st.acceptor);
    var b2 :- AppendServer(b1, st.server);
    var b3 :- AppendPositions(b2, st.positions);
    var b4 :- AppendBackup(b3, st.backup);
    assert b4 == Header() + RecordBytes(st);
    var crc := Crc32c.Crc32c(b4);
    r := Ok(b4 + Crc32c.WordBytes(crc));
  }

  // ----- The parser: a cursor that stops at the trailer ------------------------------------------

  /** The parse position inside one blob. It never moves past the last four bytes. */
  class Cursor {
    const blob: seq<bv8>
    var off: nat

    predicate Valid()
      reads this
    {
      |blob| >= 12 && 8 <= off <= |blob| - 4
    }

    /** The bytes not yet taken, the trailer excluded. */
    function Rest(): seq<bv8>
      requires Valid()
      reads this
    {
      blob[off..|blob| - 4]
    }

    constructor (b: seq<bv8>)
      requires |b| >= 12
      ensures Valid() && blob == b && Rest() == b[8..|b| - 4]
    {
      blob := b;
      off := 8;
    }

    method TakeNumber(width: nat) returns (r: Outcome<nat>)
      requires Valid()
      modifies this
      ensures Valid()
      ensures match ControlFormat.TakeNumber(old(Rest()), width)
              case Ok((n, rest)) => r == Ok(n) && Rest() == rest
              case Err(e) => r == Err(e)
    {
      if off + width > |blob| - 4 { return Err(Truncated); }
      var n := FromBytes(blob[off..off + width]);
      assert blob[off..off + width] == Rest()[..width];
      assert blob[off + width..|blob| - 4] == Rest()[width..];
      off := off + width;
      r := Ok(n);
    }

    method TakeText() returns (r: Outcome<Utf8>)
      requires Valid()
      modifies this
      ensures Valid()
      ensures match ControlFormat.TakeText(old(Rest()))
              case Ok((s, rest)) => r == Ok(s) && Rest() == rest
              case Err(e) => r == Err(e)
    {
      hide ValidUtf8, FromBytes;
      var n :- TakeNumber(8);
      if off + n > |blob| - 4 { return Err(Truncated); }
      var s := blob[off..off + n];
      assert s == Rest()[..n];
      assert blob[off + n..|blob| - 4] == Rest()[n..];
      if !ValidUtf8(s) { return Err(NotUtf8); }
      off := off + n;
      r := Ok(s);
    }

    method TakeAcceptor() returns (r: Outcome<Acceptor>)
      requires Valid()
      modifies this
      ensures Valid()
      ensures match ControlFormat.TakeAcceptor(old(Rest()))
              case Ok((a, rest)) => r == Ok(a) && Rest() == rest
              case Err(e) => r == Err(e)
    {
      hide ControlFormat.TakeNumber, ControlFormat.TakeText;
      var tenant :- TakeText();
      var timeline :- TakeText();
      var term :- TakeNumber(8);
      var nhist :- TakeNumber(8);
      var history: seq<Entry> := [];
      ghost var start := Rest();
      PrependNothing(TakeHistory(start, nhist));
      var i := 0;
      while i < nhist
        invariant Valid() && 0 <= i <= nhist && |history| == i
        invariant TakeHistory(start, nhist) == Prepend(history, TakeHistory(Rest(), nhist - i))
      {
        var t :- TakeNumber(8);
        var l :- TakeNumber(8);
        PrependMore(history, Entry(t, l), TakeHistory(Rest(), nhist - i - 1));
        history := history + [Entry(t, l)];
        i := i + 1;
      }
      assert history + [] == history;
      r := Ok(Acceptor(tenant, timeline, term, history));
    }

    method TakeServer() returns (r: Outcome<Server>)
      requires Valid()
      modifies this
      ensures Valid()
      ensures match ControlFormat.TakeServer(old(Rest()))
              case Ok((s, rest)) => r == Ok(s) && Rest() == rest
              case Err(e) => r == Err(e)
    {
      hide ControlFormat.TakeNumber, ControlFormat.TakeText;
      var pg :- TakeNumber(4);
      var sysid :- TakeNumber(8);
      var wss :- TakeNumber(4);
      var uuid :- TakeText();
      r := Ok(Server(pg, sysid, wss, uuid));
    }

    method TakePositions() returns (r: Outcome<Positions>)
      requires Valid()
      modifies this
      ensures Valid()
      ensures match ControlFormat.TakePositions(old(Rest()))
              case Ok((p, rest)) => r == Ok(p) && Rest() == rest
              case Err(e) => r == Err(e)
    {
      hide ControlFormat.TakeNumber;
      var timelineStart :- TakeNumber(8);
      var localStart :- TakeNumber(8);
      var commit :- TakeNumber(8);
      var backup :- TakeNumber(8);
      var horizon :- TakeNumber(8);
      var remote :- TakeNumber(8);
      r := Ok(Positions(timelineStart, localStart, commit, backup, horizon, remote));
    }

    method TakeSegment() returns (r: Outcome<Segment>)
      requires Valid()
      modifies this
      ensures Valid()
      ensures match ControlFormat.TakeSegment(old(Rest()))
              case Ok((s, rest)) => r == Ok(s) && Rest() == rest
              case Err(e) => r == Err(e)
    {
      hide ControlFormat.TakeNumber, ControlFormat.TakeText;
      var status :- TakeNumber(4);
      var name :- TakeText();
      var commit :- TakeNumber(8);
      var flush :- TakeNumber(8);
      var term :- TakeNumber(8);
      r := Ok(Segment(status, name, commit, flush, term));
    }

    method TakeBackup() returns (r: Outcome<Backup>)
      requires Valid()
      modifies this
      ensures Valid()
      ensures match ControlFormat.TakeBackup(old(Rest()))
              case Ok((k, rest)) => r == Ok(k) && Rest() == rest
              case Err(e) => r == Err(e)
    {
      hide ControlFormat.TakeNumber, ControlFormat.TakeSegment;
      var leading :- TakeNumber(8);
      var nsegs :- TakeNumber(8);
      var segments: seq<Segment> := [];
      ghost var start := Rest();
      PrependNothing(TakeSegments(start, nsegs));
      var i := 0;
      while i < nsegs
        invariant Valid() && 0 <= i <= nsegs && |segments| == i
        invariant TakeSegments(start, nsegs) == Prepend(segments, TakeSegments(Rest(), nsegs - i))
      {
        var s :- TakeSegment();
        PrependMore(segments, s, TakeSegments(Rest(), nsegs - i - 1));
        segments := segments + [s];
        i := i + 1;
      }
      assert segments + [] == segments;
      var eviction :- TakeNumber(4);
      r := Ok(Backup(leading, segments, eviction));
    }
  }

  /** A list parsed so far, in front of what parsing the rest of the list will give. */
  function Prepend<T>(front: seq<T>, p: Parsed<seq<T>>): Parsed<seq<T>> {
    match p
    case Ok((tail, rest)) => Ok((front + tail, rest))
    case Err(e) => Err(e)
  }

  lemma {:induction false} PrependNothing<T>(p: Parsed<seq<T>>)
    ensures Prepend([], p) == p
  {
    if p.Ok? {
      assert [] + p.value.0 == p.value.0;
    }
  }

  lemma {:induction false} PrependMore<T>(front: seq<T>, x: T, p: Parsed<seq<T>>)
    ensures Prepend(front, Prepend([x], p)) == Prepend(front + [x], p)
  {
    if p.Ok? {
      assert front + ([x] + p.value.0) == (front + [x]) + p.value.0;
    }
  }

  method UnpackControl(b: seq<bv8>) returns (r: Outcome<Control>)
    ensures r == Unpack(b)
  {
    hide TakeAcceptor, TakeServer, TakePositions, TakeBackup, Crc32c.Checksum, Crc32c.Word, FromBytes;
    if |b| < 12 { return Err(TooShort); }
    if FromBytes(b[..4]) != MAGIC { return Err(BadMagic); }
    if FromBytes(b[4..8]) != VERSION { return Err(BadVersion); }
    var crc := Crc32c.Crc32c(b[..|b| - 4]);
    if crc != Crc32c.Word(b[|b| - 4..]) { return Err(CrcMismatch); }
    var cursor := new Cursor(b);
    var acceptor :- cursor.TakeAcceptor();
    var server :- cursor.TakeServer();
    var positions :- cursor.TakePositions();
    var backup :- cursor.TakeBackup();
    if cursor.off != |b| - 4 { return Err(TrailingBytes); }
    r := Ok(Control(acceptor, server, positions, backup));
  }
}
