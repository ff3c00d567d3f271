/**
Warm-schedule windows: the floor in force at an instant, the next boundary, and when to look again.

Times are nanoseconds. A cron schedule is its fire times and the library's Next, which gives the
least fire strictly after an instant; every schedule is taken to fire again.
 */
module WarmWindows {
  import opened Arithmetic
  import opened Wrappers

  type Time = int
  type Duration = int

  const SECOND: Duration := 1_000_000_000
  const REQUEUE_MIN: Duration := 10 * SECOND
  const REQUEUE_MAX: Duration := 3600 * SECOND

  datatype Cron = Cron(fires: Time -> bool, next: Time -> Time)

  ghost predicate Lawful(c: Cron) {
    forall t: Time ::
      && t < c.next(t) && c.fires(c.next(t))
      && forall u: Time :: t < u < c.next(t) ==> !c.fires(u)
  }

  /** usable is false when the time zone is unknown or a schedule does not parse. */
  datatype Window = Window(start: Cron, end: Cron, replicas: int, usable: bool)

  ghost predicate LawfulAll(ws: seq<Window>) {
    forall w :: w in ws ==> Lawful(w.start) && Lawful(w.end)
  }

  function Active(w: Window, now: Time): bool { w.end.next(now) < w.start.next(now) }

  function Floor(ws: seq<Window>, now: Time): int {
    if |ws| == 0 then 0
    else
      var w, rest := ws[|ws| - 1], Floor(ws[..|ws| - 1], now);
      if w.usable && Active(w, now) then Max(w.replicas, rest) else rest
  }

  function Sooner(a: Option<Time>, b: Time): Option<Time> {
    if a.None? || b < a.value then Some(b) else a
  }

  /** The soonest fire of any usable window after now. */
  function Boundary(ws: seq<Window>, now: Time): Option<Time> {
    if |ws| == 0 then None
    else
      var w, rest := ws[|ws| - 1], Boundary(ws[..|ws| - 1], now);
      if w.usable then Sooner(Sooner(rest, w.start.next(now)), w.end.next(now)) else rest
  }

  method WarmScheduleFloor(ws: seq<Window>, now: Time) returns (floor: int, next: Time, hasNext: bool)
    ensures floor == Floor(ws, now)
    ensures Boundary(ws, now) == if hasNext then Some(next) else None
  {
    floor, next, hasNext := 0, 0, false;
    for k := 0 to |ws|
      invariant floor == Floor(ws[..k], now)
      invariant Boundary(ws[..k], now) == if hasNext then Some(next) else None
    {
      assert ws[..k + 1][..k] == ws[..k];
      var w := ws[k];
      if !w.usable {
        continue;
      }
      var nextStart, nextEnd := w.start.next(now), w.end.next(now);
      if nextEnd < nextStart && w.replicas > floor {
        floor := w.replicas;
      }
      var edges := [nextStart, nextEnd];
      ghost var before := Boundary(ws[..k], now);
      for j := 0 to 2
        invariant (if hasNext then Some(next) else None)
               == if j == 0 then before else if j == 1 then Sooner(before, nextStart)
                  else Sooner(Sooner(before, nextStart), nextEnd)
      {
        if !hasNext || edges[j] < next {
          next, hasNext := edges[j], true;
        }
      }
    }
    assert ws[..|ws|] == ws;
  }

  method WarmScheduleRequeue(ws: seq<Window>, now: Time) returns (d: Duration)
    ensures d == match Boundary(ws, now)
                 case None => 0
                 case Some(next) => Min(Max(next - now, REQUEUE_MIN), REQUEUE_MAX)
  {
    var _, next, hasNext := WarmScheduleFloor(ws, now);
    if !hasNext {
      return 0;
    }
    d := next - now;
    if d < REQUEUE_MIN {
      d := REQUEUE_MIN;
    }
    if d > REQUEUE_MAX {
      d := REQUEUE_MAX;
    }
  }

  /** The floor is the largest of the active windows' replicas, or 0 when none asks for more. */
  lemma {:induction false} FloorIsLargest(ws: seq<Window>, now: Time)
    ensures forall w :: w in ws && w.usable && Active(w, now) ==> w.replicas <= Floor(ws, now)
    ensures Floor(ws, now) == 0 || exists w :: w in ws && w.usable && Active(w, now) && w.replicas == Floor(ws, now)
    ensures Floor(ws, now) >= 0
  {
    if |ws| > 0 {
      var last, front := ws[|ws| - 1], ws[..|ws| - 1];
      FloorIsLargest(front, now);
      assert last in ws;
      forall w | w in ws && w.usable && Active(w, now)
        ensures w.replicas <= Floor(ws, now)
      {
        assert w in front || w == last;
      }
      if Floor(front, now) != 0 && Floor(ws, now) == Floor(front, now) {
        var w :| w in front && w.usable && Active(w, now) && w.replicas == Floor(front, now);
        assert w in ws;
      }
    }
  }

  // ----- Between boundaries ------------------------------------------------------------------------------

  lemma {:induction false} NextHolds(c: Cron, now: Time, t: Time)
    requires Lawful(c) && now <= t < c.next(now)
    ensures c.next(t) == c.next(now)
  {
    assert c.fires(c.next(t)) && c.fires(c.next(now));
    assert t < c.next(t) && now < c.next(now);
  }

  lemma {:induction false} BoundaryLeast(ws: seq<Window>, now: Time, w: Window)
    requires LawfulAll(ws)
    ensures Boundary(ws, now).Some? ==> Boundary(ws, now).value > now
    ensures w in ws && w.usable ==>
              && Boundary(ws, now).Some?
              && Boundary(ws, now).value <= w.start.next(now) && Boundary(ws, now).value <= w.end.next(now)
  {
    if |ws| > 0 {
      var last, front := ws[|ws| - 1], ws[..|ws| - 1];
      assert last in ws && forall v :: v in front ==> v in ws;
      assert Lawful(last.start) && Lawful(last.end);
      BoundaryLeast(front, now, w);
      assert w in ws ==> w in front || w == last;
    }
  }

  /**
  Nothing changes before the next boundary: the floor in force and the boundary itself are the same
  at every instant from now until that boundary, so a pass then misses no flip.
   */
  lemma {:induction false} ConstantUntilBoundary(ws: seq<Window>, all: seq<Window>, now: Time, t: Time)
    requires LawfulAll(all) && forall w :: w in ws ==> w in all
    requires now <= t && (Boundary(all, now).Some? ==> t < Boundary(all, now).value)
    ensures Floor(ws, t) == Floor(ws, now) && Boundary(ws, t) == Boundary(ws, now)
  {
    hide Lawful;
    if |ws| > 0 {
      var w, front := ws[|ws| - 1], ws[..|ws| - 1];
      assert w in ws && forall v :: v in front ==> v in ws;
      ConstantUntilBoundary(front, all, now, t);
      BoundaryLeast(all, now, w);
      if w.usable {
        NextHolds(w.start, now, t);
        NextHolds(w.end, now, t);
      }
    }
  }

  /**
  Looking again after the requeue: not later than an hour, at the boundary itself when it is between
  ten seconds and an hour away, never more than ten seconds past it, and until then the floor stands.
   */
  lemma {:induction false} RequeueMissesNothing(ws: seq<Window>, now: Time)
    requires LawfulAll(ws) && Boundary(ws, now).Some?
    ensures var next := Boundary(ws, now).value;
            var again := now + Min(Max(next - now, REQUEUE_MIN), REQUEUE_MAX);
            && 10_000_000_000 <= again - now <= 3_600_000_000_000
            && again - next < 10_000_000_000
            && (10_000_000_000 <= next - now <= 3_600_000_000_000 ==> again == next)
            && forall t :: now <= t < Min(again, next) ==> Floor(ws, t) == Floor(ws, now)
  {
    var next := Boundary(ws, now).value;
    if |ws| > 0 { BoundaryLeast(ws, now, ws[0]); }
    forall t | now <= t < next
      ensures Floor(ws, t) == Floor(ws, now)
    {
      ConstantUntilBoundary(ws, ws, now, t);
    }
  }

  // ----- What being active means ----------------------------------------------------------------------------

  /** Whatever the two schedules: active means that the window ends before it starts again, and not at the same instant. */
  lemma {:induction false} ActiveMeans(w: Window, now: Time)
    requires Lawful(w.start) && Lawful(w.end)
    ensures Active(w, now) <==> exists e :: now < e && w.end.fires(e) && forall s :: now < s <= e ==> !w.start.fires(s)
  {
    var start, end := w.start.next(now), w.end.next(now);
    assert now < start && w.start.fires(start) && now < end && w.end.fires(end);
    if e :| now < e && w.end.fires(e) && forall s :: now < s <= e ==> !w.start.fires(s) {
      assert end <= e;
    }
  }

  /** Starts and ends take turns and never coincide. */
  ghost predicate Alternating(w: Window) {
    && (forall s, u: Time :: s < u && w.start.fires(s) && w.start.fires(u) ==> exists e :: s < e < u && w.end.fires(e))
    && (forall e, u: Time :: e < u && w.end.fires(e) && w.end.fires(u) ==> exists s :: e < s < u && w.start.fires(s))
    && (forall t: Time :: !(w.start.fires(t) && w.end.fires(t)))
  }

  /** t lies in [start, end): the window started at or before t and has not ended since. */
  ghost predicate Inside(w: Window, t: Time) {
    exists s :: s <= t && w.start.fires(s) && forall e :: s < e <= t ==> !w.end.fires(e)
  }

  lemma {:induction false} InsideIsActive(w: Window, t: Time)
    requires Lawful(w.start) && Lawful(w.end) && Alternating(w) && Inside(w, t)
    ensures Active(w, t)
  {
    var s :| s <= t && w.start.fires(s) && forall e :: s < e <= t ==> !w.end.fires(e);
    var u := w.start.next(t);
    assert w.start.fires(u) && s < u;
    var e :| s < e < u && w.end.fires(e);
    assert e > t;
    assert w.end.next(t) <= e;
  }

  lemma {:induction false} StartSince(w: Window, t: Time, e: Time) returns (s: Time)
    requires Lawful(w.start) && Lawful(w.end) && Alternating(w) && Active(w, t)
    requires e <= t && w.end.fires(e)
    ensures e < s <= t && w.start.fires(s)
  {
    var u := w.end.next(t);
    assert w.end.fires(u) && e < u;
    s :| e < s < u && w.start.fires(s);
    assert s > t ==> w.start.next(t) <= s;
  }

  /** From an end at or before t, on to a start at or before t that no end follows. */
  lemma {:induction false} LastStart(w: Window, t: Time, e: Time)
    requires Lawful(w.start) && Lawful(w.end) && Alternating(w) && Active(w, t)
    requires e <= t && w.end.fires(e)
    ensures Inside(w, t)
    decreases t - e
  {
    hide Lawful, Alternating, Active;
    var s := StartSince(w, t, e);
    if d :| s < d <= t && w.end.fires(d) {
      LastStart(w, t, d);
    }
  }

  /** A start at or before t that no end follows by t puts t inside; otherwise there is such an end. */
  lemma {:induction false} EndSince(w: Window, t: Time, s: Time) returns (e: Time)
    requires s <= t && w.start.fires(s) && !Inside(w, t)
    ensures e <= t && w.end.fires(e)
  {
    e :| s < e <= t && w.end.fires(e);
  }

  /**
  For windows whose starts and ends alternate, from the first of them on, the test the operator makes
  holds exactly inside [start, end).
   */
  lemma {:induction false} ActiveExactlyInside(w: Window, t: Time, earlier: Time)
    requires Lawful(w.start) && Lawful(w.end) && Alternating(w)
    requires earlier <= t && (w.start.fires(earlier) || w.end.fires(earlier))
    ensures Active(w, t) <==> Inside(w, t)
  {
    hide Lawful, Alternating, Inside, Active;
    if Inside(w, t) {
      InsideIsActive(w, t);
    } else if Active(w, t) {
      var e := earlier;
      if !w.end.fires(earlier) {
        e := EndSince(w, t, earlier);
      }
      LastStart(w, t, e);
    }
  }
}
