/**
What the limiter's cap means for the re-renders themselves. A slot is a permission; the re-render
happens when the app comes back for it, which may be late, and late returns can bunch.
 */
module RolloutPasses {
  import opened Arithmetic
  import opened Wrappers
  import opened FiniteSets
  import opened RolloutLimiter

  /** An answer of 0: when it was given, and the slot it used up. */
  datatype Pass = Pass(at: Time, slot: Time)

  function PassOf(st: State, call: Call): seq<Pass> {
    match call
    case Release(_) => []
    case Reserve(app, now, perMinute) =>
      var slots := Swept(st.slots, now);
      if Reserved(st, app, now, perMinute).wait > 0 then []
      else if app in slots then [Pass(now, slots[app])]
      else [Pass(now, NextSlot(st.last, now, perMinute))]
  }

  /** The passes of a run, in the order of the calls. */
  function Passes(st: State, calls: seq<Call>): seq<Pass> {
    if |calls| == 0 then []
    else
      var front := calls[..|calls| - 1];
      Passes(st, front) + PassOf(Run(st, front), calls[|calls| - 1])
  }

  function Times(ps: seq<Pass>): seq<Time> {
    if |ps| == 0 then [] else Times(ps[..|ps| - 1]) + [ps[|ps| - 1].at]
  }

  function Used(ps: seq<Pass>): seq<Time> {
    if |ps| == 0 then [] else Used(ps[..|ps| - 1]) + [ps[|ps| - 1].slot]
  }

  /** No app passes more than d after its slot. */
  predicate Prompt(ps: seq<Pass>, d: Duration) { forall k :: 0 <= k < |ps| ==> ps[k].at - ps[k].slot <= d }

  // ----- Each slot is used once ----------------------------------------------------------------------

  /** The reservations still open for a slot in [from, to). */
  function Open(slots: map<App, Time>, from: Time, to: Time): set<App> {
    set a | a in slots && from <= slots[a] < to
  }

  lemma {:induction false} OneMorePass(st: State, calls: seq<Call>, call: Call)
    ensures Passes(st, calls + [call]) == Passes(st, calls) + PassOf(Run(st, calls), call)
  {
    hide PassOf;
    assert (calls + [call])[..|calls|] == calls;
  }

  lemma {:induction false} UsedSnoc(ps: seq<Pass>, more: seq<Pass>)
    requires |more| <= 1
    ensures Used(ps + more) == Used(ps) + (if more == [] then [] else [more[0].slot])
    ensures Times(ps + more) == Times(ps) + (if more == [] then [] else [more[0].at])
  {
    if more == [] {
      assert ps + more == ps;
    } else {
      assert (ps + more)[..|ps|] == ps;
    }
  }

  function Counted(x: Time, from: Time, to: Time): nat { if from <= x < to then 1 else 0 }

  lemma {:induction false} WithinSnoc(times: seq<Time>, more: seq<Time>, from: Time, to: Time)
    requires |more| <= 1
    ensures Within(times + more, from, to) == Within(times, from, to) + (if more == [] then 0 else Counted(more[0], from, to))
  {
    if more == [] {
      assert times + more == times;
    } else {
      assert (times + more)[..|times|] == times;
    }
  }

  lemma {:induction false} OpenSwept(slots: map<App, Time>, now: Time, from: Time, to: Time)
    ensures |Open(Swept(slots, now), from, to)| <= |Open(slots, from, to)|
  {
    SubsetSize(Open(Swept(slots, now), from, to), Open(slots, from, to));
  }

  lemma {:induction false} OpenTaken(slots: map<App, Time>, app: App, from: Time, to: Time)
    requires app in slots
    ensures |Open(slots - {app}, from, to)| + Counted(slots[app], from, to) <= |Open(slots, from, to)|
  {
    var all, rest := Open(slots, from, to), Open(slots - {app}, from, to);
    assert app !in rest;
    if app in all {
      assert |rest + {app}| == |rest| + 1;
      SubsetSize(rest + {app}, all);
    } else {
      SubsetSize(rest, all);
    }
  }

  lemma {:induction false} OpenGiven(slots: map<App, Time>, app: App, slot: Time, from: Time, to: Time)
    requires app !in slots
    ensures |Open(slots[app := slot], from, to)| <= |Open(slots, from, to)| + Counted(slot, from, to)
  {
    var old', new' := Open(slots, from, to), Open(slots[app := slot], from, to);
    if from <= slot < to {
      assert new' == old' + {app};
    } else {
      assert new' == old';
    }
  }

  lemma {:induction false} OpenReleased(slots: map<App, Time>, app: App, from: Time, to: Time)
    ensures |Open(slots - {app}, from, to)| <= |Open(slots, from, to)|
  {
    SubsetSize(Open(slots - {app}, from, to), Open(slots, from, to));
  }

  /** What one call adds to the slots used and still open, it adds to the slots issued. */
  lemma {:induction false} CallBalance(st: State, call: Call, from: Time, to: Time)
    ensures (if PassOf(st, call) == [] then 0 else Counted(PassOf(st, call)[0].slot, from, to))
            + |Open(After(st, call).slots, from, to)|
         <= |Open(st.slots, from, to)| + (if Issues(st, call).None? then 0 else Counted(Issues(st, call).value, from, to))
    ensures |PassOf(st, call)| <= 1
  {
    hide Open, Swept, Counted, NextSlot;
    match call
    case Release(app) => OpenReleased(st.slots, app, from, to);
    case Reserve(app, now, perMinute) =>
      var slots := Swept(st.slots, now);
      var slot := NextSlot(st.last, now, perMinute);
      OpenSwept(st.slots, now, from, to);
      if app in slots {
        OpenTaken(slots, app, from, to);
      } else {
        OpenGiven(slots, app, slot, from, to);
      }
  }

  /** In any window, no more slots are used than were issued for it. */
  lemma {:induction false} UsedOnce(calls: seq<Call>, from: Time, to: Time)
    ensures Within(Used(Passes(Fresh(), calls)), from, to) + |Open(Run(Fresh(), calls).slots, from, to)|
         <= Within(Slots(Fresh(), calls), from, to)
  {
    hide Slots, Passes, Run, After, Issues, PassOf, Counted, Open, Within, Used;
    if |calls| == 0 {
      NothingUsed(from, to);
    } else {
      var front, call := calls[..|calls| - 1], calls[|calls| - 1];
      assert calls == front + [call];
      var st := Run(Fresh(), front);
      UsedOnce(front, from, to);
      OneMoreIssue(Fresh(), front, call);
      OneMorePass(Fresh(), front, call);
      CallBalance(st, call, from, to);
      var more := PassOf(st, call);
      UsedSnoc(Passes(Fresh(), front), more);
      WithinSnoc(Used(Passes(Fresh(), front)), if more == [] then [] else [more[0].slot], from, to);
      var issued := Issues(st, call);
      WithinSnoc(Slots(Fresh(), front), if issued.None? then [] else [issued.value], from, to);
    }
  }

  lemma {:induction false} NothingUsed(from: Time, to: Time)
    ensures Within(Used(Passes(Fresh(), [])), from, to) == 0 && |Open(Run(Fresh(), []).slots, from, to)| == 0
  {
  }

  // ----- Passes in a window ------------------------------------------------------------------------------

  lemma {:induction false} PassTiming(st: State, call: Call)
    ensures forall k :: 0 <= k < |PassOf(st, call)| ==>
              PassOf(st, call)[k].slot <= PassOf(st, call)[k].at <= PassOf(st, call)[k].slot + STALE_AFTER
  {
  }

  /** Nobody passes before the slot, nor more than the stale bound after it. */
  lemma {:induction false} PassesTiming(st: State, calls: seq<Call>)
    ensures Prompt(Passes(st, calls), STALE_AFTER)
    ensures forall k :: 0 <= k < |Passes(st, calls)| ==> Passes(st, calls)[k].slot <= Passes(st, calls)[k].at
  {
    hide PassOf;
    if |calls| > 0 {
      PassesTiming(st, calls[..|calls| - 1]);
      PassTiming(Run(st, calls[..|calls| - 1]), calls[|calls| - 1]);
    }
  }

  lemma {:induction false} LateBy(ps: seq<Pass>, d: Duration, from: Time, to: Time)
    requires Prompt(ps, d) && forall k :: 0 <= k < |ps| ==> ps[k].slot <= ps[k].at
    ensures Within(Times(ps), from, to) <= Within(Used(ps), from - d, to)
  {
    if |ps| > 0 { LateBy(ps[..|ps| - 1], d, from, to); }
  }

  /**
  If no app passes more than d after its slot, the passes of a window number at most the slots issued
  for that window and the d before it.
   */
  lemma {:induction false} PassesWithin(calls: seq<Call>, d: Duration, from: Time, to: Time)
    requires Prompt(Passes(Fresh(), calls), d)
    ensures Within(Times(Passes(Fresh(), calls)), from, to) <= Within(Slots(Fresh(), calls), from - d, to)
  {
    hide Slots, Passes, Within, Prompt;
    PassesTiming(Fresh(), calls);
    LateBy(Passes(Fresh(), calls), d, from, to);
    UsedOnce(calls, from - d, to);
  }

  /**
  The re-renders of a half-open minute, when no app passes more than d after its slot and no slot from d
  before the minute on was issued at a rate above p: at most p and one more for each interval begun of d if
  p divides a minute, else one more than that while p^2 is within a minute's nanoseconds.
   */
  lemma {:induction false} PassesPerMinute(calls: seq<Call>, p: int, d: Duration, t: Time)
    requires p > 0 && d >= 0 && Clocked(calls) && IssuedAtMost(calls, t - d, t + MINUTE, p)
    requires Prompt(Passes(Fresh(), calls), d)
    ensures var n := InMinute(Times(Passes(Fresh(), calls)), t);
            && (MINUTE % p == 0 ==> n <= p + Backlog(p, d))
            && (p * p <= MINUTE ==> n <= p + 1 + Backlog(p, d))
  {
    hide Slots, Passes, Within, Prompt, Times, Product, Backlog, IssuedAtMost;
    PassesWithin(calls, d, t, t + MINUTE);
    WindowSlots(calls, p, t - d, t + MINUTE);
    var n := Within(Slots(Fresh(), calls), t - d, t + MINUTE);
    if n > 0 { RoomInWindow(n, p, d); }
  }

  /** Without any promptness the stale bound stands in: never more than eleven minutes' worth in one. */
  lemma {:induction false} PassesEver(calls: seq<Call>, p: int, t: Time)
    requires p > 0 && Clocked(calls) && IssuedAtMost(calls, t - STALE_AFTER, t + MINUTE, p)
    ensures var n := InMinute(Times(Passes(Fresh(), calls)), t);
            && (MINUTE % p == 0 ==> n <= 11 * p)
            && (p * p <= MINUTE ==> n <= 11 * (p + 1))
  {
    hide Slots, Passes, Within, Prompt, Times, Backlog, IssuedAtMost;
    PassesTiming(Fresh(), calls);
    PassesPerMinute(calls, p, STALE_AFTER, t);
    if MINUTE % p == 0 || p * p <= MINUTE { TenMinutes(p); }
  }

  lemma {:induction false} TenMinutes(p: int)
    requires p > 0 && (MINUTE % p == 0 || p * p <= MINUTE)
    ensures Backlog(p, STALE_AFTER) <= 10 * if MINUTE % p == 0 then p else p + 1
  {
    hide Product;
    var i, whole := MINUTE / p, if MINUTE % p == 0 then p else p + 1;
    FillsMinute(p);
    TenTimes(whole, i);
    RoundedUp(STALE_AFTER, 10 * whole, i);
  }

  lemma {:induction false} TenTimes(p: int, i: int)
    ensures Product(10 * p, i) == 10 * Product(p, i)
  {
  }

  lemma {:induction false} RoundedUp(x: int, q: int, i: int)
    requires i > 0 && x <= Product(q, i)
    ensures (x + i - 1) / i <= q
  {
    var r := (x + i - 1) / i;
    assert r * i <= x + i - 1;
    Apart(q, r, i);
  }

  lemma {:induction false} TimesAt(ps: seq<Pass>)
    ensures |Times(ps)| == |ps| && forall k :: 0 <= k < |ps| ==> Times(ps)[k] == ps[k].at
  {
    if |ps| > 0 { TimesAt(ps[..|ps| - 1]); }
  }

  // ----- Runs that meet the bounds ------------------------------------------------------------------------

  const GUEST := App("guest", "")

  function Caller(k: nat): App { App("", Letters(k)) }

  /** r, or one a minute where r leaves no time between two slots. */
  function Opening(r: int): (f: int)
    ensures r > 0 ==> f > 0 && MINUTE / f >= 1 && (r <= MINUTE ==> f == r) && (f == r || f == 1)
  {
    if r <= MINUTE then r else 1
  }

  /** A guest asks and passes, and n callers who ask at the same instant at rate r wait. */
  function Queue(n: nat, r: int): seq<Call> {
    if n == 0 then [Reserve(GUEST, 1, Opening(r))]
    else Queue(n - 1, r) + [Reserve(Caller(n - 1), 1, if n == 1 then Opening(r) else r)]
  }

  function SlotOf(k: nat, r: int): Time
    requires r > 0
  {
    1 + MINUTE / Opening(r) + Product(k, MINUTE / r)
  }

  /** The reservations of callers j to n - 1 of the queue. */
  function Waiting(j: nat, n: nat, r: int): map<App, Time>
    requires r > 0
  {
    if n <= j then map[] else Waiting(j, n - 1, r)[Caller(n - 1) := SlotOf(n - 1, r)]
  }

  lemma {:induction false} WaitingExact(j: nat, n: nat, r: int, a: App)
    requires r > 0
    ensures a in Waiting(j, n, r) <==> j <= |a.name| < n && a == Caller(|a.name|)
    ensures a in Waiting(j, n, r) ==> Waiting(j, n, r)[a] == SlotOf(|a.name|, r)
  {
    hide SlotOf;
    if n > j { WaitingExact(j, n - 1, r, a); }
  }

  lemma {:induction false} SlotsAfter(k: nat, r: int)
    requires r > 0
    ensures SlotOf(0, r) == 1 + MINUTE / Opening(r) && SlotOf(k + 1, r) == SlotOf(k, r) + MINUTE / r
    ensures SlotOf(k, r) >= SlotOf(0, r) >= 2
  {
    hide Product;
    ProductNext(k, MINUTE / r);
    ProductNext(0, MINUTE / r);
    ProductMono(0, k, MINUTE / r);
  }

  lemma {:induction false} SlotsMonotone(j: nat, k: nat, r: int)
    requires r > 0 && j <= k
    ensures SlotOf(j, r) <= SlotOf(k, r)
  {
    hide Product;
    ProductMono(j, k, MINUTE / r);
  }

  lemma {:induction false} QueueWaits(n: nat, r: int)
    requires r > 0
    ensures Run(Fresh(), Queue(n, r)) == State(if n == 0 then 1 else SlotOf(n - 1, r), Waiting(0, n, r))
    ensures Passes(Fresh(), Queue(n, r)) == [Pass(1, 1)]
  {
    hide After, Issues, PassOf, Run, Slots, Passes, SlotOf;
    if n == 0 {
      GuestPasses(r);
    } else {
      QueueWaits(n - 1, r);
      var call := Reserve(Caller(n - 1), 1, if n == 1 then Opening(r) else r);
      OneMoreIssue(Fresh(), Queue(n - 1, r), call);
      OneMorePass(Fresh(), Queue(n - 1, r), call);
      QueueOne(n - 1, r);
      assert [Pass(1, 1)] + [] == [Pass(1, 1)];
    }
  }

  lemma {:induction false} GuestPasses(r: int)
    requires r > 0
    ensures Run(Fresh(), Queue(0, r)) == State(1, Waiting(0, 0, r)) && Passes(Fresh(), Queue(0, r)) == [Pass(1, 1)]
  {
    var call := Reserve(GUEST, 1, Opening(r));
    assert [] + [call] == [call];
    OneMoreIssue(Fresh(), [], call);
    OneMorePass(Fresh(), [], call);
    assert Swept(map[], 1) == map[];
  }

  lemma {:induction false} QueueOne(k: nat, r: int)
    requires r > 0
    ensures var st := State(if k == 0 then 1 else SlotOf(k - 1, r), Waiting(0, k, r));
            var call := Reserve(Caller(k), 1, if k == 0 then Opening(r) else r);
            After(st, call) == State(SlotOf(k, r), Waiting(0, k + 1, r)) && PassOf(st, call) == []
  {
    hide SlotOf;
    var st := State(if k == 0 then 1 else SlotOf(k - 1, r), Waiting(0, k, r));
    SlotsAfter(if k == 0 then 0 else k - 1, r);
    SlotsAfter(k, r);
    forall a | a in st.slots
      ensures !Stale(st.slots[a], 1) && a != Caller(k)
    {
      WaitingExact(0, k, r, a);
      SlotsAfter(|a.name|, r);
    }
    assert Swept(st.slots, 1) == st.slots;
  }

  /** Callers 0 to j - 1 of the queue come back while the rate is s, caller k at at(k). */
  function Returns(j: nat, s: int, at: nat -> Time): seq<Call> {
    if j == 0 then [] else Returns(j - 1, s, at) + [Reserve(Caller(j - 1), at(j - 1), s)]
  }

  function ReturnPasses(j: nat, r: int, at: nat -> Time): (ps: seq<Pass>)
    requires r > 0
    ensures |ps| == j
  {
    if j == 0 then [] else ReturnPasses(j - 1, r, at) + [Pass(at(j - 1), SlotOf(j - 1, r))]
  }

  /** Every one of them comes back at its slot or within d after it. */
  predicate InTime(n: nat, r: int, at: nat -> Time, d: Duration)
    requires r > 0
  {
    forall k :: 0 <= k < n ==> SlotOf(k, r) <= at(k) <= SlotOf(k, r) + d
  }

  function Comeback(n: nat, j: nat, r: int, s: int, at: nat -> Time): seq<Call> { Queue(n, r) + Returns(j, s, at) }

  lemma {:induction false} ComebackPasses(n: nat, j: nat, r: int, s: int, at: nat -> Time)
    requires r > 0 && j <= n && n > 0 && InTime(n, r, at, STALE_AFTER)
    ensures Run(Fresh(), Comeback(n, j, r, s, at)) == State(SlotOf(n - 1, r), Waiting(j, n, r))
    ensures Passes(Fresh(), Comeback(n, j, r, s, at)) == [Pass(1, 1)] + ReturnPasses(j, r, at)
  {
    hide After, Issues, PassOf, Run, Slots, Passes, SlotOf, Queue, InTime, Waiting;
    if j == 0 {
      QueueWaits(n, r);
      assert Queue(n, r) + [] == Queue(n, r);
    } else {
      ComebackPasses(n, j - 1, r, s, at);
      var front, call := Comeback(n, j - 1, r, s, at), Reserve(Caller(j - 1), at(j - 1), s);
      assert Comeback(n, j, r, s, at) == front + [call];
      OneMoreIssue(Fresh(), front, call);
      OneMorePass(Fresh(), front, call);
      ReturnOne(n, j - 1, r, s, at);
    }
  }

  lemma {:induction false} ReturnOne(n: nat, j: nat, r: int, s: int, at: nat -> Time)
    requires r > 0 && j < n && InTime(n, r, at, STALE_AFTER)
    ensures var st, call := State(SlotOf(n - 1, r), Waiting(j, n, r)), Reserve(Caller(j), at(j), s);
            && After(st, call) == State(SlotOf(n - 1, r), Waiting(j + 1, n, r))
            && PassOf(st, call) == [Pass(at(j), SlotOf(j, r))]
  {
    hide NextSlot, SlotOf, Waiting;
    var slots := Waiting(j, n, r);
    WaitingExact(j, n, r, Caller(j));
    forall a | a in slots
      ensures !Stale(slots[a], at(j))
    {
      WaitingExact(j, n, r, a);
      SlotsMonotone(j, |a.name|, r);
    }
    assert Swept(slots, at(j)) == slots;
    forall a
      ensures a in slots - {Caller(j)} <==> a in Waiting(j + 1, n, r)
      ensures a in Waiting(j + 1, n, r) ==> slots[a] == Waiting(j + 1, n, r)[a]
    {
      WaitingExact(j, n, r, a);
      WaitingExact(j + 1, n, r, a);
    }
    assert slots - {Caller(j)} == Waiting(j + 1, n, r);
  }

  /** The rate is q until t and p from then on. */
  predicate Changed(calls: seq<Call>, t: Time, q: int, p: int) {
    forall i :: 0 <= i < |calls| && calls[i].Reserve? ==> Rate(calls[i].perMinute) == if calls[i].now < t then q else p
  }

  /** Whoever asks from t on asks at a rate of p or less. */
  predicate RateFrom(calls: seq<Call>, t: Time, p: int) {
    forall i :: 0 <= i < |calls| && calls[i].Reserve? && t <= calls[i].now ==> Rate(calls[i].perMinute) <= p
  }

  /** What is asked of the calls of a run whose rate changes from r to s at t, whatever r leaves between slots. */
  predicate Rated(calls: seq<Call>, t: Time, r: int, s: int) {
    && Clocked(calls) && NoFaster(calls, if r < s then s else r) && RateFrom(calls, t, s)
    && (r <= MINUTE ==> Changed(calls, t, r, s))
  }

  lemma {:induction false} RatedOne(calls: seq<Call>, call: Call, t: Time, r: int, s: int)
    requires Rated(calls, t, r, s) && call.Reserve? && call.now > 0 && 0 < call.perMinute
    requires if call.now < t then call.perMinute <= r && (r <= MINUTE ==> call.perMinute == r) else call.perMinute == s
    ensures Rated(calls + [call], t, r, s)
  {
  }

  /** Whoever asks before the first slot of the queue asks at rate r, whoever asks from then on at rate s. */
  lemma {:induction false} ComebackRates(n: nat, j: nat, r: int, s: int, at: nat -> Time)
    requires r > 0 && s > 0 && j <= n && InTime(n, r, at, STALE_AFTER)
    ensures Rated(Comeback(n, j, r, s, at), SlotOf(0, r), r, s)
  {
    hide SlotOf, Queue, InTime, Rated;
    if j == 0 {
      QueueRates(n, r, s);
      assert Queue(n, r) + [] == Queue(n, r);
    } else {
      ComebackRates(n, j - 1, r, s, at);
      var call := Reserve(Caller(j - 1), at(j - 1), s);
      assert Comeback(n, j, r, s, at) == Comeback(n, j - 1, r, s, at) + [call];
      ReturnsLate(n, j - 1, r, at);
      RatedOne(Comeback(n, j - 1, r, s, at), call, SlotOf(0, r), r, s);
    }
  }

  lemma {:induction false} QueueRates(n: nat, r: int, s: int)
    requires r > 0 && s > 0
    ensures Rated(Queue(n, r), SlotOf(0, r), r, s)
  {
    hide SlotOf, Rated;
    SlotsAfter(0, r);
    if n == 0 {
      assert Rated([], SlotOf(0, r), r, s) by { NoneRated(SlotOf(0, r), r, s); }
      assert [] + [Reserve(GUEST, 1, Opening(r))] == Queue(0, r);
      RatedOne([], Reserve(GUEST, 1, Opening(r)), SlotOf(0, r), r, s);
    } else {
      QueueRates(n - 1, r, s);
      RatedOne(Queue(n - 1, r), Reserve(Caller(n - 1), 1, if n == 1 then Opening(r) else r), SlotOf(0, r), r, s);
    }
  }

  lemma {:induction false} NoneRated(t: Time, r: int, s: int)
    ensures Rated([], t, r, s)
  {
  }

  lemma {:induction false} ReturnsLate(n: nat, k: nat, r: int, at: nat -> Time)
    requires r > 0 && k < n && InTime(n, r, at, STALE_AFTER)
    ensures at(k) >= SlotOf(0, r) >= 2
  {
    hide SlotOf;
    SlotsAfter(k, r);
  }

  lemma {:induction false} ReturnTimes(j: nat, r: int, at: nat -> Time)
    requires r > 0
    ensures var ps := [Pass(1, 1)] + ReturnPasses(j, r, at);
            |ps| == j + 1 && ps[0] == Pass(1, 1) && forall k :: 0 < k <= j ==> ps[k] == Pass(at(k - 1), SlotOf(k - 1, r))
  {
    hide SlotOf;
    if j > 0 {
      ReturnTimes(j - 1, r, at);
      var ps, front := [Pass(1, 1)] + ReturnPasses(j, r, at), [Pass(1, 1)] + ReturnPasses(j - 1, r, at);
      assert ps == front + [Pass(at(j - 1), SlotOf(j - 1, r))];
    }
  }

  /** What n callers, back within d of their slots and all inside [from, to), amount to. */
  lemma {:induction false} ComebackCount(n: nat, r: int, s: int, at: nat -> Time, d: Duration, from: Time, to: Time)
    requires r > 0 && s > 0 && n > 0 && 0 <= d <= STALE_AFTER && InTime(n, r, at, d)
    requires forall k :: 0 <= k < n ==> from <= at(k) < to
    ensures var calls := Comeback(n, n, r, s, at);
            Prompt(Passes(Fresh(), calls), d) && Within(Times(Passes(Fresh(), calls)), from, to) >= n
  {
    hide SlotOf, Within, Passes, Times, Comeback;
    assert InTime(n, r, at, STALE_AFTER);
    ComebackPasses(n, n, r, s, at);
    ReturnTimes(n, r, at);
    var ps := Passes(Fresh(), Comeback(n, n, r, s, at));
    TimesAt(ps);
    forall k | 1 <= k < |ps|
      ensures from <= Times(ps)[k] < to && ps[k].at - ps[k].slot <= d
    {
      assert from <= at(k - 1) < to && at(k - 1) <= SlotOf(k - 1, r) + d;
    }
    AllWithin(Times(ps), 1, from, to);
  }

  /** Late returns bunch: n apps queued by one burst can all pass at the same instant, ten minutes' worth and one. */
  lemma {:induction false} AllAtOnce(p: int) returns (calls: seq<Call>, t: Time)
    requires p > 0 && MINUTE % p == 0
    ensures Clocked(calls) && Changed(calls, t, p, p)
    ensures Within(Times(Passes(Fresh(), calls)), t, t + 1) >= 10 * p + 1
  {
    hide SlotOf, InTime, Within, Passes, Times, Comeback, Clocked, NoFaster, RateFrom;
    DivideMinute(p);
    var n := 10 * p + 1;
    t := SlotOf(n - 1, p);
    var at: nat -> Time := k => t;
    BunchInTime(n, p, t);
    ComebackCount(n, p, p, at, STALE_AFTER, t, t + 1);
    ComebackRates(n, n, p, p, at);
    calls := Comeback(n, n, p, p, at);
  }

  lemma {:induction false} BunchInTime(n: nat, p: int, t: Time)
    requires 0 < p && MINUTE % p == 0 && n == 10 * p + 1 && t == SlotOf(n - 1, p)
    ensures InTime(n, p, k => t, STALE_AFTER)
  {
    hide Product;
    forall k | 0 <= k < n
      ensures SlotOf(k, p) <= t <= SlotOf(k, p) + STALE_AFTER
    {
      SlotsMonotone(k, n - 1, p);
      SlotsMonotone(0, k, p);
      ProductNext(0, MINUTE / p);
      DivideMinute(p);
      TenTimes(p, MINUTE / p);
    }
  }

  // ----- When the cap holds ------------------------------------------------------------------------------------

  /**
  In every run, a half-open minute from which on the rate in force is at most p sees no more than p
  re-renders, if no app passes more than d after its slot and no slot from d before the minute on was
  issued at a rate above q.
   */
  ghost predicate Capped(p: int, d: Duration, q: int) {
    forall calls, t :: Clocked(calls) && RateFrom(calls, t, p) && IssuedAtMost(calls, t - d, t + MINUTE, q) ==>
      (Prompt(Passes(Fresh(), calls), d) ==> InMinute(Times(Passes(Fresh(), calls)), t) <= p)
  }

  /** The same for the runs with one change of the rate, from q to p where the minute starts. */
  ghost predicate CappedOnceChanged(p: int, d: Duration, q: int) {
    forall calls, t :: Clocked(calls) && Changed(calls, t, q, p) ==>
      (Prompt(Passes(Fresh(), calls), d) ==> InMinute(Times(Passes(Fresh(), calls)), t) <= p)
  }

  /** A run that breaks the cap p, nobody being more than d late; the rate changes to p where the minute starts. */
  predicate Breaks(calls: seq<Call>, t: Time, p: int, d: Duration, r: int) {
    Rated(calls, t, r, p) && Prompt(Passes(Fresh(), calls), d) && InMinute(Times(Passes(Fresh(), calls)), t) > p
  }

  lemma {:induction false} BrokenCap(calls: seq<Call>, t: Time, p: int, d: Duration, q: int)
    requires p <= q && Breaks(calls, t, p, d, q)
    ensures !Capped(p, d, q) && (q <= MINUTE ==> !CappedOnceChanged(p, d, q))
  {
    hide Clocked, RateFrom, NoFaster, IssuedAtMost, Changed, Prompt, Passes, InMinute;
    NoFasterIssues(calls, q, t - d, t + MINUTE);
  }

  lemma {:induction false} CappedChange(p: int, d: Duration, q: int)
    requires p <= q && Capped(p, d, q)
    ensures CappedOnceChanged(p, d, q)
  {
    hide Clocked, IssuedAtMost, Prompt, Passes, InMinute;
    forall calls, t | Clocked(calls) && Changed(calls, t, q, p)
      ensures Prompt(Passes(Fresh(), calls), d) ==> InMinute(Times(Passes(Fresh(), calls)), t) <= p
    {
      assert NoFaster(calls, q) && RateFrom(calls, t, p);
      NoFasterIssues(calls, q, t - d, t + MINUTE);
    }
  }

  lemma {:induction false} PromptWithin(ps: seq<Pass>, d: Duration, e: Duration)
    requires Prompt(ps, d) && d <= e
    ensures Prompt(ps, e)
  {
  }

  function OnTheDot(r: int): nat -> Time
    requires r > 0
  {
    (k: nat) => SlotOf(k, r)
  }

  lemma {:induction false} DotInTime(n: nat, r: int)
    requires r > 0
    ensures InTime(n, r, OnTheDot(r), 0) && InTime(n, r, OnTheDot(r), STALE_AFTER)
  {
    hide SlotOf;
  }

  /** p + 1 callers queued at rate r, whose slots one minute holds, all come back on time at rate p. */
  lemma {:induction false} OverfullMinute(p: int, d: Duration, r: int) returns (calls: seq<Call>, t: Time)
    requires 0 < p <= r && d >= 0 && Product(p, MINUTE / r) < MINUTE
    ensures Breaks(calls, t, p, d, r)
  {
    hide Passes, SlotOf, Within, Clocked, RateFrom, NoFaster, Changed, InTime, Times, Comeback, Prompt, OnTheDot;
    calls, t := Comeback(p + 1, p + 1, r, p, OnTheDot(r)), SlotOf(0, r);
    DotInTime(p + 1, r);
    ComebackRates(p + 1, p + 1, r, p, OnTheDot(r));
    forall k | 0 <= k < p + 1
      ensures t <= OnTheDot(r)(k) < t + MINUTE
    {
      DotInMinute(k, p, r);
    }
    ComebackCount(p + 1, r, p, OnTheDot(r), 0, t, t + MINUTE);
    PromptWithin(Passes(Fresh(), calls), 0, d);
  }

  lemma {:induction false} DotInMinute(k: nat, p: int, r: int)
    requires k <= p && 0 < p <= r && Product(p, MINUTE / r) < MINUTE
    ensures SlotOf(0, r) <= OnTheDot(r)(k) < SlotOf(0, r) + MINUTE
  {
    hide Product;
    SlotsAfter(k, r);
    ProductNext(0, MINUTE / r);
    ProductMono(k, p, MINUTE / r);
  }

  /** A rate that does not divide a minute fails even if every app comes back exactly at its slot. */
  lemma {:induction false} UnevenRate(p: int, d: Duration) returns (calls: seq<Call>, t: Time)
    requires 0 < p && MINUTE % p != 0 && d >= 0
    ensures Breaks(calls, t, p, d, p)
  {
    DivideMinute(p);
    calls, t := OverfullMinute(p, d, p);
  }

  /**
  Lowering the rate fails too, with nobody late: slots already given out keep the distance of the rate
  before, and coming back for one asks nothing of the rate in force.
   */
  lemma {:induction false} LoweredRate(p: int, d: Duration, q: int) returns (calls: seq<Call>, t: Time)
    requires 0 < p < q && d >= 0
    ensures Breaks(calls, t, p, d, q)
  {
    LoweredRoom(p, q);
    calls, t := OverfullMinute(p, d, q);
  }

  lemma {:induction false} LoweredRoom(p: int, q: int)
    requires 0 < p < q
    ensures Product(p, MINUTE / q) < MINUTE
  {
    hide Product;
    DivideMinute(q);
    ProductNext(p, MINUTE / q);
    ProductMono(p + 1, q, MINUTE / q);
    if MINUTE / q == 0 { ProductNext(0, p); ProductNext(p, 0); }
  }

  /** A single nanosecond's delay fails at any rate. */
  lemma {:induction false} LateReturn(p: int, d: Duration) returns (calls: seq<Call>, t: Time)
    requires 0 < p && MINUTE % p == 0 && d >= 1
    ensures Breaks(calls, t, p, d, p)
  {
    hide Passes, SlotOf, Within, Clocked, RateFrom, NoFaster, InTime, Times, Comeback, Prompt;
    DivideMinute(p);
    var at: nat -> Time := (k: nat) => SlotOf(k, p) + if k == 0 then 1 else 0;
    assert InTime(p + 1, p, at, 1) && InTime(p + 1, p, at, STALE_AFTER) by { OneLate(p + 1, p); }
    calls, t := Comeback(p + 1, p + 1, p, p, at), SlotOf(0, p) + 1;
    forall k | 0 <= k < p + 1
      ensures t <= at(k) < t + MINUTE
    {
      LateSlot(k, p);
    }
    ComebackCount(p + 1, p, p, at, 1, t, t + MINUTE);
    ComebackRates(p + 1, p + 1, p, p, at);
    RateLater(calls, SlotOf(0, p), t, p);
    PromptWithin(Passes(Fresh(), calls), 1, d);
  }

  lemma {:induction false} RateLater(calls: seq<Call>, t: Time, u: Time, p: int)
    requires Changed(calls, t, p, p)
    ensures Changed(calls, u, p, p) && RateFrom(calls, u, p)
  {
  }

  lemma {:induction false} OneLate(n: nat, p: int)
    requires p > 0
    ensures var at: nat -> Time := (k: nat) => SlotOf(k, p) + if k == 0 then 1 else 0;
            InTime(n, p, at, 1) && InTime(n, p, at, STALE_AFTER)
  {
    hide SlotOf;
  }

  lemma {:induction false} LateSlot(k: nat, p: int)
    requires 0 < p && MINUTE % p == 0 && k <= p
    ensures var t := SlotOf(0, p) + 1;
            t <= SlotOf(k, p) + (if k == 0 then 1 else 0) < t + MINUTE
  {
    hide Product;
    DivideMinute(p);
    FillsMinute(p);
    SlotsAfter(0, p);
    ProductNext(0, MINUTE / p);
    if k > 0 { SlotsMonotone(1, k, p); }
    ProductMono(k, p, MINUTE / p);
  }

  /**
  The promised cap: p re-renders a minute while the rate in force is p. Over all runs in which no app passes
  more than d after its slot and no open slot was issued at a rate above q, it holds if and only if p
  divides a minute, no app is ever late, and no slot of a higher rate is open. The runs in which the rate
  never changes (q == p) or was lowered once, from q to p, already decide it.
   */
  lemma {:induction false} CapExact(p: int, d: Duration, q: int)
    requires 0 < p <= q && d >= 0
    ensures Capped(p, d, q) <==> MINUTE % p == 0 && d == 0 && q == p
    ensures q <= MINUTE ==> (CappedOnceChanged(p, d, q) <==> MINUTE % p == 0 && d == 0 && q == p)
  {
    hide Passes, Times, InMinute, Clocked, RateFrom, IssuedAtMost, Prompt, Backlog, Breaks, CappedOnceChanged;
    if q > p {
      var calls, t := LoweredRate(p, d, q);
      BrokenCap(calls, t, p, d, q);
    } else if MINUTE % p != 0 {
      var calls, t := UnevenRate(p, d);
      BrokenCap(calls, t, p, d, q);
    } else if d > 0 {
      var calls, t := LateReturn(p, d);
      BrokenCap(calls, t, p, d, q);
    } else {
      forall calls, t | Clocked(calls) && RateFrom(calls, t, p) && IssuedAtMost(calls, t - d, t + MINUTE, q)
        ensures Prompt(Passes(Fresh(), calls), d) ==> InMinute(Times(Passes(Fresh(), calls)), t) <= p
      {
        if Prompt(Passes(Fresh(), calls), d) { PassesPerMinute(calls, p, 0, t); }
        NoDelay(p);
      }
      CappedChange(p, d, q);
    }
  }
}
