/**
The limiter that paces platform-triggered re-renders: it hands out slots spaced
60/maxAppsPerMinute seconds apart and lets each app through once its slot has come.

Times are nanoseconds since Go's zero time.Time; 0 is that zero value.
 */
module RolloutLimiter {
  import opened Arithmetic
  import opened Wrappers

  datatype App = App(namespace: string, name: string)

  type Time = int
  type Duration = int

  const MINUTE: Duration := 60_000_000_000
  const STALE_AFTER: Duration := 10 * MINUTE
  const DEFAULT_RATE: nat := 10

  // ----- Specification ------------------------------------------------------------------------

  /** last is the latest slot handed out, 0 before the first; slots are the outstanding ones. */
  datatype State = State(last: Time, slots: map<App, Time>)

  function Rate(perMinute: int): (p: int)
    ensures p > 0
  {
    if perMinute <= 0 then DEFAULT_RATE else perMinute
  }

  function Interval(perMinute: int): (d: Duration)
    ensures 0 <= d
  {
    MINUTE / Rate(perMinute)
  }

  predicate Stale(slot: Time, now: Time) { now - slot > STALE_AFTER }

  function Swept(slots: map<App, Time>, now: Time): map<App, Time> {
    map k | k in slots && !Stale(slots[k], now) :: slots[k]
  }

  /** The slot a newcomer gets: now, unless the previous slot is less than an interval away. */
  function NextSlot(last: Time, now: Time, perMinute: int): Time {
    if last != 0 && last + Interval(perMinute) > now then last + Interval(perMinute) else now
  }

  /** What one reservation call does: the state it leaves, the wait it returns, the slot it issues. */
  datatype Outcome = Outcome(state: State, wait: Duration, issued: Option<Time>)

  function Reserved(st: State, app: App, now: Time, perMinute: int): Outcome {
    var slots := Swept(st.slots, now);
    if app in slots then
      if now >= slots[app] then Outcome(State(st.last, slots - {app}), 0, None)
      else Outcome(State(st.last, slots), slots[app] - now, None)
    else
      var slot := NextSlot(st.last, now, perMinute);
      if slot <= now then Outcome(State(slot, slots), 0, Some(slot))
      else Outcome(State(slot, slots[app := slot]), slot - now, Some(slot))
  }

  function Released(st: State, app: App): State {
    State(st.last, st.slots - {app})
  }

  // ----- The limiter object ---------------------------------------------------------------------

  class Limiter {
    var last: Time
    var slots: map<App, Time>
    ghost var history: seq<Call>

    /** The calls made so far lead here. */
    ghost predicate Valid()
      reads this
    {
      Abs() == Run(Fresh(), history)
    }

    function Abs(): State
      reads this
    {
      State(last, slots)
    }

    constructor ()
      ensures Abs() == State(0, map[]) && Valid() && history == []
    {
      last := 0;
      slots := map[];
      history := [];
    }

    method Reserve(app: App, now: Time, perMinute: int) returns (wait: Duration)
      modifies this
      ensures Abs() == Reserved(old(Abs()), app, now, perMinute).state
      ensures wait == Reserved(old(Abs()), app, now, perMinute).wait
      ensures history == old(history) + [Call.Reserve(app, now, perMinute)] && (old(Valid()) ==> Valid())
    {
      history := history + [Call.Reserve(app, now, perMinute)];
      assert old(Valid()) ==> Run(Fresh(), history) == Reserved(old(Abs()), app, now, perMinute).state;
      var rate := if perMinute <= 0 then DEFAULT_RATE else perMinute;
      var interval := MINUTE / rate;
      var keys := slots.Keys;
      while keys != {}
        invariant keys <= old(slots).Keys
        invariant slots.Keys <= old(slots).Keys && forall k :: k in slots ==> slots[k] == old(slots)[k]
        invariant forall k :: k in keys ==> k in slots
        invariant forall k :: k in old(slots) && k !in keys ==> (k in slots <==> !Stale(old(slots)[k], now))
        invariant last == old(last) && history == old(history) + [Call.Reserve(app, now, perMinute)]
        decreases keys
      {
        var k :| k in keys;
        if now - slots[k] > STALE_AFTER {
          slots := slots - {k};
        }
        keys := keys - {k};
      }
      assert slots == Swept(old(slots), now);
      if app in slots {
        var slot := slots[app];
        if now >= slot {
          slots := slots - {app};
          return 0;
        }
        return slot - now;
      }
      var slot := now;
      var next := last + interval;
      if last != 0 && next > now {
        slot := next;
      }
      last := slot;
      if slot <= now { return 0; }
      slots := slots[app := slot];
      wait := slot - now;
    }

    method Release(app: App)
      modifies this
      ensures Abs() == Released(old(Abs()), app)
      ensures history == old(history) + [Call.Release(app)] && (old(Valid()) ==> Valid())
    {
      history := history + [Call.Release(app)];
      assert old(Valid()) ==> Run(Fresh(), history) == Released(old(Abs()), app);
      if app !in slots {
        assert slots - {app} == slots;
        return;
      }
      slots := slots - {app};
    }

    /** How many apps have been told a time to come back at that they have not lived up to or lost. */
    method Pending() returns (n: nat)
      requires Valid()
      ensures n == |Promised(history)|
    {
      PendingIsPromised(history);
      n := |slots|;
    }
  }

  // ----- Runs --------------------------------------------------------------------------------------

  datatype Call =
    | Reserve(app: App, now: Time, perMinute: int)
    | Release(app: App)

  function After(st: State, call: Call): State {
    match call
    case Reserve(app, now, perMinute) => Reserved(st, app, now, perMinute).state
    case Release(app) => Released(st, app)
  }

  function Issues(st: State, call: Call): Option<Time> {
    match call
    case Reserve(app, now, perMinute) => Reserved(st, app, now, perMinute).issued
    case Release(_) => None
  }

  function Run(st: State, calls: seq<Call>): State {
    if |calls| == 0 then st else After(Run(st, calls[..|calls| - 1]), calls[|calls| - 1])
  }

  /**
  The times apps were told to come back at and are still expected, from the answers alone: a wait puts
  the app down for its end, an answer of 0 or a release strikes it off, and every question strikes off
  whoever is ten minutes overdue.
   */
  function Promised(calls: seq<Call>): map<App, Time> {
    if |calls| == 0 then map[]
    else
      var front, call := calls[..|calls| - 1], calls[|calls| - 1];
      match call
      case Release(app) => Promised(front) - {app}
      case Reserve(app, now, perMinute) =>
        var wait := Reserved(Run(Fresh(), front), app, now, perMinute).wait;
        var expected := Swept(Promised(front), now);
        if wait > 0 then expected[app := now + wait] else expected - {app}
  }

  /** What the limiter remembers is exactly what it promised. */
  lemma {:induction false} PendingIsPromised(calls: seq<Call>)
    ensures Run(Fresh(), calls).slots == Promised(calls)
  {
    hide Swept, NextSlot;
    if |calls| > 0 {
      var front, call := calls[..|calls| - 1], calls[|calls| - 1];
      PendingIsPromised(front);
      if call.Reserve? {
        var slots := Swept(Run(Fresh(), front).slots, call.now);
        if call.app !in slots { assert slots - {call.app} == slots; }
        if call.app in slots { assert slots[call.app := slots[call.app]] == slots; }
      }
    }
  }

  /** The slots issued over a run, in the order they were handed out. */
  function Slots(st: State, calls: seq<Call>): seq<Time> {
    if |calls| == 0 then []
    else
      var front := calls[..|calls| - 1];
      match Issues(Run(st, front), calls[|calls| - 1])
      case Some(slot) => Slots(st, front) + [slot]
      case None => Slots(st, front)
  }

  /** Every caller's clock is past the zero time; callers' clocks may still jump either way. */
  predicate Clocked(calls: seq<Call>) {
    forall i :: 0 <= i < |calls| && calls[i].Reserve? ==> calls[i].now > 0
  }

  predicate NoFaster(calls: seq<Call>, p: int) {
    forall i :: 0 <= i < |calls| && calls[i].Reserve? ==> Rate(calls[i].perMinute) <= p
  }

  /** The rates the slots of a run were issued at; the rate may change from one call to the next. */
  function Rates(st: State, calls: seq<Call>): seq<int> {
    if |calls| == 0 then []
    else
      var front := calls[..|calls| - 1];
      match calls[|calls| - 1]
      case Release(_) => Rates(st, front)
      case Reserve(app, now, perMinute) =>
        if Reserved(Run(st, front), app, now, perMinute).issued.Some? then Rates(st, front) + [Rate(perMinute)]
        else Rates(st, front)
  }

  /** No slot in [from, to) was issued at a rate above p. */
  predicate IssuedAtMost(calls: seq<Call>, from: Time, to: Time, p: int) {
    var slots, rates := Slots(Fresh(), calls), Rates(Fresh(), calls);
    |slots| == |rates| && SlowWithin(slots, rates, from, to, p)
  }

  predicate SlowWithin(slots: seq<Time>, rates: seq<int>, from: Time, to: Time, p: int)
    requires |slots| == |rates|
  {
    forall k :: 0 <= k < |slots| && from <= slots[k] < to ==> rates[k] <= p
  }

  function Fresh(): State { State(0, map[]) }

  // ----- Spacing -----------------------------------------------------------------------------------

  /** Each slot keeps the distance of the rate it was issued at from the slot before it. */
  predicate Spaced(slots: seq<Time>, rates: seq<int>) {
    && |slots| == |rates| && (forall k :: 0 <= k < |rates| ==> rates[k] > 0)
    && forall k :: 0 <= k < |slots| - 1 ==> slots[k + 1] - slots[k] >= Interval(rates[k + 1])
  }

  lemma {:induction false} IssueStep(st: State, call: Call)
    requires st.last >= 0 && (call.Reserve? ==> call.now > 0)
    ensures match Issues(st, call)
            case Some(slot) =>
              call.Reserve? && After(st, call).last == slot > 0
              && (st.last > 0 ==> slot - st.last >= Interval(Rate(call.perMinute)))
            case None => After(st, call).last == st.last
  {
  }

  /** Successive slots keep the distance of the rate in force, whatever times and rates the callers pass. */
  lemma {:induction false} SlotsSpaced(calls: seq<Call>)
    requires Clocked(calls)
    ensures Spaced(Slots(Fresh(), calls), Rates(Fresh(), calls))
    ensures var slots := Slots(Fresh(), calls);
            Run(Fresh(), calls).last == if |slots| == 0 then 0 else slots[|slots| - 1]
    ensures forall i :: 0 <= i < |Slots(Fresh(), calls)| ==> Slots(Fresh(), calls)[i] > 0
  {
    hide After, Reserved, Interval;
    if |calls| > 0 {
      var front, call := calls[..|calls| - 1], calls[|calls| - 1];
      SlotsSpaced(front);
      IssueStep(Run(Fresh(), front), call);
    }
  }

  lemma {:induction false} NoFasterIssues(calls: seq<Call>, p: int, from: Time, to: Time)
    requires Clocked(calls) && NoFaster(calls, p)
    ensures IssuedAtMost(calls, from, to, p)
  {
    hide Slots, Clocked;
    SlotsSpaced(calls);
    RatesBelow(calls, p);
  }

  lemma {:induction false} RatesBelow(calls: seq<Call>, p: int)
    requires NoFaster(calls, p)
    ensures forall k :: 0 <= k < |Rates(Fresh(), calls)| ==> Rates(Fresh(), calls)[k] <= p
  {
    hide Reserved;
    if |calls| > 0 { RatesBelow(calls[..|calls| - 1], p); }
  }

  /** A lower rate never shortens the interval. */
  lemma {:induction false} SlowerApart(q: int, p: int)
    requires 0 < q <= p
    ensures Interval(q) >= MINUTE / p
  {
    hide Product;
    DivideMinute(p);
    DivideMinute(q);
    var a := MINUTE / p;
    if MINUTE / q < a {
      ProductMono(MINUTE / q + 1, a, q);
      ProductMono(q, p, a);
      ProductNext(MINUTE / q, q);
      ProductNext(a, q);
      ProductNext(q - 1, MINUTE / q);
    }
  }

  lemma {:induction false} SlotsAscend(slots: seq<Time>, rates: seq<int>, i: nat, j: nat)
    requires Spaced(slots, rates) && i <= j < |slots|
    ensures slots[i] <= slots[j]
    decreases j
  {
    hide Interval;
    if i < j { SlotsAscend(slots, rates, i, j - 1); }
  }

  /** Inside a window whose slots were issued at no more than p, slots are an interval of p apart. */
  lemma {:induction false} SpacedFar(slots: seq<Time>, rates: seq<int>, i: nat, j: nat, from: Time, to: Time, p: int)
    requires Spaced(slots, rates) && p > 0 && SlowWithin(slots, rates, from, to, p)
    requires i <= j < |slots| && from <= slots[i] && slots[j] < to
    ensures slots[j] - slots[i] >= Product(j - i, MINUTE / p)
    decreases j
  {
    hide Interval, Product;
    ProductNext(j - 1 - i, MINUTE / p);
    ProductNext(0, MINUTE / p);
    if i < j {
      SlotsAscend(slots, rates, i, j - 1);
      SlotsAscend(slots, rates, j - 1, j);
      SpacedFar(slots, rates, i, j - 1, from, to, p);
      SlowerApart(rates[j], p);
    }
  }

  /** How many of the times fall into [from, to). */
  function Within(times: seq<Time>, from: Time, to: Time): nat {
    if |times| == 0 then 0
    else Within(times[..|times| - 1], from, to) + if from <= times[|times| - 1] < to then 1 else 0
  }

  /** How many fall into the half-open minute that starts at t. */
  function InMinute(times: seq<Time>, t: Time): nat { Within(times, t, t + MINUTE) }

  /** n slots in one window: the n-th slot after some slot of that window is also in it. */
  lemma {:induction false} WindowSpan(slots: seq<Time>, rates: seq<int>, from: Time, to: Time) returns (i: nat)
    requires Spaced(slots, rates) && Within(slots, from, to) > 0
    ensures var j := i + Within(slots, from, to) - 1;
            j < |slots| && from <= slots[i] && slots[j] < to
  {
    hide Interval;
    var k := |slots| - 1;
    var front := slots[..k];
    i := k;
    if Within(front, from, to) > 0 {
      i := WindowSpan(front, rates[..k], from, to);
      SlotsAscend(slots, rates, i + Within(slots, from, to) - 1, k);
    }
  }

  lemma {:induction false} DivideMinute(p: int)
    requires p > 0
    ensures var pd := Product(p, MINUTE / p);
            pd <= MINUTE < pd + p && (MINUTE % p == 0 <==> pd == MINUTE)
  {
  }

  /** How many intervals of rate p a time of d reaches into. */
  function Backlog(p: int, d: Duration): nat
    requires p > 0 && d >= 0
  {
    if MINUTE / p == 0 then 0 else (d + MINUTE / p - 1) / (MINUTE / p)
  }

  lemma {:induction false} NoDelay(p: int)
    requires p > 0
    ensures Backlog(p, 0) == 0
  {
  }

  lemma {:induction false} CoversDelay(d: int, i: int)
    requires i > 0 && d >= 0
    ensures Product((d + i - 1) / i, i) >= d
  {
    var q := (d + i - 1) / i;
    assert q * i + (d + i - 1) % i == d + i - 1;
  }

  /** p + 1 intervals fill a minute, and p do when p divides it. */
  lemma {:induction false} FillsMinute(p: int)
    requires p > 0 && (MINUTE % p == 0 || p * p <= MINUTE)
    ensures MINUTE / p > 0 && Product(if MINUTE % p == 0 then p else p + 1, MINUTE / p) >= MINUTE
  {
    hide Product;
    var i := MINUTE / p;
    DivideMinute(p);
    ProductNext(p, i);
    ProductNext(i, p);
    ProductNext(0, p);
    if i == 0 { ProductNext(p - 1, 0); }
    if MINUTE % p != 0 && i + 1 <= p {
      assert p * p == Product(p, p) by { SquareIsProduct(p); }
      ProductMono(i + 1, p, p);
    }
  }

  /** Intervals of p that fit into a minute and d more: p of them and those of d, or one more when p does not divide a minute. */
  lemma {:induction false} RoomInWindow(n: nat, p: int, d: Duration)
    requires p > 0 && d >= 0 && n > 0 && Product(n - 1, MINUTE / p) < MINUTE + d
    ensures MINUTE % p == 0 ==> n <= p + Backlog(p, d)
    ensures p * p <= MINUTE ==> n <= p + 1 + Backlog(p, d)
  {
    hide Product;
    if MINUTE % p == 0 || p * p <= MINUTE {
      var i, b, whole := MINUTE / p, Backlog(p, d), if MINUTE % p == 0 then p else p + 1;
      FillsMinute(p);
      CoversDelay(d, i);
      if n > whole + b {
        ProductMono(whole + b, n - 1, i);
        ProductSum(whole, b, i);
      }
    }
  }

  /** n slots in one window, none of them issued at a rate above p, leave room for n - 1 intervals of p in it. */
  lemma {:induction false} WindowSlots(calls: seq<Call>, p: int, from: Time, to: Time)
    requires p > 0 && Clocked(calls) && IssuedAtMost(calls, from, to, p)
    ensures var n := Within(Slots(Fresh(), calls), from, to);
            n > 0 ==> Product(n - 1, MINUTE / p) < to - from
  {
    hide Slots, Rates, Within, Spaced, SlowWithin, Product;
    var slots, rates := Slots(Fresh(), calls), Rates(Fresh(), calls);
    var n := Within(slots, from, to);
    SlotsSpaced(calls);
    if n > 0 {
      var i := WindowSpan(slots, rates, from, to);
      SpacedFar(slots, rates, i, i + n - 1, from, to, p);
    }
  }

  /**
  A half-open minute none of whose slots was issued at a rate above p is issued at most p slots if p
  divides a minute, and at most p + 1 for every other p with p^2 no more than a minute's nanoseconds.
   */
  lemma {:induction false} RateBound(calls: seq<Call>, p: int, t: Time)
    requires p > 0 && Clocked(calls) && IssuedAtMost(calls, t, t + MINUTE, p)
    ensures var n := InMinute(Slots(Fresh(), calls), t);
            && (MINUTE % p == 0 ==> n <= p)
            && (p * p <= MINUTE ==> n <= p + 1)
  {
    hide Slots, Within, Product, Backlog;
    var n := InMinute(Slots(Fresh(), calls), t);
    WindowSlots(calls, p, t, t + MINUTE);
    NoDelay(p);
    if n > 0 { RoomInWindow(n, p, 0); }
  }

  function Letters(k: nat): (s: string)
    ensures |s| == k
  {
    if k == 0 then "" else Letters(k - 1) + "a"
  }

  /** The first n of a row of different apps, all asking at the same instant. */
  function Burst(n: nat, p: int): seq<Call> {
    if n == 0 then [] else Burst(n - 1, p) + [Reserve(App("", Letters(n - 1)), 1, p)]
  }

  lemma {:induction false} BurstClocked(n: nat, p: int)
    requires p > 0
    ensures |Burst(n, p)| == n && Clocked(Burst(n, p)) && NoFaster(Burst(n, p), p)
  {
    if n > 0 { BurstClocked(n - 1, p); }
  }

  /** The slot after k others: k intervals after the first. */
  lemma {:induction false} BurstNext(k: nat, p: int)
    requires p > 0
    ensures NextSlot(if k == 0 then 0 else 1 + Product(k - 1, MINUTE / p), 1, p) == 1 + Product(k, MINUTE / p)
  {
    hide Product;
    ProductNext(k - 1, MINUTE / p);
    ProductNext(0, MINUTE / p);
    ProductMono(0, k, MINUTE / p);
    if k > 0 { ProductMono(0, k - 1, MINUTE / p); }
  }

  lemma {:induction false} NoCalls(st: State)
    ensures Run(st, []) == st && Slots(st, []) == []
  {
  }

  lemma {:induction false} OneMoreIssue(st: State, calls: seq<Call>, call: Call)
    ensures Run(st, calls + [call]) == After(Run(st, calls), call)
    ensures Slots(st, calls + [call])
         == Slots(st, calls) + (match Issues(Run(st, calls), call) case Some(slot) => [slot] case None => [])
  {
    hide After, Issues;
    assert (calls + [call])[..|calls|] == calls;
  }

  lemma {:induction false} BurstSlots(n: nat, p: int)
    requires p > 0
    ensures var slots, st := Slots(Fresh(), Burst(n, p)), Run(Fresh(), Burst(n, p));
            && |slots| == n
            && (forall k :: 0 <= k < n ==> slots[k] == 1 + Product(k, MINUTE / p))
            && st.last == (if n == 0 then 0 else 1 + Product(n - 1, MINUTE / p))
            && forall a :: a in st.slots ==> |a.name| < n
  {
    hide Product, After, Issues, NextSlot, Run, Slots;
    if n == 0 {
      NoCalls(Fresh());
    } else {
      var front := Burst(n - 1, p);
      BurstSlots(n - 1, p);
      OneMoreIssue(Fresh(), front, Reserve(App("", Letters(n - 1)), 1, p));
      BurstNext(n - 1, p);
      BurstStep(Run(Fresh(), front), n - 1, p);
    }
  }

  lemma {:induction false} BurstStep(st: State, k: nat, p: int)
    requires p > 0 && forall a :: a in st.slots ==> |a.name| < k
    ensures var call := Reserve(App("", Letters(k)), 1, p);
            && Issues(st, call) == Some(NextSlot(st.last, 1, p))
            && After(st, call).last == NextSlot(st.last, 1, p)
            && forall a :: a in After(st, call).slots ==> |a.name| < k + 1
  {
  }

  /** Times all in a window, from the k-th on. */
  lemma {:induction false} AllWithin(times: seq<Time>, k: nat, from: Time, to: Time)
    requires k <= |times| && forall i :: k <= i < |times| ==> from <= times[i] < to
    ensures |times| - k <= Within(times, from, to) <= |times|
  {
    if k < |times| {
      AllWithin(times[..|times| - 1], k, from, to);
    } else {
      WithinAll(times, from, to);
    }
  }

  lemma {:induction false} WithinAll(times: seq<Time>, from: Time, to: Time)
    ensures Within(times, from, to) <= |times|
  {
    if |times| > 0 { WithinAll(times[..|times| - 1], from, to); }
  }

  /** No half-open minute of any run is issued more than p slots, if none of its slots was issued at a rate above p. */
  ghost predicate AtMostPerMinute(p: int) {
    forall calls, t :: Clocked(calls) && IssuedAtMost(calls, t, t + MINUTE, p) ==> InMinute(Slots(Fresh(), calls), t) <= p
  }

  /**
  At most p slots are issued for any minute of any run exactly when p divides a minute: for any other
  rate the spacing rounds down, and p + 1 apps asking together are given slots in one minute.
   */
  lemma {:induction false} RateExact(p: int)
    requires p > 0
    ensures AtMostPerMinute(p) <==> MINUTE % p == 0
  {
    hide Slots, Within, Clocked, IssuedAtMost, NoFaster, Burst, Product;
    if MINUTE % p == 0 {
      forall calls, t | Clocked(calls) && IssuedAtMost(calls, t, t + MINUTE, p)
        ensures InMinute(Slots(Fresh(), calls), t) <= p
      {
        RateBound(calls, p, t);
      }
    } else {
      var calls := Burst(p + 1, p);
      var slots := Slots(Fresh(), calls);
      BurstClocked(p + 1, p);
      NoFasterIssues(calls, p, 1, 1 + MINUTE);
      BurstSlots(p + 1, p);
      DivideMinute(p);
      forall k | 0 <= k < |slots|
        ensures 1 <= slots[k] < 1 + MINUTE
      {
        ProductMono(k, p, MINUTE / p);
        ProductMono(0, k, MINUTE / p);
        ProductNext(0, MINUTE / p);
      }
      AllWithin(slots, 0, 1, 1 + MINUTE);
      assert InMinute(Slots(Fresh(), calls), 1) == p + 1;
    }
  }

  // ----- What an answer says ---------------------------------------------------------------------------

  /** A slot given out and not ten minutes overdue. */
  predicate Holds(st: State, app: App, now: Time) { app in st.slots && now - st.slots[app] <= 600_000_000_000 }

  /** t is late enough for a slot: not before now, and a p-th of a minute after the last one given out. */
  predicate Allowed(st: State, now: Time, perMinute: int, t: Time) {
    now <= t && (st.last != 0 ==> t >= st.last + 60_000_000_000 / (if perMinute >= 1 then perMinute else 10))
  }

  /** An app that comes back for its slot is told what remains of the wait, and nobody's turn moves. */
  lemma {:induction false} HeldAnswer(st: State, app: App, now: Time, perMinute: int)
    requires Holds(st, app, now)
    ensures var o, slot := Reserved(st, app, now, perMinute), st.slots[app];
            && o.issued == None && o.state.last == st.last
            && o.wait == (if now < slot then slot - now else 0)
            && (app in o.state.slots <==> now < slot) && (now < slot ==> o.state.slots[app] == slot)
  {
  }

  /** A newcomer gets the earliest slot there may be: at once, if the last one was an interval ago. */
  lemma {:induction false} NewAnswer(st: State, app: App, now: Time, perMinute: int)
    requires !Holds(st, app, now)
    ensures var o := Reserved(st, app, now, perMinute);
            && o.issued == Some(now + o.wait) && o.state.last == now + o.wait
            && Allowed(st, now, perMinute, now + o.wait)
            && (forall t :: Allowed(st, now, perMinute, t) ==> now + o.wait <= t)
            && (o.wait == 0 <==> Allowed(st, now, perMinute, now))
            && (app in o.state.slots <==> o.wait > 0) && (o.wait > 0 ==> o.state.slots[app] == now + o.wait)
  {
  }

  /** Everybody else keeps what they hold, and loses what is ten minutes overdue. */
  lemma {:induction false} OthersKeep(st: State, app: App, now: Time, perMinute: int, other: App)
    requires other != app
    ensures var slots := Reserved(st, app, now, perMinute).state.slots;
            && (other in slots <==> Holds(st, other, now))
            && (other in slots ==> slots[other] == st.slots[other])
  {
  }

  /**
  Over a whole run: a newcomer's slot is the earliest that is not before now and a p-th of a minute after the
  last slot the run issued; a limiter that has been idle that long, or never asked, answers 0.
   */
  lemma {:induction false} FirstAllowed(calls: seq<Call>, app: App, now: Time, p: int)
    requires Clocked(calls) && now > 0 && p > 0 && !Holds(Run(Fresh(), calls), app, now)
    ensures var slots, o := Slots(Fresh(), calls), Reserved(Run(Fresh(), calls), app, now, p);
            var free := if |slots| == 0 then now else slots[|slots| - 1] + 60_000_000_000 / p;
            && o.issued.Some? && o.issued.value == (if free > now then free else now)
            && (free <= now ==> o.wait == 0)
  {
    hide Run, Slots, Reserved, Clocked, Spaced, Rates;
    SlotsSpaced(calls);
    NewAnswer(Run(Fresh(), calls), app, now, p);
    var slots := Slots(Fresh(), calls);
    var free := if |slots| == 0 then now else slots[|slots| - 1] + 60_000_000_000 / p;
    assert Allowed(Run(Fresh(), calls), now, p, if free > now then free else now);
  }

  // ----- One reservation, from queueing to release -------------------------------------------------

  /** The outstanding slots are all distinct, and none is later than the latest one issued. */
  predicate Orderly(st: State) {
    && (forall a :: a in st.slots ==> 0 < st.slots[a] <= st.last)
    && (forall a, b :: a in st.slots && b in st.slots && a != b ==> st.slots[a] != st.slots[b])
  }

  /** No two apps ever hold the same slot, unless slots are less than a nanosecond apart. */
  lemma {:induction false} RunOrderly(calls: seq<Call>)
    requires Clocked(calls) && NoFaster(calls, MINUTE)
    ensures Orderly(Run(Fresh(), calls)) && Run(Fresh(), calls).last >= 0
  {
    if |calls| > 0 {
      var front, call := calls[..|calls| - 1], calls[|calls| - 1];
      RunOrderly(front);
      if call.Reserve? { IntervalPositive(Rate(call.perMinute)); }
      StepOrderly(Run(Fresh(), front), call);
    }
  }

  lemma {:induction false} IntervalPositive(p: int)
    requires 0 < p <= MINUTE
    ensures MINUTE / p >= 1
  {
  }

  lemma {:induction false} StepOrderly(st: State, call: Call)
    requires Orderly(st) && st.last >= 0
    requires call.Reserve? ==> call.now > 0 && Interval(call.perMinute) >= 1
    ensures Orderly(After(st, call)) && After(st, call).last >= 0
  {
  }

  /** A call that cannot disturb app's reservation for slot: someone else's, and not a stale sweep of it. */
  predicate LeavesAlone(call: Call, app: App, slot: Time) {
    call.app != app && (call.Reserve? ==> !Stale(slot, call.now))
  }

  lemma {:induction false} ReservationKept(st: State, calls: seq<Call>, app: App)
    requires app in st.slots
    requires forall i :: 0 <= i < |calls| ==> LeavesAlone(calls[i], app, st.slots[app])
    ensures app in Run(st, calls).slots && Run(st, calls).slots[app] == st.slots[app]
  {
    if |calls| > 0 {
      ReservationKept(st, calls[..|calls| - 1], app);
      var call := calls[|calls| - 1];
      assert LeavesAlone(call, app, st.slots[app]);
    }
  }

  /**
  An app told to wait keeps its slot through any traffic from the others. Back before the slot
  it is told the time that remains, without being issued another; back at the slot or within
  the stale bound after it, it passes, exactly once.
   */
  lemma {:induction false} WaitThenPass(st: State, app: App, now: Time, perMinute: int, others: seq<Call>, back: Time, later: int)
    requires Reserved(st, app, now, perMinute).wait > 0
    requires var slot := now + Reserved(st, app, now, perMinute).wait;
             !Stale(slot, back) && forall i :: 0 <= i < |others| ==> LeavesAlone(others[i], app, slot)
    ensures var first := Reserved(st, app, now, perMinute);
            var slot := now + first.wait;
            var again := Reserved(Run(first.state, others), app, back, later);
            && again.issued == None
            && again.wait == (if back < slot then slot - back else 0)
            && (app in again.state.slots <==> back < slot)
  {
    hide Run;
    var first := Reserved(st, app, now, perMinute);
    assert first.state.slots[app] == now + first.wait;
    ReservationKept(first.state, others, app);
  }
}
