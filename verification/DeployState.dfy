/**
The last-deploy part of an app's status, derived on every pass from what Knative reports.
 */
module DeployState {
  import opened Wrappers

  type Time = int

  /** What one pass read of the Service: its latest ready revision, whether it is Ready, that revision's activeness. */
  datatype Observed = Observed(latestReady: string, ready: bool, active: Option<bool>, now: Time)

  datatype Status = Status(observedRevision: string, scaledToZero: Option<bool>, deployTime: Option<Time>)

  function Derived(st: Status, o: Observed): Status {
    Status(
      o.latestReady,
      if o.active.Some? then Some(!o.active.value) else None,
      if o.ready && o.latestReady != "" && (st.observedRevision != o.latestReady || st.deployTime.None?)
      then Some(o.now) else st.deployTime)
  }

  method DeriveDeployState(st: Status, o: Observed) returns (ds: Status)
    ensures ds == Derived(st, o)
  {
    ds := Status(o.latestReady, None, st.deployTime);
    if o.active.Some? {
      ds := ds.(scaledToZero := Some(!o.active.value));
    }
    if o.ready && ds.observedRevision != "" {
      if st.observedRevision != ds.observedRevision || st.deployTime.None? {
        ds := ds.(deployTime := Some(o.now));
      }
    }
  }

  /** Deriving again from the same report, at any later time, changes nothing: an idle app's status is not rewritten. */
  lemma {:induction false} DerivedFixpoint(st: Status, o: Observed, later: Time)
    ensures Derived(Derived(st, o), o.(now := later)) == Derived(st, o)
  {
  }

  /** Scaled to zero is the opposite of active, and unknown when that is; the revision is the one reported. */
  lemma {:induction false} ScaledMeans(st: Status, o: Observed)
    ensures var ds := Derived(st, o);
            && (ds.scaledToZero == Some(true) <==> o.active == Some(false))
            && (ds.scaledToZero == Some(false) <==> o.active == Some(true))
            && (ds.scaledToZero.None? <==> o.active.None?)
            && ds.observedRevision == o.latestReady
            && (ds.deployTime != st.deployTime ==> o.ready && o.latestReady != "" && ds.deployTime == Some(o.now))
  {
  }

  function After(st: Status, passes: seq<Observed>): Status {
    if |passes| == 0 then st else Derived(After(st, passes[..|passes| - 1]), passes[|passes| - 1])
  }

  // ----- What the deploy time stands for -----------------------------------------------------------

  /** The pass found the Service Ready with a revision. */
  predicate Reached(o: Observed) { o.ready && o.latestReady != "" }

  /** The revision on record before the k-th pass. */
  function Before(st: Status, passes: seq<Observed>, k: nat): string
    requires k <= |passes|
  {
    if k == 0 then st.observedRevision else passes[k - 1].latestReady
  }

  /** The k-th pass reports another revision than the one before it, a new one or an old one come back. */
  predicate Arrives(st: Status, passes: seq<Observed>, k: nat)
    requires k < |passes|
  {
    passes[k].latestReady != Before(st, passes, k)
  }

  /** No deploy was on record before the k-th pass. */
  predicate NothingYet(st: Status, passes: seq<Observed>, k: nat)
    requires k <= |passes|
  {
    st.deployTime.None? && forall j :: 0 <= j < k ==> !Reached(passes[j])
  }

  lemma {:induction false} Recorded(st: Status, passes: seq<Observed>)
    ensures After(st, passes).observedRevision == Before(st, passes, |passes|)
    ensures After(st, passes).deployTime.None? <==> NothingYet(st, passes, |passes|)
  {
    if |passes| > 0 {
      var front := passes[..|passes| - 1];
      Recorded(st, front);
      assert Before(st, front, |front|) == Before(st, passes, |front|);
      assert NothingYet(st, passes, |front|) <==> NothingYet(st, front, |front|);
    }
  }

  /** A pass that finds the Service Ready moves the time if its revision arrives with it, or no time was on record. */
  predicate Moves(st: Status, passes: seq<Observed>, k: nat)
    requires k < |passes|
  {
    Reached(passes[k]) && (Arrives(st, passes, k) || NothingYet(st, passes, k))
  }

  lemma {:induction false} LastMoves(st: Status, passes: seq<Observed>, n: nat)
    requires |passes| == n + 1
    ensures After(st, passes).deployTime
         == if Moves(st, passes, n) then Some(passes[n].now) else After(st, passes[..n]).deployTime
  {
    var front := passes[..|passes| - 1];
    Recorded(st, front);
    assert Before(st, front, |front|) == Before(st, passes, |front|);
    assert NothingYet(st, passes, |front|) <==> NothingYet(st, front, |front|);
  }

  /** No other pass, and no earlier deploy, happened at the moment of the f-th pass. */
  predicate Alone(st: Status, passes: seq<Observed>, f: nat)
    requires f < |passes|
  {
    st.deployTime != Some(passes[f].now) && forall k :: 0 <= k < |passes| && k != f ==> passes[k].now != passes[f].now
  }

  lemma {:induction false} TimeOfMove(st: Status, passes: seq<Observed>, f: nat)
    requires f < |passes| && Alone(st, passes, f)
    ensures After(st, passes).deployTime == Some(passes[f].now)
       <==> Moves(st, passes, f) && forall k :: f < k < |passes| ==> !Moves(st, passes, k)
  {
    hide After;
    var n := |passes| - 1;
    var front := passes[..n];
    LastMoves(st, passes, n);
    if f < n {
      TimeOfMove(st, front, f);
      forall k | 0 <= k < n
        ensures Moves(st, front, k) <==> Moves(st, passes, k)
      {
        MovesBefore(st, passes, k);
      }
    } else {
      NotBefore(st, front, passes[f].now);
    }
  }

  lemma {:induction false} MovesBefore(st: Status, passes: seq<Observed>, k: nat)
    requires k < |passes| - 1
    ensures Moves(st, passes[..|passes| - 1], k) <==> Moves(st, passes, k)
  {
    var front := passes[..|passes| - 1];
    assert Before(st, front, k) == Before(st, passes, k);
    assert NothingYet(st, front, k) <==> NothingYet(st, passes, k);
  }

  lemma {:induction false} NotBefore(st: Status, passes: seq<Observed>, t: Time)
    requires st.deployTime != Some(t) && forall k :: 0 <= k < |passes| ==> passes[k].now != t
    ensures After(st, passes).deployTime != Some(t)
  {
    if |passes| > 0 { NotBefore(st, passes[..|passes| - 1], t); }
  }

  /** The f-th pass is the first of the history to find the Service Ready with the revision of the last. */
  predicate FirstSeenReady(passes: seq<Observed>, f: nat) {
    && f < |passes| && Reached(passes[f]) && passes[f].latestReady == passes[|passes| - 1].latestReady
    && forall k :: 0 <= k < f && passes[k].latestReady == passes[f].latestReady ==> !passes[k].ready
  }

  /**
  The recorded time is documented as the one at which the current revision first reached Ready. Over any
  history of passes it is that if and only if the revision arrived with that first Ready pass, or no deploy
  was on record before it; and no revision has arrived Ready since, this one come back included.
   */
  lemma {:induction false} FirstReady(st: Status, passes: seq<Observed>, f: nat)
    requires FirstSeenReady(passes, f) && Alone(st, passes, f)
    ensures After(st, passes).deployTime == Some(passes[f].now)
       <==> (Arrives(st, passes, f) || NothingYet(st, passes, f))
            && forall k :: f < k < |passes| ==> !(Reached(passes[k]) && Arrives(st, passes, k))
  {
    hide After, Arrives;
    TimeOfMove(st, passes, f);
    forall k | f < k < |passes|
      ensures Moves(st, passes, k) <==> Reached(passes[k]) && Arrives(st, passes, k)
    {
      assert Reached(passes[f]);
    }
  }
}
