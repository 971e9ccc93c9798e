/** What the regime evidence of a session means: which regimes were seen three candles in a row, and when. */
module RegimeMeaning {
  import opened Numerics
  import opened PaperTrading
  import opened Indicators
  import opened Runner
  import opened RunnerRecovery

  type Names = seq<Option<string>>

  /** The tracker of one symbol after the first `n` classifications of it, each with its time. */
  function Observed(names: Names, times: seq<int>, n: nat): RegimeTracker
    requires n <= |names| == |times|
  {
    if n == 0 then REGIME_START else ObserveRegime(Observed(names, times, n - 1), names[n - 1], times[n - 1])
  }

  // ---- without the tracker

  /** The third or later in a row of one regime. */
  predicate Third(names: Names, name: string, k: int) {
    2 <= k < |names| && names[k] == names[k - 1] == names[k - 2] == Some(name)
  }

  predicate FirstThird(names: Names, name: string, k: int) {
    Third(names, name, k) && forall j :: 0 <= j < k ==> !Third(names, name, j)
  }

  predicate LastThird(names: Names, name: string, n: int, k: int) {
    Third(names, name, k) && k < n && forall j :: k < j < n ==> !Third(names, name, j)
  }

  /** A regime given up before it was confirmed: the next classification is another one or none. */
  predicate GivenUp(names: Names, k: int) {
    && 0 <= k < |names| - 1 && names[k].Some? && names[k + 1] != names[k]
    && !(k >= 2 && names[k] == names[k - 1] == names[k - 2])
  }

  function GivenUpBefore(names: Names, n: int): nat {
    if n <= 0 then 0 else GivenUpBefore(names, n - 1) + if GivenUp(names, n - 1) then 1 else 0
  }

  /** When a confirmed regime was first seen, confirmed and last seen. A first time of zero counts as missing, and the
      time of the confirmation stands in for it. */
  predicate Dated(names: Names, times: seq<int>, name: string, n: int, e: RegimeEvidence, first: int, last: int)
    requires |names| == |times|
  {
    && FirstThird(names, name, first) && LastThird(names, name, n, last)
    && e.firstSeenAt == (if times[first - 2] == 0 then times[first] else times[first - 2])
    && e.confirmedAt == times[first] && e.lastSeenAt == times[last]
  }

  ghost predicate DatedSomewhere(names: Names, times: seq<int>, name: string, n: int, e: RegimeEvidence)
    requires |names| == |times|
  {
    exists first, last :: Dated(names, times, name, n, e, first, last)
  }

  /** The evidence is that of exactly the regimes seen three times in a row. */
  ghost predicate Evident(names: Names, times: seq<int>, n: int, evidence: map<string, RegimeEvidence>)
    requires |names| == |times|
  {
    forall name ::
      && (name in evidence <==> exists k :: 0 <= k < n && Third(names, name, k))
      && (name in evidence ==> DatedSomewhere(names, times, name, n, evidence[name]))
  }

  // ---- the streak

  function Streak(names: Names, n: nat): (r: nat)
    requires n <= |names|
    ensures r <= n && (n > 0 && names[n - 1].Some? ==> r > 0)
  {
    if n == 0 || names[n - 1].None? then 0
    else if n > 1 && names[n - 2] == names[n - 1] then Streak(names, n - 1) + 1
    else 1
  }

  lemma {:induction false} StreakMeans(names: Names, n: nat)
    requires 0 < n <= |names|
    ensures Streak(names, n) > 0 <==> names[n - 1].Some?
    ensures names[n - 1].Some? ==> (Streak(names, n) >= 3 <==> Third(names, names[n - 1].value, n - 1))
    ensures names[n - 1].Some? ==> (Streak(names, n) >= 2 <==> n > 1 && names[n - 2] == names[n - 1])
  {
    if n > 1 {
      StreakMeans(names, n - 1);
    }
  }

  /** The pending regime is the last one, counted and timed from where its streak began. */
  predicate Pending(names: Names, times: seq<int>, n: nat, t: RegimeTracker)
    requires n <= |names| == |times|
  {
    var streak := Streak(names, n);
    && t.pendingCount == streak
    && (if streak == 0 then t.pendingName.None? && t.pendingSince.None?
        else t.pendingName == names[n - 1] && t.pendingSince == Some(times[n - streak]))
  }

  lemma {:induction false} PendingStep(names: Names, times: seq<int>, n: nat, t: RegimeTracker)
    requires n < |names| == |times| && Pending(names, times, n, t)
    ensures Pending(names, times, n + 1, ObserveRegime(t, names[n], times[n]))
  {
    StreakMeans(names, n + 1);
    if n > 0 {
      StreakMeans(names, n);
    }
  }

  /** A streak given up short is counted once. */
  lemma {:induction false} RejectedStep(names: Names, times: seq<int>, n: nat, t: RegimeTracker)
    requires n < |names| == |times| && Pending(names, times, n, t)
    ensures
      ObserveRegime(t, names[n], times[n]).rejected ==
      t.rejected + if n > 0 && GivenUp(names, n - 1) then 1 else 0
  {
    if n > 0 {
      StreakMeans(names, n);
    }
  }

  // ---- the evidence

  lemma {:induction false} FirstOfStreak(names: Names, name: string, n: nat)
    requires Third(names, name, n) && n < |names| && forall j :: 0 <= j < n ==> !Third(names, name, j)
    ensures Streak(names, n + 1) == 3
  {
    StreakMeans(names, n + 1);
    StreakMeans(names, n);
  }

  /** What the evidence of a regime becomes with its next third, if it was right before. */
  lemma {:induction false} DatedNext(
    names: Names, times: seq<int>, name: string, n: nat, evidence: map<string, RegimeEvidence>, since: int)
    requires n < |names| == |times| && Evident(names, times, n, evidence) && Third(names, name, n)
    requires since == times[n + 1 - Streak(names, n + 1)]
    ensures
      var e := if name in evidence then evidence[name].(lastSeenAt := times[n])
               else RegimeEvidence(if since != 0 then since else times[n], times[n], times[n]);
      DatedSomewhere(names, times, name, n + 1, e)
  {
    if name in evidence {
      var first, last :| Dated(names, times, name, n, evidence[name], first, last);
      assert Dated(names, times, name, n + 1, evidence[name].(lastSeenAt := times[n]), first, n);
    } else {
      assert forall j :: 0 <= j < n ==> !Third(names, name, j);
      FirstOfStreak(names, name, n);
      var e := RegimeEvidence(if since != 0 then since else times[n], times[n], times[n]);
      assert Dated(names, times, name, n + 1, e, n, n);
    }
  }

  lemma {:induction false} DatedStays(names: Names, times: seq<int>, name: string, n: nat, e: RegimeEvidence)
    requires n < |names| == |times| && DatedSomewhere(names, times, name, n, e) && !Third(names, name, n)
    ensures DatedSomewhere(names, times, name, n + 1, e)
  {
    var first, last :| Dated(names, times, name, n, e, first, last);
    assert Dated(names, times, name, n + 1, e, first, last);
  }

  lemma {:induction false} EvidenceStep(names: Names, times: seq<int>, n: nat, t: RegimeTracker)
    requires n < |names| == |times| && Pending(names, times, n, t) && Evident(names, times, n, t.evidence)
    ensures Evident(names, times, n + 1, ObserveRegime(t, names[n], times[n]).evidence)
  {
    hide DatedSomewhere;
    PendingStep(names, times, n, t);
    StreakMeans(names, n + 1);
    var after := ObserveRegime(t, names[n], times[n]);
    forall name
      ensures name in after.evidence <==> exists k :: 0 <= k < n + 1 && Third(names, name, k)
      ensures name in after.evidence ==> DatedSomewhere(names, times, name, n + 1, after.evidence[name])
    {
      if Third(names, name, n) {
        DatedNext(names, times, name, n, t.evidence, times[n + 1 - Streak(names, n + 1)]);
      } else {
        OthersStay(t, names[n], times[n], name, names, n);
        if name in t.evidence {
          DatedStays(names, times, name, n, t.evidence[name]);
        }
      }
    }
  }

  lemma {:induction false} OthersStay(
    t: RegimeTracker, regime: Option<string>, ts: int, name: string, names: Names, n: nat)
    requires n < |names| && names[n] == regime && !Third(names, name, n)
    requires
      regime.Some? ==> ObserveRegime(t, regime, ts).pendingCount == Streak(names, n + 1)
    ensures
      var after := ObserveRegime(t, regime, ts).evidence;
      (name in after <==> name in t.evidence) && (name in after ==> after[name] == t.evidence[name])
  {
    StreakMeans(names, n + 1);
  }

  /** What a tracker knows after any classifications: evidence of exactly the regimes seen three times in a row, first
      seen where the first such streak began, confirmed at its third and last seen at the latest third; and it has
      rejected as many candidates as were given up before their third. */
  lemma {:induction false} TrackerMeans(names: Names, times: seq<int>, n: nat)
    requires n <= |names| == |times|
    ensures
      var t := Observed(names, times, n);
      && Pending(names, times, n, t) && Evident(names, times, n, t.evidence)
      && t.rejected == GivenUpBefore(names, n - 1)
  {
    hide ObserveRegime, Pending, Evident, GivenUp;
    if n == 0 {
      StartsEmpty(names, times);
    } else {
      TrackerMeans(names, times, n - 1);
      var t := Observed(names, times, n - 1);
      PendingStep(names, times, n - 1, t);
      RejectedStep(names, times, n - 1, t);
      EvidenceStep(names, times, n - 1, t);
    }
  }

  lemma {:induction false} StartsEmpty(names: Names, times: seq<int>)
    requires |names| == |times|
    ensures Pending(names, times, 0, REGIME_START) && Evident(names, times, 0, REGIME_START.evidence)
  {
  }
}
