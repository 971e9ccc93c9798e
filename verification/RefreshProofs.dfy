/** What the refresh protocol keeps under any pattern of failures, kills and restarts. */
module RefreshProofs {
  import opened Numerics
  import opened Refresh

  // ---- the plan

  /** The days automatic refresh must stay away from, 2025-06-17 to 2026-08-23, in days since 1970-01-01. */
  predicate Frozen(day: int) {
    20256 <= day <= 20688
  }

  lemma {:induction false} BlockedIsFrozen(day: int)
    ensures Blocked(day) <==> Frozen(day)
  {
  }

  lemma {:induction false} DayStepsSpec(m: Manifests, completed: set<Key>, day: int, k: Key)
    ensures k in DaySteps(m, completed, day) <==> k.day == day && !Listed(m, k) && k !in completed
  {
    var a, b, c := Key(Bronze, day), Key(SilverTrades, day), Key(SilverCandles, day);
    assert k in DaySteps(m, completed, day) <==>
      k in StepIf(m, completed, a) || k in StepIf(m, completed, b) || k in StepIf(m, completed, c);
  }

  /** The plan holds exactly the unlisted, uncompleted steps of the days of the range that are not frozen. */
  lemma {:induction false} PlanSpec(m: Manifests, completed: set<Key>, start: int, n: nat, k: Key)
    ensures
      k in PlanDays(m, completed, start, n).steps
      <==> start <= k.day < start + n && !Frozen(k.day) && !Listed(m, k) && k !in completed
  {
    BlockedIsFrozen(k.day);
    if n > 0 {
      var before, day := PlanDays(m, completed, start, n - 1).steps, start + n - 1;
      PlanSpec(m, completed, start, n - 1, k);
      if !Blocked(day) {
        DayStepsSpec(m, completed, day, k);
        var today := DaySteps(m, completed, day);
        assert PlanDays(m, completed, start, n).steps == before + today;
        assert k in before + today <==> k in before || k in today;
      }
    }
  }

  lemma {:induction false} BlockedSpec(m: Manifests, completed: set<Key>, start: int, n: nat)
    ensures
      PlanDays(m, completed, start, n).blocked != [] <==> exists day :: start <= day < start + n && Frozen(day)
  {
    if n > 0 {
      BlockedSpec(m, completed, start, n - 1);
      BlockedIsFrozen(start + n - 1);
    }
  }

  function Rank(l: Layer): nat {
    match l
    case Bronze => 0
    case SilverTrades => 1
    case SilverCandles => 2
  }

  predicate Earlier(a: Key, b: Key) {
    a.day < b.day || (a.day == b.day && Rank(a.layer) < Rank(b.layer))
  }

  predicate InOrder(ks: seq<Key>) {
    forall i, j :: 0 <= i < j < |ks| ==> Earlier(ks[i], ks[j])
  }

  lemma {:induction false} DayInOrder(m: Manifests, completed: set<Key>, day: int)
    ensures InOrder(DaySteps(m, completed, day))
    ensures forall k :: k in DaySteps(m, completed, day) ==> k.day == day
  {
  }

  lemma {:induction false} ConcatInOrder(a: seq<Key>, b: seq<Key>)
    requires InOrder(a) && InOrder(b) && forall x, y :: x in a && y in b ==> Earlier(x, y)
    ensures InOrder(a + b)
  {
  }

  /** Steps are planned day by day, and within a day bronze, then silver trades, then candles. */
  lemma {:induction false} PlanInOrder(m: Manifests, completed: set<Key>, start: int, n: nat)
    ensures InOrder(PlanDays(m, completed, start, n).steps)
    ensures forall k :: k in PlanDays(m, completed, start, n).steps ==> k.day < start + n
  {
    if n > 0 {
      var before, day := PlanDays(m, completed, start, n - 1).steps, start + n - 1;
      PlanInOrder(m, completed, start, n - 1);
      DayInOrder(m, completed, day);
      ConcatInOrder(before, DaySteps(m, completed, day));
    }
  }

  // ---- one run

  predicate Monotone(from: set<Key>, writes: seq<Status>) {
    && (forall i :: 0 <= i < |writes| ==> from <= writes[i].completed)
    && (forall i, j :: 0 <= i < j < |writes| ==> writes[i].completed <= writes[j].completed)
  }

  /** Every step tried was new, and each was tried once. */
  predicate FreshTries(from: set<Key>, tried: seq<Key>) {
    && (forall i :: 0 <= i < |tried| ==> tried[i] !in from)
    && (forall i, j :: 0 <= i < j < |tried| ==> tried[i] != tried[j])
  }

  lemma {:induction false} TriedCompletes(from: set<Key>, steps: seq<Key>, succeeds: Key -> bool, n: nat)
    requires n <= |steps|
    ensures
      var p := Tried(from, steps, succeeds, n);
      && from <= p.completed
      && (forall k :: k in p.completed && k !in from ==> k in p.tried)
      && (forall k :: k in p.tried && succeeds(k) ==> k in p.completed)
      && (forall k :: k in p.tried ==> k in steps && k !in from)
      && (p.failed.None? ==> forall k :: k in p.tried ==> k in p.completed)
  {
    if n > 0 {
      TriedCompletes(from, steps, succeeds, n - 1);
    }
  }

  lemma {:induction false} TriedCovers(from: set<Key>, steps: seq<Key>, succeeds: Key -> bool, n: nat)
    requires n <= |steps| && Tried(from, steps, succeeds, n).failed.None?
    ensures forall j :: 0 <= j < n ==> steps[j] in Tried(from, steps, succeeds, n).completed
  {
    if n > 0 {
      TriedCovers(from, steps, succeeds, n - 1);
    }
  }

  lemma {:induction false} TriedOnce(from: set<Key>, steps: seq<Key>, succeeds: Key -> bool, n: nat)
    requires n <= |steps|
    ensures FreshTries(from, Tried(from, steps, succeeds, n).tried)
  {
    if n > 0 {
      TriedOnce(from, steps, succeeds, n - 1);
      TriedCompletes(from, steps, succeeds, n - 1);
      var p, k := Tried(from, steps, succeeds, n - 1), steps[n - 1];
      if p.failed.None? && k !in p.completed {
        assert k !in p.tried;
      }
    }
  }

  lemma {:induction false} TriedMonotone(from: set<Key>, steps: seq<Key>, succeeds: Key -> bool, n: nat)
    requires n <= |steps|
    ensures
      var p := Tried(from, steps, succeeds, n);
      Monotone(from, p.writes) && forall i :: 0 <= i < |p.writes| ==> p.writes[i].completed <= p.completed
  {
    if n > 0 {
      TriedMonotone(from, steps, succeeds, n - 1);
      TriedCompletes(from, steps, succeeds, n - 1);
    }
  }

  /** A run adds to the completed steps and never takes one away, in every status file it writes; it tries no step that
      was completed before it, and no step twice. */
  lemma {:induction false} RunMonotone(before: Status, i: RunInput)
    ensures Monotone(before.completed, RunOf(before, i).writes)
    ensures FreshTries(before.completed, RunOf(before, i).tried)
  {
    var plan := PlanOf(i.config, i.manifests, before.completed);
    TriedMonotone(before.completed, plan.steps, i.succeeds, |plan.steps|);
    TriedCompletes(before.completed, plan.steps, i.succeeds, |plan.steps|);
    TriedOnce(before.completed, plan.steps, i.succeeds, |plan.steps|);
  }

  /** An approved range that touches a frozen day runs nothing and ends blocked; only such a range does. */
  lemma {:induction false} BlockedRunsNothing(before: Status, i: RunInput)
    ensures
      RunOf(before, i).ending == AccessBlocked
      <==> i.config.approvedSource
           && exists day :: i.config.startDay <= day <= i.config.targetDay && Frozen(day)
    ensures RunOf(before, i).ending == AccessBlocked ==> RunOf(before, i).tried == []
  {
    BlockedSpec(i.manifests, before.completed, i.config.startDay, DayCount(i.config));
  }

  /** No step of a frozen day is ever tried. */
  lemma {:induction false} TriesStayOutOfSplits(before: Status, i: RunInput, k: Key)
    requires k in RunOf(before, i).tried
    ensures !Frozen(k.day) && i.config.startDay <= k.day <= i.config.targetDay
  {
    var plan := PlanOf(i.config, i.manifests, before.completed);
    TriedCompletes(before.completed, plan.steps, i.succeeds, |plan.steps|);
    PlanSpec(i.manifests, before.completed, i.config.startDay, DayCount(i.config), k);
  }

  // ---- layer order

  /** A plan that holds a step, and has the day's earlier layer still to do, has that layer at an earlier place. */
  lemma {:induction false} PlannedEarlier(
    m: Manifests, completed: set<Key>, start: int, days: nat, n: nat, earlier: Layer)
    requires n < |PlanDays(m, completed, start, days).steps|
    requires
      var step := PlanDays(m, completed, start, days).steps[n];
      Rank(earlier) < Rank(step.layer) && !Listed(m, Key(earlier, step.day)) && Key(earlier, step.day) !in completed
    ensures
      var steps := PlanDays(m, completed, start, days).steps;
      exists j :: 0 <= j < n && steps[j] == Key(earlier, steps[n].day)
  {
    var steps := PlanDays(m, completed, start, days).steps;
    var k := Key(earlier, steps[n].day);
    assert steps[n] in steps;
    PlanSpec(m, completed, start, days, steps[n]);
    PlanSpec(m, completed, start, days, k);
    PlanInOrder(m, completed, start, days);
    BeforeInOrder(steps, n, k);
  }

  lemma {:induction false} BeforeInOrder(steps: seq<Key>, n: nat, k: Key)
    requires InOrder(steps) && n < |steps| && k in steps && Earlier(k, steps[n])
    ensures exists j :: 0 <= j < n && steps[j] == k
  {
    var j :| 0 <= j < |steps| && steps[j] == k;
    assert !Earlier(steps[n], k);
  }

  /** A layer of a day is only tried once the layers before it are done for that day: listed in the manifests the run
      planned from, or completed by the time of the try. */
  lemma {:induction false} LayersInOrder(before: Status, i: RunInput, n: nat, earlier: Layer)
    requires
      var plan := PlanOf(i.config, i.manifests, before.completed);
      && n < |plan.steps|
      && Tried(before.completed, plan.steps, i.succeeds, n).failed.None?
      && Rank(earlier) < Rank(plan.steps[n].layer)
    ensures
      var plan := PlanOf(i.config, i.manifests, before.completed);
      var k := Key(earlier, plan.steps[n].day);
      Listed(i.manifests, k) || k in Tried(before.completed, plan.steps, i.succeeds, n).completed
  {
    var steps := PlanOf(i.config, i.manifests, before.completed).steps;
    var k := Key(earlier, steps[n].day);
    TriedCompletes(before.completed, steps, i.succeeds, n);
    TriedCovers(before.completed, steps, i.succeeds, n);
    if !Listed(i.manifests, k) && k !in before.completed {
      PlannedEarlier(i.manifests, before.completed, i.config.startDay, DayCount(i.config), n, earlier);
    }
  }

  // ---- ending well

  predicate ListsMore(m: Manifests, later: Manifests) {
    m.bronze <= later.bronze && m.silver <= later.silver && m.candles <= later.candles
  }

  /** All planned steps are completed in the status a well-ended run leaves. */
  lemma {:induction false} DoneCompletesPlan(before: Status, i: RunInput)
    requires !i.dryRun && RunOf(before, i).ending.Finished?
    ensures
      var plan, after := PlanOf(i.config, i.manifests, before.completed), LastOr(RunOf(before, i).writes, before);
      before.completed <= after.completed && forall k :: k in plan.steps ==> k in after.completed
  {
    var plan := PlanOf(i.config, i.manifests, before.completed);
    var p := Tried(before.completed, plan.steps, i.succeeds, |plan.steps|);
    TriedCompletes(before.completed, plan.steps, i.succeeds, |plan.steps|);
    TriedCovers(before.completed, plan.steps, i.succeeds, |plan.steps|);
    assert LastOr(RunOf(before, i).writes, before).completed == p.completed;
  }

  /** A run that ends well leaves nothing to do: replanning its range from the status it wrote, on manifests that lost
      nothing, gives an empty plan. */
  lemma {:induction false} DoneLeavesNothing(before: Status, i: RunInput, later: Manifests)
    requires !i.dryRun && RunOf(before, i).ending.Finished? && ListsMore(i.manifests, later)
    ensures PlanOf(i.config, later, LastOr(RunOf(before, i).writes, before).completed).steps == []
  {
    DoneCompletesPlan(before, i);
    var after := LastOr(RunOf(before, i).writes, before);
    var next := PlanOf(i.config, later, after.completed);
    var start, n := i.config.startDay, DayCount(i.config);
    if next.steps != [] {
      var k := next.steps[0];
      assert k in next.steps;
      PlanSpec(later, after.completed, start, n, k);
      PlanSpec(i.manifests, before.completed, start, n, k);
    }
  }

  /** Running the range again then tries nothing, and unless the capacity check stops it ends as a no-op. */
  lemma {:induction false} RerunIsNoop(before: Status, i: RunInput, again: RunInput)
    requires !i.dryRun && RunOf(before, i).ending.Finished? && ListsMore(i.manifests, again.manifests)
    requires again.config == i.config
    ensures
      var r := RunOf(LastOr(RunOf(before, i).writes, before), again);
      r.tried == [] && r.ending == if again.capacityOk then Finished("OK_NOOP", 0) else CapacityFailed
  {
    DoneLeavesNothing(before, i, again.manifests);
    BlockedSpec(i.manifests, before.completed, i.config.startDay, DayCount(i.config));
    var after := LastOr(RunOf(before, i).writes, before);
    BlockedSpec(again.manifests, after.completed, i.config.startDay, DayCount(i.config));
  }

  // ---- histories of runs

  /** A run of a history: it starts from the status the previous run left, or, if that one was killed, from any status
      file it had written by then. */
  datatype Episode = Episode(input: RunInput, survived: nat)

  /** What the status file holds after an episode that got as far as its `survived`-th write. */
  function Left(before: Status, e: Episode): Status {
    var writes := RunOf(before, e.input).writes;
    LastOr(writes[..if e.survived < |writes| then e.survived else |writes|], before)
  }

  function StatusAfter(es: seq<Episode>, n: nat): Status
    requires n <= |es|
  {
    if n == 0 then Status("", {}, 0, 0, None) else Left(StatusAfter(es, n - 1), es[n - 1])
  }

  lemma {:induction false} LeftGrows(before: Status, e: Episode)
    ensures before.completed <= Left(before, e).completed
  {
    RunMonotone(before, e.input);
  }

  lemma {:induction false} EpisodeGrows(es: seq<Episode>, n: nat)
    requires n < |es|
    ensures StatusAfter(es, n).completed <= StatusAfter(es, n + 1).completed
  {
    LeftGrows(StatusAfter(es, n), es[n]);
  }

  lemma {:induction false} ChainGrows(sets: seq<set<Key>>, n: nat, m: nat)
    requires n <= m < |sets|
    requires forall i :: 0 <= i < |sets| - 1 ==> sets[i] <= sets[i + 1]
    ensures sets[n] <= sets[m]
    decreases m - n
  {
    if n < m {
      ChainGrows(sets, n + 1, m);
    }
  }

  lemma {:induction false} CompletedGrows(es: seq<Episode>, n: nat, m: nat)
    requires n <= m <= |es|
    ensures StatusAfter(es, n).completed <= StatusAfter(es, m).completed
  {
    hide Left;
    var sets := seq(|es| + 1, i requires 0 <= i <= |es| => StatusAfter(es, i).completed);
    forall i | 0 <= i < |sets| - 1
      ensures sets[i] <= sets[i + 1]
    {
      EpisodeGrows(es, i);
    }
    ChainGrows(sets, n, m);
  }

  /** Under any pattern of failures and kills, a step the status file has once recorded as completed stays completed
      and is never tried again by any later run, whatever ranges and manifests those runs use. */
  lemma {:induction false} CompletedNeverRunsAgain(es: seq<Episode>, n: nat, m: nat, k: Key)
    requires n <= m < |es|
    ensures k in StatusAfter(es, n).completed ==>
      k in StatusAfter(es, m + 1).completed && k !in RunOf(StatusAfter(es, m), es[m].input).tried
  {
    CompletedGrows(es, n, m);
    CompletedGrows(es, n, m + 1);
    RunMonotone(StatusAfter(es, m), es[m].input);
  }
}
