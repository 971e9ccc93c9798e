/** What one refresh run does and reports, by its first failing step, and what its plan lists. */
module RefreshMeaning {
  import opened Numerics
  import opened Refresh
  import opened RefreshProofs

  // ---- the days a plan sets aside

  /** The days of the development split, 2023-09-09 to 2025-06-16, in days since 1970-01-01. */
  predicate Developed(day: int) {
    19609 <= day <= 20255
  }

  /** The days of the range that a test picks, in order. */
  ghost predicate Picks(days: seq<int>, start: int, n: nat, test: int -> bool) {
    && (forall day :: day in days <==> start <= day < start + n && test(day))
    && (forall i, j :: 0 <= i < j < |days| ==> days[i] < days[j])
  }

  lemma {:induction false} PicksNext(days: seq<int>, start: int, n: nat, test: int -> bool)
    requires Picks(days, start, n, test)
    ensures Picks(if test(start + n) then days + [start + n] else days, start, n + 1, test)
  {
    var day := start + n;
    forall i | 0 <= i < |days|
      ensures days[i] < day
    {
      assert days[i] in days;
    }
    assert forall d :: d in days + [day] <==> d in days || d == day;
  }

  function Blocks(): int -> bool {
    (day: int) => Frozen(day)
  }

  function KeepsGold(): int -> bool {
    (day: int) => !Frozen(day) && !Developed(day)
  }

  /** The plan reports every frozen day of the range as blocked, and every day that is neither frozen nor of the
      development split as kept from gold, each once and in order. */
  lemma {:induction false} PlanLists(m: Manifests, completed: set<Key>, start: int, n: nat)
    ensures Picks(PlanDays(m, completed, start, n).blocked, start, n, Blocks())
    ensures Picks(PlanDays(m, completed, start, n).goldBlocked, start, n, KeepsGold())
  {
    hide Picks, DaySteps;
    if n == 0 {
      PicksNone(start, Blocks());
      PicksNone(start, KeepsGold());
    } else {
      var before := PlanDays(m, completed, start, n - 1);
      PlanLists(m, completed, start, n - 1);
      PicksNext(before.blocked, start, n - 1, Blocks());
      PicksNext(before.goldBlocked, start, n - 1, KeepsGold());
    }
  }

  lemma {:induction false} PicksNone(start: int, test: int -> bool)
    ensures Picks([], start, 0, test)
  {
  }

  // ---- one run

  /** The first `n` steps as a set. */
  function Firsts(steps: seq<Key>, n: nat): set<Key>
    requires n <= |steps|
  {
    set k | k in steps[..n]
  }

  predicate Distinct(steps: seq<Key>) {
    forall i, j :: 0 <= i < j < |steps| ==> steps[i] != steps[j]
  }

  /** Steps that were not completed before, each once. */
  predicate Undone(from: set<Key>, steps: seq<Key>) {
    Distinct(steps) && forall k :: k in steps ==> k !in from
  }

  lemma {:induction false} PlanUndone(m: Manifests, completed: set<Key>, start: int, n: nat)
    ensures Undone(completed, PlanDays(m, completed, start, n).steps)
  {
    var steps := PlanDays(m, completed, start, n).steps;
    PlanInOrder(m, completed, start, n);
    forall k | k in steps
      ensures k !in completed
    {
      PlanSpec(m, completed, start, n, k);
    }
    assert forall i, j :: 0 <= i < j < |steps| ==> Earlier(steps[i], steps[j]);
  }

  /** What the status file shows while the first `n` steps are completed one by one. */
  predicate Progressing(from: set<Key>, steps: seq<Key>, n: nat, writes: seq<Status>)
    requires n <= |steps|
  {
    && |writes| >= n
    && forall j :: 0 <= j < n ==>
         writes[j] == Status("RUNNING", from + Firsts(steps, j + 1), j + 1, |steps|, None)
  }

  predicate AllSucceed(steps: seq<Key>, succeeds: Key -> bool, n: nat)
    requires n <= |steps|
  {
    forall j :: 0 <= j < n ==> succeeds(steps[j])
  }

  lemma {:induction false} FirstsGrow(steps: seq<Key>, n: nat)
    requires n < |steps|
    ensures Firsts(steps, n + 1) == Firsts(steps, n) + {steps[n]}
  {
    assert steps[..n + 1] == steps[..n] + [steps[n]];
  }

  /** As long as nothing fails, the steps are tried in the planned order. */
  lemma {:induction false} TriedInOrder(from: set<Key>, steps: seq<Key>, succeeds: Key -> bool, n: nat)
    requires n <= |steps| && Undone(from, steps) && AllSucceed(steps, succeeds, n)
    ensures
      var p := Tried(from, steps, succeeds, n);
      && p.failed.None? && p.tried == steps[..n] && p.completed == from + Firsts(steps, n)
      && |p.writes| == n && Progressing(from, steps, n, p.writes)
  {
    hide Firsts, Progressing, Undone;
    if n == 0 {
      NothingTried(from, steps);
    } else {
      TriedInOrder(from, steps, succeeds, n - 1);
      var p := Tried(from, steps, succeeds, n - 1);
      NotYet(from, steps, n - 1);
      assert steps[..n] == steps[..n - 1] + [steps[n - 1]];
      ProgressGrows(from, steps, n - 1, p.writes);
    }
  }

  lemma {:induction false} NothingTried(from: set<Key>, steps: seq<Key>)
    ensures Firsts(steps, 0) == {} && Progressing(from, steps, 0, [])
  {
  }

  lemma {:induction false} NotYet(from: set<Key>, steps: seq<Key>, n: nat)
    requires n < |steps| && Undone(from, steps)
    ensures steps[n] !in from + Firsts(steps, n)
    ensures from + Firsts(steps, n) + {steps[n]} == from + Firsts(steps, n + 1)
  {
    FirstsGrow(steps, n);
    assert steps[n] in steps;
  }

  lemma {:induction false} ProgressGrows(from: set<Key>, steps: seq<Key>, n: nat, writes: seq<Status>)
    requires n < |steps| && |writes| == n && Progressing(from, steps, n, writes)
    ensures
      Progressing(from, steps, n + 1,
                  writes + [Status("RUNNING", from + Firsts(steps, n + 1), n + 1, |steps|, None)])
  {
    hide Firsts;
  }

  lemma {:induction false} ProgressStays(from: set<Key>, steps: seq<Key>, n: nat, writes: seq<Status>, w: Status)
    requires n <= |steps| && Progressing(from, steps, n, writes)
    ensures Progressing(from, steps, n, writes + [w])
  {
    hide Firsts;
  }

  lemma {:induction false} TriedToFailure(from: set<Key>, steps: seq<Key>, succeeds: Key -> bool, f: nat)
    requires f < |steps| && Undone(from, steps) && AllSucceed(steps, succeeds, f) && !succeeds(steps[f])
    ensures
      var p := Tried(from, steps, succeeds, |steps|);
      && p.failed == Some(steps[f]) && p.tried == steps[..f + 1] && p.completed == from + Firsts(steps, f)
      && |p.writes| == f + 1 && Progressing(from, steps, f, p.writes)
      && p.writes[f] == Status("FAILED_PARTIAL", from + Firsts(steps, f), f, |steps|, Some(steps[f]))
  {
    hide Firsts, Progressing, Undone, AllSucceed;
    TriedInOrder(from, steps, succeeds, f);
    var p := Tried(from, steps, succeeds, f);
    NotYet(from, steps, f);
    assert steps[..f + 1] == steps[..f] + [steps[f]];
    ProgressStays(from, steps, f, p.writes,
                  Status("FAILED_PARTIAL", from + Firsts(steps, f), f, |steps|, Some(steps[f])));
    FailureSticks(from, steps, succeeds, f + 1, |steps|);
  }

  /** The run gets to its steps. */
  predicate Starts(before: Status, i: RunInput) {
    && i.config.approvedSource && i.capacityOk && !i.dryRun
    && !exists day :: i.config.startDay <= day <= i.config.targetDay && Frozen(day)
  }

  predicate FailsAt(steps: seq<Key>, succeeds: Key -> bool, f: int) {
    0 <= f < |steps| && !succeeds(steps[f]) && AllSucceed(steps, succeeds, f)
  }

  /** A run that gets to its steps and fails: everything planned before the failing step is tried, succeeds and is
      recorded one by one, the failing step is tried and named, and nothing after it is tried. */
  lemma {:induction false} RunFails(before: Status, i: RunInput, f: nat)
    requires Starts(before, i) && FailsAt(PlanOf(i.config, i.manifests, before.completed).steps, i.succeeds, f)
    ensures
      var steps, r := PlanOf(i.config, i.manifests, before.completed).steps, RunOf(before, i);
      && r.ending == StepFailed(steps[f]) && r.tried == steps[..f + 1]
      && |r.writes| == f + 1 && Progressing(before.completed, steps, f, r.writes)
      && r.writes[f] == Status("FAILED_PARTIAL", before.completed + Firsts(steps, f), f, |steps|, Some(steps[f]))
  {
    hide Tried;
    BlockedSpec(i.manifests, before.completed, i.config.startDay, DayCount(i.config));
    PlanUndone(i.manifests, before.completed, i.config.startDay, DayCount(i.config));
    TriedToFailure(before.completed, PlanOf(i.config, i.manifests, before.completed).steps, i.succeeds, f);
  }

  /** One that does not fail: every planned step is tried in order and recorded, and the last status says whether there
      was anything to do. */
  lemma {:induction false} RunSucceeds(before: Status, i: RunInput)
    requires Starts(before, i)
    requires
      var steps := PlanOf(i.config, i.manifests, before.completed).steps;
      AllSucceed(steps, i.succeeds, |steps|)
    ensures
      var steps, r := PlanOf(i.config, i.manifests, before.completed).steps, RunOf(before, i);
      var n, result := |steps|, if steps == [] then "OK_NOOP" else "OK";
      && r.ending == Finished(result, n) && r.tried == steps
      && |r.writes| == n + 1 && Progressing(before.completed, steps, n, r.writes)
      && r.writes[n] == Status(result, before.completed + Firsts(steps, n), n, n, None)
  {
    hide Tried;
    var steps := PlanOf(i.config, i.manifests, before.completed).steps;
    BlockedSpec(i.manifests, before.completed, i.config.startDay, DayCount(i.config));
    PlanUndone(i.manifests, before.completed, i.config.startDay, DayCount(i.config));
    TriedInOrder(before.completed, steps, i.succeeds, |steps|);
    assert steps[..|steps|] == steps;
  }

  /** The least failing step, if any step fails. */
  lemma {:induction false} SomeFirstFailure(steps: seq<Key>, succeeds: Key -> bool, n: nat)
    requires n <= |steps|
    ensures AllSucceed(steps, succeeds, n) || exists f :: FailsAt(steps, succeeds, f)
  {
    if n > 0 {
      SomeFirstFailure(steps, succeeds, n - 1);
      if AllSucceed(steps, succeeds, n - 1) && !succeeds(steps[n - 1]) {
        assert FailsAt(steps, succeeds, n - 1);
      }
    }
  }

  /** One that does not get to its steps tries nothing, and reports why unless it is a dry run. */
  lemma {:induction false} RunStops(before: Status, i: RunInput)
    requires !Starts(before, i)
    ensures
      var steps, r := PlanOf(i.config, i.manifests, before.completed).steps, RunOf(before, i);
      var frozen := exists day :: i.config.startDay <= day <= i.config.targetDay && Frozen(day);
      && r.tried == []
      && r.ending == (if !i.config.approvedSource then Unapproved else if frozen then AccessBlocked
                      else if !i.capacityOk then CapacityFailed
                      else Finished(if steps == [] then "OK_NOOP" else "OK", 0))
      && r.writes == (if i.dryRun || !i.config.approvedSource then []
                      else [Status(if frozen then "ACCESS_BLOCKED" else "FAIL_GUARD", before.completed, 0, |steps|,
                                   None)])
  {
    hide PlanDays, Tried;
    BlockedSpec(i.manifests, before.completed, i.config.startDay, DayCount(i.config));
  }

  /** Every run is one of the three: it stops before its steps, fails at the first step that fails, or does them all. */
  lemma {:induction false} RunMeans(before: Status, i: RunInput)
    ensures
      var steps := PlanOf(i.config, i.manifests, before.completed).steps;
      Starts(before, i) ==>
        if exists f :: FailsAt(steps, i.succeeds, f)
        then exists f :: FailsAt(steps, i.succeeds, f) && RunOf(before, i).tried == steps[..f + 1]
        else RunOf(before, i).tried == steps
  {
    hide RunOf, AllSucceed;
    var steps := PlanOf(i.config, i.manifests, before.completed).steps;
    SomeFirstFailure(steps, i.succeeds, |steps|);
    if Starts(before, i) {
      if f :| FailsAt(steps, i.succeeds, f) {
        RunFails(before, i, f);
      } else {
        RunSucceeds(before, i);
      }
    }
  }
}
