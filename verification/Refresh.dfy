/** The resumable daily refresh: a plan of layer/day steps, a status file written after each, restarts at any point. */
module Refresh {
  import opened Numerics

  datatype Layer = Bronze | SilverTrades | SilverCandles

  datatype Access = Development | WalkForward | FinalHoldout | FutureCollection

  datatype IngestClass = IngestDevelopment | IngestWalkForward | IngestHoldout | IngestFuture | OutOfRange

  /** Days count from 1970-01-01. */
  const DEVELOPMENT_FIRST_DAY: int := 19609  // 2023-09-09
  const DEVELOPMENT_LAST_DAY: int := 20255  // 2025-06-16
  const WALK_FORWARD_FIRST_DAY: int := 20256  // 2025-06-17
  const FINAL_HOLDOUT_FIRST_DAY: int := 20526  // 2026-03-14
  const FINAL_HOLDOUT_LAST_DAY: int := 20688  // 2026-08-23
  const FUTURE_COLLECTION_FIRST_DAY: int := 20689  // 2026-08-24

  function ClassifyDay(day: int): Access {
    if DEVELOPMENT_FIRST_DAY <= day <= DEVELOPMENT_LAST_DAY then Development
    else if WALK_FORWARD_FIRST_DAY <= day < FINAL_HOLDOUT_FIRST_DAY then WalkForward
    else if FINAL_HOLDOUT_FIRST_DAY <= day <= FINAL_HOLDOUT_LAST_DAY then FinalHoldout
    else FutureCollection
  }

  function ClassifyIngestDay(day: int): IngestClass {
    if DEVELOPMENT_FIRST_DAY <= day <= DEVELOPMENT_LAST_DAY then IngestDevelopment
    else if WALK_FORWARD_FIRST_DAY <= day < FINAL_HOLDOUT_FIRST_DAY then IngestWalkForward
    else if FINAL_HOLDOUT_FIRST_DAY <= day <= FINAL_HOLDOUT_LAST_DAY then IngestHoldout
    else if day >= FUTURE_COLLECTION_FIRST_DAY then IngestFuture
    else OutOfRange
  }

  predicate SameClass(a: Access, b: IngestClass) {
    match a
    case Development => b.IngestDevelopment?
    case WalkForward => b.IngestWalkForward?
    case FinalHoldout => b.IngestHoldout?
    case FutureCollection => b.IngestFuture?
  }

  /** The planner and the split guard classify a day alike exactly from the first development day on; an earlier day is
      planned as future collection although the guard has no class for it. */
  lemma {:induction false} ClassesAgreeIff(day: int)
    ensures SameClass(ClassifyDay(day), ClassifyIngestDay(day)) <==> day >= DEVELOPMENT_FIRST_DAY
  {
  }

  predicate Blocked(day: int) {
    ClassifyDay(day).WalkForward? || ClassifyDay(day).FinalHoldout?
  }

  datatype Key = Key(layer: Layer, day: int)

  datatype Config = Config(startDay: int, targetDay: int, approvedSource: bool)

  /** The candle step writes one file per timeframe, 1m to 1d in this order. */
  const TIMEFRAMES: nat := 7

  datatype CandleFile = CandleFile(day: int, timeframe: nat)

  /** What the layer manifests list: one file per day, and for candles one per day and timeframe. */
  datatype Manifests = Manifests(bronze: set<int>, silver: set<int>, candles: set<CandleFile>)

  /** The planner calls a day's candles present as soon as any timeframe is listed. */
  predicate HasCandles(m: Manifests, day: int) {
    exists t: nat :: t < TIMEFRAMES && CandleFile(day, t) in m.candles
  }

  predicate AllCandles(m: Manifests, day: int) {
    forall t: nat :: t < TIMEFRAMES ==> CandleFile(day, t) in m.candles
  }

  predicate Listed(m: Manifests, k: Key) {
    match k.layer
    case Bronze => k.day in m.bronze
    case SilverTrades => k.day in m.silver
    case SilverCandles => HasCandles(m, k.day)
  }

  // ---- planning

  datatype Plan = Plan(steps: seq<Key>, blocked: seq<int>, goldBlocked: seq<int>)

  function StepIf(m: Manifests, completed: set<Key>, k: Key): seq<Key> {
    if !Listed(m, k) && k !in completed then [k] else []
  }

  function DaySteps(m: Manifests, completed: set<Key>, day: int): seq<Key> {
    StepIf(m, completed, Key(Bronze, day)) + StepIf(m, completed, Key(SilverTrades, day))
    + StepIf(m, completed, Key(SilverCandles, day))
  }

  /** The plan of the first `n` days from `start`. */
  function PlanDays(m: Manifests, completed: set<Key>, start: int, n: nat): Plan {
    if n == 0 then Plan([], [], [])
    else
      var before, day := PlanDays(m, completed, start, n - 1), start + n - 1;
      if Blocked(day) then before.(blocked := before.blocked + [day])
      else
        Plan(before.steps + DaySteps(m, completed, day), before.blocked,
             if ClassifyDay(day).FutureCollection? then before.goldBlocked + [day] else before.goldBlocked)
  }

  function DayCount(c: Config): nat {
    if c.targetDay < c.startDay then 0 else c.targetDay - c.startDay + 1
  }

  function PlanOf(c: Config, m: Manifests, completed: set<Key>): Plan {
    PlanDays(m, completed, c.startDay, DayCount(c))
  }

  method PlanRefresh(c: Config, m: Manifests, completed: set<Key>) returns (plan: Option<Plan>)
    ensures plan == if c.approvedSource then Some(PlanOf(c, m, completed)) else None
  {
    if !c.approvedSource {
      return None;
    }
    var steps: seq<Key>, blocked: seq<int>, goldBlocked: seq<int> := [], [], [];
    for i := 0 to DayCount(c)
      invariant Plan(steps, blocked, goldBlocked) == PlanDays(m, completed, c.startDay, i)
    {
      var day := c.startDay + i;
      var access := ClassifyDay(day);
      if access == WalkForward || access == FinalHoldout {
        blocked := blocked + [day];
      } else {
        if access == FutureCollection {
          goldBlocked := goldBlocked + [day];
        }
        if day !in m.bronze && Key(Bronze, day) !in completed {
          steps := steps + [Key(Bronze, day)];
        }
        if day !in m.silver && Key(SilverTrades, day) !in completed {
          steps := steps + [Key(SilverTrades, day)];
        }
        if !HasCandles(m, day) && Key(SilverCandles, day) !in completed {
          steps := steps + [Key(SilverCandles, day)];
        }
      }
    }
    return Some(Plan(steps, blocked, goldBlocked));
  }

  // ---- running

  /** The status file: what a later run can see of an earlier one. */
  datatype Status = Status(result: string, completed: set<Key>, executed: nat, planned: nat, failed: Option<Key>)

  datatype Ending =
    | Finished(result: string, executedSteps: nat)
    | Unapproved
    | AccessBlocked
    | CapacityFailed
    | StepFailed(key: Key)

  /** Everything a run depends on besides the status: its configuration, what the manifests list, which operations
      succeed, and whether the capacity check lets it start. */
  datatype RunInput = RunInput(
    config: Config, manifests: Manifests, succeeds: Key -> bool, capacityOk: bool, dryRun: bool)

  /** Progress through the first `n` planned steps: completed keys, steps tried in order, status files written. */
  datatype Progress = Progress(completed: set<Key>, tried: seq<Key>, writes: seq<Status>, failed: Option<Key>)

  function Tried(completed: set<Key>, steps: seq<Key>, succeeds: Key -> bool, n: nat): Progress
    requires n <= |steps|
  {
    if n == 0 then Progress(completed, [], [], None)
    else
      var p, k := Tried(completed, steps, succeeds, n - 1), steps[n - 1];
      if p.failed.Some? || k in p.completed then p
      else if !succeeds(k) then
        p.(tried := p.tried + [k], failed := Some(k),
           writes := p.writes + [Status("FAILED_PARTIAL", p.completed, |p.tried|, |steps|, Some(k))])
      else
        var done := p.completed + {k};
        Progress(done, p.tried + [k],
                 p.writes + [Status("RUNNING", done, |p.tried| + 1, |steps|, None)], None)
  }

  function EndWrites(p: Progress, planned: nat): seq<Status> {
    if p.failed.Some? then p.writes
    else p.writes + [Status(if p.tried == [] then "OK_NOOP" else "OK", p.completed, |p.tried|, planned, None)]
  }

  /** A whole run: how it ends, which operations it tried, which status files it wrote. */
  datatype RunResult = RunResult(ending: Ending, tried: seq<Key>, writes: seq<Status>)

  function RunOf(before: Status, i: RunInput): RunResult {
    var plan := PlanOf(i.config, i.manifests, before.completed);
    var planned := |plan.steps|;
    if !i.config.approvedSource then RunResult(Unapproved, [], [])
    else if plan.blocked != [] then
      RunResult(AccessBlocked, [],
                if i.dryRun then [] else [Status("ACCESS_BLOCKED", before.completed, 0, planned, None)])
    else if !i.capacityOk then
      RunResult(CapacityFailed, [],
                if i.dryRun then [] else [Status("FAIL_GUARD", before.completed, 0, planned, None)])
    else if i.dryRun then RunResult(Finished(if planned == 0 then "OK_NOOP" else "OK", 0), [], [])
    else
      var p := Tried(before.completed, plan.steps, i.succeeds, planned);
      RunResult(if p.failed.Some? then StepFailed(p.failed.value)
                else Finished(if p.tried == [] then "OK_NOOP" else "OK", |p.tried|),
                p.tried, EndWrites(p, planned))
  }

  /** What the status file holds after some writes. */
  function LastOr(writes: seq<Status>, before: Status): Status {
    if writes == [] then before else writes[|writes| - 1]
  }

  /** The status file, everything written to it, and the operations invoked, in order. */
  class StatusFile {
    var status: Status
    var invoked: seq<Key>
    ghost var history: seq<Status>

    constructor ()
      ensures status == Status("", {}, 0, 0, None) && invoked == [] && history == []
    {
      status, invoked, history := Status("", {}, 0, 0, None), [], [];
    }

    method Write(s: Status)
      modifies `status, `history
      ensures status == s && history == old(history) + [s]
    {
      status, history := s, history + [s];
    }

    method RunRefresh(i: RunInput) returns (ending: Ending)
      modifies this
      ensures ending == RunOf(old(status), i).ending
      ensures invoked == old(invoked) + RunOf(old(status), i).tried
      ensures history == old(history) + RunOf(old(status), i).writes
      ensures status == LastOr(RunOf(old(status), i).writes, old(status))
    {
      var plan := PlanRefresh(i.config, i.manifests, status.completed);
      if plan.None? {
        return Unapproved;
      }
      var steps := plan.value.steps;
      var completed := status.completed;
      if plan.value.blocked != [] {
        if !i.dryRun {
          Write(Status("ACCESS_BLOCKED", completed, 0, |steps|, None));
        }
        return AccessBlocked;
      }
      if !i.capacityOk {
        if !i.dryRun {
          Write(Status("FAIL_GUARD", completed, 0, |steps|, None));
        }
        return CapacityFailed;
      }
      if i.dryRun {
        return Finished(if steps == [] then "OK_NOOP" else "OK", 0);
      }
      ending := RunSteps(steps, i.succeeds);
    }

    method RunSteps(steps: seq<Key>, succeeds: Key -> bool) returns (ending: Ending)
      modifies this
      ensures
        var p := Tried(old(status.completed), steps, succeeds, |steps|);
        && invoked == old(invoked) + p.tried
        && history == old(history) + EndWrites(p, |steps|)
        && status == LastOr(EndWrites(p, |steps|), old(status))
        && ending == (if p.failed.Some? then StepFailed(p.failed.value)
                      else Finished(if p.tried == [] then "OK_NOOP" else "OK", |p.tried|))
    {
      var completed := status.completed;
      var executed := 0;
      ghost var start := completed;
      for n := 0 to |steps|
        invariant
          var p := Tried(start, steps, succeeds, n);
          && p.failed.None? && p.completed == completed && |p.tried| == executed
          && invoked == old(invoked) + p.tried
          && history == old(history) + p.writes
      {
        var key := steps[n];
        if key !in completed {
          invoked := invoked + [key];
          if !succeeds(key) {
            Write(Status("FAILED_PARTIAL", completed, executed, |steps|, Some(key)));
            FailureSticks(start, steps, succeeds, n + 1, |steps|);
            return StepFailed(key);
          }
          completed := completed + {key};
          executed := executed + 1;
          Write(Status("RUNNING", completed, executed, |steps|, None));
        }
      }
      var result := if executed > 0 then "OK" else "OK_NOOP";
      Write(Status(result, completed, executed, |steps|, None));
      return Finished(result, executed);
    }
  }

  lemma {:induction false} FailureSticks(completed: set<Key>, steps: seq<Key>, succeeds: Key -> bool, n: nat, m: nat)
    requires n <= m <= |steps| && Tried(completed, steps, succeeds, n).failed.Some?
    ensures Tried(completed, steps, succeeds, m) == Tried(completed, steps, succeeds, n)
  {
    if n < m {
      FailureSticks(completed, steps, succeeds, n, m - 1);
    }
  }
}
