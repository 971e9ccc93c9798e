/** Refresh runs on the files their own operations list and write, with failures and kills inside a step: when an OK
    ending means that the data is all there. */
module RefreshWorld {
  import opened Numerics
  import opened Refresh
  import opened RefreshProofs

  /** What the manifests list, and what is on disk. */
  datatype Tree = Tree(listed: Manifests, present: Manifests)

  datatype World = World(status: Status, tree: Tree)

  // ---- what an operation writes

  /** The timeframes below `t` a day has no file for on disk, in order: the ones the candle step still has to write. */
  function Pending(present: Manifests, day: int, t: nat): seq<nat> {
    if t == 0 then []
    else Pending(present, day, t - 1) + if CandleFile(day, t - 1) in present.candles then [] else [t - 1]
  }

  function Files(day: int, ts: seq<nat>): set<CandleFile> {
    set t | t in ts :: CandleFile(day, t)
  }

  /** How many of `n` files are in place when the last one may only be listed. */
  function Placed(n: nat, moved: bool): nat {
    if moved || n == 0 then n else n - 1
  }

  /** The tree once an operation has listed `files` files. Every file is listed in its manifest first and moved into
      place afterwards; `moved` says that the last one listed was moved too. */
  function Perform(t: Tree, k: Key, files: nat, moved: bool): Tree {
    var m, p := t.listed, t.present;
    match k.layer
    case Bronze =>
      if files == 0 then t
      else Tree(m.(bronze := m.bronze + {k.day}), if moved then p.(bronze := p.bronze + {k.day}) else p)
    case SilverTrades =>
      if files == 0 then t
      else Tree(m.(silver := m.silver + {k.day}), if moved then p.(silver := p.silver + {k.day}) else p)
    case SilverCandles =>
      var pending := Pending(p, k.day, TIMEFRAMES);
      var n := if files < |pending| then files else |pending|;
      Tree(m.(candles := m.candles + Files(k.day, pending[..n])),
           p.(candles := p.candles + Files(k.day, pending[..Placed(n, moved)])))
  }

  /** The tree after operations that all succeeded. */
  function PerformAll(t: Tree, ks: seq<Key>): Tree {
    if ks == [] then t else Perform(PerformAll(t, ks[..|ks| - 1]), ks[|ks| - 1], TIMEFRAMES, true)
  }

  /** An operation that does not find its input, listed and on disk, raises before it writes anything. */
  predicate InputReady(t: Tree, k: Key) {
    match k.layer
    case Bronze => true
    case SilverTrades => k.day in t.listed.bronze && k.day in t.present.bronze
    case SilverCandles => k.day in t.listed.silver && k.day in t.present.silver
  }

  // ---- one run, to its end or until it is killed

  /** A run that got as far as its `survived`-th status file; the step it was in then, if any, had listed `files` files
      when it failed or was killed, and had moved the last of them or not. */
  datatype Attempt = Attempt(
    config: Config, succeeds: Key -> bool, capacityOk: bool, dryRun: bool, survived: nat, files: nat, moved: bool)

  function InputOf(w: World, e: Attempt): RunInput {
    RunInput(e.config, w.tree.listed, e.succeeds, e.capacityOk, e.dryRun)
  }

  function ResultOf(w: World, e: Attempt): RunResult {
    RunOf(w.status, InputOf(w, e))
  }

  function Successes(r: RunResult): nat {
    if r.ending.StepFailed? && r.tried != [] then |r.tried| - 1 else |r.tried|
  }

  /** How many of the steps tried are on record as completed. */
  function Recorded(w: World, e: Attempt): (d: nat)
    ensures d <= |ResultOf(w, e).tried|
  {
    var r := ResultOf(w, e);
    if e.survived < Successes(r) then e.survived else Successes(r)
  }

  /** The step that failed or was killed, if one was under way. */
  function Interrupted(w: World, e: Attempt): Option<Key> {
    var r, d := ResultOf(w, e), Recorded(w, e);
    if d < |r.tried| then Some(r.tried[d]) else None
  }

  /** The tree after the first `j` steps tried, all of them successes. */
  function Midway(w: World, e: Attempt, j: nat): Tree
    requires j <= Recorded(w, e)
  {
    PerformAll(w.tree, ResultOf(w, e).tried[..j])
  }

  function AfterAttempt(w: World, e: Attempt): World {
    var done := Midway(w, e, Recorded(w, e));
    World(Left(w.status, Episode(InputOf(w, e), e.survived)),
          match Interrupted(w, e)
          case None => done
          case Some(k) => Perform(done, k, e.files, e.moved))
  }

  /** Every step of the attempt that wrote anything had found its input. */
  predicate Served(w: World, e: Attempt) {
    && (forall j :: 0 <= j < Recorded(w, e) ==> InputReady(Midway(w, e, j), ResultOf(w, e).tried[j]))
    && (Interrupted(w, e).Some? && e.files > 0 ==> InputReady(Midway(w, e, Recorded(w, e)), Interrupted(w, e).value))
  }

  function WorldAfter(w: World, es: seq<Attempt>, n: nat): World
    requires n <= |es|
  {
    if n == 0 then w else AfterAttempt(WorldAfter(w, es, n - 1), es[n - 1])
  }

  predicate AllServed(w: World, es: seq<Attempt>) {
    forall j :: 0 <= j < |es| ==> Served(WorldAfter(w, es, j), es[j])
  }

  /** The attempt stopped inside the day's candle step, after its first file was listed and before its last was in
      place. */
  predicate Torn(w: World, e: Attempt, day: int) {
    Interrupted(w, e) == Some(Key(SilverCandles, day)) && 0 < e.files && (e.files < TIMEFRAMES || !e.moved)
  }

  predicate TornBefore(w: World, es: seq<Attempt>, n: nat, day: int)
    requires n <= |es|
  {
    exists j :: 0 <= j < n && Torn(WorldAfter(w, es, j), es[j], day)
  }

  /** The planner takes the day's candles for done although some file is missing. */
  predicate Partial(t: Tree, day: int) {
    HasCandles(t.listed, day) && !AllCandles(t.present, day)
  }

  /** Nothing is on disk that is not listed. */
  predicate PresentListed(t: Tree) {
    && t.present.bronze <= t.listed.bronze && t.present.silver <= t.listed.silver
    && t.present.candles <= t.listed.candles
  }

  lemma {:induction false} StepKeepsPresentListed(t: Tree, k: Key, files: nat, moved: bool)
    requires PresentListed(t)
    ensures PresentListed(Perform(t, k, files, moved))
  {
  }

  lemma {:induction false} StepsKeepPresentListed(t: Tree, ks: seq<Key>)
    requires PresentListed(t)
    ensures PresentListed(PerformAll(t, ks))
  {
    hide Perform, PresentListed;
    if ks != [] {
      StepsKeepPresentListed(t, ks[..|ks| - 1]);
      StepKeepsPresentListed(PerformAll(t, ks[..|ks| - 1]), ks[|ks| - 1], TIMEFRAMES, true);
    }
  }

  lemma {:induction false} AttemptKeepsPresentListed(w: World, e: Attempt)
    requires PresentListed(w.tree)
    ensures PresentListed(AfterAttempt(w, e).tree)
  {
    hide Perform, PresentListed, ResultOf, Recorded, PerformAll;
    StepsKeepPresentListed(w.tree, ResultOf(w, e).tried[..Recorded(w, e)]);
    if Interrupted(w, e).Some? {
      StepKeepsPresentListed(Midway(w, e, Recorded(w, e)), Interrupted(w, e).value, e.files, e.moved);
    }
  }

  lemma {:induction false} WorldKeepsPresentListed(w: World, es: seq<Attempt>, n: nat)
    requires n <= |es| && PresentListed(w.tree)
    ensures PresentListed(WorldAfter(w, es, n).tree)
  {
    hide AfterAttempt, PresentListed;
    if n > 0 {
      WorldKeepsPresentListed(w, es, n - 1);
      AttemptKeepsPresentListed(WorldAfter(w, es, n - 1), es[n - 1]);
    }
  }

  // ---- a day's candle files

  ghost predicate SameCandles(t: Tree, u: Tree, day: int) {
    forall f: nat ::
      && (CandleFile(day, f) in t.listed.candles <==> CandleFile(day, f) in u.listed.candles)
      && (CandleFile(day, f) in t.present.candles <==> CandleFile(day, f) in u.present.candles)
  }

  lemma {:induction false} SameCandlesSame(t: Tree, u: Tree, day: int)
    requires SameCandles(t, u, day)
    ensures HasCandles(t.listed, day) <==> HasCandles(u.listed, day)
    ensures AllCandles(t.present, day) <==> AllCandles(u.present, day)
  {
  }

  lemma {:induction false} OtherStepKeepsCandles(t: Tree, k: Key, files: nat, moved: bool, day: int)
    requires k != Key(SilverCandles, day)
    ensures SameCandles(t, Perform(t, k, files, moved), day)
  {
  }

  lemma {:induction false} AllPending(present: Manifests, day: int, t: nat)
    requires t <= TIMEFRAMES && !HasCandles(present, day)
    ensures |Pending(present, day, t)| == t && forall i :: 0 <= i < t ==> Pending(present, day, t)[i] == i
  {
    if t > 0 {
      AllPending(present, day, t - 1);
    }
  }

  lemma {:induction false} FirstFiles(day: int, pending: seq<nat>, n: nat, f: nat)
    requires n <= |pending| && forall i :: 0 <= i < |pending| ==> pending[i] == i
    ensures CandleFile(day, f) in Files(day, pending[..n]) <==> f < n
  {
    if f < n {
      assert pending[..n][f] == f;
    }
  }

  lemma {:induction false} NoneListedNonePresent(t: Tree, day: int)
    requires PresentListed(t) && !HasCandles(t.listed, day)
    ensures !HasCandles(t.present, day)
  {
  }

  /** A candle step on a day without files lists the timeframes in order, as many as it got to, and has them in place
      but perhaps the last. */
  lemma {:induction false} CandleStepWrites(t: Tree, day: int, files: nat, moved: bool, f: nat)
    requires PresentListed(t) && !HasCandles(t.listed, day) && f < TIMEFRAMES
    ensures
      var after := Perform(t, Key(SilverCandles, day), files, moved);
      var n := if files < TIMEFRAMES then files else TIMEFRAMES;
      && (CandleFile(day, f) in after.listed.candles <==> f < n)
      && (CandleFile(day, f) in after.present.candles <==> f < Placed(n, moved))
  {
    hide Files, HasCandles, PresentListed;
    NoneListedNonePresent(t, day);
    var all := TIMEFRAMES;
    AllPending(t.present, day, all);
    var pending := Pending(t.present, day, all);
    var n := if files < all then files else all;
    FirstFiles(day, pending, n, f);
    FirstFiles(day, pending, Placed(n, moved), f);
    NotAmong(t, day, f);
  }

  lemma {:induction false} NotAmong(t: Tree, day: int, f: nat)
    requires PresentListed(t) && !HasCandles(t.listed, day) && f < TIMEFRAMES
    ensures CandleFile(day, f) !in t.listed.candles && CandleFile(day, f) !in t.present.candles
  {
  }

  lemma {:induction false} CandleStepOutcome(t: Tree, day: int, files: nat, moved: bool)
    requires PresentListed(t) && !HasCandles(t.listed, day)
    ensures
      var after := Perform(t, Key(SilverCandles, day), files, moved);
      && (HasCandles(after.listed, day) <==> files > 0)
      && (AllCandles(after.present, day) <==> files >= TIMEFRAMES && moved)
  {
    hide Perform;
    var after := Perform(t, Key(SilverCandles, day), files, moved);
    forall f: nat | f < TIMEFRAMES
      ensures CandleFile(day, f) in after.listed.candles <==> f < files
      ensures
        CandleFile(day, f) in after.present.candles
        <==> f < Placed(if files < TIMEFRAMES then files else TIMEFRAMES, moved)
    {
      CandleStepWrites(t, day, files, moved, f);
    }
    if files > 0 {
      assert CandleFile(day, 0) in after.listed.candles;
    }
    if files < TIMEFRAMES || !moved {
      assert CandleFile(day, TIMEFRAMES - 1) !in after.present.candles;
    }
  }

  // ---- the steps of one run

  predicate Distinct(ks: seq<Key>) {
    forall i, j :: 0 <= i < j < |ks| ==> ks[i] != ks[j]
  }

  lemma {:induction false} OthersKeepCandles(t: Tree, ks: seq<Key>, day: int)
    requires Key(SilverCandles, day) !in ks
    ensures SameCandles(t, PerformAll(t, ks), day)
  {
    hide Perform;
    if ks != [] {
      OthersKeepCandles(t, ks[..|ks| - 1], day);
      OtherStepKeepsCandles(PerformAll(t, ks[..|ks| - 1]), ks[|ks| - 1], TIMEFRAMES, true, day);
    }
  }

  lemma {:induction false} StepsWriteCandles(t: Tree, ks: seq<Key>, day: int)
    requires PresentListed(t) && Distinct(ks) && Key(SilverCandles, day) in ks && !HasCandles(t.listed, day)
    ensures AllCandles(PerformAll(t, ks).present, day)
  {
    hide Perform, AllCandles, HasCandles, PresentListed;
    var front, last := ks[..|ks| - 1], ks[|ks| - 1];
    assert ks == front + [last];
    StepsKeepPresentListed(t, front);
    if last == Key(SilverCandles, day) {
      assert last !in front;
      OthersKeepCandles(t, front, day);
      SameCandlesSame(t, PerformAll(t, front), day);
      CandleStepOutcome(PerformAll(t, front), day, TIMEFRAMES, true);
    } else {
      StepsWriteCandles(t, front, day);
      OtherStepKeepsCandles(PerformAll(t, front), last, TIMEFRAMES, true, day);
      SameCandlesSame(PerformAll(t, front), PerformAll(t, ks), day);
    }
  }

  /** The steps a run tries are planned ones, so nothing of theirs was listed when it started. */
  lemma {:induction false} TriedWereMissing(w: World, e: Attempt, k: Key)
    requires k in ResultOf(w, e).tried
    ensures !Listed(w.tree.listed, k) && k !in w.status.completed
  {
    var i := InputOf(w, e);
    var plan := PlanOf(i.config, i.manifests, w.status.completed);
    TriedCompletes(w.status.completed, plan.steps, i.succeeds, |plan.steps|);
    PlanSpec(i.manifests, w.status.completed, i.config.startDay, DayCount(i.config), k);
  }

  lemma {:induction false} TriedDistinct(w: World, e: Attempt)
    ensures Distinct(ResultOf(w, e).tried)
  {
    RunMonotone(w.status, InputOf(w, e));
  }

  /** What an attempt does to a day's candles: they end partial exactly if they were, or if it tore them. */
  lemma {:induction false} AttemptOnCandles(w: World, e: Attempt, day: int)
    requires PresentListed(w.tree)
    ensures Partial(AfterAttempt(w, e).tree, day) <==> Partial(w.tree, day) || Torn(w, e, day)
  {
    hide Perform, PerformAll, ResultOf, HasCandles, AllCandles, PresentListed;
    var k, tried, d := Key(SilverCandles, day), ResultOf(w, e).tried, Recorded(w, e);
    var done := Midway(w, e, d);
    TriedDistinct(w, e);
    StepsKeepPresentListed(w.tree, tried[..d]);
    if k in tried[..d] {
      TriedWereMissing(w, e, k);
      StepsWriteCandles(w.tree, tried[..d], day);
      assert Interrupted(w, e) != Some(k);
    } else {
      OthersKeepCandles(w.tree, tried[..d], day);
      SameCandlesSame(w.tree, done, day);
      if Interrupted(w, e) == Some(k) {
        TriedWereMissing(w, e, k);
        CandleStepOutcome(done, day, e.files, e.moved);
      }
    }
    if Interrupted(w, e).Some? && Interrupted(w, e) != Some(k) {
      OtherStepKeepsCandles(done, Interrupted(w, e).value, e.files, e.moved, day);
      SameCandlesSame(done, AfterAttempt(w, e).tree, day);
    }
  }

  /** Over any history of failures and kills, a day's candles are partial exactly if some attempt tore them: no later
      run repairs them, because the planner takes one listed timeframe for the whole day. */
  lemma {:induction false} PartialIffTorn(w: World, es: seq<Attempt>, n: nat, day: int)
    requires n <= |es| && PresentListed(w.tree) && !Partial(w.tree, day)
    ensures Partial(WorldAfter(w, es, n).tree, day) <==> TornBefore(w, es, n, day)
  {
    hide AfterAttempt, Torn, Partial, PresentListed;
    if n > 0 {
      PartialIffTorn(w, es, n - 1, day);
      WorldKeepsPresentListed(w, es, n - 1);
      AttemptOnCandles(WorldAfter(w, es, n - 1), es[n - 1], day);
      OneMoreTorn(w, es, n - 1, day);
    }
  }

  lemma {:induction false} OneMoreTorn(w: World, es: seq<Attempt>, n: nat, day: int)
    requires n < |es|
    ensures TornBefore(w, es, n + 1, day) <==> TornBefore(w, es, n, day) || Torn(WorldAfter(w, es, n), es[n], day)
  {
    hide Torn, WorldAfter;
  }

  // ---- what completion means

  /** All files of a step are on disk. */
  predicate Done(t: Tree, k: Key) {
    match k.layer
    case Bronze => k.day in t.present.bronze
    case SilverTrades => k.day in t.present.silver
    case SilverCandles => AllCandles(t.present, k.day)
  }

  predicate CompletedAreDone(w: World) {
    forall k :: k in w.status.completed ==> Done(w.tree, k)
  }

  lemma {:induction false} StepKeepsDone(t: Tree, step: Key, files: nat, moved: bool, k: Key)
    ensures Done(t, k) ==> Done(Perform(t, step, files, moved), k)
    ensures Listed(t.listed, k) ==> Listed(Perform(t, step, files, moved).listed, k)
  {
  }

  lemma {:induction false} StepsKeepDone(t: Tree, ks: seq<Key>, k: Key)
    ensures Done(t, k) ==> Done(PerformAll(t, ks), k)
    ensures Listed(t.listed, k) ==> Listed(PerformAll(t, ks).listed, k)
  {
    hide Perform, Done, Listed;
    if ks != [] {
      StepsKeepDone(t, ks[..|ks| - 1], k);
      StepKeepsDone(PerformAll(t, ks[..|ks| - 1]), ks[|ks| - 1], TIMEFRAMES, true, k);
    }
  }

  lemma {:induction false} StepsDo(t: Tree, ks: seq<Key>, k: Key)
    requires PresentListed(t) && Distinct(ks) && k in ks && !Listed(t.listed, k)
    ensures Done(PerformAll(t, ks), k)
  {
    if k.layer.SilverCandles? {
      StepsWriteCandles(t, ks, k.day);
    } else {
      FileStepsDo(t, ks, k);
    }
  }

  lemma {:induction false} FileStepsDo(t: Tree, ks: seq<Key>, k: Key)
    requires k in ks && !k.layer.SilverCandles?
    ensures Done(PerformAll(t, ks), k)
  {
    var front, last := ks[..|ks| - 1], ks[|ks| - 1];
    assert ks == front + [last];
    if last != k {
      FileStepsDo(t, front, k);
      StepKeepsDone(PerformAll(t, front), last, TIMEFRAMES, true, k);
    }
  }

  lemma {:induction false} AttemptKeepsDone(w: World, e: Attempt, k: Key)
    requires PresentListed(w.tree)
    ensures Done(w.tree, k) ==> Done(AfterAttempt(w, e).tree, k)
    ensures Listed(w.tree.listed, k) ==> Listed(AfterAttempt(w, e).tree.listed, k)
    ensures k in ResultOf(w, e).tried[..Recorded(w, e)] ==> Done(AfterAttempt(w, e).tree, k)
  {
    hide Perform, PerformAll, ResultOf, Done, Listed, Recorded, PresentListed;
    var front := ResultOf(w, e).tried[..Recorded(w, e)];
    var done := PerformAll(w.tree, front);
    StepsKeepDone(w.tree, front, k);
    if k in front {
      TriedDistinct(w, e);
      TriedWereMissing(w, e, k);
      StepsDo(w.tree, front, k);
    }
    if Interrupted(w, e).Some? {
      StepKeepsDone(done, Interrupted(w, e).value, e.files, e.moved, k);
    }
  }

  // ---- no file without its source

  /** Whatever is listed was made from a file that is on disk. */
  predicate Sourced(t: Tree) {
    && (forall d :: d in t.listed.silver ==> d in t.present.bronze)
    && (forall f :: f in t.listed.candles ==> f.day in t.present.silver)
  }

  lemma {:induction false} StepKeepsSourced(t: Tree, k: Key, files: nat, moved: bool)
    requires Sourced(t) && (files > 0 ==> InputReady(t, k))
    ensures Sourced(Perform(t, k, files, moved))
  {
  }

  lemma {:induction false} StepsKeepSourced(t: Tree, ks: seq<Key>)
    requires Sourced(t) && forall j :: 0 <= j < |ks| ==> InputReady(PerformAll(t, ks[..j]), ks[j])
    ensures Sourced(PerformAll(t, ks))
  {
    hide Perform, Sourced, InputReady, PerformAll;
    if ks == [] {
      NoSteps(t);
    } else {
      var front, last := ks[..|ks| - 1], ks[|ks| - 1];
      forall j | 0 <= j < |front|
        ensures InputReady(PerformAll(t, front[..j]), front[j])
      {
        assert front[..j] == ks[..j];
      }
      StepsKeepSourced(t, front);
      assert ks[..|front|] == front;
      StepKeepsSourced(PerformAll(t, front), last, TIMEFRAMES, true);
      LastStep(t, ks);
    }
  }

  lemma {:induction false} NoSteps(t: Tree)
    ensures PerformAll(t, []) == t
  {
  }

  lemma {:induction false} LastStep(t: Tree, ks: seq<Key>)
    requires ks != []
    ensures PerformAll(t, ks) == Perform(PerformAll(t, ks[..|ks| - 1]), ks[|ks| - 1], TIMEFRAMES, true)
  {
  }

  lemma {:induction false} AttemptKeepsSourced(w: World, e: Attempt)
    requires Sourced(w.tree) && Served(w, e)
    ensures Sourced(AfterAttempt(w, e).tree)
  {
    hide Perform, PerformAll, ResultOf, Recorded, Sourced, InputReady;
    var tried, d := ResultOf(w, e).tried, Recorded(w, e);
    forall j | 0 <= j < d
      ensures InputReady(PerformAll(w.tree, tried[..d][..j]), tried[..d][j])
    {
      assert tried[..d][..j] == tried[..j];
      assert InputReady(Midway(w, e, j), tried[j]);
    }
    StepsKeepSourced(w.tree, tried[..d]);
    if Interrupted(w, e).Some? {
      StepKeepsSourced(Midway(w, e, d), Interrupted(w, e).value, e.files, e.moved);
    }
  }

  // ---- what the status file records

  /** Of the steps tried, those that succeeded. */
  function Succeeded(p: Progress): seq<Key>
    requires p.failed.Some? ==> p.tried != []
  {
    if p.failed.Some? then p.tried[..|p.tried| - 1] else p.tried
  }

  /** One status file per step tried; a success completes its step. */
  predicate Recorder(from: set<Key>, p: Progress) {
    && |p.writes| == |p.tried| && (p.failed.Some? ==> p.tried != [])
    && (forall k :: k in p.completed ==> k in from || k in Succeeded(p))
    && (forall j, k :: 0 <= j < |Succeeded(p)| && k in p.writes[j].completed ==>
          k in from || k in p.tried[..j + 1])
    && (p.failed.Some? ==> p.writes[|p.writes| - 1].completed == p.completed)
  }

  lemma {:induction false} NextRecord(from: set<Key>, p: Progress, k: Key, done: Status)
    requires Recorder(from, p) && p.failed.None? && done.completed == p.completed + {k}
    ensures Recorder(from, Progress(p.completed + {k}, p.tried + [k], p.writes + [done], None))
  {
    var next := Progress(p.completed + {k}, p.tried + [k], p.writes + [done], None);
    forall j, x | 0 <= j < |Succeeded(next)| && x in next.writes[j].completed
      ensures x in from || x in next.tried[..j + 1]
    {
      if j < |p.tried| {
        assert next.tried[..j + 1] == p.tried[..j + 1];
      } else {
        assert next.tried[..j + 1] == p.tried + [k];
      }
    }
  }

  lemma {:induction false} FailedRecord(from: set<Key>, p: Progress, k: Key, failed: Status)
    requires Recorder(from, p) && p.failed.None? && failed.completed == p.completed
    ensures Recorder(from, p.(tried := p.tried + [k], failed := Some(k), writes := p.writes + [failed]))
  {
    var next := p.(tried := p.tried + [k], failed := Some(k), writes := p.writes + [failed]);
    assert Succeeded(next) == p.tried;
    forall j, x | 0 <= j < |p.tried| && x in next.writes[j].completed
      ensures x in from || x in next.tried[..j + 1]
    {
      assert next.tried[..j + 1] == p.tried[..j + 1];
    }
  }

  lemma {:induction false} TriedRecorded(from: set<Key>, steps: seq<Key>, succeeds: Key -> bool, n: nat)
    requires n <= |steps|
    ensures Recorder(from, Tried(from, steps, succeeds, n))
  {
    hide Recorder;
    if n == 0 {
      NothingRecorded(from);
    } else {
      TriedRecorded(from, steps, succeeds, n - 1);
      var p, k := Tried(from, steps, succeeds, n - 1), steps[n - 1];
      if p.failed.None? && k !in p.completed {
        if succeeds(k) {
          NextRecord(from, p, k, Status("RUNNING", p.completed + {k}, |p.tried| + 1, |steps|, None));
        } else {
          FailedRecord(from, p, k, Status("FAILED_PARTIAL", p.completed, |p.tried|, |steps|, Some(k)));
        }
      }
    }
  }

  lemma {:induction false} NothingRecorded(from: set<Key>)
    ensures Recorder(from, Progress(from, [], [], None))
  {
  }

  /** Whatever a run leaves on record as completed was so before, or is one of the steps recorded. */
  lemma {:induction false} LeftIsRecorded(w: World, e: Attempt, k: Key)
    requires k in AfterAttempt(w, e).status.completed
    ensures k in w.status.completed || k in ResultOf(w, e).tried[..Recorded(w, e)]
  {
    var i := InputOf(w, e);
    var plan := PlanOf(i.config, i.manifests, w.status.completed);
    var p := Tried(w.status.completed, plan.steps, i.succeeds, |plan.steps|);
    TriedRecorded(w.status.completed, plan.steps, i.succeeds, |plan.steps|);
    LeftOfProgress(w, e, p, k);
  }

  lemma {:induction false} LeftOfProgress(w: World, e: Attempt, p: Progress, k: Key)
    requires Recorder(w.status.completed, p) && k in AfterAttempt(w, e).status.completed
    requires
      var i := InputOf(w, e);
      var plan := PlanOf(i.config, i.manifests, w.status.completed);
      p == Tried(w.status.completed, plan.steps, i.succeeds, |plan.steps|)
    ensures k in w.status.completed || k in ResultOf(w, e).tried[..Recorded(w, e)]
  {
    hide PlanOf, Tried;
    var r := ResultOf(w, e);
    if r.tried != [] {
      var s := if e.survived < |r.writes| then e.survived else |r.writes|;
      if s > 0 {
        assert r.writes[..s][s - 1] == r.writes[s - 1];
      }
    }
  }

  // ---- what an OK ending means

  /** A tree the refresh could have left: what is on disk is listed, what is listed was made from a file on disk, and
      what the status file has as completed is on disk. */
  predicate Consistent(w: World) {
    PresentListed(w.tree) && Sourced(w.tree) && CompletedAreDone(w)
  }

  lemma {:induction false} CompletedStayDone(w: World, e: Attempt)
    requires PresentListed(w.tree) && CompletedAreDone(w)
    ensures CompletedAreDone(AfterAttempt(w, e))
  {
    hide Done, AfterAttempt, ResultOf, PresentListed;
    forall k | k in AfterAttempt(w, e).status.completed
      ensures Done(AfterAttempt(w, e).tree, k)
    {
      LeftIsRecorded(w, e, k);
      AttemptKeepsDone(w, e, k);
    }
  }

  lemma {:induction false} WorldStaysConsistent(w: World, es: seq<Attempt>, n: nat)
    requires n <= |es| && Consistent(w) && AllServed(w, es)
    ensures Consistent(WorldAfter(w, es, n))
  {
    hide CompletedAreDone, AfterAttempt, PresentListed, Sourced, Served;
    if n > 0 {
      WorldStaysConsistent(w, es, n - 1);
      var before := WorldAfter(w, es, n - 1);
      CompletedStayDone(before, es[n - 1]);
      AttemptKeepsPresentListed(before, es[n - 1]);
      AttemptKeepsSourced(before, es[n - 1]);
    }
  }

  /** An attempt that ran to an OK ending and was not killed before its last status file. */
  predicate EndedOk(w: World, e: Attempt) {
    !e.dryRun && ResultOf(w, e).ending.Finished? && e.survived >= |ResultOf(w, e).writes|
  }

  lemma {:induction false} EndedOkRecords(w: World, e: Attempt)
    requires EndedOk(w, e)
    ensures Recorded(w, e) == |ResultOf(w, e).tried| && Interrupted(w, e).None?
    ensures AfterAttempt(w, e).status == LastOr(ResultOf(w, e).writes, w.status)
  {
    var i := InputOf(w, e);
    var plan := PlanOf(i.config, i.manifests, w.status.completed);
    TriedRecorded(w.status.completed, plan.steps, i.succeeds, |plan.steps|);
    assert ResultOf(w, e).writes[..|ResultOf(w, e).writes|] == ResultOf(w, e).writes;
  }

  /** After an OK ending every step of every day of the range is on record as completed, or was listed already. */
  lemma {:induction false} EndedOkCovers(w: World, e: Attempt, k: Key)
    requires EndedOk(w, e) && e.config.startDay <= k.day <= e.config.targetDay
    ensures Listed(w.tree.listed, k) || k in AfterAttempt(w, e).status.completed
  {
    hide AfterAttempt;
    var i := InputOf(w, e);
    var start, days := i.config.startDay, DayCount(i.config);
    EndedOkRecords(w, e);
    DoneCompletesPlan(w.status, i);
    BlockedSpec(i.manifests, w.status.completed, start, days);
    PlanSpec(i.manifests, w.status.completed, start, days, k);
  }

  lemma {:induction false} DoneIsListed(t: Tree, k: Key)
    requires PresentListed(t) && Done(t, k)
    ensures Listed(t.listed, k)
  {
    if k.layer.SilverCandles? {
      assert CandleFile(k.day, 0) in t.listed.candles;
    }
  }

  lemma {:induction false} DayCovered(w: World, e: Attempt, k: Key)
    requires EndedOk(w, e) && e.config.startDay <= k.day <= e.config.targetDay && PresentListed(w.tree)
    requires Consistent(AfterAttempt(w, e))
    ensures Listed(AfterAttempt(w, e).tree.listed, k)
  {
    hide AfterAttempt, EndedOk, Done, Listed, PresentListed, Sourced;
    EndedOkCovers(w, e, k);
    AttemptKeepsDone(w, e, k);
    if k in AfterAttempt(w, e).status.completed {
      DoneIsListed(AfterAttempt(w, e).tree, k);
    }
  }

  lemma {:induction false} ListedCandlesHaveSources(t: Tree, day: int)
    requires PresentListed(t) && Sourced(t) && HasCandles(t.listed, day)
    ensures day in t.present.silver && day in t.present.bronze
  {
  }

  /** When OK means complete. After any history of failures and kills, a run that ends OK leaves every day of its range
      listed, with its bronze and trades files on disk; all seven candle files are on disk if and only if no earlier
      attempt was stopped inside that day's candle step between listing the first and placing the last. */
  lemma {:induction false} OkMeansCompleteIff(w: World, es: seq<Attempt>, n: nat, day: int)
    requires n < |es| && Consistent(w) && AllServed(w, es) && !Partial(w.tree, day)
    requires EndedOk(WorldAfter(w, es, n), es[n])
    requires es[n].config.startDay <= day <= es[n].config.targetDay
    ensures
      var t := WorldAfter(w, es, n + 1).tree;
      && HasCandles(t.listed, day) && day in t.present.bronze && day in t.present.silver
      && (AllCandles(t.present, day) <==> !TornBefore(w, es, n, day))
  {
    hide AfterAttempt, EndedOk, ResultOf, PresentListed, Sourced, CompletedAreDone, AllServed, HasCandles, AllCandles;
    var before, e := WorldAfter(w, es, n), es[n];
    WorldStaysConsistent(w, es, n);
    WorldStaysConsistent(w, es, n + 1);
    PartialIffTorn(w, es, n + 1, day);
    OneMoreTorn(w, es, n, day);
    EndedOkRecords(before, e);
    DayCovered(before, e, Key(SilverCandles, day));
    ListedCandlesHaveSources(AfterAttempt(before, e).tree, day);
  }

  // ---- a file that was listed but never moved into place

  /** A bronze or trades file that is listed but not on disk: a run was stopped between the two. */
  predicate Lost(t: Tree, k: Key) {
    !k.layer.SilverCandles? && Listed(t.listed, k) && !Done(t, k)
  }

  lemma {:induction false} OtherStepKeepsLost(t: Tree, step: Key, files: nat, moved: bool, k: Key)
    requires Lost(t, k) && step != k
    ensures Lost(Perform(t, step, files, moved), k)
  {
  }

  lemma {:induction false} OthersKeepLost(t: Tree, ks: seq<Key>, k: Key)
    requires Lost(t, k) && k !in ks
    ensures Lost(PerformAll(t, ks), k)
  {
    hide Perform, Lost;
    if ks != [] {
      OthersKeepLost(t, ks[..|ks| - 1], k);
      OtherStepKeepsLost(PerformAll(t, ks[..|ks| - 1]), ks[|ks| - 1], TIMEFRAMES, true, k);
    }
  }

  lemma {:induction false} AttemptKeepsLost(w: World, e: Attempt, k: Key)
    requires Lost(w.tree, k)
    ensures Lost(AfterAttempt(w, e).tree, k)
  {
    hide Perform, PerformAll, ResultOf, Recorded, Done;
    var tried, d := ResultOf(w, e).tried, Recorded(w, e);
    if k in tried {
      TriedWereMissing(w, e, k);
      assert false;
    }
    OthersKeepLost(w.tree, tried[..d], k);
    if Interrupted(w, e).Some? {
      OtherStepKeepsLost(Midway(w, e, d), Interrupted(w, e).value, e.files, e.moved, k);
    }
  }

  lemma {:induction false} WorldKeepsLost(w: World, es: seq<Attempt>, n: nat, k: Key)
    requires n <= |es| && Lost(w.tree, k)
    ensures Lost(WorldAfter(w, es, n).tree, k)
  {
    hide AfterAttempt, Lost;
    if n > 0 {
      WorldKeepsLost(w, es, n - 1, k);
      AttemptKeepsLost(WorldAfter(w, es, n - 1), es[n - 1], k);
    }
  }

  /** Stopped between listing a bronze or trades file and moving it into place, the refresh never recovers by itself:
      the file stays missing, and no later run over that day ends OK. */
  lemma {:induction false} LostFileBlocks(w: World, es: seq<Attempt>, n: nat, k: Key)
    requires n < |es| && Consistent(w) && AllServed(w, es) && Lost(w.tree, k)
    ensures Lost(WorldAfter(w, es, n + 1).tree, k)
    ensures es[n].config.startDay <= k.day <= es[n].config.targetDay ==> !EndedOk(WorldAfter(w, es, n), es[n])
  {
    hide AfterAttempt, EndedOk, WorldAfter, AllServed, PresentListed, CompletedAreDone;
    WorldKeepsLost(w, es, n + 1, k);
    if EndedOk(WorldAfter(w, es, n), es[n]) && es[n].config.startDay <= k.day <= es[n].config.targetDay {
      NoCandlesOfLost(w.tree, k);
      OkMeansCompleteIff(w, es, n, k.day);
    }
  }

  lemma {:induction false} NoCandlesOfLost(t: Tree, k: Key)
    requires PresentListed(t) && Sourced(t) && Lost(t, k)
    ensures !Partial(t, k.day)
  {
    if HasCandles(t.listed, k.day) {
      ListedCandlesHaveSources(t, k.day);
    }
  }

  // ---- a torn day

  const EMPTY: World := World(Status("", {}, 0, 0, None), Tree(Manifests({}, {}, {}), Manifests({}, {}, {})))
  const ONE_DAY: Config := Config(DEVELOPMENT_FIRST_DAY, DEVELOPMENT_FIRST_DAY, true)

  /** One day, every operation good; killed in the third step after one file, or not killed. */
  function Killed(): Attempt {
    Attempt(ONE_DAY, _ => true, true, false, 2, 1, true)
  }

  function Whole(): Attempt {
    Attempt(ONE_DAY, _ => true, true, false, 4, 0, false)
  }

  lemma {:induction false} FirstPlan()
    ensures
      var d := DEVELOPMENT_FIRST_DAY;
      PlanOf(ONE_DAY, EMPTY.tree.listed, {})
      == Plan([Key(Bronze, d), Key(SilverTrades, d), Key(SilverCandles, d)], [], [])
  {
    assert PlanDays(EMPTY.tree.listed, {}, DEVELOPMENT_FIRST_DAY, 0) == Plan([], [], []);
    assert !HasCandles(EMPTY.tree.listed, DEVELOPMENT_FIRST_DAY);
  }

  lemma {:induction false} FirstRun()
    ensures
      var d, r := DEVELOPMENT_FIRST_DAY, ResultOf(EMPTY, Killed());
      && r.tried == [Key(Bronze, d), Key(SilverTrades, d), Key(SilverCandles, d)]
      && r.ending.Finished?
  {
    FirstPlan();
    var d := DEVELOPMENT_FIRST_DAY;
    var a, b, c := Key(Bronze, d), Key(SilverTrades, d), Key(SilverCandles, d);
    var steps, good := [a, b, c], Killed().succeeds;
    assert Tried({}, steps, good, 0).tried == [] && Tried({}, steps, good, 0).completed == {};
    assert Tried({}, steps, good, 1).tried == [a] && Tried({}, steps, good, 1).completed == {a};
    assert Tried({}, steps, good, 2).tried == [a, b] && Tried({}, steps, good, 2).completed == {a, b};
    assert Tried({}, steps, good, 3).tried == [a, b, c];
  }

  /** What the killed run leaves: bronze, trades and the first candle file. */
  function OneFile(): Manifests {
    Manifests({DEVELOPMENT_FIRST_DAY}, {DEVELOPMENT_FIRST_DAY}, {CandleFile(DEVELOPMENT_FIRST_DAY, 0)})
  }

  lemma {:induction false} FirstTwoSteps()
    ensures
      var d := DEVELOPMENT_FIRST_DAY;
      var two := Manifests({d}, {d}, {});
      && PerformAll(EMPTY.tree, []) == EMPTY.tree
      && InputReady(PerformAll(EMPTY.tree, [Key(Bronze, d)]), Key(SilverTrades, d))
      && PerformAll(EMPTY.tree, [Key(Bronze, d), Key(SilverTrades, d)]) == Tree(two, two)
  {
    var d := DEVELOPMENT_FIRST_DAY;
    var a, b := Key(Bronze, d), Key(SilverTrades, d);
    assert [a][..0] == [] && [a, b][..1] == [a];
    var one := Manifests({d}, {}, {});
    assert PerformAll(EMPTY.tree, [a]) == Tree(one, one);
  }

  lemma {:induction false} ThirdStep()
    ensures
      var d := DEVELOPMENT_FIRST_DAY;
      var two := Manifests({d}, {d}, {});
      Perform(Tree(two, two), Key(SilverCandles, d), 1, true) == Tree(OneFile(), OneFile())
  {
    var d, all := DEVELOPMENT_FIRST_DAY, TIMEFRAMES;
    var two := Manifests({d}, {d}, {});
    AllPending(two, d, all);
    var pending := Pending(two, d, all);
    assert pending[..1] == [0];
    assert Files(d, [0]) == {CandleFile(d, 0)};
    assert {} + {CandleFile(d, 0)} == {CandleFile(d, 0)};
  }

  lemma {:induction false} KilledRunLeaves()
    ensures AfterAttempt(EMPTY, Killed()).tree == Tree(OneFile(), OneFile())
    ensures Interrupted(EMPTY, Killed()) == Some(Key(SilverCandles, DEVELOPMENT_FIRST_DAY))
    ensures Served(EMPTY, Killed())
  {
    hide Perform, PerformAll, ResultOf;
    var d := DEVELOPMENT_FIRST_DAY;
    FirstRun();
    FirstTwoSteps();
    ThirdStep();
    var tried := ResultOf(EMPTY, Killed()).tried;
    assert tried[..0] == [] && tried[..1] == [Key(Bronze, d)];
    assert tried[..2] == [Key(Bronze, d), Key(SilverTrades, d)];
  }

  lemma {:induction false} SecondRun(w: World)
    requires w.tree == Tree(OneFile(), OneFile())
    ensures EndedOk(w, Whole()) && Served(w, Whole()) && AfterAttempt(w, Whole()).tree == w.tree
  {
    var plan := PlanOf(ONE_DAY, w.tree.listed, w.status.completed);
    assert PlanDays(w.tree.listed, w.status.completed, DEVELOPMENT_FIRST_DAY, 0) == Plan([], [], []);
    assert CandleFile(DEVELOPMENT_FIRST_DAY, 0) in w.tree.listed.candles;
    assert plan == Plan([], [], []);
  }

  /** It happens: from an empty tree, a run killed after the first candle file of a day, run again, ends OK with that
      one file and the other six missing. */
  lemma {:induction false} TornDayEndsOk()
    ensures
      var es, d := [Killed(), Whole()], DEVELOPMENT_FIRST_DAY;
      && Consistent(EMPTY) && AllServed(EMPTY, es) && Torn(EMPTY, es[0], d)
      && EndedOk(WorldAfter(EMPTY, es, 1), es[1])
      && WorldAfter(EMPTY, es, 2).tree == Tree(OneFile(), OneFile())
      && forall t: nat :: t < TIMEFRAMES ==> (CandleFile(d, t) in OneFile().candles <==> t == 0)
  {
    hide ResultOf, AfterAttempt, EndedOk, Served, Interrupted;
    var es := [Killed(), Whole()];
    assert WorldAfter(EMPTY, es, 0) == EMPTY;
    KilledRunLeaves();
    SecondRun(WorldAfter(EMPTY, es, 1));
  }
}
