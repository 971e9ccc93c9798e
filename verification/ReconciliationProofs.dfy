/** What the three-way reconciliation decides: honest logs always pass, tampered history never does. */
module ReconciliationProofs {
  import opened Numerics
  import opened Portfolio
  import opened PaperTrading
  import opened Reconciliation
  import PaperSafety

  /** Two mirrors that no compared component, now or after more events, can tell apart. */
  predicate Alike(m: Mirror, n: Mirror) {
    && m.cash == n.cash && m.position == n.position && m.entryFees == n.entryFees
    && m.realizedPnl == n.realizedPnl && m.totalFees == n.totalFees
    && (m.position != 0.0 ==> m.avgEntry.GetOr(0.0) == n.avgEntry.GetOr(0.0))
  }

  lemma {:induction false} StepKeepsAlike(ar: Arith, m: Mirror, n: Mirror, e: LogEvent)
    requires Alike(m, n)
    ensures Alike(MirrorStep(ar, m, e), MirrorStep(ar, n, e))
  {
  }

  lemma {:induction false} AdvanceKeepsAlike(ar: Arith, m: Mirror, n: Mirror, events: seq<LogEvent>)
    requires Alike(m, n)
    ensures Alike(Advance(ar, m, events), Advance(ar, n, events))
  {
    if events != [] {
      AdvanceKeepsAlike(ar, m, n, events[..|events| - 1]);
      StepKeepsAlike(ar, Advance(ar, m, events[..|events| - 1]), Advance(ar, n, events[..|events| - 1]),
                     events[|events| - 1]);
    }
  }

  /** The checkpoint the reconciliation writes after a full replay that ended in `m`. */
  function CheckpointOf(ar: Arith, m: Mirror, mark: Option<real>, cursor: Option<int>): Checkpoint
    requires LedgerOf(ar, m, mark).Some?
  {
    BookFromLedger(LedgerOf(ar, m, mark).value, m.entryFees, cursor)
  }

  lemma {:induction false} ResumeAlike(ar: Arith, m: Mirror, mark: Option<real>, cursor: Option<int>)
    requires LedgerOf(ar, m, mark).Some?
    ensures Alike(Resume(CheckpointOf(ar, m, mark, cursor)), m)
  {
  }

  /** Two ledgers that agree wherever the reconciliation looks. */
  predicate Agree(a: Ledger, b: Ledger) {
    && a.cash == b.cash && a.position == b.position && a.realizedPnl == b.realizedPnl && a.fees == b.fees
    && a.equity == b.equity
    && (a.position > 0.0 && b.position > 0.0 ==> a.averageEntry == b.averageEntry)
  }

  lemma {:induction false} AlikeLedgers(ar: Arith, m: Mirror, n: Mirror, mark: Option<real>)
    requires Alike(m, n)
    ensures LedgerOf(ar, m, mark).Some? <==> LedgerOf(ar, n, mark).Some?
    ensures LedgerOf(ar, m, mark).Some? ==> Agree(LedgerOf(ar, m, mark).value, LedgerOf(ar, n, mark).value)
  {
  }

  lemma {:induction false} NoMismatchIff(cs: seq<Comparison>)
    ensures Mismatches(cs) == [] <==> forall c :: c in cs ==> c.expected == c.actual
    ensures Largest(Deltas(cs)) >= 0.0
    ensures Largest(Deltas(cs)) == 0.0 <==> Mismatches(cs) == []
    ensures forall c :: c in cs ==> Abs(c.expected - c.actual) <= Largest(Deltas(cs))
  {
    if cs != [] {
      var front, last := cs[..|cs| - 1], cs[|cs| - 1];
      NoMismatchIff(front);
      assert cs == front + [last];
      assert Deltas(cs)[..|Deltas(cs)| - 1] == Deltas(front);
      assert last in cs;
    }
  }

  lemma {:induction false} ComparisonsAgree(a: Ledger, b: Ledger, ordered: seq<LogEvent>)
    ensures
      (forall c :: c in Comparisons(a, b, ordered) ==> c.expected == c.actual)
      <==> Agree(a, b) && (ordered != [] ==> a.equity == ordered[|ordered| - 1].equity)
  {
    var cs := Comparisons(a, b, ordered);
    assert cs[0] == Comparison("cash", a.cash, b.cash);
    assert cs[1] == Comparison("position_qty", a.position, b.position);
    if a.position > 0.0 && b.position > 0.0 {
      assert cs[2] == Comparison("average_entry", a.averageEntry, b.averageEntry);
    }
    var k := if a.position > 0.0 && b.position > 0.0 then 3 else 2;
    assert cs[k] == Comparison("realized_pnl", a.realizedPnl, b.realizedPnl);
    assert cs[k + 1] == Comparison("fees", a.fees, b.fees);
    assert cs[k + 2] == Comparison("equity", a.equity, b.equity);
    if ordered != [] {
      assert cs[k + 3] == Comparison("equity", a.equity, ordered[|ordered| - 1].equity);
    }
  }

  function Replayed(ar: Arith, capital: real, ordered: seq<LogEvent>, mark: Option<real>): Option<Ledger> {
    LedgerOf(ar, Advance(ar, MirrorStart(capital), ordered), mark)
  }

  function Resumed(ar: Arith, previous: Checkpoint, since: seq<LogEvent>, mark: Option<real>): Option<Ledger> {
    LedgerOf(ar, Advance(ar, Resume(previous), since), mark)
  }

  predicate LiveEquity(l: Ledger, ordered: seq<LogEvent>) {
    ordered != [] ==> l.equity == ordered[|ordered| - 1].equity
  }

  /** With a usable checkpoint the verdict is a pass exactly when full replay, replay from the checkpoint and live
      equity agree; the residual is zero exactly then. */
  lemma {:induction false} PassIff(
    ar: Arith, events: seq<LogEvent>, capital: real, mark: Option<real>, previous: Checkpoint, cursor: int)
    requires previous.lastEventMs == Some(cursor)
    ensures
      var ordered := SortByTime(events);
      var full := Replayed(ar, capital, ordered, mark);
      var incremental := Resumed(ar, previous, Since(ordered, cursor), mark);
      var verdict := Reconcile(ar, events, capital, mark, Some(previous));
      && (verdict.Some? <==> full.Some? && incremental.Some?)
      && (verdict.Some? ==>
            && (verdict.value.pass <==> Agree(full.value, incremental.value) && LiveEquity(full.value, ordered))
            && (verdict.value.pass <==> verdict.value.residual == 0.0)
            && (verdict.value.pass <==> verdict.value.mismatches == []))
  {
    var ordered := SortByTime(events);
    var full := Replayed(ar, capital, ordered, mark);
    var incremental := Resumed(ar, previous, Since(ordered, cursor), mark);
    if full.Some? && incremental.Some? {
      ComparisonsAgree(full.value, incremental.value, ordered);
      NoMismatchIff(Comparisons(full.value, incremental.value, ordered));
    }
  }

  /** A first reconciliation, without a usable checkpoint, passes with the full ledger, no mismatch and residual zero,
      and leaves the checkpoint of the full replay with the last event's time as its cursor. */
  lemma {:induction false} FirstPasses(
    ar: Arith, events: seq<LogEvent>, capital: real, mark: Option<real>, previous: Option<Checkpoint>)
    requires previous.None? || previous.value.lastEventMs.None?
    ensures
      var ordered := SortByTime(events);
      var full := Replayed(ar, capital, ordered, mark);
      var verdict := Reconcile(ar, events, capital, mark, previous);
      && (verdict.Some? <==> full.Some?)
      && (verdict.Some? ==>
            && verdict.value.pass && verdict.value.mismatches == [] && verdict.value.residual == 0.0
            && verdict.value.ledger == full.value
            && verdict.value.book
               == CheckpointOf(ar, Advance(ar, MirrorStart(capital), ordered), mark,
                               if ordered == [] then None else Some(ordered[|ordered| - 1].ts)))
  {
  }

  // ---- what a verdict names

  lemma {:induction false} NamedIff(cs: seq<Comparison>, name: string)
    ensures name in Mismatches(cs) <==> exists c :: c in cs && c.name == name && c.expected != c.actual
  {
    if cs != [] {
      var front, last := cs[..|cs| - 1], cs[|cs| - 1];
      NamedIff(front, name);
      assert cs == front + [last];
      assert last in cs;
      if name in Mismatches(front) {
        var c :| c in front && c.name == name && c.expected != c.actual;
        assert c in cs;
      }
    }
  }

  lemma {:induction false} LargestIsOne(cs: seq<Comparison>)
    ensures Largest(Deltas(cs)) > 0.0 ==>
      exists c :: c in cs && Largest(Deltas(cs)) == Abs(c.expected - c.actual)
  {
    if cs != [] {
      var front, last := cs[..|cs| - 1], cs[|cs| - 1];
      LargestIsOne(front);
      assert cs == front + [last];
      assert last in cs;
      assert Deltas(cs)[..|Deltas(cs)| - 1] == Deltas(front);
      if Largest(Deltas(front)) > 0.0 {
        var c :| c in front && Largest(Deltas(front)) == Abs(c.expected - c.actual);
        assert c in cs;
      }
    }
  }

  /** The comparisons by what they compare, both open positions' entries only. */
  predicate Compared(full: Ledger, incremental: Ledger, ordered: seq<LogEvent>, name: string, x: real, y: real) {
    || (name == "cash" && x == full.cash && y == incremental.cash)
    || (name == "position_qty" && x == full.position && y == incremental.position)
    || (name == "average_entry" && full.position > 0.0 && incremental.position > 0.0
        && x == full.averageEntry && y == incremental.averageEntry)
    || (name == "realized_pnl" && x == full.realizedPnl && y == incremental.realizedPnl)
    || (name == "fees" && x == full.fees && y == incremental.fees)
    || (name == "equity" && x == full.equity && y == incremental.equity)
    || (name == "equity" && ordered != [] && x == full.equity && y == ordered[|ordered| - 1].equity)
  }

  lemma {:induction false} ComparisonsAre(full: Ledger, incremental: Ledger, ordered: seq<LogEvent>, c: Comparison)
    ensures
      c in Comparisons(full, incremental, ordered)
      <==> Compared(full, incremental, ordered, c.name, c.expected, c.actual)
  {
    var cs := Comparisons(full, incremental, ordered);
    var k := if full.position > 0.0 && incremental.position > 0.0 then 3 else 2;
    assert cs[0] == Comparison("cash", full.cash, incremental.cash);
    assert cs[1] == Comparison("position_qty", full.position, incremental.position);
    assert k == 3 ==> cs[2] == Comparison("average_entry", full.averageEntry, incremental.averageEntry);
    assert cs[k] == Comparison("realized_pnl", full.realizedPnl, incremental.realizedPnl);
    assert cs[k + 1] == Comparison("fees", full.fees, incremental.fees);
    assert cs[k + 2] == Comparison("equity", full.equity, incremental.equity);
    assert ordered != [] ==> cs[k + 3] == Comparison("equity", full.equity, ordered[|ordered| - 1].equity);
  }

  /** A verdict against a usable checkpoint names exactly the components that differ, and its residual is the largest of
      their differences. */
  lemma {:induction false} VerdictNames(
    ar: Arith, events: seq<LogEvent>, capital: real, mark: Option<real>, previous: Checkpoint, cursor: int)
    requires previous.lastEventMs == Some(cursor)
    requires Reconcile(ar, events, capital, mark, Some(previous)).Some?
    ensures
      var ordered := SortByTime(events);
      var full := Replayed(ar, capital, ordered, mark);
      var incremental := Resumed(ar, previous, Since(ordered, cursor), mark);
      var verdict := Reconcile(ar, events, capital, mark, Some(previous)).value;
      && full.Some? && incremental.Some? && verdict.ledger == full.value
      && (forall name :: name in verdict.mismatches <==>
            exists x, y :: Compared(full.value, incremental.value, ordered, name, x, y) && x != y)
      && (forall name, x, y :: Compared(full.value, incremental.value, ordered, name, x, y) ==>
            Abs(x - y) <= verdict.residual)
      && (verdict.residual > 0.0 ==>
            exists name, x, y ::
              Compared(full.value, incremental.value, ordered, name, x, y) && verdict.residual == Abs(x - y))
  {
    hide Comparisons, Compared, Replayed, Resumed;
    var ordered := SortByTime(events);
    PassIff(ar, events, capital, mark, previous, cursor);
    var full := Replayed(ar, capital, ordered, mark).value;
    var incremental := Resumed(ar, previous, Since(ordered, cursor), mark).value;
    VerdictIsOf(ar, events, capital, mark, previous, cursor);
    var cs := Comparisons(full, incremental, ordered);
    NoMismatchIff(cs);
    forall name
      ensures name in Mismatches(cs) <==> exists x, y :: Compared(full, incremental, ordered, name, x, y) && x != y
    {
      NamedIff(cs, name);
      if c: Comparison :| c in cs && c.name == name && c.expected != c.actual {
        ComparisonsAre(full, incremental, ordered, c);
      } else if x, y :| Compared(full, incremental, ordered, name, x, y) && x != y {
        ComparisonsAre(full, incremental, ordered, Comparison(name, x, y));
      }
    }
    forall name, x, y | Compared(full, incremental, ordered, name, x, y)
      ensures Abs(x - y) <= Largest(Deltas(cs))
    {
      ComparisonsAre(full, incremental, ordered, Comparison(name, x, y));
    }
    LargestIsOne(cs);
    if Largest(Deltas(cs)) > 0.0 {
      var c :| c in cs && Largest(Deltas(cs)) == Abs(c.expected - c.actual);
      ComparisonsAre(full, incremental, ordered, c);
    }
  }

  lemma {:induction false} VerdictIsOf(
    ar: Arith, events: seq<LogEvent>, capital: real, mark: Option<real>, previous: Checkpoint, cursor: int)
    requires previous.lastEventMs == Some(cursor)
    requires Reconcile(ar, events, capital, mark, Some(previous)).Some?
    ensures
      var ordered := SortByTime(events);
      var full := Replayed(ar, capital, ordered, mark);
      var incremental := Resumed(ar, previous, Since(ordered, cursor), mark);
      && full.Some? && incremental.Some?
      && var cs := Comparisons(full.value, incremental.value, ordered);
         var verdict := Reconcile(ar, events, capital, mark, Some(previous)).value;
         verdict.ledger == full.value && verdict.mismatches == Mismatches(cs) && verdict.residual == Largest(Deltas(cs))
  {
    var ordered := SortByTime(events);
    var full := Replayed(ar, capital, ordered, mark).value;
    var incremental := Resumed(ar, previous, Since(ordered, cursor), mark).value;
    NoMismatchIff(Comparisons(full, incremental, ordered));
  }

  /** The checkpoint the reconciliation leaves behind after the first `n` events of a log. */
  function CheckpointAt(ar: Arith, capital: real, log: seq<LogEvent>, n: nat, mark: Option<real>): Checkpoint
    requires 0 < n <= |log| && Replayed(ar, capital, log[..n], mark).Some?
  {
    CheckpointOf(ar, Advance(ar, MirrorStart(capital), log[..n]), mark, Some(log[n - 1].ts))
  }

  /** The checkpoint is the one the reconciliation itself returns for that part of the log, whatever came before. */
  lemma {:induction false} CheckpointIsBook(
    ar: Arith, capital: real, log: seq<LogEvent>, n: nat, mark: Option<real>, previous: Option<Checkpoint>)
    requires 0 < n <= |log| && InOrder(log) && Replayed(ar, capital, log[..n], mark).Some?
    requires Reconcile(ar, log[..n], capital, mark, previous).Some?
    ensures Reconcile(ar, log[..n], capital, mark, previous).value.book == CheckpointAt(ar, capital, log, n, mark)
  {
    SortOfOrdered(log[..n]);
  }

  /** Replaying from a checkpoint of a log's prefix agrees with replaying the whole log. */
  lemma {:induction false} ResumedAgrees(
    ar: Arith, capital: real, log: seq<LogEvent>, n: nat, markThen: Option<real>, mark: Option<real>)
    requires 0 < n <= |log| && Replayed(ar, capital, log[..n], markThen).Some?
    ensures
      var full := Replayed(ar, capital, log, mark);
      var incremental := Resumed(ar, CheckpointAt(ar, capital, log, n, markThen), log[n..], mark);
      (full.Some? <==> incremental.Some?) && (full.Some? ==> Agree(full.value, incremental.value))
  {
    var prefix := Advance(ar, MirrorStart(capital), log[..n]);
    var checkpoint := CheckpointAt(ar, capital, log, n, markThen);
    ResumeAlike(ar, prefix, markThen, Some(log[n - 1].ts));
    AdvanceKeepsAlike(ar, Resume(checkpoint), prefix, log[n..]);
    AdvanceConcat(ar, MirrorStart(capital), log[..n], log[n..]);
    assert log == log[..n] + log[n..];
    AlikeLedgers(ar, Advance(ar, Resume(checkpoint), log[n..]), Advance(ar, MirrorStart(capital), log), mark);
  }

  /** The cursor of a checkpoint after `n` events separates them from the rest of the log. */
  predicate CleanCut(log: seq<LogEvent>, n: nat) {
    0 < n <= |log| && (n < |log| ==> log[n - 1].ts < log[n].ts)
  }

  lemma {:induction false} SinceCut(log: seq<LogEvent>, n: nat)
    requires InOrder(log) && CleanCut(log, n)
    ensures Since(log, log[n - 1].ts) == log[n..]
  {
    SinceSuffix(log, n, log[n - 1].ts);
  }

  /** An ordered log whose last equity is the replayed one passes against every checkpoint of a clean prefix. */
  lemma {:induction false} GrownLogPasses(
    ar: Arith, capital: real, log: seq<LogEvent>, n: nat, markThen: Option<real>, mark: Option<real>)
    requires InOrder(log) && CleanCut(log, n)
    requires Replayed(ar, capital, log[..n], markThen).Some?
    requires Replayed(ar, capital, log, mark).Some? && LiveEquity(Replayed(ar, capital, log, mark).value, log)
    ensures
      var verdict := Reconcile(ar, log, capital, mark, Some(CheckpointAt(ar, capital, log, n, markThen)));
      verdict.Some? && verdict.value.pass && verdict.value.mismatches == [] && verdict.value.residual == 0.0
  {
    var checkpoint := CheckpointAt(ar, capital, log, n, markThen);
    SortOfOrdered(log);
    SinceCut(log, n);
    ResumedAgrees(ar, capital, log, n, markThen, mark);
    PassIff(ar, log, capital, mark, checkpoint, log[n - 1].ts);
  }

  /** The engine only lets time move forward, so every session's log is in order already. */
  lemma {:induction false} SessionInOrder(su: Setup, ticks: seq<Tick>)
    requires RunSession(su, ticks).Some?
    ensures InOrder(RunSession(su, ticks).value.log)
    ensures
      RunSession(su, ticks).value.state.lastTs == if ticks == [] then None else Some(ticks[|ticks| - 1].ts)
  {
    if ticks != [] {
      StepOfSession(su, ticks);
      var before := ticks[..|ticks| - 1];
      SessionInOrder(su, before);
      SessionLogged(su, before);
      SessionLogged(su, ticks);
      var st := RunSession(su, before).value.state;
      var t := ticks[|ticks| - 1];
      PaperSafety.TickStampsClock(su, st, t.killActive, t.decision, t.price, t.atr, t.ts);
    }
  }

  /** The equity a session logs last is its refolded account, marked at the last price. */
  lemma {:induction false} SessionEquityReplayed(su: Setup, ticks: seq<Tick>)
    requires su.ar.ZeroNeutral() && RunSession(su, ticks).Some? && ticks != []
    ensures
      var log := RunSession(su, ticks).value.log;
      var full := Replayed(su.ar, su.risk.capital, log, Some(ticks[|ticks| - 1].price));
      full.Some? && LiveEquity(full.value, log)
  {
    SessionMirrored(su, ticks);
    SessionLogged(su, ticks);
    var book := RunSession(su, ticks).value.state.book;
    var price := ticks[|ticks| - 1].price;
    assert su.ar.Add(book.cash, su.ar.Mul(0.0, price)) == book.cash;
  }

  lemma {:induction false} SessionLogPasses(
    su: Setup, ticks: seq<Tick>, log: seq<LogEvent>, n: nat, markThen: Option<real>)
    requires su.ar.ZeroNeutral() && RunSession(su, ticks).Some? && log == RunSession(su, ticks).value.log
    requires CleanCut(log, n) && Replayed(su.ar, su.risk.capital, log[..n], markThen).Some?
    ensures ticks != []
    ensures
      var checkpoint := CheckpointAt(su.ar, su.risk.capital, log, n, markThen);
      var verdict := Reconcile(su.ar, log, su.risk.capital, Some(ticks[|ticks| - 1].price), Some(checkpoint));
      verdict.Some? && verdict.value.pass && verdict.value.mismatches == [] && verdict.value.residual == 0.0
  {
    SessionLogged(su, ticks);
    SessionInOrder(su, ticks);
    SessionEquityReplayed(su, ticks);
    GrownLogPasses(su.ar, su.risk.capital, log, n, markThen, Some(ticks[|ticks| - 1].price));
  }

  /** An honestly growing log passes: for every session, under any arithmetic in which adding zero times a price
      changes nothing, and every checkpoint whose cursor no later event shares, the verdict on the whole log is a pass
      with no mismatch and residual zero. */
  lemma {:induction false} HonestLogPasses(su: Setup, ticks: seq<Tick>, n: nat, markThen: Option<real>)
    ensures su.ar.ZeroNeutral() && RunSession(su, ticks).Some? ==>
      var log, capital := RunSession(su, ticks).value.log, su.risk.capital;
      CleanCut(log, n) && Replayed(su.ar, capital, log[..n], markThen).Some? ==>
        ticks != [] &&
        var checkpoint := CheckpointAt(su.ar, capital, log, n, markThen);
        var verdict := Reconcile(su.ar, log, capital, Some(ticks[|ticks| - 1].price), Some(checkpoint));
        verdict.Some? && verdict.value.pass && verdict.value.mismatches == [] && verdict.value.residual == 0.0
  {
    hide Reconcile, Replayed, RunSession;
    if su.ar.ZeroNeutral() && RunSession(su, ticks).Some? {
      var log := RunSession(su, ticks).value.log;
      if CleanCut(log, n) && Replayed(su.ar, su.risk.capital, log[..n], markThen).Some? {
        SessionLogPasses(su, ticks, log, n, markThen);
      }
    }
  }

  /** Rewriting history is detected: against a checkpoint of the honest log, a log that keeps the events after the
      cursor is failed if and only if its full replay differs from the honest one in some compared component, or its
      last equity is not the one replayed. */
  lemma {:induction false} TamperedHistoryFails(
    ar: Arith, capital: real, honest: seq<LogEvent>, n: nat, tampered: seq<LogEvent>,
    markThen: Option<real>, mark: Option<real>)
    requires InOrder(honest) && CleanCut(honest, n)
    requires Replayed(ar, capital, honest[..n], markThen).Some? && Replayed(ar, capital, honest, mark).Some?
    requires Replayed(ar, capital, SortByTime(tampered), mark).Some?
    requires Since(SortByTime(tampered), honest[n - 1].ts) == honest[n..]
    ensures
      var checkpoint := CheckpointAt(ar, capital, honest, n, markThen);
      var verdict := Reconcile(ar, tampered, capital, mark, Some(checkpoint));
      var was := Replayed(ar, capital, honest, mark).value;
      var now := Replayed(ar, capital, SortByTime(tampered), mark).value;
      verdict.Some? &&
      (!verdict.value.pass <==> !Agree(now, was) || !LiveEquity(now, SortByTime(tampered)))
  {
    var checkpoint := CheckpointAt(ar, capital, honest, n, markThen);
    ResumedAgrees(ar, capital, honest, n, markThen, mark);
    PassIff(ar, tampered, capital, mark, checkpoint, honest[n - 1].ts);
  }

  /** A reconciliation raises if and only if it has no mark for a position left open by the full replay or, with a
      usable checkpoint, by the replay from it. */
  lemma {:induction false} NeedsMarkIff(
    ar: Arith, events: seq<LogEvent>, capital: real, mark: Option<real>, previous: Option<Checkpoint>)
    ensures
      var ordered := SortByTime(events);
      Reconcile(ar, events, capital, mark, previous).None?
      <==> mark.None? &&
           (|| Advance(ar, MirrorStart(capital), ordered).position != 0.0
            || (previous.Some? && previous.value.lastEventMs.Some? &&
                Advance(ar, Resume(previous.value), Since(ordered, previous.value.lastEventMs.value)).position != 0.0))
  {
    hide Advance, Comparisons;
  }

  /** The ledger of a session's log is the account of the session, marked: whatever the checkpoint, the reconciliation
      raises without a mark for an open position, and otherwise reports cash, position, average entry (zero when flat),
      profit and fees of the account and their worth at the mark; and the checkpoint it hands on is the same, with the
      pending entry fees, no average entry when flat, and the time of the last tick as its cursor. */
  lemma {:induction false} LedgerIsAccount(
    su: Setup, ticks: seq<Tick>, mark: Option<real>, previous: Option<Checkpoint>)
    requires RunSession(su, ticks).Some?
    ensures
      var session := RunSession(su, ticks).value;
      var book, verdict := session.state.book, Reconcile(su.ar, session.log, su.risk.capital, mark, previous);
      && (book.position != 0.0 && mark.None? ==> verdict.None?)
      && (verdict.Some? ==>
            verdict.value.ledger == Ledger(
              book.cash, book.position, book.avgEntry.GetOr(0.0), book.realizedPnl, book.totalFees,
              if book.position == 0.0 then book.cash
              else su.ar.Add(book.cash, su.ar.Mul(book.position, mark.GetOr(0.0))))
            && verdict.value.book == Checkpoint(
                 book.cash, book.position, if book.position == 0.0 then None else Some(book.avgEntry.GetOr(0.0)),
                 book.realizedPnl, book.totalFees, verdict.value.ledger.equity, book.entryFees,
                 if ticks == [] then None else Some(ticks[|ticks| - 1].ts)))
  {
    hide Advance, Comparisons, RunSession;
    SessionInOrder(su, ticks);
    SortOfOrdered(RunSession(su, ticks).value.log);
    SessionMirrored(su, ticks);
    SessionLogged(su, ticks);
    NeedsMarkIff(su.ar, RunSession(su, ticks).value.log, su.risk.capital, mark, previous);
  }
}
