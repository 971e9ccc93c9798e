/** Candles from trades: one pass over a day's trades, checked against what a candle means and across timeframes. */
module Aggregation {
  import opened Numerics

  /** A price keeps its source text; comparisons use the exact decimal value. */
  datatype Price = Price(text: string, value: real)

  /** A row of a trades file; `legible` says that each of its columns has the form of a number or digest it should. */
  datatype RawRow = RawRow(
    legible: bool, ts: int, symbol: string, price: Price, quantity: real, side: string, sourceFile: string,
    sourceRow: nat)

  /** What a trades file is expected to hold. */
  datatype DayFile = DayFile(sourceFile: string, symbol: string, dayStart: int, dayEnd: int, expected: nat)

  datatype Row = Row(ts: int, price: Price, quantity: real)

  datatype Agg = Agg(open: Price, high: Price, low: Price, close: Price, volume: real, count: nat)

  /** Something that happened at `ts`: a single trade, or a whole candle at its open time. */
  datatype Item = Item(ts: int, agg: Agg)

  datatype CandleRow = CandleRow(openMs: int, closeMs: int, agg: Agg)

  datatype Timeframe = M1 | M5 | M15 | M30 | H1 | H4 | D1

  function Duration(t: Timeframe): int {
    match t
    case M1 => 60_000
    case M5 => 300_000
    case M15 => 900_000
    case M30 => 1_800_000
    case H1 => 3_600_000
    case H4 => 14_400_000
    case D1 => 86_400_000
  }

  // ---- reading

  predicate Before(a: RawRow, b: RawRow) {
    a.ts < b.ts || (a.ts == b.ts && a.sourceRow < b.sourceRow)
  }

  /** Row `i` is legible, of the file's symbol and source, on a known side, inside the day and after its predecessor. */
  predicate RowAccepted(file: DayFile, raw: seq<RawRow>, i: nat)
    requires i < |raw|
  {
    && raw[i].legible && raw[i].symbol == file.symbol && (raw[i].side == "buy" || raw[i].side == "sell")
    && raw[i].sourceFile == file.sourceFile && file.dayStart <= raw[i].ts < file.dayEnd
    && (i > 0 ==>
          raw[i - 1].ts < raw[i].ts || (raw[i - 1].ts == raw[i].ts && raw[i - 1].sourceRow < raw[i].sourceRow))
  }

  function RowOf(r: RawRow): Row {
    Row(r.ts, r.price, r.quantity)
  }

  const VALID_SIDES: set<string> := {"buy", "sell"}

  /** How reading ends: with every row, or at the first row that is not accepted, counted from 1, or because there is
      no row, or not as many as announced. */
  datatype Reading = Read(rows: seq<Row>) | InvalidRow(number: nat) | NoRows | WrongCount

  method ReadTrades(file: DayFile, raw: seq<RawRow>) returns (reading: Reading)
    ensures
      match reading
      case Read(rows) =>
        && (forall k :: 0 <= k < |raw| ==> RowAccepted(file, raw, k)) && raw != [] && |raw| == file.expected
        && |rows| == |raw| && forall i :: 0 <= i < |raw| ==> rows[i] == Row(raw[i].ts, raw[i].price, raw[i].quantity)
      case InvalidRow(n) =>
        && 1 <= n <= |raw| && !RowAccepted(file, raw, n - 1)
        && forall k :: 0 <= k < n - 1 ==> RowAccepted(file, raw, k)
      case NoRows => raw == []
      case WrongCount =>
        raw != [] && |raw| != file.expected && forall k :: 0 <= k < |raw| ==> RowAccepted(file, raw, k)
  {
    var out: seq<Row> := [];
    var prev: Option<RawRow> := None;
    for i := 0 to |raw|
      invariant |out| == i && forall k :: 0 <= k < i ==> out[k] == RowOf(raw[k])
      invariant prev == if i == 0 then None else Some(raw[i - 1])
      invariant forall k :: 0 <= k < i ==> RowAccepted(file, raw, k)
    {
      var r := raw[i];
      if !r.legible || r.symbol != file.symbol || r.side !in VALID_SIDES || r.sourceFile != file.sourceFile {
        return InvalidRow(i + 1);
      }
      if !(file.dayStart <= r.ts < file.dayEnd) {
        return InvalidRow(i + 1);
      }
      if prev.Some? && !Before(prev.value, r) {
        return InvalidRow(i + 1);
      }
      prev := Some(r);
      out := out + [RowOf(r)];
    }
    if |raw| == 0 {
      return NoRows;
    }
    if |raw| != file.expected {
      return WrongCount;
    }
    return Read(out);
  }

  /** What is read is sorted by time, as the aggregation takes it. */
  lemma {:induction false} ReadRowsAreSorted(file: DayFile, raw: seq<RawRow>, rows: seq<Row>)
    requires forall k :: 0 <= k < |raw| ==> RowAccepted(file, raw, k)
    requires |rows| == |raw| && forall i :: 0 <= i < |raw| ==> rows[i] == Row(raw[i].ts, raw[i].price, raw[i].quantity)
    ensures SortedRows(rows)
  {
    forall i, j | 0 <= i < j < |rows|
      ensures rows[i].ts <= rows[j].ts
    {
      TimesRise(file, raw, i, j);
    }
  }

  lemma {:induction false} TimesRise(file: DayFile, raw: seq<RawRow>, i: nat, j: nat)
    requires i <= j < |raw| && forall k :: 0 <= k < |raw| ==> RowAccepted(file, raw, k)
    ensures raw[i].ts <= raw[j].ts
  {
    if i < j {
      TimesRise(file, raw, i, j - 1);
      assert RowAccepted(file, raw, j);
    }
  }

  // ---- the algebra of candles

  function Bucket(ts: int, duration: int): int
    requires duration > 0
  {
    ts / duration * duration
  }

  function Single(r: Row): Agg {
    Agg(r.price, r.price, r.price, r.price, r.quantity, 1)
  }

  /** The candle of two adjacent stretches; on equal prices the earlier text stays. */
  function Merge(a: Agg, b: Agg): Agg {
    Agg(a.open,
        if b.high.value > a.high.value then b.high else a.high,
        if b.low.value < a.low.value then b.low else a.low,
        b.close, a.volume + b.volume, a.count + b.count)
  }

  lemma {:induction false} MergeAssociative(a: Agg, b: Agg, c: Agg)
    ensures Merge(Merge(a, b), c) == Merge(a, Merge(b, c))
  {
  }

  function Push(cs: seq<Item>, duration: int, x: Item): seq<Item>
    requires duration > 0
  {
    var n := |cs|;
    if n > 0 && cs[n - 1].ts == Bucket(x.ts, duration) then
      cs[..n - 1] + [Item(cs[n - 1].ts, Merge(cs[n - 1].agg, x.agg))]
    else cs + [Item(Bucket(x.ts, duration), x.agg)]
  }

  /** Candles of a timeframe, from trades or from finer candles, in one pass. */
  function Roll(items: seq<Item>, duration: int): seq<Item>
    requires duration > 0
  {
    if items == [] then [] else Push(Roll(items[..|items| - 1], duration), duration, items[|items| - 1])
  }

  function Items(rows: seq<Row>): (r: seq<Item>)
    ensures |r| == |rows| && forall i :: 0 <= i < |rows| ==> r[i] == Item(rows[i].ts, Single(rows[i]))
  {
    seq(|rows|, i requires 0 <= i < |rows| => Item(rows[i].ts, Single(rows[i])))
  }

  function Candles(rows: seq<Row>, duration: int): seq<Item>
    requires duration > 0
  {
    Roll(Items(rows), duration)
  }

  // ---- roll-up

  lemma {:induction false} TwoDigits(d: int, k: int, q: int, q2: int, r2: int)
    requires q == k * q2 + r2
    ensures d * q == (d * k) * q2 + d * r2
  {
    assert d * (k * q2 + r2) == d * (k * q2) + d * r2;
    assert d * (k * q2) == (d * k) * q2;
  }

  lemma {:induction false} ProductNotNegative(d: nat, n: nat)
    ensures d * n >= 0
  {
    if n > 0 {
      ProductNotNegative(d, n - 1);
      assert d * n == d * (n - 1) + d;
    }
  }

  lemma {:induction false} LowDigits(d: int, k: int, r: int, r2: int)
    requires 0 <= r < d && 0 <= r2 < k
    ensures 0 <= d * r2 + r < d * k
  {
    ProductNotNegative(d, r2);
    ProductNotNegative(d, k - 1 - r2);
    TwoDigits(d, 1, k, k - 1 - r2, r2 + 1);
    OneMoreDigit(d, r2);
  }

  lemma {:induction false} OneMoreDigit(d: int, r2: int)
    ensures d * (r2 + 1) == d * r2 + d
  {
  }

  lemma {:induction false} DivideTwice(t: int, d: int, k: int)
    requires d > 0 && k > 0
    ensures d * k > 0 && (t / d) / k == t / (d * k)
  {
    var q, r := t / d, t % d;
    var q2, r2 := q / k, q % k;
    TwoDigits(d, k, q, q2, r2);
    LowDigits(d, k, r, r2);
    QuotientUnique(t, d * k, q2, d * r2 + r);
  }

  lemma {:induction false} AtLeastOnce(m: int, g: int)
    requires m > 0 && g >= 1
    ensures m * g >= m
  {
  }

  lemma {:induction false} SmallMultiple(m: int, g: int)
    requires m > 0 && -m < m * g < m
    ensures g == 0
  {
    if g >= 1 {
      AtLeastOnce(m, g);
    } else if g <= -1 {
      AtLeastOnce(m, -g);
    }
  }

  lemma {:induction false} QuotientUnique(t: int, m: int, q: int, r: int)
    requires m > 0 && 0 <= r < m && t == m * q + r
    ensures t / m == q
  {
    var p, s := t / m, t % m;
    assert t == m * p + s && 0 <= s < m;
    assert m * (p - q) == m * p - m * q;
    SmallMultiple(m, p - q);
  }

  lemma {:induction false} BucketOfBucket(t: int, d: int, k: int)
    requires d > 0 && k > 0
    ensures d * k > 0 && Bucket(Bucket(t, d), d * k) == Bucket(t, d * k)
  {
    DivideTwice(t, d, k);
    DivideTwice(Bucket(t, d), d, k);
    assert Bucket(t, d) / d == t / d by {
      QuotientUnique(Bucket(t, d), d, t / d, 0);
    }
  }

  /** Rolling candles of a finer timeframe up gives exactly the candles of the coarser one, down to which of several
      equal prices is kept. */
  lemma {:induction false} RollsUp(items: seq<Item>, d: int, k: int)
    requires d > 0 && k > 0
    ensures d * k > 0 && Roll(Roll(items, d), d * k) == Roll(items, d * k)
  {
    BucketOfBucket(0, d, k);
    if items != [] {
      var front, x := items[..|items| - 1], items[|items| - 1];
      var wide := d * k;
      RollsUp(front, d, k);
      BucketOfBucket(x.ts, d, k);
      var fine := Roll(front, d);
      var n := |fine|;
      if n > 0 && fine[n - 1].ts == Bucket(x.ts, d) {
        var rest, last := fine[..n - 1], fine[n - 1];
        var merged := Item(last.ts, Merge(last.agg, x.agg));
        assert (rest + [merged])[..n - 1] == rest;
        var coarse := Roll(rest, wide);
        PushTwice(coarse, wide, last, x);
      } else {
        var next := Item(Bucket(x.ts, d), x.agg);
        assert (fine + [next])[..n] == fine;
      }
    }
  }

  lemma {:induction false} PushTwice(cs: seq<Item>, duration: int, a: Item, b: Item)
    requires duration > 0 && Bucket(a.ts, duration) == Bucket(b.ts, duration)
    ensures Push(Push(cs, duration, a), duration, b) == Push(cs, duration, Item(a.ts, Merge(a.agg, b.agg)))
  {
    var n := |cs|;
    if n > 0 && cs[n - 1].ts == Bucket(a.ts, duration) {
      MergeAssociative(cs[n - 1].agg, a.agg, b.agg);
    }
  }

  /** Any of the seven timeframes rolls up from any finer one. */
  lemma {:induction false} TimeframesRollUp(rows: seq<Row>, fine: Timeframe, coarse: Timeframe)
    requires Duration(fine) <= Duration(coarse)
    ensures Roll(Candles(rows, Duration(fine)), Duration(coarse)) == Candles(rows, Duration(coarse))
  {
    var k := Duration(coarse) / Duration(fine);
    assert Duration(fine) * k == Duration(coarse);
    RollsUp(Items(rows), Duration(fine), k);
  }

  // ---- what a candle means

  function QuantityTotal(rows: seq<Row>): real {
    if rows == [] then 0.0 else QuantityTotal(rows[..|rows| - 1]) + rows[|rows| - 1].quantity
  }

  /** Row `h` is the first of the highest. */
  predicate FirstHighest(rows: seq<Row>, h: nat) {
    && h < |rows|
    && (forall j :: 0 <= j < |rows| ==> rows[j].price.value <= rows[h].price.value)
    && (forall j :: 0 <= j < h ==> rows[j].price.value < rows[h].price.value)
  }

  predicate FirstLowest(rows: seq<Row>, l: nat) {
    && l < |rows|
    && (forall j :: 0 <= j < |rows| ==> rows[j].price.value >= rows[l].price.value)
    && (forall j :: 0 <= j < l ==> rows[j].price.value > rows[l].price.value)
  }

  /** A candle of some trades: first and last price, first highest and first lowest, total quantity, count. */
  predicate Summarises(a: Agg, rows: seq<Row>) {
    && rows != [] && a.count == |rows| && a.volume == QuantityTotal(rows)
    && a.open == rows[0].price && a.close == rows[|rows| - 1].price
    && (exists h: nat :: h < |rows| && FirstHighest(rows, h) && a.high == rows[h].price)
    && (exists l: nat :: l < |rows| && FirstLowest(rows, l) && a.low == rows[l].price)
  }

  lemma {:induction false} SingleSummarises(r: Row)
    ensures Summarises(Single(r), [r])
  {
    assert FirstHighest([r], 0) && FirstLowest([r], 0);
    assert QuantityTotal([r]) == QuantityTotal([r][..0]) + r.quantity;
  }

  lemma {:induction false} HighestGrows(rows: seq<Row>, h: nat, r: Row)
    requires FirstHighest(rows, h)
    ensures FirstHighest(rows + [r], if r.price.value > rows[h].price.value then |rows| else h)
  {
  }

  lemma {:induction false} LowestGrows(rows: seq<Row>, l: nat, r: Row)
    requires FirstLowest(rows, l)
    ensures FirstLowest(rows + [r], if r.price.value < rows[l].price.value then |rows| else l)
  {
  }

  lemma {:induction false} MergeSummarises(a: Agg, rows: seq<Row>, r: Row)
    requires Summarises(a, rows)
    ensures Summarises(Merge(a, Single(r)), rows + [r])
  {
    var all, n := rows + [r], |rows|;
    assert all[..n] == rows;
    var h: nat :| h < n && FirstHighest(rows, h) && a.high == rows[h].price;
    var l: nat :| l < n && FirstLowest(rows, l) && a.low == rows[l].price;
    HighestGrows(rows, h, r);
    LowestGrows(rows, l, r);
    var h' := if r.price.value > a.high.value then n else h;
    var l' := if r.price.value < a.low.value then n else l;
    assert FirstHighest(all, h') && Merge(a, Single(r)).high == all[h'].price;
    assert FirstLowest(all, l') && Merge(a, Single(r)).low == all[l'].price;
  }

  /** The trades behind each candle, in order. */
  function Parts(rows: seq<Row>, duration: int): (r: seq<seq<Row>>)
    requires duration > 0
  {
    if rows == [] then []
    else
      var front, x := Parts(rows[..|rows| - 1], duration), rows[|rows| - 1];
      if front != [] && front[|front| - 1] != [] &&
         Bucket(front[|front| - 1][0].ts, duration) == Bucket(x.ts, duration) then
        front[..|front| - 1] + [front[|front| - 1] + [x]]
      else front + [[x]]
  }

  function Concat(parts: seq<seq<Row>>): seq<Row> {
    if parts == [] then [] else Concat(parts[..|parts| - 1]) + parts[|parts| - 1]
  }

  predicate SortedRows(rows: seq<Row>) {
    forall i, j :: 0 <= i < j < |rows| ==> rows[i].ts <= rows[j].ts
  }

  predicate Rising(cs: seq<Item>) {
    forall i, j :: 0 <= i < j < |cs| ==> cs[i].ts < cs[j].ts
  }

  /** Candle `i` summarises part `i`, whose trades are all of its bucket. */
  predicate Explains(cs: seq<Item>, parts: seq<seq<Row>>, duration: int)
    requires duration > 0
  {
    |cs| == |parts| &&
    forall i {:trigger parts[i]} :: 0 <= i < |cs| ==> ExplainsOne(cs[i], parts[i], duration)
  }

  lemma {:induction false} BucketMonotone(s: int, t: int, d: int)
    requires d > 0 && s <= t
    ensures Bucket(s, d) <= Bucket(t, d)
  {
    var p, q := s / d, t / d;
    if q < p {
      assert t == d * q + t % d && s == d * p + s % d;
      AtLeastOnce(d, p - q);
    }
    AtMost(q - p, d);
    assert q * d - p * d == (q - p) * d;
  }

  lemma {:induction false} AtMost(g: int, d: int)
    requires g >= 0 && d > 0
    ensures g * d >= 0
  {
  }

  lemma {:induction false} PartsCover(rows: seq<Row>, duration: int)
    requires duration > 0
    ensures Concat(Parts(rows, duration)) == rows
  {
    if rows != [] {
      var front, x := rows[..|rows| - 1], rows[|rows| - 1];
      PartsCover(front, duration);
      var before, after := Parts(front, duration), Parts(rows, duration);
      assert after[..|after| - 1] == if |after| == |before| then before[..|before| - 1] else before;
      assert rows == front + [x];
    }
  }

  lemma {:induction false} CandlesGrow(rows: seq<Row>, x: Row, duration: int)
    requires duration > 0
    ensures Candles(rows + [x], duration) == Push(Candles(rows, duration), duration, Item(x.ts, Single(x)))
  {
    var items := Items(rows + [x]);
    assert items[..|items| - 1] == Items(rows);
  }

  lemma {:induction false} PartsGrow(front: seq<Row>, x: Row, duration: int)
    requires duration > 0
    ensures
      var before := Parts(front, duration);
      Parts(front + [x], duration) ==
      if before != [] && before[|before| - 1] != [] &&
         Bucket(before[|before| - 1][0].ts, duration) == Bucket(x.ts, duration)
      then before[..|before| - 1] + [before[|before| - 1] + [x]]
      else before + [[x]]
  {
    assert (front + [x])[..|front|] == front;
  }

  predicate ExplainsOne(c: Item, part: seq<Row>, duration: int)
    requires duration > 0
  {
    Summarises(c.agg, part) && forall r :: r in part ==> Bucket(r.ts, duration) == c.ts
  }

  lemma {:induction false} OneGrows(c: Item, part: seq<Row>, x: Row, duration: int)
    requires duration > 0 && ExplainsOne(c, part, duration) && Bucket(x.ts, duration) == c.ts
    ensures ExplainsOne(Item(c.ts, Merge(c.agg, Single(x))), part + [x], duration)
  {
    MergeSummarises(c.agg, part, x);
  }

  lemma {:induction false} LastGrows(cs: seq<Item>, parts: seq<seq<Row>>, x: Row, duration: int)
    requires duration > 0 && Explains(cs, parts, duration)
    requires cs != [] && cs[|cs| - 1].ts == Bucket(x.ts, duration)
    ensures
      var n := |cs|;
      Explains(Push(cs, duration, Item(x.ts, Single(x))), parts[..n - 1] + [parts[n - 1] + [x]], duration)
  {
    var n := |cs|;
    OneGrows(cs[n - 1], parts[n - 1], x, duration);
  }

  lemma {:induction false} OneMore(cs: seq<Item>, parts: seq<seq<Row>>, x: Row, duration: int)
    requires duration > 0 && Explains(cs, parts, duration)
    requires cs == [] || cs[|cs| - 1].ts != Bucket(x.ts, duration)
    ensures Explains(Push(cs, duration, Item(x.ts, Single(x))), parts + [[x]], duration)
  {
    SingleSummarises(x);
    assert ExplainsOne(Item(Bucket(x.ts, duration), Single(x)), [x], duration);
  }

  /** One more trade keeps the explanation of every candle. */
  lemma {:induction false} ExplainsGrow(cs: seq<Item>, parts: seq<seq<Row>>, x: Row, duration: int)
    requires duration > 0 && Explains(cs, parts, duration)
    ensures
      var n := |cs|;
      var grown := Push(cs, duration, Item(x.ts, Single(x)));
      Explains(grown,
               if n > 0 && cs[n - 1].ts == Bucket(x.ts, duration) then parts[..n - 1] + [parts[n - 1] + [x]]
               else parts + [[x]],
               duration)
  {
    if cs != [] && cs[|cs| - 1].ts == Bucket(x.ts, duration) {
      LastGrows(cs, parts, x, duration);
    } else {
      OneMore(cs, parts, x, duration);
    }
  }

  /** Every candle is exactly the first, last, highest, lowest, total and count of its trades, and those are the
      stretches the tape falls into, in order, without loss. */
  lemma {:induction false} CandlesExplained(rows: seq<Row>, duration: int)
    requires duration > 0
    ensures Explains(Candles(rows, duration), Parts(rows, duration), duration)
    ensures Concat(Parts(rows, duration)) == rows
  {
    PartsCover(rows, duration);
    if rows != [] {
      var front, x := rows[..|rows| - 1], rows[|rows| - 1];
      assert rows == front + [x];
      CandlesExplained(front, duration);
      CandlesGrow(front, x, duration);
      PartsGrow(front, x, duration);
      var cs, parts := Candles(front, duration), Parts(front, duration);
      var n := |cs|;
      ExplainsGrow(cs, parts, x, duration);
      if n > 0 {
        assert parts[n - 1][0] in parts[n - 1];
      }
    }
  }

  /** The candles of a sorted tape open at strictly rising times, so each bucket has one candle with all its trades. */
  lemma {:induction false} CandlesRise(rows: seq<Row>, duration: int)
    requires duration > 0 && SortedRows(rows)
    ensures Rising(Candles(rows, duration))
    ensures rows != [] ==>
      var cs := Candles(rows, duration);
      cs != [] && cs[|cs| - 1].ts == Bucket(rows[|rows| - 1].ts, duration)
  {
    if rows != [] {
      var front, x := rows[..|rows| - 1], rows[|rows| - 1];
      assert rows == front + [x];
      CandlesRise(front, duration);
      CandlesGrow(front, x, duration);
      if front != [] {
        BucketMonotone(front[|front| - 1].ts, x.ts, duration);
      }
    }
  }

  /** The trades of one bucket. */
  function OfBucket(rows: seq<Row>, duration: int, bucket: int): seq<Row>
    requires duration > 0
  {
    if rows == [] then []
    else
      OfBucket(rows[..|rows| - 1], duration, bucket) +
      if Bucket(rows[|rows| - 1].ts, duration) == bucket then [rows[|rows| - 1]] else []
  }

  lemma {:induction false} NoneOfLaterBucket(rows: seq<Row>, duration: int, bucket: int)
    requires duration > 0 && forall r :: r in rows ==> Bucket(r.ts, duration) < bucket
    ensures OfBucket(rows, duration, bucket) == []
  {
    if rows != [] {
      assert rows[|rows| - 1] in rows;
      NoneOfLaterBucket(rows[..|rows| - 1], duration, bucket);
    }
  }

  /** Candles and their parts grow together. */
  lemma {:induction false} PartsFollow(front: seq<Row>, x: Row, duration: int)
    requires duration > 0
    ensures
      var cs, parts, n := Candles(front, duration), Parts(front, duration), |Candles(front, duration)|;
      |parts| == n &&
      Parts(front + [x], duration) ==
      if n > 0 && cs[n - 1].ts == Bucket(x.ts, duration) then parts[..n - 1] + [parts[n - 1] + [x]]
      else parts + [[x]]
  {
    CandlesExplained(front, duration);
    PartsGrow(front, x, duration);
    var parts, n := Parts(front, duration), |Candles(front, duration)|;
    if n > 0 {
      assert parts[n - 1][0] in parts[n - 1];
    }
  }

  lemma {:induction false} EarlierBuckets(front: seq<Row>, x: Row, duration: int)
    requires duration > 0 && SortedRows(front + [x]) && front != []
    requires Bucket(front[|front| - 1].ts, duration) != Bucket(x.ts, duration)
    ensures forall r :: r in front ==> Bucket(r.ts, duration) < Bucket(x.ts, duration)
  {
    var rows, last := front + [x], front[|front| - 1];
    assert rows[|front| - 1] == last && rows[|front|] == x;
    BucketMonotone(last.ts, x.ts, duration);
    forall r | r in front
      ensures Bucket(r.ts, duration) < Bucket(x.ts, duration)
    {
      var k :| 0 <= k < |front| && front[k] == r;
      assert rows[k] == r;
      BucketMonotone(r.ts, last.ts, duration);
    }
  }

  lemma {:induction false} OfBucketGrows(front: seq<Row>, x: Row, duration: int, bucket: int)
    requires duration > 0
    ensures
      OfBucket(front + [x], duration, bucket)
      == OfBucket(front, duration, bucket) + if Bucket(x.ts, duration) == bucket then [x] else []
  {
    assert (front + [x])[..|front|] == front;
  }

  /** Parts that are the buckets of their candles. */
  predicate PartsMatch(rows: seq<Row>, duration: int)
    requires duration > 0
  {
    var cs, parts := Candles(rows, duration), Parts(rows, duration);
    |parts| == |cs| && forall i :: 0 <= i < |cs| ==> parts[i] == OfBucket(rows, duration, cs[i].ts)
  }

  /** A trade of the last bucket joins its part. */
  lemma {:induction false} JoinMatches(front: seq<Row>, x: Row, duration: int)
    requires duration > 0 && PartsMatch(front, duration) && Rising(Candles(front, duration))
    requires Candles(front, duration) != []
    requires Candles(front, duration)[|Candles(front, duration)| - 1].ts == Bucket(x.ts, duration)
    ensures PartsMatch(front + [x], duration)
  {
    var cs, n := Candles(front, duration), |Candles(front, duration)|;
    CandlesGrow(front, x, duration);
    PartsFollow(front, x, duration);
    forall i | 0 <= i < n
      ensures Parts(front + [x], duration)[i] == OfBucket(front + [x], duration, cs[i].ts)
    {
      OfBucketGrows(front, x, duration, cs[i].ts);
      assert i < n - 1 ==> cs[i].ts < cs[n - 1].ts;
    }
  }

  /** A trade of a later bucket starts a part of its own. */
  lemma {:induction false} StartMatches(front: seq<Row>, x: Row, duration: int)
    requires duration > 0 && PartsMatch(front, duration) && Rising(Candles(front + [x], duration))
    requires OfBucket(front, duration, Bucket(x.ts, duration)) == []
    requires
      var cs := Candles(front, duration);
      cs == [] || cs[|cs| - 1].ts != Bucket(x.ts, duration)
    ensures PartsMatch(front + [x], duration)
  {
    var cs, n := Candles(front, duration), |Candles(front, duration)|;
    CandlesGrow(front, x, duration);
    PartsFollow(front, x, duration);
    var grown := Candles(front + [x], duration);
    assert grown == cs + [Item(Bucket(x.ts, duration), Single(x))];
    forall i | 0 <= i < n + 1
      ensures Parts(front + [x], duration)[i] == OfBucket(front + [x], duration, grown[i].ts)
    {
      OfBucketGrows(front, x, duration, grown[i].ts);
      assert i < n ==> grown[i].ts < grown[n].ts;
    }
  }

  lemma {:induction false} SortedFront(rows: seq<Row>)
    requires SortedRows(rows) && rows != []
    ensures SortedRows(rows[..|rows| - 1])
  {
  }

  /** On a sorted tape the trades behind each candle are all the trades of its bucket. */
  lemma {:induction false} PartsAreBuckets(rows: seq<Row>, duration: int)
    requires duration > 0 && SortedRows(rows)
    ensures PartsMatch(rows, duration)
  {
    if rows != [] {
      var front, x := rows[..|rows| - 1], rows[|rows| - 1];
      assert rows == front + [x];
      SortedFront(rows);
      PartsAreBuckets(front, duration);
      CandlesRise(rows, duration);
      CandlesRise(front, duration);
      if front != [] && Bucket(front[|front| - 1].ts, duration) == Bucket(x.ts, duration) {
        JoinMatches(front, x, duration);
      } else {
        if front != [] {
          EarlierBuckets(front, x, duration);
          NoneOfLaterBucket(front, duration, Bucket(x.ts, duration));
        }
        StartMatches(front, x, duration);
      }
    }
  }

  // ---- conservation

  function VolumeTotal(cs: seq<Item>): real {
    if cs == [] then 0.0 else VolumeTotal(cs[..|cs| - 1]) + cs[|cs| - 1].agg.volume
  }

  function CountTotal(cs: seq<Item>): nat {
    if cs == [] then 0 else CountTotal(cs[..|cs| - 1]) + cs[|cs| - 1].agg.count
  }

  lemma {:induction false} PushConserves(cs: seq<Item>, duration: int, x: Item)
    requires duration > 0
    ensures VolumeTotal(Push(cs, duration, x)) == VolumeTotal(cs) + x.agg.volume
    ensures CountTotal(Push(cs, duration, x)) == CountTotal(cs) + x.agg.count
  {
    var n, out := |cs|, Push(cs, duration, x);
    if n > 0 && cs[n - 1].ts == Bucket(x.ts, duration) {
      assert out[..|out| - 1] == cs[..n - 1];
    } else {
      assert out[..|out| - 1] == cs;
    }
  }

  /** Every timeframe holds the same volume and the same number of trades as the tape. */
  lemma {:induction false} VolumeConserved(rows: seq<Row>, duration: int)
    requires duration > 0
    ensures VolumeTotal(Candles(rows, duration)) == QuantityTotal(rows)
    ensures CountTotal(Candles(rows, duration)) == |rows|
  {
    if rows != [] {
      var front, x := rows[..|rows| - 1], rows[|rows| - 1];
      assert rows == front + [x];
      VolumeConserved(front, duration);
      CandlesGrow(front, x, duration);
      PushConserves(Candles(front, duration), duration, Item(x.ts, Single(x)));
    }
  }

  // ---- the pass over a dictionary of buckets

  /** A dictionary holding exactly these candles. */
  predicate Holds(m: map<int, Agg>, cs: seq<Item>) {
    && (forall i :: 0 <= i < |cs| ==> cs[i].ts in m && m[cs[i].ts] == cs[i].agg)
    && (forall k :: k in m ==> exists i :: 0 <= i < |cs| && cs[i].ts == k)
  }

  lemma {:induction false} HoldsGrow(m: map<int, Agg>, cs: seq<Item>, duration: int, x: Item)
    requires duration > 0 && Holds(m, cs) && Rising(cs)
    requires cs != [] ==> cs[|cs| - 1].ts <= Bucket(x.ts, duration)
    ensures
      var b := Bucket(x.ts, duration);
      && (b in m <==> cs != [] && cs[|cs| - 1].ts == b)
      && Holds(m[b := if b in m then Merge(m[b], x.agg) else x.agg], Push(cs, duration, x))
  {
    var b, n := Bucket(x.ts, duration), |cs|;
    var out := Push(cs, duration, x);
    var m' := m[b := if b in m then Merge(m[b], x.agg) else x.agg];
    forall k | k in m'
      ensures exists i :: 0 <= i < |out| && out[i].ts == k
    {
      if k == b {
        assert out[|out| - 1].ts == b;
      } else {
        var i :| 0 <= i < |cs| && cs[i].ts == k;
        assert out[i].ts == k;
      }
    }
  }

  function Emit(cs: seq<Item>, duration: int): (r: seq<CandleRow>)
    ensures |r| == |cs| && forall i :: 0 <= i < |r| ==> r[i] == CandleRow(cs[i].ts, cs[i].ts + duration, cs[i].agg)
  {
    seq(|cs|, i requires 0 <= i < |cs| => CandleRow(cs[i].ts, cs[i].ts + duration, cs[i].agg))
  }

  function InsertKey(ks: seq<int>, k: int): seq<int> {
    if ks == [] || ks[|ks| - 1] <= k then ks + [k]
    else InsertKey(ks[..|ks| - 1], k) + [ks[|ks| - 1]]
  }

  function SortKeys(ks: seq<int>): seq<int> {
    if ks == [] then [] else InsertKey(SortKeys(ks[..|ks| - 1]), ks[|ks| - 1])
  }

  /** Opening times in order of first appearance, which is how a dictionary keeps its keys. */
  function Opens(cs: seq<Item>): (r: seq<int>)
    ensures |r| == |cs| && forall i :: 0 <= i < |r| ==> r[i] == cs[i].ts
  {
    seq(|cs|, i requires 0 <= i < |cs| => cs[i].ts)
  }

  lemma {:induction false} RisingKeysAreSorted(ks: seq<int>)
    requires forall i, j :: 0 <= i < j < |ks| ==> ks[i] < ks[j]
    ensures SortKeys(ks) == ks
  {
    if ks != [] {
      RisingKeysAreSorted(ks[..|ks| - 1]);
    }
  }

  /** One pass over the trades into a dictionary of buckets, then the buckets in ascending order; `None` when a candle
      falls outside the day and the source raises. */
  method Aggregate(rows: seq<Row>, duration: int, dayStart: int, dayEnd: int) returns (candles: Option<seq<CandleRow>>)
    requires duration > 0 && SortedRows(rows)
    ensures
      candles.Some? <==> forall c :: c in Candles(rows, duration) ==> dayStart <= c.ts && c.ts + duration <= dayEnd
    ensures candles.Some? ==> candles.value == Emit(Candles(rows, duration), duration)
  {
    var buckets, order := FillBuckets(rows, duration);
    CandlesRise(rows, duration);
    RisingKeysAreSorted(order);
    var keys := SortKeys(order);
    candles := EmitBuckets(buckets, keys, duration, dayStart, dayEnd, Candles(rows, duration));
  }

  method EmitBuckets(
    buckets: map<int, Agg>, keys: seq<int>, duration: int, dayStart: int, dayEnd: int, ghost cs: seq<Item>)
    returns (candles: Option<seq<CandleRow>>)
    requires Holds(buckets, cs) && keys == Opens(cs)
    ensures candles.Some? <==> forall c :: c in cs ==> dayStart <= c.ts && c.ts + duration <= dayEnd
    ensures candles.Some? ==> candles.value == Emit(cs, duration)
  {
    var out: seq<CandleRow> := [];
    for i := 0 to |keys|
      invariant |out| == i
      invariant forall k :: 0 <= k < i ==> out[k] == CandleRow(cs[k].ts, cs[k].ts + duration, cs[k].agg)
      invariant forall k :: 0 <= k < i ==> dayStart <= cs[k].ts && cs[k].ts + duration <= dayEnd
    {
      var openMs := keys[i];
      assert openMs == cs[i].ts;
      var closeMs := openMs + duration;
      if openMs < dayStart || closeMs > dayEnd {
        return None;
      }
      out := out + [CandleRow(openMs, closeMs, buckets[openMs])];
    }
    return Some(out);
  }

  method FillBuckets(rows: seq<Row>, duration: int) returns (buckets: map<int, Agg>, order: seq<int>)
    requires duration > 0 && SortedRows(rows)
    ensures Holds(buckets, Candles(rows, duration)) && order == Opens(Candles(rows, duration))
  {
    hide Holds, Push, Opens, Bucket, Merge, Single, Rising, SortedRows;
    NoTradeYet(rows, duration);
    buckets, order := map[], [];
    for i := 0 to |rows|
      invariant Holds(buckets, Candles(rows[..i], duration)) && order == Opens(Candles(rows[..i], duration))
    {
      var row := rows[i];
      var bucket := Bucket(row.ts, duration);
      ghost var cs := Candles(rows[..i], duration);
      NextTrade(rows, i, duration);
      HoldsGrow(buckets, cs, duration, Item(row.ts, Single(row)));
      OpensGrow(cs, duration, Item(row.ts, Single(row)));
      if bucket !in buckets {
        buckets := buckets[bucket := Single(row)];
        order := order + [bucket];
      } else {
        buckets := buckets[bucket := Merge(buckets[bucket], Single(row))];
      }
    }
    assert rows[..|rows|] == rows;
  }

  lemma {:induction false} NoTradeYet(rows: seq<Row>, duration: int)
    requires duration > 0
    ensures Holds(map[], Candles(rows[..0], duration)) && Opens(Candles(rows[..0], duration)) == []
  {
  }

  lemma {:induction false} OpensGrow(cs: seq<Item>, duration: int, x: Item)
    requires duration > 0
    ensures
      var b := Bucket(x.ts, duration);
      Opens(Push(cs, duration, x)) ==
      if cs != [] && cs[|cs| - 1].ts == b then Opens(cs) else Opens(cs) + [b]
  {
  }

  lemma {:induction false} NextTrade(rows: seq<Row>, i: nat, duration: int)
    requires duration > 0 && SortedRows(rows) && i < |rows|
    ensures
      var cs, x := Candles(rows[..i], duration), rows[i];
      && Rising(cs) && (cs != [] ==> cs[|cs| - 1].ts <= Bucket(x.ts, duration))
      && Candles(rows[..i + 1], duration) == Push(cs, duration, Item(x.ts, Single(x)))
  {
    CandlesRise(rows[..i], duration);
    if i > 0 {
      BucketMonotone(rows[i - 1].ts, rows[i].ts, duration);
    }
    assert rows[..i + 1] == rows[..i] + [rows[i]];
    CandlesGrow(rows[..i], rows[i], duration);
  }

  /** The out-of-day error cannot happen: for a day that starts on a day boundary and trades inside it, every candle of
      every timeframe stays inside the day. */
  lemma {:induction false} CandlesStayInDay(rows: seq<Row>, t: Timeframe, day: int)
    requires forall i :: 0 <= i < |rows| ==> day * DAY_MS <= rows[i].ts < (day + 1) * DAY_MS
    ensures forall c :: c in Candles(rows, Duration(t)) ==>
      day * DAY_MS <= c.ts && c.ts + Duration(t) <= (day + 1) * DAY_MS
  {
    var d := Duration(t);
    CandlesExplained(rows, d);
    var cs, parts := Candles(rows, d), Parts(rows, d);
    forall i | 0 <= i < |cs|
      ensures day * DAY_MS <= cs[i].ts && cs[i].ts + d <= (day + 1) * DAY_MS
    {
      var r := parts[i][0];
      assert r in parts[i];
      PartOfConcat(parts, i, r);
      BucketInDay(r.ts, t, day);
    }
  }

  lemma {:induction false} PartOfConcat(parts: seq<seq<Row>>, i: nat, r: Row)
    requires i < |parts| && r in parts[i]
    ensures r in Concat(parts)
  {
    if i < |parts| - 1 {
      PartOfConcat(parts[..|parts| - 1], i, r);
    }
  }

  function PerDay(t: Timeframe): (n: int)
    ensures n > 0 && n * Duration(t) == DAY_MS
  {
    match t
    case M1 => 1440
    case M5 => 288
    case M15 => 96
    case M30 => 48
    case H1 => 24
    case H4 => 6
    case D1 => 1
  }

  lemma {:induction false} BucketInDay(ts: int, t: Timeframe, day: int)
    requires day * DAY_MS <= ts < (day + 1) * DAY_MS
    ensures day * DAY_MS <= Bucket(ts, Duration(t)) && Bucket(ts, Duration(t)) + Duration(t) <= (day + 1) * DAY_MS
  {
    var d, n := Duration(t), PerDay(t);
    BoundsOfBucket(ts, d, day * n, (day + 1) * n);
    assert (day * n) * d == day * (n * d) && ((day + 1) * n) * d == (day + 1) * (n * d);
  }

  lemma {:induction false} BoundsOfBucket(ts: int, d: int, p: int, q: int)
    requires d > 0 && p * d <= ts < q * d
    ensures p * d <= Bucket(ts, d) && Bucket(ts, d) + d <= q * d
  {
    var last := q * d - 1;
    QuotientUnique(p * d, d, p, 0);
    QuotientUnique(last, d, q - 1, d - 1);
    BucketMonotone(p * d, ts, d);
    BucketMonotone(ts, last, d);
  }
}
