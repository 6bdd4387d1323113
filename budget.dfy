/**
 * Rolling spend-budget tracker: how much of the configured daily and weekly
 * spend caps is still available, from the entry costs of the active trades.
 *
 * Trades are grouped into calendar buckets by their (shifted) entry time.
 * Day buckets start at midnight UTC. Week buckets are the weekly bins that
 * end on Sunday: they run from Monday 00:00 UTC to the end of Sunday.
 */
module Budget {
  import opened Trading

  const DAY_MS: int := 86_400_000
  const WEEK_MS: int := 7 * DAY_MS
  /** Time 0 (1970-01-01) was a Thursday: the first Monday midnight is four days later. */
  const FIRST_MONDAY_MS: int := 4 * DAY_MS

  datatype Frequency = Day | Week

  function BucketLength(f: Frequency): int
  {
    match f
    case Day => DAY_MS
    case Week => WEEK_MS
  }

  /** First millisecond of bucket number b. */
  function BucketStart(f: Frequency, b: int): int
  {
    match f
    case Day => b * DAY_MS
    case Week => FIRST_MONDAY_MS + b * WEEK_MS
  }

  /** Day of the week of time t: 0 is Monday, 6 is Sunday. */
  function Weekday(t: int): (d: int)
    ensures 0 <= d < 7
  {
    (t / DAY_MS + 3) % 7
  }

  /** Number of the calendar bucket of frequency f that holds time t. */
  function Bucket(f: Frequency, t: int): int
  {
    match f
    case Day => t / DAY_MS
    case Week => (t - FIRST_MONDAY_MS) / WEEK_MS
  }

  /** A bucket is exactly the half-open interval of its length that starts at BucketStart. */
  lemma BucketIsInterval(f: Frequency, t: int, b: int)
    ensures Bucket(f, t) == b <==> BucketStart(f, b) <= t < BucketStart(f, b) + BucketLength(f)
  {
  }

  /** Every week bucket starts on a Monday at midnight UTC and lasts seven days. */
  lemma WeekStartsOnMonday(b: int)
    ensures Weekday(BucketStart(Week, b)) == 0
    ensures BucketStart(Week, b) % DAY_MS == 0
    ensures BucketLength(Week) == 7 * DAY_MS
  {
    var s := BucketStart(Week, b);
    assert s == (4 + 7 * b) * DAY_MS;
    assert s / DAY_MS == 4 + 7 * b;
    assert (4 + 7 * b + 3) % 7 == ((b + 1) * 7) % 7 == 0;
  }

  /** Shift applied to every time before bucketing; an absent shift is no shift. */
  function ShiftMs(shift: Option<int>): int
  {
    match shift
    case None => 0
    case Some(ms) => ms
  }

  /** Sum of entry_cost over the trades whose shifted entry time falls in bucket b. */
  function SpentInBucket(trades: seq<Trade>, f: Frequency, shift: int, b: int): real
    decreases |trades|
  {
    if trades == [] then 0.0
    else
      (if Bucket(f, trades[0].entryTime + shift) == b then trades[0].entryCost else 0.0)
      + SpentInBucket(trades[1..], f, shift, b)
  }

  /** A bucket that holds no trade has spent exactly nothing. */
  lemma {:induction false} SpentInEmptyBucket(trades: seq<Trade>, f: Frequency, shift: int, b: int)
    requires forall t | t in trades :: Bucket(f, t.entryTime + shift) != b
    ensures SpentInBucket(trades, f, shift, b) == 0.0
  {
    if trades != [] {
      assert trades[0] in trades;
      SpentInEmptyBucket(trades[1..], f, shift, b);
    }
  }

  /** With non-negative entry costs, a bucket's spend is non-negative. */
  lemma {:induction false} SpentInBucketNonNegative(trades: seq<Trade>, f: Frequency, shift: int, b: int)
    requires forall t | t in trades :: t.entryCost >= 0.0
    ensures SpentInBucket(trades, f, shift, b) >= 0.0
  {
    if trades != [] {
      assert trades[0] in trades;
      SpentInBucketNonNegative(trades[1..], f, shift, b);
    }
  }

  /** The latest bucket any trade falls in: the last row of the grouped spend table. */
  function LatestBucket(trades: seq<Trade>, f: Frequency, shift: int): (b: int)
    requires trades != []
    ensures forall t | t in trades :: Bucket(f, t.entryTime + shift) <= b
    ensures exists t | t in trades :: Bucket(f, t.entryTime + shift) == b
    decreases |trades|
  {
    var first := Bucket(f, trades[0].entryTime + shift);
    if |trades| == 1 then first
    else
      var rest := LatestBucket(trades[1..], f, shift);
      assert forall t | t in trades :: t == trades[0] || t in trades[1..];
      if first >= rest then first else rest
  }

  /**
   * The time a bucket is labelled with in a grouped table: its first day
   * for day buckets, its closing Sunday (at midnight) for week buckets.
   */
  function BucketLabel(f: Frequency, b: int): (t: int)
    ensures BucketStart(f, b) <= t < BucketStart(f, b) + BucketLength(f)
  {
    match f
    case Day => BucketStart(f, b)
    case Week => BucketStart(f, b) + 6 * DAY_MS
  }

  /**
   * entry_cost in the last row of the merged table; None is a missing value.
   * The spend table is outer-merged with a marker row for now's shifted
   * bucket, which has no entry_cost, and the rows are sorted by time.
   * With trades, the spend table has one row per bucket up to the latest
   * trade's. Without trades, it is a single row at the exact, unshifted
   * now, with entry_cost 0.0.
   */
  function LastRowCost(trades: seq<Trade>, f: Frequency, shift: int, now: int): Option<real>
  {
    var nowBucket := Bucket(f, now + shift);
    if trades == [] then
      if now >= BucketLabel(f, nowBucket) then Some(0.0) else None
    else if LatestBucket(trades, f, shift) >= nowBucket then
      Some(SpentInBucket(trades, f, shift, LatestBucket(trades, f, shift)))
    else
      None
  }

  /** Spend read for the current window: the last row's entry_cost, a missing value counting as 0.0. */
  function SpentInCurrentFreq(trades: seq<Trade>, f: Frequency, shift: Option<int>, now: int): real
  {
    match LastRowCost(trades, f, ShiftMs(shift), now)
    case None => 0.0
    case Some(c) => c
  }

  /**
   * When no trade is in a later bucket than now, the spend read is the sum
   * over now's bucket (in particular 0.0 without trades).
   */
  lemma SpentInCurrentFreqIsNowBucketSum(trades: seq<Trade>, f: Frequency, shift: Option<int>, now: int)
    requires forall t | t in trades :: Bucket(f, t.entryTime + ShiftMs(shift)) <= Bucket(f, now + ShiftMs(shift))
    ensures SpentInCurrentFreq(trades, f, shift, now)
            == SpentInBucket(trades, f, ShiftMs(shift), Bucket(f, now + ShiftMs(shift)))
  {
    var s := ShiftMs(shift);
    var nowBucket := Bucket(f, now + s);
    if trades == [] {
      NoTradesSpendZero(f, shift, now);
    } else {
      if LatestBucket(trades, f, s) < nowBucket {
        // the last row is the marker row, whose missing value reads 0.0; nothing was spent in now's bucket
        SpentInEmptyBucket(trades, f, s, nowBucket);
      }
    }
  }

  /** When some trade is in a later bucket than now, the spend read is the sum over the latest trade's bucket. */
  lemma SpentInCurrentFreqIsLatestBucketSum(trades: seq<Trade>, f: Frequency, shift: Option<int>, now: int)
    requires exists t | t in trades :: Bucket(f, t.entryTime + ShiftMs(shift)) > Bucket(f, now + ShiftMs(shift))
    ensures SpentInCurrentFreq(trades, f, shift, now)
            == SpentInBucket(trades, f, ShiftMs(shift), LatestBucket(trades, f, ShiftMs(shift)))
  {
  }

  /** Without trades, the spend read is 0.0 for either frequency, any shift and any time. */
  lemma NoTradesSpendZero(f: Frequency, shift: Option<int>, now: int)
    ensures SpentInCurrentFreq([], f, shift, now) == 0.0
  {
  }

  /** When every trade is in an earlier bucket than now, the last row is the marker row and reads 0.0. */
  lemma EmptyCurrentWindowSpendsZero(trades: seq<Trade>, f: Frequency, shift: Option<int>, now: int)
    requires trades != []
    requires forall t | t in trades :: Bucket(f, t.entryTime + ShiftMs(shift)) < Bucket(f, now + ShiftMs(shift))
    ensures LastRowCost(trades, f, ShiftMs(shift), now) == None
    ensures SpentInCurrentFreq(trades, f, shift, now) == 0.0
  {
  }

  /** With non-negative entry costs, the spend read is non-negative. */
  lemma SpentInCurrentFreqNonNegative(trades: seq<Trade>, f: Frequency, shift: Option<int>, now: int)
    requires forall t | t in trades :: t.entryCost >= 0.0
    ensures SpentInCurrentFreq(trades, f, shift, now) >= 0.0
  {
    var s := ShiftMs(shift);
    if trades != [] {
      SpentInBucketNonNegative(trades, f, s, LatestBucket(trades, f, s));
    }
  }

  /**
   * budget_left_in_freq: the host's free budget, narrowed by the daily cap
   * minus today's spend and by the weekly cap minus this week's spend when
   * either cap is configured, and clamped at 0.0.
   */
  function BudgetLeftInFreq(free: real, dailyBudget: Option<real>, weeklyBudget: Option<real>,
                            shift: Option<int>, trades: seq<Trade>, now: int): (r: real)
    ensures r >= 0.0
    ensures r == 0.0 || r <= free
    ensures dailyBudget.Some? ==>
              r == 0.0 || r <= dailyBudget.value - SpentInCurrentFreq(trades, Day, shift, now)
    ensures weeklyBudget.Some? ==>
              r == 0.0 || r <= weeklyBudget.value - SpentInCurrentFreq(trades, Week, shift, now)
    // the result is one of the candidates, or 0.0 only when some candidate is not positive
    ensures r == 0.0 || r == free
            || (dailyBudget.Some? && r == dailyBudget.value - SpentInCurrentFreq(trades, Day, shift, now))
            || (weeklyBudget.Some? && r == weeklyBudget.value - SpentInCurrentFreq(trades, Week, shift, now))
    ensures r == 0.0 ==>
              free <= 0.0
              || (dailyBudget.Some? && dailyBudget.value - SpentInCurrentFreq(trades, Day, shift, now) <= 0.0)
              || (weeklyBudget.Some? && weeklyBudget.value - SpentInCurrentFreq(trades, Week, shift, now) <= 0.0)
    ensures dailyBudget.None? && weeklyBudget.None? && free >= 0.0 ==> r == free
  {
    var afterDaily :=
      if dailyBudget.Some?
      then Min(free, dailyBudget.value - SpentInCurrentFreq(trades, Day, shift, now))
      else free;
    var afterWeekly :=
      if weeklyBudget.Some?
      then Min(afterDaily, weeklyBudget.value - SpentInCurrentFreq(trades, Week, shift, now))
      else afterDaily;
    if afterWeekly < 0.0 then 0.0 else afterWeekly
  }

  /** With non-negative entry costs, the budget left never exceeds a configured non-negative cap. */
  lemma BudgetLeftWithinCaps(free: real, dailyBudget: Option<real>, weeklyBudget: Option<real>,
                             shift: Option<int>, trades: seq<Trade>, now: int)
    requires forall t | t in trades :: t.entryCost >= 0.0
    ensures var r := BudgetLeftInFreq(free, dailyBudget, weeklyBudget, shift, trades, now);
            && (dailyBudget.Some? && dailyBudget.value >= 0.0 ==> r <= dailyBudget.value)
            && (weeklyBudget.Some? && weeklyBudget.value >= 0.0 ==> r <= weeklyBudget.value)
  {
    SpentInCurrentFreqNonNegative(trades, Day, shift, now);
    SpentInCurrentFreqNonNegative(trades, Week, shift, now);
  }
}
