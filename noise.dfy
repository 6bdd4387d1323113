/**
 * The Noise strategy: configuration loading (init) and one polling cycle
 * (next). A cycle stops early when the exchange's minimum cost, the
 * estimated close or the balance is missing; otherwise it may place one
 * market buy, sized by the spend budget, and then always runs the
 * trailing-stop engine.
 *
 * The strategy's parameters are attributes that init assigns one by one
 * while it reads the configuration; an attribute init never reached stays
 * unset, and next raises when it reads one.
 *
 * Indicator values are computed by an external library from the candles
 * read for the cycle; they are given here as a function of the number of
 * candles requested. Exchange calls are function-valued parameters.
 */
module NoiseStrategy {
  import opened Trading
  import Budget
  import opened TrailingStop

  // Configuration keys, spelled as the configuration files spell them.
  const SPEND_ON_ORDER := "spend_on_order"
  const BB_BAND_LENGHT := "bb_band_lenght"
  const BB_BAND_MULT := "bb_band_mult"
  const BUY_MACD_FAST := "buy_macd_fast"
  const BUY_MACD_SLOW := "buy_macd_slow"
  const BUY_MACD_SIGNAL := "buy_macd_signal"
  const SELL_MACD_FAST := "sell_macd_fast"
  const SELL_MACD_SLOW := "sell_macd_slow"
  const SELL_MACD_SIGNAL := "sell_macd_signal"
  const SELL_BAND_LENGHT := "sell_band_lenght"
  const SELL_BAND_MULT := "sell_band_mult"
  const SELL_BAND_LOW_PCT := "sell_band_low_pct"
  const MINIMAL_BENEFIT := "minimal_benefit_to_start_trailing"
  const MIN_PRICE_TO_START_TRAILING := "min_price_to_start_trailing"
  const DAILY_BUDGET := "daily_budget"
  const WEEKLY_BUDGET := "weekly_budget"

  /** The keys init requires, in the order it reads them. */
  const REQUIRED_KEYS: seq<string> :=
    [SPEND_ON_ORDER, BB_BAND_LENGHT, BB_BAND_MULT, BUY_MACD_FAST, BUY_MACD_SLOW, BUY_MACD_SIGNAL,
     SELL_MACD_FAST, SELL_MACD_SLOW, SELL_MACD_SIGNAL, SELL_BAND_LENGHT, SELL_BAND_MULT, SELL_BAND_LOW_PCT,
     MINIMAL_BENEFIT]

  /**
   * A bot's configuration: its numeric entries, and spent_times_shift, the
   * one entry that is a duration, already given in milliseconds.
   */
  datatype BotConfig = BotConfig(values: map<string, real>, spentTimesShift: Option<int>)

  function Get(values: map<string, real>, key: string): Option<real>
  {
    if key in values then Some(values[key]) else None
  }

  /** What makes init log a configuration error. */
  datatype InitError = MissingKey(key: string) | SellBandLowPctNotPositive

  /** The values of the strategy's parameters once init has read them all. */
  datatype NoiseParams = NoiseParams(
    spendOnOrder: real,
    bbBandLength: real,
    bbBandMult: real,
    buyMacdFast: real,
    buyMacdSlow: real,
    buyMacdSignal: real,
    sellMacdFast: real,
    sellMacdSlow: real,
    sellMacdSignal: real,
    sellBandLength: real,
    sellBandMult: real,
    sellBandLowPct: real,
    minimalBenefitToStartTrailing: real,
    minPriceToStartTrailing: real)

  /** The strategy's parameter attributes, in init's reading order; None is an attribute never assigned. */
  datatype NoiseAttrs = NoiseAttrs(
    spendOnOrder: Option<real>,
    bbBandLength: Option<real>,
    bbBandMult: Option<real>,
    buyMacdFast: Option<real>,
    buyMacdSlow: Option<real>,
    buyMacdSignal: Option<real>,
    sellMacdFast: Option<real>,
    sellMacdSlow: Option<real>,
    sellMacdSignal: Option<real>,
    sellBandLength: Option<real>,
    sellBandMult: Option<real>,
    sellBandLowPct: Option<real>,
    minimalBenefitToStartTrailing: Option<real>,
    minPriceToStartTrailing: Option<real>)

  /** The attributes of a strategy object before init. */
  const NO_ATTRS: NoiseAttrs :=
    NoiseAttrs(None, None, None, None, None, None, None, None, None, None, None, None, None, None)

  /** The attributes once every parameter is set. */
  function Present(p: NoiseParams): NoiseAttrs
  {
    NoiseAttrs(
      Some(p.spendOnOrder), Some(p.bbBandLength), Some(p.bbBandMult),
      Some(p.buyMacdFast), Some(p.buyMacdSlow), Some(p.buyMacdSignal),
      Some(p.sellMacdFast), Some(p.sellMacdSlow), Some(p.sellMacdSignal),
      Some(p.sellBandLength), Some(p.sellBandMult), Some(p.sellBandLowPct),
      Some(p.minimalBenefitToStartTrailing), Some(p.minPriceToStartTrailing))
  }

  /** The first missing key among those read for the buy and sell signals. */
  function SignalParamsError(values: map<string, real>): Option<InitError>
  {
    if SPEND_ON_ORDER !in values then Some(MissingKey(SPEND_ON_ORDER))
    else if BB_BAND_LENGHT !in values then Some(MissingKey(BB_BAND_LENGHT))
    else if BB_BAND_MULT !in values then Some(MissingKey(BB_BAND_MULT))
    else if BUY_MACD_FAST !in values then Some(MissingKey(BUY_MACD_FAST))
    else if BUY_MACD_SLOW !in values then Some(MissingKey(BUY_MACD_SLOW))
    else if BUY_MACD_SIGNAL !in values then Some(MissingKey(BUY_MACD_SIGNAL))
    else if SELL_MACD_FAST !in values then Some(MissingKey(SELL_MACD_FAST))
    else if SELL_MACD_SLOW !in values then Some(MissingKey(SELL_MACD_SLOW))
    else if SELL_MACD_SIGNAL !in values then Some(MissingKey(SELL_MACD_SIGNAL))
    else None
  }

  /** The error among the keys read for the trailing stop: a missing key or the band check. */
  function TrailingParamsError(values: map<string, real>): Option<InitError>
  {
    if SELL_BAND_LENGHT !in values then Some(MissingKey(SELL_BAND_LENGHT))
    else if SELL_BAND_MULT !in values then Some(MissingKey(SELL_BAND_MULT))
    else if SELL_BAND_LOW_PCT !in values then Some(MissingKey(SELL_BAND_LOW_PCT))
    else if values[SELL_BAND_LOW_PCT] <= 0.0 then Some(SellBandLowPctNotPositive)
    else if MINIMAL_BENEFIT !in values then Some(MissingKey(MINIMAL_BENEFIT))
    else None
  }

  /** The error init stops at: the first missing key in reading order, or the band check. */
  function InitErrorOf(values: map<string, real>): Option<InitError>
  {
    if SignalParamsError(values).Some? then SignalParamsError(values) else TrailingParamsError(values)
  }

  /** init succeeds exactly when every required key is present and sell_band_low_pct is positive. */
  lemma InitSucceedsIff(values: map<string, real>)
    ensures InitErrorOf(values) == None
            <==> (forall k | k in REQUIRED_KEYS :: k in values)
                 && SELL_BAND_LOW_PCT in values && values[SELL_BAND_LOW_PCT] > 0.0
  {
    if InitErrorOf(values) != None && forall k | k in REQUIRED_KEYS :: k in values {
      assert SPEND_ON_ORDER in REQUIRED_KEYS && BB_BAND_LENGHT in REQUIRED_KEYS && BB_BAND_MULT in REQUIRED_KEYS;
      assert BUY_MACD_FAST in REQUIRED_KEYS && BUY_MACD_SLOW in REQUIRED_KEYS && BUY_MACD_SIGNAL in REQUIRED_KEYS;
      assert SELL_MACD_FAST in REQUIRED_KEYS && SELL_MACD_SLOW in REQUIRED_KEYS && SELL_MACD_SIGNAL in REQUIRED_KEYS;
      assert SELL_BAND_LENGHT in REQUIRED_KEYS && SELL_BAND_MULT in REQUIRED_KEYS;
      assert SELL_BAND_LOW_PCT in REQUIRED_KEYS && MINIMAL_BENEFIT in REQUIRED_KEYS;
    }
  }

  /** A non-positive sell_band_low_pct, once the keys read before it are present, is rejected. */
  lemma NonPositiveSellBandLowPctRejected(values: map<string, real>)
    requires forall k | k in REQUIRED_KEYS[..12] :: k in values
    requires SELL_BAND_LOW_PCT in values && values[SELL_BAND_LOW_PCT] <= 0.0
    ensures InitErrorOf(values) == Some(SellBandLowPctNotPositive)
  {
    assert REQUIRED_KEYS[..12]
           == [SPEND_ON_ORDER, BB_BAND_LENGHT, BB_BAND_MULT, BUY_MACD_FAST, BUY_MACD_SLOW, BUY_MACD_SIGNAL,
               SELL_MACD_FAST, SELL_MACD_SLOW, SELL_MACD_SIGNAL, SELL_BAND_LENGHT, SELL_BAND_MULT, SELL_BAND_LOW_PCT];
  }

  /**
   * How many attributes init assigns, in reading order, before it stops:
   * it stops at the first missing key, and after assigning
   * sell_band_low_pct when that value is not positive.
   */
  function AssignedCount(values: map<string, real>): (n: nat)
    ensures n <= 14
    // every key read before the stop is present, and the reading stops at a missing key ...
    ensures forall i | 0 <= i < n && i < |REQUIRED_KEYS| :: REQUIRED_KEYS[i] in values
    ensures n < 12 ==> REQUIRED_KEYS[n] !in values
    // ... or right after sell_band_low_pct, when it is not positive or the next key is missing
    ensures n == 12 ==> SELL_BAND_LOW_PCT in values && (values[SELL_BAND_LOW_PCT] <= 0.0 || MINIMAL_BENEFIT !in values)
    ensures n == 14 ==> SELL_BAND_LOW_PCT in values && values[SELL_BAND_LOW_PCT] > 0.0 && MINIMAL_BENEFIT in values
  {
    if SPEND_ON_ORDER !in values then 0
    else if BB_BAND_LENGHT !in values then 1
    else if BB_BAND_MULT !in values then 2
    else if BUY_MACD_FAST !in values then 3
    else if BUY_MACD_SLOW !in values then 4
    else if BUY_MACD_SIGNAL !in values then 5
    else if SELL_MACD_FAST !in values then 6
    else if SELL_MACD_SLOW !in values then 7
    else if SELL_MACD_SIGNAL !in values then 8
    else if SELL_BAND_LENGHT !in values then 9
    else if SELL_BAND_MULT !in values then 10
    else if SELL_BAND_LOW_PCT !in values then 11
    else if values[SELL_BAND_LOW_PCT] <= 0.0 || MINIMAL_BENEFIT !in values then 12
    else 14
  }

  /**
   * The reported error marks where the reading stopped: no error when all
   * fourteen attributes are assigned; a missing key is the required key
   * right after the assigned ones; a rejected band stops the reading after
   * sell_band_low_pct.
   */
  lemma InitErrorMarksAssignedPrefix(values: map<string, real>)
    ensures var n := AssignedCount(values);
            && (InitErrorOf(values) == None <==> n == 14)
            && (InitErrorOf(values) == Some(SellBandLowPctNotPositive) ==> n == 12)
            && (forall k :: InitErrorOf(values) == Some(MissingKey(k))
                  ==> n < |REQUIRED_KEYS| && REQUIRED_KEYS[n] == k && k !in values)
  {
  }

  /** An attribute after init: the configured value when init got that far, unchanged otherwise. */
  function Assigned(values: map<string, real>, index: nat, key: string, previous: Option<real>): Option<real>
  {
    if AssignedCount(values) > index then Get(values, key) else previous
  }

  /** min_price_to_start_trailing after init: assigned last, defaulting to 0.0. */
  function AssignedMinPrice(values: map<string, real>, previous: Option<real>): Option<real>
  {
    if AssignedCount(values) > 13
    then Some(if MIN_PRICE_TO_START_TRAILING in values then values[MIN_PRICE_TO_START_TRAILING] else 0.0)
    else previous
  }

  /** The attributes after init reads a configuration, starting from attributes a. */
  function AfterInit(a: NoiseAttrs, values: map<string, real>): NoiseAttrs
  {
    NoiseAttrs(
      Assigned(values, 0, SPEND_ON_ORDER, a.spendOnOrder),
      Assigned(values, 1, BB_BAND_LENGHT, a.bbBandLength),
      Assigned(values, 2, BB_BAND_MULT, a.bbBandMult),
      Assigned(values, 3, BUY_MACD_FAST, a.buyMacdFast),
      Assigned(values, 4, BUY_MACD_SLOW, a.buyMacdSlow),
      Assigned(values, 5, BUY_MACD_SIGNAL, a.buyMacdSignal),
      Assigned(values, 6, SELL_MACD_FAST, a.sellMacdFast),
      Assigned(values, 7, SELL_MACD_SLOW, a.sellMacdSlow),
      Assigned(values, 8, SELL_MACD_SIGNAL, a.sellMacdSignal),
      Assigned(values, 9, SELL_BAND_LENGHT, a.sellBandLength),
      Assigned(values, 10, SELL_BAND_MULT, a.sellBandMult),
      Assigned(values, 11, SELL_BAND_LOW_PCT, a.sellBandLowPct),
      Assigned(values, 12, MINIMAL_BENEFIT, a.minimalBenefitToStartTrailing),
      AssignedMinPrice(values, a.minPriceToStartTrailing))
  }

  /**
   * The parameters of a configuration init accepts; min_price_to_start_trailing
   * is 0.0 when the key is absent.
   */
  function ParamsFrom(values: map<string, real>): (p: NoiseParams)
    requires InitErrorOf(values) == None
    ensures p.sellBandLowPct > 0.0
    ensures p.minPriceToStartTrailing == (if MIN_PRICE_TO_START_TRAILING in values
                                          then values[MIN_PRICE_TO_START_TRAILING] else 0.0)
    ensures p.spendOnOrder == values[SPEND_ON_ORDER]
            && p.minimalBenefitToStartTrailing == values[MINIMAL_BENEFIT]
  {
    NoiseParams(
      values[SPEND_ON_ORDER], values[BB_BAND_LENGHT], values[BB_BAND_MULT],
      values[BUY_MACD_FAST], values[BUY_MACD_SLOW], values[BUY_MACD_SIGNAL],
      values[SELL_MACD_FAST], values[SELL_MACD_SLOW], values[SELL_MACD_SIGNAL],
      values[SELL_BAND_LENGHT], values[SELL_BAND_MULT], values[SELL_BAND_LOW_PCT],
      values[MINIMAL_BENEFIT],
      if MIN_PRICE_TO_START_TRAILING in values then values[MIN_PRICE_TO_START_TRAILING] else 0.0)
  }

  /** An accepted configuration sets every attribute, to the configured parameters, whatever was set before. */
  lemma AcceptedInitSetsAllAttributes(a: NoiseAttrs, values: map<string, real>)
    requires InitErrorOf(values) == None
    ensures AfterInit(a, values) == Present(ParamsFrom(values))
  {
    InitErrorMarksAssignedPrefix(values);
  }

  /**
   * A configuration rejected for sell_band_low_pct <= 0 still sets every
   * attribute up to sell_band_low_pct (with the rejected value) and leaves
   * the two trailing-start attributes as they were.
   */
  lemma RejectedBandSetsEarlierAttributes(a: NoiseAttrs, values: map<string, real>)
    requires InitErrorOf(values) == Some(SellBandLowPctNotPositive)
    ensures var b := AfterInit(a, values);
            && b.spendOnOrder == Some(values[SPEND_ON_ORDER])
            && b.bbBandLength == Some(values[BB_BAND_LENGHT]) && b.bbBandMult == Some(values[BB_BAND_MULT])
            && b.buyMacdFast == Some(values[BUY_MACD_FAST]) && b.buyMacdSlow == Some(values[BUY_MACD_SLOW])
            && b.buyMacdSignal == Some(values[BUY_MACD_SIGNAL])
            && b.sellMacdFast == Some(values[SELL_MACD_FAST]) && b.sellMacdSlow == Some(values[SELL_MACD_SLOW])
            && b.sellMacdSignal == Some(values[SELL_MACD_SIGNAL])
            && b.sellBandLength == Some(values[SELL_BAND_LENGHT]) && b.sellBandMult == Some(values[SELL_BAND_MULT])
            && b.sellBandLowPct == Some(values[SELL_BAND_LOW_PCT]) && values[SELL_BAND_LOW_PCT] <= 0.0
            && b.minimalBenefitToStartTrailing == a.minimalBenefitToStartTrailing
            && b.minPriceToStartTrailing == a.minPriceToStartTrailing
  {
    InitErrorMarksAssignedPrefix(values);
  }

  // ---------------------------------------------------------------------
  // Attribute reads
  // ---------------------------------------------------------------------

  /** The strategy attributes init assigns, named as the source names them. */
  datatype Attribute =
    | SpendOnOrder | BbBandLenght | BbBandMult | BuyMacdFast | BuyMacdSlow | BuyMacdSignal
    | SellMacdFast | SellMacdSlow | SellMacdSignal | SellBandLenght | SellBandMult | SellBandLowPct
    | MinimalBenefitToStartTrailing | MinPriceToStartTrailing

  function AttrValue(a: NoiseAttrs, x: Attribute): Option<real>
  {
    match x
    case SpendOnOrder => a.spendOnOrder
    case BbBandLenght => a.bbBandLength
    case BbBandMult => a.bbBandMult
    case BuyMacdFast => a.buyMacdFast
    case BuyMacdSlow => a.buyMacdSlow
    case BuyMacdSignal => a.buyMacdSignal
    case SellMacdFast => a.sellMacdFast
    case SellMacdSlow => a.sellMacdSlow
    case SellMacdSignal => a.sellMacdSignal
    case SellBandLenght => a.sellBandLength
    case SellBandMult => a.sellBandMult
    case SellBandLowPct => a.sellBandLowPct
    case MinimalBenefitToStartTrailing => a.minimalBenefitToStartTrailing
    case MinPriceToStartTrailing => a.minPriceToStartTrailing
  }

  /**
   * The first attribute found unset by the reads of the candle count and
   * the indicator calls, which read, in this order: bb_band_lenght,
   * buy_macd_fast, sell_macd_fast, sell_macd_slow and sell_band_lenght for
   * the candle count, then bb_band_mult for the Bollinger bands, then the
   * rest of the buy and the sell MACD periods.
   */
  function IndicatorReadError(a: NoiseAttrs): (r: Option<Attribute>)
    ensures r.Some? ==> AttrValue(a, r.value).None?
    ensures r.None? ==>
              forall x | x in {BbBandLenght, BbBandMult, BuyMacdFast, BuyMacdSlow, BuyMacdSignal,
                               SellMacdFast, SellMacdSlow, SellMacdSignal, SellBandLenght} :: AttrValue(a, x).Some?
  {
    if a.bbBandLength.None? then Some(BbBandLenght)
    else if a.buyMacdFast.None? then Some(BuyMacdFast)
    else if a.sellMacdFast.None? then Some(SellMacdFast)
    else if a.sellMacdSlow.None? then Some(SellMacdSlow)
    else if a.sellBandLength.None? then Some(SellBandLenght)
    else if a.bbBandMult.None? then Some(BbBandMult)
    else if a.buyMacdSlow.None? then Some(BuyMacdSlow)
    else if a.buyMacdSignal.None? then Some(BuyMacdSignal)
    else if a.sellMacdSignal.None? then Some(SellMacdSignal)
    else None
  }

  /** The candle count reads these attributes. */
  predicate WindowAttributesSet(a: NoiseAttrs)
  {
    a.bbBandLength.Some? && a.buyMacdFast.Some? && a.sellMacdFast.Some? && a.sellMacdSlow.Some?
    && a.sellBandLength.Some?
  }

  // ---------------------------------------------------------------------
  // Candle count
  // ---------------------------------------------------------------------

  /** Python's int() on a float: truncation toward zero. */
  function Trunc(x: real): (n: int)
    ensures x >= 0.0 ==> n as real <= x < n as real + 1.0
    ensures x < 0.0 ==> n as real - 1.0 < x <= n as real
  {
    if x >= 0.0 then x.Floor else -((-x).Floor)
  }

  /** The indicator windows the candle count covers; buy_macd_fast is listed twice and buy_macd_slow not at all. */
  function CandleWindows(a: NoiseAttrs): seq<real>
    requires WindowAttributesSet(a)
  {
    [a.bbBandLength.value, a.buyMacdFast.value, a.buyMacdFast.value, a.sellMacdFast.value,
     a.sellMacdSlow.value, a.sellBandLength.value]
  }

  function MaxOf(ws: seq<real>): (m: real)
    requires ws != []
    ensures forall i | 0 <= i < |ws| :: ws[i] <= m
    ensures exists i | 0 <= i < |ws| :: ws[i] == m
    decreases |ws|
  {
    if |ws| == 1 then ws[0]
    else
      var rest := MaxOf(ws[1..]);
      assert forall i | 1 <= i < |ws| :: ws[i] == ws[1..][i - 1];
      if ws[0] >= rest then ws[0] else rest
  }

  /**
   * data_points: the longest listed window plus 10, truncated. It exceeds
   * every listed window by more than 9, and by at least 10 when the
   * longest window is a whole number.
   */
  function DataPoints(ws: seq<real>): (n: int)
    requires ws != []
    ensures forall i | 0 <= i < |ws| :: n as real > ws[i] + 9.0
    ensures MaxOf(ws).Floor as real == MaxOf(ws) ==> forall i | 0 <= i < |ws| :: n as real >= ws[i] + 10.0
  {
    var m := MaxOf(ws);
    var n := Trunc(m + 10.0);
    assert m.Floor as real == m ==> n as real == m + 10.0 by {
      if m.Floor as real == m {
        assert (m + 10.0).Floor == m.Floor + 10;
        if m + 10.0 < 0.0 {
          assert (-(m + 10.0)).Floor == -(m.Floor + 10);
        }
      }
    }
    n
  }

  // ---------------------------------------------------------------------
  // One cycle
  // ---------------------------------------------------------------------

  /** What the exchange reports at the start of a cycle; absent values are None. */
  datatype Market = Market(
    minAmount: real,
    minCost: Option<real>,
    estimatedClose: Option<real>,
    balance: Option<map<string, real>>,
    quoteSymbol: string,
    now: int)

  /** The last values of the indicators over the candles read. */
  datatype Indicators = Indicators(
    bbLowerBand: real,
    bbCentralBand: real,
    bbUpperBand: real,
    buyMacdH: real,
    sellMacdH: real,
    newStopLoss: real)

  /** Host and library calls a cycle makes. */
  datatype NoiseHost = NoiseHost(
    indicators: int -> Indicators,
    amountToPrecision: real -> real,
    createMarketBuyOrder: real -> bool,
    stopLossExchange: StopLossExchange)

  /** The indicators of a cycle whose indicator reads all found their attributes set. */
  function CycleIndicators(a: NoiseAttrs, host: NoiseHost): Indicators
    requires IndicatorReadError(a).None?
  {
    host.indicators(DataPoints(CandleWindows(a)))
  }

  /** Python truthiness of an optional number: present and non-zero. */
  predicate Truthy(x: Option<real>)
  {
    x.Some? && x.value != 0.0
  }

  datatype EarlyExit = NoMinCost | NoEstimatedClose | NoBalance

  /** The reason a cycle stops before reading candles, checked in this order. */
  function EarlyExitOf(m: Market): (e: Option<EarlyExit>)
    ensures e.None? <==> Truthy(m.minCost) && Truthy(m.estimatedClose) && m.balance.Some?
    ensures e == Some(NoMinCost) <==> !Truthy(m.minCost)
  {
    if !Truthy(m.minCost) then Some(NoMinCost)
    else if !Truthy(m.estimatedClose) then Some(NoEstimatedClose)
    else if m.balance.None? then Some(NoBalance)
    else None
  }

  datatype BuyDecision =
    | NoBuySignal
    | QuoteCurrencyMissing
    | MarketBuy(amountToSpend: real, amountToBuy: real)
    | BelowMinimums(amountToSpend: real, amountToBuy: real)

  /** Price under the central Bollinger band with a positive buy MACD histogram. */
  predicate BuySignal(close: real, ind: Indicators)
  {
    close < ind.bbCentralBand && ind.buyMacdH > 0.0
  }

  /** Price over the upper Bollinger band with a negative sell MACD histogram. */
  predicate SellSignal(close: real, ind: Indicators)
  {
    close > ind.bbUpperBand && ind.sellMacdH < 0.0
  }

  /**
   * The buy part of next: with a buy signal, spend the least of the budget
   * left, spend_on_order and the free quote balance, and buy that much
   * (rounded by the exchange) only if both exchange minimums are met.
   */
  function DecideBuy(close: real, ind: Indicators, budgetLeft: real, spendOnOrder: real,
                     balance: map<string, real>, quote: string, minAmount: real, minCost: real,
                     amountToPrecision: real -> real): (d: BuyDecision)
    requires close != 0.0
    ensures d.NoBuySignal? <==> !BuySignal(close, ind)
    ensures d.QuoteCurrencyMissing? <==> BuySignal(close, ind) && quote !in balance
    ensures d.MarketBuy? || d.BelowMinimums? ==>
              && quote in balance
              && d.amountToSpend <= budgetLeft
              && d.amountToSpend <= spendOnOrder
              && d.amountToSpend <= balance[quote]
              && (d.amountToSpend == budgetLeft || d.amountToSpend == spendOnOrder
                  || d.amountToSpend == balance[quote])
              && d.amountToBuy == amountToPrecision(d.amountToSpend / close)
              && (d.MarketBuy? <==> d.amountToBuy >= minAmount && d.amountToSpend >= minCost)
  {
    if !BuySignal(close, ind) then NoBuySignal
    else if quote !in balance then QuoteCurrencyMissing
    else
      var amountToSpend := Min(Min(budgetLeft, spendOnOrder), balance[quote]);
      var amountToBuy := amountToPrecision(amountToSpend / close);
      if amountToBuy >= minAmount && amountToSpend >= minCost
      then MarketBuy(amountToSpend, amountToBuy)
      else BelowMinimums(amountToSpend, amountToBuy)
  }

  datatype CycleOutcome =
    | Stopped(reason: EarlyExit)
    /** The quote currency is missing from the balance: the lookup raises and the cycle ends there. */
    | QuoteLookupFailed
    /** Reading an attribute init never set raises before any order is placed or cancelled. */
    | AttributeUnsetBeforeOrders(attribute: Attribute)
    /** Reading an attribute init never set raises after the buy part; the orders already sent stand. */
    | AttributeUnsetAfterBuy(attribute: Attribute, buy: BuyDecision, buyOrderPlaced: bool,
                             cancelledIds: seq<OrderId>)
    | Completed(buy: BuyDecision, buyOrderPlaced: bool, errorOnBuy: bool, trailing: CycleReport)

  datatype NextResult = NextResult(outcome: CycleOutcome, trades: seq<Trade>)

  /** The budget left for the cycle, from the configured caps and the bot's trades. */
  function BudgetLeft(config: BotConfig, free: real, trades: seq<Trade>, now: int): real
  {
    Budget.BudgetLeftInFreq(free, Get(config.values, DAILY_BUDGET), Get(config.values, WEEKLY_BUDGET),
                            config.spentTimesShift, trades, now)
  }

  /** The attribute the tagging loop raises on: minimal_benefit_to_start_trailing unless only the floor is unset. */
  function TaggingAttribute(a: NoiseAttrs): Attribute
  {
    if a.minimalBenefitToStartTrailing.None? then MinimalBenefitToStartTrailing else MinPriceToStartTrailing
  }

  /**
   * next as a function of the strategy's attributes and the status it
   * starts from. Unset trailing-start attributes are given the stand-in 0.0
   * when the tagging loop does not read them (UnsetAttributeTagsNothing).
   */
  function NextCycle(a: NoiseAttrs, config: BotConfig, trades: seq<Trade>, orders: seq<Order>, free: real,
                     market: Market, host: NoiseHost, bandLowPct: real): NextResult
  {
    match EarlyExitOf(market)
    case Some(reason) => NextResult(Stopped(reason), trades)
    case None =>
      match IndicatorReadError(a)
      case Some(x) => NextResult(AttributeUnsetBeforeOrders(x), trades)
      case None => BuyStage(a, config, trades, orders, free, market, host, bandLowPct)
  }

  /**
   * The part of next between the indicator reads and the trailing-stop
   * engine: the sell loop, which only reads minimal_benefit_to_start_trailing
   * per trade, and the buy.
   */
  function BuyStage(a: NoiseAttrs, config: BotConfig, trades: seq<Trade>, orders: seq<Order>, free: real,
                    market: Market, host: NoiseHost, bandLowPct: real): (r: NextResult)
    requires EarlyExitOf(market).None? && IndicatorReadError(a).None?
    ensures !r.outcome.Stopped?
  {
    var close := market.estimatedClose.value;
    var ind := CycleIndicators(a, host);
    if SellSignal(close, ind) && trades != [] && a.minimalBenefitToStartTrailing.None? then
      NextResult(AttributeUnsetBeforeOrders(MinimalBenefitToStartTrailing), trades)
    else
      var d := DecideBuy(close, ind, BudgetLeft(config, free, trades, market.now),
                         ValueOr(a.spendOnOrder, 0.0), market.balance.value, market.quoteSymbol,
                         market.minAmount, market.minCost.value, host.amountToPrecision);
      if d.QuoteCurrencyMissing? then NextResult(QuoteLookupFailed, trades)
      else if BuySignal(close, ind) && a.spendOnOrder.None? then
        NextResult(AttributeUnsetBeforeOrders(SpendOnOrder), trades)
      else
        var placed := d.MarketBuy? && host.createMarketBuyOrder(d.amountToBuy);
        TrailingStage(a, trades, orders, ind.newStopLoss, close, d, placed, BuySignal(close, ind) && !placed,
                      market.minAmount, host.stopLossExchange, bandLowPct)
  }

  /**
   * The part of next after the buy: the call into the trailing-stop engine,
   * which reads sell_band_mult as an argument and the trailing-start
   * attributes in its tagging loop.
   */
  function TrailingStage(a: NoiseAttrs, trades: seq<Trade>, orders: seq<Order>, newStopLoss: real, close: real,
                         d: BuyDecision, placed: bool, errorOnBuy: bool, minAmount: real,
                         exchange: StopLossExchange, bandLowPct: real): (r: NextResult)
    ensures r.outcome.Completed? || r.outcome.AttributeUnsetAfterBuy?
    ensures r.outcome.buy == d && r.outcome.buyOrderPlaced == placed
    ensures r.outcome.Completed? ==> r.outcome.errorOnBuy == errorOnBuy
  {
    if a.sellBandMult.None? then NextResult(AttributeUnsetAfterBuy(SellBandMult, d, placed, []), trades)
    else
      var levels := GuardedLevels(newStopLoss, bandLowPct, close);
      if TaggingRaises(trades, levels.stopPrice, a.minimalBenefitToStartTrailing, a.minPriceToStartTrailing)
      then
        var cancelled := Cancelled(orders, levels.newStopLoss, exchange.cancelOrder);
        NextResult(AttributeUnsetAfterBuy(TaggingAttribute(a), d, placed, Ids(cancelled)), trades)
      else
        var cfg := TrailingConfig(bandLowPct, ValueOr(a.minimalBenefitToStartTrailing, 0.0),
                                  ValueOr(a.minPriceToStartTrailing, 0.0));
        var c := TrailingCycle(trades, orders, newStopLoss, close, cfg, minAmount, exchange);
        NextResult(Completed(d, placed, errorOnBuy, c.report), c.trades)
  }

  /** A cycle that stops early changes no trade and places nothing. */
  lemma EarlyExitChangesNothing(a: NoiseAttrs, config: BotConfig, trades: seq<Trade>, orders: seq<Order>,
                                free: real, market: Market, host: NoiseHost, bandLowPct: real)
    ensures var r := NextCycle(a, config, trades, orders, free, market, host, bandLowPct);
            && (r.outcome.Stopped? <==> !(Truthy(market.minCost) && Truthy(market.estimatedClose)
                                          && market.balance.Some?))
            && (r.outcome.Stopped? ==> r.trades == trades)
  {
  }

  /**
   * A market buy is placed only on a buy signal, for no more than the budget
   * left, spend_on_order and the free quote balance, and only when both
   * exchange minimums are met; error_on_buy is set exactly when a signalled
   * buy was not placed.
   */
  lemma BuyOnlyWithinLimits(a: NoiseAttrs, config: BotConfig, trades: seq<Trade>, orders: seq<Order>,
                            free: real, market: Market, host: NoiseHost, bandLowPct: real)
    ensures var r := NextCycle(a, config, trades, orders, free, market, host, bandLowPct);
            r.outcome.Completed? || r.outcome.AttributeUnsetAfterBuy? ==>
              && IndicatorReadError(a).None?
              && var ind := CycleIndicators(a, host);
              var d := r.outcome.buy;
              && (r.outcome.Completed? ==>
                    (r.outcome.errorOnBuy <==> BuySignal(market.estimatedClose.value, ind) && !r.outcome.buyOrderPlaced))
              && (r.outcome.buyOrderPlaced ==>
                    && BuySignal(market.estimatedClose.value, ind)
                    && d.MarketBuy?
                    && d.amountToBuy >= market.minAmount
                    && d.amountToSpend >= market.minCost.value
                    && d.amountToSpend <= BudgetLeft(config, free, trades, market.now)
                    && a.spendOnOrder.Some? && d.amountToSpend <= a.spendOnOrder.value
                    && d.amountToSpend <= market.balance.value[market.quoteSymbol])
  {
  }

  /**
   * With every attribute set, a cycle that passes the early checks and the
   * quote lookup completes, and its trades and trailing report are those of
   * the trailing-stop cycle, whatever became of the buy; the sell signal
   * changes nothing.
   */
  lemma TrailingRunsEveryCycle(p: NoiseParams, config: BotConfig, trades: seq<Trade>, orders: seq<Order>,
                               free: real, market: Market, host: NoiseHost, bandLowPct: real)
    requires EarlyExitOf(market).None?
    requires !(BuySignal(market.estimatedClose.value, host.indicators(DataPoints(CandleWindows(Present(p)))))
               && market.quoteSymbol !in market.balance.value)
    ensures var r := NextCycle(Present(p), config, trades, orders, free, market, host, bandLowPct);
            var c := TrailingCycle(trades, orders, host.indicators(DataPoints(CandleWindows(Present(p)))).newStopLoss,
                                   market.estimatedClose.value,
                                   TrailingConfig(bandLowPct, p.minimalBenefitToStartTrailing,
                                                  p.minPriceToStartTrailing),
                                   market.minAmount, host.stopLossExchange);
            && r.outcome.Completed?
            && r.outcome.trailing == c.report
            && r.trades == c.trades
  {
    var a := Present(p);
    var ind := CycleIndicators(a, host);
    var levels := GuardedLevels(ind.newStopLoss, bandLowPct, market.estimatedClose.value);
    SetAttributesNeverRaise(trades, levels.stopPrice, a.minimalBenefitToStartTrailing, a.minPriceToStartTrailing);
    assert NextCycle(a, config, trades, orders, free, market, host, bandLowPct)
           == BuyStage(a, config, trades, orders, free, market, host, bandLowPct);
  }

  /** After init accepted the configuration, no cycle reads an unset attribute. */
  lemma AcceptedConfigNeverRaises(a: NoiseAttrs, values: map<string, real>, config: BotConfig,
                                  trades: seq<Trade>, orders: seq<Order>, free: real, market: Market,
                                  host: NoiseHost, bandLowPct: real)
    requires InitErrorOf(values) == None
    ensures var r := NextCycle(AfterInit(a, values), config, trades, orders, free, market, host, bandLowPct);
            !r.outcome.AttributeUnsetBeforeOrders? && !r.outcome.AttributeUnsetAfterBuy?
  {
    AcceptedInitSetsAllAttributes(a, values);
    var b := AfterInit(a, values);
    if EarlyExitOf(market).None? {
      var ind := CycleIndicators(b, host);
      var levels := GuardedLevels(ind.newStopLoss, bandLowPct, market.estimatedClose.value);
      SetAttributesNeverRaise(trades, levels.stopPrice, b.minimalBenefitToStartTrailing, b.minPriceToStartTrailing);
    }
  }

  /**
   * When init on a fresh strategy object stopped before sell_band_mult,
   * an indicator read finds its attribute unset: every cycle that passes
   * the early checks raises before placing or cancelling any order.
   */
  lemma EarlyInitFailureNeverOrders(values: map<string, real>, config: BotConfig, trades: seq<Trade>,
                                    orders: seq<Order>, free: real, market: Market, host: NoiseHost,
                                    bandLowPct: real)
    requires AssignedCount(values) < 10
    ensures var r := NextCycle(AfterInit(NO_ATTRS, values), config, trades, orders, free, market, host, bandLowPct);
            r.outcome.Stopped? || r.outcome.AttributeUnsetBeforeOrders?
  {
    assert IndicatorReadError(AfterInit(NO_ATTRS, values)).Some?;
  }

  /**
   * When init on a fresh strategy object stopped at a missing
   * sell_band_mult, a cycle that gets past the buy raises when it calls the
   * trailing-stop engine, after any market buy and before any cancel.
   */
  lemma MissingSellBandMultRaisesAfterBuy(values: map<string, real>, config: BotConfig, trades: seq<Trade>,
                                          orders: seq<Order>, free: real, market: Market, host: NoiseHost,
                                          bandLowPct: real)
    requires InitErrorOf(values) == Some(MissingKey(SELL_BAND_MULT))
    ensures var r := NextCycle(AfterInit(NO_ATTRS, values), config, trades, orders, free, market, host, bandLowPct);
            && !r.outcome.Completed?
            && (r.outcome.AttributeUnsetAfterBuy? ==>
                  r.outcome.attribute == SellBandMult && r.outcome.cancelledIds == [] && r.trades == trades)
  {
    InitErrorMarksAssignedPrefix(values);
  }

  /**
   * After init rejected sell_band_low_pct <= 0 on a fresh strategy object,
   * every attribute the buy part reads is set: a buy signal (bands in
   * order) still leads to the buy an accepted configuration would decide,
   * and to the market order. The cycle then raises in the tagging loop,
   * on minimal_benefit_to_start_trailing, exactly when some trade has no
   * exit order, and no trade changes.
   */
  lemma RejectedBandConfigStillBuys(values: map<string, real>, config: BotConfig, trades: seq<Trade>,
                                    orders: seq<Order>, free: real, market: Market, host: NoiseHost,
                                    bandLowPct: real)
    requires InitErrorOf(values) == Some(SellBandLowPctNotPositive)
    requires EarlyExitOf(market).None?
    requires market.quoteSymbol in market.balance.value
    ensures var a := AfterInit(NO_ATTRS, values);
            var close := market.estimatedClose.value;
            && IndicatorReadError(a).None?
            && var ind := CycleIndicators(a, host);
            var d := DecideBuy(close, ind, BudgetLeft(config, free, trades, market.now), values[SPEND_ON_ORDER],
                               market.balance.value, market.quoteSymbol, market.minAmount, market.minCost.value,
                               host.amountToPrecision);
            var r := NextCycle(a, config, trades, orders, free, market, host, bandLowPct);
            BuySignal(close, ind) && ind.bbCentralBand <= ind.bbUpperBand ==>
              && (r.outcome.Completed? || r.outcome.AttributeUnsetAfterBuy?)
              && r.outcome.buy == d && d.MarketBuy? == (d.amountToBuy >= market.minAmount && d.amountToSpend >= market.minCost.value)
              && (r.outcome.buyOrderPlaced <==> d.MarketBuy? && host.createMarketBuyOrder(d.amountToBuy))
              && (r.outcome.AttributeUnsetAfterBuy? <==> exists t | t in trades :: t.exitOrderId == NO_EXIT_ORDER)
              && (r.outcome.AttributeUnsetAfterBuy? ==>
                    r.outcome.attribute == MinimalBenefitToStartTrailing && r.trades == trades)
  {
    var a := AfterInit(NO_ATTRS, values);
    RejectedBandSetsEarlierAttributes(NO_ATTRS, values);
    var ind := CycleIndicators(a, host);
    var levels := GuardedLevels(ind.newStopLoss, bandLowPct, market.estimatedClose.value);
    TaggingRaisesIff(trades, levels.stopPrice, None, a.minPriceToStartTrailing);
    assert forall t | t in trades :: RaisesOn(t, levels.stopPrice, None, a.minPriceToStartTrailing)
                                     == (t.exitOrderId == NO_EXIT_ORDER);
  }

  // ---------------------------------------------------------------------
  // The strategy object
  // ---------------------------------------------------------------------

  class Noise {
    const status: BotStatus
    var botConfig: BotConfig
    var initError: Option<InitError>

    var spendOnOrder: Option<real>
    var bbBandLength: Option<real>
    var bbBandMult: Option<real>
    var buyMacdFast: Option<real>
    var buyMacdSlow: Option<real>
    var buyMacdSignal: Option<real>
    var sellMacdFast: Option<real>
    var sellMacdSlow: Option<real>
    var sellMacdSignal: Option<real>
    var sellBandLength: Option<real>
    var sellBandMult: Option<real>
    var sellBandLowPct: Option<real>
    var minimalBenefitToStartTrailing: Option<real>
    var minPriceToStartTrailing: Option<real>

    /** A strategy object as the host creates it: no parameter attribute is set yet. */
    constructor(status: BotStatus)
      ensures this.status == status && Attrs() == NO_ATTRS && initError == None
    {
      this.status := status;
      botConfig := BotConfig(map[], None);
      initError := None;
      spendOnOrder, bbBandLength, bbBandMult := None, None, None;
      buyMacdFast, buyMacdSlow, buyMacdSignal := None, None, None;
      sellMacdFast, sellMacdSlow, sellMacdSignal := None, None, None;
      sellBandLength, sellBandMult, sellBandLowPct := None, None, None;
      minimalBenefitToStartTrailing, minPriceToStartTrailing := None, None;
    }

    function Attrs(): NoiseAttrs
      reads this
    {
      NoiseAttrs(spendOnOrder, bbBandLength, bbBandMult, buyMacdFast, buyMacdSlow, buyMacdSignal,
                 sellMacdFast, sellMacdSlow, sellMacdSignal, sellBandLength, sellBandMult, sellBandLowPct,
                 minimalBenefitToStartTrailing, minPriceToStartTrailing)
    }

    /**
     * init: store the configuration and read the parameters in order; the
     * first missing key, or a non-positive sell_band_low_pct, ends the
     * reading and is recorded as the init error. Attributes assigned before
     * that keep their new values; the others keep what they had.
     */
    method Init(config: BotConfig)
      modifies this
      ensures botConfig == config
      ensures initError == InitErrorOf(config.values)
      ensures Attrs() == AfterInit(old(Attrs()), config.values)
    {
      botConfig := config;
      var error := ReadSignalParams(config.values);
      if error == None {
        error := ReadTrailingParams(config.values);
      }
      initError := error;
    }

    /** The first part of init's reading: the parameters of the buy and sell signals. */
    method ReadSignalParams(values: map<string, real>) returns (error: Option<InitError>)
      modifies this`spendOnOrder, this`bbBandLength, this`bbBandMult, this`buyMacdFast, this`buyMacdSlow,
               this`buyMacdSignal, this`sellMacdFast, this`sellMacdSlow, this`sellMacdSignal
      ensures error == SignalParamsError(values)
      ensures spendOnOrder == Assigned(values, 0, SPEND_ON_ORDER, old(spendOnOrder))
      ensures bbBandLength == Assigned(values, 1, BB_BAND_LENGHT, old(bbBandLength))
      ensures bbBandMult == Assigned(values, 2, BB_BAND_MULT, old(bbBandMult))
      ensures buyMacdFast == Assigned(values, 3, BUY_MACD_FAST, old(buyMacdFast))
      ensures buyMacdSlow == Assigned(values, 4, BUY_MACD_SLOW, old(buyMacdSlow))
      ensures buyMacdSignal == Assigned(values, 5, BUY_MACD_SIGNAL, old(buyMacdSignal))
      ensures sellMacdFast == Assigned(values, 6, SELL_MACD_FAST, old(sellMacdFast))
      ensures sellMacdSlow == Assigned(values, 7, SELL_MACD_SLOW, old(sellMacdSlow))
      ensures sellMacdSignal == Assigned(values, 8, SELL_MACD_SIGNAL, old(sellMacdSignal))
    {
      if SPEND_ON_ORDER !in values { return Some(MissingKey(SPEND_ON_ORDER)); }
      spendOnOrder := Some(values[SPEND_ON_ORDER]);
      if BB_BAND_LENGHT !in values { return Some(MissingKey(BB_BAND_LENGHT)); }
      bbBandLength := Some(values[BB_BAND_LENGHT]);
      if BB_BAND_MULT !in values { return Some(MissingKey(BB_BAND_MULT)); }
      bbBandMult := Some(values[BB_BAND_MULT]);
      if BUY_MACD_FAST !in values { return Some(MissingKey(BUY_MACD_FAST)); }
      buyMacdFast := Some(values[BUY_MACD_FAST]);
      if BUY_MACD_SLOW !in values { return Some(MissingKey(BUY_MACD_SLOW)); }
      buyMacdSlow := Some(values[BUY_MACD_SLOW]);
      if BUY_MACD_SIGNAL !in values { return Some(MissingKey(BUY_MACD_SIGNAL)); }
      buyMacdSignal := Some(values[BUY_MACD_SIGNAL]);
      if SELL_MACD_FAST !in values { return Some(MissingKey(SELL_MACD_FAST)); }
      sellMacdFast := Some(values[SELL_MACD_FAST]);
      if SELL_MACD_SLOW !in values { return Some(MissingKey(SELL_MACD_SLOW)); }
      sellMacdSlow := Some(values[SELL_MACD_SLOW]);
      if SELL_MACD_SIGNAL !in values { return Some(MissingKey(SELL_MACD_SIGNAL)); }
      sellMacdSignal := Some(values[SELL_MACD_SIGNAL]);
      error := None;
    }

    /**
     * The second part of init's reading, reached once the signal parameters
     * were read: the sell band and trailing-start parameters.
     * sell_band_low_pct is assigned before it is checked to be positive, and
     * min_price_to_start_trailing defaults to 0.0.
     */
    method ReadTrailingParams(values: map<string, real>) returns (error: Option<InitError>)
      requires SignalParamsError(values) == None
      modifies this`sellBandLength, this`sellBandMult, this`sellBandLowPct, this`minimalBenefitToStartTrailing,
               this`minPriceToStartTrailing
      ensures error == TrailingParamsError(values)
      ensures sellBandLength == Assigned(values, 9, SELL_BAND_LENGHT, old(sellBandLength))
      ensures sellBandMult == Assigned(values, 10, SELL_BAND_MULT, old(sellBandMult))
      ensures sellBandLowPct == Assigned(values, 11, SELL_BAND_LOW_PCT, old(sellBandLowPct))
      ensures minimalBenefitToStartTrailing
              == Assigned(values, 12, MINIMAL_BENEFIT, old(minimalBenefitToStartTrailing))
      ensures minPriceToStartTrailing == AssignedMinPrice(values, old(minPriceToStartTrailing))
    {
      if SELL_BAND_LENGHT !in values { return Some(MissingKey(SELL_BAND_LENGHT)); }
      sellBandLength := Some(values[SELL_BAND_LENGHT]);
      if SELL_BAND_MULT !in values { return Some(MissingKey(SELL_BAND_MULT)); }
      sellBandMult := Some(values[SELL_BAND_MULT]);
      if SELL_BAND_LOW_PCT !in values { return Some(MissingKey(SELL_BAND_LOW_PCT)); }
      var lowPct := values[SELL_BAND_LOW_PCT];
      sellBandLowPct := Some(lowPct);
      if lowPct <= 0.0 { return Some(SellBandLowPctNotPositive); }
      if MINIMAL_BENEFIT !in values { return Some(MissingKey(MINIMAL_BENEFIT)); }
      minimalBenefitToStartTrailing := Some(values[MINIMAL_BENEFIT]);
      if MIN_PRICE_TO_START_TRAILING in values {
        minPriceToStartTrailing := Some(values[MIN_PRICE_TO_START_TRAILING]);
      } else {
        minPriceToStartTrailing := Some(0.0);
      }
      error := None;
    }

    /**
     * next: the early checks, the indicator reads, the sell loop, the buy,
     * then the trailing-stop engine over the status. Reading an attribute
     * init never set ends the cycle where it happens. bandLowPct is the
     * band_low_pct the engine reads, which init does not set.
     */
    method Next(market: Market, host: NoiseHost, bandLowPct: real) returns (outcome: CycleOutcome)
      modifies status
      ensures var r := NextCycle(Attrs(), botConfig, old(status.activeTrades), old(status.activeOrders),
                                 old(status.budgetFree), market, host, bandLowPct);
              outcome == r.outcome && status.activeTrades == r.trades
      ensures status.activeOrders == old(status.activeOrders) && status.budgetFree == old(status.budgetFree)
    {
      var minAmount := market.minAmount;
      var minCost := market.minCost;
      if !Truthy(minCost) { return Stopped(NoMinCost); }
      var estimatedClose := market.estimatedClose;
      if !Truthy(estimatedClose) { return Stopped(NoEstimatedClose); }
      var balance := market.balance;
      if balance.None? { return Stopped(NoBalance); }

      var unset := IndicatorReadError(Attrs());
      if unset.Some? { return AttributeUnsetBeforeOrders(unset.value); }
      var dataPoints := DataPoints(CandleWindows(Attrs()));
      var ind := host.indicators(dataPoints);
      var close := estimatedClose.value;

      // The sell loop reads minimal_benefit_to_start_trailing for each trade and places no order.
      if close > ind.bbUpperBand && ind.sellMacdH < 0.0 && |status.activeTrades| > 0
         && minimalBenefitToStartTrailing.None? {
        return AttributeUnsetBeforeOrders(MinimalBenefitToStartTrailing);
      }

      var decision := NoBuySignal;
      var placed := false;
      var errorOnBuy := false;
      if close < ind.bbCentralBand && ind.buyMacdH > 0.0 {
        if market.quoteSymbol !in balance.value { return QuoteLookupFailed; }
        var quoteFree := balance.value[market.quoteSymbol];
        var budgetLeft := BudgetLeft(botConfig, status.budgetFree, status.activeTrades, market.now);
        if spendOnOrder.None? { return AttributeUnsetBeforeOrders(SpendOnOrder); }
        var amountToSpend := Min(Min(budgetLeft, spendOnOrder.value), quoteFree);
        var amountToBuy := host.amountToPrecision(amountToSpend / close);
        if amountToBuy >= minAmount && amountToSpend >= minCost.value {
          decision := MarketBuy(amountToSpend, amountToBuy);
          placed := host.createMarketBuyOrder(amountToBuy);
          if !placed {
            errorOnBuy := true;
          }
        } else {
          decision := BelowMinimums(amountToSpend, amountToBuy);
          errorOnBuy := true;
        }
      }

      // The engine is called with sell_band_lenght (read above) and sell_band_mult.
      if sellBandMult.None? { return AttributeUnsetAfterBuy(SellBandMult, decision, placed, []); }
      var levels := GuardedLevels(ind.newStopLoss, bandLowPct, close);
      if TaggingRaises(status.activeTrades, levels.stopPrice, minimalBenefitToStartTrailing, minPriceToStartTrailing) {
        // The engine cancels the superseded orders; its tagging loop then raises
        // at the first trade it cannot judge, before tagging any trade.
        var _, cancelledIds, _ := CancelActiveOrdersWithLowerStopLoss(
          status.activeOrders, levels.newStopLoss, host.stopLossExchange.cancelOrder);
        return AttributeUnsetAfterBuy(TaggingAttribute(Attrs()), decision, placed, cancelledIds);
      }
      var report := ManageTrailingStopLosses(
        status, ind.newStopLoss, close,
        TrailingConfig(bandLowPct, ValueOr(minimalBenefitToStartTrailing, 0.0), ValueOr(minPriceToStartTrailing, 0.0)),
        minAmount, host.stopLossExchange);
      outcome := Completed(decision, placed, errorOnBuy, report);
    }
  }
}
