/** Candles, signals and the loosely typed metadata dictionaries that travel with them. */
module Market {
  import opened Common

  datatype Direction = Long | Short
  {
    /** +1 for a long position, -1 for a short one. */
    function Sign(): real { if Long? then 1.0 else -1.0 }
  }

  datatype Side = Buy | Sell

  datatype Action = EnterLong | EnterShort | ExitLong | ExitShort | Hold
  {
    predicate IsEntry() { EnterLong? || EnterShort? }

    predicate IsExit() { ExitLong? || ExitShort? }
  }

  /** Candles in order of opening time. */
  ghost predicate Ordered(candles: seq<Candle>)
  {
    forall i, j :: 0 <= i < j < |candles| ==> candles[i].openTime <= candles[j].openTime
  }

  /** Candles in order of time that do not overlap. */
  ghost predicate Separate(candles: seq<Candle>)
  {
    && (forall i :: 0 <= i < |candles| ==> candles[i].openTime <= candles[i].closeTime)
    && forall i, j :: 0 <= i < j < |candles| ==> candles[i].closeTime < candles[j].openTime
  }

  function ExitAction(d: Direction): Action { if d.Long? then ExitLong else ExitShort }

  function ExitSide(d: Direction): Side { if d.Long? then Sell else Buy }

  datatype Candle = Candle(
    pair: string, interval: string, openTime: int, closeTime: int,
    open: real, high: real, low: real, close: real,
    volume: real, quoteVolume: real, tradeCount: int, isClosed: bool)
  {
    /** The range covers the open and the close. */
    predicate WellFormed() { low <= open <= high && low <= close <= high }

    function TypicalPrice(): real { (high + low + close) / 3.0 }
  }

  datatype Level = Level(price: real, quantity: real)

  datatype Book = Book(bids: seq<Level>, asks: seq<Level>)

  /**
   * One metadata entry. A string is represented by what the code reads off it: the string
   * itself, its lower-case and its stripped lower-case form, whether the latter spells
   * "true", and the decimal it parses to.
   */
  datatype Value =
    | Null
    | Flag(flag: bool)
    | Num(num: real)
    | Text(raw: string, lower: string, word: string, on: bool, number: Option<real>)

  /** A lower-case word without spaces that is neither "true" nor a number. */
  function Plain(word: string): Value { Text(word, word, word, false, None) }

  /** Metadata keys. They are numbered, so that distinct keys differ by arithmetic. */
  type Key = nat

  // entry bookkeeping
  const ENTRY_FEE: Key := 0
  const ENTRY_FEES_TOTAL: Key := 1
  const ENTRY_EFFECTIVE_FEE_RATE: Key := 2
  const INITIAL_STOP_LOSS: Key := 3
  const ALLOW_SCALE_IN: Key := 4
  const PARTIAL_CLOSE_PCT: Key := 5
  const EXIT_TRIGGER_TYPE: Key := 6
  // entry candle
  const ENTRY_CANDLE_OPEN_TIME: Key := 7
  const ENTRY_CANDLE_INTERVAL: Key := 8
  const ENTRY_CANDLE_LOW: Key := 9
  const ENTRY_CANDLE_HIGH: Key := 10
  // percentage trailing stop
  const TRAILING_STOP_ENABLED: Key := 11
  const TRAILING_STOP_ACTIVATION_PCT: Key := 12
  const TRAILING_STOP_DISTANCE_PCT: Key := 13
  const TRAILING_STOP_ACTIVE: Key := 14
  // time stop
  const TIME_STOP_MS: Key := 15
  const TIME_STOP_ONLY_IF_STAGNANT: Key := 16
  const TIME_STOP_MIN_R: Key := 17
  const TIME_STOP_EXTEND_IF_STRONG: Key := 18
  // Bollinger trail
  const BB_TRAIL_ENABLED: Key := 19
  const BB_TRAIL_ACTIVE: Key := 20
  const BB_TRAIL_STOP: Key := 21
  const BB_TRAIL_STAGE: Key := 22
  const BB_TRAIL_FORCE_CLOSE: Key := 23
  const BB_TRAIL_OBSERVE_ONLY: Key := 24
  const BB_TRAIL_BUFFER_MULTIPLIER: Key := 25
  const BB_TRAIL_ACTIVATION_R: Key := 26
  const BB_TRAIL_STAGE2_R: Key := 27
  const BB_TRAIL_STAGE3_R: Key := 28
  const BB_TRAIL_FORCE_CLOSE_R: Key := 29
  const BB_TRAIL_PARTIAL_CLOSE_AT_TP: Key := 30
  const BB_TRAIL_PARTIAL_CLOSE_PCT: Key := 31
  const BB_PARTIAL_CLOSE_EXECUTED: Key := 32
  const TP_IS_PARTIAL_CLOSE: Key := 33
  const TP_PARTIAL_CLOSE_PCT: Key := 34
  // dynamic ATR exits
  const ATR_DYNAMIC_EXITS_ENABLED: Key := 35
  const ATR_STOP_ENABLED: Key := 36
  const ATR_TAKE_PROFIT_ENABLED: Key := 37
  const ATR_TRAILING_ENABLED: Key := 38
  const ATR_STOP_MULTIPLE: Key := 39
  const ATR_TAKE_PROFIT_MULTIPLE: Key := 40
  const ATR_TRAILING_MULTIPLE: Key := 41
  const TRAILING_ATR_MULTIPLE: Key := 42
  const ATR_TAKE_PROFIT_MODE: Key := 43
  const ATR_ENTRY_ATR: Key := 44
  const ATR_BEST_PRICE: Key := 45
  const MANUAL_TAKE_PROFIT_PCT: Key := 46
  const TAKE_PROFIT_PRIORITY: Key := 47
  const ATR_TRAIL_AFTER_R_ENABLED: Key := 48
  const ATR_TRAIL_ACTIVATION_R: Key := 49
  const STOP_TYPE: Key := 50
  // R-based management
  const BREAKEVEN_ENABLED: Key := 51
  const BREAKEVEN_ACTIVATION_R: Key := 52
  const BREAKEVEN_OFFSET_R: Key := 53
  const PROFIT_LOCK_ENABLED: Key := 54
  const PROFIT_LOCK_ACTIVATION_R: Key := 55
  const PROFIT_LOCK_R: Key := 56
  const ADAPTIVE_STOP_ENABLED: Key := 57
  const ADAPTIVE_STOP_PROFILE: Key := 58
  const ATR_PROFILE: Key := 59
  const TRADE_MODE: Key := 60
  const GIVEBACK_ENABLED: Key := 61
  const GIVEBACK_ACTIVE: Key := 62
  const GIVEBACK_ACTIVATION_R: Key := 63
  const GIVEBACK_LOCK_FRACTION: Key := 64
  const GIVEBACK_MIN_LOCK_R: Key := 65
  const GIVEBACK_TIGHTEN_AFTER_R: Key := 66
  const GIVEBACK_TIGHTEN_FRACTION: Key := 67
  const GIVEBACK_MAX_R_HIT: Key := 68
  const MAX_R_HIT: Key := 69

  type Metadata = map<Key, Value>

  function Get(m: Metadata, k: Key): Value { if k in m then m[k] else Null }

  /** Python truth value of an entry. */
  predicate Holds(v: Value)
  {
    match v
    case Null => false
    case Flag(b) => b
    case Num(x) => x != 0.0
    case Text(raw, _, _, _, _) => raw != ""
  }

  function AsBool(v: Value, default: bool): bool
  {
    match v
    case Null => default
    case Flag(b) => b
    case Num(x) => x != 0.0
    case Text(_, _, _, on, _) => on
  }

  /** The decimal an entry holds or parses to, if any. */
  function AsDecimal(v: Value): Option<real>
  {
    match v
    case Num(x) => Some(x)
    case Text(_, _, _, _, n) => n
    case _ => None
  }

  function BoolMeta(m: Metadata, k: Key, default: bool): bool { AsBool(Get(m, k), default) }

  function Decimal(m: Metadata, k: Key): Option<real> { AsDecimal(Get(m, k)) }

  function DecMeta(m: Metadata, k: Key, default: real): real
  {
    var d := Decimal(m, k);
    if d.Some? then d.value else default
  }

  function IntMeta(m: Metadata, k: Key, default: int): int
  {
    var d := Decimal(m, k);
    if d.Some? then Truncate(d.value) else default
  }

  /** What is written is read back; a missing entry and None read as the default, and text as what it spells. */
  lemma EntriesReadBack(m: Metadata, k: Key, x: real, b: bool, t: Value, n: int)
    requires t.Text?
    ensures Decimal(m[k := Num(x)], k) == Some(x) && DecMeta(m[k := Num(x)], k, 0.0) == x
    ensures BoolMeta(m[k := Flag(b)], k, !b) == b && BoolMeta(m[k := Num(x)], k, x == 0.0) == (x != 0.0)
    ensures BoolMeta(m[k := t], k, !t.on) == t.on && Decimal(m[k := t], k) == t.number
    ensures BoolMeta(m[k := Null], k, b) == BoolMeta(m - {k}, k, b) == b
    ensures DecMeta(m[k := Null], k, x) == DecMeta(m - {k}, k, x) == DecMeta(m[k := Flag(b)], k, x) == x
    ensures IntMeta(m[k := Num(n as real)], k, 0) == n && IntMeta(m - {k}, k, n) == n
  {
    assert (n as real).Floor == n && (-(n as real)).Floor == -n;
  }

  predicate IsRaw(v: Value, text: string) { v.Text? && v.raw == text }

  function WordOf(v: Value): string { if v.Text? then v.word else "" }

  function OptNum(x: Option<real>): Value { if x.Some? then Num(x.value) else Null }

  datatype FeeType = Maker | Taker

  /** Why a report was issued, as far as later code looks at it. */
  datatype Reason =
    | Refused                // the risk decision was not approved
    | Invalid                // size, direction, action, price, percentage or margin check failed
    | EntryFilled | ScaleInFilled
    | ForceCloseCeiling | GapStop | StopHit | AmbiguousStop | PartialTarget | TargetHit | Stagnation
    | KillSwitch | RunEnded
    | Strategy(mentionsStop: bool)
  {
    /** Whether the reason's text contains "stop", the test behind the stop-loss cooldown. */
    predicate ReadsAsStop()
    {
      GapStop? || StopHit? || AmbiguousStop? || Stagnation? || (Strategy? && mentionsStop)
    }
  }

  datatype Signal = Signal(
    strategy: string, pair: string, action: Action, direction: Option<Direction>,
    entryPrice: Option<real>, stopLoss: Option<real>, takeProfit: Option<real>,
    reason: Reason, feeType: Option<FeeType>, metadata: Metadata)

  datatype Decision = Decision(
    approved: bool, signal: Signal, positionSize: Option<real>, leverage: Option<real>,
    maxLoss: Option<real>, metadata: Metadata)

  /** `app/broker/models.py`: an open position. */
  datatype Position = Position(
    pair: string, direction: Direction, quantity: real, entryPrice: real, leverage: real,
    openedAt: int, updatedAt: int, strategy: string,
    stopLoss: Option<real>, takeProfit: Option<real>,
    rate: real, unit: real, metadata: Metadata)
  {
    function Notional(): real { Abs(quantity * entryPrice * unit * rate) }

    function MarginNotional(price: real): real { Abs(quantity * price * unit * rate) }

    function UnrealizedPnl(mark: real): real
    {
      if direction.Long? then quantity * (mark - entryPrice) * unit * rate
      else quantity * (entryPrice - mark) * unit * rate
    }

    /** Entry fees still carried by the open quantity. */
    function EntryFees(): real { DecMeta(metadata, ENTRY_FEES_TOTAL, DecMeta(metadata, ENTRY_FEE, 0.0)) }
  }

  /** The broker's constructor arguments, and the two profit-lock switches set once after it. */
  datatype BrokerConfig = BrokerConfig(
    startingEquity: real, makerFeeRate: real, takerFeeRate: real, feeGstRate: real,
    entryFeeType: FeeType, exitFeeType: FeeType, slippagePct: real, stopSlippagePct: Option<real>,
    trailingStopEnabled: bool, trailingActivationPct: real, trailingDistancePct: real,
    rate: real, unit: real, profitLockEnabled: bool, autoLockPct: real)
  {
    /** What the constructor insists on; it raises otherwise. */
    predicate Valid()
    {
      && startingEquity > 0.0
      && makerFeeRate >= 0.0 && takerFeeRate >= 0.0 && feeGstRate >= 0.0
      && slippagePct >= 0.0 && (stopSlippagePct.Some? ==> stopSlippagePct.value >= 0.0)
      && trailingActivationPct >= 0.0 && trailingDistancePct >= 0.0
      && (trailingStopEnabled ==> trailingDistancePct > 0.0)
      && rate > 0.0 && unit > 0.0
    }

    function FeeRate(t: FeeType): real { if t.Maker? then makerFeeRate else takerFeeRate }

    /** `app/fees.py`: the rate with tax on top. */
    function EffectiveRate(t: FeeType): real { FeeRate(t) * (1.0 + feeGstRate) }

    /** Base fee plus tax on the base fee. */
    function Fee(notional: real, t: FeeType): real
    {
      var base := notional * FeeRate(t);
      base + base * feeGstRate
    }

    function MarginNotional(quantity: real, price: real): real { Abs(quantity * price * unit * rate) }

    function StopSlippage(): real { if stopSlippagePct.Some? then stopSlippagePct.value else slippagePct }
  }

  /** The itemised fee and the effective rate of `app/fees.py` agree. */
  lemma FeeIsEffectiveRate(c: BrokerConfig, notional: real, t: FeeType)
    ensures c.Fee(notional, t) == notional * c.EffectiveRate(t)
  {
    var f, g := c.FeeRate(t), c.feeGstRate;
    assert notional * (f * (1.0 + g)) == notional * f + notional * f * g by {
      assert f * (1.0 + g) == f + f * g;
      assert notional * (f + f * g) == notional * f + notional * (f * g);
    }
  }
}
