/**
 Execution settings (`execution/config.rs`): the default account, the two
 prop-firm presets, the dollar loss limit and the trading-hours window.
 */
module Settings {

  datatype ExecutionMode = Simulation | Paper | Live

  datatype ExecutionConfig = ExecutionConfig(
    mode: ExecutionMode,
    symbol: string,
    exchange: string,
    maxPositionSize: int,
    dailyLossLimit: real,
    maxDailyLosses: int,
    takeProfit: real,
    trailingStop: real,
    stopBuffer: real,
    pointValue: real,
    startHour: nat,
    startMinute: nat,
    endHour: nat,
    endMinute: nat,
    rithmicEnv: string,
    rithmicUser: string,
    rithmicFcmId: string,
    rithmicIbId: string,
    rithmicSystem: string)

  /** `ExecutionConfig::default()`: simulated, one NQ contract, 100-point loss limit, three losses, 9:30–11:00 ET. */
  const DefaultConfig := ExecutionConfig(
    Simulation, "NQ.c.0", "CME", 1, 100.0, 3, 0.0, 1.5, 2.0, 20.0, 9, 30, 11, 0,
    "Demo", "", "", "", "Rithmic Paper Trading")

  /** `mff_static_pro`: two contracts and a 125-point limit. */
  function MffStaticPro(): (c: ExecutionConfig)
    ensures c.maxPositionSize == 2 && c.dailyLossLimit == 125.0
  {
    DefaultConfig.(maxPositionSize := 2, dailyLossLimit := 125.0, maxDailyLosses := 3)
  }

  /** `etf_static`: four contracts and a 100-point limit. */
  function EtfStatic(): (c: ExecutionConfig)
    ensures c.maxPositionSize == 4 && c.dailyLossLimit == 100.0
  {
    DefaultConfig.(maxPositionSize := 4, dailyLossLimit := 100.0, maxDailyLosses := 3)
  }

  /** The presets agree with the default in every field except the position size and the loss limit. */
  lemma PresetsDifferOnlyInLimits()
    ensures MffStaticPro().(maxPositionSize := 1, dailyLossLimit := 100.0) == DefaultConfig
    ensures EtfStatic().(maxPositionSize := 1) == DefaultConfig
  {
  }

  /** `max_dollar_loss`: the point limit in dollars for a number of contracts. */
  function MaxDollarLoss(c: ExecutionConfig, contracts: int): (r: real)
    ensures contracts == 0 ==> r == 0.0
  {
    c.dailyLossLimit * c.pointValue * contracts as real
  }

  lemma MaxDollarLossExample()
    ensures MaxDollarLoss(DefaultConfig, 1) == 2000.0 && MaxDollarLoss(DefaultConfig, 2) == 4000.0
  {
  }

  function MinuteOfDay(hour: nat, minute: nat): nat
  {
    hour * 60 + minute
  }

  /** `is_trading_hours`: the minute of the day lies in [start, end). */
  predicate IsTradingHours(c: ExecutionConfig, hour: nat, minute: nat)
  {
    var now := MinuteOfDay(hour, minute);
    MinuteOfDay(c.startHour, c.startMinute) <= now < MinuteOfDay(c.endHour, c.endMinute)
  }

  /** The default window admits 9:30 to 10:59 and rejects 9:00, 9:29, 11:00 and 11:30. */
  lemma TradingHoursExample()
    ensures !IsTradingHours(DefaultConfig, 9, 0) && !IsTradingHours(DefaultConfig, 9, 29)
    ensures IsTradingHours(DefaultConfig, 9, 30) && IsTradingHours(DefaultConfig, 10, 0) && IsTradingHours(DefaultConfig, 10, 59)
    ensures !IsTradingHours(DefaultConfig, 11, 0) && !IsTradingHours(DefaultConfig, 11, 30)
  {
  }

  /** Moving a minute forward inside the window never leaves it before the end. */
  lemma TradingHoursInterval(c: ExecutionConfig, h1: nat, m1: nat, h2: nat, m2: nat, h3: nat, m3: nat)
    requires IsTradingHours(c, h1, m1) && IsTradingHours(c, h3, m3)
    requires MinuteOfDay(h1, m1) <= MinuteOfDay(h2, m2) <= MinuteOfDay(h3, m3)
    ensures IsTradingHours(c, h2, m2)
  {
  }
}
