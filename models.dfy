/** The typed configuration records the loader builds. Optional fields hold
    whatever JSON value the configuration supplied. */
module Models {
  import opened JsonValue

  /** One Polymarket/Kalshi market mapping from the configuration file. */
  datatype MarketPair = MarketPair(
    id: string,
    marketName: string,
    polymarketToken: string,
    polymarketMarketId: string,
    kalshiTicker: string,
    kalshiMarketId: string,
    settlementDate: string,
    manuallyVerified: bool,
    notes: Option<Json>,
    polymarketTitle: Option<Json>,
    kalshiTitle: Option<Json>)

  datatype MonitoringConfig = MonitoringConfig(pollingIntervalSeconds: int, monitoringDurationHours: int)

  datatype CostAssumptions = CostAssumptions(gasFeePerTradeUsd: real)

  datatype TelegramSettings = TelegramSettings(botToken: Option<Json>, chatId: Option<Json>)

  /** `is_configured`: both credentials present and truthy. */
  predicate IsConfigured(t: TelegramSettings) {
    TruthyOpt(t.botToken) && TruthyOpt(t.chatId)
  }

  datatype AppConfig = AppConfig(
    marketPairs: seq<MarketPair>,
    monitoring: MonitoringConfig,
    costAssumptions: CostAssumptions,
    telegram: TelegramSettings,
    kalshiApiKey: Option<Json>)
}
