/** The records exchanged with the chains API and stored per chain. */
module ChainTypes {
  import opened Wrappers

  /** Milliseconds since the epoch; every wall-clock read is a parameter. */
  type Time = int

  /** A JavaScript number (price, limits) that is stored and shown but never computed on. */
  type Num = real

  /**
   * A chain as the API reports it. `explorer` is `None` when the API omits
   * the field; `rpcs` lists endpoint URLs, the first one shown as primary.
   */
  datatype Chain = Chain(
    bal: string,
    chain: int,
    decimals: int,
    explorer: Option<string>,
    gas: string,
    gwei: string,
    inbound: bool,
    mainnet: bool,
    maxInbound: Num,
    maxInboundNative: string,
    maxOutbound: Num,
    maxOutboundNative: string,
    minOutbound: Num,
    minOutboundNative: string,
    name: string,
    price: Num,
    rpcs: seq<string>,
    short: int,
    symbol: string)

  /** Body of the API response; `chains` is `None` when the field is missing or null. */
  datatype ChainsApiResponse = ChainsApiResponse(chains: Option<seq<Chain>>)

  /** A chain read back from the table, with its row id and timestamps. */
  datatype ChainRecord = ChainRecord(id: Option<int>, data: Chain, createdAt: Time, updatedAt: Time)

  /** A batch entry judged new, with the instant it was judged so. */
  datatype NewChainDetection = NewChainDetection(chain: Chain, detectedAt: Time)
}

/** The application settings read from the environment. */
module ConfigTypes {
  import opened Wrappers

  datatype TelegramConfig = TelegramConfig(botToken: string, chatId: string)

  datatype ApiConfig = ApiConfig(url: string)

  /** `intervalMs` is `None` when the configured text parses to NaN. */
  datatype PollingConfig = PollingConfig(intervalMs: Option<int>)

  datatype DatabaseConfig = DatabaseConfig(path: string)

  datatype AppConfig = AppConfig(
    telegram: TelegramConfig,
    api: ApiConfig,
    polling: PollingConfig,
    database: DatabaseConfig,
    silentMode: bool)
}
