/**
 * The records the producer handles. Go `int` fields are unbounded `int`s here;
 * decimal.Decimal rates are exact `real`s.
 */
module Models {

  /** One synthesized bet record: 17 fields, in the order of the CSV header. */
  datatype Transaction = Transaction(
    id: string,
    externalTransactionId: string,
    vendorBetId: string,
    roundId: string,
    vendorId: int,
    vendorCode: string,
    vendorLineId: int,
    gameCategoryId: int,
    houseId: int,
    masterAgentId: int,
    agentId: int,
    currencyId: int,
    currencyCode: string,
    betAmount: string,
    winAmount: string,
    winLoss: string,
    settledAt: string)

  datatype CurrencyRate = CurrencyRate(
    id: int,
    currencyFrom: string,
    currencyFromId: int,
    currencyTo: string,
    currencyToId: int,
    rate: real,
    effectiveFrom: int,
    status: int)

  datatype Agent = Agent(
    id: int,
    sasEntityId: int,
    masterAgentId: int,
    status: int,
    notificationEnabled: int)

  datatype GameCategory = GameCategory(id: int, code: string, name: string, status: int)

  datatype Currency = Currency(id: int, code: string, name: string)

  /** The four loaded tables and the three lookup indices built from them. */
  datatype ReferenceData = ReferenceData(
    currencyRates: seq<CurrencyRate>,
    agents: seq<Agent>,
    gameCategories: seq<GameCategory>,
    currencies: seq<Currency>,
    currencyById: map<int, Currency>,
    currencyRatesById: map<int, seq<CurrencyRate>>,
    agentsByMasterId: map<int, seq<Agent>>)
}
