/** The records the account endpoints answer with. Every amount is kept as the decimal
    text the exchange sends; optional fields are absent when the exchange omits them. */
module AccountModel {
  import opened Common

  /** Holdings in one currency (wire keys `ccy`, `cashBal`, `availBal`, `frozenBal`,
      `liab`, `availEq`, `upl`). */
  datatype Balance = Balance(
    ccy: string,
    balance: string,
    availableBalance: string,
    frozenBalance: string,
    liability: Option<string>,
    availableEquity: Option<string>,
    unrealizedPl: Option<string>)

  /** Account-wide figures in US dollars, with the per-currency `details`. */
  datatype AccountBalanceInfo = AccountBalanceInfo(
    adjEq: string,
    borrowFroz: string,
    details: seq<Balance>,
    imr: string,
    isoEq: string,
    mgnRatio: string,
    mmr: string,
    notionalUsd: string,
    notionalUsdForBorrow: string,
    notionalUsdForFutures: string,
    notionalUsdForOption: string,
    notionalUsdForSwap: string,
    ordFroz: string,
    totalEq: string,
    uTime: string,
    upl: string)

  /** The margin mode as the exchange names it on the wire; its closed set of names
      lives in a module that is not part of this model. */
  datatype MarginMode = MarginMode(wireName: string)

  /** Account settings (wire keys `acctId`, `posMode`, `autoLoan`, `level`, `mgnMode`). */
  datatype AccountConfig = AccountConfig(
    accountId: string,
    positionMode: string,
    autoLoan: bool,
    level: string,
    marginMode: MarginMode)

  /** Account risk figures (wire keys `risk`, `riskLvl`, `totalEq`). */
  datatype AccountRisk = AccountRisk(
    risk: string,
    riskLevel: string,
    totalEquity: string)
}
