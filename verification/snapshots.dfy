/** Read-only snapshots the supply dialog receives from its data context.
    Decimal figures are exact reals; prices and thresholds are already formatted
    (human units, not on-chain integers). */
module Snapshots {
  import opened Wrappers

  /** A lending-pool reserve. A supply cap of zero means the reserve is uncapped. */
  datatype Reserve = Reserve(
    id: string,
    underlyingAsset: string,
    supplyCap: real,
    totalLiquidity: real,
    liquidationThreshold: real,
    priceInMarketReference: real,
    isIsolated: bool,
    usageAsCollateralEnabled: bool)

  /** One of the user's per-reserve positions. */
  datatype UserReserve = UserReserve(
    reserveId: string,
    underlyingBalance: real,
    usageAsCollateralEnabledOnUser: bool)

  /** Aggregate account figures of the connected user. `isolatedReserve` holds the
      underlying asset of the reserve the user is isolated on, if any. */
  datatype User = User(
    totalCollateralMarketReference: real,
    totalBorrowsMarketReference: real,
    currentLiquidationThreshold: real,
    healthFactor: real,
    isInIsolationMode: bool,
    isolatedReserve: Option<string>,
    userReserves: seq<UserReserve>)
}
