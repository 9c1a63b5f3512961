/** The risk projection and action gating of the supply dialog: from a reserve, an
    optional user, the wallet balance, the reference price and the amount typed in,
    compute the projected figures, the warnings and the blocking error. */
module SupplyModal {
  import opened Wrappers
  import opened Snapshots
  import RealOrder

  /** The errors that block a supply. */
  datatype ErrorType = NotEnoughBalance | CapReached

  /** Decimals of the USD price feed; amounts in USD are shifted right by this many places. */
  const USD_DECIMALS: nat := 8

  /** The text the amount field holds when the user asked for the maximum. */
  const MAX_AMOUNT_SENTINEL: string := "-1"

  /** Fill ratio of the supply cap from which the near-full warning is shown. */
  const CAP_WARNING_RATIO: real := 0.99

  /** Code the dialog calls but does not define: reading decimal text, the maximum
      supplyable amount and the health factor formula. Kept uninterpreted. */
  datatype Collaborators = Collaborators(
    readAmount: string -> real,
    maxAmountToSupply: (Option<real>, Reserve, string) -> real,
    healthFactorFromBalances: (real, real, real) -> real)

  /** What the dialog is asked: the amount text, the asset address it was opened for,
      the wallet balance of that asset (unknown when the balance list lacks it) and
      the price of the market reference currency in USD. */
  datatype SupplyRequest = SupplyRequest(
    amount: string,
    underlyingAsset: string,
    walletBalance: Option<real>,
    marketReferencePriceInUsd: real)

  /** Everything the dialog derives from one request. */
  datatype Projection = Projection(
    maxAmount: real,
    amount: real,
    amountInMarketReference: real,
    amountInUsd: real,
    collateralAfter: Option<real>,
    healthFactorAfter: Option<real>,
    showSupplyCapWarning: bool,
    showIsolationWarning: bool,
    capReached: bool,
    blockingError: Option<ErrorType>,
    showHealthFactor: bool)

  function Pow10(n: nat): (r: real)
    ensures r >= 1.0
  {
    if n == 0 then 1.0 else 10.0 * Pow10(n - 1)
  }

  /** The amount to supply: the maximum when the field holds the sentinel text,
      otherwise the field's text read as a decimal. */
  function ResolveAmount(amount: string, maxAmount: real, readAmount: string -> real): (r: real)
    ensures amount == MAX_AMOUNT_SENTINEL ==> r == maxAmount
    ensures amount != MAX_AMOUNT_SENTINEL ==> r == readAmount(amount)
  {
    if amount == MAX_AMOUNT_SENTINEL then maxAmount else readAmount(amount)
  }

  /** Value of `amount` units of the reserve's asset in the market reference currency. */
  function AmountInMarketReference(amount: real, reserve: Reserve): (r: real)
    ensures amount == 0.0 ==> r == 0.0
    ensures amount >= 0.0 && reserve.priceInMarketReference >= 0.0 ==> r >= 0.0
  {
    amount * reserve.priceInMarketReference
  }

  /** Reference-currency value converted to USD: shifting the result back by
      USD_DECIMALS places gives the product of value and USD price. */
  function AmountInUsd(amountInMarketReference: real, marketReferencePriceInUsd: real): (r: real)
    ensures r * Pow10(USD_DECIMALS) == amountInMarketReference * marketReferencePriceInUsd
  {
    amountInMarketReference * marketReferencePriceInUsd / Pow10(USD_DECIMALS)
  }

  /** Total collateral after the supply: present exactly when there is a user, and
      then larger than the current collateral by the supplied value. */
  function CollateralAfter(user: Option<User>, amountInMarketReference: real): (r: Option<real>)
    ensures r.Some? <==> user.Some?
    ensures r.Some? ==> r.value - user.value.totalCollateralMarketReference == amountInMarketReference
  {
    match user
    case None => None
    case Some(u) => Some(u.totalCollateralMarketReference + amountInMarketReference)
  }

  /** Liquidation threshold after the supply: the collateral-weighted mean of the
      user's current threshold and the reserve's threshold. */
  function LiquidationThresholdAfter(user: Option<User>, reserve: Reserve, amountInMarketReference: real): (r: Option<real>)
    requires user.Some? ==> user.value.totalCollateralMarketReference + amountInMarketReference != 0.0
    ensures r.Some? <==> user.Some?
    ensures r.Some? ==>
      r.value * (user.value.totalCollateralMarketReference + amountInMarketReference)
      == user.value.totalCollateralMarketReference * user.value.currentLiquidationThreshold
         + amountInMarketReference * reserve.liquidationThreshold
  {
    match user
    case None => None
    case Some(u) =>
      var after := u.totalCollateralMarketReference + amountInMarketReference;
      Some((u.totalCollateralMarketReference * u.currentLiquidationThreshold
            + amountInMarketReference * reserve.liquidationThreshold) / after)
  }

  /** Whether the supplied asset changes the user's health factor: neither side is in
      isolation, or the user is isolated on exactly this reserve. */
  predicate CountsTowardHealthFactor(u: User, reserve: Reserve) {
    || (!u.isInIsolationMode && !reserve.isIsolated)
    || (u.isInIsolationMode && u.isolatedReserve == Some(reserve.underlyingAsset))
  }

  /** Health factor after the supply: recomputed by the health factor formula from
      the projected figures when the asset counts, otherwise the current one. */
  function HealthFactorAfter(user: Option<User>, reserve: Reserve, amountInMarketReference: real,
                             healthFactorFromBalances: (real, real, real) -> real): (r: Option<real>)
    requires user.Some? && CountsTowardHealthFactor(user.value, reserve) ==>
      user.value.totalCollateralMarketReference + amountInMarketReference != 0.0
    ensures r.Some? <==> user.Some?
    ensures user.Some? && !CountsTowardHealthFactor(user.value, reserve) ==>
      r == Some(user.value.healthFactor)
    ensures user.Some? && CountsTowardHealthFactor(user.value, reserve) ==>
      exists threshold ::
        && LiquidationThresholdAfter(user, reserve, amountInMarketReference) == Some(threshold)
        && r == Some(healthFactorFromBalances(
             user.value.totalCollateralMarketReference + amountInMarketReference,
             user.value.totalBorrowsMarketReference,
             threshold))
  {
    match user
    case None => None
    case Some(u) =>
      if CountsTowardHealthFactor(u, reserve) then
        var collateral := CollateralAfter(user, amountInMarketReference).value;
        var threshold := LiquidationThresholdAfter(user, reserve, amountInMarketReference).value;
        Some(healthFactorFromBalances(collateral, u.totalBorrowsMarketReference, threshold))
      else
        Some(u.healthFactor)
  }

  /** The supply cap is nearly used up: the cap is set and liquidity fills at least
      CAP_WARNING_RATIO of it without reaching it. For a (non-occurring) negative cap
      the ratio reverses both comparisons. */
  function ShowSupplyCapWarning(reserve: Reserve): (r: bool)
    ensures reserve.supplyCap == 0.0 ==> !r
    ensures reserve.supplyCap > 0.0 ==>
      (r <==> CAP_WARNING_RATIO * reserve.supplyCap <= reserve.totalLiquidity < reserve.supplyCap)
    ensures reserve.supplyCap < 0.0 ==>
      (r <==> reserve.supplyCap < reserve.totalLiquidity <= CAP_WARNING_RATIO * reserve.supplyCap)
  {
    if reserve.supplyCap == 0.0 then false
    else
      var percentageOfCap := reserve.totalLiquidity / reserve.supplyCap;
      RealOrder.QuotientOrder(reserve.totalLiquidity, reserve.supplyCap, CAP_WARNING_RATIO);
      RealOrder.QuotientOrder(reserve.totalLiquidity, reserve.supplyCap, 1.0);
      CAP_WARNING_RATIO <= percentageOfCap < 1.0
  }

  /** A position that is enabled as collateral and belongs to another reserve. */
  predicate IsDifferentCollateral(position: UserReserve, reserveId: string) {
    position.usageAsCollateralEnabledOnUser && position.reserveId != reserveId
  }

  /** Index of the first position that is collateral in a reserve other than `reserveId`. */
  function FindDifferentCollateral(positions: seq<UserReserve>, reserveId: string): (r: Option<nat>)
    ensures r.Some? ==>
      && r.value < |positions|
      && IsDifferentCollateral(positions[r.value], reserveId)
      && forall j :: 0 <= j < r.value ==> !IsDifferentCollateral(positions[j], reserveId)
    ensures r.None? <==> forall j :: 0 <= j < |positions| ==> !IsDifferentCollateral(positions[j], reserveId)
  {
    if |positions| == 0 then None
    else if IsDifferentCollateral(positions[0], reserveId) then Some(0)
    else
      match FindDifferentCollateral(positions[1..], reserveId)
      case None => None
      case Some(i) => Some(i + 1)
  }

  /** Supplying would put the user into isolation mode. `position` is the user's
      position in this reserve, if the user has one. Without a position the optional
      chaining of the condition yields a falsy value, which is the value modelled here. */
  function ShowIsolationWarning(user: Option<User>, reserve: Reserve, position: Option<UserReserve>): (r: bool)
    ensures r <==>
      && user.Some?
      && !user.value.isInIsolationMode
      && reserve.isIsolated
      && (forall j :: 0 <= j < |user.value.userReserves| ==>
            !IsDifferentCollateral(user.value.userReserves[j], reserve.id))
      && position.Some?
      && (position.value.underlyingBalance != 0.0 ==> position.value.usageAsCollateralEnabledOnUser)
  {
    match user
    case None => false
    case Some(u) =>
      && !u.isInIsolationMode
      && reserve.isIsolated
      && FindDifferentCollateral(u.userReserves, reserve.id).None?
      && match position
         case None => false
         case Some(p) => if p.underlyingBalance != 0.0 then p.usageAsCollateralEnabledOnUser else true
  }

  /** Supplying `amount` would push the reserve's liquidity past its (non-zero) cap. */
  function SupplyCapReached(reserve: Reserve, amount: real): (r: bool)
    ensures r <==> reserve.supplyCap != 0.0 && reserve.totalLiquidity + amount > reserve.supplyCap
  {
    reserve.supplyCap != 0.0 && amount > reserve.supplyCap - reserve.totalLiquidity
  }

  /** The amount is more than the wallet holds. An unknown balance compares as not
      exceeded, as a comparison with an undefined number is false. */
  predicate ExceedsBalance(amount: real, walletBalance: Option<real>) {
    walletBalance.Some? && amount > walletBalance.value
  }

  /** The first blocking error: too little balance before a reached cap. */
  function BlockingError(amount: real, walletBalance: Option<real>, capReached: bool): (r: Option<ErrorType>)
    ensures r == Some(NotEnoughBalance) <==> ExceedsBalance(amount, walletBalance)
    ensures r == Some(CapReached) <==> !ExceedsBalance(amount, walletBalance) && capReached
    ensures r == None <==> !ExceedsBalance(amount, walletBalance) && !capReached
  {
    if ExceedsBalance(amount, walletBalance) then Some(NotEnoughBalance)
    else if capReached then Some(CapReached)
    else None
  }

  /** The health factor is shown only to a user with debt supplying a collateral asset. */
  function ShowHealthFactor(user: Option<User>, reserve: Reserve): (r: bool)
    ensures r ==> user.Some? && user.value.totalBorrowsMarketReference != 0.0
    ensures r ==> reserve.usageAsCollateralEnabled
    ensures user.Some? && user.value.totalBorrowsMarketReference != 0.0 && reserve.usageAsCollateralEnabled ==> r
  {
    user.Some? && user.value.totalBorrowsMarketReference != 0.0 && reserve.usageAsCollateralEnabled
  }

  /** The maximum the helper offers for a request. */
  function MaxAmountFor(request: SupplyRequest, reserve: Reserve, collaborators: Collaborators): real {
    collaborators.maxAmountToSupply(request.walletBalance, reserve, request.underlyingAsset)
  }

  /** The resolved amount of a request, given the maximum offered for it. */
  function RequestedAmount(request: SupplyRequest, maxAmount: real, collaborators: Collaborators): real {
    ResolveAmount(request.amount, maxAmount, collaborators.readAmount)
  }

  /** The whole projection of one request. */
  function Project(reserve: Reserve, user: Option<User>, position: Option<UserReserve>,
                   request: SupplyRequest, collaborators: Collaborators): (p: Projection)
    requires user.Some? && CountsTowardHealthFactor(user.value, reserve) ==>
      user.value.totalCollateralMarketReference
      + RequestedAmount(request, MaxAmountFor(request, reserve, collaborators), collaborators)
        * reserve.priceInMarketReference != 0.0
    ensures p.maxAmount == collaborators.maxAmountToSupply(request.walletBalance, reserve, request.underlyingAsset)
    ensures request.amount == MAX_AMOUNT_SENTINEL ==> p.amount == p.maxAmount
    ensures request.amount != MAX_AMOUNT_SENTINEL ==> p.amount == collaborators.readAmount(request.amount)
    ensures p.amountInUsd * Pow10(USD_DECIMALS)
            == p.amount * reserve.priceInMarketReference * request.marketReferencePriceInUsd
    ensures p.collateralAfter.Some? <==> user.Some?
    ensures p.healthFactorAfter.Some? <==> user.Some?
    ensures p.blockingError == Some(NotEnoughBalance) <==> ExceedsBalance(p.amount, request.walletBalance)
    ensures p.blockingError == Some(CapReached) <==>
      && !ExceedsBalance(p.amount, request.walletBalance)
      && reserve.supplyCap != 0.0
      && reserve.totalLiquidity + p.amount > reserve.supplyCap
    ensures p.amountInMarketReference == AmountInMarketReference(p.amount, reserve)
    ensures p.collateralAfter == CollateralAfter(user, p.amountInMarketReference)
    ensures p.healthFactorAfter
            == HealthFactorAfter(user, reserve, p.amountInMarketReference, collaborators.healthFactorFromBalances)
    ensures p.capReached == SupplyCapReached(reserve, p.amount)
    ensures p.blockingError == BlockingError(p.amount, request.walletBalance, p.capReached)
    ensures p.showSupplyCapWarning == ShowSupplyCapWarning(reserve)
    ensures p.showIsolationWarning == ShowIsolationWarning(user, reserve, position)
    ensures p.showHealthFactor == ShowHealthFactor(user, reserve)
  {
    var maxAmount := MaxAmountFor(request, reserve, collaborators);
    var amount := RequestedAmount(request, maxAmount, collaborators);
    var inReference := AmountInMarketReference(amount, reserve);
    var capReached := SupplyCapReached(reserve, amount);
    Projection(
      maxAmount := maxAmount,
      amount := amount,
      amountInMarketReference := inReference,
      amountInUsd := AmountInUsd(inReference, request.marketReferencePriceInUsd),
      collateralAfter := CollateralAfter(user, inReference),
      healthFactorAfter := HealthFactorAfter(user, reserve, inReference, collaborators.healthFactorFromBalances),
      showSupplyCapWarning := ShowSupplyCapWarning(reserve),
      showIsolationWarning := ShowIsolationWarning(user, reserve, position),
      capReached := capReached,
      blockingError := BlockingError(amount, request.walletBalance, capReached),
      showHealthFactor := ShowHealthFactor(user, reserve))
  }
}
