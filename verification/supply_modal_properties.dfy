/** Properties of the supply dialog's projection that relate several calls or
    characterise a result independently of how it is computed. */
module SupplyModalProperties {
  import opened Wrappers
  import opened Snapshots
  import opened SupplyModal
  import RealOrder

  // ---------------------------------------------------------------- amount

  /** The sentinel text asks for the maximum, whatever the text reader would make of it;
      any other text is read as it stands and the maximum is not consulted. */
  lemma SentinelSelectsMaximum(amount: string, max1: real, max2: real, read1: string -> real, read2: string -> real)
    ensures amount == MAX_AMOUNT_SENTINEL ==>
      ResolveAmount(amount, max1, read1) == ResolveAmount(amount, max1, read2) == max1
    ensures amount != MAX_AMOUNT_SENTINEL ==>
      ResolveAmount(amount, max1, read1) == ResolveAmount(amount, max2, read1) == read1(amount)
  {
  }

  /** The USD value scales linearly with the amount: zero supplies nothing, and the
      value of two amounts together is the sum of their values. */
  lemma UsdValueIsLinear(a: real, b: real, reserve: Reserve, priceInUsd: real)
    ensures AmountInUsd(AmountInMarketReference(0.0, reserve), priceInUsd) == 0.0
    ensures AmountInUsd(AmountInMarketReference(a + b, reserve), priceInUsd)
            == AmountInUsd(AmountInMarketReference(a, reserve), priceInUsd)
               + AmountInUsd(AmountInMarketReference(b, reserve), priceInUsd)
  {
  }

  /** One unit of an asset priced 2000 in the reference currency, with the reference
      currency at 1 USD expressed with 8 decimals, is worth 2000 USD. */
  lemma WorkedUsdExample(reserve: Reserve)
    requires reserve.priceInMarketReference == 2000.0
    ensures AmountInMarketReference(1.0, reserve) == 2000.0
    ensures AmountInUsd(AmountInMarketReference(1.0, reserve), 100000000.0) == 2000.0
  {
  }

  // ---------------------------------------------------------------- collateral

  /** Supplying nothing leaves the user's collateral as it was; supplying a
      non-negative value never lowers it. */
  lemma CollateralAfterGrowsWithAmount(u: User, amountInMarketReference: real)
    ensures CollateralAfter(Some(u), 0.0) == Some(u.totalCollateralMarketReference)
    ensures amountInMarketReference >= 0.0 ==>
      CollateralAfter(Some(u), amountInMarketReference).value >= u.totalCollateralMarketReference
    ensures CollateralAfter(None, amountInMarketReference) == None
  {
  }

  // ---------------------------------------------------------------- liquidation threshold

  /** A value whose product with the total weight is the weighted sum of `x` and `y`
      (non-negative weights) lies between `x` and `y`. */
  lemma WeightedMeanBetween(c: real, a: real, x: real, y: real, m: real)
    requires c >= 0.0 && a >= 0.0 && c + a > 0.0
    requires m * (c + a) == c * x + a * y
    ensures x <= y ==> x <= m <= y
    ensures y <= x ==> y <= m <= x
  {
    if x <= y {
      assert (m - x) * (c + a) == a * (y - x);
      assert (y - m) * (c + a) == c * (y - x);
      RealOrder.NonNegativeProduct(a, y - x);
      RealOrder.NonNegativeProduct(c, y - x);
      RealOrder.ProductSign(m - x, c + a);
      RealOrder.ProductSign(y - m, c + a);
    } else {
      assert (x - m) * (c + a) == a * (x - y);
      assert (m - y) * (c + a) == c * (x - y);
      RealOrder.NonNegativeProduct(c, x - y);
      RealOrder.NonNegativeProduct(a, x - y);
      RealOrder.ProductSign(x - m, c + a);
      RealOrder.ProductSign(m - y, c + a);
    }
  }

  /** With non-negative collateral and amount, the projected threshold lies between the
      user's current threshold and the reserve's threshold; supplying nothing to an
      existing collateral base leaves the threshold unchanged. */
  lemma ThresholdAfterWithinBounds(u: User, reserve: Reserve, amountInMarketReference: real)
    requires u.totalCollateralMarketReference >= 0.0 && amountInMarketReference >= 0.0
    requires u.totalCollateralMarketReference + amountInMarketReference > 0.0
    ensures var t := LiquidationThresholdAfter(Some(u), reserve, amountInMarketReference).value;
      && (u.currentLiquidationThreshold <= reserve.liquidationThreshold ==>
            u.currentLiquidationThreshold <= t <= reserve.liquidationThreshold)
      && (reserve.liquidationThreshold <= u.currentLiquidationThreshold ==>
            reserve.liquidationThreshold <= t <= u.currentLiquidationThreshold)
      && (amountInMarketReference == 0.0 ==> t == u.currentLiquidationThreshold)
  {
    var c, a := u.totalCollateralMarketReference, amountInMarketReference;
    var x, y := u.currentLiquidationThreshold, reserve.liquidationThreshold;
    var t := LiquidationThresholdAfter(Some(u), reserve, a).value;
    WeightedMeanBetween(c, a, x, y, t);
    if a == 0.0 {
      assert (t - x) * c == 0.0;
      RealOrder.ProductSign(t - x, c);
      RealOrder.ProductSign(x - t, c);
    }
  }

  // ---------------------------------------------------------------- health factor

  /** Isolation rules decide when the health factor formula is consulted: a user
      isolated on another reserve, or a non-isolated user supplying an isolated asset,
      keeps the current health factor whatever the formula would say. */
  lemma FormulaConsultedOnlyWhenAssetCounts(u: User, reserve: Reserve, amountInMarketReference: real,
                                            f: (real, real, real) -> real, g: (real, real, real) -> real)
    requires !CountsTowardHealthFactor(u, reserve)
    ensures HealthFactorAfter(Some(u), reserve, amountInMarketReference, f)
            == HealthFactorAfter(Some(u), reserve, amountInMarketReference, g)
            == Some(u.healthFactor)
  {
  }

  /** The isolation cases spelled out: which (user, reserve) pairs recompute. */
  lemma IsolationCasesForHealthFactor(u: User, reserve: Reserve)
    ensures !u.isInIsolationMode && !reserve.isIsolated ==> CountsTowardHealthFactor(u, reserve)
    ensures !u.isInIsolationMode && reserve.isIsolated ==> !CountsTowardHealthFactor(u, reserve)
    ensures u.isInIsolationMode ==>
      (CountsTowardHealthFactor(u, reserve) <==> u.isolatedReserve == Some(reserve.underlyingAsset))
  {
  }

  /** Supplying nothing to a counting asset hands the formula the user's own current
      figures, so the health factor is kept exactly when the formula, given the
      snapshot's collateral, borrows and threshold, returns the snapshot's health factor. */
  lemma ZeroSupplyKeepsHealthFactor(u: User, reserve: Reserve, f: (real, real, real) -> real)
    requires CountsTowardHealthFactor(u, reserve)
    requires u.totalCollateralMarketReference != 0.0
    ensures HealthFactorAfter(Some(u), reserve, 0.0, f) == Some(u.healthFactor) <==>
      f(u.totalCollateralMarketReference, u.totalBorrowsMarketReference,
        u.currentLiquidationThreshold) == u.healthFactor
  {
    var t := LiquidationThresholdAfter(Some(u), reserve, 0.0).value;
    assert (t - u.currentLiquidationThreshold) * u.totalCollateralMarketReference == 0.0;
    RealOrder.ProductSign(t - u.currentLiquidationThreshold, u.totalCollateralMarketReference);
    RealOrder.ProductSign(u.currentLiquidationThreshold - t, u.totalCollateralMarketReference);
  }

  /** Without debt the projected health factor is never shown. */
  lemma DebtFreeUserSeesNoHealthFactor(user: Option<User>, reserve: Reserve)
    requires user.None? || user.value.totalBorrowsMarketReference == 0.0
    ensures !ShowHealthFactor(user, reserve)
  {
  }

  // ---------------------------------------------------------------- supply cap

  /** A zero cap never warns, and a full or exceeded positive cap does not either. */
  lemma NoSupplyCapWarningWhenUncappedOrFull(reserve: Reserve)
    ensures reserve.supplyCap == 0.0 ==> !ShowSupplyCapWarning(reserve)
    ensures reserve.supplyCap > 0.0 && reserve.totalLiquidity >= reserve.supplyCap ==> !ShowSupplyCapWarning(reserve)
  {
  }

  /** Supplying exactly the remaining headroom is allowed; anything more is blocked;
      an uncapped reserve never blocks. */
  lemma CapReachedBoundary(reserve: Reserve, amount: real)
    ensures !SupplyCapReached(reserve, reserve.supplyCap - reserve.totalLiquidity)
    ensures reserve.supplyCap == 0.0 ==> !SupplyCapReached(reserve, amount)
    ensures reserve.supplyCap != 0.0 && amount > reserve.supplyCap - reserve.totalLiquidity ==>
      SupplyCapReached(reserve, amount)
  {
  }

  // ---------------------------------------------------------------- blocking error

  /** Too little balance wins over a reached cap; with a sufficient (or unknown)
      balance the error is a reached cap exactly when the cap is reached. */
  lemma BalanceErrorTakesPrecedence(amount: real, walletBalance: Option<real>, capReached: bool)
    ensures walletBalance.Some? && amount > walletBalance.value ==>
      BlockingError(amount, walletBalance, capReached) == Some(NotEnoughBalance)
    ensures !ExceedsBalance(amount, walletBalance) ==>
      (BlockingError(amount, walletBalance, capReached) == Some(CapReached) <==> capReached)
    ensures walletBalance.None? ==> BlockingError(amount, walletBalance, capReached) != Some(NotEnoughBalance)
  {
  }

  // ---------------------------------------------------------------- isolation warning

  /** Each condition of the isolation warning is needed: dropping any one of them
      switches the warning off. */
  lemma IsolationWarningNeedsEveryCondition(u: User, reserve: Reserve, position: Option<UserReserve>)
    ensures u.isInIsolationMode ==> !ShowIsolationWarning(Some(u), reserve, position)
    ensures !reserve.isIsolated ==> !ShowIsolationWarning(Some(u), reserve, position)
    ensures (exists j :: 0 <= j < |u.userReserves| && IsDifferentCollateral(u.userReserves[j], reserve.id))
            ==> !ShowIsolationWarning(Some(u), reserve, position)
    ensures position.Some? && position.value.underlyingBalance != 0.0
            && !position.value.usageAsCollateralEnabledOnUser
            ==> !ShowIsolationWarning(Some(u), reserve, position)
    ensures position.None? ==> !ShowIsolationWarning(Some(u), reserve, position)
  {
  }

  /** A first supply to an isolated reserve by a user with no collateral in another
      reserve always warns. */
  lemma FirstIsolatedSupplyWarns(u: User, reserve: Reserve, p: UserReserve)
    requires !u.isInIsolationMode && reserve.isIsolated
    requires forall j :: 0 <= j < |u.userReserves| ==> !IsDifferentCollateral(u.userReserves[j], reserve.id)
    requires p.underlyingBalance == 0.0
    ensures ShowIsolationWarning(Some(u), reserve, Some(p))
  {
  }

  /** Under the protocol rule that a user holding an isolated asset as collateral is in
      isolation mode, the warning reduces to: a user outside isolation, no other
      collateral, and no balance yet in this isolated reserve. */
  lemma IsolationWarningMeansFirstSupply(u: User, reserve: Reserve, p: UserReserve)
    requires reserve.isIsolated
    requires p.underlyingBalance != 0.0 && p.usageAsCollateralEnabledOnUser ==> u.isInIsolationMode
    ensures ShowIsolationWarning(Some(u), reserve, Some(p)) <==>
      && !u.isInIsolationMode
      && (forall j :: 0 <= j < |u.userReserves| ==> !IsDifferentCollateral(u.userReserves[j], reserve.id))
      && p.underlyingBalance == 0.0
  {
  }

  // ---------------------------------------------------------------- whole projection

  /** A request for nothing costs nothing: no USD value, no change of collateral, a
      balance error only for a negative balance and a cap error only for a reserve
      already over its cap. No user figure has to be non-zero for this. */
  lemma ZeroRequestChangesNothing(reserve: Reserve, user: Option<User>,
                                  request: SupplyRequest, collaborators: Collaborators)
    requires RequestedAmount(request, MaxAmountFor(request, reserve, collaborators), collaborators) == 0.0
    ensures var amount := RequestedAmount(request, MaxAmountFor(request, reserve, collaborators), collaborators);
      var inReference := AmountInMarketReference(amount, reserve);
      var error := BlockingError(amount, request.walletBalance, SupplyCapReached(reserve, amount));
      && AmountInUsd(inReference, request.marketReferencePriceInUsd) == 0.0
      && (user.Some? ==> CollateralAfter(user, inReference) == Some(user.value.totalCollateralMarketReference))
      && (error == Some(NotEnoughBalance) ==> request.walletBalance.Some? && request.walletBalance.value < 0.0)
      && (error == Some(CapReached) ==> reserve.totalLiquidity > reserve.supplyCap)
  {
  }
}
