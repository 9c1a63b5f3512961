# Supply risk projection

A model of the risk projection and action gating of the supply dialog of a lending
protocol's web interface (`SupplyModalContent`). Given a reserve snapshot, an optional
user snapshot, the user's position in the reserve, the wallet balance, the price of the
market reference currency in USD and the text of the amount field, the dialog derives:

- the amount to supply, where the text `-1` means "the maximum";
- the amount's value in the market reference currency and in USD;
- the projected total collateral, liquidation threshold and health factor;
- the supply-cap near-full warning and the isolation-entry warning;
- whether the supply cap is reached, and the blocking error (`NOT_ENOUGH_BALANCE`
  before `CAP_REACHED` before none);
- whether the health factor is shown at all.

Everything is a pure function over exact `real` numbers. The absent user is an `Option`
rather than the source's `'-1'` sentinel. Three pieces of code that the dialog calls
but does not define are fields of a `Collaborators` value and stay uninterpreted:
reading decimal text (the `BigNumber` constructor), `getMaxAmountAvailableToSupply`,
and `calculateHealthFactorFromBalancesBigUnits`. The model states when each of them is
consulted and that its result is passed through unchanged.

Files:
- `wrappers.dfy`: `Option`.
- `snapshots.dfy`: `Reserve`, `UserReserve`, `User`.
- `supply_modal.dfy`: the dialog's computations and `Project`, which assembles them.
- `supply_modal_properties.dfy`: lemmas relating the computations.
- `real_order.dfy`: sign and order facts about real products and quotients.
- `unguarded_user.dfy`: the isolation warning as written, for the finding below.

Facts about the code that the lemmas make precise:
- Line 145 requires a non-zero held balance to be *enabled* as collateral.
  `IsolationWarningMeansFirstSupply` shows that, under the protocol rule that enabled
  isolated collateral puts the user in isolation mode, the warning fires only for a
  first supply.
- A user without debt still has the health factor recomputed whenever the asset counts
  (lines 114-127); `showHealthFactor` (lines 176-179) hides it. This is
  `DebtFreeUserSeesNoHealthFactor`.
- For a counting asset with non-zero collateral, a zero amount keeps the health factor
  exactly when the formula, given the snapshot's own collateral, borrows and threshold,
  returns the snapshot's health factor (`ZeroSupplyKeepsHealthFactor`). For a
  non-counting asset it is always kept (`FormulaConsultedOnlyWhenAssetCounts`).
- `ErrorType` has two members (lines 40-43): non-numeric amount text produces no error
  of its own.

## Model

| member | source | states |
|---|---|---|
| `SupplyModal.ResolveAmount` | src/components/Supply/SupplyModalContent.tsx:87-93 | the text `-1` resolves to the maximum; any other text is read as it stands |
| `SupplyModalProperties.SentinelSelectsMaximum` | src/components/Supply/SupplyModalContent.tsx:88-92 | the maximum is consulted only for the sentinel text, and the text reader only for other text |
| `SupplyModal.AmountInMarketReference` | src/components/Supply/SupplyModalContent.tsx:96-98 | a zero amount is worth zero; non-negative amount and price give a non-negative value |
| `SupplyModal.AmountInUsd` | src/components/Supply/SupplyModalContent.tsx:100 | shifting the USD amount back by `USD_DECIMALS` (8) places gives value × USD price |
| `SupplyModalProperties.UsdValueIsLinear` | src/components/Supply/SupplyModalContent.tsx:96-100 | a zero amount is worth 0 USD; the USD value of a sum of amounts is the sum of their USD values |
| `SupplyModalProperties.WorkedUsdExample` | src/components/Supply/SupplyModalContent.tsx:96-100 | 1 unit priced 2000, with the reference currency at 10^8 in an 8-decimal USD feed, is 2000 USD |
| `SupplyModal.CollateralAfter` | src/components/Supply/SupplyModalContent.tsx:101-103 | present exactly when there is a user; it exceeds the current collateral by the supplied value |
| `SupplyModalProperties.CollateralAfterGrowsWithAmount` | src/components/Supply/SupplyModalContent.tsx:101-103 | zero supply leaves collateral unchanged; non-negative supply never lowers it; no user gives none |
| `SupplyModal.LiquidationThresholdAfter` | src/components/Supply/SupplyModalContent.tsx:105-110 | present exactly when there is a user; times the projected collateral it equals C·LT_user + A·LT_reserve (a collateral-weighted mean) |
| `SupplyModalProperties.ThresholdAfterWithinBounds` | src/components/Supply/SupplyModalContent.tsx:105-110 | for non-negative inputs the projected threshold lies between LT_user and LT_reserve, and equals LT_user when A = 0 and C > 0 |
| `SupplyModal.HealthFactorAfter` | src/components/Supply/SupplyModalContent.tsx:112-127 | absent without a user; the formula's result on (projected collateral, borrows, projected threshold) when the asset counts; else the current health factor |
| `SupplyModalProperties.FormulaConsultedOnlyWhenAssetCounts` | src/components/Supply/SupplyModalContent.tsx:112-127 | when the asset does not count, any two formulas give the same result: the current health factor |
| `SupplyModalProperties.IsolationCasesForHealthFactor` | src/components/Supply/SupplyModalContent.tsx:114-119 | recomputed for non-isolated user and reserve; not for a non-isolated user on an isolated reserve; for an isolated user exactly when isolated on this asset |
| `SupplyModalProperties.ZeroSupplyKeepsHealthFactor` | src/components/Supply/SupplyModalContent.tsx:101-127 | for a counting asset with non-zero collateral, supplying nothing keeps the health factor iff the formula on the snapshot's own figures returns the snapshot's health factor |
| `SupplyModal.ShowSupplyCapWarning` | src/components/Supply/SupplyModalContent.tsx:131-135 | no warning for a zero cap; for a positive cap, warning iff 0.99·cap ≤ totalLiquidity < cap (both comparisons reversed for a negative cap) |
| `SupplyModalProperties.NoSupplyCapWarningWhenUncappedOrFull` | src/components/Supply/SupplyModalContent.tsx:131-135 | no warning for a zero cap, nor for a positive cap that is full or exceeded |
| `SupplyModal.FindDifferentCollateral` | src/components/Supply/SupplyModalContent.tsx:138-140 | finds the first position that is collateral-enabled in another reserve, and none exactly when no position is |
| `SupplyModal.ShowIsolationWarning` | src/components/Supply/SupplyModalContent.tsx:138-145 | warning iff: a user outside isolation, an isolated reserve, no collateral-enabled position in another reserve, a position here whose non-zero balance is collateral-enabled |
| `SupplyModalProperties.IsolationWarningNeedsEveryCondition` | src/components/Supply/SupplyModalContent.tsx:141-145 | each condition failing on its own (including a missing position) switches the warning off |
| `SupplyModalProperties.FirstIsolatedSupplyWarns` | src/components/Supply/SupplyModalContent.tsx:141-145 | a first supply to an isolated reserve by a non-isolated user without collateral in another reserve warns |
| `SupplyModalProperties.IsolationWarningMeansFirstSupply` | src/components/Supply/SupplyModalContent.tsx:141-145 | if enabled isolated collateral implies isolation mode, the warning means: not isolated, no other collateral, zero balance here |
| `SupplyModal.SupplyCapReached` | src/components/Supply/SupplyModalContent.tsx:148-152 | reached iff the cap is non-zero and totalLiquidity + amount exceeds it |
| `SupplyModalProperties.CapReachedBoundary` | src/components/Supply/SupplyModalContent.tsx:148-152 | exactly the remaining headroom is not blocked; anything more is; a zero cap never blocks |
| `SupplyModal.BlockingError` | src/components/Supply/SupplyModalContent.tsx:155-163 | `NotEnoughBalance` iff the amount exceeds a known balance; `CapReached` iff not that and the cap is reached; none iff neither |
| `SupplyModalProperties.BalanceErrorTakesPrecedence` | src/components/Supply/SupplyModalContent.tsx:155-163 | too little balance wins over a reached cap; an unknown balance never gives `NotEnoughBalance` |
| `SupplyModal.ShowHealthFactor` | src/components/Supply/SupplyModalContent.tsx:176-179 | shown iff there is a user with non-zero borrows and the reserve can be collateral |
| `SupplyModalProperties.DebtFreeUserSeesNoHealthFactor` | src/components/Supply/SupplyModalContent.tsx:176-179 | no user, or a user without debt, never sees the health factor |
| `SupplyModal.Project` | src/components/Supply/SupplyModalContent.tsx:81-179 | the maximum is the helper's value unchanged; the amount is the maximum for `-1` and the read text otherwise; every other field equals the piece above applied to that amount |
| `SupplyModalProperties.ZeroRequestChangesNothing` | src/components/Supply/SupplyModalContent.tsx:88-163 | for any user, a zero request is worth 0 USD, leaves collateral unchanged, is short of balance only for a negative balance, and reaches the cap only for a reserve already over it |
| `UnguardedUserReads.IsolationWarningAsWritten` | src/components/Supply/SupplyModalContent.tsx:69-145 | as written: no value exactly when there is no user (line 69 reads the user first); otherwise the same as the guarded warning |
| `UnguardedUserReads.NoUserLeavesIsolationWarningUndefined` | src/components/Supply/SupplyModalContent.tsx:101-145 | without a user the written expression has no value, while the guarded warning is off |

## Left out

- React state, effects and rendering, including the symbol-keyed advisory banners (AMPL, AAVE, SNX). These are presentation code; the AAVE banner depends on a feature flag that is not part of this model.
- Wallet, network and context plumbing, and the lookup of the reserve and the user's position by address or wrapped symbol (lines 62-74). The resolved reserve, user and position are parameters instead.
- `SupplyActions`, the transaction state and gas estimation. These are blockchain I/O.
- The bodies of `getMaxAmountAvailableToSupply`, `calculateHealthFactorFromBalancesBigUnits` and decimal-text reading. They are foreign code, kept as uninterpreted function parameters.
- BigNumber rounding on division, the float conversion of the cap ratio (`toNumber()`), and the NaN that non-numeric text produces. The model uses exact real arithmetic.
- The string comparisons against `'0'` (supply cap, total borrows, position balance) are modelled as numeric comparisons with zero. A value written as `0.0` would compare differently in the source.
- `LiquidationThresholdAfter`: requires a non-zero projected collateral. The source divides by zero there: BigNumber gives NaN when the weighted sum is also zero, and ±Infinity otherwise (a typed amount worth minus the collateral, `amount × price = −C`, with differing thresholds); that value reaches the health-factor formula. The model computes the threshold only when the health factor is recomputed; the source computes it for every user but uses it only at line 125.
- `HealthFactorAfter`: requires a non-zero projected collateral when the asset counts, because the threshold it passes to the formula divides by it. The source divides by zero there: BigNumber gives NaN when the weighted sum is also zero, and ±Infinity otherwise (a typed amount worth minus the collateral, `amount × price = −C`, with differing thresholds); that value reaches the health-factor formula.
- `Project`: requires a non-zero projected collateral when the asset counts, for the same division. The source divides by zero there: BigNumber gives NaN when the weighted sum is also zero, and ±Infinity otherwise (a typed amount worth minus the collateral, `amount × price = −C`, with differing thresholds); that value reaches the health-factor formula.
- Rendering reads the position unguarded at line 227, so with no position the dialog fails while drawing. The model keeps the falsy value of line 145 for that case and leaves rendering out.
- src/modules/reserve-overview/ReserveActions.tsx and src/components/lists/ListWrapper.tsx are not part of this model. They are display code whose only logic is a conditional maximum and a collapse toggle.

## Findings

| source | as written | input that shows it | evidently intended | confidence | as-written member | corrected member |
|---|---|---|---|---|---|---|
| src/components/Supply/SupplyModalContent.tsx:69-145 | reads `user.userReservesData` at line 69, then `user.userReservesData` and `user.isInIsolationMode` at lines 138 and 142, without the user guard used on lines 101-112, 177 and 223; line 69 is the first read to fail | no connected user (`user` undefined) | no position and no isolation warning without a user, as for the projected collateral, threshold and health factor | low: not executed; depends on whether the data context can supply no user | `UnguardedUserReads.IsolationWarningAsWritten` | `SupplyModal.ShowIsolationWarning` |
