# SyneDAO contracts: models and proofs

A Dafny model of the money and vote accounting in the SyneDAO CosmWasm contracts. Amounts are
unbounded integers with the `Uint128`, `u128`, `u64` and `u32` limits written out; `Decimal` is an
integer count of 10^-18 with floor division. A call that overflows, underflows, divides by zero or
returns an error gives `Err`, and the whole transaction leaves no trace; the few places where the
source falls back to zero instead are modelled as such.

For each contract there is a file of functions that say what storage a call leaves (`Vault`,
`Vesting`, `GaugeVoting`, `Farming`, `MultipleChoice`, `SingleChoice`, `Group`), a file with a class
that runs the call step by step on its own fields and is proved to leave that storage
(`VaultContract`, `ConverterContract`, `VestingToken`, `BToken`, `GaugeContract`, `FarmingContract`,
`MultipleChoiceContract`, `SingleChoiceContract`, `GroupContract`), and files of laws: what every run
keeps; in the files named `...Outcomes`, `...Payouts` and `Conversions`, what each call gives whom; and
in those named `...Refusals`, exactly when a call goes through.

- **bToken vault and converter** (bWYND and bLOOP; the two vaults are near copies and share one
  model). `VaultLedger` and `VaultHistory` compare the accumulator with a ledger of exact pro-rata
  shares. `Chain` runs the five contracts together: a transaction is a stack of messages, executed
  depth first. `ChainLaws`, `ChainSteps` and `ChainRuns` prove solvency, backing and the pro-rata
  bounds in every reachable state; `ParkedActions` and `ActionEquivalence` that an action parked until the
  reward is collected ends as if it had been made afterwards; `Payouts` and `Forecast` what users get.
- **Vesting token** over the curves of `packages/syne-curve-utils`. Combining two curves is *not*
  pointwise addition: interpolation truncates, so a falling segment is rounded up and the sum can be
  one too high or too low. `CurveSums` bounds the error and shows both cases; `VestingLaws` says exactly
  when locks stay within an account's funds. `CurveLimits` compares the curves with their `Uint128` arithmetic.
- **Gauge voting**: ballots, tally, sorted index and running total. A ballot that lists an option
  twice is counted once when voting and twice when the voter's power changes; `GaugeHooks` says exactly
  when the tally survives that and when the hook aborts on it: a member with such a ballot cannot leave.
  Removing an option that has votes locks its voters in.
- **Farming wrapper**: a weight accumulator per pool and token, fed by the farm's reported pending
  rewards. An unstake must leave a positive stake, so nobody can leave completely; and a token the farm
  lists late is earned by nobody who staked before until they next interact.
- **Multiple-choice proposals**: versions with their own ballots, and whole-percentage apportionment.
  Execution aborts when the missing points exceed the number of choices, which happens when voters
  spread less than their whole power. `MultipleChoiceVotes` says exactly when a vote aborts.
- **Single-choice proposals**: passing ahead of expiry, ballots, statuses, deposits. The total power is read at
  each vote while ballots keep theirs, so an abstainer who leaves the DAO can block everyone else's vote.
- **Group**: totals, diffs, uniqueness check, reads at past heights.

Assumptions about what is outside the sources are arguments or conditions of the lemmas: the staking
module pays exactly the reward it reports and then reports none; the farm pays exactly what it
reported and keeps its token list; upstream gauges, voting powers and the clock are arbitrary inputs,
with time not going back.

Where the code and its surroundings disagree the model follows the code: `execute_update_config` of
the vaults does not save, so fees and wallets stay as instantiated; the treasury and syne withdrawals
require a caller that never calls; `get_execution_message` emits an empty list when the floors already
add to a hundred; `execute` and `reject` advance the proposal version without saving the proposal;
bLOOP conversion mints the waiting reward without claiming it.

## Model

| member | source | states |
|---|---|---|
| `VaultLedger.DistributionStep` | contracts/bloop-vault/src/contract.rs:567-590 | a distribution moves exactly the floored fees into the treasury and syne accounts and raises `power` by the floor of the net reward per staked token; the scaled decimals cancel |
| `VaultLedger.SettlementStep` | contracts/bloop-vault/src/contract.rs:592-613 | a settlement pays the floor of the open earnings and less than one token is lost, or nothing when the product overflows |
| `VaultLedger.OpKeepsBooks` | contracts/bloop-vault/src/contract.rs:567-667 | every storage operation keeps: stakes add up to the total, no `power_diff` ahead of `power`, and what is owed grows by at most what came in less what went out |
| `VaultLedger.LiabilityCoversStakes` | contracts/bloop-vault/src/contract.rs:567-667 | the liability includes all staked tokens and fees in full |
| `VaultHistory.StakesAreDeposits` | contracts/bloop-vault/src/contract.rs:615-667 | over a whole run the stake fields equal the deposits and redemptions added up, and the books hold at every point |
| `VaultHistory.AccumulatorRefinesProRata` | contracts/bloop-vault/src/contract.rs:567-667 | over every run, rewards received plus rewards pending never exceed the exact pro-rata entitlement, and fall short by less than one token per settlement plus 10^-18 per staked token per distribution |
| `VaultContract.Storage.UpdateTotalRewards` | contracts/bloop-vault/src/contract.rs:567-590 | the in-place update leaves exactly the specified fee accounts and accumulator and fails exactly when the specification does |
| `VaultContract.Storage.UpdateRewards` | contracts/bloop-vault/src/contract.rs:592-613 | settles one entry in place and returns the reward the specification releases |
| `VaultContract.Storage.AddStake` | contracts/bloop-vault/src/contract.rs:615-640 | settles and raises one entry and the total, with the zero fallbacks of the source |
| `VaultContract.Storage.RemoveStake` | contracts/bloop-vault/src/contract.rs:642-667 | settles and lowers one entry and the total, with the zero fallbacks of the source |
| `VaultContract.Storage.UpdateTreasuryAmounts` | contracts/bloop-vault/src/contract.rs:669-685 | only the converter may take treasury fees, and no more than are there |
| `VaultContract.Storage.UpdateSyneStakingAmounts` | contracts/bloop-vault/src/contract.rs:687-703 | only the converter may take syne fees, and no more than are there |
| `VaultContract.Storage.ExecuteStake` | contracts/bloop-vault/src/contract.rs:196-252 | parks when a reward waits, otherwise stakes and pays; storage and messages as specified |
| `VaultContract.Storage.ExecuteWithdrawRewards` | contracts/bloop-vault/src/contract.rs:254-302 | parks when a reward waits, otherwise settles and pays, even a zero reward |
| `VaultContract.Storage.ExecuteDistributeUserRewards` | contracts/bloop-vault/src/contract.rs:416-444 | settles the user and pays a positive reward |
| `VaultContract.Storage.ExecuteDistributeRewards` | contracts/bloop-vault/src/contract.rs:446-565 | distributes, then finishes the named or parked action and clears it |
| `VaultContract.Storage.ExecuteUnstake` | contracts/bloop-vault/src/contract.rs:705-772 | refuses zero and more than the stake; parks or pays stake and reward |
| `VaultContract.Storage.ExecuteWithdrawTreasury` | contracts/bloop-vault/src/contract.rs:304-358 | the caller check, parking and payment of the treasury withdrawal as specified |
| `VaultContract.Storage.ExecuteWithdrawSyne` | contracts/bloop-vault/src/contract.rs:360-414 | the parking and payment of the syne withdrawal as specified |
| `ConverterContract.Converter.ExecuteConvertToken` | contracts/bwynd-converter-and-staker/src/contract.rs:237-365 | for every queried state, the pushed messages are those of the conversion: stake, mint, then collect and distribute or settle |
| `ConverterContract.Converter.ExecuteWithdrawRewards` | contracts/bloop-converter-and-staker/src/contract.rs:335-387 | for every queried state, the pushed messages collect the waiting reward, mint it and hand it to the vault |
| `BToken.TransferConserves` | contracts/cw20-base/src/contract.rs:239-267 | a transfer succeeds exactly when the balance suffices, keeps the supply, and moves exactly the amount |
| `BToken.MintConserves` | contracts/cw20-base/src/contract.rs:296-339 | a mint succeeds exactly for the minter below overflow and keeps balances adding up to the supply |
| `BToken.BurnConserves` | contracts/cw20-base/src/contract.rs:269-294 | a burn succeeds exactly when the balance suffices and keeps balances adding up to the supply |
| `BToken.Token.ExecuteTransfer` | contracts/cw20-base/src/contract.rs:239-267 | the two in-place updates give the specified ledger and fail exactly when it does |
| `BToken.Token.ExecuteMint` | contracts/cw20-base/src/contract.rs:296-339 | the in-place mint gives the specified ledger and fails exactly when it does |
| `BToken.Token.ExecuteBurn` | contracts/cw20-base/src/contract.rs:269-294 | the in-place burn gives the specified ledger and fails exactly when it does |
| `Chain.ExecLightens` | contracts/bwynd-converter-and-staker/src/contract.rs:237-418 | every message causes only lighter ones, so a transaction of the mutually calling contracts ends |
| `ChainSteps.EveryMessageSteps` | contracts/bloop-vault/src/contract.rs:174-565 | each of the eighteen message kinds, in the middle of any transaction, keeps recording, coverage, backing and the promise to finish a parked action |
| `ChainRuns.RunKeeps` | contracts/bloop-vault/src/contract.rs:196-565 | a message stack that runs to its end leaves the invariant with nothing promised |
| `ChainRuns.VaultIsSolvent` | contracts/bloop-vault/src/contract.rs:196-772 | in every reachable state: nothing is parked, stakes add up, and the vault balance covers stakes, fees and all unpaid rewards |
| `ChainRuns.EveryHistoryIsProRata` | contracts/bloop-vault/src/contract.rs:567-667 | in every history the stake fallbacks are never taken and the pro-rata bounds hold for every staker |
| `ChainRuns.BwyndIsBacked` | contracts/bwynd-converter-and-staker/src/contract.rs:237-418 | in every history bWYND supply plus all bWYND burned equals the WYND the converter has delegated |
| `ParkedActions.ParkedIsCollectThenFinish` | contracts/bloop-vault/src/contract.rs:446-565 | for any action: parking it and collecting gives the same world, or the same failure, as collecting first and finishing the action afterwards |
| `ActionEquivalence.StakeParkedIsDirect` | contracts/bloop-vault/src/contract.rs:196-252 | a stake that has to collect first equals collecting and then staking, state for state |
| `ActionEquivalence.UnstakeParkedIsDirect` | contracts/bloop-vault/src/contract.rs:705-772 | an unstake that has to collect first equals collecting and then unstaking, state for state |
| `ActionEquivalence.WithdrawParkedIsDirect` | contracts/bloop-vault/src/contract.rs:254-302 | a withdrawal that has to collect first equals collecting and then withdrawing, up to ledger entries that are zero |
| `ActionEquivalence.TreasuryWithdrawalAborts` | contracts/bloop-vault/src/contract.rs:304-358 | no call can take the treasury fees: nobody is the withdrawer |
| `ActionEquivalence.SyneWithdrawalAborts` | contracts/bloop-vault/src/contract.rs:360-414 | no call but the converter's can take the syne fees, directly or parked; the transaction aborts |
| `Forecast.ForecastBounds` | contracts/bloop-vault/src/contract.rs:853-877 | the reward settled after distributing what waits is at least the query minus one token per 10^18 staked (rounded up) and at most the query plus three |
| `Forecast.ForecastAgainstPayout` | contracts/bloop-vault/src/contract.rs:254-302 | the same bounds for what a withdrawal adds to the user's balance in the parked path |
| `Payouts.UnstakePaysOut` | contracts/bloop-vault/src/contract.rs:705-772 | end to end: an unstake pays the amount and all owed reward, lowers stake and total by the amount, and restarts the earnings |
| `Payouts.StakePaysOut` | contracts/bloop-vault/src/contract.rs:196-252 | end to end: a stake takes the amount, pays all owed reward, raises stake and total by the amount |
| `Payouts.WithdrawPaysOut` | contracts/bloop-vault/src/contract.rs:254-302 | end to end: a withdrawal pays all owed reward, leaves the stake, and restarts the earnings |
| `Conversions.ConvertPaysOut` | contracts/bwynd-converter-and-staker/src/contract.rs:237-365 | end to end: a conversion gives the sender exactly as many bTokens as were sent plus all owed reward once what waits is distributed, leaves the stake, and restarts the earnings |
| `Conversions.ConvertDelegates` | contracts/bwynd-converter-and-staker/src/contract.rs:269-338 | end to end, for bWYND: the tokens sent leave the user and, with the waiting reward, are delegated for the converter; nothing waits afterwards |
| `VaultRefusals.UnstakesExactly` | contracts/bloop-vault/src/contract.rs:705-772 | stakers can leave: in every lawful state an unstake goes through exactly for a positive amount up to the stake, if the waiting reward can be collected and the stake is below 2^128 / 10^18; solvency makes the payments succeed |
| `VaultRefusals.StakesExactly` | contracts/bloop-vault/src/contract.rs:196-252 | a stake goes through exactly when the user holds the amount, under the same two conditions |
| `VaultRefusals.WithdrawsExactly` | contracts/bloop-vault/src/contract.rs:254-302 | a reward withdrawal goes through exactly under the same two conditions |
| `Curves.PiecewiseValue` | packages/syne-curve-utils/src/curve.rs:270-302 | the scan over the steps finds the broken line's value at every time |
| `Curves.Classify` | packages/syne-curve-utils/src/curve.rs:343-360 | the one-pass classification is the fold over neighbouring heights |
| `CurveLaws.DecreasingMeansNeverRises` | packages/syne-curve-utils/src/curve.rs:333-340 | the decreasing test accepts exactly the curves whose value never rises |
| `CurveLaws.ValueFalls` | packages/syne-curve-utils/src/curve.rs:74-80 | an accepted decreasing curve never rises between two times, truncation included |
| `CurveLaws.ValueRises` | packages/syne-curve-utils/src/curve.rs:74-80 | an accepted increasing curve never falls between two times, truncation included |
| `CurveLaws.WithinRange` | packages/syne-curve-utils/src/curve.rs:129-135 | every value of any valid curve lies between the two ends of the reported range |
| `CurveLaws.RangeIsTight` | packages/syne-curve-utils/src/curve.rs:129-135 | both ends of the reported range are taken as values |
| `CurveLimits.ComputableExactly` | packages/syne-curve-utils/src/curve.rs:249-255 | a curve can be evaluated at every time without `Uint128` overflow exactly when no segment's height times its longest run overflows; it then gives the unbounded values |
| `CurveLimits.SmallSumsCombine` | packages/syne-curve-utils/src/curve.rs:138-176 | curves whose largest values together stay below 2^64 have a combination that can be computed and evaluated |
| `CurveSums.CombineIsSumWithinOne` | packages/syne-curve-utils/src/curve.rs:154-176 | the combined curve is the pointwise sum to within one unit, at every time |
| `CurveSums.SumCanExceed` | packages/syne-curve-utils/src/curve.rs:370-388 | a pair of curves whose combination is one more than the pointwise sum |
| `CurveSums.SumCanFallShort` | packages/syne-curve-utils/src/curve.rs:370-388 | a pair of curves whose combination is one less than the pointwise sum |
| `CurveSums.EvalNearLine` | packages/syne-curve-utils/src/curve.rs:270-302 | at every time the value is the broken line through the steps, rising or falling, but for less than one unit |
| `VestingLaws.StepKeeps` | contracts/cw20-vesting/src/contract.rs:297-448 | every operation keeps balances adding up to the supply, the supply under the cap, and each lock within its allowed excess |
| `VestingLaws.StepKeepsLockExactly` | contracts/cw20-vesting/src/state.rs:54-85 | one call breaks a lock exactly when an account locked to its last token receives, from somebody else, tokens under a schedule that has not begun to vest, and the combined curve rounds one above the sum |
| `VestingLaws.LockSafetyExactly` | contracts/cw20-vesting/src/contract.rs:327-382 | throughout a run locks stay within funds exactly when no call in it is of that kind |
| `VestingLaws.RunKeepsLocks` | contracts/cw20-vesting/src/contract.rs:297-781 | in every run a lock exceeds what the account holds and has delegated by at most the number of schedules merged since it last paid |
| `VestingLaws.TokenLaws` | contracts/cw20-vesting/src/contract.rs:106-219 | from instantiation on: balances add up to the supply, the supply is under the cap at every later time, locks within their excess |
| `VestingLaws.LockCanExceedFunds` | contracts/cw20-vesting/src/contract.rs:327-382 | a concrete run after which seven tokens are locked and six owned |
| `VestingOutcomes.CallMovesTokens` | contracts/cw20-vesting/src/contract.rs:297-781 | every call moves exactly its amount between exactly the accounts it names: balances, delegations and supply of every account |
| `VestingOutcomes.CallMovesAllowance` | contracts/cw20-vesting/src/allowances.rs:14-171 | allowances rise by what is granted and fall by what is spent, for that owner and spender only |
| `VestingOutcomes.CallMovesLocks` | contracts/cw20-vesting/src/contract.rs:327-382 | after any call the lock on any account, now and later, is the old one, unless live tokens arrive: then the schedule alone where there was no lock, or combined with it |
| `VestingOutcomes.PayersKeepTheirLock` | contracts/cw20-vesting/src/state.rs:54-85 | a payment that goes through leaves at least the locked amount, held or delegated |
| `VestingOutcomes.ReceivedStaysLocked` | contracts/cw20-vesting/src/contract.rs:351-363 | tokens received under a first schedule stay locked: a later payment that leaves less than the schedule then locks is refused |
| `VestingOutcomes.InstantiateOutcome` | contracts/cw20-vesting/src/contract.rs:186-219 | instantiation gives every listed account its amount and its live schedule, and nobody else anything |
| `VestingRefusals.GoesThroughExactly` | contracts/cw20-vesting/src/contract.rs:297-781 | for every call: it goes through exactly when its caller may make it, its amounts fit, and what the payer keeps, held or delegated, covers the lock; crediting never overflows and burning never runs out of supply |
| `VestingToken.Token.CreateAccounts` | contracts/cw20-vesting/src/contract.rs:186-219 | the loop over the initial accounts gives the specified storage, and fails exactly for repeated addresses or a row that fails |
| `VestingToken.Token.Instantiate` | contracts/cw20-vesting/src/contract.rs:106-184 | on empty storage: succeeds exactly when the cap curve is accepted and growing, the accounts can be created and the supply is under the cap, with the specified storage |
| `VestingToken.Token.DeductCoins` | contracts/cw20-vesting/src/state.rs:54-85 | the in-place deduction, with the spent lock forgotten, is the specified one |
| `VestingToken.Token.Transfer` | contracts/cw20-vesting/src/contract.rs:297-325 | the in-place transfer is the specified one; zero amounts are refused |
| `VestingToken.Token.TransferVesting` | contracts/cw20-vesting/src/contract.rs:327-382 | the in-place vesting transfer checks the allow list and schedule, merges, and moves as specified |
| `VestingToken.Token.Burn` | contracts/cw20-vesting/src/contract.rs:384-408 | the in-place burn is the specified one |
| `VestingToken.Token.Mint` | contracts/cw20-vesting/src/contract.rs:410-448 | the in-place mint checks the minter and the cap of the moment as specified |
| `VestingToken.Token.UpdateStakingAddress` | contracts/cw20-vesting/src/contract.rs:661-684 | the staking address is set once, by the minter |
| `VestingToken.Token.Delegate` | contracts/cw20-vesting/src/contract.rs:686-734 | the in-place delegation moves the tokens to the staking address and counts them for the owner |
| `VestingToken.Token.Undelegate` | contracts/cw20-vesting/src/contract.rs:736-781 | the in-place undelegation, open to the staking address only, is the specified one |
| `VestingToken.Token.DeductAllowance` | contracts/cw20-vesting/src/allowances.rs:85-109 | an expired or too small allowance is refused, otherwise it is lowered |
| `VestingToken.Token.TransferFrom` | contracts/cw20-vesting/src/allowances.rs:111-141 | the allowance is used and the transfer made as specified |
| `VestingToken.Token.BurnFrom` | contracts/cw20-vesting/src/allowances.rs:143-171 | the allowance is used and the burn made as specified |
| `GaugeTally.UpdateAgrees` | contracts/synergistic_wynd_gauge/src/state.rs:360-392 | after any update that does not abort the index holds exactly one entry per option with its count and the total is the sum of the tally |
| `GaugeTally.RemoveAgrees` | contracts/synergistic_wynd_gauge/src/state.rs:338-354 | removing an option never aborts on agreeing maps and leaves them agreeing |
| `GaugeTally.OrderDoesNotMatter` | contracts/synergistic_wynd_gauge/src/contract.rs:540-574 | visiting the hash map of changes in any two orders gives the same storage or the same failure |
| `GaugeTally.ListingFits` | contracts/synergistic_wynd_gauge/src/state.rs:360-392 | whether the update aborts depends on the map of changes alone |
| `GaugeSelection.IndexRefinesSort` | contracts/synergistic_wynd_gauge/src/contract.rs:864-902 | reading the index backwards equals sorting any listing of the tally by points and name, highest first |
| `GaugeSelection.SelectionIsBest` | contracts/synergistic_wynd_gauge/src/contract.rs:864-902 | winners are eligible options of the tally; an eligible option left out means the set is full of options ranked above it |
| `GaugeSelection.SelectedWithinTotal` | contracts/synergistic_wynd_gauge/src/contract.rs:864-902 | the selected powers, cut or not, sum to at most the total cast |
| `GaugeSelection.WeightsNearOne` | contracts/synergistic_wynd_gauge/src/contract.rs:644-660 | normalised weights add to at most one and miss it by less than one unit of 10^-18 per option |
| `GaugeSelection.NormaliseAborts` | contracts/synergistic_wynd_gauge/src/contract.rs:644-660 | normalising aborts exactly when something is selected and every selected power is zero |
| `GaugeBallots.CastWithinPower` | contracts/synergistic_wynd_gauge/src/contract.rs:510-515 | a ballot that passed the weight check counts for no more than the voter's power |
| `GaugeBallots.DiffEntries` | contracts/synergistic_wynd_gauge/src/contract.rs:540-556 | the hash map of changes is, option by option, the new ballot's points against the old one's, last listing counting |
| `GaugeBallots.RevoteKeepsLaw` | contracts/synergistic_wynd_gauge/src/contract.rs:516-597 | any vote or re-vote, repeated options included, keeps tally, index and total equal to the ballots added up |
| `GaugeOutcomes.GivenIsWholeShare` | contracts/synergistic_wynd_gauge/src/contract.rs:540-556 | a ballot is worth to an option the whole part of its power times the last weight listed for it |
| `GaugeOutcomes.UnlistedIsNothing` | contracts/synergistic_wynd_gauge/src/contract.rs:540-556 | a ballot is worth nothing to an option it does not list |
| `GaugeOutcomes.VoteMovesTally` | contracts/synergistic_wynd_gauge/src/contract.rs:516-597 | a vote is stored as cast and moves each option of that gauge by what the new ballot is worth less what the old one was |
| `GaugeOutcomes.AddOptionOutcome` | contracts/synergistic_wynd_gauge/src/contract.rs:381-438 | an option is added, without points, exactly when it is accepted and not there yet; nothing else changes |
| `GaugeOutcomes.RemoveOptionOutcome` | contracts/synergistic_wynd_gauge/src/contract.rs:311-334 | only the owner removes, only an option that is there; its points leave the total and all others stay |
| `GaugeHooks.ReweighKeepsLawExactly` | contracts/synergistic_wynd_gauge/src/contract.rs:108-164 | a truthful change of power that goes through keeps the books exactly when every listing of an option that is listed again has the same points under both powers |
| `GaugeHooks.StaleReweighKeepsLawExactly` | contracts/synergistic_wynd_gauge/src/contract.rs:108-164 | an untruthful change on a ballot without repetitions keeps the books exactly when no vote's points tell the stated power from the stored one |
| `GaugeHooks.DriftsExactlyWhenUnsteady` | contracts/synergistic_wynd_gauge/src/contract.rs:134-158 | adding up all listings moves as the ballot's worth does exactly when no superseded listing changes its points |
| `GaugeHooks.ReweighingFitsExactly` | contracts/synergistic_wynd_gauge/src/state.rs:360-392 | while the numbers fit, a ballot takes on a new power without abort exactly when every option holds what the ballot's listings would take from it |
| `GaugeHooks.ReweighAllFitsExactly` | contracts/synergistic_wynd_gauge/src/contract.rs:123-164 | the hook's work for a member goes through exactly when every gauge it reaches exists and can bear that |
| `GaugeHooks.HookNeverAborts` | contracts/synergistic_wynd_gauge/src/contract.rs:108-164 | while summed powers fit, a hook call with truthful changes to ballots without repetitions never aborts, and leaves the books kept |
| `GaugeHooks.RepeatedOptionDrifts` | contracts/synergistic_wynd_gauge/src/contract.rs:134-158 | an option listed twice makes a doubling of power drift |
| `GaugeHooks.MembersChangedKeepsLaw` | contracts/synergistic_wynd_gauge/src/contract.rs:108-164 | a hook call that goes through keeps the books when each diff carries the stored power and ballots list options once |
| `GaugeHooks.HookReachesAll` | contracts/synergistic_wynd_gauge/src/contract.rs:123-125 | after a hook call that goes through, a voter on at most a hundred gauges has every ballot at the new power |
| `GaugeRuns.TruthfulHookGoesThrough` | contracts/synergistic_wynd_gauge/src/contract.rs:108-164 | after any orderly run, truthful changes of power go through while the powers fit |
| `GaugeRuns.IndexAlwaysAgrees` | contracts/synergistic_wynd_gauge/src/state.rs:338-392 | after any calls whatsoever, truthful or not, the index holds exactly one entry per option with its count, totals are the tally summed, and every ballot is on an attached gauge |
| `GaugeRuns.SoleHookExactly` | contracts/synergistic_wynd_gauge/src/contract.rs:108-164 | a gauge's only voter can change power exactly when what its replaced listings held is still listed under the new power |
| `GaugeRuns.LeavingAborts` | contracts/synergistic_wynd_gauge/src/contract.rs:108-164 | a run from the empty contract after which a member who listed an option twice cannot leave: the truthful hook call aborts |
| `GaugeRuns.RevoteNeverUnderflows` | contracts/synergistic_wynd_gauge/src/contract.rs:516-597 | while the summed power fits, a vote is refused exactly by its own checks: no subtraction can go below zero |
| `GaugeRuns.RemovedOptionLocks` | contracts/synergistic_wynd_gauge/src/contract.rs:311-334 | after an option with votes was removed, its voters cannot lower them any more |
| `GaugeRuns.RemovalLocksVoter` | contracts/synergistic_wynd_gauge/src/contract.rs:311-334 | a run from the empty contract in which the owner removes a voted option and its voter can no longer withdraw |
| `GaugeRuns.RemoveKeepsLawExactly` | contracts/synergistic_wynd_gauge/src/contract.rs:311-334 | removing an option keeps the books exactly when its tally is zero |
| `GaugeRuns.TallyFollowsBallots` | contracts/synergistic_wynd_gauge/src/contract.rs:108-597 | in every state an orderly run reaches, tallies are the ballots added up, index and totals agree, and no gauge has more cast than its voters have power |
| `GaugeRuns.ExecutedWeights` | contracts/synergistic_wynd_gauge/src/contract.rs:614-674 | the emitted votes pass the total-weight guard and add to one but for less than a unit each |
| `GaugeOutcomes.ExecuteOutcome` | contracts/synergistic_wynd_gauge/src/contract.rs:614-674 | the best options by points and name are saved in order, each with its own points cut by the cap, and voted for under its own name with the floor of its own part of their sum; the epoch is recorded and the next one set |
| `GaugeOutcomes.SelectedIsBest` | contracts/synergistic_wynd_gauge/src/contract.rs:864-902 | the selection holds options of the tally that reach the minimum, ranked, each cut by the cap to the last whole point; one that reaches it is left out only by a full set ranked above |
| `GaugeOutcomes.MissedEpochClosed` | contracts/synergistic_wynd_gauge/src/contract.rs:490-508 | a vote that finds an epoch missed first records it, not executed, with the selection of that moment |
| `GaugeRuns.ExecuteAbortsExactly` | contracts/synergistic_wynd_gauge/src/contract.rs:614-674 | a pending, running gauge fails to execute exactly when it has winners and all of them are cut to nothing |
| `GaugeRuns.CutToNothing` | contracts/synergistic_wynd_gauge/src/contract.rs:886-896 | a winner is cut to nothing exactly when its share is above a cap worth less than one vote of the total |
| `GaugeContract.Storage.UpdateTallies` | contracts/synergistic_wynd_gauge/src/state.rs:360-392 | the loop with its running sums gives the specified storage and fails exactly when it does |
| `GaugeContract.Storage.RemoveTally` | contracts/synergistic_wynd_gauge/src/state.rs:338-354 | the in-place removal is the specified one |
| `GaugeContract.Storage.VotesByVoter` | contracts/synergistic_wynd_gauge/src/state.rs:258-277 | the iteration yields the first hundred gauges by id |
| `GaugeContract.Storage.SelectedSet` | contracts/synergistic_wynd_gauge/src/contract.rs:864-902 | the walk down the index takes exactly the specified options and stops when enough are taken |
| `GaugeContract.Storage.Normalise` | contracts/synergistic_wynd_gauge/src/contract.rs:644-660 | summing and dividing in loops gives the specified ratios |
| `GaugeContract.Storage.BuildDiff` | contracts/synergistic_wynd_gauge/src/contract.rs:540-556 | the two loops over old and new votes build the specified map |
| `GaugeContract.Storage.MemberChanged` | contracts/synergistic_wynd_gauge/src/contract.rs:108-164 | the nested loops over diffs and gauges give the specified storage |
| `GaugeContract.Storage.PlaceVotes` | contracts/synergistic_wynd_gauge/src/contract.rs:468-597 | with the hash map visited in an unspecified order, the storage is the specified one |
| `GaugeContract.Storage.UpdateEpoch` | contracts/synergistic_wynd_gauge/src/contract.rs:599-612 | the epoch is recorded under its number, counted up, and the next one set |
| `GaugeContract.Storage.Execute` | contracts/synergistic_wynd_gauge/src/contract.rs:614-674 | checks, selection, saved set and epoch as specified |
| `FarmingLaws.GrowKeeps` | contracts/loopswap_farming/src/contract.rs:1263-1340 | a reward arriving for one token promises no more to its stakers than it is, and leaves other tokens alone |
| `FarmingLaws.StakeTokenKeeps` | contracts/loopswap_farming/src/contract.rs:1263-1390 | one token of a stake keeps every token's books |
| `FarmingLaws.PayTokenKeeps` | contracts/loopswap_farming/src/contract.rs:1500-1575 | one token of a payout keeps every token's books |
| `FarmingLaws.SplitIsExact` | contracts/loopswap_farming/src/contract.rs:1545-1556 | a settlement is split into share and fee with nothing lost |
| `FarmingLaws.FeeRoundsUp` | contracts/loopswap_farming/src/contract.rs:1545-1551 | the fee is the exact rate of the settlement rounded up |
| `FarmingPayouts.ClaimPaysOut` | contracts/loopswap_farming/src/contract.rs:1611-1736 | a claim, token by token: the weight rises by the floor of the reward per staked token, the claim is settled to its whole tokens, the fee is its exact rate of that rounded up and the user gets the rest; stakes, other users and other tokens stay |
| `FarmingPayouts.UnstakePaysOut` | contracts/loopswap_farming/src/contract.rs:1428-1609 | an unstake pays out the same way and takes exactly the amount from stake and total |
| `FarmingPayouts.StakeBanks` | contracts/loopswap_farming/src/contract.rs:1223-1426 | a stake pays nothing out: it keeps what the user has earned, in whole tokens, and raises stake and total by the amount |
| `FarmingPayouts.CallCreditsTreasury` | contracts/loopswap_farming/src/contract.rs:1545-1575 | what a payout withholds from the user is what the shared treasury gains |
| `FarmingRefusals.ClaimsExactly` | contracts/loopswap_farming/src/contract.rs:1611-1736 | while the numbers fit the 18 decimals, a claim goes through exactly when somebody is staked and every distributed token has not fallen, and has grown if it was listed last time |
| `FarmingRefusals.UnstakesExactly` | contracts/loopswap_farming/src/contract.rs:1428-1609 | under the same bounds an unstake goes through exactly for less than the stake, while no report has fallen |
| `FarmingRefusals.StakesExactly` | contracts/loopswap_farming/src/contract.rs:1223-1426 | under the same bounds a stake goes through exactly while no report has fallen and the total fits |
| `FarmingRuns.StakeKeeps` | contracts/loopswap_farming/src/contract.rs:1223-1426 | a stake keeps settled rewards plus open claims within the credited rewards, and credited rewards accounted for |
| `FarmingRuns.UnstakeKeeps` | contracts/loopswap_farming/src/contract.rs:1428-1609 | an unstake keeps the same, changing stake and total by the amount |
| `FarmingRuns.ClaimKeeps` | contracts/loopswap_farming/src/contract.rs:1611-1736 | a claim keeps the same |
| `FarmingRuns.FarmingIsSolvent` | contracts/loopswap_farming/src/contract.rs:1223-1736 | over every run against a fair farm, in every pool and token: settled plus claimable is within credited, credited is received or pending, splits are exact, settled is covered by received, the treasury is the sum of the fees |
| `FarmingShortfalls.RewardsReachStakers` | contracts/loopswap_farming/src/contract.rs:1223-1736 | over every run against a fair farm with a steady list, settled rewards and open claims reach the credited rewards but for one unit per staked token and one token in each call, and for rewards that arrive while nobody is staked |
| `FarmingShortfalls.LateTokenIsLost` | contracts/loopswap_farming/src/contract.rs:1500-1549 | a reward in a token nobody has an entry for is credited in full and claimable by nobody |
| `FarmingRuns.NobodyLeaves` | contracts/loopswap_farming/src/contract.rs:1456-1458 | unstaking demands more stake than it takes, so whoever has staked keeps a positive stake forever |
| `FarmingContract.Storage.CurrentReward` | contracts/loopswap_farming/src/contract.rs:1270-1277 | the loop over earlier figures takes them off, strictly growing for a claim |
| `FarmingContract.Storage.HandleStakeReply` | contracts/loopswap_farming/src/contract.rs:1223-1426 | the reply's loop over tokens and the new stakes as specified from the stored call |
| `FarmingContract.Storage.HandleUnstakeAndClaimReply` | contracts/loopswap_farming/src/contract.rs:1428-1609 | the reply's loop, payout and lowered stakes as specified from the stored call |
| `FarmingContract.Storage.HandleClaimRewardReply` | contracts/loopswap_farming/src/contract.rs:1611-1736 | the reply's loop and payout as specified from the stored call |
| `Apportionment.SortSorts` | contracts/syneswap_loop_multiple_choice_proposal/src/proposal.rs:287-287 | the sort gives the same entries, highest percentage first |
| `Apportionment.SortIsStable` | contracts/syneswap_loop_multiple_choice_proposal/src/proposal.rs:287-287 | entries with equal percentages keep their order |
| `Apportionment.EmittedSumsToHundred` | contracts/syneswap_loop_multiple_choice_proposal/src/proposal.rs:274-306 | a list that is emitted and not empty has percentages adding to exactly a hundred |
| `Apportionment.EmittedIsApportioned` | contracts/syneswap_loop_multiple_choice_proposal/src/proposal.rs:274-306 | taking the extra points off gives back every choice with its floor, each once, and the points went to the smallest floors |
| `Apportionment.EmittedEmptyExactly` | contracts/syneswap_loop_multiple_choice_proposal/src/proposal.rs:285-295 | the emitted list is empty exactly when the floors already reach a hundred |
| `Apportionment.AbortsExactly` | contracts/syneswap_loop_multiple_choice_proposal/src/proposal.rs:288-293 | with powers within the total, the pop loop runs out exactly when the missing points exceed the number of choices |
| `Apportionment.FullPowerNeverAborts` | contracts/syneswap_loop_multiple_choice_proposal/src/proposal.rs:288-293 | when all power is spread over the choices the pop loop never runs out |
| `Apportionment.ThinVoteAborts` | contracts/syneswap_loop_multiple_choice_proposal/src/proposal.rs:288-293 | one vote of a hundred on a single choice runs the pop loop out |
| `Apportionment.GetExecutionVotes` | contracts/syneswap_loop_multiple_choice_proposal/src/proposal.rs:274-306 | the loops over vectors with sort, pop and append give the specified list or failure |
| `MultipleChoiceLaws.VoteLandsInOneVersion` | contracts/syneswap_loop_multiple_choice_proposal/src/contract.rs:578-733 | whatever happened before, a vote that goes through is counted in powers that are the ballot sums of the version it is stored under |
| `MultipleChoiceLaws.ExecuteKeeps` | contracts/syneswap_loop_multiple_choice_proposal/src/contract.rs:301-473 | executing and rejecting, the unsaved rollover included, leave a proposal that takes no vote before rolling over |
| `MultipleChoiceLaws.AddKeepsExactly` | contracts/syneswap_loop_multiple_choice_proposal/src/contract.rs:475-524 | adding pools keeps powers and ballots together exactly when each is new and has no votes in this version |
| `MultipleChoiceLaws.ReaddedPoolLocks` | contracts/syneswap_loop_multiple_choice_proposal/src/contract.rs:526-552 | a pool removed and added again in a version can no longer be voted for by those who had |
| `MultipleChoiceVotes.PoolThatComesBackLocks` | contracts/syneswap_loop_multiple_choice_proposal/src/contract.rs:475-552 | on every fresh open proposal: vote, removal and re-adding of the pool, after which the voter's vote for it aborts at any percentage |
| `MultipleChoiceLaws.NoUnderflow` | contracts/syneswap_loop_multiple_choice_proposal/src/proposal.rs:142-144 | while powers are ballot sums, taking back a ballot cannot underflow its choice |
| `MultipleChoiceVotes.VoteExactly` | contracts/syneswap_loop_multiple_choice_proposal/src/contract.rs:578-733 | in every lawful state a vote goes through exactly when it is allowed now, its percentages fit, each item names a choice and says something new, and the ballots its items replace in turn do not outweigh the total power |
| `MultipleChoiceVotes.DistinctVoteNeverUnderflows` | contracts/syneswap_loop_multiple_choice_proposal/src/contract.rs:649-719 | a vote that names each pool once is refused only by its own checks |
| `MultipleChoiceVotes.TwiceNamedUnderflows` | contracts/syneswap_loop_multiple_choice_proposal/src/contract.rs:649-719 | the first vote on any proposal, naming one pool twice, aborts: the total is lowered before it is raised |
| `MultipleChoiceOutcomes.VoteOutcome` | contracts/syneswap_loop_multiple_choice_proposal/src/contract.rs:578-733 | each item is stored as the voter's ballot with the whole part of its percentage of the power, its choice moves by the new ballot less the replaced one, other choices and ballots stay, and the total moves by the power less what was replaced, on this version or a fresh next one |
| `MultipleChoiceLaws.VersionsStayApart` | contracts/syneswap_loop_multiple_choice_proposal/src/contract.rs:301-733 | the law of versions, ballots and totals holds in every state an orderly run reaches |
| `MultipleChoiceLaws.ExecutedListIsApportioned` | contracts/syneswap_loop_multiple_choice_proposal/src/contract.rs:301-374 | in every such state the emitted list, if not empty, has one entry per choice and adds to a hundred |
| `MultipleChoiceOutcomes.ExecuteOutcome` | contracts/syneswap_loop_multiple_choice_proposal/src/contract.rs:301-374 | a list that is sent names each choice's own pool with its percentage of the total, floored or one more, adds to a hundred, and the version is noted as executed; once upstream has moved on nothing is sent and a version is skipped |
| `MultipleChoiceOutcomes.RejectOutcome` | contracts/syneswap_loop_multiple_choice_proposal/src/contract.rs:405-473 | rejecting notes the version as rejected, or skips a version once upstream has moved on |
| `MultipleChoiceOutcomes.AddOutcome` | contracts/syneswap_loop_multiple_choice_proposal/src/contract.rs:475-524 | pools are appended in order, without power, exactly when upstream offers each and no choice has it |
| `MultipleChoiceOutcomes.RemoveOutcome` | contracts/syneswap_loop_multiple_choice_proposal/src/contract.rs:526-552 | exactly the choices of other pools stay, with their powers and order |
| `MultipleChoiceContract.Draft.AddVote` | contracts/syneswap_loop_multiple_choice_proposal/src/proposal.rs:136-140 | the choice gains exactly the assigned power or the call overflows |
| `MultipleChoiceContract.Draft.RemoveVote` | contracts/syneswap_loop_multiple_choice_proposal/src/proposal.rs:142-144 | the choice loses exactly the power or the call underflows |
| `MultipleChoiceContract.Storage.UpdateProps` | contracts/syneswap_loop_multiple_choice_proposal/src/contract.rs:554-576 | the history is written and the draft restarted, not saved |
| `MultipleChoiceContract.Storage.ExecuteVote` | contracts/syneswap_loop_multiple_choice_proposal/src/contract.rs:578-733 | the vote loop with in-place ballots, powers and totals is the specified one |
| `MultipleChoiceContract.Storage.ExecuteExecute` | contracts/syneswap_loop_multiple_choice_proposal/src/contract.rs:301-374 | on a rollover the restarted draft is dropped; otherwise the list is emitted and the status saved |
| `MultipleChoiceContract.Storage.ExecuteReject` | contracts/syneswap_loop_multiple_choice_proposal/src/contract.rs:405-473 | on a rollover the restarted draft is dropped; otherwise the rejection is saved |
| `MultipleChoiceContract.Storage.ExecuteAddOptions` | contracts/syneswap_loop_multiple_choice_proposal/src/contract.rs:475-524 | options are checked against upstream and existing ones, then appended with no power |
| `MultipleChoiceContract.Storage.ExecuteRemoveOptions` | contracts/syneswap_loop_multiple_choice_proposal/src/contract.rs:526-552 | exactly the named choices are dropped |
| `SingleChoiceLaws.EarlyPassIsFinal` | contracts/syneswap_proposal/src/proposal.rs:87-185 | a proposal passed ahead of expiry passes at expiry under every extension of its votes exactly when somebody voted yes or no |
| `SingleChoiceLaws.RealThresholdsNeedYes` | contracts/syneswap_proposal/src/voting.rs:85-133 | a majority, or a threshold of at least 10^-9, cannot be met early without a yes vote |
| `SingleChoiceLaws.AbstentionsPassEarlyOnly` | contracts/syneswap_proposal/src/proposal.rs:87-185 | a run from the empty contract in which abstentions alone pass a proposal early that the same votes would fail at expiry |
| `SingleChoiceOutcomes.AtLeastMeans` | contracts/syneswap_proposal/src/voting.rs:85-133 | votes that reach a share pass, and votes that pass miss it by less than a billionth of a vote |
| `SingleChoiceOutcomes.PassesAtExpiryExactly` | contracts/syneswap_proposal/src/proposal.rs:87-160 | at expiry a quorum proposal passes exactly when the quorum of the total power voted and the threshold says yes, with at least one yes or no |
| `SingleChoiceOutcomes.VoteOutcome` | contracts/syneswap_proposal/src/contract.rs:259-347 | a vote stores exactly the power and answer cast, raises that answer's counter by the power and lowers the replaced ballot's by its own |
| `SingleChoiceOutcomes.ProposeOutcome` | contracts/syneswap_proposal/src/contract.rs:116-204 | a proposal starts under the next number without votes, and the deposit is locked within the power |
| `SingleChoiceOutcomes.ExecuteOutcome` | contracts/syneswap_proposal/src/contract.rs:206-257 | executing takes a passed proposal and releases its deposit, changing only the status |
| `SingleChoiceOutcomes.CloseOutcome` | contracts/syneswap_proposal/src/contract.rs:349-390 | closing takes a rejected proposal past its hold time and releases its deposit |
| `SingleChoiceRefusals.StatusFailsExactly` | contracts/syneswap_proposal/src/proposal.rs:66-160 | the status of a proposal cannot be computed exactly when it is an open, unexpired quorum proposal without revoting and more has abstained than the DAO, not empty, now holds |
| `SingleChoiceRefusals.VotesExactly` | contracts/syneswap_proposal/src/contract.rs:259-347 | in every lawful state, while the votes fit, a vote is refused only for want of a proposal or power, after expiry or a final status, as a repetition where revoting is allowed, or when more has then abstained than the DAO holds |
| `SingleChoiceRefusals.LeavingBlocksTheVote` | contracts/syneswap_proposal/src/contract.rs:333-334 | a run after which nobody else can vote on an open proposal: sixty of a hundred abstain and leave the DAO |
| `SingleChoiceRefusals.ProposesExactly` | contracts/syneswap_proposal/src/contract.rs:116-204 | a proposal is made exactly by those whose power covers the deposits they hold and one more |
| `SingleChoiceRefusals.ExecutesExactly` | contracts/syneswap_proposal/src/contract.rs:206-257 | members execute exactly the passed proposals whose answer is due; the deposit is always there to release |
| `SingleChoiceRefusals.ClosesExactly` | contracts/syneswap_proposal/src/contract.rs:349-390 | anyone closes exactly the rejected proposals past their hold time; the deposit is always there to release |
| `SingleChoiceLaws.ReplacingNeverUnderflows` | contracts/syneswap_proposal/src/voting.rs:192-198 | replacing a ballot never underflows the tally |
| `SingleChoiceLaws.ReleaseNeverUnderflows` | contracts/syneswap_proposal/src/contract.rs:229-234 | an unfinished proposal's deposit is always there to release |
| `SingleChoiceLaws.CallKeeps` | contracts/syneswap_proposal/src/contract.rs:116-390 | every call keeps votes equal to ballots and deposits to unfinished proposals, and moves statuses forward only |
| `SingleChoiceLaws.RunsKeepBooks` | contracts/syneswap_proposal/src/contract.rs:116-390 | in every run votes are ballot sums, locked amounts are the limit times unfinished proposals, statuses go Open, Passed, Executed or Open, Rejected, Closed |
| `SingleChoiceLaws.BooksFromTheStart` | contracts/syneswap_proposal/src/contract.rs:116-390 | from the contract as instantiated the books hold at every moment, and between any two moments statuses only move forward |
| `SingleChoiceContract.Tally.Add` | contracts/syneswap_proposal/src/voting.rs:181-187 | the counter of the vote grows by the power or overflows |
| `SingleChoiceContract.Tally.Remove` | contracts/syneswap_proposal/src/voting.rs:192-198 | the counter of the vote shrinks by the power or underflows |
| `SingleChoiceContract.Storage.ExecutePropose` | contracts/syneswap_proposal/src/contract.rs:116-204 | the deposit is locked and the proposal stored as specified |
| `SingleChoiceContract.Storage.ExecuteVote` | contracts/syneswap_proposal/src/contract.rs:259-347 | the ballot is replaced, the tally and status updated as specified |
| `SingleChoiceContract.Storage.ExecuteExecute` | contracts/syneswap_proposal/src/contract.rs:206-257 | the deposit is released and the status set as specified |
| `SingleChoiceContract.Storage.ExecuteClose` | contracts/syneswap_proposal/src/contract.rs:349-390 | only rejected proposals past the hold time close, releasing the deposit |
| `Group.SortCheckIsUniqueness` | contracts/cw4-group/src/helpers.rs:45-56 | sorting and comparing neighbours accepts exactly the lists without a repeated address |
| `Group.ValidateUniqueMembers` | contracts/cw4-group/src/helpers.rs:45-56 | the slice is sorted in place and the answer is whether all addresses differ |
| `GroupLaws.UpdateKeepsTotal` | contracts/cw4-group/src/contract.rs:119-158 | the total stays the sum of weights; the reported diffs, carried out in order, turn the old membership into the new, each naming the weight it replaced |
| `GroupLaws.RemovesNeverAbort` | contracts/cw4-group/src/contract.rs:146-155 | removing members never underflows the total |
| `GroupOutcomes.UpdateOutcome` | contracts/cw4-group/src/contract.rs:119-158 | while the weights fit, an update is refused only for a repeated address or a stranger's call, and makes the membership exactly what was asked: removed addresses out, listed ones with the listed weight, others as before |
| `GroupOutcomes.CreateOutcome` | contracts/cw4-group/src/contract.rs:40-64 | creation makes exactly the listed addresses members, each with its weight |
| `GroupLaws.SnapshotsAreHistory` | contracts/cw4-group/src/contract.rs:178-194 | a weight or total read at a height is what the updates of all earlier blocks had left |
| `GroupLaws.TotalAtEveryHeight` | contracts/cw4-group/src/contract.rs:178-194 | at every past height the total read is the sum of the weights read |
| `GroupLaws.CreatedIsLawful` | contracts/cw4-group/src/contract.rs:40-64 | creation establishes the total and empty history |
| `GroupContract.Storage.UpdateMembers` | contracts/cw4-group/src/contract.rs:119-158 | the two loops with running total and diffs give the specified storage and diffs |

## Left out

- Message encoding, attributes, error texts, address validation and fixed addresses: plumbing; an address is a number and a message a datatype.
- Keys built by concatenating strings (farming, proposal versions) are modelled as tuples, so collisions between concatenated keys are not captured.
- Gauge names are compared by character, which is the byte order of their UTF-8 form.
- The vault's administration (`UpdateAdmin`, `UpdateConfig`), the converter's administration, instantiation replies, the admin `Mint` and `ExecuteCosmosMsgs`, and the converter's fixed unbonding-period check: constants or admin steps outside the accounting.
- The wasm payloads of `Delegate` and `Send` to the staking module and of the farm messages: the module and the farm are environments that pay what they report.
- ChainRuns.BwyndIsBacked: states the backing for bWYND only; a bLOOP conversion mints the waiting reward without claiming it, and what the LOOP staking contract does then is not part of the sources.
- The token calls evaluate curves in unbounded integers. CurveLimits.ComputableExactly says for which curves that is what the contract computes; on the others its calls can abort where the model's do not.
- Block time of the vesting token is in whole seconds, also for allowance expiry.
- `decrease_allowance`, marketing, logos, the allow-list administration, `migrate` and curve complexity validation of the vesting token: they move no tokens.
- The gauge's reset machinery (`reset` stays `None`), `create_gauge` and option validation by the adapter: the adapter's answer is the flag of `AddOption`, and attaching a gauge is the step `CallAttach`.
- Proposals' titles, descriptions, messages and size limit, `execute_propose` of the multiple-choice contract beyond its initial state, its deposits, and the per-duration amounts: they would add easy members.
- MultipleChoice: the storage is that of one proposal; other proposals use other keys and no call reads them.
- Farming payouts are recorded as shares per token; the outgoing token transfers themselves are not messages in the model, and auto-compounding is commented out in the source.
- `contracts/syneswap_staking`, `contracts/cw3-fixed-multisig`, `contracts/distribution` and `packages/controllers` are not modelled.
- Pagination and listing queries.
