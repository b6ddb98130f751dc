# Verified model of the go-settlement contracts

The four in-memory contracts of `server/contract` — the ERC20 ledger, the pledge pool, the
storage manager of a group, and the role manager that calls them — as one Dafny project.
`dafny verify dfyconfig.toml` checks all of it.

Each contract appears twice. A *value* module (`Ledger`, `Pool`, `Settlements`, `Fs`,
`Registry`, `Issuance`, and `System` for all of them together) gives its state as a datatype
and each operation as a function that returns the new state and the error; the laws are proved
about these functions and about runs of them. A *class* (`ErcToken`, `GlobalMap`, `PledgeMgr`,
`SettlementObject`, `FsMgr`, `RoleMgr`) has the fields of the Go struct, updated in place by
the same loops and branches. Each method is proved to compute exactly the function's result:
those of `RoleMgr`, which call all other objects, that of the `System` operation of the same
name on the state of all contracts, refusals included. So a change to one of the two bodies
alone breaks the class. A change to both has to get past the laws, and past the effect lemmas,
which say of each call, in terms of what can be read before it, exactly when it succeeds, which
error it returns otherwise, and what it does to every account, balance, record and counter.

| file | content |
|---|---|
| `Types.dfy`, `Sums.dfy` | errors, keys, wrapping 64-bit arithmetic; finite sums |
| `Ledger.dfy`, `ErcToken.dfy` | token ledger, its runs, the token objects and their registry |
| `Pool.dfy`, `PoolOps.dfy`, `PoolRuns.dfy`, `PoolReports.dfy`, `PoolLimits.dfy` | pledge pool: invariant, single calls, runs, what it reports and pays, two concrete shortfalls |
| `Eager.dfy` | a naive ledger that credits every staker at every update, and the proof that the pool equals it |
| `PledgeMgr.dfy` | the pool object |
| `Issuance.dfy`, `IssuanceClock.dfy`, `MintLevels.dfy` | order totals, day buckets and rewards; how issuance catches up with the clock; the mint level in closed form |
| `Settlement.dfy` | provider settlement, its object, and what it earns on histories of orders |
| `Fs.dfy`, `FsMoney.dfy`, `FsRecords.dfy`, `FsRuns.dfy`, `FsViews.dfy`, `FsHistories.dfy`, `FsMgr.dfy` | storage manager: operations, conservation, record agreement, keeper sharing and runs, reported against paid balances, the orders behind the settlements, object |
| `FsEffects.dfy`, `FsCounts.dfy`, `FsAccounts.dfy` | storage manager, key by key: what each call does and when it succeeds, the numbers of orders and the statement of account of every index over runs |
| `Registry.dfy`, `RegistryEffects.dfy`, `FsDir.dfy`, `RoleMgr.dfy` | addresses, roles, tokens, groups, and what each registration does to them; the storage manager objects of all groups; the role manager object |
| `System.dfy`, `SystemRuns.dfy`, `SystemRaw.dfy`, `SystemOutside.dfy` | all contracts together, and every run of them: safety with failing calls undone and with nothing undone, and what outsiders may do in between |
| `SystemEffects.dfy`, `SystemStorage.dfy`, `SystemMembers.dfy` | the role manager's calls from end to end: who pays, who is paid, and exactly when a call goes through |
| `SystemIssuance.dfy`, `SystemClaims.dfy`, `SystemTotals.dfy`, `Collateral.dfy` | over runs of all contracts: issuance, covered claims, group totals, pledged collateral |

## Conventions

`big.Int` is `int`; its `Div` is Euclidean, as `/` is here. `uint64` times and sizes are
`u64`, and the subtractions and additions that can wrap are written `Sub64` and `Add64`. The
clock is a parameter. Addresses are abstract; the address derived for a new contract is a
parameter that the run theorems assume to be new.

Go does not undo a failing call, although the contracts imitate a platform that does
(`README.md:5`). The functions and classes model the Go code: what a failing call has changed
stays changed. The runs of `PoolRuns` and `SystemRuns` undo failing calls; those of `FsRuns` and
`SystemRaw` undo nothing. Only one kind of failing call makes a contract unsound, a pledge whose
transfer fails while a reward is waiting: `SystemRaw.CallKeepsInv` says so of every call, as an
if-and-only-if, and `SystemRaw.RawSystemIsSafe` has the safety of all runs without such a
call. More on failing calls: `PoolOps.FailedPledgeKeepsInv` and
`PoolOps.FailedPledgeTurnsInsolvent` for a pledge, `Issuance.FailedRewardKeepsSummary` and
`Issuance.FailedRewardCountsAsPaid` for an order whose reward cannot be sent.

Assumptions of the run theorems, each a predicate named `Allowed`: pledge thresholds are not
negative; a registered token starts with no negative balance for a contract; a new contract
address is new, and nobody holds an allowance on it; between calls nobody else takes money
from a contract's account or gets an allowance on it. `SystemOutside.OutsiderIsAllowed` shows
that every token call by somebody who is no contract is such a step when mints are not negative.
Creating a token is one as well, but for one case: a token's address depends on its
administrator alone (`utils/key.go:95`), so that creating one again under the same administrator
replaces its ledger (`erc20.go:28-40`). That is excluded if and only if a contract holds the old
token (`SystemOutside.NewTokenIsAllowed`). In `FsRuns`, payers and payees are not the contract
itself.

## Where the code and its documentation differ

- `README.md:45` and the comment at `server/contract/fs.go:161` promise keepers 3% linear and
  1% at the end. The code collects 4% and releases 4% linear (`fs.go:743-744`) and 1% at the end
  (`fs.go:513-515`). The model follows the code.
- The comment at `server/contract/fs.go:53` says the collected fee is at least the released one.
  `Earnings.CollectedFeeCoversReleased`: once all orders have ended and the provider is paid in
  full, that holds if and only if the orders cost less than 100 altogether
  (`Earnings.FeeFallsShort` is a case where it fails); `Earnings.KeeperFeeBounds` gives the
  bounds that hold throughout.
- `GetBalance` counts a keeper's share from the moment a period has passed (`fs.go:587`),
  `Withdraw` only after it (`fs.go:658`), and `Withdraw` pays nothing when the contract owns less
  than is due. `FsViews.KeeperViewAgrees` gives the exact condition under which a withdrawal of
  everything pays what was reported. It fails at the instant at which a period is over
  (`FsViews.ViewRunsAhead`), and at the ordinary end of orders that cost 100 or more: the keeper
  fee released beyond the collected one is in the pot and in the report, and not in the
  contract's account (`FsViews.ViewExceedsHoldings`: 15 reported, 12 owned, nothing paid).
- `GetBalance` deducts what a provider admits to have lost (`fs.go:568-574`); a claim is never
  compared with it (`fs.go:115-148`), so a loss is paid all the same. `FsViews.ProviderViewAgrees`
  says up to what a claim is accepted and when the report shows just that;
  `FsViews.LossIsStillPaid` is an order of 100, half of it lost, for which 50 are reported and
  100 accepted.
- An administrator's pledge or recharge is paid by the role manager, and approves first
  (`role.go:589-595`, `role.go:655-660`). The approval names the owner of the other contract, which
  is the role manager itself, while the money is drawn by that contract's own address
  (`pledge.go:199`, `fs.go:620`). So the call succeeds if and only if that contract had the
  allowance before: `SystemEffects.PledgeEffect` and `SystemStorage.RechargeEffect`.
- Issuance makes up at most a day per order (`role.go:814-817`). `IssuanceClock.CatchUp` says how
  many orders it takes after a pause, and what has been issued until then.
- A group's price rises with orders in the main token only (`role.go:838-840`) and falls with
  closed orders in any token (`role.go:935-936`). `SystemTotals.StepMovesTotal`: a step keeps it
  equal to the running price of the group's settlements in the main token if and only if it
  closes no order with a price in another token (`SystemTotals.OtherTokenLowersTotal` has the
  closing calls that lower it by any amount).
- A failing pledge leaves the pool unsound exactly when the caller had a token-0 reward
  waiting (`PoolOps.FailedPledgeKeepsInv`), and then some later deposit always makes it
  insolvent (`PoolOps.FailedPledgeTurnsInsolvent`; a concrete case is
  `PoolLimits.FailedPledgeLosesSolvency`).
- An order whose reward cannot be sent has moved the totals but not the issuance time
  (`role.go:836-880`). They still describe the orders if and only if no day bucket was taken out
  (`Issuance.FailedRewardKeepsSummary`); `totalPaid` counts the amount once too often
  (`Issuance.FailedRewardCountsAsPaid`); and the next order takes the same bucket out again
  (`Issuance.RetryTakesBucketTwice`).
- A staker without an entry for a token that was added later has its whole reward in that
  token reported, and loses it by pledging again (`PoolOps.PledgeNonInterference`; a concrete
  case is `PoolLimits.LateTokenIsForfeited`). When tokens are registered before the first pledge
  nothing is lost (`LazyEager.TokensFirstLosesNothing`).
- The settlement of a provider is a summary of its orders only as long as events come in order.
  `Earnings.AddKeepsSummary`, `Earnings.SubKeepsSummary` and `Earnings.PayKeepsSummary` give for
  each event the exact condition. Adding accrues with the price of before, also backwards for a
  start in the past: that keeps the summary if and only if the order starts no earlier than
  the settlement time and after no live order's end, or it is back-dated at the running price and
  ends no earlier than the settlement time (`Earnings.BackdatedEarnsLess`). The unsigned difference
  in `sub` (`fs.go:101`) can wrap (`Earnings.LateSubOverpays`), and `Size += Size` (`fs.go:90`) is
  kept.
- `SubOrder` compares neither price nor dates of a closed order with those of an added one
  (`fs.go:487-517`). `FsHistories.AnyPriceCloses`: any order whose size fits closes at any price
  and raises the keepers' pot as much as one likes, while the escrow becomes negative by as much
  (`FsHistories.MadeUpPriceOverclaims` is an input). So "owns what it owes" in
  `SystemRuns.SystemIsSafe` counts negative escrow as an asset. When only added orders are closed,
  in order, what can be claimed is covered but for the keeper fee released beyond the collected
  one: `FsHistories.ClaimsCoveredFromStart` and `SystemClaims.SystemClaimsCovered`.
- An order that ends no later than the last issuance time never leaves the issuance totals;
  `Issuance.AddOrderKeepsSummary` is an if-and-only-if, and `Issuance.BackdatedOrderStays` a case.

## Model

| member | source | states |
|---|---|---|
| Ledger.RunKeepsSupply | server/contract/erc20.go:72-215 | Over every run of transfers (self-transfers too), approvals, mints, burns and air drops that fail part way, the balances add up to the recorded supply; without negative mints no balance and no allowance goes below zero. |
| Ledger.AllowanceAccounting | server/contract/erc20.go:103-162 | For every owner and spender: allowance before plus everything approved equals allowance left plus everything drawn, over every run. |
| Ledger.DrawnAtMostApproved | server/contract/erc20.go:103-162 | A spender never draws more than the owner approved. |
| Ledger.OthersOnlyAdd | server/contract/erc20.go:72-215 | An account that never approved anyone, the token's administrator included, cannot lose money, nor get an allowance on it, by any other account's call, negative mints aside. |
| Ledger.CallEffect | server/contract/erc20.go:72-202 | Every call but an air drop: exactly when it goes through, which error it returns otherwise, and its effect on every account, every allowance and the supply. |
| Ledger.DropsEffect | server/contract/erc20.go:205-215 | An air drop pays each address once for each time it is listed, in turn, until the administrator can pay no more, and then nobody. |
| Ledger.NewLedgerOwner | server/contract/erc20.go:25-42 | The creator of a token administers it and owns all of its ten billion tokens. |
| Ledger.NewLedgerIsBalanced | server/contract/erc20.go:25-42 | A new token starts with the whole supply in its administrator's account. |
| Erc.SendEffect | server/contract/erc20.go:72-100 | A failing transfer leaves every balance of every token; a successful one moves exactly the money between the two accounts in that token alone. |
| Erc.SendFromEffect | server/contract/erc20.go:119-162 | The same for a transfer on allowance, which needs an allowance entry. |
| Erc.SendSucceeds | server/contract/erc20.go:72-100 | A transfer succeeds if and only if the sender has an account with that much in an existing token, and says otherwise why not; a positive one needs no more than the balance. |
| Erc.SendFromSucceeds | server/contract/erc20.go:119-162 | A transfer on allowance succeeds if and only if the spender may take the money, and uses up that much of the allowance of that pair in that token alone. |
| Erc.ApprovedEffect | server/contract/erc20.go:103-117 | An approval adds a positive amount to the allowance of one pair in one token; no balance changes and nobody else may take more. |
| Erc.ErcToken.constructor | server/contract/erc20.go:25-42 | The new object is the new ledger. |
| Erc.ErcToken.BalanceOf | server/contract/erc20.go:48-56 | Reads the ledger's balance, 0 for unknown accounts. |
| Erc.ErcToken.Allowance | server/contract/erc20.go:58-70 | Reads the ledger's allowance, 0 when none was given. |
| Erc.ErcToken.Transfer | server/contract/erc20.go:72-100 | In place, with all error cases, the ledger's Transfer; debit before credit, so a self-transfer is neutral. |
| Erc.ErcToken.Approve | server/contract/erc20.go:103-117 | In place, allowances accumulate. |
| Erc.ErcToken.TransferFrom | server/contract/erc20.go:119-162 | In place, the ledger's TransferFrom with its five errors. |
| Erc.ErcToken.MintToken | server/contract/erc20.go:165-181 | In place, balance and supply grow together, for the administrator only. |
| Erc.ErcToken.Burn | server/contract/erc20.go:184-202 | In place, balance and supply shrink together, for the administrator only. |
| Erc.ErcToken.AirDrop | server/contract/erc20.go:205-215 | The loop of transfers skips failing ones and equals the recursive form. |
| Erc.GlobalMap.GetBalance | server/contract/erc20.go:226-237 | A balance by token address, 0 for unknown tokens. |
| Erc.GlobalMap.SendBalance | server/contract/erc20.go:240-251 | A transfer by token address; no other token changes. |
| Erc.GlobalMap.SendBalanceFrom | server/contract/erc20.go:253-264 | A transfer on allowance by token address; no other token changes. |
| Erc.GlobalMap.Approve | server/contract/erc20.go:266-279 | An approval by token address; no other token changes. |
| Pool.Solvent | server/contract/pledge.go:68-113 | Under the invariant, what GetBalance reports to all stakers together is at most the pool's balance, in every token, and each report is between 0 and that. |
| Pool.Dust | server/contract/pledge.go:184-209 | Of the money that arrived since the last update exactly the remainder of the division by totalPledge stays undistributed. |
| Pool.ReportedTotal | server/contract/pledge.go:68-113 | The sum of all reports is the settled debt plus the gain per unit times the total stake. |
| Pool.ClaimsAfter | server/contract/pledge.go:163-209 | A settlement with a payment leaves everybody the claim reported before; only the caller's moves, by the payment in the token paid. |
| Pool.TotalAfter | server/contract/pledge.go:204-209 | Replacing the old stake by the new keeps totalPledge equal to the sum of all stakes. |
| Pool.MovedKeepsInv | server/contract/pledge.go:163-209 | A settlement with a payment keeps the whole invariant when the pool's balances follow. |
| PoolOps.PledgeKeepsInv | server/contract/pledge.go:138-212 | A successful pledge keeps coherence, distinct tokens, total stake and coverage. |
| PoolOps.PledgeNonInterference | server/contract/pledge.go:138-212 | It leaves every other staker's reported balance alone in every token, and raises the caller's own by the money in token 0 less exactly what a staker without an entry forfeits. |
| PoolOps.FailedPledgeKeepsInv | server/contract/pledge.go:166-202 | A pledge whose transfer fails, not undone, leaves the pool sound if and only if the caller had no token-0 reward waiting. |
| PoolOps.FailedPledgeThenDeposit | server/contract/pledge.go:166-202 | What the pool reports beyond what it holds after such a failure and a deposit of n times totalPledge: n times the reward, less the former surplus. |
| PoolOps.FailedPledgeTurnsInsolvent | server/contract/pledge.go:166-202 | So whenever a reward was waiting there is a deposit after which the pool reports more than it holds. |
| PoolOps.WithdrawResult | server/contract/pledge.go:215-325 | With a lock that is not negative the transfer of Withdraw never fails for lack of balance. |
| PoolOps.WithdrawRefused | server/contract/pledge.go:215-294 | In all other cases Withdraw fails and leaves pool and ledgers as they were. |
| PoolOps.WithdrawKeepsInv | server/contract/pledge.go:215-325 | Withdraw keeps the invariant, successful or not. |
| PoolOps.WithdrawPaysView | server/contract/pledge.go:286-317 | It pays exactly the reported balance less the lock (token 0 only), capped by a positive request, and moves nothing else; it fails if and only if there is no entry to pay from, and then nothing was reported. |
| PoolOps.WithdrawNonInterference | server/contract/pledge.go:215-325 | It leaves every other staker's reported balance alone in every token and lowers the caller's own by exactly the amount paid; if the payee is the pool's own address, everybody is reported his part of the amount by stake on top. |
| PoolOps.AddTokenKeepsInv | server/contract/pledge.go:116-136 | A new token keeps the invariant; the owner's call with the next index is never rejected. |
| PoolOps.OutsideKeepsInv | server/contract/pledge.go:68-113 | Deposits from outside, in any token at any time, keep the invariant. |
| PoolOps.NewPoolInv | server/contract/pledge.go:26-50 | A new pool satisfies the invariant. |
| PoolRuns.StepKeepsGood | server/contract/pledge.go:138-325 | Every step of a run keeps the pool sound and its accounts free of allowances. |
| PoolRuns.Run | server/contract/pledge.go:116-325 | Every state reached by a run of pledges, withdrawals, new tokens and outside money is good; the result's contract is the induction. |
| PoolRuns.ReachableIsSolvent | server/contract/pledge.go:68-113 | Pool solvency: in every reachable state and for every token the sum of all reported balances is at most what the pool owns, and totalPledge is the sum of the stakes. |
| PoolRuns.NewPoolIsGood | server/contract/pledge.go:26-50 | Runs start from a new pool. |
| PoolReports.ReportsAreCredits | server/contract/pledge.go:68-113 | From creation, over every run: GetBalance reports nothing to whoever never pledged, and to everybody else one amount for every token, which is what the naive ledger credited in that token, brought up to date, less what was given up. |
| PoolReports.ReportsAreCovered | server/contract/pledge.go:68-113 | For any set of stakers, what GetBalance reports to them for a token is together no more than the pool owns. |
| PoolReports.WithdrawPaysReport | server/contract/pledge.go:215-325 | A withdrawal of everything in a token pays the payee what GetBalance reported for it less the lock in token 0, no other account changes, and the lock is what is reported afterwards. |
| PoolReports.PledgePays | server/contract/pledge.go:138-212 | A pledge succeeds if and only if the owner calls and the pool may take the money from the payer, whose account and allowance it comes from. |
| PoolReports.AddTokenReports | server/contract/pledge.go:116-136 | Only the owner adds a token, under the next index; every report then ends with 0 for it and is otherwise unchanged. |
| LazyEager.MoveSame | server/contract/pledge.go:163-209 | One settlement of the pool does to accumulators and snapshots what the naive ledger does by crediting every staker. |
| LazyEager.SamePayout | server/contract/pledge.go:286-317 | The naive ledger accepts, settles and pays withdrawals exactly as the pool. |
| LazyEager.StepSame | server/contract/pledge.go:138-325 | Each step of a run keeps pool and naive ledger equal. |
| LazyEager.RunSame | server/contract/pledge.go:138-325 | So does every run, from any two equal states. |
| LazyEager.LazyEqualsEager | server/contract/pledge.go:163-209 | From creation, over every run: settled amount plus accumulator growth times stake is what the naive ledger credited, less what was forfeited; GetBalance is that credit brought up to date; totalPledge is the naive total. |
| LazyEager.TokensFirstLosesNothing | server/contract/pledge.go:175-182 | When tokens are registered before the first pledge nothing is ever forfeited, and settled amounts equal naive credits exactly. |
| PoolLimits.FailedPledgeLosesSolvency | server/contract/pledge.go:195-202 | A concrete failing pledge after which the pool holds 300 and reports 400. |
| PoolLimits.LateTokenIsForfeited | server/contract/pledge.go:175-182 | A concrete successful pledge that costs the caller a reported reward of 100. |
| PledgeManager.PledgeMgr.constructor | server/contract/pledge.go:26-50 | The new object is the new pool. |
| PledgeManager.PledgeMgr.GetBalance | server/contract/pledge.go:68-113 | The loop over the tokens computes the reported balance in each. |
| PledgeManager.PledgeMgr.AddToken | server/contract/pledge.go:116-136 | In place, the pool's AddToken with both errors. |
| PledgeManager.PledgeMgr.OpenEntry | server/contract/pledge.go:148-164 | The entry made first for a new staker does not change the settlement that follows. |
| PledgeManager.PledgeMgr.SettleForPledge | server/contract/pledge.go:166-197 | The token-by-token loop settles all tokens at once in the sense of Pool.Settle. |
| PledgeManager.PledgeMgr.Pledge | server/contract/pledge.go:138-212 | In place, the pool's Pledge, including what stays when the transfer fails. |
| PledgeManager.PledgeMgr.SettleForWithdraw | server/contract/pledge.go:244-284 | The loop settles the requested token, or all of them for token 0, or none without stake. |
| PledgeManager.PledgeMgr.Withdraw | server/contract/pledge.go:215-325 | In place, the pool's Withdraw with every error. |
| Issuance.OneBoundary | server/contract/role.go:813-823 | A step of at most a day crosses the end of a day-aligned order if and only if the code looks that day's bucket up. |
| Issuance.HistoryAdvances | server/contract/role.go:813-836 | Price, size and integral of any history of orders at the new clock, from those at the old one and the one bucket crossed. |
| Issuance.AmountsAfter | server/contract/role.go:797-852 | The amounts that a call computes are the sums over the orders at the new clock. |
| Issuance.AddOrderKeepsSummary | server/contract/role.go:797-852 | A call keeps the totals a summary of the orders if and only if its order ends after the last issuance time. |
| Issuance.BackdatedOrderStays | server/contract/role.go:797-852 | A concrete order that had ended before it was booked and raises the running price for good. |
| Issuance.IssuanceIsIntegral | server/contract/role.go:797-885 | Over every run, with clocks in any order, price and size are the sums over the orders that have not ended, and the sum of all paid is the sum of price times (min(end, lastMint) minus booking clock). |
| Issuance.TotalPaidFollows | server/contract/role.go:836-836 | The totalPaid field moves exactly with the reported amounts. |
| Issuance.FailedRewardKeepsSummary | server/contract/role.go:836-880 | After a reward transfer that fails, not undone, the totals are still the summary of the orders, with nothing reported, if and only if no day bucket was taken out; if one was, they are the summary of these orders for no booking time and no amount. |
| Issuance.FailedRewardCountsAsPaid | server/contract/role.go:836-885 | Otherwise the next successful call pays for the whole time since the last issuance, and totalPaid exceeds what was paid by exactly the amount of the failed call. |
| Issuance.RetryTakesBucketTwice | server/contract/role.go:822-835 | A concrete failure at midnight after which the next order takes the same bucket out again: running price 4, live orders 9. |
| Issuance.MintLoopRange | server/contract/role.go:859-873 | The mint level loop never lowers the level and stays in range. |
| Issuance.RewardBounds | server/contract/role.go:854-880 | Each reward lies between the positive amount due and twice that. |
| Issuance.RewardsFollowPaid | server/contract/role.go:854-880 | So do the sums over every run, whatever the prices. |
| Issuance.IssuanceBound | server/contract/role.go:848-877 | From creation, with sound orders, the rewards lie between the sum of paid and twice it, and never exceed twice totalPay. |
| Issuance.NewIsSummary | server/contract/role.go:115-143 | A new role manager is the summary of no orders. |
| IssuanceClock.CallMovesClock | server/contract/role.go:813-885 | A call moves the issuance time to its clock, by 86400 at most; a clock in the past counts as a full day. |
| IssuanceClock.CatchUp | server/contract/role.go:813-885 | Orders at one time bring issuance to that time if and only if there are as many as days have passed since the last issuance, begun ones included; what was reported by then is the integral up to that time, and before that up to as many days after the last issuance. |
| IssuanceClock.DailyIsPunctual | server/contract/role.go:813-885 | With an order at least once a day issuance is never late. |
| MintLevels.Table | server/contract/role.go:90-113 | The four levels: ratios 100, 120, 150, 200 from 1 byte, 100 TiB, 1 PiB and 10 PiB, for a second and for 100 days. |
| MintLevels.CallReachesLevel | server/contract/role.go:847-875 | The level after a call is the last one that the space-time of all orders reaches, each level counted by the product of the sizes passed; nothing rises when nothing is due; the reward is the amount due times the ratio of that level. |
| SystemIssuance.OrderIssues | server/contract/role.go:732-889 | A successful main-token order of the whole system is one issuance call. |
| SystemIssuance.OthersDoNotIssue | server/contract/role.go:257-729 | Every other step, of any contract, leaves price, size, buckets, level and clock of issuance alone. |
| SystemIssuance.SystemRefinesIssuance | server/contract/role.go:797-885 | Over every run of the whole system the issuance state is that of its main-token orders alone, but for the losses added to totalPaid. |
| SystemIssuance.SystemIssuesIntegral | server/contract/role.go:797-885 | In every run of the whole system the totals are the per-order integral of exactly the accepted main-token orders. |
| SystemIssuance.RewardReachesPool | server/contract/role.go:854-885 | The reward of an order arrives in the pledge pool in full, out of the role manager's account, between the amount due and twice that. |
| SystemIssuance.RewardsAreSent | server/contract/role.go:854-885 | Over every run, what the pool received by issuing is the sum of the rewards of the main-token orders. |
| SystemIssuance.SystemIssuanceBound | server/contract/role.go:848-885 | From creation, over every run with sound main-token orders among any other calls, the pool receives between what became due and twice that by issuing, and never more than twice totalPay. |
| Settlements.SettlementObject.constructor | server/contract/fs.go:58-71 | A new settlement is empty. |
| Settlements.SettlementObject.AddOrder | server/contract/fs.go:74-96 | In place, accrues with the old price, also backwards, and doubles the size. |
| Settlements.SettlementObject.SubOrder | server/contract/fs.go:99-112 | In place, accrues over a wrapping difference. |
| Settlements.SettlementObject.CalcPay | server/contract/fs.go:115-148 | In place, a claim with its three refusals and what they leave behind. |
| Settlements.SettlementObject.ReleaseLinear | server/contract/fs.go:742-750 | In place, the linear fee; the result is exactly what the field grew by. |
| Earnings.AccrualExact | server/contract/fs.go:127-133 | Accruing the running price is exact if and only if no live order's end is passed, and never too little. |
| Earnings.AddKeepsSummary | server/contract/fs.go:74-96 | Adding an order keeps the settlement a summary of the orders if and only if its price is not negative and it starts no earlier than the settlement time and no later than any live order's end, or is back-dated at the running price and ends no earlier than the settlement time. |
| Earnings.BackdatedEarnsLess | server/contract/fs.go:80-86 | A concrete back-dated order for which 43200 are missing. |
| Earnings.SubKeepsSummary | server/contract/fs.go:99-112 | Ending a live order keeps it if and only if no live order ends earlier. |
| Earnings.PayKeepsSummary | server/contract/fs.go:115-148 | A claim keeps it if and only if no live order has ended before, or the claim is refused before it accrues. |
| Earnings.StepKeepsSummary | server/contract/fs.go:74-148 | So the settlement is a summary after an event if and only if the event comes in order. |
| Earnings.ProviderEarnings | server/contract/fs.go:74-148 | On every in-order history CanPay is the sum over the orders of price times time served, and 0 <= HasPaid <= CanPay <= MaxPay. |
| Earnings.SizeAndLoss | server/contract/fs.go:74-148 | The size doubles with each order and falls by the size closed, as 64-bit numbers; a claim that is not too low leaves the loss it admits, also when it is refused for asking too much; LostPaid never moves. |
| Earnings.LateSubOverpays | server/contract/fs.go:99-112 | A concrete late expiry after which a claim above 2^64 out of 86400 is accepted. |
| Earnings.SumOfFloors | server/contract/fs.go:349-351 | Flooring per order loses less than one per order against flooring the sum. |
| Earnings.KeeperFeeBounds | server/contract/fs.go:346-356 | For a summary of n orders 4 * EndPaid <= ManagePay and LinearPaid <= ManagePay + 4(n-1). |
| Earnings.RunFeeBounds | server/contract/fs.go:346-356 | So on every in-order history. |
| Earnings.StepKeepsLinear | server/contract/fs.go:742-750 | LinearPaid = 4 * floor(HasPaid/100) is kept by every event, in order or not. |
| Earnings.CollectedFeeCoversReleased | server/contract/fs.go:53-55 | The documented inequality, at full payment, holds if and only if the orders cost less than 100 altogether. |
| Earnings.FeeFallsShort | server/contract/fs.go:53-55 | A concrete order of 100 for which 5 are released of 4 collected. |
| FsMoney.AddOrderOwed | server/contract/fs.go:324-448 | Adding an order, successful or not, only moves money between balance, escrow, fee and foundation: what is owed in each token stays. |
| FsMoney.SubOrderOwed | server/contract/fs.go:450-532 | Closing an order, successful or not, keeps what is owed: the end fee moves from the unreleased fee to the pot. |
| FsMoney.ShareOwed | server/contract/fs.go:656-694 | A distribution, successful or not, moves money from the pot to balances only. |
| FsMoney.RechargeConserves | server/contract/fs.go:598-639 | Owned minus owed is unchanged in every token, successful or not. |
| FsMoney.WithdrawConserves | server/contract/fs.go:641-722 | The same for Withdraw, also after a failed payout; a payout to the contract itself can only add. |
| FsMoney.ProWithdrawConserves | server/contract/fs.go:724-785 | The same for ProWithdraw, also after a failed payout. |
| FsMoney.OtherTokensOwed | server/contract/fs.go:598-785 | What is owed in a token changes only by operations on that token. |
| FsRecords.AddOrderKeepsInv | server/contract/fs.go:392-447 | Adding an order keeps settlement prices equal to the sums over the users' records, and totalCount equal to the sum of count over distinct keepers. |
| FsRecords.CloseOrderCompletes | server/contract/fs.go:487-529 | An order that the user's record shows can be closed: SubOrder never stops half done. |
| FsRecords.SubOrderKeepsInv | server/contract/fs.go:450-532 | Closing an order keeps both agreements, successful or not. |
| FsRecords.AddKeeperKeepsInv | server/contract/fs.go:255-265 | A new keeper keeps both agreements. |
| FsRecords.CreateFsKeepsInv | server/contract/fs.go:289-322 | A new user keeps both agreements. |
| FsRecords.TouchKeeps | server/contract/fs.go:440-445 | Counting a keeper keeps the counters adding up. |
| FsRuns.ShareKeepersPays | server/contract/fs.go:669-688 | The inner loop gives each keeper its part once, in closed form, whatever the order. |
| FsRuns.KeeperSharing | server/contract/fs.go:656-694 | A due distribution pays floor(pot/totalCount) * totalCount per token and leaves pot mod totalCount. |
| FsViews.KeeperViewAgrees | server/contract/fs.go:577-722 | A group keeper's Withdraw of everything pays what is due when the contract owns that much, and nothing otherwise. That is what GetBalance reported as available if and only if the contract can pay and not exactly a period has passed or the part is 0, or it cannot pay and nothing was reported. |
| FsViews.ViewRunsAhead | server/contract/fs.go:587-587 | A concrete keeper to whom 10 are reported as available and nothing is paid. |
| FsViews.ViewExceedsHoldings | server/contract/fs.go:656-721 | The concrete end of an order of 300, with records, counters and settlement in agreement and everything owed owned: 15 are reported as available, the contract owns 12, and Withdraw fails and pays nothing. |
| FsViews.ProviderViewAgrees | server/contract/fs.go:559-575 | A provider's claim is accepted exactly from what was paid up to what has accrued, whatever was lost, and what has accrued is what was earned if and only if no live order's end is passed. GetBalance reports what is left of it as locked if and only if the losses fit between it and what the users put up, or fill that room exactly when the settlement time lies ahead of the clock. |
| FsViews.LossIsStillPaid | server/contract/fs.go:115-148 | A concrete order of 100 with a loss of 50 admitted: 50 are reported as locked, and a claim of 100 is accepted and paid in full. |
| FsRuns.StepKeepsGood | server/contract/fs.go:255-785 | Every call, successful or not, keeps records and counters in agreement. |
| FsRuns.StepConserves | server/contract/fs.go:324-785 | Every call leaves owned minus owed in every token, but for outside donations. |
| FsRuns.UnlistedStays | server/contract/fs.go:324-785 | No call changes what is owed in a token that is not registered. |
| FsRuns.RunConserves | server/contract/fs.go:324-785 | So does every run, failed calls and all, with nothing undone, also in tokens registered on the way, from their registration on. |
| FsRuns.ConservationFromStart | server/contract/fs.go:187-785 | From creation, for every token registered before or during the run: the contract's balance less what it had at first and less donations equals balances plus pot plus sum(MaxPay - HasPaid) plus sum(ManagePay - EndPaid - LinearPaid). |
| FsEffects.AddKeeperEffect | server/contract/fs.go:255-265 | Only the owner adds a keeper, which starts with a count of 1; nothing else changes. |
| FsEffects.CreateFsEffect | server/contract/fs.go:289-322 | Only the owner registers a user, who must not be active and is afterwards, and is listed once; no record and no balance changes. |
| FsEffects.AddOrderEffect | server/contract/fs.go:324-448 | An order is added if and only if the owner calls, the user is active, its balance covers price and five hundredths, the number is the next one and the start is no earlier than recorded. The user's balance pays all of it, the foundation's gets one hundredth, no other moves; the record, and the keeper's counter, grow by the order. Every refusal has its error and changes no balance, record or counter. |
| FsEffects.SubOrderEffect | server/contract/fs.go:450-532 | An order is closed if and only if the owner calls, it has a size and a duration and has ended, the user is active, the number is the next one and the record holds the size. The record shrinks by size and price, a hundredth of the price goes into the pot, the keeper counts one more. Every refusal has its error and changes nothing. |
| FsEffects.RechargeEffect | server/contract/fs.go:598-639 | A deposit goes through if and only if the owner calls for a listed token and the contract may take the money. The balance of the index in that token, and no other, grows by it; the payer's account and allowance pay it to the contract. |
| FsEffects.RechargeReport | server/contract/fs.go:598-639 | GetBalance then reports that much more as available to that index in that token, and the same as before to everybody else. |
| FsEffects.WithdrawEffect | server/contract/fs.go:641-722 | When a withdrawal succeeds, and what it does to every balance: the amount asked for, or all that is due for 0 or too much, leaves the balance of the index for the address named by the role manager; all others move by the distribution alone, which stays when the payment fails. |
| FsEffects.ClaimEffect | server/contract/fs.go:724-769 | An accepted claim credits the provider, and nobody else, with what it had not been paid; hasPaid is the claim then. |
| FsEffects.ProWithdrawEffect | server/contract/fs.go:724-785 | A claim is paid if and only if it is accepted and the contract can pay all that the provider has then; the provider's address gets it and nothing is left under its key. When the payment fails it stays the balance, and no account moves. |
| FsEffects.MemberViewAgrees | server/contract/fs.go:548-722 | An index that is no keeper withdraws exactly what GetBalance reports as available when the contract owns it, and then 0 is reported. |
| FsCounts.RecordsFollow | server/contract/fs.go:255-532 | Over every run: both order numbers of a user with a provider are the numbers of orders added and closed, the recorded price is what was added less what was closed, the size, too, as a 64-bit number, and a keeper's counter is its joining and the orders it handled. |
| FsCounts.OrdersInTurn | server/contract/fs.go:324-532 | In every run orders are added and closed under consecutive numbers, and whatever is closed has ended and fits the record. |
| FsCounts.NoNumberTwice | server/contract/fs.go:324-532 | So no number is accepted twice: no order is added again or closed again. |
| FsCounts.RunKeepsListed | server/contract/fs.go:289-448 | Over every run the lists of users and of each user's providers name everybody with a record once. |
| FsAccounts.AccountsBalance | server/contract/fs.go:324-785 | Over every run, for every index and token: what the contract's account paid out for the index and what is left of its balance is what it had and paid in, what it claimed as a provider and was shared as a keeper, less what it spent as a user, with the hundredths for the foundation. |
| FsAccounts.ProviderIsPaid | server/contract/fs.go:724-785 | From creation: what a provider was paid out and has left is exactly what it claimed. |
| FsHistories.StepMoves | server/contract/fs.go:324-785 | What every call does to every settlement: nothing, an added order, a closed order or a claim. |
| FsHistories.LinearFeeFollows | server/contract/fs.go:742-750 | In every state of every run, in order or not, each settlement has LinearPaid = 4 * floor(HasPaid/100). |
| FsHistories.NewIsLinear | server/contract/fs.go:187-245 | Such runs start from a new storage manager. |
| FsHistories.StepTracks | server/contract/fs.go:324-785 | A call that comes in order, and closes only orders that were added, keeps every settlement the summary of the orders with that provider in that token. |
| FsHistories.RunTracks | server/contract/fs.go:324-785 | So does every such run. |
| FsHistories.ClaimsAreCovered | server/contract/fs.go:346-356 | Then balances, pot and unpaid escrow exceed what is owed by at most the end fees plus 4 for every order but the first of each settlement. |
| FsHistories.ClaimsCoveredFromStart | server/contract/fs.go:187-785 | From creation, over every such run: balances, pot and unpaid escrow exceed the money that came in by at most that fee shortfall. |
| FsHistories.AnyPriceCloses | server/contract/fs.go:487-517 | Out of order there is no bound: whatever the amount, some closing call raises the pot by at least that, with records and debts still in agreement. |
| FsHistories.MadeUpPriceOverclaims | server/contract/fs.go:487-517 | A concrete order of 105 that closes at a made-up price and leaves 200 in the pot. |
| FsManager.FsMgr.constructor | server/contract/fs.go:187-245 | The new object is the new storage manager. |
| FsManager.FsMgr.AddKeeper | server/contract/fs.go:255-265 | In place, Fs.AddKeeper. |
| FsManager.FsMgr.CreateFs | server/contract/fs.go:289-322 | In place, Fs.CreateFs with its errors. |
| FsManager.FsMgr.AddOrder | server/contract/fs.go:324-448 | In place, Fs.AddOrder; a refused order leaves what the code leaves (a new pot, a new empty record). |
| FsManager.FsMgr.SubOrder | server/contract/fs.go:450-532 | In place, Fs.SubOrder with all its refusals. |
| FsManager.FsMgr.GetBalance | server/contract/fs.go:548-595 | Available and locked amounts, with the cap at MaxPay minus Lost and the keeper's part. |
| FsManager.FsMgr.Recharge | server/contract/fs.go:598-639 | In place, Fs.Recharge. |
| FsManager.FsMgr.ShareProfit | server/contract/fs.go:663-689 | The nested loops over tokens and keepers equal the recursive distribution. |
| FsManager.FsMgr.ShareDue | server/contract/fs.go:656-694 | The distribution happens at most once per period and moves lastTime only when it completes. |
| FsManager.FsMgr.PayOut | server/contract/fs.go:696-721 | In place, the payout: everything for 0 or too much, nothing deducted when the transfer fails. |
| FsManager.FsMgr.Withdraw | server/contract/fs.go:641-722 | In place, Fs.Withdraw with every error. |
| FsManager.FsMgr.Claim | server/contract/fs.go:736-759 | In place, the accounting of a claim: settlement, pot and balance. |
| FsManager.FsMgr.ProWithdraw | server/contract/fs.go:724-785 | In place, Fs.ProWithdraw with every error. |
| Registry.NewIsCoherent | server/contract/role.go:145-158 | A new registry is coherent. |
| Registry.ListsAreDistinct | server/contract/role.go:257-298 | No address and no token is listed twice. |
| Registry.OneGroupOnly | server/contract/role.go:477-553 | An index is in at most one list of at most one group. |
| Registry.RegisterKeeps | server/contract/role.go:281-298 | Index and address keep naming each other; roles stay. |
| Registry.RegisterTokenKeeps | server/contract/role.go:257-279 | Token index and address keep naming each other, and an accepted token is new and last. |
| Registry.RegisterRoleKeeps | server/contract/role.go:300-360 | Becoming keeper or provider keeps coherence and changes no role already taken. |
| Registry.RegisterUserKeeps | server/contract/role.go:362-400 | Becoming user keeps coherence and changes no role already taken. |
| Registry.CreateGroupKeeps | server/contract/role.go:425-450 | A new group keeps coherence. |
| Registry.SameMembersKeeps | server/contract/role.go:452-475 | Readiness and totals of a group may change freely. |
| Registry.AddKeeperToGroupKeeps | server/contract/role.go:477-521 | A keeper joins one group once; lists and activity stay in agreement, and an active group has enough keepers. |
| Registry.AddProviderToGroupKeeps | server/contract/role.go:523-553 | The same for providers. |
| RegistryEffects.RegisterEffect | server/contract/role.go:281-298 | A new address gets the next index, as an account in no group; a known one is refused; all others stay what they are. |
| RegistryEffects.RegisterRoleEffect | server/contract/role.go:300-360 | An account takes exactly the role asked for when its pledge reaches the need; every refusal has its error; no other index changes. |
| RegistryEffects.RegisterUserEffect | server/contract/role.go:362-400 | An account becomes a user, served by the group it names, which must be open; no other index changes. |
| RegistryEffects.CreateGroupEffect | server/contract/role.go:425-450 | Only the administrator opens a group, without members. |
| RegistryEffects.SetReadyEffect | server/contract/role.go:452-475 | A group gets ready before it is active, with enough signatures; no other group changes. |
| RegistryEffects.AddKeeperEffect | server/contract/role.go:477-521 | A keeper in no group joins as the last of the list; as many as the level asks for make the group active; no other index or group changes. |
| RegistryEffects.AddProviderEffect | server/contract/role.go:523-553 | The same for providers, which make no group active. |
| RegistryEffects.AddToGroupEffect | server/contract/role.go:838-840 | The totals of one group move by size and price, and nothing else does. |
| SystemRuns.RegisterTokenKeeps | server/contract/role.go:257-279 | The pool never rejects a token the registry accepts: registration fails if and only if the token is known, and keeps every contract sound either way. |
| SystemRuns.CreateGroupKeeps | server/contract/role.go:425-450 | A new group's contract owes nothing and keeps all others sound. |
| SystemRuns.AddKeeperKeeps | server/contract/role.go:477-521 | Group list and storage manager list stay the same list. |
| SystemRuns.PledgeKeeps | server/contract/role.go:570-601 | A successful pledge keeps every contract sound, the administrator's approval included. |
| SystemRuns.WithdrawKeeps | server/contract/role.go:603-630 | A withdrawal from the pool, to whomever, successful or not, keeps every contract sound. |
| SystemRuns.RechargeKeeps | server/contract/role.go:632-666 | A recharge keeps every contract sound, also when it fails and leaves the approval and a new pot behind. |
| SystemRuns.StorageKeeps | server/contract/role.go:668-729 | Withdraw and ProWithdraw of storage keep every contract sound even when they fail and nothing is undone. |
| SystemRuns.AddOrderKeeps | server/contract/role.go:732-889 | An order with its issuance keeps every contract sound even when it fails and nothing is undone. |
| SystemRuns.SubOrderKeeps | server/contract/role.go:891-939 | A closed order keeps every contract sound. |
| SystemRuns.StepKeepsInv | server/contract/role.go:257-939 | Every operation of the role manager and every outside step keeps the invariant of the whole system. |
| SystemRuns.Run | server/contract/role.go:257-939 | Every reachable state satisfies it. |
| SystemRuns.NewSysInv | server/contract/role.go:86-165 | Runs start from a new role manager. |
| SystemRuns.SystemIsSafe | server/contract/role.go:257-939 | In every reachable state the pool owns what it reports, each storage manager owns balances, pot and escrow net of each other in every token, the pool's tokens are the registry's without duplicates, and each group's keepers are its storage manager's. |
| SystemRaw.FailedPledgeKeeps | server/contract/role.go:570-601 | After a pledge whose transfer fails, with the approval and the half-done settlement left behind, every contract is sound if and only if no token-0 reward of the staker was waiting. |
| SystemRaw.CallKeepsInv | server/contract/role.go:257-939 | Every operation and every outside step, successful or not and with nothing undone, keeps every contract sound if and only if it is not such a pledge. |
| SystemRaw.RawRun | server/contract/role.go:257-939 | Every state reached without such a pledge is sound, with nothing undone; the result's contract is the induction. |
| SystemRaw.RawSystemIsSafe | server/contract/role.go:257-939 | The safety of SystemRuns.SystemIsSafe in every such state. |
| SystemOutside.OutsiderIsAllowed | server/contract/erc20.go:72-215 | Any token call by somebody who is no contract of the system, negative mints aside, is an outside step that the run theorems allow. |
| SystemOutside.NewTokenIsAllowed | server/contract/erc20.go:25-42 | A token created, or created again at the address of an earlier one, by somebody who is no contract is such a step if and only if no contract holds the token that it replaces. |
| SystemTotals.StepMovesTotal | server/contract/role.go:838-936 | Every operation moves a group's price as it moves the running price of the group's settlements in the main token, less the price of an order that it closes in another token. |
| SystemTotals.OtherTokenLowersTotal | server/contract/role.go:935-936 | An order in another token that fits what was added closes at any price, and the group's price falls below the settlements' by as much. |
| SystemTotals.GroupPriceFollows | server/contract/role.go:732-936 | From creation, over every run: each group's price is the running price of its settlements in the main token less the prices of the orders closed in other tokens. |
| SystemClaims.StepSettles | server/contract/role.go:668-939 | What every operation of the system does to the settlements of every group: what the order or claim it takes there does, or nothing. |
| SystemClaims.StepTracksAll | server/contract/role.go:668-939 | An operation in order keeps every group's settlements the summaries of their orders. |
| SystemClaims.SystemClaimsCovered | server/contract/role.go:668-939 | In every state reached by operations in order, every storage manager owns the balances, the pot and the unpaid escrow in every token, but for the fee shortfall. |
| SystemClaims.NewIsAllTracked | server/contract/role.go:86-165 | Runs start from a new role manager, which has no orders. |
| SystemRuns.RolesNeverChange | server/contract/role.go:281-400 | Over every run an index keeps its address and a role once taken never changes. |
| Collateral.ViewGrows | server/contract/pledge.go:68-113 | Money that arrives in the pool lowers nobody's reported balance. |
| Collateral.WithdrawKeepsLock | server/contract/pledge.go:286-317 | After a withdrawal, to any payee, the caller still has the smaller of lock and former balance reported in token 0, and nobody else has less than before. |
| Collateral.RolesAreCovered | server/contract/role.go:300-360 | Only an index whose reported balance reaches the threshold takes the role of keeper or provider. |
| Collateral.OthersFeedPool | server/contract/role.go:632-939 | No storage, order or registration call takes main tokens out of the pool. |
| Collateral.StepKeepsCollateral | server/contract/role.go:257-939 | Every operation that does not raise a threshold keeps every keeper's and provider's reported pledge at or above its threshold. |
| Collateral.CollateralStays | server/contract/role.go:622-629 | So does every run of the whole system: as long as the thresholds are not raised, no sequence of withdrawals gets a keeper or provider below its pledge. |
| Collateral.NewIsCollateralised | server/contract/role.go:86-165 | Runs start from a new role manager. |
| SystemEffects.WithdrawEffect | server/contract/role.go:603-630 | When a withdrawal from the pool succeeds, the address registered for the index gets what GetBalance reports in that token less the lock of its role in token 0, capped by a positive request, out of the pool's account; no other account, and no other contract, changes. Every refusal has its error and changes nothing. |
| SystemEffects.PledgeEffect | server/contract/role.go:570-601 | A pledge succeeds if and only if the index is known, its address or the administrator calls, and the pool had the allowance on the payer before; the payer's account pays, and the report of that index grows by the money. |
| SystemStorage.RechargeEffect | server/contract/role.go:632-666 | The same for a deposit, with the storage manager of the index's group. |
| SystemStorage.WithdrawFromFsEffect | server/contract/role.go:708-729 | Withdraw pays the address registered for the index out of the account of its group's storage manager; for a keeper, and nobody else, the pots are distributed before. |
| SystemStorage.ProWithdrawEffect | server/contract/role.go:668-706 | ProWithdraw pays the address registered for the provider all that it has after its claim, and leaves nothing; a paid claim in the main token adds the newly admitted loss to totalPaid. |
| SystemStorage.AddOrderEffect | server/contract/role.go:732-889 | An order goes through if and only if it has a size, a duration and an end at midnight, its parties fit, its token is listed, the storage manager of the user's group takes it, and a reward that is due can be paid; the calling keeper counts it. When the reward cannot be paid the order stays, and so does the issuance time. |
| SystemStorage.SubOrderEffect | server/contract/role.go:891-939 | An order is closed if and only if its parties fit, the user has that role, and the storage manager of its group can close it; a refused call changes nothing. |
| SystemMembers.RegisterRoleEffect | server/contract/role.go:300-360 | An index becomes keeper or provider if and only if it is an account to which the pool reports the threshold of that role in token 0. |
| SystemMembers.RegisterUserEffect | server/contract/role.go:362-400 | Registry and storage manager take a user at once, if and only if the group is open and the storage manager does not know it as active. |
| SystemMembers.AddKeeperEffect | server/contract/role.go:477-521 | Group and storage manager take a keeper at once, with a count of 1. |
| SystemMembers.RegistryCalls | server/contract/role.go:281-567 | Register, AddProviderToGroup, SetReady and SetPledgeMoney change the registry alone. |
| SystemMembers.RegisterTokenEffect | server/contract/role.go:257-279 | Registry and pool take a token under the same index if and only if it is not listed; nothing is reported in it, and all other reports stay. |
| SystemMembers.CreateGroupEffect | server/contract/role.go:425-450 | The storage manager of a new group owes nothing, knows nobody and has index 0 for its foundation. |
| SystemMembers.NewSystem | server/contract/role.go:86-165 | What a new system consists of. |
| SystemMembers.FoundationStays | server/contract/role.go:145-158 | Over every run index 0 stays the foundation's address, and every storage manager credits index 0 with the hundredths. |
| FsDirectory.FsDir.Called | server/contract/role.go:385-390 | A call of one group's storage manager leaves the states of all others, whose settlement objects are different ones. |
| FsDirectory.FsDir.CreateFs | server/contract/role.go:362-400 | One group's CreateFs; the others keep their states. |
| FsDirectory.FsDir.AddKeeper | server/contract/role.go:502-510 | One group's AddKeeper; the others keep their states. |
| FsDirectory.FsDir.AddOrder | server/contract/role.go:782-794 | One group's AddOrder; the others keep their states. |
| FsDirectory.FsDir.SubOrder | server/contract/role.go:925-933 | One group's SubOrder; the others keep their states. |
| FsDirectory.FsDir.Recharge | server/contract/role.go:647-665 | One group's Recharge; the others keep their states. |
| FsDirectory.FsDir.Withdraw | server/contract/role.go:723-728 | One group's Withdraw; the others keep their states. |
| FsDirectory.FsDir.ProWithdraw | server/contract/role.go:683-697 | One group's ProWithdraw; the others keep their states. |
| FsDirectory.FsDir.Create | server/contract/role.go:442-447 | A new storage manager joins; the others are the same objects in the same states. |
| RoleManager.RoleMgr.constructor | server/contract/role.go:86-165 | The new object is the new system. |
| RoleManager.RoleMgr.Register | server/contract/role.go:281-298 | In place, on the state of all contracts, exactly the System operation: a known address is refused, a new one gets the next index. |
| RoleManager.RoleMgr.RegisterToken | server/contract/role.go:257-279 | In place, on the state of all contracts, exactly the System operation: registry and pool take the token together. |
| RoleManager.RoleMgr.RegisterKeeper | server/contract/role.go:300-329 | In place, on the state of all contracts, exactly the System operation: needs a reported token-0 balance of the keeper threshold. |
| RoleManager.RoleMgr.RegisterProvider | server/contract/role.go:331-360 | In place, on the state of all contracts, exactly the System operation: needs a reported token-0 balance of the provider threshold. |
| RoleManager.RoleMgr.RegisterUser | server/contract/role.go:362-400 | In place, on the state of all contracts, exactly the System operation: the role is given only when the storage manager accepts the user. |
| RoleManager.RoleMgr.SetPledgeMoney | server/contract/role.go:561-567 | In place, on the state of all contracts, exactly the System operation: new thresholds. |
| RoleManager.RoleMgr.CreateGroup | server/contract/role.go:425-450 | In place, on the state of all contracts, exactly the System operation: a group gets a new storage manager. |
| RoleManager.RoleMgr.SetReady | server/contract/role.go:452-475 | In place, on the state of all contracts, exactly the System operation: with its four refusals. |
| RoleManager.RoleMgr.AddKeeperToGroup | server/contract/role.go:477-521 | In place, on the state of all contracts, exactly the System operation: group and storage manager take the keeper together. |
| RoleManager.RoleMgr.AddProviderToGroup | server/contract/role.go:523-553 | In place, on the state of all contracts, exactly the System operation: the group takes the provider. |
| RoleManager.RoleMgr.Mint | server/contract/role.go:797-886 | In place, on the state of all contracts, exactly the System operation: issuance; the clock moves only when nothing is due or the transfer succeeds. |
| RoleManager.RoleMgr.AddOrder | server/contract/role.go:732-889 | In place, on the state of all contracts, exactly the System operation: refusals in order, the storage manager's order, then group totals and issuance for the main token only. |
| RoleManager.RoleMgr.Pledge | server/contract/role.go:570-601 | In place, on the state of all contracts, exactly the System operation: refusals, the administrator's approval, the pool's Pledge. |
| RoleManager.RoleMgr.Withdraw | server/contract/role.go:603-630 | In place, on the state of all contracts, exactly the System operation: the lock by role, paid to the registered address. |
| RoleManager.RoleMgr.Recharge | server/contract/role.go:632-666 | In place, on the state of all contracts, exactly the System operation: refusals, the administrator's approval, the storage manager's Recharge. |
| RoleManager.RoleMgr.ProWithdraw | server/contract/role.go:668-706 | In place, on the state of all contracts, exactly the System operation: an accepted claim in the main token adds the newly admitted loss to totalPaid. |
| RoleManager.RoleMgr.WithdrawFromFs | server/contract/role.go:708-729 | In place, on the state of all contracts, exactly the System operation: the storage manager's Withdraw for the member's group. |
| RoleManager.RoleMgr.SubOrder | server/contract/role.go:891-939 | In place, on the state of all contracts, exactly the System operation: refusals, the storage manager's SubOrder, then the group totals for every token. |
| RoleManager.RoleMgr.AddBucket | server/contract/role.go:798-811 | In place, price and size of an order enter the bucket of its end. |
| RoleManager.RoleMgr.CrossDay | server/contract/role.go:819-835 | In place, the amount due and the bucket that leaves when a day is crossed. |
| RoleManager.RoleMgr.RaiseLevel | server/contract/role.go:860-873 | The in-place loop over the mint levels, which overwrites spaceTime, equals Issuance.MintLoop. |

## Left out

- RoleManager.RoleMgr.RegisterUser: a group index equal to the number of groups makes the source index out of range (role.go:376-380); it is refused with ErrInput here.
- RoleManager.RoleMgr.Mint: a clock before lastMint makes up a full day, as the wrapped difference does (role.go:815), except within the last day before 2^64 seconds, where the source's sum wraps, too.
- Collateral.CollateralStays: not for runs in which SetPledgeMoney raises a threshold (role.go:561-567), which leaves whoever has less pledged below it.
- FsManager.FsMgr.GetBalance: a missing pot, a nil pointer in the source (fs.go:584, 516, 748), reads as 0; `FsRecords.Agree` shows that the pot exists wherever an order or settlement does.
- FsManager.FsMgr.Withdraw: does not write the paid amount back into the caller's argument (fs.go:708).
- FsManager.FsMgr.PayOut: the same.
- Erc.GlobalMap.SendBalance: no ErrMisType for an address that holds a contract of another kind; the map of contracts holds tokens only, and the other contracts are reached by reference.
- Erc.GlobalMap.SendBalanceFrom: the same.
- Erc.GlobalMap.Approve: the same.
- Earnings.ProviderEarnings: nothing is claimed about the settlement's size, which doubles (fs.go:90), nor about out-of-order histories beyond the exact conditions given.
- Repairs (AddRepair, SubRepair, the repair record and LostPaid): not reachable through the node's interface, and their fee has no source of money.
- Channels, penalties and mint table tuning: stored or declared, with no effect on the modelled state.
- Signatures, BLS keys and the Extra field: never looked at by the contracts.
- Address derivation and hashing: an address is a value, a derived one a parameter.
- Node, HTTP interface, client, message formats, key utilities, logging, real-time clock switching: wrappers around the contracts.
- Getters that only copy a field or a list.
- Shared records: rewardInfo, storeInfo, fsInfo, BaseInfo and GroupInfo are values in maps, not shared pointers; settlements are objects.
- Long source methods are split into helper methods here, which do not exist in the source.
- Width of counters and indices (nonces, keeper counts, token and address indices): unbounded naturals.
- The totalPledge field of the role manager, which nothing reads.
