# Verified model of the Principal settlement engine

This project models the smart contracts that split a regulated, yield-bearing asset into principal
(PT) and yield (YT) on Stellar, and proves what whole runs of a market keep. Seven contracts take
part: the oracle price, the share wrapper around the underlying asset (SY), the PT and YT tokens, the
manager that moves value between them, the recovery escrow that seizes and unwinds positions, and,
as a machine of its own, the deposit circuit breaker.

`dafny verify dfyconfig.toml` checks everything.

## How it is built

Every contract appears twice. Its entry points are pure functions returning a `Result`, with the
panics of the code in the order of the code; and it is a class whose fields are the contract's storage
and whose methods write that storage step by step, as the code does. Each method is proved to do
exactly what the function says, including which error it raises. `Market.Host.Execute` runs one
transaction on the classes and rolls every contract back if a call panics; it is proved equal to
`Market.Next`. `Market.Run` is a sequence of transactions, where any account may try any entry point,
including the ones reserved for the manager and the escrow, and where time, issuer authorization,
eligibility, the asset's administrator and the price change in between.

| file | contents |
|---|---|
| `Base`, `Arith` | addresses, panics, balance maps and their sums; floor division |
| `Network`, `Sep41` | ledger clock, underlying asset, eligibility; allowances and the transfer gate |
| `OracleAdapter`, `SYWrapper`, `PTToken`, `YTToken`, `PrincipalManager`, `RecoveryEscrow`, `RiskControl` | one contract each |
| `YieldLedger`, `YieldRow`, `LazyEager` | the accrual engine behind YT, one account's view of it, and the eager ledger it is compared with |
| `World`, `Market`, `Effects`, `History` | state of a market, transactions and runs, what a successful call does to the whole, the invariant of every run |
| `Calls`, `Refusals`, `Positions` | for each call the exact condition of success and the new state on plain balances and sets, what its errors say, and the run laws of balances and allowances |
| `Schedule` | the formulas of a settlement schedule, and the code's credits against them |
| `Accrual`, `Backing`, `Surplus`, `Tilt`, `Solvency`, `Witness`, `Compliance` | the results |

The runs of a market and the accrual engine are tied together by `History.RunTraced`: the YT side of
any run is a sequence of five kinds of ledger events (index, move, issue, destroy, claim), and every
claim among them was paid to its holder in full.

## Where code and documentation disagree

* The documentation promises that principal and yield claims together always equal the underlying
  (docs/TECHNICAL_SPECIFICATION.md:131-137), and the YT contract's header says that the multiplicative
  index makes payouts exceed custody no more. The code does not keep this. A settlement interval from
  rate r to R pays b(R-r)/R, which is more than b units of PT lose over it as soon as r is above par.
  `Surplus` gives the market-wide law as an equation: every transaction changes the surplus of custody
  over all claims by its drift and, in favour of custody, by no more than its roundings. The drift has
  four parts: index moves, PT redeemed alone at a price the index has not met, shares given to the
  manager and shares seized from it. So the documented equation holds up to the roundings exactly as far
  as the drift stays small (`CustodyMeetsClaims`); a market at par keeps it
  (`Tilt.ParMarketMeetsClaims`), and a shortfall stays (`ShortfallRemains`).
  Only index moves and seizure can lower the surplus. `Tilt.IndexUpdateLosesIff` says exactly when an
  index move does, on the code's integers and before the call. Read without the floor, that is when YT,
  weighted by how far above par it was last settled, outweighs PT: then a move always loses surplus, and
  otherwise it loses at most what one unit of index is worth (`Tilt.IndexUpdateMovesSurplus`).
  `Schedule` and `Solvency` give the same for one position on its settlement schedule, from the exact
  formulas down to what the code pays over a run; `Witness` replays the documented run from deployment,
  with no other customer in the market, up to a redemption that is refused although every gate is open.
* The circuit breaker is documented as a rolling 24-hour limit. It is a window that restarts with the
  first deposit after it has lapsed. A 24-hour span can take in twice the limit, for every limit
  (`RiskControl.RollingLimitFails`), never more (`SpanBound`). `RollingLimitIff` says when the limit does
  hold for the next deposit: the window is used up, or nothing accepted in the trailing 24 hours predates
  the window that the deposit falls into.
* "Exact for any number of calls" (contracts/yt_token/src/lib.rs:442) is true of index updates only up to
  one unit per accepted update: from par over 1.08 to 1.10 the index comes out one unit low
  (`YieldLedger.UpdateInexact`). `IndexPathIndependent` has the bound and `IndexExactIff` the exact
  condition. What the documentation promises elsewhere, that yield does not depend on the updates in
  between but for floor rounding (docs/PROOF_OF_CONCEPT.md:471, docs/SECURITY.md:239), the code keeps:
  `SettleAccuracyInMarket` bounds the rounding. It promises nothing about settlements in between; how
  these change what is paid is `YieldLedger.SettlingBetweenIff`.
* `redeem` documents 0 as "skip this leg". A negative amount is skipped in the same way; the model
  follows the code.

## Assumptions

The ledger clock and sequence number never go back. The market is wired: the manager is the only
minter, the escrow is registered with wrapper and tokens, and wrapper, manager and escrow are three
different addresses. A contract's own address signs no transaction. Amounts are unbounded integers;
`Accrual.ArithmeticBounded` shows separately that the products of index updates and settlements fit
128 bits. `Inv` in the lemmas below is the invariant of `History`; it holds at deployment and is kept
by every transaction, so it names no restriction on reachable states.

## Model

| member | source | states |
|---|---|---|
| Accrual.LazyRefinesEagerInMarket | contracts/yt_token/src/lib.rs:443-611 | for every run from deployment and every set of holders, paid, pending and not-yet-settled yield together are at most what an eager ledger crediting the whole supply at each index move would have granted |
| LazyEager.RowBelowEager | contracts/yt_token/src/lib.rs:582-611 | for one account, floored credits so far plus its unsettled yield never exceed its eager credits, through any balance changes and claims |
| LazyEager.LazyRefinesEager | contracts/yt_token/src/lib.rs:443-611 | the same sum over any holders, for every history of the accrual engine since genesis |
| Accrual.IndexPathIndependent | contracts/yt_token/src/lib.rs:443-476 | after k accepted moves from genesis rate r0 to r the index f satisfies SCALE*r0 - k*(r-1) <= f*r <= SCALE*r0, so it is floor(SCALE*r0/r) up to k, whatever lay in between |
| Accrual.IndexExactIff | contracts/yt_token/src/lib.rs:439-472 | in every reachable state a higher price R brings the index to floor(SCALE*r0/R) if and only if the shortfall so far and the remainder now dropped stay below R |
| YieldLedger.UpdateInexact | contracts/yt_token/src/lib.rs:439-442 | from par over 1.08 to 1.10 the index is 9090908 where SCALE*SCALE/11000000 is 9090909, so updates are not exact |
| YieldRow.IndexRateProduct | contracts/yt_token/src/lib.rs:460-472 | index times recorded rate never grows, and loses at most one remainder per accepted move, from any starting point |
| Accrual.ScheduleBoundInMarket | contracts/yt_token/src/lib.rs:582-611 | an account whose balance b stays the same through a run, settled m times while its snapshot goes from f0 to f, is credited T with b*(f0-f)/f0 - m < T <= b*(f0-f)/f |
| YieldRow.ScheduleBound | contracts/yt_token/src/lib.rs:582-611 | the same bound for any steady sequence of acts on one account |
| Accrual.SettleAccuracyInMarket | contracts/yt_token/src/lib.rs:466-594 | an account left alone from a snapshot at recorded rate r to recorded rate R over k moves is owed at least floor(b*(R-r)/R) and at most b*(R-r)/R + b*k/f0 |
| YieldRow.SettleAccuracy | contracts/yt_token/src/lib.rs:591-594 | the same accuracy for one account of the accrual engine |
| Accrual.PaidExactlyOnce | contracts/principal_manager/src/lib.rs:356-414 | in every run, all that settlement ever credited to an account equals the yield paid to it by claims and redemptions plus its pending claim |
| Accrual.NothingLeftAfterClaim | contracts/principal_manager/src/lib.rs:356-414 | after a claim, any run in which the index does not move pays the account no yield, and neither does a claim or a redemption of any amounts of PT and YT after that run |
| Accrual.TakenIsPaidNothing | contracts/yt_token/src/lib.rs:482-611 | the same for any account with nothing pending and its snapshot at the index, however it got there |
| YieldRow.CreditedOnce | contracts/yt_token/src/lib.rs:482-611 | credited yield is collected or pending, never both, through any acts on an account |
| Accrual.BalanceChangesKeepClaims | contracts/yt_token/src/lib.rs:17-23 | no transfer, seizure, mint or burn changes what any account could claim at the current index |
| Accrual.OnlyClaimsTake | contracts/yt_token/src/lib.rs:17-23 | over any history what an account could claim never falls except by its own claims |
| Accrual.MintEarnsNothingPast | contracts/principal_manager/src/lib.rs:296-306 | a mint settles the old holding at the index of the price that valued the new one, and the position is owed nothing of any earlier move |
| Accrual.AccountsAreIndependent | contracts/yt_token/src/lib.rs:238-431 | two runs, even of two markets, in which the same operations concern an account leave it the same YT balance, snapshot and pending claim and pay it the same yield, whatever everyone else did |
| YieldRow.Projection | contracts/yt_token/src/lib.rs:572-611 | an account's balance, snapshot and pending claim after any history are those of its projection onto index updates and the operations naming it |
| YieldRow.ProjectionTotals | contracts/yt_token/src/lib.rs:482-611 | so are the yield credited to it, the yield it claimed and the number of index moves |
| YieldRow.NonInterference | contracts/yt_token/src/lib.rs:238-431 | two histories of the accrual engine with the same projection agree on the account |
| Accrual.ArithmeticBounded | contracts/yt_token/src/lib.rs:443-611 | in every reachable state 0 <= index <= every snapshot <= SCALE, a holder has a snapshot, a settlement credits at most the balance, and the products of updates and settlements fit 128 bits if SCALE times genesis rate and SCALE times supply do |
| Accrual.UpdateMovesIndexDown | contracts/yt_token/src/lib.rs:435-476 | a positive index strictly falls at a higher price; at an unchanged price the whole ledger stays as it is; the recorded rate is the price afterwards |
| YieldLedger.IndexFalls | contracts/yt_token/src/lib.rs:460-472 | the index never rises, and falls strictly while positive |
| YieldLedger.OwedBounded | contracts/yt_token/src/lib.rs:591-594 | the credited amount is the floor of balance*(snapshot-index)/snapshot, hence at most the balance |
| YieldLedger.ApplyKeepsSound | contracts/yt_token/src/lib.rs:572-611 | every event keeps the index below all snapshots, a snapshot for every holder, and the supply equal to the sum of balances; rates only rise |
| SYWrapper.DepositKeepsRate | contracts/sy_wrapper/src/lib.rs:164-213 | from any state with shares and a positive rate, a deposit never lowers the exchange rate |
| SYWrapper.WithdrawKeepsRate | contracts/sy_wrapper/src/lib.rs:216-270 | a withdrawal never lowers it for those who stay |
| SYWrapper.RoundTripNeverGains | contracts/sy_wrapper/src/lib.rs:164-270 | depositing and withdrawing the minted shares never returns more than was deposited, although the deposit may itself have raised the rate |
| SYWrapper.PricesAreFloors | contracts/sy_wrapper/src/lib.rs:275-413 | from any state the exchange rate and both conversions are the floors of their quotients, 1:1 without shares and an error at a rate of zero |
| SYWrapper.OneToOneRate | contracts/sy_wrapper/src/lib.rs:275-413 | with shares equal to underlying the rate is exactly SCALE and both conversions are the identity |
| SYWrapper.DepositKeeps | contracts/sy_wrapper/src/lib.rs:164-213 | in a one-to-one wrapper a deposit mints exactly the amount paid and keeps shares, underlying and holdings equal |
| SYWrapper.WithdrawKeeps | contracts/sy_wrapper/src/lib.rs:216-270 | in a one-to-one wrapper a withdrawal pays exactly the shares burnt and keeps the equality |
| Backing.WrapperStaysOneToOne | contracts/sy_wrapper/src/lib.rs:164-413 | in every reachable state underlying, shares and the sum of share balances are equal and covered by the asset the wrapper holds, so any payout survives conversion to shares and back unchanged |
| Backing.CustodyConserved | contracts/principal_manager/src/lib.rs:284-409 | the manager's SY balance is shares from mints plus direct transfers in, less all underlying paid on PT and YT and less what was seized from the manager itself |
| Backing.PtAlwaysBacked | contracts/principal_manager/src/lib.rs:278-353 | in every run from deployment PT supply times SCALE is at most (shares taken in by mints - underlying paid on PT) times the current price, and PT payouts never exceed those shares |
| Backing.SuppliesLedgered | contracts/principal_manager/src/lib.rs:263-382 | both supplies are the sums of their balances in every reachable state, are equal before maturity, and neither rises afterwards |
| Backing.PositionPays | contracts/principal_manager/src/lib.rs:324-382 | a position n of any rate r whose snapshot stands at the index f0, left alone by any run with k index moves and redeemed at R, is paid more than n*(SCALE+R-r)/R - 2 and at most n*(SCALE+R-r)/R + n*k/f0 |
| Backing.PositionConserved | contracts/principal_manager/src/lib.rs:263-382 | N minted at par, left alone by any run with k index moves and then redeemed brings back, PT and YT together, between N-1 and N + N*k/SCALE |
| Backing.ClaimSucceedsIff | contracts/principal_manager/src/lib.rs:389-414 | a claim goes through if and only if the gates of manager and wrapper are open and custody covers what is due |
| Backing.RedeemSucceedsIff | contracts/principal_manager/src/lib.rs:324-382 | a redemption of any pair of amounts goes through if and only if the gates are open, the balances suffice, principal comes to at least one unit and custody covers both legs together |
| Backing.SplitSucceedsIff | contracts/principal_manager/src/lib.rs:263-315 | shares can be split if and only if the gates are open, the caller is eligible for both tokens and the notional does not round to zero |
| Backing.RedemptionArrives | contracts/principal_manager/src/lib.rs:346-371 | what a redemption reports for both legs is exactly what the redeemer's own underlying balance gains and the wrapper's loses |
| Surplus.StepSurplus | contracts/principal_manager/src/lib.rs:263-414 | every transaction, by anyone, changes custody minus all PT and yield claims by exactly its index effect, PT paid late, gifts and seizures, plus at most one unit for each account settled and each PT leg and SCALE/price for a split |
| Surplus.RunSurplus | contracts/principal_manager/src/lib.rs:263-414 | the same from both sides over whole runs, drift and roundings adding up |
| Surplus.CustodyMeetsClaims | docs/TECHNICAL_SPECIFICATION.md:131-137 | from deployment custody differs from all PT and yield claims by the drift, up to the accumulated roundings; the documented equation holds within a tolerance and the roundings if the drift is within the tolerance, and only if it is within both |
| Surplus.ShortfallRemains | contracts/principal_manager/src/lib.rs:324-414 | from a market short of its claims, whatever run follows leaves claims worth the shortfall, less only the run's drift and roundings |
| Tilt.IndexUpdateEffect | contracts/yt_token/src/lib.rs:460-472 | an index update from rate r to R moves the surplus by tilt*(R-r)/(r*R), less at most one unit of index on all YT, where tilt is S*SCALE - f*r*sum(b/s): PT against YT weighted by its snapshots |
| Tilt.IndexUpdateLosesIff | contracts/yt_token/src/lib.rs:460-472 | an index update from r to R lowers the surplus if and only if S*SCALE*(R-r) < sum(b/s) * (drop of the floored index) * r*R, all known before the call |
| Tilt.IndexUpdateMovesSurplus | contracts/yt_token/src/lib.rs:435-476 | updating the index at a higher price strictly lowers the surplus if YT outweighs PT, and takes at most one unit of index if not |
| Tilt.StaysCovered | contracts/principal_manager/src/lib.rs:263-414 | from deployment, as long as no move of the index to a higher price meets YT that outweighs PT, custody covers all PT and all yield together, up to one unit of index per such move and what was seized from the manager |
| Tilt.ParHoldingsLevel | contracts/yt_token/src/lib.rs:582-611 | YT last settled at par or below never outweighs PT while its supply does not exceed PT's |
| Tilt.HoldingAboveParTilts | contracts/yt_token/src/lib.rs:582-611 | with supplies in step and nobody settled below par, a single holding settled above par makes YT outweigh PT |
| Tilt.ParMarketMeetsClaims | docs/TECHNICAL_SPECIFICATION.md:131-137 | a market deployed at par whose index moves only while all YT was settled at par and is matched by PT, without late PT, gifts or seizure, keeps the equation: within one unit of index per move below, k of them for k moves above, and the roundings |
| Tilt.CoveredMarketSettles | contracts/principal_manager/src/lib.rs:324-382 | in a covered market with open gates custody never refuses a redemption: it goes through if and only if PT, where given, is worth at least one unit |
| Schedule.PayoutIdentity | contracts/yt_token/src/lib.rs:25-43 | in exact arithmetic, principal plus yield over any settlement schedule is the deposit plus the sum over intervals of b*(r-SCALE)*(R-r)/(r*R) |
| Schedule.SettlingBetween | contracts/yt_token/src/lib.rs:577-581 | in exact arithmetic, settling in between never pays less than settling once, and pays the same if and only if the rate stands still before or after |
| YieldLedger.SettlingBetweenIff | contracts/yt_token/src/lib.rs:591-594 | on the code's floors, settling at index f between s and z pays at least as much as settling once, or the same, if and only if floor(b*(f-z)/f) compares so with floor(((b*(s-f)) mod s + b*(f-z))/s), and never more than one unit less |
| YieldLedger.SettlingBetweenWitness | contracts/yt_token/src/lib.rs:591-594 | three units settled at 0.8 and 0.64 are credited nothing where one settlement credits a unit; and a balance for which both come to the same although the index fell twice |
| Schedule.PointsTrack | contracts/yt_token/src/lib.rs:443-611 | the schedule read off an account's acts is the one its settlements follow: index, rate and accepted moves at each of them, rates rising |
| Schedule.CreditFollowsSchedule | contracts/yt_token/src/lib.rs:582-611 | a steady balance b settled m times at recorded rates r0..rm is credited at most sum b*(r_i - r_(i-1))/r_i + b*sum k_i/f_(i-1), and more than that sum less m while the index is above zero |
| Solvency.PaidWithinDepositIff | docs/TECHNICAL_SPECIFICATION.md:131-137 | on the settlement rates of a position opened at or above par, exact principal and yield are within the deposit if and only if no interval with a rising rate starts above par |
| Solvency.ScheduledPayouts | contracts/principal_manager/src/lib.rs:324-414 | in the code's integers, a position of any rate that claims as often as it likes through any run, its balance staying the same, and is then redeemed is paid in all its deposit plus the excess of its schedule, at most the carry more and less than one unit short for each settlement and the principal |
| Solvency.PaidAgainstDeposit | docs/TECHNICAL_SPECIFICATION.md:131-137 | so, opened at or above par, it is paid no more than its deposit and the carry if no interval starts above par, and otherwise its deposit and a positive excess up to those units |
| Solvency.SteadyRun | contracts/principal_manager/src/lib.rs:389-414 | a run that leaves a position alone but for its own claims keeps its balance the same, as Solvency.ScheduledPayouts asks |
| Solvency.LoneHolderCannotLeave | contracts/principal_manager/src/lib.rs:346-371 | if custody and what it was already paid are no more than its own deposit and the excess is worth one unit for each settlement and the principal, redeeming the whole position fails, whatever the schedule |
| Solvency.RecordedRunOverpays | docs/PROOF_OF_CONCEPT.md:714-719 | the documented amounts follow from the formulas: 370370500 + 90909542 + 4545454545 paid on 5000000000, more than one settlement at the end would have paid |
| Witness.DeployedRunCannotSettle | docs/PROOF_OF_CONCEPT.md:714-719 | a run from deployment reaches maturity with every gate open and the sole customer holding all PT and YT, where redeeming both is refused and redeeming PT alone goes through |
| Compliance.FrozenAccount | contracts/sy_wrapper/src/lib.rs:137-270 | over any run during which an account other than the escrow stays deauthorized or revoked, its SY, PT and YT are what they were less exactly what the escrow seized, it is paid no yield and what it could claim, pending and accrued, never falls |
| Compliance.RecoveryIsolated | contracts/recovery_escrow/src/lib.rs:145-253 | a run of seizures and finalizations leaves holdings, snapshot and pending claim of everyone but targets, escrow and manager untouched, never lowers what anyone but the escrow could claim, pending and accrued, targets included, and keeps the SY rate |
| Compliance.SeizureSplitsYield | contracts/yt_token/src/lib.rs:407-431 | seizing YT credits target and escrow each with what its own holding had earned to the current index, moves exactly the amount, and needs the live issuer and a deauthorized target |
| Compliance.SeizedSharesUnwrap | contracts/recovery_escrow/src/lib.rs:145-163 | seized shares leave the target, are burnt, and arrive one for one as underlying with the escrow |
| Compliance.ReservedCallsRefused | contracts/yt_token/src/lib.rs:350-495 | nobody but manager and escrow can mint, burn, seize, or settle a claim away without paying it |
| Compliance.AuthorizedIsNotSeized | contracts/recovery_escrow/src/lib.rs:302-307 | over any run during which an account stays authorized nothing is seized from it |
| Compliance.OnlyIssuerRecovers | contracts/recovery_escrow/src/lib.rs:293-300 | a call of the escrow by anyone but the live issuer fails and changes nothing |
| Positions.HoldingsAreBooked | contracts/pt_token/src/lib.rs:166-353 | over any run the SY, PT and YT of every account, manager and escrow included, are what they were plus what the calls moved by their arguments and return values |
| Positions.WhoCanTake | contracts/pt_token/src/lib.rs:166-226 | no balance of an ordinary account falls except by its own transaction, by a spender within its allowance, or by the issuer's seizure once it is deauthorized |
| Positions.AllowanceIsWhatIsLeft | contracts/yt_token/src/lib.rs:265-317 | for both tokens and every run, the current allowance and all the spender moved since the last approval come to the approved amount, with that approval's expiration |
| Positions.SpendingStaysWithinApproval | contracts/yt_token/src/lib.rs:275-295 | no spender moves more than is left of its last approval or after its expiration, and in a market since deployment none without an approval |
| Refusals.RefusalsAreTruthful | contracts/principal_manager/src/lib.rs:263-414 | in every reachable state the error of a refused transaction names a condition that really fails, call by call and error by error, and the transaction changes nothing |
| Calls.SetPriceCall | contracts/oracle_adapter/src/lib.rs:56-83 | a price is accepted if and only if the administrator submits a positive one no lower than the last with a later timestamp, and is then the reading |
| Calls.DepositCall | contracts/sy_wrapper/src/lib.rs:164-213 | exact success condition of a deposit in any reachable state; it moves the amount from the depositor to the wrapper and adds as many shares |
| Calls.WithdrawCall | contracts/sy_wrapper/src/lib.rs:216-270 | exact success condition of a withdrawal; the shares go and the amount moves from the wrapper to the receiver |
| Calls.ShareTransferCall | contracts/sy_wrapper/src/lib.rs:137-159 | exact success condition of a share transfer; the receiver gains what the sender loses, an account sending to itself nothing, and nobody else changes |
| Calls.PtTransferCall | contracts/pt_token/src/lib.rs:166-189 | the same for PT, with eligibility for the PT instrument on both sides |
| Calls.PtTransferFromCall | contracts/pt_token/src/lib.rs:191-226 | the same on an allowance that covers the amount and has not expired; the amount is taken off that allowance and no other changes |
| Calls.YtTransferCall | contracts/yt_token/src/lib.rs:238-263 | exact success condition of a YT transfer; units move, both sides are credited what they were owed and restart at the index, nobody else is touched |
| Calls.YtTransferFromCall | contracts/yt_token/src/lib.rs:265-299 | the same on an allowance that covers the amount and has not expired; the amount is taken off that allowance and no other changes |
| Calls.UpdateIndexCall | contracts/yt_token/src/lib.rs:443-476 | anyone can update if and only if the price is at most 3600 seconds old and not ahead of the clock; the index is floor(index*rate/price) at a higher price and stays at an equal one |
| Calls.RecoverSyCall | contracts/recovery_escrow/src/lib.rs:145-163 | shares are seized if and only if the live issuer signs, the target is deauthorized and holds them, and the wrapper's gates are open to the escrow; whole new state |
| Calls.RecoverPtCall | contracts/recovery_escrow/src/lib.rs:167-181 | PT is seized if and only if the live issuer signs and the target is deauthorized and holds it; it moves to the escrow and nothing else changes |
| Calls.RecoverYtCall | contracts/recovery_escrow/src/lib.rs:185-199 | the same for YT, both sides settled first |
| Calls.FinalizeCalls | contracts/recovery_escrow/src/lib.rs:206-253 | the escrow's PT or YT is redeemed if and only if the live issuer signs, the amount is positive and the manager would redeem it for the escrow |
| Calls.StalePriceStops | contracts/oracle_adapter/src/lib.rs:101-112 | with a price older than 3600 seconds or ahead of the clock no split, claim, redemption, finalization or index update goes through or changes anything |
| History.DeployedInv | contracts/yt_token/src/lib.rs:161-213 | a freshly deployed market satisfies the invariant |
| YTToken.InitializeExactly | contracts/yt_token/src/lib.rs:175-212 | the yield token is created if and only if the live issuer signs and the price is at most 3600 seconds old and not ahead of the clock; index SCALE, recorded rate the stored price, no units, snapshots, claims or allowances |
| History.CreatedMarketDeployed | contracts/yt_token/src/lib.rs:161-213 | that token beside a fresh wrapper, a fresh PT and an unpaused manager is the deployed market from which runs start, and satisfies the invariant |
| History.StepKeeps | contracts/principal_manager/src/lib.rs:263-414 | every transaction, successful or not, keeps the invariant; clock and price never go back; after maturity neither supply rises |
| History.RunKeeps | contracts/principal_manager/src/lib.rs:263-414 | so does every run |
| History.StepTraced | contracts/yt_token/src/lib.rs:238-495 | the YT ledger after any transaction is the one its events lead to, and each claim among them was paid in full |
| History.RunTraced | contracts/yt_token/src/lib.rs:238-495 | the same for whole runs, account by account |
| Effects.UpdateEffect | contracts/yt_token/src/lib.rs:443-476 | an index update goes through exactly when the price is at most 3600 seconds old and not ahead of the clock, and is then the index event of that price |
| Effects.PayOutEffect | contracts/principal_manager/src/lib.rs:346-371 | a payout delivers exactly what is asked, out of custody, and touches nothing but the wrapper and the underlying |
| Effects.PayOutSucceedsIff | contracts/principal_manager/src/lib.rs:346-371 | a payout goes through if and only if the wrapper's gates are open and custody covers it |
| Effects.MintEffect | contracts/principal_manager/src/lib.rs:263-315 | a successful split moves the shares into custody and issues the notional as PT and YT on the updated index; nothing else changes |
| Effects.RedeemPtEffect | contracts/principal_manager/src/lib.rs:346-354 | the PT leg burns, pays floor(amount*SCALE/price) exactly and keeps the wrapper one-to-one |
| Effects.PayClaimEffect | contracts/principal_manager/src/lib.rs:400-409 | a claim is paid in full or, when nothing is due, without touching the wrapper |
| Effects.RedeemEffect | contracts/principal_manager/src/lib.rs:324-382 | both legs in exact amounts, the new state of wrapper, tokens and custody, and the conditions a success implies |
| Effects.ClaimEffect | contracts/principal_manager/src/lib.rs:389-414 | a successful claim pays what is claimable at the updated index and leaves the settled ledger |
| Effects.SeizeSyEffect | contracts/recovery_escrow/src/lib.rs:145-163 | a successful share seizure moves, burns and unwraps exactly the seized shares |
| PTToken.MovesKeepSupply | contracts/pt_token/src/lib.rs:166-353 | transfers and seizures, also to oneself, change neither the supply nor its agreement with the balances |
| PTToken.MintKeepsBalance | contracts/pt_token/src/lib.rs:277-298 | a mint raises the supply by the amount and keeps the agreement |
| PTToken.BurnKeepsBalance | contracts/pt_token/src/lib.rs:300-323 | a burn lowers it by the amount, never below zero, and keeps the agreement |
| RiskControl.VolumeIsWindow | contracts/risk_control/src/lib.rs:203-261 | for any run whose limits stay in (0, L] the recorded volume is exactly what was accepted since the window start, and at most L |
| RiskControl.SpanBound | contracts/risk_control/src/lib.rs:203-261 | the deposits accepted in any 24-hour span total at most 2*L |
| RiskControl.SpanWithoutRollover | contracts/risk_control/src/lib.rs:232-249 | a span in which no window starts after its first second keeps to L |
| RiskControl.RollingLimitIff | contracts/risk_control/src/lib.rs:232-260 | every deposit the breaker lets through at t keeps the trailing 24 hours within the limit if and only if, before the call, the window is used up or nothing accepted in those hours predates the window the deposit falls into |
| RiskControl.RollingLimitFails | docs/SECURITY.md:133 | the documented rolling limit fails: for every limit there is a run that accepts twice the limit within two seconds |
| RiskControl.CheckExactly | contracts/risk_control/src/lib.rs:203-261 | a deposit is let through if and only if a registered consumer asks, the breaker is not paused, the amount is positive and the breaker is off or the window has room; the new volume and window start |
| RiskControl.RolesExactly | contracts/risk_control/src/lib.rs:85-268 | who can set the limit, pause, unpause and keep the lists, and the new state of each |
| OracleAdapter.Adapter.SetReference | contracts/oracle_adapter/src/lib.rs:56-83 | stores a positive price no lower than the last with a later timestamp, from the administrator, and refuses anything else with the code's error |
| OracleAdapter.Adapter.IsFresh | contracts/oracle_adapter/src/lib.rs:101-112 | true exactly for a reading no older than the bound and not ahead of the clock |
| OracleAdapter.FreshIff | contracts/oracle_adapter/src/lib.rs:101-112 | fresh is a reading stamped at most the bound before the clock and not after it |
| Network.Chain.TransferUnderlying | contracts/sy_wrapper/src/lib.rs:203-208 | the underlying moves only between authorized accounts and only if the sender has it; a refusal changes nothing |
| SYWrapper.Contract.Initialize | contracts/sy_wrapper/src/lib.rs:107-128 | a wrapper is created empty, and if and only if its signer is the asset's live administrator |
| PTToken.Contract.Create | contracts/pt_token/src/lib.rs:123-139 | a principal token is created empty, and if and only if its signer is the asset's live administrator |
| SYWrapper.Contract.MoveShares | contracts/sy_wrapper/src/lib.rs:137-159 | storage after a share transfer, or its first failing gate and unchanged storage |
| SYWrapper.Contract.DepositUnderlying | contracts/sy_wrapper/src/lib.rs:164-213 | storage and underlying after a deposit, effects before the asset transfer, or its error |
| SYWrapper.Contract.WithdrawUnderlying | contracts/sy_wrapper/src/lib.rs:216-270 | storage and underlying after a withdrawal, or its error |
| SYWrapper.Contract.SeizeShares | contracts/sy_wrapper/src/lib.rs:372-393 | forced move to the escrow, open while paused, or its error |
| PTToken.Contract.TransferTokens | contracts/pt_token/src/lib.rs:166-189 | balances after a transfer, or its first failing gate and unchanged storage |
| PTToken.Contract.TransferTokensFrom | contracts/pt_token/src/lib.rs:191-226 | balances and allowance after a transfer on allowance, or its error |
| PTToken.Contract.MintTokens | contracts/pt_token/src/lib.rs:277-298 | minter-only issue to an eligible account, or its error |
| PTToken.Contract.BurnTokens | contracts/pt_token/src/lib.rs:300-323 | minter-only burn, or its error |
| PTToken.Contract.SeizeTokens | contracts/pt_token/src/lib.rs:332-353 | escrow-only forced move, or its error |
| YTToken.Contract.Create | contracts/yt_token/src/lib.rs:161-213 | genesis index SCALE measured against the live, fresh price, for the issuer only |
| YTToken.Contract.SettleAccount | contracts/yt_token/src/lib.rs:582-611 | the three branches of settlement amount to crediting what the account is owed and moving its snapshot to the index |
| YTToken.Contract.MoveSettled | contracts/yt_token/src/lib.rs:250-259 | settling both sides one after the other and then moving is the move event, also when both sides are one account |
| YTToken.Contract.TransferTokens | contracts/yt_token/src/lib.rs:238-263 | storage after a transfer, or its first failing gate and unchanged storage |
| YTToken.Contract.TransferTokensFrom | contracts/yt_token/src/lib.rs:265-299 | storage after a transfer on allowance, or its error |
| YTToken.Contract.MintTokens | contracts/yt_token/src/lib.rs:350-372 | minter-only issue after settling the receiver, or its error |
| YTToken.Contract.BurnTokens | contracts/yt_token/src/lib.rs:374-398 | minter-only burn after settling the holder, or its error |
| YTToken.Contract.SeizeTokens | contracts/yt_token/src/lib.rs:407-431 | escrow-only forced move after settling both sides, or its error |
| YTToken.Contract.UpdateIndex | contracts/yt_token/src/lib.rs:443-476 | the index event of a fresh, higher price; nothing at a price not above the recorded rate; an error on a stale one |
| YTToken.Contract.Claim | contracts/yt_token/src/lib.rs:482-495 | settles, returns the pending claim and leaves it at zero, for the minter only |
| PrincipalManager.Contract.SplitShares | contracts/principal_manager/src/lib.rs:263-315 | state of all contracts after a split through four calls, or the first error among them |
| PrincipalManager.Contract.Pay | contracts/principal_manager/src/lib.rs:351-353 | state after a payout out of custody at the wrapper's rate, or its error |
| PrincipalManager.Contract.ClaimAndPay | contracts/principal_manager/src/lib.rs:400-409 | state after claiming as the minter and paying what was due, if anything |
| PrincipalManager.Contract.RedeemBoth | contracts/principal_manager/src/lib.rs:324-382 | state of all contracts and both amounts after a redemption, or the first error among its calls |
| PrincipalManager.Contract.ClaimAccrued | contracts/principal_manager/src/lib.rs:389-414 | state of all contracts and the amount after a claim, or its error |
| RecoveryEscrow.Contract.SeizeShares | contracts/recovery_escrow/src/lib.rs:145-163 | state after seizing and unwrapping, or the first failing check |
| RecoveryEscrow.Contract.SeizePrincipal | contracts/recovery_escrow/src/lib.rs:167-181 | state after seizing PT, or the first failing check |
| RecoveryEscrow.Contract.SeizeYield | contracts/recovery_escrow/src/lib.rs:185-199 | state after seizing YT, or the first failing check |
| RecoveryEscrow.Contract.FinalizePrincipal | contracts/recovery_escrow/src/lib.rs:206-222 | state after redeeming the escrow's own PT through the manager, or its error |
| RecoveryEscrow.Contract.FinalizeYield | contracts/recovery_escrow/src/lib.rs:236-253 | state after redeeming the escrow's own YT through the manager, or its error |
| Market.Host.Execute | contracts/sy_wrapper/src/lib.rs:201-202 | one transaction has all of its effects or none: storage of all contracts is the step function's, and a panic leaves it as it was |
| Market.Host.Rollback | contracts/sy_wrapper/src/lib.rs:201-202 | storage of all contracts returns to a saved state |
| RiskControl.Contract.Check | contracts/risk_control/src/lib.rs:203-261 | volume and window after an accepted deposit, or the first failing check and unchanged storage |

## Left out

- Solvency.PaidWithinDepositIff: stated in exact arithmetic; Solvency.PaidAgainstDeposit carries both sides over to the code's integers, where roundings of up to one unit per settlement and the carry of the index keep them from meeting.
- Solvency.ScheduledPayouts: the lower side asks that no interval starts after the index has been rounded down to zero, since from then on the code credits nothing.
- Solvency.LoneHolderCannotLeave: one direction only; the exact condition for a given state is Backing.RedeemSucceedsIff.
- Schedule.PayoutIdentity: exact arithmetic; Schedule.CreditFollowsSchedule and Solvency.ScheduledPayouts bring in the floors and the carry of the index.
- Schedule.SettlingBetween: exact arithmetic; YieldLedger.SettlingBetweenIff is the statement on the code's floors.
- Tilt.StaysCovered: cover only, under its condition, since the documented equation is not kept by the code; Surplus.CustodyMeetsClaims says how far it is.
- Compliance.FrozenAccount: does not follow the account's balance of the underlying asset, which others can still issue or send within the asset contract.
- Accrual.ArithmeticBounded: covers the products of index updates and settlements; products of oracle price with shares or of share totals with SCALE, which the code traps on overflow, are not bounded.
- MarketPool, Router, recombination, fees and LiquidationAdapter: specified in the documentation only, without code.
- Events, storage tiers, archival and extension of storage lifetimes: no bearing on balances.
- Signatures: an authorization is the one address that signs a transaction; a contract authorizes the calls it makes itself.
- The asset contract: reduced to a balance map, an authorized set and a live administrator that change between transactions; trustlines and native clawback are not modelled.
- Permissioning: reduced to two sets that change between transactions.
- Creation of the manager: its issuer check is that of the other contracts, and the topology it checks is what `Config` and `Wired` assume.
- One-time setters, double-initialization guards, administrator transfers and plain getters: wiring is fixed in `Config` and the facts are single-branch.
- The circuit breaker inside deposits: the code does not call it, so it is a separate machine.
- Backend, indexer, scripts and recorded ledgers: input and output only.
