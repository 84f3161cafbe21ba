# Laterite, verified

Laterite invests small amounts for its users from their payment tokens into an asset. An on-chain program decides how
much may be pulled from a user and when; TypeScript code beside it (client, operator, app, deployment) repeats the
program's rules to predict it, and keeps its own limits. This project models both and proves what they promise.

`dafny verify dfyconfig.toml` checks everything.

## How it is built

- **Arithmetic and time.** `Numbers` has the machine integers of both languages: saturation, truncating casts and
  JavaScript's truncating division are written out. `CivilDate` and `Market` hold the calendar arithmetic of the program
  and of the client; the reference for dates is counting days one by one, with the leap rule of RFC 3339, Appendix C,
  and the reference for daylight time is the second Sunday of March to the first Sunday of November (section 110 of the
  Energy Policy Act of 2005). `CalendarLoader` is the in-place bitmap loader and the deployment's check of it.
- **The program as a state machine.** `Amount` and `Subscriptions` are the amount engine and the subscriptions,
  `Program` gives every instruction as a function on the state it changes, and `Accounts` the same instructions as
  updates in place of account objects and account arrays, each proved equal to its function. `Program.Step` is one
  committed transaction, or time passing; a run starts at deployment and takes any steps by any users and by the
  admin, who may change caps, kill switch and calendar at any time. `Runs` and `Ledger` prove guarantees over every
  run, with sums over the run's history as the ghost state: the weekly cap, cadence, no backfill, counting once,
  conservation, seats. `Terms` states apart from the program's functions what every transaction requires and does, in
  raw units, seconds and bits, and proves that in every state of every run the program does exactly that; `Outcomes`
  draws from it what every sweep takes, every credit adds and a pause keeps away. `Custody` is the whole sweep around
  an arbitrary swap route. `Cluster` holds the account objects together with everyone's token accounts and their
  history, and executes the instructions in place: its history is always a run, so the guarantees hold of the objects
  after any transactions.
- **Prices.** `Price` has both readers of signed price updates as objects over bytes and `MinOut` both computations of
  the least a swap may return.
- **The code that must agree.** `ClientSweep` is the client's mirror of the sweep's gate, the time its answer holds and
  the crank's selection; `Preview` the payday simulation, `PreviewGate` and `PreviewPeriod` what of it the program would
  do, and `PreviewBinding` what it reports.
- **Beside the program.** `SlidingWindow`, `Sponsorships` and `Faucet` are tables changed under a lock with limits in
  every window, the sponsor's with its history; `Logs` recovers calls from flat log lines.

Where the code does not do what it is taken to, a lemma gives an input and another the exact condition:

- **The client's gate** differs from the program's for a user whose payment account does not exist: the client answers
  that there is nothing to sweep, the program that the token account is invalid (`ClientSweep.MissingAccountExists`).
  `ClientSweep.GatesAgree`: an error the client throws is the program's if and only if the account exists or an earlier
  check fails.
- **Custody** is watched by bytes. A route that leaves the same bytes under another program passes
  (`Custody.ImpostorPasses`). `Custody.WatchKeepsSwapAccounts`: the bytes are always kept and no account is created, and
  the accounts are the same in everything if and only if none went to another program.
- **The address limit** of the sponsor is not checked for a claim without an address, while its row keeps the one it was
  built for (`Sponsorships.AddressBoundBreaks`, from an empty table on). `Sponsorships.AddressBoundIff`: exactly when a
  claim keeps the bound over an address's rows. Over the claims that carry the address it holds whatever the others do
  (`Sponsorships.AddressClaimsHold`).
- **The preview** reads neither the days of earlier sweeps nor the subscriptions: a user who returns on the day of a
  sweep is shown one that the program refuses (`PreviewGate.ReturnOnSweepDay`), and a user whose new subscription's
  period does not start with their week is shown ten dollars in a week in which it allows nothing
  (`PreviewPeriod.ReturnOffPeriod`). `PreviewGate.SpanIsMade`: a simulated span is the program's own if and only if on
  its first day no token that would be pulled was swept already and at each of its instants the subscriptions, drawn
  on by the span's pulls, allow what would be pulled. Where the periods start with the user's weeks the first part
  alone decides (`PreviewPeriod.AlignedSpanIsMade`), and for a user who enrolls nothing is left to decide
  (`PreviewPeriod.NewcomersSpanIsMade`).
- **The preview's binding** can name the balance in a week without sessions left, because the code looks at the
  balances after both weeks (`PreviewBinding.WeekendBinding`). `PreviewBinding.BalanceBindingIff`: exactly when a
  purchase said to be limited by the balance ends at the cushions, in terms of sessions, cap, what waits and what
  stands above them.

`clients/typescript/src/sweep.ts` promises its answer up to the next boundary, and keeps the promise for every
subscription whose period has started or lasts a day, as the plans' week does. In general it keeps it if and only if no
period still to start is over before the boundary or one's turn would not change the answer
(`ClientSweep.SecondsToNextSweepBoundary`).

The cluster's clock never runs back within a run and stays below 2^32 days and weeks, where the program's casts are
exact (`Amount.ClockInRange`, `Amount.WeeksExact`).

## Model

| member | source | states |
|---|---|---|
| CivilDate.MonthDayIsGregorian | programs/laterite/src/market.rs:93-103 | the era arithmetic gives, for every integer day, the month and day reached by counting days one by one in the proleptic Gregorian calendar |
| CivilDate.DaylightTimeIsBetweenSundays | programs/laterite/src/market.rs:80-91 | daylight time holds exactly from the second Sunday of March up to the first Sunday of November of the day's year |
| CivilDate.SundaysExist | programs/laterite/src/market.rs:77-79 | every year has those two Sundays, each one day only |
| Market.ClientDivision | clients/typescript/src/market.ts:14-24 | the client's division and modulo on truncating bigints are the Euclidean ones for every value |
| Market.Truncates | clients/typescript/src/market.ts:14-24 | the division it starts from truncates toward zero, the remainder with the dividend's sign |
| Market.DaylightTimesAgree | clients/typescript/src/market.ts:25-45 | weekday and daylight time agree in both languages on every day |
| Market.MarkedIsSet | programs/laterite/src/market.rs:72-74 | a stored closure is the bit of its day, least significant first |
| Market.MarketHours | programs/laterite/src/market.rs:10-29 | the market is open exactly on a weekday the calendar covers and does not close, from 9:30 to 16:00, or to 13:00 on an early close, four hours behind UTC between the two Sundays and five otherwise |
| Market.SessionWithinDay | clients/typescript/src/market.ts:47-61 | no session crosses a UTC day |
| Market.MarketsAgree | programs/laterite/src/market.rs:16-29 | the program and the client agree on whether the market is open at every clock, for every stored calendar |
| Market.OpenInSession | clients/typescript/src/market.ts:63-67 | the market is open inside each day's session, on that day |
| Market.NextMarketSession | clients/typescript/src/market.ts:69-76 | the search returns, of all sessions that close after the clock, the first to close, and none exactly when none is left |
| CalendarLoader.SetIndex | programs/laterite/src/market.rs:53 | setting a bit in place changes that bit of the bitmap and no other |
| CalendarLoader.LoadDays | programs/laterite/src/market.rs:43-56 | one list is accepted exactly when it ascends and its days are weekdays in the window; the bits set are then exactly its days from today on, and no index leaves the bitmap |
| CalendarLoader.LoadCalendar | programs/laterite/src/market.rs:35-62 | the loader accepts exactly ascending, plausible, disjoint lists with an end in the window, gives the first broken rule's error otherwise, and stores exactly the listed days |
| CalendarLoader.SameDays | packages/deployment/src/calendar.ts:40-49 | the deployment's bitmap comparison holds exactly when the stored bits are exactly the listed days |
| CalendarLoader.IsMarketCalendarLoaded | packages/deployment/src/calendar.ts:37-50 | true exactly when the stored calendar has the same last day and the same closures since it was loaded |
| CalendarLoader.LoadedOnceIsLoaded | packages/deployment/src/calendar.ts:27-35 | dropping closures before the loading day never changes that answer |
| CalendarLoader.DeployTwice | packages/deployment/src/calendar.ts:27-50 | after a load that succeeds the check always holds, so a second deployment sends nothing |
| Amount.ClientPullsAlike | clients/typescript/src/amount.ts:45-91 | the client's pull, week, cap and spent amount are the program's for every user and clock at which the program's clock arithmetic does not saturate |
| Amount.PullIsTheMostAllowed | programs/laterite/src/amount.rs:94-106 | an active user's pull is the largest amount the due engine and the pending amounts allow within the week's room and above the cushion, the engine first; the week's cap is five dollars in the trial, then ten or twenty-five by tier, within the beta's |
| Amount.PullGrowsWithBalance | programs/laterite/src/amount.rs:97-106 | a larger balance never lowers the pull |
| Amount.RecordedStaysWithinCap | programs/laterite/src/amount.rs:108-121 | after recording, the week's counter is what the week had plus the pull, no saturation happens, and a positive pull leaves it within the cap |
| Amount.SharesAre | programs/laterite/src/amount.rs:42-56 | a payment sets aside the least amount completing its dollar, at least 50 cents, times the multiplier, an income of $50 or more a tenth of it rounded down; the client's formulas agree |
| Amount.WeeksExact | programs/laterite/src/amount.rs:57-72 | below 2^32 weeks the cast week is the exact one, and week 0 is exactly the trial |
| Subscriptions.RemainingAgrees | clients/typescript/src/amount.ts:93-102 | the client's bound from the subscription is the program's exactly unless the program's saturating clock misses the end of a period above 2^63 seconds in which something was pulled |
| Subscriptions.EndAllEnds | programs/laterite/src/subscription.rs:59-102 | after an exit every enabled token's subscription is closed or has an expiry that is over; only those that had none change, and only their expiry, to the clock |
| Subscriptions.MoveAllMoves | programs/laterite/src/instructions/user.rs:93-117 | after a change of tier every enabled token's old subscription has ended and the new one is live; only the old ones change, and only their expiry |
| Subscriptions.SwitchAllSwitches | programs/laterite/src/instructions/user.rs:134-169 | after a change of tokens every dropped token's subscription has ended and every added one's is live; only the dropped ones change, and only their expiry |
| Subscriptions.AllLiveAccepts | programs/laterite/src/subscription.rs:29-39 | joining is accepted with exactly one live subscription for each chosen token, in the tokens' order |
| Subscriptions.EndAllAccepts | programs/laterite/src/instructions/user.rs:186-199 | an exit with exactly the plan and the subscription of each, and the error otherwise |
| Subscriptions.MoveAllAccepts | programs/laterite/src/instructions/user.rs:96-117 | a change of tier with those and the live subscription to the new plan, and the error otherwise |
| Subscriptions.SwitchAllAccepts | programs/laterite/src/instructions/user.rs:137-165 | a change of tokens with the plan and the subscription of each dropped and the live subscription of each added, and the error otherwise |
| Accounts.UserConfig.Record | programs/laterite/src/amount.rs:108-121 | the in-place bookkeeping of a pull leaves the account that the specification gives |
| Accounts.UserConfig.FinishSweep | programs/laterite/src/instructions/sweep.rs:192-194 | a finished sweep records the pull and the day of its token |
| Accounts.UserConfig.SetSettings | programs/laterite/src/state.rs:293-305 | writes every setting and no counter |
| Accounts.UserConfig.RaiseAttestableFrom | programs/laterite/src/state.rs:307-310 | only ever raises the earliest attestable time |
| Accounts.UserConfig.UpdateSettings | programs/laterite/src/instructions/user.rs:23-40 | refuses with the specified error and no change, or sets the settings, raising the attestable time when transfers count more |
| Accounts.UserConfig.SetUserPaused | programs/laterite/src/instructions/user.rs:42-54 | pauses only an active user and resumes only a paused one, raising the attestable time |
| Accounts.UserConfig.LowerPending | programs/laterite/src/instructions/user.rs:56-61 | lowers what waits, never raises it |
| Accounts.UserConfig.Credit | programs/laterite/src/instructions/attest.rs:54-73 | credits an attested transfer inside its window, or refuses with the specified error and no change |
| Accounts.UserConfig.ChangeTier | programs/laterite/src/instructions/user.rs:93-117 | changes the tier after moving every subscription, or refuses with the user unchanged |
| Accounts.UserConfig.ChangePaymentTokens | programs/laterite/src/instructions/user.rs:134-169 | changes the tokens after switching subscriptions, raising the attestable time when one is added |
| Accounts.UserConfig.Exit | programs/laterite/src/instructions/user.rs:184-206 | ends the subscriptions, clears the settings and what waits, keeps the counters and frees the seat |
| Accounts.UserConfig.Reactivate | programs/laterite/src/instructions/user.rs:227-247 | readmits an exited user with every counter kept and takes a seat, or refuses with no change |
| Accounts.ConfigAccount.Admit | programs/laterite/src/instructions/enroll.rs:31-36 | the checks shared by enrolling and returning, with the first broken one's error; on success a seat is free |
| Accounts.ConfigAccount.Enroll | programs/laterite/src/instructions/enroll.rs:30-67 | makes a new account with the initial state and counts its seat, or refuses with no change |
| Accounts.ConfigAccount.UpdateConfig | programs/laterite/src/instructions/admin.rs:17-22 | replaces the admin's settings if they are valid and nothing else |
| Accounts.ConfigAccount.SetPaused | programs/laterite/src/instructions/admin.rs:24-28 | sets the kill switch and nothing else |
| Accounts.ConfigAccount.SetMarketCalendar | programs/laterite/src/instructions/admin.rs:30-40 | stores exactly the listed closures as of the clock's day, or refuses with the loader's error and keeps the stored calendar |
| Accounts.AttestationRecords.Attest | programs/laterite/src/instructions/attest.rs:46-81 | counts a transfer only when no record of it stands, and leaves one until its window is over |
| Accounts.AttestationRecords.CloseAttestation | programs/laterite/src/instructions/attest.rs:92-97 | a record can be closed exactly after its window |
| Accounts.Cancel | programs/laterite/src/subscription.rs:59-102 | ends one subscription in place, and only the named plan's and user's |
| Accounts.RequireLive | programs/laterite/src/subscription.rs:29-39 | the walk accepts exactly when every enabled token has its live subscription in order |
| Accounts.EndSubscriptions | programs/laterite/src/instructions/user.rs:190-196 | the walk over pairs of accounts does what the specification does, errors included |
| Accounts.MoveSubscriptions | programs/laterite/src/instructions/user.rs:106-113 | the walk over triples of accounts does what the specification does, errors included |
| Accounts.SwitchSubscriptions | programs/laterite/src/instructions/user.rs:146-157 | the walk over changed tokens does what the specification does, errors included |
| Runs.UsersOk | programs/laterite/src/state.rs:181-202 | in every state of every run no counter of a user is ahead of the clock and the attestable time is between enrollment and the clock |
| Runs.SettingsStayValid | programs/laterite/src/state.rs:273-290 | in every state of every run a user who is in has rules the program accepts, and one who left has nothing set and nothing waiting |
| Runs.TierChosenWithinBeta | programs/laterite/src/instructions/user.rs:96-103 | a tier is chosen, by enrolling, returning or changing, only within the beta cap of that moment |
| Runs.Forward | programs/laterite/src/instructions/user.rs:227-237 | users and their enrollment second stay through every run, exits and returns included |
| Runs.WeekSpentIsSum | programs/laterite/src/amount.rs:108-121 | in every run the user's counter equals the sum of what sweeps pulled in that user week over both tokens |
| Runs.WeeklyCapHolds | programs/laterite/src/amount.rs:63-72 | in every run at most $5 is pulled in a user's first week and $25 in any week, whatever tier, cap and token changes, exits and returns interleave |
| Runs.SweepEndsWithinCap | programs/laterite/src/instructions/sweep.rs:111-127 | right after each sweep everything pulled in that week is within five dollars in the first week, ten or twenty-five by the tier after it, and the beta's cap, as they stand at that sweep |
| Runs.OneSweepPerTokenAndDay | programs/laterite/src/instructions/sweep.rs:104-105 | in every run a user is swept at most once per token and UTC day |
| Runs.EngineCadence | programs/laterite/src/amount.rs:82-92 | every engine purchase is on a later UTC day than every earlier one under the daily engine, and in a later user week and a session under the weekly; exits and returns reset nothing |
| Runs.CountingMoreRaises | programs/laterite/src/instructions/user.rs:31-36 | every instruction either counts transfers no more than before or raises the attestable time to the clock, and none lowers it |
| Runs.RaisedSince | programs/laterite/src/state.rs:307-310 | over any stretch of a run, a transfer that counts more at its end is attestable only from after its start |
| Runs.NoBackfill | programs/laterite/src/instructions/attest.rs:54-67 | a credited transfer's rule, token and active status already stood in every earlier state with a clock after the transfer |
| Runs.RecordStands | programs/laterite/src/instructions/attest.rs:74-97 | until a counted transfer's attestation window is over a record stands under its key |
| Runs.SameKeyCountsLater | programs/laterite/src/instructions/attest.rs:23-38 | of two transfers counted under one key in a run, records closed in between or not, the second was made strictly later |
| Runs.TransferCountsOnce | programs/laterite/src/instructions/attest.rs:61-77 | if a transfer's attestations agree on its time, it is counted at most once in a run |
| Terms.AllowanceIs | programs/laterite/src/subscription.rs:41-56 | a subscription allows its amount in each period less what was pulled in the running one, until it expires |
| Terms.PullTakes | programs/laterite/src/amount.rs:94-106 | a pull within its subscription is what is due and what waits, what is due first, as far as the cap less the week's counter, the balance above the cushion and the subscription allow, in dollars and seconds |
| Terms.SweepIs | programs/laterite/src/instructions/sweep.rs:98-127 | the gate refuses for the first of its reasons in plain numbers and otherwise leaves the account with the sweep's week, sum, day and engine time |
| Terms.UserIs | programs/laterite/src/instructions/user.rs:23-247 | every instruction on a user is refused for the first of its reasons and otherwise changes exactly the fields it says: each setting sent, the tier, the tokens, the status, what waits, the attestable time |
| Terms.StepInTerms | programs/laterite/src/state.rs:160-203 | so does every transaction of the program, with its records, seats and configuration |
| Terms.RunInTerms | programs/laterite/src/state.rs:160-203 | in every state of every run |
| Outcomes.SweepTakesTheMost | programs/laterite/src/instructions/sweep.rs:111-125 | every sweep of a run takes the most its room allows, the room being the cap less what the run's own sweeps pulled in that week |
| Outcomes.CreditAddsItsShare | programs/laterite/src/instructions/attest.rs:66-73 | every counted transfer adds a tenth of the income, or the change that completes the payment's dollar, at least fifty cents, times the multiplier, up to 2^64 - 1, and nothing else of the user changes |
| Outcomes.StatusAfter | programs/laterite/src/instructions/user.rs:42-54 | a committed pause leaves an active user paused, a resumption a paused one active, an exit exited, a return an exited one active |
| Outcomes.StoppedUserIsLeftAlone | programs/laterite/src/instructions/user.rs:42-54 | from a pause to the next resumption, and from an exit to the next return, no step of any run sweeps the user or counts a transfer of theirs |
| Ledger.PendingIsConserved | programs/laterite/src/instructions/attest.rs:68-73 | in every state of a run what waits is exactly what was credited less what saturated, was swept, lowered and discarded |
| Ledger.NothingForfeited | programs/laterite/src/instructions/attest.rs:73 | saturation loses something only after more than 2^64 raw units were credited |
| Ledger.PulledWithinCredited | programs/laterite/src/amount.rs:117 | sweeps never pull more from what waits than was credited |
| Ledger.StepMovesSeats | programs/laterite/src/instructions/enroll.rs:30-60 | enrolling and returning seat exactly their own user, exiting unseats exactly its own, nothing else moves a seat |
| Ledger.UserCountIsSeats | programs/laterite/src/instructions/enroll.rs:60 | in every state of a run the user count is the number of users who have not exited |
| Ledger.ExitFreesItsSeat | programs/laterite/src/instructions/user.rs:198 | an exit's saturating subtraction never saturates |
| Custody.WatchKeepsSwapAccounts | programs/laterite/src/instructions/sweep.rs:141-189 | whatever the route does to the accounts it may write, the two looks imply that every swap-authority token account holds the same bytes and none was created; they are the same in everything exactly if none went to another program |
| Custody.RouteDelivers | programs/laterite/src/instructions/sweep.rs:151-191 | the route spent exactly the pull; outside what it may write only the pull shows; and if the token programs keep the accounts of a user who did not sign, the asset account is still theirs and they paid at most the pull |
| Custody.Sweep | programs/laterite/src/instructions/sweep.rs:88-206 | a sweep fails with its gate's error, leaves the user unchanged on every failure, fails past the gate only where a needed condition fails, and on success spent exactly the pull, kept every swap-authority account's bytes, delivered at least the prices' minimum and recorded itself |
| Custody.Exchange | programs/laterite/src/instructions/sweep.rs:141-189 | what pull and route leave, or the error of what fails first, and then nothing that could have succeeded |
| Custody.LooksPassIff | programs/laterite/src/instructions/sweep.rs:141-186 | the two looks pass exactly if the swap authority's token accounts are the same ones with the same bytes |
| Custody.TransferAccepts | programs/laterite/src/instructions/sweep.rs:150-165 | the pull goes through exactly with the total in the user's account and room for it in the swap authority's, both of the token |
| Custody.RouteLeaves | programs/laterite/src/instructions/sweep.rs:167-177 | a route leaves what it says of the accounts passed as writable and everything else as it was |
| Custody.SweepMoves | programs/laterite/src/instructions/sweep.rs:141-189 | a finished sweep took exactly the total from the user's account unless its route could write that one, changed no byte of the swap authority's, and left exactly what was received more in the asset account, at least the minimum |
| Custody.DollarSweepReceives | programs/laterite/src/price.rs:26-38 | a sweep of a token counted at one dollar receives an amount of the asset that costs, at the high end of the price its update gives, within two raw units of 99.45% of the dollars pulled, or more |
| Custody.CustodyIsZeroSum | programs/laterite/src/instructions/sweep.rs:141-189 | over any succession of sweeps with any routes no swap-authority account is created and each holds its first bytes; if no route gave one to another program, all end as they started |
| Custody.ImpostorPasses | programs/laterite/src/instructions/sweep.rs:178-189 | a route that leaves the same bytes under another program passes both looks |
| Cluster.Cluster.Enroll | programs/laterite/src/instructions/enroll.rs:30-67 | enrolling commits as a step of the state machine, or fails with its error and changes nothing |
| Cluster.Cluster.Attest | programs/laterite/src/instructions/attest.rs:45-81 | so does attesting |
| Cluster.Cluster.CloseAttestation | programs/laterite/src/instructions/attest.rs:92-97 | so does closing a record |
| Cluster.Cluster.Sweep | programs/laterite/src/instructions/sweep.rs:88-206 | a sweep of the token accounts as they stand has the whole outcome of `Custody.Sweep`, errors included, and commits as the state machine's sweep with the accounts it left; one that fails changes nothing |
| Cluster.Cluster.Tick | programs/laterite/src/instructions/sweep.rs:103 | time passes, and others leave token accounts as they may |
| Cluster.Cluster.UpdateSettings | programs/laterite/src/instructions/user.rs:24-40 | updating settings commits as a step of the state machine, or fails with its error and changes nothing |
| Cluster.Cluster.SetUserPaused | programs/laterite/src/instructions/user.rs:42-54 | so does pausing and resuming |
| Cluster.Cluster.LowerPending | programs/laterite/src/instructions/user.rs:56-61 | so does lowering what waits |
| Cluster.Cluster.ChangeTier | programs/laterite/src/instructions/user.rs:93-118 | so does changing tier |
| Cluster.Cluster.ChangePaymentTokens | programs/laterite/src/instructions/user.rs:134-169 | so does changing payment tokens |
| Cluster.Cluster.Exit | programs/laterite/src/instructions/user.rs:184-206 | so does exiting |
| Cluster.Cluster.Reactivate | programs/laterite/src/instructions/user.rs:227-247 | so does returning |
| Cluster.Cluster.UpdateConfig | programs/laterite/src/instructions/admin.rs:17-22 | so does changing the admin's settings |
| Cluster.Cluster.SetPaused | programs/laterite/src/instructions/admin.rs:24-28 | so does the kill switch |
| Cluster.Cluster.SetMarketCalendar | programs/laterite/src/instructions/admin.rs:30-40 | loading a calendar commits with exactly the listed closures stored, or fails with the loader's error and changes nothing |
| Cluster.GuaranteesHold | programs/laterite/src/state.rs:160-203 | after any transactions no week of a user was pulled past its bound, each account's counter is what the history adds up to, the seats are counted and every account is in order |
| Cluster.CustodyHolds | programs/laterite/src/instructions/sweep.rs:141-189 | after any transactions, if others leave the swap authority's accounts alone, none of them is new, each holds the bytes it had at deployment, and all are as they were if no route gave one to another program |
| ClientSweep.GatesAgree | clients/typescript/src/sweep.ts:123-157 | for every token index, a pull the client gives is the pull the program's gate passes with, and an error it throws is the program's exactly when the payment account exists or an earlier check fails |
| ClientSweep.RestoresAreNeeded | clients/typescript/src/sweep.ts:145-156 | a pull the program's gate passes with is the client's answer exactly if the authority, the account and its delegate let it be pulled; otherwise the client names the first thing to restore, which is amiss |
| ClientSweep.MissingAccountDiffers | clients/typescript/src/sweep.ts:137-139 | without the payment account the two give different errors |
| ClientSweep.MissingAccountExists | programs/laterite/src/instructions/sweep.rs:111 | a state where they do |
| ClientSweep.SecondsToNextSweepBoundary | clients/typescript/src/sweep.ts:159-183 | the instant is the first of all boundaries: UTC midnights, whole weeks since the enrollment, a weekly user's session edges, the subscription's expiry and whole periods since its start; the client's answer, pull or error, is the same at every clock before it if the period has started or lasts a day, and in general exactly if no period still to start is over before it or its turn would not change the answer; a pull that holds is what the program's gate passes with until then |
| ClientSweep.PullHoldsInProgram | clients/typescript/src/sweep.ts:123-183 | a pull given now that the client's answer stays at is the one the program's gate passes with at every clock until then |
| ClientSweep.SweepCandidates | services/operator/src/crank/crank.ts:91-104 | the nested loops collect exactly the specified candidates in order |
| ClientSweep.CandidatesAreWorthReading | services/operator/src/crank/crank.ts:85-90 | the nested loops' candidates are exactly the tokens of the given users that pass the crank's test |
| ClientSweep.CandidatesMaySweep | services/operator/src/crank/crank.ts:85-104 | that is, exactly the chosen tokens of active users, not swept today, for a weekly user in a session, from which the program would pull of some balance |
| ClientSweep.CandidatesInOrder | services/operator/src/crank/crank.ts:91-104 | the candidates are in the order of the users, each user's first token before the second |
| ClientSweep.NoSweepOmitted | services/operator/src/crank/crank.ts:85-104 | a token the client would sweep is always a candidate |
| Price.ProgramQuote | programs/laterite/src/price.rs:30-54 | the program's shrinking-slice reader returns the specified quote or error on every byte string and never reads past the end; without a feed, exactly one dollar for an empty message |
| Price.ProgramReader.Take | programs/laterite/src/price.rs:127-131 | takes exactly the next bytes off the slice, or fails on truncation |
| Price.ProgramReader.Properties | programs/laterite/src/price.rs:104-115 | the property loop fills the feed as specified |
| Price.ProgramPayload | programs/laterite/src/price.rs:87-95 | accepts exactly messages of the format whose stated length is what remains |
| Price.ProgramFindFeed | programs/laterite/src/price.rs:94-123 | its feed loop finds the first entry of the feed or fails as specified |
| Price.ClientQuote | clients/typescript/src/pyth.ts:144-173 | the client's offset reader returns the specified quote or error on every byte string, at any age limit a sender asks for and without one at the program's, and its offset never passes the end; without a feed, exactly one dollar for an empty message |
| Price.YoungerQuotesLast | clients/typescript/src/pyth.ts:147-157 | a quote within a younger age stays the program's quote for as many seconds as the ages differ |
| Price.ClientReader.Take | clients/typescript/src/pyth.ts:54-88 | advances the offset over exactly the next bytes, or fails on truncation |
| Price.ClientReader.Properties | clients/typescript/src/pyth.ts:105-127 | its property loop fills the feed as specified |
| Price.ClientPayload | clients/typescript/src/pyth.ts:91-102 | accepts the same messages with the same payload |
| Price.ClientFindFeed | clients/typescript/src/pyth.ts:105-127 | its feed loop finds the same entry or fails the same way |
| Price.PayloadsAre | programs/laterite/src/price.rs:87-95 | a message has a payload exactly if it starts with the format's four bytes and states, after 96 more, the length of the rest |
| Price.OtherPropertiesAreSkipped | programs/laterite/src/price.rs:108-113 | properties a quote does not need are skipped at their own widths, and any number above 12 is refused |
| Price.NoTimeNoQuote | programs/laterite/src/price.rs:40-46 | a feed that says it has no update time gives no quote |
| Price.QuotesAreUsable | programs/laterite/src/price.rs:40-54 | every quote from an update has a positive price and a positive confidence of at most half a percent of it |
| Price.UpdatesReadBack | fuzz/laterite/src/helpers.rs:130-152 | reading a written update gives the first entry of the wanted feed, or the reason it is not usable |
| MinOut.MinOutsAgree | clients/typescript/src/pyth.ts:175-194 | the client's minimum is the program's for every swap, errors included |
| MinOut.MinOutBoundsWorth | programs/laterite/src/price.rs:56-77 | the minimum is at most 99.45% of the exact worth, less than two raw units below it, and at least one unit for a positive amount |
| MinOut.MinOutInDollars | programs/laterite/src/price.rs:56-77 | at the high end of the asset's price the minimum costs at most 99.45% of the dollars paid at the low end of the payment's price, and two raw units more would cost more |
| MinOut.MinOutRefuses | programs/laterite/src/price.rs:59-77 | a minimum is refused as too small exactly if nothing would be left of a positive amount, and as unusable exactly if the asset has no price or a number does not fit |
| MinOut.MinOutMonotone | programs/laterite/src/price.rs:59-77 | the minimum grows with the amount and the payment's price and falls with the asset's |
| Preview.JoinedAsTheProgramDoes | apps/app/lib/preview.ts:42-75 | the preview's account is the one the program would make, exactly when nothing waits and its attestable time is not ahead of the clock |
| Preview.PaydayComesIn | apps/app/lib/preview.ts:132-137 | the thousand dollars come in the first chosen token, a tenth waits under the income rule, everything counts from now, and an account left behind keeps its counters |
| Preview.InstantIsFirst | apps/app/lib/preview.ts:88-95 | each simulated day's instant is the first in the hours of the user's engine, and missing exactly when there is none |
| Preview.Simulation.SweepToken | apps/app/lib/preview.ts:96-112 | one simulated sweep is the program's pull and record |
| Preview.Simulation.SweepThrough | apps/app/lib/preview.ts:86-116 | the day loop terminates and equals folding the program's pull and record over the chosen instants |
| Preview.SweptDaysMove | apps/app/lib/preview.ts:86-116 | balances plus total are conserved and no balance falls below the smaller of its start and its cushion |
| Preview.SweptDaysCount | apps/app/lib/preview.ts:86-116 | within one user week everything pulled is counted against the week and never past its cap |
| Preview.SweptDaysExhaust | apps/app/lib/preview.ts:86-116 | a span in which the program can sweep ends with nothing waiting, the cap reached or every enabled balance at its cushion |
| Preview.CourseWithinRules | apps/app/lib/preview.ts:132-143 | this week's purchase is within the room under the cap and next week's within next week's cap |
| PreviewGate.SimulatedSweepIsMade | apps/app/lib/preview.ts:96-105 | in the engine's hours the program's gate passes with exactly the simulated pull if and only if the token was not swept that day and the subscription allows all of it |
| PreviewGate.SpanIsMade | apps/app/lib/preview.ts:79-116 | a simulated span is the program's sweeps, gate and bookkeeping, exactly if on its first day no token that would be pulled was swept already and at each instant the subscriptions allow the simulated pull, whatever pulls make of them |
| PreviewGate.ReturnOnSweepDay | apps/app/lib/preview.ts:59-62 | a user swept, exited and back within an hour is shown a sweep the program refuses |
| PreviewPeriod.AlignedAllows | programs/laterite/src/constants.rs:56-57 | a weekly subscription whose period is one of the user's weeks, with no more pulled in it than the user was, allows what the week does |
| PreviewPeriod.DrawingStaysAligned | programs/laterite/src/constants.rs:56-57 | a recorded pull of either token keeps the subscription so |
| PreviewPeriod.AlignedSpanIsMade | programs/laterite/src/instructions/sweep.rs:121-123 | with such subscriptions a simulated span of any length is the program's exactly if its first day is |
| PreviewPeriod.NewcomersSpanIsMade | apps/app/lib/preview.ts:63-75 | any span simulated for a user who enrolls is the program's |
| PreviewPeriod.ReturnOffPeriod | programs/laterite/src/instructions/sweep.rs:121-123 | a user back an hour before their week ends is shown ten dollars in the next, in which no token was swept, the week allows them, and the program finds nothing to sweep on any day |
| PreviewBinding.WeekDrains | apps/app/lib/preview.ts:143 | a week's simulated sweeps take everything above the cushions exactly if it has a session, the cap allows it, and so do the engine's one purchase and what waits |
| PreviewBinding.BalanceBindingIff | apps/app/lib/preview.ts:144-148 | exactly when every enabled token ends a week said to be limited by the balance at its cushion |
| PreviewBinding.PaydayPreview | apps/app/lib/preview.ts:118-155 | the preview reports its course, the cap as binding exactly when it leaves no room, and the balance with that exact meaning |
| PreviewBinding.ReportIs | apps/app/lib/preview.ts:138-154 | the report's week end, cap, trial, sums and binding in plain numbers of the user and the simulated balances |
| PreviewBinding.WeekendBinding | apps/app/lib/preview.ts:144-148 | a weekly user back on a Saturday is told that the balance limits the purchase, though it stays above its cushion and the week has no session left, under a calendar that the loader stores |
| SlidingWindow.AddKeepsBound | apps/app/lib/sponsorships.ts:39-67 | a check of the recent times before each addition bounds every window, in whatever order the times come |
| SlidingWindow.AddKeepsBoundIff | apps/app/lib/sponsorships.ts:39-67 | an addition keeps the bound exactly when every window it falls in has room |
| SlidingWindow.FewerKeepBound | apps/app/lib/faucet.ts:105-109 | dropping times keeps every bound |
| SlidingWindow.RetryAfter | apps/app/lib/sponsorships.ts:33-34 | the least whole number of seconds, at least one, after which the oldest counted time has left the window |
| Sponsorships.Ledger.SendLimit | apps/app/lib/sponsorships.ts:39-67 | none exactly when every limit has room, otherwise the first without room, by the counts of rows and in the order asked, and when to try again |
| Sponsorships.Ledger.RecordPrepared | apps/app/lib/sponsorships.ts:117-124 | a message already recorded is left as it is, another gets its own row |
| Sponsorships.Ledger.ClaimSend | apps/app/lib/sponsorships.ts:131-169 | a row of the message and wallet built within two minutes is sent exactly when fewer than 3 of the wallet's sends, 500 of all, 10 of the address's and 2 of the wallet's returns count and no other row pays for its account; otherwise nothing changes and the reason holds of the rows |
| Sponsorships.Ledger.SettleSend | apps/app/lib/sponsorships.ts:171-185 | sets the outcome of whatever row has the id and changes no other |
| Sponsorships.LimitsHold | apps/app/lib/sponsorships.ts:39-67 | for every interleaving in which no failed claim is settled as landed, every limit's window bound holds of the times it counts, an address's if no claim without an address is for one of its rows |
| Sponsorships.RowsWithinLimits | apps/app/lib/sponsorships.ts:39-67 | counted on the rows: any 24 hours hold at most 3 sent or landed rows of a wallet and 500 in all, any 30 days at most 2 returns of a wallet |
| Sponsorships.AddressWithinLimits | apps/app/lib/sponsorships.ts:56 | counted on the rows: any 24 hours hold at most 10 claimed from an address, and at most 10 of its rows at all if no claim without an address was for one |
| Sponsorships.AddressClaimsHold | apps/app/lib/sponsorships.ts:56-56 | of the claims that carry an address, any 24 hours hold at most 10 unfailed ones, whatever is claimed with another address or none |
| Sponsorships.TableWithinLimits | apps/app/lib/sponsorships.ts:39-67 | after any claims and settlements the table's rows themselves are within every limit, an address's over the claims that carry it, and pay for no account twice |
| Sponsorships.AddressBoundIff | apps/app/lib/sponsorships.ts:164 | exactly when a claim keeps the address bound |
| Sponsorships.AddressBoundBreaks | apps/app/lib/sponsorships.ts:164 | a history from an empty table whose last claim, without an address, passes the address bound |
| Sponsorships.RecountKeepsBoundIff | apps/app/lib/sponsorships.ts:171-185 | exactly when landing a failed claim keeps a bound |
| Sponsorships.MessageSentOnce | apps/app/lib/sponsorships.ts:142-152 | each message is sent at most once |
| Sponsorships.AssetAccountsPaidOnce | apps/app/lib/sponsorships.ts:99-114 | at most one unfailed send creates each wallet's account in each asset |
| Faucet.Grants.Reserve | apps/app/lib/faucet.ts:72-103 | a grant is reserved exactly when the wallet has none and the address fewer than three in the last 24 hours, otherwise the first without room says when to try again, and every window of both stays within its limit |
| Faucet.Grants.Settle | apps/app/lib/faucet.ts:105-109 | settling records or releases one grant and keeps every window within its limit |
| Faucet.GrantsWithinLimits | apps/app/lib/faucet.ts:19-20 | counted on the grants: any 24 hours hold at most one of a wallet and three of an address |
| Logs.FailingInvocation | services/operator/src/crank/failures.ts:77-91 | the loop over lines computes the specified stack |
| Logs.FailingInvocationIsFirst | services/operator/src/crank/failures.ts:73-91 | for the log of every call forest the result is the path to the first node that failed, empty if none did |
| Logs.FailingIsAtFirst | services/operator/src/crank/failures.ts:77-91 | of any lines, of a log or not, the result is what runs where the innermost program first fails, or what the lines leave running |
| Logs.GetLateriteLogEvents | clients/typescript/src/events.ts:33-46 | the loop over lines collects the specified data |
| Logs.EventsAreLaterites | clients/typescript/src/events.ts:29-46 | for the log of every call forest the events are exactly the data of Laterite's own frames, in order |
| Logs.EventsAreDataOf | clients/typescript/src/events.ts:33-46 | of any lines the events are the data that come while Laterite runs innermost, in order |

## Left out

- The web apps, wallets, translations, RPC clients, transaction sending, health, leadership and alarms: input and output.
- Signature checks, account derivation and rent: an accepted signature is given, an address is an opaque key or a derived value that no other derivation equals.
- The bytes of accounts: `Custody` sees a token account as mint, owner, amount and the rest, so an account too short has no amount.
- The signed price messages' verification by the price program: `Custody.Sweep` reads the messages as verified.
- The internals of Subscriptions, the token programs and the router: the pull is an exact transfer, ending a subscription sets its expiry, the route is any function on the accounts passed as writable.
- Admin handover and `initialize`: single checks; runs start from a deployed configuration.
- Floating point: display amounts, the re-peg's square root.
- SQL and the database: a table is a map of rows changed under its lock; `prepareLimit`, which limits builds and guards no send, is not modelled.
- Log text: a line is a token, so the regular expressions, truncated logs and base64 are not modelled.
- The crank's retries, failure classification and alarms.
- Price.ProgramQuote: an update's signature and key are skipped, as the reader does.
- Runs.TransferCountsOnce: assumes that a transfer's attestations give it one time, as the attestor reads it from the chain.
- Custody.RouteDelivers: that the token programs keep the accounts of a user who did not sign is a hypothesis, because those programs are not modelled.
- Cluster.CustodyHolds: others are taken to leave the swap authority's accounts alone, because anyone may deposit into them.
- Amount.ClientPullsAlike: says nothing where the program's clock arithmetic saturates, beyond any clock of a cluster.
- CalendarLoader.DeployTwice: needs a clock not before 1970, where the cast of the loading day keeps its value.
- Sponsorships.LimitsHold: assumes, as `Sponsorships.AddressClaimsHold` does, that no failed claim is settled as landed, because the route settles each claim of its own once.
- PreviewPeriod.DrawnInPeriod: what a pull makes of a subscription is Subscriptions' own bookkeeping, read off the period arithmetic both bounds share; `PreviewGate.SpanIsMade` holds for any other.
- PreviewBinding.PaydayPreview: needs balances that stay below 2^64 with the payday in and a clock two weeks below the end of the exact range.
