# xGameFi commerce backend: a Dafny model

xGameFi sells in-game items for Stellar payments. This project models the parts of its backend that hold money
or ownership, proves what they keep over every run, and says exactly where they do not. `dafny verify dfyconfig.toml`
checks everything.

| module | what it models |
|---|---|
| `Money`, `Memo`, `Stellar`, `Promotions` | fee arithmetic and decimal strings, text memos in UTF-8, building and verifying a payment, discounts and the choice among them |
| `Commerce` | quotes, settlement, payout jobs, referrals and rewards as atomic steps on one state; `CommerceInvariants` says what every step keeps, `CommerceTheorems` what follows for every run, `CommercePayments` and `CommerceReferrals` which payouts and rewards really leave the account, `CommerceOffers` what becomes of an offered payment, `CommerceTerms` what each handler reads and writes in plain terms, `CommerceDb` carries the handlers out on tables |
| `Escrow` | player-to-player trades in the same parts: `Escrow`, `EscrowInvariants`, `EscrowTheorems`, `EscrowJobs` for the jobs a trade still has, `EscrowItems` for item quantities, `EscrowRuns` for runs in pieces, `EscrowTerms`, `EscrowDb` |
| `Treasury` | orders and trades on the one receiving account |
| `Idempotency` | the lock and stored-response protocol as interleaved steps of any number of clients |
| `Matching`, `Watching` | the payment watcher: matching by memo, batches behind a cursor, and settling what was matched |
| `Catalogue`, `CatalogueJobs` | feed synchronisation and the merge into shop layouts, as whole jobs and as interleaved steps of overlapping ones |
| `MapSums`, `Wrappers` | sums over maps, and an option type |

Amounts are whole stroops (10^-7 units) in the state machines; `Money.FeeOfStroops` ties them to the decimal
functions. The steps (`Quote`, `Settle`, `Enqueue`, `Verify`, `TransferCommit`, `Synced` and so on) are functions from
state to state. Classes named `Database`, `Guard` and `Watcher` run them the way the program does, with loops and
assignments to tables, and each of their methods is proved equal to its step. `CommerceTerms` and `EscrowTerms` say
what those steps do once more, without the step functions: conditions, columns, amounts and payments, over the rows
before and after. A run is any finite list of events; an event that cannot happen in a state changes nothing, so
theorems about `Run` cover every interleaving of the steps modelled. The one exception is `Catalogue.Run`, which runs
whole sync jobs one after another; `CatalogueJobs.Run` interleaves their steps.

## Assumptions

- A Prisma transaction is one atomic step and leaves no trace when it throws. Quotes of different players, which
  lock different advisory keys, are ordered one after the other.
- `createListing`, `createTradeQuote` and the referral binding are one step each, although they read before their
  transactions (apps/web/lib/p2p-queries.ts:116-127, apps/web/app/api/v1/referrals/bind/route.ts:35-40).
- Adding a job is ignored while its id is in the queue, an accepted job starts at most once, and checking for
  missing records and adding their jobs is one step (packages/shared/src/settlement.ts:110-130). A job may be lost
  between any two of its steps, and a finished job's id may be freed at any time.
- Any number of reward runs for the same referral may start and overlap, with or without its job in the queue; payout,
  transfer and refund jobs run under their ids.
- Horizon is an immutable map from hash to transaction. The verifier asks for a transaction's operations without a
  limit (packages/shared/src/stellar.ts:116), so it reads Horizon's default page of ten.
- The game's answers, the clock, generated ids, the order of query results and whether a payment could be built are
  parameters. Orders have distinct creation times.
- Items may change between any two quotes, in any way: each quote takes the row as it is then. Prices are not
  negative, fee rates lie between 0 and 10000 and usage limits are positive, as the request schemas
  demand (packages/shared/src/zod/catalogue.ts:3, packages/shared/src/zod/admin.ts:51,
  packages/shared/src/zod/promotion.ts:26). Studios and promotion terms do not change during a run.
- A payment sent is recorded in stroops; the string submitted for it is read back as that amount (`Money.RoundTrip`).
- Decimal arithmetic is exact. Promotion codes are ASCII (packages/shared/src/zod/promotion.ts:4-8,
  packages/shared/src/zod/checkout.ts:8).
- `INVITED` stands for the schema's pending referral status. One sync reads the clock once.

## Where code and documentation differ

The model follows the code.

- README.md:240-243 unlocks the listing when a transfer fails. apps/worker/src/jobs/refund.ts:64-79 does not touch
  it: `EscrowTheorems.RefundedListingStaysLocked`.
- packages/shared/src/money.ts:4 announces rounding half down. Fees are cut towards zero and printing rounds half up.
- A reward's ledger entry records the currency's own name as asset code, not the configured code that was sent
  (apps/worker/src/jobs/referral-reward/processor.ts:56-86).
- The comment at packages/shared/src/settlement.ts:106-109 calls adding missing jobs idempotent. It is for records,
  but a payout lost after sending is sent again: `CommercePayments.LostPayoutPaysTwice`. Nor does it always add what is
  missing: the last ten failed jobs stay under their ids (packages/shared/src/queues.ts:49) and block a new one,
  `CommerceTheorems.KeptJobBlocksPayout`.
- README.md:60 refunds the buyer on transfer failure. The code does when the game refuses; if the transfer or refund
  job itself is given up or throws, nothing adds it again and the deposit is kept for good:
  `EscrowTheorems.StatusFixesRecords`, `EscrowJobs.StrandedForGood`, `EscrowRuns.FailedPayoutStrands`.
- Overlapping syncs of one studio lose updates of its layouts: `CatalogueJobs.OverlappingJobsLoseItem`.
- Only PAID ends settlement, so a refunded order can be settled again: `CommerceTheorems.RefundedSettlesAgain`.

## Model

| member | source | states |
|---|---|---|
| Money.FeeAndNetMakeGross | packages/shared/src/money.ts:11-22 | for any non-negative gross of any precision and a rate of 0 to 10000, fee plus net is the gross cut to seven decimals, which loses less than one stroop |
| Money.FeeMonotone | packages/shared/src/money.ts:11-17 | a larger sale or a higher rate never lowers the fee |
| Money.FeeOfStroops | packages/shared/src/money.ts:11-22 | on stored amounts the decimal fee and net are exactly the whole-stroop fee and net that the state machines use |
| Money.SplittingKeepsFee | packages/shared/src/money.ts:11-17 | splitting a sale into n parts never raises the total fee and lowers it by fewer than n stroops |
| Money.ParsePrinted | packages/shared/src/money.ts:24-30 | printing and parsing any amount gives the nearest whole number of stroops, of two equally near ones the one farther from zero |
| Money.RoundTrip | packages/shared/src/money.ts:24-30 | an amount with at most seven decimals is read back unchanged from its printed form |
| Money.FeeBounds | packages/shared/src/money.ts:11-22 | the fee is the share in basis points cut to whole stroops, `fee * 10000 <= gross * bps < (fee + 1) * 10000`, and the net is the rest |
| Money.FeeIsCut | packages/shared/src/money.ts:11-17 | the same for decimals of any precision: whole stroops, less than one below the exact share |
| Money.AmountForm | packages/shared/src/money.ts:28-30 | exactly the strings with an optional minus sign, digits, and optionally a point and more digits are read |
| Money.AmountValue | packages/shared/src/money.ts:28-30 | such a string is worth its digits without the point over the matching power of ten |
| Money.PriceForm | packages/shared/src/zod/catalogue.ts:3 | exactly digits, or digits, a point and one to seven digits, are a price |
| Money.PrintParsed | packages/shared/src/money.ts:24-30 | an unsigned amount that is parsed prints to the same string if and only if it has seven fraction digits and no superfluous leading zero |
| Money.PriceIsStroops | packages/shared/src/zod/catalogue.ts:3 | every price string the schema accepts denotes a whole number of stroops |
| Money.PricePrints | packages/shared/src/zod/catalogue.ts:3 | such a price prints to a string of the same value that the schema accepts again and that has exactly seven fraction digits |
| Memo.TruncateTextMemo | packages/shared/src/stellar.ts:33-39 | backing up over continuation bytes from byte 28 and decoding yields the longest prefix of whole characters that fits |
| Memo.TruncatedIsLongest | packages/shared/src/stellar.ts:33-39 | the result is a prefix of at most 28 bytes, and every such prefix is a prefix of it |
| Memo.TruncatedSize | packages/shared/src/stellar.ts:33-39 | a memo is cut if and only if it exceeds 28 bytes, and then 25 to 28 bytes remain |
| Memo.TruncatedTwice | packages/shared/src/stellar.ts:33-39 | truncating is idempotent |
| Memo.CutPoint | packages/shared/src/stellar.ts:36-38 | where the loop stops: a character starts there, and only continuation bytes lie between it and byte 28 |
| Memo.DecodeUtf8 | packages/shared/src/stellar.ts:34-38 | decoding the UTF-8 form of a text (section 3 of RFC 3629) returns the text |
| Memo.ContinuationMask | packages/shared/src/stellar.ts:37 | the bit mask of the loop condition selects exactly the continuation bytes |
| Stellar.BuildPayment | packages/shared/src/stellar.ts:41-65 | the payment fields of the transaction a buyer is asked to sign, with the memo truncated |
| Stellar.AssetRoundTrip | packages/shared/src/stellar.ts:73-82 | a payment record passes the asset test if and only if it was built with that asset, also for an issued asset named XLM |
| Stellar.OnlyFirstMatchCounts | packages/shared/src/stellar.ts:116-129 | with the right memo a successful transaction is accepted if and only if its first payment to the account in the asset, among the first ten operations, is large enough; later payments do not help |
| Stellar.PageAcceptsCarried | packages/shared/src/stellar.ts:116-127 | the page accepts a payment that lies on it with no smaller one of its kind before it |
| Stellar.BeyondPageIsRefused | packages/shared/src/stellar.ts:116-124 | a transaction is refused for want of a payment if and only if none of its first ten operations is a payment to the account in lumens by type, or in an issued asset by exact code and issuer |
| Stellar.BuiltIsAccepted | packages/shared/src/stellar.ts:41-130 | a transaction carrying what was built, at any position, is accepted if and only if the page accepts it: so when the payment lies on the page with no smaller one of its kind before it, and when it is the only operation |
| Stellar.AcceptedMeans | packages/shared/src/stellar.ts:102-129 | accepted if and only if the transaction is known and successful with the cut memo, and the first of its first ten operations that is a payment to the account in the asset reads as at least the minimum |
| Stellar.RefusedMeans | packages/shared/src/stellar.ts:102-129 | the exact answer in every case: which refusal, an unreadable amount, or acceptance with the amount read |
| Stellar.PageAcceptsMeans | packages/shared/src/stellar.ts:116-127 | a page is accepted if and only if its first payment to the account in the asset reads as at least the minimum |
| Stellar.AcceptedPays | packages/shared/src/stellar.ts:102-129 | in the asset of a currency that is: lumens for XLM, the configured code and issuer for USDT, and at least so many stroops |
| Stellar.OfferAsks | apps/web/lib/checkout-queries.ts:207-231 | an offered payment names the account, the asset of the currency, an amount that reads as exactly the stroops due, and the cut memo |
| Stellar.OneMemoPerTransaction | packages/shared/src/stellar.ts:114 | one transaction is accepted for two memos only if they truncate to the same text |
| Promotions.DiscountMeaning | packages/shared/src/promotions/applyPromotion.ts:61-105 | if it is open now, for the item and for the code, a promotion takes off the most whole stroops within its terms and the price: the percentage, the fixed value, the price over a bundle of that quantity, or either for a buyer without a paid order; it is named if and only if it takes something off |
| Promotions.ExhaustedGivesNothing | packages/shared/src/promotions/applyPromotion.ts:49-55 | a promotion whose uses are spent takes nothing off |
| Promotions.CodeCaseIgnored | packages/shared/src/promotions/applyPromotion.ts:68-75 | two spellings of a code that differ in case give the same discount |
| Promotions.BestPromotion | apps/web/lib/checkout-queries.ts:140-169 | the candidate loop returns the largest discount and the first candidate that reaches it |
| Promotions.BestIsBest | apps/web/lib/checkout-queries.ts:140-169 | the same for the recursive form used by the state machine |
| Promotions.BestIsUnique | apps/web/lib/checkout-queries.ts:165-168 | that description admits one result only |
| Promotions.BestAmountMonotone | apps/web/lib/checkout-queries.ts:140-169 | adding candidates never lowers the amount, and neither order nor repetition changes it |
| Promotions.BestRange | apps/web/lib/checkout-queries.ts:140-169 | the chosen discount lies between zero and the price, names a promotion if and only if it is positive, and that promotion has a use left |
| CommerceDb.Database.FindNewest | apps/web/lib/checkout-queries.ts:56-65 | the newest pending order of a purchase, if there is one |
| CommerceDb.Database.DeleteOrder | apps/web/lib/checkout-queries.ts:69-76 | deleting an order gives back the promotion use it held and no other |
| CommerceDb.Database.DeleteDuplicates | apps/web/lib/checkout-queries.ts:80-98 | the loop deletes exactly the duplicates and gives back exactly the uses they held |
| CommerceDb.Database.ReuseOrder | apps/web/lib/checkout-queries.ts:77-123 | a reused order is the newest one, alone afterwards and unchanged; if its payment cannot be built everything is as before |
| CommerceDb.Database.InsertOrder | apps/web/lib/checkout-queries.ts:125-169 | the order has the item's price, the best discount of the candidate rows with the counters of that moment, the fee cut from the rest, and a payment that asks for what is left; the chosen counter alone rises by one |
| CommerceDb.Database.QuoteTransaction | apps/web/lib/checkout-queries.ts:40-231 | the whole transaction equals the quote step, and any failure leaves all tables as found |
| CommerceDb.Database.CreateOrderQuote | apps/web/lib/checkout-queries.ts:37-232 | the same for the public call, with every error condition, amount, column, counter and the payment stated on their own (`CommerceTerms.QuotedAs`) |
| CommerceDb.Database.SettleTransaction | packages/shared/src/settlement.ts:17-102 | the transaction equals the settlement step: not found, already paid, refused, replayed or settled |
| CommerceDb.Database.RecordSale | packages/shared/src/settlement.ts:51-99 | the writes of a settlement: the order, one sale entry at the gross amount, and at most one referral |
| CommerceDb.Database.QualifyReferral | packages/shared/src/settlement.ts:75-99 | only on the first paid order of the buyer, and then exactly the buyer's one open referral, is qualified |
| CommerceDb.Database.CountEntries | packages/shared/src/settlement.ts:110-113 | the number of ledger entries of a kind for an order |
| CommerceDb.Database.EnqueueMissing | packages/shared/src/settlement.ts:104-130 | exactly the jobs whose records are missing are added |
| CommerceDb.Database.VerifyAndAdvanceOrder | packages/shared/src/settlement.ts:13-156 | the whole call is settlement followed by the missing jobs and keeps all invariants |
| CommerceDb.Database.Payout | apps/worker/src/jobs/payout.ts:8-48 | a payout job pays the studio's share of a paid order to its wallet and records it, or stops before paying |
| CommerceDb.Database.InviteCode | apps/web/app/api/v1/referrals/route.ts:24-40 | a player gets the code they own, or the first untaken of five, or none if all are taken |
| CommerceDb.Database.BindReferral | apps/web/app/api/v1/referrals/bind/route.ts:26-55 | every outcome of binding a player to a referrer; a clash of codes undoes the player's update |
| CommerceDb.Database.RewardReferral | apps/worker/src/jobs/referral-reward/processor.ts:17-93 | an undisturbed reward job waives, skips, or pays and records the same amount and transaction |
| CommerceTerms.QuoteTerms | apps/web/lib/checkout-queries.ts:40-231 | every quote in plain terms: each error's exact condition; a fresh order's gross, best discount over the candidates' counters without the replaced order, fee and net by bounds, buyer, item, quantity, currency and code; the counters; what is reused or deleted; and a payment that asks for gross less discount |
| CommerceTerms.BestOfStudio | apps/web/lib/checkout-queries.ts:131-169 | a fresh quote takes off the most that any promotion of the item's studio gives and names one of that studio |
| CommerceTerms.SettleTerms | packages/shared/src/settlement.ts:17-102 | settled if and only if stored, not paid, the platform is paid gross less discount in lumens or the configured asset under the order's memo, and no other order has the transaction; then exactly the order, one sale entry and the buyer's first qualifying referral change |
| CommerceTerms.AdvanceTerms | packages/shared/src/settlement.ts:13-130 | the whole call, with exactly the jobs whose records are missing and whose ids are free |
| CommerceTerms.PayoutTerms | apps/worker/src/jobs/payout.ts:8-48 | paid if and only if the order is paid and its studio has a wallet: the studio's share, in the order's asset, to that wallet, sent and recorded alike |
| CommerceTerms.BindTerms | apps/web/app/api/v1/referrals/bind/route.ts:26-55 | each outcome's exact condition, and the two rows that a success writes |
| CommerceTerms.RewardTerms | apps/worker/src/jobs/referral-reward/processor.ts:17-93 | skipped, waived or paid on exact conditions; the studio's amount and currency before the platform's, before the order's; transfer, entry and row agree |
| CommerceTerms.PaidInEveryRun | packages/shared/src/settlement.ts:28-49 | in every reachable state a paid order has a transaction of its own that paid the platform gross less discount in the order's currency |
| CommerceTerms.SharesInEveryRun | apps/web/lib/checkout-queries.ts:171-173 | in every reachable state an order's fee is its studio's rate on gross less discount cut to stroops, and the net the rest |
| CommerceTerms.PlayersInEveryRun | apps/web/app/api/v1/referrals/bind/route.ts:36-46 | over every run wallets and referrers once set stay, and nobody is bound but by their own request |
| CommerceTerms.AdvanceIsRun | packages/shared/src/settlement.ts:13-130 | an undisturbed call is a run of the state machine, so what holds over runs holds in it |
| CommerceTerms.PayoutIsRun | apps/worker/src/jobs/payout.ts:8-48 | so is an undisturbed payout job, wherever it stops |
| CommerceTerms.RewardIsRun | apps/worker/src/jobs/referral-reward/processor.ts:17-93 | so is an undisturbed reward job |
| CommerceTerms.CallIsRun | apps/web/app/api/v1/referrals/bind/route.ts:26-55 | so are quotes, bind requests, sign-ins and invites |
| CommerceInvariants.InitHasInv | apps/web/lib/checkout-queries.ts:128-205 | the invariants hold before the first order |
| CommerceInvariants.QuoteKeepsInv | apps/web/lib/checkout-queries.ts:40-231 | every quote, successful or not, keeps counters, amounts and all other records consistent |
| CommerceInvariants.SettleKeepsInv | packages/shared/src/settlement.ts:17-102 | so does every settlement |
| CommerceInvariants.EnqueueKeepsInv | packages/shared/src/settlement.ts:104-130 | adding missing jobs never makes a second payout possible |
| CommerceInvariants.PayoutKeepsInv | apps/worker/src/jobs/payout.ts:33-45 | recording a payout uses up the only chance its order had |
| CommerceInvariants.BindKeepsInv | apps/web/app/api/v1/referrals/bind/route.ts:40-53 | binding keeps one referral per referee |
| CommerceInvariants.RewardKeepsInv | apps/worker/src/jobs/referral-reward/processor.ts:39-90 | closing a reward run, after any number of other runs, keeps entries and referral rows in agreement |
| CommerceInvariants.RunKeepsInv | packages/shared/src/settlement.ts:13-130 | all of it holds after every finite interleaving of quotes, settlements, job steps, lost jobs, bindings and reward runs |
| CommerceTheorems.QuoteEffect | apps/web/lib/checkout-queries.ts:40-231 | a failed quote changes nothing; a successful one touches only pending orders of its own purchase, leaves exactly the pending orders it should, and offers the payment settlement will ask for |
| CommerceTheorems.QuoteKeepsOnePending | apps/web/lib/checkout-queries.ts:56-123 | from at most one pending order per purchase every successful quote ends with exactly one for its own and at most one for all others |
| CommerceTheorems.OnePendingInEveryRun | apps/web/lib/checkout-queries.ts:56-123 | no run leaves two pending orders for one purchase |
| CommerceTheorems.UsageInEveryRun | apps/web/lib/checkout-queries.ts:69-98 | in every reachable state a promotion's counter is the number of stored orders naming it, hence never negative, and never exceeds its limit |
| CommerceTheorems.AmountsInEveryRun | apps/web/lib/checkout-queries.ts:178-201 | in every reachable state each order's gross is discount plus fee plus net, none of them negative, with a promotion if and only if there is a discount |
| CommerceTheorems.PaidIffSold | packages/shared/src/settlement.ts:24-73 | in every reachable state an order is paid if and only if it has exactly one sale entry, whose transaction verifies for that order and belongs to no other |
| CommerceTheorems.SettledForGood | packages/shared/src/settlement.ts:24-73 | after a settlement the order's row never changes again, the ledger only grows, and every later or competing call answers ALREADY and changes no row |
| CommerceTheorems.SettlesExactly | packages/shared/src/settlement.ts:18-49 | a call settles an order if and only if it exists, is not PAID, the payment verifies against its own terms and no other order used it; otherwise the transaction changes nothing |
| CommerceTheorems.RefundedSettlesAgain | packages/shared/src/settlement.ts:24-26 | so an order that was settled and then marked refunded is settled again by its own old payment, with a second sale entry |
| CommerceTheorems.OfferSettles | packages/shared/src/settlement.ts:28-59 | a transaction carrying, at any position, the payment a quote offered settles that order if and only if the page that is read accepts it and no other order used it |
| CommerceTheorems.ReturnLeavesWork | packages/shared/src/settlement.ts:104-130 | after every PAID or ALREADY the payout is recorded or its job will still run, if and only if it was recorded before or no finished job is kept under its id; likewise the delivery and an earned reward; no queued job is disturbed |
| CommerceTheorems.KeptJobBlocksPayout | packages/shared/src/queues.ts:47-50 | while a finished payout job without an entry is kept, no call and no run ever pays the order out |
| CommerceTheorems.AlreadyAddsNoReward | packages/shared/src/settlement.ts:124-130 | a later ALREADY neither adds nor disturbs any reward job |
| CommerceTheorems.PayoutAtMostOnce | apps/worker/src/jobs/payout.ts:8-45 | in every reachable state an order has at most one payout entry, of the amount it earned, only if it is paid by a verified payment of its own, and then no live payout job |
| CommerceTheorems.PaymentsCoverPayouts | packages/shared/src/settlement.ts:33-40 | in every reachable state and currency, verified payments less recorded payouts are at least the fees of all paid orders |
| CommerceTheorems.ReferralsOnlyMoveForward | apps/worker/src/jobs/referral-reward/processor.ts:65-90 | over every run a referral goes from pending through qualified to rewarded, keeping people, order and reward payment |
| CommerceTheorems.ReferralInEveryRun | apps/worker/src/jobs/referral-reward/processor.ts:25-90 | a referee has at most one referral; past pending it names a paid order of that referee; it has a reward payment if and only if exactly one entry with the same hash and amount records it, however jobs overlap |
| CommercePayments.PayoutsSentInEveryRun | apps/worker/src/jobs/payout.ts:26-45 | in every run the payouts sent for an order are those recorded, the one sent and about to be recorded, and those whose job was lost in between |
| CommercePayments.PayoutsRightInEveryRun | apps/worker/src/jobs/payout.ts:18-31 | in every run each payout sent is the share of a paid order, in its currency, to its studio's wallet, with the truncated memo |
| CommercePayments.NextPayoutIsFirst | apps/worker/src/jobs/payout.ts:26-31 | a payout about to be sent is the order's first if and only if none was lost between sending and recording |
| CommercePayments.OnePayoutPerOrder | apps/worker/src/jobs/payout.ts:8-48 | without such a loss at most one payout is ever sent for an order; in general if and only if none was lost, or one was and none was sent since |
| CommercePayments.PaymentsCoverPayoutsSent | apps/worker/src/jobs/payout.ts:26-31 | on the chain itself, verified payments less all payouts sent hold the fees of the paid orders but for the payouts lost unrecorded, and in full without such a loss |
| CommercePayments.LostPayoutPaysTwice | packages/shared/src/settlement.ts:110-116 | a run that sends two payouts for one order: settled, sent, lost before recording, added again by ALREADY, sent again |
| CommercePayments.KeptJobIsReachable | packages/shared/src/queues.ts:47-50 | a run that ends with a paid order whose finished payout job is kept and unpaid |
| CommerceOffers.DropsExactly | apps/web/lib/checkout-queries.ts:56-98 | a quote deletes a stored order if and only if it succeeds for the order's own purchase and, with a code, the order is its newest pending one, or, without a code, is not |
| CommerceOffers.OfferOverRun | packages/shared/src/settlement.ts:18-59 | over any run a payment carrying an order's offer settles it, or finds it paid, if and only if no quote dropped the order; once dropped the call throws and no order ever takes the payment |
| CommerceReferrals.FirstSaleQualifies | packages/shared/src/settlement.ts:75-99 | in every reachable state a referral past pending was qualified by the first sale the ledger records for its referee |
| CommerceReferrals.TooLateStaysPending | packages/shared/src/settlement.ts:78-81 | a referral still pending when its referee has a paid order stays pending in every later state |
| CommerceReferrals.RewardsSentInEveryRun | apps/worker/src/jobs/referral-reward/processor.ts:58-90 | in every run the rewards sent for a referral are the one recorded, those sent and not closed, and those of runs lost after sending or closing second |
| CommerceReferrals.RewardsRightInEveryRun | apps/worker/src/jobs/referral-reward/processor.ts:27-63 | in every run each reward sent is what its referral earned, to the referrer's wallet; what it earns is fixed once it is qualified |
| CommerceReferrals.NextRewardIsFirst | apps/worker/src/jobs/referral-reward/processor.ts:58-63 | a reward about to be sent is the referral's first if and only if none is recorded, no other run has paid and none was wasted |
| CommerceReferrals.OneRewardPerReferral | apps/worker/src/jobs/referral-reward/processor.ts:22-90 | if no run starts while another for the referral is open and none is lost after sending, at most one reward is sent, and the ledger or the open run accounts for it |
| CommerceReferrals.OverlappingRewardsPayTwice | apps/worker/src/jobs/referral-reward/processor.ts:58-76 | two overlapping runs both send the reward the referral earned, while one entry is recorded |
| EscrowDb.Database.ListItem | apps/web/lib/p2p-queries.ts:64-93 | every outcome of offering an item; a refusal for lack of units still leaves the refreshed quantity |
| EscrowDb.Database.RefreshOwnership | packages/shared/src/p2p/ownership.ts:21-32 | the row then has the game's quantity and its old lock, and no other row changes |
| EscrowDb.Database.MoveItem | packages/shared/src/p2p/settlement.ts:153-161 | the buyer's row gains one unit and keeps its lock; the seller's loses one and its lock if it was locked for this listing and is untouched otherwise; no other row changes |
| EscrowDb.Database.QuoteTrade | apps/web/lib/p2p-queries.ts:116-170 | only an active listing of somebody else can be quoted; the trade takes its terms, a fee of the platform's share cut to stroops and the rest as net; trade and both locks are stored before the payment, which asks for the price, is built |
| EscrowDb.Database.VerifyAndAdvanceTrade | packages/shared/src/p2p/settlement.ts:19-74 | the call equals the escrow step: not found, already past escrow, refused, replayed or taken |
| EscrowDb.Database.TransferItemAndPayout | packages/shared/src/p2p/settlement.ts:76-171 | an undisturbed transfer job stops early, hands over to a refund, or pays the seller and completes |
| EscrowDb.Database.RefundTrade | apps/worker/src/jobs/refund.ts:52-81 | an undisturbed refund job returns the price to the buyer and marks the trade, and leaves the listing alone |
| EscrowTerms.ListTerms | apps/web/lib/p2p-queries.ts:64-93 | each outcome of offering an item on exact conditions, and the rows it writes |
| EscrowTerms.QuoteTerms | apps/web/lib/p2p-queries.ts:116-170 | each refusal's exact condition; the new trade's terms, its fee and net by bounds, both locks, and a payment that asks for the price |
| EscrowTerms.DepositTerms | packages/shared/src/p2p/settlement.ts:19-74 | escrowed if and only if the trade waits for it, the platform is paid the price in lumens or the configured asset under the trade's memo, and no other trade has the transaction; and exactly what is then written |
| EscrowTerms.TransferTerms | packages/shared/src/p2p/settlement.ts:76-171 | completed if and only if the trade is paid, its studio has an API, the game moved the item and the seller has a wallet; a refund is handed over if and only if only the game refused; and exactly what each leaves behind |
| EscrowTerms.RefundTerms | apps/worker/src/jobs/refund.ts:52-81 | refunded if and only if the trade exists and the buyer has a wallet; the price goes back and only the trade, the ledger and the queue change |
| EscrowTerms.FeesInEveryRun | apps/web/lib/p2p-queries.ts:124-141 | in every reachable state each trade has `fee * 10000 <= price * bps < (fee + 1) * 10000` and net price less fee |
| EscrowTerms.PaymentsInEveryRun | packages/shared/src/p2p/settlement.ts:127-140 | so every payment to a seller is the price less that fee, to the seller's wallet, and every other is the price to the buyer's, in the trade's asset |
| EscrowTerms.DepositsInEveryRun | packages/shared/src/p2p/settlement.ts:34-58 | in every reachable state a trade past its quote has a transaction of its own that paid the platform its price |
| EscrowTerms.TransferIsRun | packages/shared/src/p2p/settlement.ts:76-171 | an undisturbed transfer job is a run of the state machine, wherever it stops |
| EscrowTerms.RefundIsRun | apps/worker/src/jobs/refund.ts:52-81 | so is an undisturbed refund job |
| EscrowTerms.CallIsRun | apps/web/lib/p2p-queries.ts:64-170 | so are listing, quoting and verifying |
| EscrowInvariants.InitHasInv | apps/web/lib/p2p-queries.ts:69-78 | the invariants hold before the first listing |
| EscrowInvariants.QuoteKeepsInv | apps/web/lib/p2p-queries.ts:112-171 | opening a trade keeps them, whether or not its payment could be built |
| EscrowInvariants.VerifyKeepsInv | packages/shared/src/p2p/settlement.ts:23-73 | taking a deposit keeps them |
| EscrowInvariants.BeginKeepsJobs | packages/shared/src/p2p/settlement.ts:79-122 | at most one of the two closing jobs of a trade is live |
| EscrowInvariants.CommitKeepsInv | packages/shared/src/p2p/settlement.ts:131-168 | completing a trade keeps them |
| EscrowInvariants.RefundKeepsInv | apps/worker/src/jobs/refund.ts:64-79 | refunding a trade keeps them |
| EscrowInvariants.RunKeepsInv | packages/shared/src/p2p/settlement.ts:19-171 | all of it holds after every finite interleaving of listing, quoting, escrow, transfer, refund, refresh and lost jobs |
| EscrowTheorems.EscrowIsConserved | packages/shared/src/p2p/settlement.ts:47-64 | in every reachable state and currency, escrow deposits less payouts and refunds on the ledger equal the prices of paid trades plus the fees of completed ones, so escrow is never negative |
| EscrowTheorems.StatusFixesRecords | packages/shared/src/p2p/settlement.ts:29-168 | in every reachable state a trade's status fixes its entries and its jobs: no job before the deposit, none live after closing, and a live transfer or refund, never both, if and only if it is PAID and no event of the run stranded it |
| EscrowJobs.StrandedIsStuck | packages/shared/src/p2p/settlement.ts:83-122 | over every run: a trade whose closing job was given up or threw is PAID with no live job, and every other PAID trade has one |
| EscrowJobs.StrandedForGood | packages/shared/src/p2p/settlement.ts:29 | from then on every run leaves the trade's row, gives it no live job and sends nothing for it, and a submitted payment is only answered ALREADY |
| EscrowRuns.FailedPayoutStrands | packages/shared/src/p2p/settlement.ts:108-129 | a run from the first listing on that strands a trade: the game hands over the item, the payout fails |
| EscrowTheorems.NoRecordsWithoutTrade | packages/shared/src/p2p/settlement.ts:52-64 | no entry exists without its trade |
| EscrowTheorems.ListingFollowsTrade | apps/web/lib/p2p-queries.ts:121-146 | a listing is ACTIVE, LOCKED or SOLD if and only if it has no trade, an uncompleted one or a completed one, and it never has two |
| EscrowTheorems.TradesOnlyMoveForward | packages/shared/src/p2p/settlement.ts:29-148 | over every run a trade moves from escrow to paid to completed or refunded and keeps terms and deposit |
| EscrowTheorems.RefundedListingStaysLocked | apps/worker/src/jobs/refund.ts:64-79 | after a refund the listing stays locked in every later state and refuses every buyer |
| EscrowTheorems.LostQuoteLocksListing | apps/web/lib/p2p-queries.ts:120-159 | a quote that returns no payment leaves the store unchanged if and only if the listing is missing, not active or the buyer's own; otherwise the store is that of a successful quote |
| EscrowTheorems.OfferEscrows | apps/web/lib/p2p-queries.ts:148-170 | a transaction carrying, at any position, the payment a trade quote offered is taken as its deposit if and only if the page that is read accepts it and no other trade used it |
| EscrowTheorems.EscrowedForGood | packages/shared/src/p2p/settlement.ts:29-64 | a deposit stays with its trade over every run: later calls answer ALREADY and change nothing, and no other trade has the transaction |
| EscrowTheorems.OnePaymentPerTrade | packages/shared/src/p2p/settlement.ts:124-129 | over every run, lost jobs included, at most one payment leaves the account for a trade, to the right wallet, and with the fee it never exceeds the price |
| EscrowTheorems.DepositsCoverTransfers | packages/shared/src/p2p/settlement.ts:124-148 | on the chain itself, verified deposits less everything sent are at least the fees of completed trades |
| EscrowTheorems.CompletionTotal | packages/shared/src/p2p/settlement.ts:153-161 | completing a trade keeps the item's total over all players if and only if the seller's row is still locked for this listing; otherwise the total grows by one |
| EscrowTheorems.CarefulRunKeepsLocks | apps/web/lib/p2p-queries.ts:80-91 | in runs where no seller offers an item again while a listing of it is open, every open listing holds its lock |
| EscrowTheorems.CompletionMovesOneUnit | packages/shared/src/p2p/settlement.ts:153-161 | in such runs completing moves exactly one unit from the seller to a different player, touches no other row and keeps the total |
| EscrowItems.QuantitiesStayNonNegative | packages/shared/src/p2p/settlement.ts:153-161 | if sellers do not offer an item twice at a time and the game never reports an offered item as gone, no quantity is ever negative |
| EscrowItems.NegativeIffOverdrawn | packages/shared/src/p2p/settlement.ts:153-156 | in any run from non-negative quantities none is ever negative if and only if no completion takes a unit from a row that has none |
| EscrowItems.SellerStaysNonNegative | packages/shared/src/p2p/settlement.ts:153-156 | one completion leaves the seller's row non-negative if and only if a row locked for the listing has a unit to give |
| EscrowItems.CompletionStaysNonNegative | packages/shared/src/p2p/settlement.ts:153-156 | the same for completions in runs where sellers do not offer an item twice at a time: if and only if the row has a unit |
| EscrowItems.RefreshedToZeroOverdraws | packages/shared/src/p2p/ownership.ts:21-32 | a run from the first listing on that ends at minus one: the game reports the offered item gone before the trade completes |
| EscrowItems.DoubleOfferCreatesUnit | apps/web/lib/p2p-queries.ts:80-91 | a run from the first listing on: a seller offers an item twice, the first offer is bought and handed over, and the item's total grows by one |
| Treasury.NoSharedTransaction | packages/shared/src/stellar.ts:114 | in every pair of runs on one chain a transaction is taken for both an order and a trade only if their ids truncate to the same memo |
| Treasury.AccountCoversBoth | packages/shared/src/stellar.ts:132-156 | on the shared account verified payments and deposits less payouts to studios and payments for trades hold all fees earned, but for payouts lost unrecorded |
| Idempotency.ReturnsAreStored | packages/shared/src/idempotency.ts:32-49 | over all interleavings, scopes and lock expirations every normal return equals the one stored response and matches its request hash |
| Idempotency.RowIsFinal | packages/shared/src/idempotency.ts:41-48 | a stored response is never replaced |
| Idempotency.AllReturnsAgree | packages/shared/src/idempotency.ts:32-49 | any two clients that return normally return the same response for the same request |
| Idempotency.OneAtATime | packages/shared/src/idempotency.ts:26-52 | if the lock does not expire and the scope is fixed: one client inside at most, a lock held only by one that is, no run of the function after a response is stored, and at most one completed run |
| Idempotency.CompletesAtMostOnce | packages/shared/src/idempotency.ts:26-52 | it is enough that the lock does not expire while it is held with nothing stored: until a response is stored the lock excludes, afterwards nobody runs the function, and it completes at most once |
| Idempotency.CalmIsNeeded | packages/shared/src/idempotency.ts:24-52 | that is exact: in every state such a run reaches, an expiry leaves all further runs without expiry with at most one completion if and only if a response is stored or nobody holds the lock |
| Idempotency.ExpiryCanRunTwice | packages/shared/src/idempotency.ts:24-52 | an expiry of a held lock before a response is stored can be followed by two completions, wherever the client inside is |
| Idempotency.ResultIsStored | packages/shared/src/idempotency.ts:40-49 | in such runs a result that was produced is stored and returned |
| Idempotency.LateReleaseRunsTwice | packages/shared/src/idempotency.ts:50-52 | an expiry while a failed client is releasing is already too much: its release frees the next client's lock |
| Idempotency.ExpiryRunsTwice | packages/shared/src/idempotency.ts:24-26 | if the lock expires midway the function runs twice and one result is lost |
| Idempotency.ScopesRunTwice | packages/shared/src/idempotency.ts:22-32 | one key under two scopes is not excluded |
| Idempotency.StoredIsAnswered | packages/shared/src/idempotency.ts:32-53 | once a response is stored, over every later interleaving and expiry, a client that has passed the lock ends with it if and only if its hash is the stored one, and with a conflict otherwise; one already running the function fails |
| Idempotency.RepeatIsAnswered | packages/shared/src/idempotency.ts:22-38 | a client that comes later never runs the function: it is turned away at the lock or answered from the row |
| Idempotency.LockDecides | packages/shared/src/idempotency.ts:26-29 | a client finds the lock of its scope taken and gets a conflict, or takes it |
| Idempotency.AnswerIsPrompt | packages/shared/src/idempotency.ts:31-53 | a client inside is answered by its own next two steps and gives the lock back |
| Idempotency.Guard.WithIdempotency | packages/shared/src/idempotency.ts:17-53 | conflict if the lock is taken; otherwise the stored response for the same hash and a conflict for another, or, if nothing is stored, a run of the function whose result is stored and returned; the steps are those of the protocol and the lock is given back |
| Matching.MatchAndAdvancePayments | apps/worker/src/jobs/stellar-watcher.ts:22-34 | the map index yields, per payment in order, the last pending order whose truncated id is the memo |
| Matching.IndexFindsLast | apps/worker/src/jobs/stellar-watcher.ts:26 | where truncated ids collide the last order wins |
| Matching.IndexIsJoin | apps/worker/src/jobs/stellar-watcher.ts:26-33 | the index computes the nested join of orders and payments if and only if no payment names two orders |
| Matching.DistinctIdsHitOnce | apps/worker/src/jobs/stellar-watcher.ts:14-30 | distinct truncated ids are enough for that |
| Matching.MatchedConcat | apps/worker/src/jobs/stellar-watcher.ts:28-33 | matching a concatenation of payments is concatenating the matches |
| Matching.BatchesAreWhole | apps/worker/src/jobs/stellar-watcher.ts:41-65 | for fixed pending orders, polling in batches of any sizes and concatenating equals matching the whole stream up to the cursor, less the records whose fetch failed |
| Matching.NothingLost | apps/worker/src/jobs/stellar-watcher.ts:41-65 | without a failed fetch it equals matching the stream itself up to the cursor |
| Matching.LostForever | apps/worker/src/jobs/stellar-watcher.ts:49-57 | a record whose fetch failed is not looked at by any later poll |
| Matching.MatchedOne | apps/worker/src/jobs/stellar-watcher.ts:21-33 | one payment is matched with nothing if it lacks a memo or a hash or names no order, else with the last order whose cut id is its memo |
| Matching.FetchedOne | apps/worker/src/jobs/stellar-watcher.ts:44-57 | a record is read unless its fetch fails |
| Matching.BatchMeans | apps/worker/src/jobs/stellar-watcher.ts:44-57 | a batch holds the payments of exactly the records of its stretch that could be fetched, all in order if none failed |
| Matching.CursorMoves | apps/worker/src/jobs/stellar-watcher.ts:39-81 | with V records visible, after n polls from start the cursor is the least of start + 200 n and V |
| Matching.EnoughPollsMatchAll | apps/worker/src/jobs/stellar-watcher.ts:39-81 | so enough polls match the whole visible stream, however few records each reads |
| Watching.MatchedName | apps/worker/src/jobs/stellar-watcher.ts:28-33 | with distinct truncated ids exactly the orders are matched whose cut id is the memo of a payment with a hash |
| Watching.AdvanceOrders | apps/worker/src/jobs/stellar-watcher.ts:68-77 | advancing one match changes at most the order it is for, and only by paying it |
| Watching.CarriedOfferIsPaid | apps/worker/src/jobs/stellar-watcher.ts:44-77 | from quote to settlement: if a payment that was read carries what a pending order was offered, on the page of operations that is read, and no other order used it, the order is paid afterwards, whatever else is matched and whatever fails |
| Watching.WatchedOfferIsPaid | apps/worker/src/jobs/stellar-watcher.ts:59-77 | the same with any other events between the matches, quotes, submits and other polls included: the order ends up paid if and only if no quote drops it, while no other order takes on its memo |
| Watching.Watcher.Read | apps/worker/src/jobs/stellar-watcher.ts:44-57 | a poll covers exactly the next two hundred records or as many as there are, the batch holds those that could be fetched, and the next cursor is their end, none if and only if there are none |
| Watching.PolledOfferIsPaid | apps/worker/src/jobs/stellar-watcher.ts:36-84 | over the watcher's own runs from the stored cursor, with anything else in between: after as many as reach the payment, two hundred records each, the order is paid if and only if no quote has dropped it |
| Watching.ProcessedCounts | apps/worker/src/jobs/stellar-watcher.ts:67-77 | the count of a run is the number of matches whose order was paid when their turn was over |
| Watching.Watcher.FindPending | apps/worker/src/jobs/stellar-watcher.ts:59-62 | all pending orders, each once |
| Watching.Watcher.AdvanceMatches | apps/worker/src/jobs/stellar-watcher.ts:67-77 | every match is advanced in turn, and the count is the number of matches whose order was paid when their turn was over |
| Watching.Watcher.Run | apps/worker/src/jobs/stellar-watcher.ts:36-84 | a whole job: the next two hundred records behind the given or stored cursor are matched and advanced, and the stored cursor moves to their end |
| Catalogue.SyncMeaning | packages/shared/src/catalogue/upsert.ts:11-39 | row by row: other studios' items are untouched, no row disappears, and feed items are active with their last occurrence's fields while the studio's others are inactive |
| Catalogue.FeedDecidesActive | packages/shared/src/catalogue/upsert.ts:12-36 | after a sync the studio's active items are exactly the feed's external ids |
| Catalogue.StaleBeforeUpsert | packages/shared/src/catalogue/upsert.ts:33-36 | what is deactivated is decided by the rows before the sync and the feed alone |
| Catalogue.SecondSync | packages/shared/src/catalogue/upsert.ts:11-39 | a second sync with the same feed deactivates nothing and changes only the sync time |
| Catalogue.SyncKeepsIds | packages/shared/src/catalogue/upsert.ts:26-30 | item ids stay unique |
| Catalogue.PriceIsStored | packages/shared/src/catalogue/upsert.ts:17 | a price that passes the feed's schema is stored exactly, in whole stroops |
| Catalogue.FieldsTerms | packages/shared/src/catalogue/upsert.ts:13-30 | column by column what an item stores, category and rarity from the metadata entries of those names, and exactly which items are refused |
| Catalogue.LastTerms | packages/shared/src/catalogue/upsert.ts:12-31 | the item that counts for an id is the last one of the feed with it |
| Catalogue.MergeAdds | apps/worker/src/jobs/catalogue-sync.ts:12-15 | what a merge appends to the first section: exactly the active ids that no section shows, in the order listed |
| Catalogue.MergedShows | apps/worker/src/jobs/catalogue-sync.ts:7-17 | a layout with a section then shows what it showed and every active item, and nothing else |
| Catalogue.MergeOnlyAppends | apps/worker/src/jobs/catalogue-sync.ts:15 | mode, sections, titles and all old entries stay in order; only the first section grows, at its end |
| Catalogue.MergeKeepsDistinct | apps/worker/src/jobs/catalogue-sync.ts:12-15 | no item is shown twice unless one was before |
| Catalogue.MergeIsNeeded | apps/worker/src/jobs/catalogue-sync.ts:8-16 | a layout is written if and only if it has a section and misses an active item |
| Catalogue.SecondMerge | apps/worker/src/jobs/catalogue-sync.ts:12-14 | merging again writes nothing |
| Catalogue.SyncLeavesOthers | apps/worker/src/jobs/catalogue-sync.ts:34-58 | a sync leaves other studios' shops and items alone |
| Catalogue.SyncKeepsDistinct | apps/worker/src/jobs/catalogue-sync.ts:34-58 | a sync shows no item twice in a layout that showed none twice |
| Catalogue.SecondSyncIsQuiet | apps/worker/src/jobs/catalogue-sync.ts:34-59 | a second sync with the same feed leaves every shop as it is, in whatever order the items are read |
| Catalogue.SyncCovers | apps/worker/src/jobs/catalogue-sync.ts:34-58 | after an undisturbed sync both the layout and the draft show every active item |
| Catalogue.RunKeepsCatalogue | apps/worker/src/jobs/catalogue-sync.ts:19-62 | over any run of syncs of any studios, one job after another: ids stay unique, rows stay, layouts only grow, and a shop that shows all its active items goes on doing so |
| CatalogueJobs.ItemsInEveryRun | apps/worker/src/jobs/catalogue-sync.ts:31-58 | over every interleaving of the upserts, reads and writes of any jobs, stopped midway or not, item ids stay unique and no row is deleted or changes its id |
| CatalogueJobs.FreshRunGrows | apps/worker/src/jobs/catalogue-sync.ts:34-56 | where no write of a shop falls between another job's read and write, layouts only grow at the end of their first section |
| CatalogueJobs.WriteGrowsIff | apps/worker/src/jobs/catalogue-sync.ts:44-56 | one write leaves a layout grown if and only if it writes nothing or appends again, first, all that was appended since its job read it |
| CatalogueJobs.StaleReadCanDrop | apps/worker/src/jobs/catalogue-sync.ts:34-56 | whenever a layout has grown since a job read it, some continuation without another write in between makes that job drop what was added |
| CatalogueJobs.QuietShopsAreCovered | apps/worker/src/jobs/catalogue-sync.ts:34-58 | where no write falls between another job's read and write and no job is stopped, a shop shows all its active items whenever no job of its studio is at work |
| CatalogueJobs.WriteShowsIff | apps/worker/src/jobs/catalogue-sync.ts:44-56 | one write leaves every active item on a page if and only if each is on the page its job read or in the list it read |
| CatalogueJobs.UndisturbedIsSync | apps/worker/src/jobs/catalogue-sync.ts:31-58 | the four steps of an undisturbed job are the sync step |
| CatalogueJobs.OverlappingJobsLoseItem | apps/worker/src/jobs/catalogue-sync.ts:34-56 | a run in which two overlapping jobs both end well and an active item is lost from the page for good |
| Catalogue.Database.UpsertCatalogueItems | packages/shared/src/catalogue/upsert.ts:4-40 | the loop and the bulk update equal the sync step and count what they deactivate; one refused write undoes all |
| Catalogue.Database.FindActive | apps/worker/src/jobs/catalogue-sync.ts:37-42 | the studio's active items, each once, oldest first |
| Catalogue.Database.MergeNewItemsIntoLayout | apps/worker/src/jobs/catalogue-sync.ts:7-17 | the set of shown ids and the filter compute the merge |
| Catalogue.Database.CatalogueSync | apps/worker/src/jobs/catalogue-sync.ts:19-62 | every refusal leaves everything unchanged; otherwise the whole job equals the sync step and reports whether the shop changed |

## Left out

- Order refunds (apps/worker/src/jobs/refund.ts:17-48): they return the gross amount whatever was paid and may follow
  a payout, so no conservation law holds; the theorems on orders are about runs without them.
- Webhook delivery and the mock-game fast path: only whether a delivery row exists matters here.
- The trade poller (apps/worker/src/jobs/p2p-settlement.ts:19-48): it compares full ids with memos cut at 28 bytes,
  so it finds no trade with a full-length id; trades advance through the submit request, which is modelled.
- Rewards in the balance of the shared account: they are paid out of the platform's fees, with no bound in the code.
- HTTP handlers, authentication, rate limits, address checks, paging, metrics, React components and DTO mapping.
- XDR, signatures and sequence numbers: only the payment fields that the verifier reads are kept.
- Dashboard edits of promotions and studios, including deletion of promotions, which would break fixed limits.
- Stock: it is checked when quoting and never reserved (apps/web/lib/checkout-queries.ts:52), so nothing is claimed.
- Statuses no modelled code sets: failed orders, expired referrals, cancelled listings, transferred or failed trades.
- A job added inside a transaction that fails to commit (packages/shared/src/p2p/settlement.ts:67-71).
- Network errors other than a missing transaction, and Horizon returning a transaction under another hash.
- Two clients of one idempotency key that crash inside the lock: they are clients that never take their next step.
- Lone surrogates in memos, and exponent or hexadecimal forms of decimal strings.
- Column limits of the database, and fields of a layout document that its schema does not know.
- EscrowTheorems.OnePaymentPerTrade: speaks of payments that were reported sent; a payment whose submission fails but
  still reaches the chain is not part of this model, and the same holds for payouts and rewards.
- CommerceInvariants.RunKeepsInv: does not cover refunded orders, for the reason given first.
