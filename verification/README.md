# Krejt: money and dispatch, verified

Krejt moves people, parcels and meals and keeps the money of everyone involved. This project
models the parts of its backend where a mistake costs money or strands somebody, and proves what
they promise.

| file | what it models |
|---|---|
| `ledger.dfy` | the double-entry ledger: checking, posting, balances |
| `settlement.dfy`, `settlement_proofs.dfy`, `settlement_effects.dfy` | how rides, parcels, orders and services are charged, who ends up with what, and whose wallet pays |
| `charging.dfy`, `retry.dfy` | settling with crashes, concurrent attempts and retries; the worker that retries |
| `wallets.dfy`, `wallet_races.dfy` | the floor under every customer wallet, with check and post in one step and in two |
| `payouts.dfy`, `payout_races.dfy`, `iban.dfy`, `iban_text.dfy` | paying drivers out, also while a batch is still being filled, and the bank-account check |
| `payments.dfy`, `payment_proofs.dfy`, `payment_evidence.dfy` | card top-ups, webhooks and refunds, transaction by transaction; what a delivery must say to be credited |
| `refunds.dfy`, `refund_schedules.dfy`, `refund_losses.dfy` | refund calls that overlap and stop: what is kept exactly when, how checks must be spaced, and what is lost otherwise |
| `dispatch.dfy`, `dispatch_store.dfy`, `dispatch_safety.dfy`, `dispatch_terms.dfy`, `dispatch_termination.dfy` | the offer protocol that finds a driver or courier |
| `catalog.dfy`, `catalog_loading.dfy`, `catalog_pricing.dfy`, `catalog_terms.dfy`, `checkout.dfy`, `checkout_terms.dfy`, `promos.dfy` | menus, pricing a choice, checkout, coupons |
| `pricing.dfy`, `hours.dfy`, `location.dfy` | fares, opening hours, batches of GPS positions |
| `basics.dfy` | an option type and Go's truncating division |

How the program's terms become Dafny's:

- A database transaction is one step on its tables; a transaction that returns an error changes
  nothing. Tables are sequences or maps held by a class, and each method of the class is proved
  equal to a function from the old tables to the new ones. The laws are lemmas about those
  functions, over every sequence of steps.
- The database clock and the server clock are one clock.
- Ids are natural numbers, usually row positions. Account codes and idempotency keys, which the
  program writes as formatted strings, are constructors of datatypes. A posting without an account
  and a transaction without a key remain expressible, since the program rejects them itself.
- Amounts are unbounded integers in cents; division is Go's where an operand can be negative.

What was found about the code while proving it:

- A repeated idempotency key answers with the first transaction's id only if the repeated call's
  postings and fields pass the checks that come before the key is looked up (`Ledger.Store.Post`).
- A payment status `failed` can belong to a job that has been charged, because the balance is
  checked in one transaction and posted in another. It happens exactly after one of two steps: an
  attempt checks a job already charged and finds too little left, or an attempt posts although
  another has meanwhile found too little (`Charging.ClashExactly`, `Charging.SafeExactly`). Without
  such a step `failed` means uncharged in every run (`Charging.FailedMeansUncharged`). Holding twice
  the sum is protection only if the payer spends nothing before the retry
  (`Charging.TwiceTheSumIsNotEnough`).
- For the same reason charges and refunds of one wallet that overlap can overdraw it
  (`WalletRaces.TwoChecksThenTwoPosts`, `WalletRaces.PurseOverdrawn`). The floor holds throughout a
  run exactly when each post is still covered when it is written (`WalletRaces.SplitFloor`), and it
  does if each check leaves enough for everything checked before it and not yet posted
  (`WalletRaces.PrudentRunKeepsFloor`).
- A wallet parcel can never be paid exactly when its coupon or the commission takes the whole price,
  a wallet ride or service when the commission does, and an order when nothing is left to pay or the
  commission takes the goods (`SettlementProofs.ParcelPaidExactly` and the three lemmas beside it).
  As long as its payer covers it, such a job stays pending.
- One ride that cannot be settled stops the pass of the retry worker, and cannot be settled in the
  books that pass leaves (`Retry.PassStops`). Of the reasons (`Retry.WhyStuck`) a missing account can
  still be opened; only an unbalanced list is for good (`Retry.NeverPaidExactly`).
- A card provider that answers `succeeded` at creation is taken on trust, without a ledger entry
  (`PaymentProofs.AttachOnTrust`).
- Two refunds of one top-up that overlap both pass the check of what is left, and both go through:
  twice the top-up is refunded (`RefundSchedules.TwoRefundsOverlap`, `RefundLosses.OverlapLosesQuota`).
  Refunds stay within each top-up throughout a run exactly when no row is inserted, and none revived
  by a delivery, beyond what is left at that moment (`Refunds.QuotaExactly`); they do if each
  check, and each delivery that revives, leaves enough for the calls past their checks
  (`RefundSchedules.BookedRunKeepsQuota`), as a check always does when calls for one top-up do not
  overlap (`RefundSchedules.OneAtATime`).
- The clearing account always is what the ledger has taken for refunds minus what it has topped up
  (`PaymentProofs.CardReconciles`). The refunds' own rows go on agreeing with it exactly as long as no
  call stops between a row and its post, no refund is answered `failed` without an error, and no
  delivery changes whether a refund counts as failed (`Refunds.RowsExactly`).
- A payout takes the balance that was read, whatever has happened since: two batches at once pay a
  driver twice (`PayoutRaces.TwoBatchesPayTwice`). An item settled before the last driver is paid
  completes a batch that then gets a pending item (`PayoutRaces.SettledTooEarly`).
- Two batches of positions from one driver at once can be counted twice and move the kept timestamp
  back (`Location.SentTwiceAtOnce`, `Location.AsIfReadNow`).
- The dates and caps of a coupon whose scope is food or parcels are not enforced when it is
  redeemed, so between two offers and their redemptions its caps can be lost
  (`PromoProofs.FoodCouponOverspent`), and only there (`PromoProofs.CheckedRedemptionKeepsCaps`).
- The IBAN check catches more than its standard promises: every exchange of unequal neighbours of
  one class, also across the point where the first four characters are moved to the end.
- A driver may still accept an offer in the very millisecond it expires, when a round no longer
  counts it as open; the marking of a stale offer as withdrawn inside an accept that fails is
  rolled back with it (`DispatchStore.Database.AcceptOffer`).

## Model

| member | source | states |
|---|---|---|
| Ledger.Validate | backend/internal/modules/ledger/ledger.go:50-72 | a posting list is accepted iff it is non-empty, every posting has one positive side and an account, and debits equal credits; otherwise the error is that of the first posting at fault, or imbalance |
| Ledger.Store.Post | backend/internal/modules/ledger/ledger.go:76-124 | atomic and idempotent: succeeds iff the list, the fields and (for a new key) the accounts are good; answers the id of the key's one row; a failure or a repeated key writes nothing |
| Ledger.Store.BalanceOf | backend/internal/modules/ledger/ledger.go:139-153 | credits minus debits over the account's entries, or an error for an unknown account |
| LedgerProofs.Conservation | backend/internal/modules/ledger/ledger.go:50-124 | over every run of posts and account openings, the balances of all accounts of a currency sum to zero |
| LedgerProofs.TotalIsCurrencyNet | backend/internal/modules/ledger/ledger.go:139-153 | summing balances over the accounts of a currency is summing its entries |
| LedgerProofs.RunKeepsSound | backend/internal/modules/ledger/ledger.go:88-121 | in every run each key has at most one transaction and each transaction and currency balances |
| LedgerProofs.AppendOnly | backend/internal/modules/ledger/ledger.go:74-124 | nothing recorded is ever changed or removed |
| LedgerProofs.BalanceRefines | backend/internal/modules/ledger/ledger.go:137-153 | folding the entries agrees, for every run and account, with a map of balances kept up to date on each post |
| LedgerProofs.PostMoves | backend/internal/modules/ledger/ledger.go:109-119 | a post that writes moves each account by its share of the list, any other post by nothing |
| Settlement.SettleRide | backend/internal/modules/rides/driver.go:312-375 | charges a ride by personal wallet, business wallet, cash or cancellation fee exactly as its plan says; the error branch is taken iff the ride is in no settleable condition |
| SettlementEffects.RideEffect | backend/internal/modules/rides/driver.go:320-375 | settling a finished ride for the first time takes the price from the customer's wallet, or the business's, by the way it is paid, gives the driver the price less the commission, in cash takes the commission from the driver, moves nothing else, and posts under that ride's key alone |
| SettlementEffects.RideRefused | backend/internal/modules/rides/driver.go:342-353 | it answers failed iff the wallet that pays is known and holds less than the price, and then posts nothing |
| SettlementEffects.CancelledRideEffect | backend/internal/modules/rides/driver.go:316-319 | a cancelled ride's fee goes from the customer's wallet to the platform, under its own key |
| Settlement.SettleParcel | backend/internal/modules/parcels/parcels.go:475-528 | charges a delivered parcel from the wallet or in cash, with coupon and commission, exactly as its plan says; an error is told apart from nothing being due |
| SettlementEffects.ParcelEffect | backend/internal/modules/parcels/parcels.go:475-528 | settling a parcel for the first time: the customer pays price less coupon, the courier earns price less commission, marketing bears the coupon, under that parcel's key alone |
| SettlementEffects.ParcelRefused | backend/internal/modules/parcels/parcels.go:492-499 | a parcel is refused iff the wallet that pays is known and too short, and then posts nothing |
| SettlementEffects.NextParcelIsCharged | backend/internal/modules/parcels/parcels.go:475-528 | settling one parcel never takes the key of another, so a customer's next parcel is charged too |
| Settlement.SettleOrder | backend/internal/modules/orders/orders.go:596-672 | charges a delivered order from the wallet or in cash, with coupon, fee and commission, exactly as its plan says; an error is told apart from nothing being due |
| SettlementEffects.OrderEffect | backend/internal/modules/orders/orders.go:596-672 | settling an order for the first time: the customer pays the total, the merchant earns the goods less the half-up commission, fee and coupon go to the platform's accounts, under that order's key alone |
| SettlementEffects.OrderRefused | backend/internal/modules/orders/orders.go:614-623 | an order is refused iff the wallet that pays is known and too short, and then posts nothing |
| Settlement.SettleService | backend/internal/modules/services/services.go:616-660 | charges a completed service from the wallet or in cash exactly as its plan says; an error is told apart from nothing being due |
| SettlementEffects.NothingDue | backend/internal/modules/rides/driver.go:312-365 | which rides, parcels, orders and services there is something to settle for |
| SettlementEffects.ServiceEffect | backend/internal/modules/services/services.go:616-660 | settling a service for the first time moves price and commission between customer, provider and platform, under that request's key alone |
| SettlementEffects.ServiceRefused | backend/internal/modules/services/services.go:634-640 | a service is refused iff the wallet that pays is known and too short, and then posts nothing |
| SettlementProofs.FareListValid | backend/internal/modules/rides/driver.go:354-362 | a wallet fare or service fee can be posted iff the commission is below the price |
| SettlementProofs.RidePaidExactly | backend/internal/modules/rides/driver.go:346-375 | in any book that covers it and has the list's accounts, a wallet or business ride is paid iff the commission is below the price, and otherwise stays pending |
| SettlementProofs.ServicePaidExactly | backend/internal/modules/services/services.go:634-655 | likewise for a wallet service |
| SettlementProofs.ParcelWalletListValid | backend/internal/modules/parcels/parcels.go:500-510 | a wallet parcel can be charged iff neither discount nor commission reaches the price |
| SettlementProofs.ParcelPaidExactly | backend/internal/modules/parcels/parcels.go:492-523 | likewise for a wallet parcel, iff neither discount nor commission reaches the price |
| SettlementProofs.ParcelStuck | backend/internal/modules/parcels/parcels.go:492-510 | over the sound books that cover it, a delivered wallet parcel is never settled iff discount or commission takes the whole price |
| SettlementProofs.ParcelCashListValid | backend/internal/modules/parcels/parcels.go:511-521 | a cash parcel's list is empty or valid, always |
| SettlementProofs.CashCommissionListValid | backend/internal/modules/rides/driver.go:332-338 | a cash commission list is empty or valid, always |
| SettlementProofs.OrderListsValid | backend/internal/modules/orders/orders.go:605-659 | a wallet order can be charged iff something is left to pay and the commission is below the items; a cash order always can |
| SettlementProofs.OrderPaidExactly | backend/internal/modules/orders/orders.go:616-661 | likewise for a wallet order, iff something is left to pay and the commission is below the items |
| SettlementProofs.CommissionBelowPrice | backend/internal/modules/pricing/pricing.go:75-80 | the half-up commission stays below the price iff the remaining share is worth more than half a cent |
| SettlementProofs.FareNeutral | backend/internal/modules/rides/driver.go:332-362 | on every account, paying a fare or a service fee by wallet equals handing over the cash and posting the cash list |
| SettlementProofs.ParcelNeutral | backend/internal/modules/parcels/parcels.go:479-521 | on every account, paying a parcel by wallet equals handing over the cash and posting the cash list |
| SettlementProofs.OrderPositions | backend/internal/modules/orders/orders.go:605-659 | wallet and cash orders leave every party in the same position; merchant, customer, marketing, fees and commission get exactly their shares |
| SettlementProofs.OrderCouponNeutral | backend/internal/modules/orders/orders.go:635-656 | an order's coupon moves money between the customer (or the cash holder) and marketing only |
| SettlementProofs.ParcelCouponNeutral | backend/internal/modules/parcels/parcels.go:500-510 | a parcel's coupon moves money between the customer and marketing only |
| Charging.ExactlyOnce | backend/internal/modules/rides/driver.go:366-375 | with any interleaving of attempts, crashes and other posts, and each attempt by the terms it has read, a job's key has at most one transaction, it moved the list of one of the attempts or nothing, and a settled status is that of an attempt whose list did not go unposted |
| Charging.InvKept | backend/internal/modules/rides/driver.go:366-400 | each step of each attempt keeps the invariant behind exactly-once charging |
| Charging.StatusSettlesOnce | backend/internal/modules/rides/driver.go:381-385 | the payment status leaves pending at most once |
| Charging.UninterruptedIsSettle | backend/internal/modules/rides/driver.go:312-375 | one attempt run without interruption, through all its steps, is the settlement routine |
| Charging.ClashExactly | backend/internal/modules/rides/driver.go:346-385 | a step first lets a charged job read, or be about to read, failed iff it is a late check or a late post |
| Charging.SafeExactly | backend/internal/modules/rides/driver.go:346-385 | a run of any interleaving never meets such a clash iff none of its events is a late check or a late post |
| Charging.FailedMeansUncharged | backend/internal/modules/rides/driver.go:346-385 | over every run without late checks and late posts, failed implies that nothing was charged |
| Charging.UnsafeIsLoss | backend/internal/modules/rides/driver.go:346-385 | after a late check or a late post the job reads failed and is charged, at once or at the next step of an attempt, whatever is posted elsewhere meanwhile |
| Charging.LossIsForGood | backend/internal/modules/rides/driver.go:381-385 | a job that is charged and reads failed stays so in every continuation |
| Charging.TwiceTheSumIsNotEnough | backend/internal/modules/rides/driver.go:346-385 | with twice the sum in the wallet, spending before a retry, or between two overlapping checks without a crash, leaves the ride charged and failed |
| Charging.RetryAfterCrash | backend/internal/modules/rides/driver.go:346-353 | if nothing is posted between the crash after the post and the retry, the retry answers failed iff the payer held less than twice the sum |
| Retry.Worker.SettlePending | backend/internal/modules/rides/driver.go:404-429 | settles the listed rides in order up to the first error and answers how many it settled |
| Retry.PassSettlesPrefix | backend/internal/modules/rides/driver.go:421-428 | after a pass exactly the counted prefix of the list has left pending |
| Retry.PassStops | backend/internal/modules/rides/driver.go:423-425 | if a pass stops short, its next ride cannot be settled in the books the pass leaves |
| Retry.WhyStuck | backend/internal/modules/rides/driver.go:346-375 | a settlement ends in an error iff the payer's wallet does not exist, or the covered list is unbalanced, or an account of it is missing |
| Retry.NeverPaidExactly | backend/internal/modules/rides/driver.go:404-429 | over every continuation of the ledger, a plan is never paid iff its list is unbalanced |
| Retry.RideNeverPaidExactly | backend/internal/modules/rides/driver.go:354-362 | so a wallet ride is never paid iff its commission reaches its price |
| Retry.PassFrames | backend/internal/modules/rides/driver.go:404-429 | a pass changes rides in their payment only, leaves rides off its list alone, and keeps the ledger sound |
| Wallets.WalletFloor | backend/internal/modules/rides/driver.go:316-352 | over every run in which a balance check and its post are one step, each customer wallet plus the cancellation fees charged to it is non-negative |
| WalletRaces.FloorKeptExactly | backend/internal/modules/rides/driver.go:354-375 | one post keeps the floor iff balance and fees still cover its debit when it is written |
| WalletRaces.SplitFloor | backend/internal/modules/rides/driver.go:346-368 | with check and post as two steps, the floor holds throughout a run iff every post is still covered when it is written |
| WalletRaces.ReserveKeptExactly | backend/internal/modules/rides/driver.go:346-368 | wallet and fees go on covering everything checked and not yet posted iff a check counts on no more than that leaves, and an operation in one piece leaves as much |
| WalletRaces.PrudentRunKeepsFloor | backend/internal/modules/rides/driver.go:346-368 | over every run with such checks, settlements and refunds alike, the floor holds throughout, however late the posts come |
| WalletRaces.PostsAlone | backend/internal/modules/rides/driver.go:366-368 | if the balance covers the sum of everything checked and not yet posted, it may be posted in any order |
| WalletRaces.TwoChecksThenTwoPosts | backend/internal/modules/rides/driver.go:346-368 | two charges of one wallet that were both checked before either was posted keep the floor iff balance and fees cover them together |
| WalletRaces.PurseOverdrawn | backend/internal/modules/rides/driver.go:346-368 | two rides for ten and twenty pass their checks on a wallet of twenty and overdraw it |
| Wallets.PlanKeepsFloor | backend/internal/modules/orders/orders.go:615-623 | a settlement that debits no more than it has checked keeps the floor |
| Wallets.OrderPlanDebits | backend/internal/modules/orders/orders.go:614-659 | an order's list debits the customer's wallet by no more than the balance check covered |
| Wallets.RidePlanDebits | backend/internal/modules/rides/driver.go:316-362 | a ride's list debits the payer by exactly what was checked, or is a cancellation fee |
| Wallets.ParcelPlanDebits | backend/internal/modules/parcels/parcels.go:492-510 | a parcel's list debits the customer by no more than was checked |
| Wallets.ServicePlanDebits | backend/internal/modules/services/services.go:634-640 | a service's list debits the customer by no more than was checked |
| Payouts.Desk.CreateBatch | backend/internal/modules/payouts/payouts.go:249-327 | opens a batch, pays every candidate at or above the minimum in turn, records the totals; a refused post ends it with the earlier candidates paid |
| Payouts.Desk.SettleItem | backend/internal/modules/payouts/payouts.go:365-398 | marks a pending item once, returns the money of a failed one, completes a batch with nothing pending |
| Payouts.Desk.ExportCSV | backend/internal/modules/payouts/payouts.go:330-361 | lists exactly the batch's pending items and marks an open batch exported |
| Payouts.PendingOfIs | backend/internal/modules/payouts/payouts.go:330-345 | the exported rows are exactly the batch's pending items, none twice |
| PayoutProofs.BatchEmptiesWallets | backend/internal/modules/payouts/payouts.go:286-309 | a batch that nothing overlaps never stops half way; each listed driver at or above the minimum ends at exactly zero, nobody else is touched |
| PayoutProofs.RepeatPaysNobody | backend/internal/modules/payouts/payouts.go:286-309 | creating a batch again at once pays nobody |
| PayoutProofs.SettleRestores | backend/internal/modules/payouts/payouts.go:365-391 | a failed item moves its amount back in full and a paid one nothing; only the first answer counts |
| PayoutProofs.PayoutsReconcile | backend/internal/modules/payouts/payouts.go:286-398 | in every run of whole calls the clearing account equals the pending and paid items, each batch's figures are the sums over its items, and a completed batch has nothing pending |
| PayoutProofs.CompletedIsFinal | backend/internal/modules/payouts/payouts.go:393-395 | over runs of whole calls, a completed batch stays completed and never again has a pending item |
| PayoutRaces.PaidLater | backend/internal/modules/payouts/payouts.go:287-300 | a payout whose balance was read before other transactions leaves the wallet at zero iff its balance is again what was read, and in debt iff it is less |
| PayoutRaces.TwoBatchesPayTwice | backend/internal/modules/payouts/payouts.go:287-300 | two batches that both read a wallet before either pays it take it twice |
| PayoutRaces.DoneExactly | backend/internal/modules/payouts/payouts.go:303-398 | over every run in which batches are filled, settled and exported at once, a completed batch never has a pending item iff no completed batch is paid one more |
| PayoutRaces.SettledTooEarly | backend/internal/modules/payouts/payouts.go:303-398 | settling the first driver's item before the second driver is paid completes a batch that then has a pending item |
| Iban.ValidIBAN | backend/internal/modules/payouts/payouts.go:55-82 | accepts iff the shape is right and the whole decimal expansion, of any length, is 1 modulo 97 |
| IbanText.SpacesDoNotMatter | backend/internal/modules/payouts/payouts.go:56 | white space anywhere in an account number is ignored |
| IbanText.CaseDoesNotMatter | backend/internal/modules/payouts/payouts.go:56 | a small letter stands for its capital |
| IbanText.NormalizedIsPlain | backend/internal/modules/payouts/payouts.go:56 | what is left has neither, and such text is left as it is |
| IbanText.CountryDecidesLength | backend/internal/modules/payouts/payouts.go:57-68 | the length a valid number has in each country known |
| IbanText.KosovoExample | backend/internal/modules/payouts/payouts.go:55-82 | a known account number passes and one mistyped digit of it does not |
| Iban.RemainderIsNumber | backend/internal/modules/payouts/payouts.go:72-81 | the running remainder equals the full number modulo 97 |
| Iban.SubstitutionCaught | backend/internal/modules/payouts/payouts.go:71-81 | every replacement of one character by another of its class is rejected |
| Iban.TranspositionCaught | backend/internal/modules/payouts/payouts.go:71-81 | every exchange of two unequal neighbours of one class is rejected, at any position |
| Payments.Gateway.HandleWebhook | backend/internal/modules/payments/payments.go:189-266 | applies each delivery once by its id, as `Deliver` does; what that means is stated by the rows of `PaymentEvidence` |
| PaymentEvidence.CreditedExactlyWhen | backend/internal/modules/payments/payments.go:219-291 | a step puts an intent's top-up into the ledger iff it is a first delivery that reports success for its provider id with the intent's whole amount in euro |
| PaymentEvidence.NoCreditWithoutEvidence | backend/internal/modules/payments/payments.go:189-291 | over every run from an empty ledger, a top-up is in the ledger only if such a delivery was made |
| PaymentEvidence.StatusAfter | backend/internal/modules/payments/payments.go:247-266 | the status a first delivery leaves: succeeded for the whole amount or if it was so before, failed for another amount, else canceled, failed or the reported status, each only where it may follow; no other intent and, unless credited, no account changes |
| PaymentEvidence.RefundStatusAfter | backend/internal/modules/payments/payments.go:219-231 | a delivery about a refund sets its row to succeeded, failed (also when canceled) or pending and changes nothing else |
| PaymentEvidence.NothingToDo | backend/internal/modules/payments/payments.go:204-240 | a repeated delivery, or one about an unknown intent, changes nothing but the record of its arrival |
| PaymentEvidence.TopUpAmounts | backend/internal/modules/payments/payments.go:112-117 | over every run a top-up lies between one and five hundred euro in steps of fifty cents, and every such amount can be asked for |
| Payments.Gateway.Credit | backend/internal/modules/payments/payments.go:269-291 | opens the wallet, posts the top-up under the intent's key, marks the intent |
| Payments.Gateway.Refund | backend/internal/modules/payments/payments.go:295-353 | a call that nothing overlaps refunds within what is left of a succeeded top-up and the wallet's balance; a provider error reverses the money |
| PaymentEvidence.RefundGoesAhead | backend/internal/modules/payments/payments.go:303-324 | an uninterrupted refund call inserts its row iff the intent has succeeded, that much is left of it and its wallet holds it; otherwise nothing changes |
| PaymentEvidence.RefundTakes | backend/internal/modules/payments/payments.go:325-344 | it takes the amount from the wallet, unless the provider is down, and never overdraws it |
| PaymentProofs.CreditedOnce | backend/internal/modules/payments/payments.go:189-291 | whatever is delivered in whatever order, and whatever the steps of refund calls in between, an intent puts its own amount into its own user's wallet once or nothing |
| PaymentProofs.SucceededStays | backend/internal/modules/payments/payments.go:240-266 | succeeded is absorbing, and an intent keeps its user and amount |
| PaymentProofs.AttachOnTrust | backend/internal/modules/payments/payments.go:165-166 | after the provider's first answer, success implies a ledger entry iff that answer was not a success |
| PaymentProofs.SucceededMeansCredited | backend/internal/modules/payments/payments.go:269-291 | over runs whose first answers are no success, every succeeded intent is in the ledger |
| PaymentProofs.RefundAccounts | backend/internal/modules/payments/payments.go:315-344 | a refund call that nothing overlaps keeps the quota whatever the provider answers, and clearing iff the answer, when it can be recorded, is not "failed" without an error |
| PaymentProofs.RefundDelivery | backend/internal/modules/payments/payments.go:219-231 | a delivery about a refund loses the quota iff it revives a failed refund beyond what is left of the top-up, and loses clearing iff it changes whether the refund counts as failed |
| PaymentProofs.CardReconciles | backend/internal/modules/payments/payments.go:269-344 | over every run of transactions, refunds overlapping, crashing and reported about, card clearing is what the ledger took for refunds minus what it topped up, so it matches the refunds' rows iff these add up to what was taken |
| PaymentProofs.RevivedRefund | backend/internal/modules/payments/payments.go:219-231 | a delivery that revives a failed refund keeps the quota iff the money has not been refunded again |
| Refunds.CallsAreTransactions | backend/internal/modules/payments/payments.go:303-344 | a run of overlapping refund calls is a run of single transactions, so what holds over those holds here |
| Refunds.InvKept | backend/internal/modules/payments/payments.go:303-344 | each step of each call keeps the place of every call: its row is its own, and posted and reversed just as far as the call has come |
| Refunds.QuotaKeptExactly | backend/internal/modules/payments/payments.go:315-329 | a step keeps refunds within each top-up iff it neither inserts nor revives a row beyond what is left when it is written |
| Refunds.QuotaExactly | backend/internal/modules/payments/payments.go:303-344 | over every run, however calls overlap and stop, refunds stay within each top-up throughout iff no event is such where it happens |
| Refunds.RowsKeptExactly | backend/internal/modules/payments/payments.go:325-344 | a step keeps every row that no call is about to post or reverse in agreement with the ledger iff it is not a stop between row and post, a "failed" answer without an error, or a delivery that changes whether a refund counts |
| Refunds.RowsExactly | backend/internal/modules/payments/payments.go:303-344 | over every run the rows agree with the ledger throughout iff no event is such where it happens |
| Refunds.QuietMatches | backend/internal/modules/payments/payments.go:325-344 | once no call is between a row and its post, clearing then matches the rows |
| RefundSchedules.AloneIsRefund | backend/internal/modules/payments/payments.go:295-353 | in any state, a call whose steps nothing overlaps is the whole refund |
| RefundSchedules.BookedKeptExactly | backend/internal/modules/payments/payments.go:304-324 | rows and the amounts of calls past their check stay within each top-up iff no check passes, and no delivery revives, on what those have reserved |
| RefundSchedules.BookedRunKeepsQuota | backend/internal/modules/payments/payments.go:303-344 | over every run with such checks, refunds stay within each top-up, however the calls overlap afterwards |
| RefundSchedules.OneAtATime | backend/internal/modules/payments/payments.go:304-324 | a check never overbooks when no other call has reserved anything of its top-up |
| RefundSchedules.TwoRefundsOverlap | backend/internal/modules/payments/payments.go:303-334 | two refunds of one top-up, each in order by itself, both go through when they overlap; the quota is kept iff it would have allowed them together, and the wallet is debited twice |
| RefundSchedules.StopsHalfWay | backend/internal/modules/payments/payments.go:327-334 | a call that stops after inserting its row leaves a refund that counts and was never taken, so clearing no longer matches |
| RefundLosses.OverlapLosesQuota | backend/internal/modules/payments/payments.go:303-334 | from an empty ledger, with two hundred in the wallet, a top-up of one hundred is refunded twice, without any delivery about a refund |
| RefundLosses.QuotaCanBeLost | backend/internal/modules/payments/payments.go:219-231 | from an empty ledger, a delivery that revives a failed refund leads to twice the top-up refunded |
| DispatchStore.Database.Request | backend/internal/modules/rides/service.go:181-281 | a new job in its initial state, unless the customer already has a ride that has not ended |
| DispatchStore.Database.Round | backend/internal/modules/dispatch/dispatch.go:44-134 | offers a matching job without an open offer to the nearest eligible driver never asked, or gives it up after its timeout |
| DispatchTerms.RoundExactly | backend/internal/modules/dispatch/dispatch.go:44-134 | a round gives a waiting job up iff it has waited over three minutes (a parcel fifteen), and otherwise offers it, for twenty seconds (twenty-five), to the nearest candidate who was never asked, drives no ride, carries no parcel if it is one, and has no live offer of the kind, iff there is one |
| DispatchStore.Database.Excluded | backend/internal/modules/parcels/dispatch.go:92-107 | the drivers already asked, and the number of offer rows |
| DispatchStore.Database.IsEligible | backend/internal/modules/dispatch/dispatch.go:95-118 | the eligibility query |
| DispatchStore.Database.AcceptOffer | backend/internal/modules/rides/driver.go:79-136 | assigns the job to the driver of a live offer and withdraws the others; every refusal changes nothing |
| DispatchStore.Database.DeclineOffer | backend/internal/modules/rides/driver.go:139-152 | declines the driver's own open offer |
| DispatchStore.Database.DriverTransition | backend/internal/modules/rides/driver.go:213-262 | the driver's steps, and only those; completion fixes the quoted price and the half-up commission and sets payment pending |
| DispatchStore.Database.CancelByDriver | backend/internal/modules/rides/driver.go:265-306 | reopens the job and marks the driver's offer declined |
| DispatchStore.Database.CancelByCustomer | backend/internal/modules/rides/service.go:323-383 | cancels what has not begun; a ride costs its fee iff it was taken and more than the grace period has passed since, payment is pending iff there is a fee and the wallet pays; open offers are withdrawn |
| DispatchTerms.FeeAfterGrace | backend/internal/modules/rides/service.go:340-352 | taken and cancelled some time later, a ride costs its fee iff more than the grace period has passed |
| DispatchTerms.FreeOfCharge | backend/internal/modules/rides/service.go:340-352 | a ride not yet taken, and any parcel, is cancelled free of charge |
| DispatchTerms.RideGetsDone | backend/internal/modules/rides/driver.go:213-262 | a ride that was taken can be driven to its end, at its quoted price, with payment pending |
| DispatchTerms.ParcelGetsDone | backend/internal/modules/parcels/state.go:22-26 | so can a parcel |
| DispatchTerms.OnlyTheseMoves | backend/internal/modules/rides/state.go:21-26 | no transaction changes a job's state in any other way than those listed |
| DispatchStore.Database.Sweep | backend/internal/modules/dispatch/dispatch.go:144-199 | expires every stale offer and then runs one round for each of the first 200 matching jobs without an open offer |
| DispatchSafety.ReachableInvariant | backend/internal/modules/dispatch/dispatch.go:44-134 | every transaction sequence keeps the joint invariant of jobs and offers |
| DispatchSafety.InvariantKept | backend/internal/modules/parcels/dispatch.go:62-150 | each transaction, of rides and of parcels, keeps it |
| DispatchSafety.TablesAgree | backend/internal/modules/rides/driver.go:103-123 | in every reachable state a job with a driver has exactly one accepted offer, that driver's; one without has none; an open offer exists only while matching, and then only one |
| DispatchSafety.FirstEligibleIs | backend/internal/modules/dispatch/dispatch.go:95-131 | the chosen driver is the nearest candidate that was never asked and is eligible |
| DispatchSafety.AskedCountsRows | backend/internal/modules/parcels/dispatch.go:92-107 | the size of the excluded set equals the number of offer rows |
| DispatchSafety.RoundsNumberedKept | backend/internal/modules/parcels/dispatch.go:107-139 | an offer's round number counts the job's offers up to it |
| DispatchSafety.PendingIsSettleable | backend/internal/modules/rides/driver.go:363-365 | a reachable ride or parcel pending after its end is always a settleable case, so the settlement's error branch is dead |
| DispatchSafety.PaymentLeavesPendingOnce | backend/internal/modules/rides/driver.go:381-385 | over any continuation a job keeps its identity, and once its payment has left pending nothing about it changes |
| DispatchTermination.EveryJobStops | backend/internal/modules/rides/state.go:21-26 | from its request on, a ride changes state at most 3n + 1 times and a parcel 2n + 1, n being the number of drivers |
| DispatchTermination.PotentialDrops | backend/internal/modules/rides/driver.go:265-306 | every state change lowers the measure of fresh drivers and rank, and nothing raises it |
| DispatchTermination.AcceptUsesDriver | backend/internal/modules/dispatch/dispatch.go:76-131 | taking a job uses up a driver for good |
| DispatchTermination.BoundIsReached | backend/internal/modules/rides/state.go:21-26 | the bound is tight: one driver can make a ride change state four times |
| CatalogLoading.LoadModifiers | backend/internal/modules/catalog/catalog.go:377-420 | the one pass through pointers into growing slices yields exactly the group-by of the rows |
| Catalog.Append | backend/internal/modules/catalog/catalog.go:411-412 | appending writes in place while there is room and otherwise moves to a fresh array, leaving the old one as it was |
| Catalog.Fill | backend/internal/modules/catalog/catalog.go:407-418 | one row finds or adds its group and adds its option through the group's live pointer |
| Catalog.SeenIsLast | backend/internal/modules/catalog/catalog.go:387-390 | because of the ordering, a group seen before is the last of its product, so its pointer is never stale |
| Catalog.GroupsAreDistinct | backend/internal/modules/catalog/catalog.go:407-415 | each group appears once |
| Catalog.GroupsHaveTheirOptions | backend/internal/modules/catalog/catalog.go:416-418 | each group has its own options, all of them, in row order, and no other |
| Catalog.NoGroupMissing | backend/internal/modules/catalog/catalog.go:407-415 | every row's group is in the menu |
| Catalog.NoOptionLost | backend/internal/modules/catalog/catalog.go:387-419 | the menu holds the rows' options with their multiplicities: none lost, doubled or invented |
| CatalogPricing.Price | backend/internal/modules/catalog/catalog.go:496-548 | succeeds iff the choice can be sold; the unit price is the product's plus what the options add, at least zero, the total that times the quantity; each failure has its exact error |
| CatalogTerms.SellableIs | backend/internal/modules/catalog/catalog.go:497-542 | a choice can be sold iff quantity, product and merchant are right, every group has its least to greatest number of chosen options, all available, and no option is foreign |
| CatalogTerms.NothingChosen | backend/internal/modules/catalog/catalog.go:516-531 | no option adds nothing to the price |
| CatalogTerms.OneMoreOption | backend/internal/modules/catalog/catalog.go:521-531 | choosing one more option of the menu adds exactly its delta |
| CatalogTerms.SameChoice | backend/internal/modules/catalog/catalog.go:516-520 | order and repetition of the chosen options do not matter |
| CatalogTerms.LineNames | backend/internal/modules/catalog/catalog.go:521-534 | a line names the chosen options of the menu and no others |
| CatalogPricing.FirstErrorIs | backend/internal/modules/catalog/catalog.go:521-539 | the error is "unavailable" iff the first group that does not fit has an unavailable choice |
| CatalogTerms.UnavailableIs | backend/internal/modules/catalog/catalog.go:510-539 | which choices are refused as unavailable |
| CatalogPricing.CountIsBelonging | backend/internal/modules/catalog/catalog.go:540-542 | the final count check is the test that every chosen option belongs to the product |
| Checkout.PriceLines | backend/internal/modules/orders/orders.go:231-239 | one priced line per item and their sum, or the first item's error |
| Checkout.PriceCart | backend/internal/modules/orders/orders.go:215-260 | priced iff the merchant takes orders, every line can be priced and the coupon applies; total = items + fee - discount, with the discount within the items |
| CheckoutTerms.FeeIs | backend/internal/modules/orders/orders.go:240-246 | the delivery fee is charged iff the order is not picked up, by the cart's wish or else the merchant's default |
| CheckoutTerms.TotalsAdd | backend/internal/modules/orders/orders.go:231-239 | the items' totals add up line by line |
| CheckoutTerms.TotalOfOne | backend/internal/modules/orders/orders.go:231-239 | a single line counts with its own total, no line with nothing |
| CheckoutTerms.QuotableIs | backend/internal/modules/orders/orders.go:215-260 | when a cart can be quoted, in the columns of merchant and coupon |
| Checkout.Orders.Create | backend/internal/modules/orders/orders.go:270-384 | places an order iff the request is well formed and either repeats a key or can be quoted, is open, large enough, addressed and affordable; the order is consistent and consumes its coupon once; a repeated key returns the first order; a repeat or refusal changes nothing |
| CheckoutTerms.PlaceableIs | backend/internal/modules/orders/orders.go:298-331 | when an order can be placed, down to minimum, address and wallet |
| CheckoutTerms.CouponUsedOnce | backend/internal/modules/orders/orders.go:334-384 | placing an order counts one use of its coupon, for that order and its discount |
| Promos.Service.Apply | backend/internal/modules/promos/promos.go:94-162 | offers iff the coupon is active, meant for this scope, in date, not used up, and the base reaches its minimum; a percent coupon takes its half-up share, a fixed one its amount up to the base; changes nothing |
| Promos.DiscountIs | backend/internal/modules/promos/promos.go:94-112 | a percent coupon takes its half-up share of the base, a fixed one its amount up to the base, any other nothing |
| Promos.Service.Redeem | backend/internal/modules/promos/promos.go:165-187 | records the redemption and counts it, or refuses and changes nothing |
| Promos.Service.Upsert | backend/internal/modules/promos/promos.go:206-283 | creates or replaces a coupon's terms but never its count of uses |
| PromoProofs.LargerOrderNeverPaysLess | backend/internal/modules/promos/promos.go:94-112 | a larger order gets no smaller discount and never ends up cheaper |
| PromoProofs.UsesAreRedemptions | backend/internal/modules/promos/promos.go:165-187 | in every run each coupon's counter equals its redemption rows, and no reference redeems twice |
| PromoProofs.CountsAreSizes | backend/internal/modules/promos/promos.go:152-154 | the counts of uses are the numbers of redemption rows |
| PromoProofs.CapsKeptExactly | backend/internal/modules/promos/promos.go:115-136 | a step keeps both caps iff it neither redeems an exhausted coupon of narrower scope nor lowers a cap below its use |
| PromoProofs.CapsHold | backend/internal/modules/promos/promos.go:165-187 | under any interleaving, a coupon administered at scope "all" without caps below their use never exceeds either cap |
| PromoProofs.CheckedRedemptionKeepsCaps | backend/internal/modules/promos/promos.go:115-136 | for every scope, a redemption that passes the coupon's own check on the same tables keeps both caps |
| PromoProofs.FoodCouponOverspent | backend/internal/modules/promos/promos.go:139-187 | two checkouts are both offered a food coupon good for one use before either redeems it, and both redeem it; a later offer would be refused |
| Pricing.PriceGrows | backend/internal/modules/pricing/pricing.go:52-72 | the fare is monotone in distance, duration, surge and every tariff field |
| Pricing.MinimumOrRound | backend/internal/modules/pricing/pricing.go:67-71 | the fare is at least the minimum, and is the minimum or a multiple of ten cents |
| Pricing.Accurate | backend/internal/modules/pricing/pricing.go:59-71 | the fare lies in (E - s - 1/2, E + s + 19/2] of the exact price E at surge s, or is the minimum above that |
| Pricing.PercentIsFloor | backend/internal/domain/money/money.go:36-42 | a percentage is rounded half up to the floor for every sign, under truncating division |
| Pricing.CommissionIsPercent | backend/internal/modules/pricing/pricing.go:75-80 | commission and percentage agree on non-negative amounts and rates |
| Pricing.CommissionPartsFromPercent | backend/internal/modules/pricing/pricing.go:75-80 | for other amounts they agree iff truncation has nothing to cut |
| Hours.OpenAt | backend/internal/modules/merchants/merchants.go:136-159 | open iff the minute of the week lies in one of the rows' circular intervals, past midnight and through Saturday night, with equal times meaning a whole day |
| Hours.ParsedIsFormat | backend/internal/modules/merchants/merchants.go:124-133 | what is parsed is the one spelling of its minute |
| Hours.FormatIsParsed | backend/internal/modules/merchants/merchants.go:124-133 | every minute of the day is parsed back from its spelling |
| Hours.QueryAgrees | backend/internal/modules/orders/orders.go:204-213 | the database query answers as the Go function does at every second of the week |
| Location.SortByTime | backend/internal/modules/location/location.go:127 | the batch sorted in place by time, a permutation of what it was |
| Location.Scan | backend/internal/modules/location/location.go:128-138 | the count is the number of distinct new timestamps, and the sample found carries the greatest |
| Location.Tracker.Ingest | backend/internal/modules/location/location.go:110-158 | accepts each distinct in-area timestamp in (last, now + 60 s] once and keeps the greatest with its position; empty, oversized and offline batches change nothing |
| Location.NewsAre | backend/internal/modules/location/location.go:127-138 | a timestamp counts iff a position in Kosovo carries it, it is later than the last one kept and at most a minute ahead |
| Location.SameNews | backend/internal/modules/location/location.go:127-138 | a permutation of the batch brings the same count and the same timestamp |
| Location.ReplayAccepts | backend/internal/modules/location/location.go:128-138 | a replayed batch is accepted not at all, iff the clock has let in no sample that was too far in the future |
| Location.NeverTwiceNeverBack | backend/internal/modules/location/location.go:124-158 | over any run of batches one after another, online, the kept timestamp never moves back and no timestamp is counted twice |
| Location.AsIfReadNow | backend/internal/modules/location/location.go:118-151 | a call overlapped by others counts what it would count had it read only when it writes iff nothing it counts is as old as what is kept meanwhile; it moves the kept timestamp back iff all of it is older |
| Location.SentTwiceAtOnce | backend/internal/modules/location/location.go:118-151 | a batch sent twice at once is counted twice |
| Location.OverlapInOrder | backend/internal/modules/location/location.go:118-151 | over every run, overlapping batches that count only what is newer than what is kept when they write are as good as one after another |

## Left out

- Wallets.WalletFloor: check and post are one step of its runs, where the program has two transactions; the runs with two steps are those of `WalletRaces`
- Payouts.Desk.CreateBatch: neither a crash inside the call nor anything that overlaps it is modelled; the batch row, each payout, each item and the totals are separate transactions in the program, here one call runs to its end or to a refused post
- PayoutProofs.BatchEmptiesWallets: nothing is posted on a wallet between the reading of its balance and its payout, and no second batch is created meanwhile; `PayoutRaces.PaidLater` says what happens then
- PayoutProofs.CompletedIsFinal: no item is settled while its batch is still being filled; `PayoutRaces.DoneExactly` says when that does harm
- PayoutProofs.PayoutsReconcile: holds between whole calls; in between a payout may be posted before its item is inserted
- Payouts.Desk.SettleItem: models neither a crash between marking the item and returning the money nor another call in between
- Payments.Gateway.Refund: neither a crash between its transactions nor an overlapping call is modelled in the method; both are steps of the runs in `Refunds`. The reason text and the audit row are left out
- Payments.Gateway.HandleWebhook: takes a verified and parsed event; a crash between recording and applying a delivery, and between a credit's post and its status, is a step of the runs in the proofs, not of the method
- PaymentProofs.RefundAccounts: speaks of a refund call that nothing overlaps; overlapping and interrupted calls are those of `Refunds`
- DispatchStore.Database.Round: the candidates, nearest first, and the set of available drivers are parameters, because they come from the location store and from tables outside the protocol
- DispatchStore.Database.Sweep: jobs are taken in table order up to the limit of 200, not by the time of their request
- DispatchStore.Database.Request: the quote, the flags and the idempotency key of a ride request are not modelled; its terms are a parameter
- DispatchStore.Database.DriverTransition: the pickup and delivery codes are not modelled
- Retry.Worker.SettlePending: the list of due rides is a parameter, because the query's ten-second delay and order by last update are not modelled; the parcel, order and service workers are the same loop
- CatalogLoading.LoadModifiers: the sort of options within a group plays no part and is not required of the rows
- CatalogPricing.Price: the display text of the chosen options is not modelled
- Checkout.Orders.Create: the reads before its transaction (key, prices, coupon, balance) are one step with it; text fields, the order code and its retries, and the address check itself (a flag here) are not modelled; coupon codes are taken as already normalised
- Promos.Service.Redeem: the foreign key to the user is not modelled
- Location.NeverTwiceNeverBack: speaks of batches one after another; overlapping ones are those of `Location.OverlapInOrder`
- Location.Tracker.Ingest: one call is one step; heading, speed, the geo index, expiry of the driver's hash and the live feed are not modelled; coordinates are reals
- Location.SortByTime: the library sort is replaced by an insertion sort, of which only order and permutation are used
- Pricing.Accurate: floating point does not occur in the program's fare; distances and durations are its integer inputs
- Iban.ValidIBAN: upper-casing and white space outside ASCII are not modelled
- Hours.OpenAt: the conversion of an instant to weekday and minute in the local zone is a parameter
- Ledger.Store.Post: the database's own retry after a unique-key race inside one transaction is not modelled; transactions are atomic steps here
- 64-bit overflow of amounts is not modelled.
- Currencies other than euro are modelled in the ledger; payouts and card payments assume that every account is in euro, as the first version does.
- Monthly limits of business accounts, the charge rows of business rides and the rights of their members are not modelled.
- Dispatch of orders and the provider side of services repeat the parcel protocol with weaker guarantees: a merchant's cancellation leaves offers open, so the joint invariant would not hold.
- Haversine distance, arrival estimates, parcel prices by distance and ratings are floating-point computations and are not modelled.
- The cache of menus, the outbox, Redis, audit rows, notifications, authentication and all HTTP handling are not modelled.
- Eventual delivery is not claimed: a webhook is recorded before it is applied, and one failing row stops the retry worker.
