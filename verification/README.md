# A verified model of the matrimony backend

This project models the parts of the backend whose correctness is not evident from reading one function, and proves
what they keep over every input or every run:

- **Dasha junctions** (`dasa_sandhi.dfy`): the two-pointer search with back-steps and cut-offs, against the plain double loop.
- **One-time passwords** (`otp.dfy`): a cache that may lose entries at any time in front of a database record, against the record alone and against the history of what was issued and answered.
- **The request limiter** (`rate_limit.dfy`): what a fixed window admits in an interval placed anywhere.
- **Subscriptions and payments** (`plans.dfy`, `membership.dfy`, `backend.dfy`): one state machine over users, subscriptions with five metered allowances, interests, unlocked profiles, chats, horoscope matches and transactions. `Membership.Decide` says which table updates a request makes; the class `Backend.Service` handles the requests in place and is proved to make exactly those updates. The laws of whole runs are in `ledger.dfy` (conservation of credits), `charges.dfy` (nobody pays twice), `costs.dfy` (exactly what is charged for), `sales.dfy` (what is sold for which payment), `interest_protocol.dfy` and `connections.dfy` (what answering an interest means), `redelivery.dfy` (a payment delivered again) and `terms.dfy` (paid time, service charge).
- **Gateway order records** (`orders.dfy`): status, transaction and payment id over any sequence of calls.
- **Numbers and calendars** (`indian_words.dfy`, `rupees.dfy`, `charts.dfy`, `saka.dfy`, `thalakkuri.dfy`): amounts in words and figures, dasha balances, Saka dates, houses, sankranti.

A run starts from empty tables and is any sequence of requests; each request is one atomic step. Whether another member
exists, is blocked, hidden or has a profile, what the gateway reports and whether a signature is right arrive with the request
and are otherwise unconstrained. Amounts are whole paise, dates day ordinals, degrees and instants reals, and
365.25 = 1461/4.

## Where the code and its descriptions differ

The model follows the code; each difference has its exact condition.

- The dasha search is documented as limited to the next seventy years. It also looks at the first row past that horizon on either side (`DasaSandhi.ReportsPastTheHorizon`); `DasaSandhi.ReportsWithinHorizonIff`: the seventy years are respected exactly when some near pair of considered rows lies within them, and otherwise nothing or a pair past them is reported; `DasaSandhi.FoundIsTheFirstJunction` says which pairs of rows those may be.
- The limiter is documented as "max requests per window". An interval of one window's length can admit `2 * max - 1` requests and never more (`RateLimit.AnyIntervalIsBounded`, `RateLimit.TheBoundIsAttained`).
- The Saka conversion has no day for the 366th day of a Saka year: 21 March after a leap year is answered as 1 Phalguna (`Saka.MarchIsTakenForFebruary`, `Saka.SakaDateNamesItsDay`, `Saka.SakaCollisions`).
- Fulfilment is documented as idempotent on the payment id. Transactions are, and after a redelivery every request is carried out alike and with the same status (`Redelivery.RedeliveryHasNoEffect`). Two things may differ. The service charge verification may still rewrite the stored service charge paid of the member's row (`Redelivery.RedeliveryChangesRowIff`); and the verification of a recorded plan payment shows what is still to pay from that column as it is, unlike every other answer, so the rewriting changes the amount shown (`Redelivery.RedeliveryChangesAnswerIff`; a run in which both happen: `Redelivery.RedeliveryCanShow`).
- A renewal of the same plan keeps what is owed only if a service charge total is on record, or none applies at that time (`Plans.RenewalKeepsOutstanding`; a run in which it does not: `Terms.RenewalCanRaiseWhatIsOwed`).
- A request that is refused changes nothing but the repair above, with one exception: a verification whose order turns out to be another member's is answered 403 after it has been fulfilled for that member (`Sales.RefusalsChangeNothing`).
- A settlement through the gateway records what is owed at that moment, even where the payment was for the order's older amount (`Sales.SalesArePaidFor`); plans and PDFs are sold for their price only.
- A receiver may answer an interest in any status, not only a pending one; the interest law holds all the same.

## Model

| member | source | states |
|---|---|---|
| DasaSandhi.BuildDasaEndDates | astrology/porutham.py:464-488 | the table built row by row is the sequence of dasha end dates from the birth date and balance, and exists exactly when star, balance and date are all given |
| DasaSandhi.RowsFollowTheCycle | astrology/porutham.py:437-488 | the first row is the birth date plus the balance, and each later one is longer by the literal length of its dasha, for every star and row |
| DasaSandhi.EndDatesAreSpaced | astrology/porutham.py:435-488 | any two rows of a table are at least 2191 days per row apart |
| DasaSandhi.NineRowsAreOneCycle | astrology/porutham.py:437-448 | from any row of any table, nine rows on is exactly 43826 days later |
| DasaSandhi.FirstRowAfter | astrology/porutham.py:507-523 | the starting row is row 1 before birth, otherwise the least row from 2 on that is later than today, or none |
| DasaSandhi.ScanGroomRows | astrology/porutham.py:534-544 | the scan returns the first near row, and where it stops without one no further row is both near and in reach |
| DasaSandhi.SearchFrom | astrology/porutham.py:525-547 | for tables of any length whose rows are at least 864 days apart, the two-pointer loop returns what the double loop finds first, if that pair is in reach, and nothing otherwise |
| DasaSandhi.SearchRows | astrology/porutham.py:505-547 | the same from the birth dates and today, including the starting rows |
| DasaSandhi.NaiveIsFirst | astrology/porutham.py:527-547 | the double loop returns the lexicographically first near pair, and nothing only if there is none |
| DasaSandhi.NearPairsDoNotCross | astrology/porutham.py:527-547 | of two near pairs the lexicographically earlier one is earlier in both tables |
| DasaSandhi.FoundIsTheFirstJunction | astrology/porutham.py:527-547 | nothing is reported exactly when no pair is near and in reach on both sides; what is reported is the first such pair |
| DasaSandhi.SearchIsComplete | astrology/porutham.py:491-547 | a near pair of considered rows, each within seventy years of its birth date, is never missed |
| DasaSandhi.SearchIsSound | astrology/porutham.py:491-547 | what is reported is a near pair of considered rows, each at most one row past the horizon, with no earlier near pair at all |
| DasaSandhi.ReportsWithinHorizonIff | astrology/porutham.py:492-496 | the report lies within seventy years of both birth dates exactly when some near pair of considered rows does |
| DasaSandhi.ReportedDatesAreAhead | astrology/porutham.py:507-547 | with balances that are not negative both reported dates are after today |
| DasaSandhi.ReportsPastTheHorizon | astrology/porutham.py:492-496 | a concrete pair of charts whose only reported junction lies past the seventy years |
| DasaSandhi.RowLimitIsImmaterial | astrology/porutham.py:450-451 | tables of ten or more rows of whatever length give the same answer as the fifteen-row tables |
| DasaSandhi.JunctionsAreNeverMissed | astrology/porutham.py:491-547 | with no row limit at all: any two dasha ends after today, within seventy years of birth and under a year apart, make the program report a junction |
| DasaSandhi.DasaSandhiText | astrology/porutham.py:491-547 | two charts are answered by the search over their tables, or with nothing if either is unusable |
| DasaSandhi.DasaSandhi | astrology/porutham.py:550-558 | favourable exactly when the search reports nothing |
| Otp.OtpService.Evict | accounts/services.py:168-194 | losing a cache entry, whenever it happens, keeps cache and record coherent and the records as they are |
| Otp.OtpService.PersistOtpRecord | accounts/services.py:130-149 | the identifier's record is replaced by a fresh, unused one |
| Otp.OtpService.GenerateOtp | accounts/services.py:152-165 | cache and record both come to hold the fresh code, untried and with the same expiry |
| Otp.OtpService.MarkOtpVerified | accounts/services.py:88-95 | the record is marked used and no cached entry of the identifier survives |
| Otp.OtpService.VerifyOtp | accounts/services.py:168-227 | with or without a cached entry, the answer and the record left are those decided from the record alone |
| Otp.OtpService.Serve | accounts/services.py:130-227 | over any run of requests and evictions all answers and records equal those of a system without a cache |
| Otp.RecordsSummariseHistory | accounts/services.py:152-227 | after any run the record of an identifier is the summary of its history: last code and expiry, wrong tries and use since |
| Otp.AnswersFollowHistory | accounts/services.py:168-227 | every answer in a run is the one read off the history before it: issued, not used, fewer wrong tries than the limit, not expired, right code |
| Otp.CodeUseIsBounded | accounts/services.py:168-227 | at any point an issued code has met at most `limit` wrong tries and has been redeemed at most once |
| Otp.FreshCodeWorksUntilExpiry | accounts/services.py:152-227 | after a code is issued, and whatever happens to the cache and to other identifiers, the code is accepted up to its expiry, another is wrong, and later ones are expired |
| Otp.UsedCodesStayUsed | accounts/services.py:88-95 | after an acceptance nothing but a new code, or a whitelisted phone, is accepted |
| RateLimit.Limiter.CheckOtpRateLimit | accounts/services.py:106-127 | one request is admitted or not, and its entry updated, as the window arithmetic says; other identifiers are untouched |
| RateLimit.Limiter.Serve | accounts/services.py:106-127 | over any sequence of requests every identifier is admitted exactly when its own run grants |
| RateLimit.NextGrant | accounts/services.py:106-127 | the next request read off the admissions before it: a new window, the next place in the running one, or a refusal |
| RateLimit.RefusedExactlyWhenFull | accounts/services.py:106-127 | a request is refused exactly when the last window is still running and has admitted its maximum |
| RateLimit.RunsAreWellFormed | accounts/services.py:106-127 | over any run each window admits at most max requests, all within its length, and windows follow one another at least a window apart |
| RateLimit.WindowsAreApart | accounts/services.py:106-127 | any two windows a run opens start at least one window apart |
| RateLimit.GrantsSpread | accounts/services.py:106-127 | the first and last of 2 * max consecutive admissions are at least a window apart |
| RateLimit.AnyIntervalIsBounded | accounts/services.py:106-127 | an interval of one window's length, wherever it starts, admits at most 2 * max - 1 requests |
| RateLimit.TheBoundIsAttained | accounts/services.py:106-127 | for every max of at least 1 and every window of at least 3 seconds there is a run and an interval that admits exactly that many |
| Plans.PurchaseConserves | plans/services.py:564-631 | the new allowance plus what was left equals what is left afterwards plus what the purchase drops, on every meter |
| Plans.PurchaseTopsUp | plans/services.py:567-598 | buying while a metered subscription is active adds exactly the new plan's allowance to what is left |
| Plans.DropsOnlyAfterLapseOrUnlimited | plans/services.py:567-608 | a purchase drops all that was left on a meter after a lapse or on leaving an unlimited one, and otherwise nothing |
| Plans.PurchaseOwes | plans/services.py:446-470 | a purchase other than a renewal leaves the charge less the fee owed, or nothing if paid in full while a charge applies, and shows so |
| Plans.PurchaseShowsWhatIsOwed | plans/services.py:645-651 | what a purchase shows as still to pay is what is owed exactly unless the fee is still to be credited |
| Plans.RepairIsInvisible | plans/services.py:28-43 | writing the registration fee into the service charge paid changes no allowance, no validity and nothing owed; writing it twice is writing it once |
| Plans.RenewalKeepsOutstanding | plans/services.py:600-603 | renewing the same plan leaves what is owed as it was exactly when a total is on record or no charge applies now |
| Backend.Service.GetUserPlan | plans/services.py:9-25 | the usable subscription of a member, or none |
| Backend.Service.CanUseMeter | plans/services.py:147-254 | the check behind each of the five meters |
| Backend.Service.ConsumeCredit | plans/services.py:161-263 | one credit is taken from the meter, unless it is unlimited or there is no usable subscription |
| Backend.Service.SendInterest | plans/views.py:324-428 | the tables and the status after sending an interest: mutual acceptance, a new or revived interest with one credit, or nothing |
| Backend.Service.RespondInterest | plans/views.py:602-648 | the tables and the status after an answer to an interest |
| Backend.Service.CancelInterest | plans/views.py:658-704 | the tables and the status after a cancellation |
| Backend.Service.TouchView | plans/models.py:376-396 | one row per viewer and profile; unlocked never reverts and the first unlock is reported |
| Backend.Service.UnlockContact | plans/views.py:754-830 | a contact credit each time, and a profile credit only if the profile was not unlocked |
| Backend.Service.OpenProfile | profiles/views.py:405-480 | a profile credit only on the first unlock, otherwise the view is only recorded; unknown, own, blocked and hidden profiles are refused |
| Backend.Service.RecordView | profiles/views.py:492-525 | recording a view neither unlocks nor costs anything |
| Backend.Service.StartChat | plans/views.py:843-898 | the pair's conversation is stored with the smaller member first, and a chat credit is taken only when it is created |
| Backend.Service.CheckPorutham | astrology/views.py:220-322 | a horoscope credit only when the couple is matched for the first time |
| Backend.Service.RepairLegacy | plans/services.py:38-43 | the registration fee is written into the service charge paid when nothing is there |
| Backend.Service.MyPlan | plans/services.py:291-353 | reading one's plan repairs an active row, changes nothing else, and shows the charge that applies today less what is credited |
| Backend.Service.ActivatePlanPurchase | plans/services.py:531-643 | carry-forward, validity, service charge and the transaction of a purchase, and the charge it shows as still to pay |
| Backend.Service.PurchasePlan | plans/views.py:213-251 | a purchase recorded by hand, refused for plans not on sale and for online payment methods |
| Backend.Service.ComputeServiceChargeRemaining | plans/services.py:474-483 | what is owed on a subscription that is switched on, after repair |
| Backend.Service.PayRemainingServiceCharge | plans/services.py:669-710 | what remains is settled with one transaction, if anything remains |
| Backend.Service.PayRemaining | plans/views.py:263-312 | settling by hand, refused for online payment methods, with the status for no subscription, nothing owed and paid |
| Backend.Service.GetSuccessTxnByPaymentId | plans/razorpay_fulfillment.py:85-93 | a transaction is found exactly when the payment id is on record |
| Backend.Service.FulfilPlan | plans/razorpay_fulfillment.py:113-185 | the tables and the ending of a plan payment, with every refusal in order |
| Backend.Service.FulfilService | plans/razorpay_fulfillment.py:205-270 | the tables and the ending of a service charge payment |
| Backend.Service.FulfilPdfPayment | astrology/services/razorpay_pdf_orders.py:100-197 | the transaction and the ending of a payment for a PDF |
| Backend.Service.FulfilFromCapturedPayment | plans/razorpay_fulfillment.py:273-305 | dispatch by the purpose noted on the order |
| Backend.Service.Webhook | plans/views_razorpay_webhook.py:91-254 | the webhook fulfils captured payments of its order and answers 200 |
| Backend.Service.VerifyPlan | plans/views_payments.py:166-283 | verification of a plan payment: a recorded one changes nothing and shows what is still to pay from the stored column; a new one is checked and fulfilled |
| Backend.Service.VerifyService | plans/views_payments.py:355-460 | verification of a service charge payment |
| Backend.Service.Handle | plans/views.py:315-898 | any request leaves the tables and answers as its decision says |
| Backend.Service.Serve | plans/views.py:315-898 | any sequence of requests leaves the tables of the run and answers each, in status and charge shown, as the run does at that point |
| Ledger.DecisionsAreAllowed | plans/views.py:333-423 | in any state no request uses a credit that is not there, settles what is not owed or records a payment id twice |
| Ledger.CreditsAreConserved | plans/services.py:147-263 | in every run, for everyone and every meter: granted = debited + dropped + left, and never more used than granted and carried over |
| Ledger.CreditsLeftMayBeUsed | plans/services.py:147-263 | in every run a member with a running plan may act on a limited meter exactly while more was granted than debited and dropped |
| Charges.CreditsOfARequest | plans/views.py:810-816 | exactly which credits each request costs: those of its own meter, on a first unlock, chat or match, on an interest that is not already there, and on every contact given out |
| Charges.PaymentsUseNoCredit | plans/services.py:531-710 | no payment or purchase takes a credit |
| Charges.PaymentUpdates | plans/razorpay_fulfillment.py:113-305 | payments sell plans of the catalog, settle, sell PDFs and repair, and update nothing else |
| Charges.TablesFollowLog | plans/services.py:51-60 | over any run an unlock, a conversation or a match is there exactly when some update made it, and conversations are stored in one order only |
| Charges.NobodyPaysTwice | profiles/views.py:454-466 | over any run one conversation per pair, at most one view credit per viewer and profile, one chat credit per pair and one horoscope credit per couple, whichever request spends it |
| Charges.NothingIsTakenBack | plans/models.py:389-396 | over any run what is unlocked, opened or matched stays so |
| Costs.ViewCost | profiles/views.py:446-466 | any request takes a view credit exactly when it unlocks that profile for the first time on a limited plan |
| Costs.ContactCost | plans/views.py:810-816 | a contact credit is taken exactly when contact details are given out on a limited plan |
| Costs.ChatCost | plans/views.py:885-890 | a chat credit is taken exactly when the pair's conversation is opened, from the one who starts it, on a limited plan |
| Costs.MatchCost | astrology/views.py:281-322 | a horoscope credit is taken exactly when a couple is matched for the first time, on a limited plan |
| Costs.InterestCost | plans/views.py:373-423 | an interest credit is taken exactly when a sending succeeds to someone with whom no interest is accepted or on its way, on a limited plan |
| Costs.DebitsAreDues | plans/services.py:147-263 | over any run the debits on each of the five meters are exactly the dues of its requests |
| Costs.OpeningUnlocks | profiles/views.py:405-480 | opening unlocks the profile, and records the view, exactly for those who may view profiles; with the statuses of the refusals |
| Costs.ContactsUnlock | plans/views.py:754-830 | contact details are given out, and the profile unlocked, exactly to those who may have both; with the statuses of the refusals |
| Costs.ViewsAreRecorded | profiles/views.py:492-525 | recording a view leaves its row and unlocks nothing |
| Costs.MatchingRecords | astrology/views.py:220-322 | a couple is answered exactly for members with a plan, and with a credit if it is new; it is on record afterwards |
| InterestProtocol.InterestLaw | plans/views.py:373-423 | in every run nobody is interested in themselves, two pending interests never face each other, and u has paid for v at most once more than the pair was parted |
| Connections.AnswerDecides | plans/views.py:602-648 | an acceptance connects the two, shows so and lets both chat; a rejection leaves them unconnected, unless the reverse interest was accepted; only the receiver answers |
| Connections.WithdrawalUndoes | plans/views.py:658-704 | only the sender withdraws, only what is pending, and is then shown as not having sent; connections stay |
| Connections.SendingReaches | plans/views.py:324-428 | sending connects the two if the other's interest is pending, and otherwise leaves one's own on its way; without a credit the answer depends on nothing else |
| Connections.ChatNeedsConnection | plans/views.py:852-890 | a chat is answered 200 exactly for connected members with a credit who are not blocked, and is there afterwards |
| Connections.AcceptedGoesBack | plans/views.py:364-392 | in every run an accepted interest goes back to its receiver accepting it, or sending one in return while it was pending |
| Connections.ConversationsNeedConnections | plans/views.py:870-876 | in every run a conversation was opened by one of the two at a moment when they were connected |
| InterestProtocol.BulkInterestUiStates | plans/services.py:393-418 | one pass over the rows shows for each profile the state of the two rows between the members |
| InterestProtocol.FlagShownIffNothingToSend | plans/services.py:374-390 | the "interest sent" flag is set exactly when sending would do nothing, and while it is not set sending costs a credit on a metered plan |
| Redelivery.EachPaymentCountsOnce | plans/razorpay_fulfillment.py:123-132 | over any run a payment id has at most one transaction, made by exactly one purchase, settlement or sale |
| Redelivery.AlikeDecisions | plans/services.py:28-43 | states that differ in repaired rows only carry out every request alike and with the same status; the answers are the same exactly unless the request shows the column and one state has repaired the row and the other not |
| Redelivery.RedeliveryIsSilent | plans/razorpay_fulfillment.py:215-224 | delivering a recorded payment again, by any of the three routes, makes no update beyond the repair |
| Redelivery.FulfilledIffRecorded | plans/razorpay_fulfillment.py:273-305 | a plan or service charge payment ends with a transaction exactly when its id is on record afterwards |
| Redelivery.PdfFulfilledIffRecorded | astrology/services/razorpay_pdf_orders.py:110-160 | a payment for a PDF ends with a transaction exactly when the amount is right and that PDF is on record under its id |
| Redelivery.RedeliveryHasNoEffect | plans/razorpay_fulfillment.py:1-5 | one more delivery of a recorded payment, anywhere in a run, leaves the transactions as they were and the tables alike, and any later request is carried out alike and with the same status; its answer differs exactly if it shows the repaired column |
| Redelivery.RedeliveryChangesRowIff | plans/views_payments.py:365-390 | the service charge verification of a recorded payment changes a stored row exactly when that row needs the repair |
| Redelivery.RepairsIffRead | plans/services.py:28-43 | the registration fee is credited exactly by the requests that read what a member has paid |
| Redelivery.ReadingRepairs | plans/services.py:28-43 | after any request that reads what a member has paid, the member's row needs no repair |
| Redelivery.RedeliveryChangesAnswerIff | plans/views_payments.py:187-224 | the answer to the next request changes exactly when it verifies a recorded plan payment with a charge on it and the redelivery was the member's own service charge verification finding the row unrepaired |
| Redelivery.RecordedPaymentsAreAnswered | plans/views_payments.py:187-224 | in any run whoever has a payment on record has a subscription, so the verification of a recorded payment never fails |
| Redelivery.RedeliveryCanShow | plans/services.py:38-43 | a run from empty tables after which such a delivery changes the row and the amount shown |
| Terms.ChainEndOfUnbroken | plans/services.py:599-608 | an unbroken chain of purchases pays from its first day for the sum of its terms |
| Terms.ChainEndAfterBreak | plans/services.py:599-608 | after a lapse only the chain since the lapse counts |
| Terms.ValidityIsPaidTime | plans/services.py:599-619 | in every run a subscription is of the plan bought last, from the day it was bought, and valid until the end of the chain of the member's purchases |
| Terms.UnbrokenTimeAddsUp | plans/services.py:599-619 | in every run a member who never lapsed is valid from the first purchase for the sum of all terms bought |
| Terms.ActiveIffPaid | plans/services.py:9-25 | in every run a member may use the service exactly while the paid time includes today and the plan bought last is not withdrawn |
| Terms.NoCreditAfterPaidTime | plans/services.py:23-24 | in no run does a request use a credit of a member whose paid time is over |
| Terms.SettledStaysSettled | plans/services.py:669-694 | once nothing is owed, nothing is owed or charged until a different plan is bought, or a plan after a lapse, or a renewal without a total on record while a charge applies |
| Terms.RenewalCanRaiseWhatIsOwed | plans/services.py:600-603 | a run from empty tables in which a renewal raises what is owed |
| Terms.PayingSettles | plans/services.py:687-710 | by hand, by webhook or by verification: a settlement is made exactly under the stated circumstances, once, with one transaction of exactly what was owed, and leaves nothing owed |
| Sales.BuyingSells | plans/razorpay_fulfillment.py:113-185 | by hand, by webhook or by verification: a plan is bought exactly under the stated circumstances, payment and order being for its price, once, with one transaction of that price; what it leaves owed |
| Sales.PdfsAreSoldForTheirPrice | astrology/services/razorpay_pdf_orders.py:100-197 | a PDF is sold exactly on a new captured payment for its price, with one transaction of it |
| Sales.SalesArePaidFor | plans/razorpay_fulfillment.py:143-152 | in every run whatever was sold or settled under a payment id was delivered by a captured payment for it, with plans and PDFs at the amounts of payment and order |
| Sales.CreatedMeansDone | plans/views_payments.py:270-283 | 201 is answered exactly when the request has bought or settled something for the one who asked |
| Sales.OkMeansNothingToDo | plans/views_payments.py:369-400 | 200 is answered to a payment request exactly when nothing is owed or the payment is on record as one's own |
| Sales.AnswersShowWhatIsOwed | plans/services.py:291-353 | what answers show as still to pay, after purchases, after settlements and on reading one's plan |
| Sales.RefusalsChangeNothing | plans/views_payments.py:256-262 | a refused request changes nothing but the repair of a row, except a verification that has served another member |
| Orders.OrderBook.ApplyStatus | plans/razorpay_records.py:43-52 | fulfilled is final, fulfilment always wins, otherwise the rank does not fall |
| Orders.OrderBook.PersistCreatedOrder | plans/razorpay_records.py:55-77 | creating an order keeps status, transaction and payment id of a record that is already there |
| Orders.OrderBook.UpsertOrderFromPayload | plans/razorpay_records.py:80-151 | a payload creates or completes the record: user and plan once, payment id and transaction by the last call, status by rank |
| Orders.OrderBook.RecordOrderOutcome | plans/razorpay_records.py:154-187 | the outcome of a fulfilment is recorded as fulfilled with a transaction, skipped without one, paid on a bare capture |
| Orders.OrderBook.Serve | plans/razorpay_records.py:55-187 | any sequence of calls leaves every order's record as its own run does |
| Orders.FulfilledIffTransaction | plans/razorpay_records.py:12-17 | over any run a record is fulfilled exactly when it carries a transaction |
| Orders.StatusNeverFalls | plans/razorpay_records.py:43-52 | whatever calls follow, the record stays, its rank never falls and fulfilment is final |
| Orders.EndsFulfilledIff | plans/razorpay_records.py:80-187 | an order ends fulfilled exactly when some call reported a transaction for it |
| Orders.RecordFollowsCalls | plans/razorpay_records.py:55-187 | a record holds the payment id last reported, the amount and transaction last given, the member and plan of the last creation or first named after it, and unless fulfilled the status last reported |
| Orders.OrderOfCallsIsImmaterial | plans/razorpay_records.py:80-187 | any reordering of the calls ends fulfilled or not alike |
| IndianWords.TwoIsRead | _tmp_test_words.py:6-9 | the words of a number below 100 are read back as that number by a strict reader |
| IndianWords.ThreeIsRead | _tmp_test_words.py:11-16 | the words of a number from 1 to 999 are read back as that number by a strict reader |
| IndianWords.IntIndianRoundTrip | _tmp_test_words.py:18-28 | a reader that takes scales in descending order only, units after tens only and zero alone only gives any number back from its words, however many crores are nested |
| IndianWords.WordsTellNumbersApart | _tmp_test_words.py:18-28 | different numbers have different words |
| IndianWords.WordsRoundTrip | _tmp_test_words.py:30-37 | the words of an amount, read strictly to their end, give back its sign, its rupees and its whole paise |
| Rupees.Group | _tmp_test_words.py:44-52 | cutting the digit string from the right gives the groups defined by division |
| Rupees.Fmt | _tmp_test_words.py:39-53 | sign, grouped rupees and two-digit paise of any amount |
| Rupees.GroupsShowDigits | _tmp_test_words.py:44-52 | without the commas the decimal digits of the amount remain |
| Rupees.GroupSizes | _tmp_test_words.py:44-52 | above 999 the last group has three digits, the first one or two, all others two |
| Rupees.GroupsAgreeWithWords | _tmp_test_words.py:21-24 | the two groups before the last are the thousands and the lakhs of the amount in words |
| Rupees.FiguresAgreeWithWords | _tmp_test_words.py:30-53 | figures and words of any amount tell the same rupees and paise |
| Charts.DaysToYmd | astrology/charts.py:119-131 | step by step the balance is split as the years, months and days of `DaysAsYmd` |
| Charts.FormatDasaBalance | astrology/charts.py:134-154 | what is shown reads back as the balance, with months at most 11 and days at most 31; zero is shown exactly for a missing or non-positive balance |
| Charts.YmdIsExact | astrology/charts.py:119-131 | years are the whole ones contained and months the whole ones in the rest, months at most 11 and days at most 31, and nothing is lost |
| Charts.YmdIsStrictlyIncreasing | astrology/charts.py:119-131 | more days are always shown as lexicographically more |
| Charts.YmdRoundTrip | astrology/charts.py:119-131 | any number of days, of either sign, is read back from its split, so no two are shown alike |
| Saka.BeforeIsByOrdinal | astrology/thalakkuri_calc.py:517-525 | comparing dates field by field is comparing their ordinals |
| Saka.DaysBeforeYearIs | astrology/thalakkuri_calc.py:495-525 | the ordinal counts 365 days a year and the leap years in closed form |
| Saka.ChaitraIsDay81 | astrology/thalakkuri_calc.py:495-503 | Chaitra 1 is always day 81 of its Gregorian year, so consecutive ones are 365 or 366 days apart |
| Saka.ToSaka | astrology/thalakkuri_calc.py:509-541 | the loop returns a proper Saka date that names the day, or 1 Phalguna for a 366th day |
| Saka.SakaMonthsBegin | astrology/thalakkuri_calc.py:505-541 | the Gregorian day on which each Saka month of the program begins |
| Saka.LeapYearEndIsDay366 | astrology/thalakkuri_calc.py:525-541 | 21 March after a leap year is the 366th day of its Saka year |
| Saka.SakaOrdinalIsOrdered | astrology/thalakkuri_calc.py:525-541 | Saka dates are ordered as the days they stand for |
| Saka.SakaDateNamesItsDay | astrology/thalakkuri_calc.py:509-541 | the answer names the day exactly when it is not a 366th day |
| Saka.SakaKeepsOrder | astrology/thalakkuri_calc.py:509-541 | apart from those days the conversion keeps the order of dates both ways and is one to one |
| Saka.SakaCollisions | astrology/thalakkuri_calc.py:509-541 | two dates share a Saka date exactly when one is a 366th day and the other thirty days earlier |
| Saka.MarchIsTakenForFebruary | astrology/thalakkuri_calc.py:541-541 | 21 March 2021 and 19 February 2021 are both answered as 1 Phalguna 1942 |
| Thalakkuri.BhavaOf | astrology/thalakkuri_calc.py:1131-1163 | the first house whose arc contains the longitude, or none |
| Thalakkuri.HousesPerLongitude | astrology/thalakkuri_calc.py:1143-1161 | for any cusps and any longitude, the number of arcs containing it is the number of places where the cusps fall on the way round |
| Thalakkuri.HouseIsFound | astrology/thalakkuri_calc.py:1143-1163 | a house is found exactly when the cusps are not all the same, and is the only one exactly when the cusps fall at most once |
| Thalakkuri.SignsAreArcs | astrology/thalakkuri_calc.py:573-573 | sign k is the arc from 30k to 30(k + 1) degrees |
| Thalakkuri.FindSankrantiJd | astrology/thalakkuri_calc.py:557-583 | for any path of the sun, the instant returned is in the sign (or is the start), and an instant exactly 35/2^60 days before it is not (or is 35 days before the start) |
| Thalakkuri.SankrantiIsClose | astrology/thalakkuri_calc.py:557-583 | if the sun entered the sign once in the 35 days, the instant found is not before the entry and less than 35/2^60 days after it |

## Left out

- Interleavings inside one handler: the quota and existing-transaction checks run outside the row lock; every handler is taken as one atomic step.
- Removing one's plan (plans/views.py:916-925) and edits of a plan by an administrator: they erase or change what the ledger and idempotence rest on. Edits of the service charge are part of the runs.
- Purchases recorded by staff, merging of two profiles and horoscope matches run from the admin panel: other writers of the same tables.
- Database errors that the OTP functions swallow, and OTP records written by the admin login under its own `admin:` identifiers.
- Clocks that run backwards and cache entries lost before their time to live, for the limiter only; the OTP cache may lose anything at any time.
- Hash collisions: a submitted code is represented by its digest.
- Gateway calls, signatures, notifications, audit rows and response bodies other than the service charge shown: inputs, or without a hard property. Orders are taken to carry the payment options this program writes.
- Backend.Service.FulfilPdfPayment: does not model the credit row that a PDF payment grants with its transaction.
- Backend.Service.Webhook: does not model the answers to bad signatures, malformed bodies and failing gateway calls, which change no table of the model.
- Backend.Service.TouchView: does not model the times of the last view and of the unlock.
- Backend.Service.CheckPorutham: does not model the grades stored with a match.
- Backend.Service.ActivatePlanPurchase: does not model the payment method noted on the transaction.
- Requests whose body names nobody, refused before anything else.
- Binary floating point in 365.25-day arithmetic, degrees and instants: exact rationals and reals are used. Decimal arithmetic is exact here, without the 28-digit context.
- The range of the date type: dates are unbounded, so overflow errors are not modelled.
- The text of the dasha junction, the messages of refusals and the Malayalam names: pairs of dates, status codes and month numbers stand for them.
- Degrees, minutes and seconds of a longitude, star and quarter, the Kollam calendar, papa points, the ten compatibility grades and match scores: finite tables or one-step arithmetic.
