# Ahara backend core in Dafny

A model of the food-rescue backend "Ahara". Sellers list surplus food, buyers reserve portions, and volunteers deliver them. The model covers four pure or nearly pure cores of the Node.js backend.

1. **The order lifecycle** (`backend/controllers/orderController.js`).
   - `createOrder`, `acceptRescueRequest`, `verifyOtp`, `cancelOrder` (all branches) and `updateOrder`, as pure transitions over immutable `Order`, `Listing` and volunteer-capacity records.
   - Volunteer matching: qualification, ranking, the best-ten cut, and the one-minute fallback to self-pickup.
   - The `getVolunteerRescueRequests` inbox filter.
   - The three `recompute*TrustScore` functions and `applyTrustScore`.
2. **Aadhaar validation** (`backend/utils/aadhaarValidator.js`): the structural checks and the Verhoeff check digit. The mock identity check on top of it, `verifyAadhaar` (`backend/controllers/verificationController.js`), is modelled too.
3. **Gamification arithmetic** (`backend/controllers/gamificationController.js`): points per action, levels, badges, and the second trust-score formula of `updateTrustScore`.
4. **Two small utilities**: the shelf-life table `calculateExpiry` (`backend/utils/perishabilityRules.js`) and the default image URL `generateDefaultImageUrl` (`backend/utils/imageGenerator.js`).

Every store lookup an operation makes is a parameter of its model:
- the listing, the order, the order history used for rate limits and trust scores;
- the volunteer capacity ledger, the notification inbox, and the user and profile records.

The other outside inputs are parameters too:
- the clock (`now`, integer milliseconds);
- the `Math.random()` draws behind the passcodes (reals in [0, 1));
- the `$geoNear` search result, as candidates with their distances.

Side effects are returned as data: who is notified, whose trust score is recomputed, and whether matching starts.

JavaScript number and string semantics are modelled explicitly in `JsMath` and `JsText`:
- `Math.round` is ⌊x + ½⌋.
- `ToInt32` reduces modulo 2³² into [−2³¹, 2³¹).
- `%` truncates toward zero.
- `length` and `split('')` work on UTF-16 code units.
- `\s` is the ECMAScript whitespace class.

Files:
- `wrappers.dfy`: `Option` and `Result`.
- `js_text.dfy` and `js_math.dfy`: the JavaScript primitives.
- `order_model.dfy`: statuses, orders, listings and the capacity ledger.
- `order_lifecycle.dfy`: the five order operations.
- `order_properties.dfy`: properties that span several operations.
- `order_findings.dfy`: the two source defects under Findings.
- `matching.dfy`, `trust_score.dfy`: matching, and trust-score recomputation.
- `aadhaar.dfy`, `verification.dfy`: Aadhaar validation and the mock identity check.
- `user_model.dfy`, `gamification.dfy`: the user record, and points and levels.
- `perishability.dfy`, `image_generator.dfy`: the two utilities.

## Model

| member | source | states |
|---|---|---|
| JsText.CodeUnits | backend/utils/imageGenerator.js:30 | `split('')` yields between one and two UTF-16 code units per character, each in 0..0xFFFF |
| JsText.CodeUnitsLength | backend/utils/aadhaarValidator.js:45 | the number of code units is what `length` reports |
| JsText.StripWhitespace | backend/utils/aadhaarValidator.js:42 | `replace(/\s+/g, '')` never lengthens, leaves no `\s` character, and is the identity on whitespace-free strings |
| JsText.StripKeepsOthers | backend/utils/aadhaarValidator.js:42 | a character survives whitespace removal exactly when it occurs in the input and is not whitespace |
| JsText.StripConcat | backend/utils/aadhaarValidator.js:42 | whitespace removal distributes over concatenation |
| JsText.AsciiLower | backend/utils/imageGenerator.js:12 | lower-casing keeps the length, shifts A-Z by 32 and keeps every other character |
| JsText.IncludesAt | backend/utils/imageGenerator.js:19-27 | `includes` finds an occurrence at any offset |
| JsText.SliceLast | backend/controllers/verificationController.js:69 | `slice(-n)` has length min(n, length) and is a suffix of the input |
| JsText.ParseDecimalOfDecimal | backend/utils/imageGenerator.js:34 | a number rendered with `String` reads back as the same number |
| JsText.DecimalInjective | backend/utils/imageGenerator.js:34 | distinct numbers render as distinct strings |
| JsText.DecimalOfFourDigits | backend/controllers/orderController.js:53 | numbers in 1000..9999 render as exactly four characters |
| JsMath.Round | backend/controllers/orderController.js:1100 | `Math.round` gives the integer n with n ≤ x + ½ < n + 1 |
| JsMath.RoundMonotone | backend/controllers/orderController.js:1152-1155 | rounding is monotone |
| JsMath.ToInt32 | backend/utils/imageGenerator.js:30 | the 32-bit conversion lands in [−2³¹, 2³¹) and is congruent to its input modulo 2³² |
| JsMath.ToInt32Congruent | backend/utils/imageGenerator.js:30 | inputs congruent modulo 2³² convert to the same value |
| JsMath.Rem | backend/utils/imageGenerator.js:30 | `%` has the dividend's sign, magnitude below the divisor, and `a = b·trunc(a/b) + r` |
| OrderModel.ParseStatus | backend/controllers/orderController.js:413-415 | any status string is accepted and reads back as itself |
| OrderModel.ParseStatusName | backend/controllers/orderController.js:413-415 | writing a well-formed status and reading it back is the identity |
| OrderModel.ReleaseSlot | backend/controllers/orderController.js:420-428 | freeing a slot lowers that volunteer's active count by exactly one and makes them available; every other volunteer is unchanged |
| OrderModel.ReleasePreservesCapacity | backend/controllers/orderController.js:1280-1288 | freeing a slot the volunteer actually held keeps every volunteer within capacity |
| OrderModel.RefundIfPaid | backend/controllers/orderController.js:587-591 | a paid order becomes refunded, stamped with the cancellation time; other payment states are unchanged |
| OrderModel.OtpFromDraw | backend/controllers/orderController.js:53-54 | a passcode is a four-digit decimal string whose value lies in 1000..9999 |
| OrderLifecycle.CreateOrder | backend/controllers/orderController.js:31-80 | checks run in order: missing listing, listing not active, too little quantity, pickup window passed. It succeeds iff all pass. On success the quantity drops by exactly the amount ordered, and the listing is completed iff 0 remain. The order is `awaiting_volunteer` iff volunteer delivery, else `placed`. A pickup code exists only for volunteer delivery. Both codes are 1000..9999 |
| OrderLifecycle.AcceptRescueRequest | backend/controllers/orderController.js:324-352 | it succeeds iff the order awaits a volunteer and the volunteer has a profile with a free slot. It then assigns the volunteer, takes exactly one slot, and marks the volunteer unavailable once full. Other volunteers are unchanged |
| OrderLifecycle.AcceptPreservesCapacity | backend/controllers/orderController.js:334-351 | acceptance keeps every volunteer within `maxConcurrentOrders`, and unavailable when full |
| OrderLifecycle.AcceptedCodesLeadForward | backend/controllers/orderController.js:1240-1270 | an accepted passcode only ever leads to `picked_up` or `delivered` |
| OrderLifecycle.NextStatusForCode | backend/controllers/orderController.js:1240-1270 | a code is accepted iff it fits the stage rule. Self-pickup takes the handover code in any status. Volunteer delivery takes the pickup code before pickup, and the handover code while carrying |
| OrderLifecycle.VerifyOtp | backend/controllers/orderController.js:1240-1289 | a code that fits the stage moves the order exactly one step and stamps the time; any other code is `Invalid OTP`. A volunteer's delivery frees their slot, and delivery recomputes trust for all parties |
| OrderLifecycle.PartiesOf | backend/controllers/orderController.js:481-488 | trust is recomputed for the buyer, the seller and, when assigned, the volunteer |
| OrderLifecycle.PartyId | backend/controllers/orderController.js:542-545 | the canceller's id is the buyer's, the seller's or the volunteer's, and none for any other role |
| OrderLifecycle.RecentCancellations | backend/controllers/orderController.js:547-553 | the count is zero iff no order in the history was cancelled by that party in that role within 24 hours |
| OrderLifecycle.RestoreListing | backend/controllers/orderController.js:747-754 | a cancelled order's quantity goes back to the listing, and a completed listing reopens once its quantity is positive |
| OrderLifecycle.CancelOrder | backend/controllers/orderController.js:527-834 | gates run in order: missing order, terminal status, the rate limit, the buyer's 30-minute cut-off. It succeeds iff all pass. Every success frees the volunteer's slot. Carried food fails the order. The order records the canceller and reason, `cancelledAt` = now, and a refund if paid. The listing is left alone, and the buyer, the seller and any volunteer are notified. A volunteer's drop of an assigned order is exactly `DropVolunteer`. Otherwise the order is cancelled with the same canceller, reason, `cancelledAt` and refund, and the quantity is restored. The buyer is notified, the seller unless cancelling, and the volunteer unless cancelling. Every other order field is unchanged, and failure or cancellation recomputes all parties |
| OrderLifecycle.DropVolunteer | backend/controllers/orderController.js:648-743 | a drop always counts one more match attempt and frees the slot. It notifies the buyer and seller, and recomputes only the dropping volunteer. Below three attempts the order returns to `awaiting_volunteer` with `volunteerId`, `volunteerAssignedAt` and `acceptedAt` cleared, and matching restarts iff the listing exists. At three it is `cancelled` by `system` with the fixed reason, `cancelledAt` = now and a refund if paid. Every other field is unchanged and the listing is never touched |
| OrderLifecycle.MergePayment | backend/controllers/orderController.js:440 | `{...stored, ...patch}`: the patch's fields win and the stored ones fill the rest |
| OrderLifecycle.MergePaymentLaws | backend/controllers/orderController.js:440 | merging the same patch twice is merging it once; an empty patch changes nothing |
| OrderLifecycle.UpdateOrder | backend/controllers/orderController.js:403-498 | missing order: not found. A slot is freed iff the patch status is the string `delivered` or `cancelled` and the old status is neither. A payment patch on an order with no stored payment throws, with that release already committed. Otherwise any non-empty status string is stored and the payment patch is merged; nothing else on the order changes. The buyer is notified of any status change, the seller too for the two terminal strings, and those two recompute exactly `PartiesOf` the order |
| OrderProperties.CreateThenCancelRestoresListing | backend/controllers/orderController.js:74-79 | creating and then cancelling an order before pickup gives the listing back its quantity and reopens it |
| OrderProperties.FivePortionScenario | backend/controllers/orderController.js:77-79 | ordering all five portions completes the listing; cancelling restores the original listing |
| OrderProperties.NonPositiveQuantityAccepted | backend/controllers/orderController.js:42-44 | a zero or negative quantity is accepted and does not lower the remaining quantity |
| OrderProperties.AcceptThenDropRestoresSlot | backend/controllers/orderController.js:648-665 | accepting and then dropping an order gives the volunteer back exactly the slot they took |
| OrderProperties.DropOutcomeByAttempts | backend/controllers/orderController.js:666-710 | whether a drop re-queues or hard-cancels depends only on the attempt count |
| OrderProperties.ThreeDropsCancel | backend/controllers/orderController.js:666-702 | three accept-and-drop rounds end in a system cancellation |
| OrderProperties.CarryingCancelFails | backend/controllers/orderController.js:581-593 | cancelling a `picked_up` or `in_transit` order fails it, never cancels it, and leaves the listing alone |
| OrderProperties.VolunteerDeliveryHappyPath | backend/controllers/orderController.js:1240-1289 | accept, pickup code, handover code: the order is delivered and the volunteer's count returns to where it started |
| OrderProperties.HandoverCodeRefusedBeforePickup | backend/controllers/orderController.js:1251-1258 | before pickup, the handover code of a volunteer delivery is refused (when the pickup and handover codes differ) |
| OrderProperties.PickupCodeRefusedWhileCarrying | backend/controllers/orderController.js:1261-1266 | while carrying, the pickup code is refused (when the pickup and handover codes differ) |
| OrderProperties.VolunteerTerminalRefusesCodes | backend/controllers/orderController.js:1249-1267 | a terminal volunteer-delivery order accepts no code |
| OrderProperties.UpdateToFailedKeepsSlot | backend/controllers/orderController.js:418-419 | patching an active order to `failed` keeps the volunteer's slot taken |
| OrderProperties.AcceptThenFallbackKeepsVolunteer | backend/controllers/orderController.js:1030-1034 | once a volunteer accepts, the fallback timer changes nothing and notifies nobody |
| OrderProperties.FallbackThenAcceptRefused | backend/controllers/orderController.js:1030-1037 | after the fallback switches an order to self-pickup, a late acceptance is refused |
| OrderFindings.UpdateReleasesAfterFailure | backend/controllers/orderController.js:418-431 | as written, patching a `failed` order to `delivered` frees its volunteer's slot |
| OrderFindings.FailedThenDeliveredBreaksCapacity | backend/controllers/orderController.js:418-431 | as written, cancelling a carried order and then patching it to `delivered` frees the slot twice, leaving the count at −1 |
| OrderFindings.UpdateOrderCorrected | backend/controllers/orderController.js:416-442 | the corrected update frees a slot only when leaving an active status, whether it returns or throws. It succeeds exactly when the written one does, with the same order and effects |
| OrderFindings.CorrectedReleasesOnlyHeldSlots | backend/controllers/orderController.js:416-431 | under the corrected update, a changed committed ledger means the order held a slot |
| OrderFindings.CorrectedPreservesCapacity | backend/controllers/orderController.js:416-442 | the corrected update keeps every volunteer within capacity, on success and on the throw |
| OrderFindings.FailedThenDeliveredCorrected | backend/controllers/orderController.js:581-605 | with the correction, failed-then-delivered leaves the count at 0 |
| OrderFindings.CancelledSelfPickupDelivered | backend/controllers/orderController.js:1243-1248 | as written, a cancelled self-pickup order accepts its handover code and becomes `delivered` |
| OrderFindings.CancelThenHandoverDelivers | backend/controllers/orderController.js:1243-1248 | as written, a self-pickup order cancelled by the seller (portions restocked) is afterwards delivered |
| OrderFindings.VerifyOtpCorrected | backend/controllers/orderController.js:1240-1270 | the corrected check refuses every code for a delivered, cancelled or failed order, and is as written otherwise |
| OrderFindings.CorrectedTerminalIsFinal | backend/controllers/orderController.js:1240-1270 | under the corrected check, an accepted code implies an active order and a stage-correct step |
| OrderFindings.CancelThenHandoverCorrected | backend/controllers/orderController.js:1243-1248 | under the corrected check, the handover code is refused after cancellation |
| Matching.SearchCentre | backend/controllers/orderController.js:891-909 | the search uses `pickupGeo` when it has coordinates, else the legacy `geo`. With neither, matching stops |
| Matching.MatchScore | backend/controllers/orderController.js:944-960 | `score·100 = 7000 − distance + 30·(trustScore ?? 50)` |
| Matching.MatchScoreOrder | backend/controllers/orderController.js:944-960 | closer and more trusted is never ranked lower |
| Matching.QualifiedOf | backend/controllers/orderController.js:917-941 | a candidate is kept iff within 7 km, an active volunteer, and available with a free slot. Each kept candidate appears exactly as often as the search returned it |
| Matching.Insert | backend/controllers/orderController.js:962 | inserting into a list sorted by descending score keeps it sorted and adds exactly that entry |
| Matching.SortByScore | backend/controllers/orderController.js:962 | the result is sorted by descending score and is a permutation of the input |
| Matching.Ranking | backend/controllers/orderController.js:917-962 | the ranking is a descending-score permutation of the qualified candidates' scores |
| Matching.RankedIsQualified | backend/controllers/orderController.js:917-962 | every ranked entry comes from a qualified candidate |
| Matching.Notified | backend/controllers/orderController.js:962-963 | the notified are exactly the first min(10, qualified) entries of the ranking, sorted, each from a qualified candidate |
| Matching.NotifiedDominate | backend/controllers/orderController.js:962-963 | nobody left out of the ten outranks anybody notified |
| Matching.InitiateMatching | backend/controllers/orderController.js:891-1047 | no coordinates means no search. No qualified volunteer means no notification and no fallback. Otherwise 1 to 10 volunteers are notified, with a 60 s fallback |
| Matching.FallbackStep | backend/controllers/orderController.js:1030-1047 | when the timer fires, an order still `awaiting_volunteer` becomes `placed`/self-pickup and the buyer is told. Anything else is left alone |
| Matching.FallbackIdempotent | backend/controllers/orderController.js:1030-1047 | a second firing changes nothing and notifies nobody |
| Matching.RequestsMembers | backend/controllers/orderController.js:253-270 | the reference filters keep exactly the inbox requests addressed to the volunteer, unread, and open (resp. stale) |
| Matching.FilterRescueRequests | backend/controllers/orderController.js:244-276 | the loop returns exactly the reference filters, in inbox order. An unread request is shown iff it has no order reference or its order still awaits a volunteer. It is marked read iff its order exists and no longer awaits one |
| TrustScore.TallyOne | backend/controllers/orderController.js:1070-1088 | an order counts once iff it concerns the party (all orders for a buyer, terminal ones for a seller or volunteer); completed and penalised are disjoint |
| TrustScore.TallyOf | backend/controllers/orderController.js:1059-1088 | the counts are consistent: completed + penalised ≤ total and on-time ≤ completed |
| TrustScore.TallyOfConcat | backend/controllers/orderController.js:1070 | tallies add over a split history |
| TrustScore.TallyPermutation | backend/controllers/orderController.js:1059-1088 | two histories with the same orders (as a multiset) give the same tally, whatever their order |
| TrustScore.NoneRelevantEmptyTally | backend/controllers/orderController.js:1117-1125 | a history with no relevant order gives an empty tally |
| TrustScore.RelevantCounted | backend/controllers/orderController.js:1117-1125 | any relevant order makes the tally non-empty |
| TrustScore.TallyEmptyIffNoneRelevant | backend/controllers/orderController.js:1059-1065 | the tally is empty iff no order concerns the party |
| TrustScore.ScoreOf | backend/controllers/orderController.js:1090-1104 | the clamped weighted score lies in 0..100 |
| TrustScore.ScoreAtLeastTwenty | backend/controllers/orderController.js:1149-1158 | for every consistent non-empty tally the clamped score lies in 20..100. Each rounded term lies between 0 and its weight, so the locked and warned thresholds cannot be reached from a recomputation |
| TrustScore.AccountStatusFor | backend/controllers/orderController.js:1222-1223 | locked iff below 10, warned iff 10..19, active iff 20 or more |
| TrustScore.Recompute | backend/controllers/orderController.js:1055-1214 | no id means no write. With no relevant order only the default 50 is written. Otherwise the score lies in 20..100 and the account is active |
| TrustScore.ApplyWrite | backend/controllers/orderController.js:1222-1227 | the default write leaves the account status alone; a score write sets both fields |
| TrustScore.RecomputeNeverLocks | backend/controllers/orderController.js:1222-1223 | a recomputation never locks or warns an account |
| TrustScore.RecomputeOrderIndependent | backend/controllers/orderController.js:1059-1088 | the write does not depend on the order in which the store returns the party's orders: any reordering of the history gives the same write |
| TrustScore.SingleDeliveryScoresHundred | backend/controllers/orderController.js:1071-1083 | a buyer whose only order was delivered with no schedule scores 100 |
| TrustScore.AllFailedScoresTwenty | backend/controllers/orderController.js:1141-1155 | a seller whose only order failed scores the floor of 20 and stays active |
| AadhaarValidator.Mul | backend/utils/aadhaarValidator.js:4-15 | the D5 group operation maps digits to digits |
| AadhaarValidator.MulIsTable | backend/utils/aadhaarValidator.js:4-15 | the closed form agrees with every entry of the multiplication table |
| AadhaarValidator.MulIdentity | backend/utils/aadhaarValidator.js:5 | 0 is a two-sided identity |
| AadhaarValidator.MulInverse | backend/utils/aadhaarValidator.js:4-15 | every digit has a right inverse |
| AadhaarValidator.MulLeftInjective | backend/utils/aadhaarValidator.js:4-15 | each row of the table is injective |
| AadhaarValidator.MulRightInjective | backend/utils/aadhaarValidator.js:4-15 | each column of the table is injective |
| AadhaarValidator.PermRow | backend/utils/aadhaarValidator.js:20-29 | each permutation-table row is a permutation of the digits |
| AadhaarValidator.Perm | backend/utils/aadhaarValidator.js:78 | position i uses row i mod 8 and maps digits to digits |
| AadhaarValidator.PermInjective | backend/utils/aadhaarValidator.js:20-29 | each position's permutation is injective |
| AadhaarValidator.Digits | backend/utils/aadhaarValidator.js:74 | `split('').map(Number)` gives one digit per character, in order |
| AadhaarValidator.Reverse | backend/utils/aadhaarValidator.js:75 | reversal puts position i at position n − 1 − i |
| AadhaarValidator.Acc | backend/utils/aadhaarValidator.js:73-79 | the accumulator stays a digit |
| AadhaarValidator.ValidateVerhoeff | backend/utils/aadhaarValidator.js:72-82 | the loop returns true iff the accumulator over the reversed digits ends at 0 |
| AadhaarValidator.AccAgree | backend/utils/aadhaarValidator.js:77-79 | equal prefixes give equal accumulators |
| AadhaarValidator.AccSeparate | backend/utils/aadhaarValidator.js:77-79 | after a single changed digit, the accumulators differ at every later step |
| AadhaarValidator.SubstitutionDetected | backend/utils/aadhaarValidator.js:72-82 | changing any single digit of a checksum-valid number makes it invalid |
| AadhaarValidator.ErrorMessage | backend/utils/aadhaarValidator.js:38-62 | each refusal carries the validator's message |
| AadhaarValidator.ValidateCleaned | backend/utils/aadhaarValidator.js:44-65 | checks run in order and the first failure is reported: length ≠ 12 in UTF-16 units, then non-digits, then a first digit 0 or 1, then the checksum. It succeeds iff all pass |
| AadhaarValidator.ValidateAadhaar | backend/utils/aadhaarValidator.js:36-66 | `required` iff the input is missing or empty. Otherwise whitespace is stripped, and the result is valid iff the stripped string is well formed |
| AadhaarValidator.MistypedDigitRefused | backend/utils/aadhaarValidator.js:36-82 | a valid number with any one digit changed is refused |
| AadhaarValidator.SameCleanedSameVerdict | backend/utils/aadhaarValidator.js:42 | inputs with the same stripped form get the same verdict |
| AadhaarValidator.WhitespaceIgnored | backend/utils/aadhaarValidator.js:42 | inserting whitespace anywhere changes nothing |
| AadhaarValidator.SampleChecksum | backend/utils/aadhaarValidator.js:72-82 | 234567890124 carries a correct check digit |
| AadhaarValidator.SampleAccepted | backend/utils/aadhaarValidator.js:36-66 | 234567890124 is accepted, also when typed as "234567 890124" |
| AadhaarValidator.SampleNeighbourRefused | backend/utils/aadhaarValidator.js:60-63 | 234567890125 fails the checksum |
| Verification.Upgrade | backend/controllers/verificationController.js:37-63 | a volunteer's profile gets a verified id proof and level max(old, 1). A seller's profile is certified and the score becomes max(old, 60). Nothing changes for other roles or missing profiles |
| Verification.VerifyAadhaar | backend/controllers/verificationController.js:10-79 | a missing phone or number comes first; then the validator's own error; then the mock rejection of a raw input ending in 000. It succeeds iff none applies, with `lastFour` = last four raw characters and the profile upgrade |
| Verification.RequiredNeverReported | backend/controllers/verificationController.js:14-22 | the validator's "required" error never reaches the caller |
| Verification.UpgradeMonotoneAndIdempotent | backend/controllers/verificationController.js:48-59 | verification never lowers a score or level, and a repeat changes nothing |
| Verification.SellerScoreKeptAboveFloor | backend/controllers/verificationController.js:59 | a seller already at 60 or more keeps the exact score |
| Verification.LastFourOfPlainNumber | backend/controllers/verificationController.js:69 | for a number typed without spaces, `lastFour` is its last four digits |
| Verification.MockRejectionReadsRawInput | backend/controllers/verificationController.js:19-32 | a valid number ending in 000 is mock-rejected, but the same number with a trailing space is accepted |
| UserModel.NewUser | backend/models/User.js:18-23 | a new user has 0 points, level 1, no badges and a trust score within 0..100 |
| Gamification.ParseAction | backend/controllers/gamificationController.js:27-32 | exactly the four action names are recognised |
| Gamification.ParseActionName | backend/controllers/gamificationController.js:27-32 | every action's name is recognised as that action |
| Gamification.PointsFor | backend/controllers/gamificationController.js:4-9 | an action is worth 50, 100, 200 or 10 points |
| Gamification.LevelFor | backend/controllers/gamificationController.js:38 | the level is the 500-point band holding the points: (l−1)·500 ≤ points < l·500 |
| Gamification.LevelForMonotone | backend/controllers/gamificationController.js:38 | more points never give a lower level |
| Gamification.Award | backend/controllers/gamificationController.js:45-50 | a badge is appended only when earned and not yet held; other badges are unchanged |
| Gamification.AwardKeepsNoDuplicates | backend/controllers/gamificationController.js:45-50 | awarding never duplicates a badge |
| Gamification.AddPoints | backend/controllers/gamificationController.js:19-66 | unknown user: 404. Unknown action: 400 and nothing changes. Otherwise the points grow by the action's value and the level is max(old, band). Newcomer is held iff held before or ≥ 100 points, Generous Giver iff held before or ≥ 1000. Existing badges are kept |
| Gamification.AddPointsMonotone | backend/controllers/gamificationController.js:35-50 | points strictly grow, the level never falls, and no badge is duplicated |
| Gamification.FirstDeliveryExample | backend/tests/integration/gamification.test.js:31-40 | a new user's first delivery gives 200 points, level 1 and the Newcomer badge |
| Gamification.VerificationScore | backend/controllers/gamificationController.js:94-98 | at most 40; exactly 40 iff phone, verified id and location; 0 iff none |
| Gamification.PerformanceScore | backend/controllers/gamificationController.js:101-104 | at most 40; at least 30 from 1500 points on; non-negative for non-negative points |
| Gamification.FeedbackScore | backend/controllers/gamificationController.js:107-110 | the rating scaled from 0..5 to 0..20; a missing or zero rating gives 0 |
| Gamification.UpdateTrustScore | backend/controllers/gamificationController.js:85-127 | unknown user: 404. Otherwise the score becomes round(min(100, sum of the three parts)), kept within 0..100, and nothing else changes. The save is rejected iff that rounds below 0 |
| Gamification.UpdateTrustScoreInRange | backend/controllers/gamificationController.js:112-114 | with non-negative points and a rating in 0..5 the update always succeeds |
| Gamification.TrustScoreExample | backend/tests/integration/gamification.test.js:42-64 | the test's inputs score 20 + 14 + 18 = 52, above 50 |
| Perishability.ParseFoodType | backend/utils/perishabilityRules.js:3-20 | exactly the four upper-case food-type names are table keys |
| Perishability.ParseStorage | backend/utils/perishabilityRules.js:3-20 | exactly the two storage names are table keys |
| Perishability.ParseNames | backend/utils/perishabilityRules.js:3-20 | every food type and storage name is found in the table |
| Perishability.ShelfLifeHours | backend/utils/perishabilityRules.js:3-20 | every table entry is at least 12 hours |
| Perishability.RefrigeratedLastsLonger | backend/utils/perishabilityRules.js:3-20 | refrigeration never shortens the shelf life |
| Perishability.CalculateExpiry | backend/utils/perishabilityRules.js:29-37 | known names give cooked time + table hours; anything else gives cooked time + 2 h; the expiry is always later than the cooked time |
| Perishability.ExpiryMonotone | backend/utils/perishabilityRules.js:29-37 | a later cooked time shifts the expiry by exactly the same amount |
| Perishability.FallbackIsShortest | backend/utils/perishabilityRules.js:30-36 | an unknown food type never gets a longer shelf life than a named one |
| ImageGenerator.HashStep | backend/utils/imageGenerator.js:30 | one reducer step stays within 32 bits |
| ImageGenerator.HashStepIsTimes31 | backend/utils/imageGenerator.js:30 | `((a << 5) − a) + code`, then `a & a`, is ToInt32(31·a + code) |
| ImageGenerator.Hash | backend/utils/imageGenerator.js:30 | the folded hash stays within 32 bits |
| ImageGenerator.HashIsPolynomial | backend/utils/imageGenerator.js:30 | wrapping after every step equals wrapping the base-31 polynomial once |
| ImageGenerator.Seed | backend/utils/imageGenerator.js:30 | the seed is \|ToInt32(polynomial) rem 1000\| and lies in 0..999 |
| ImageGenerator.FirstRule | backend/utils/imageGenerator.js:19-28 | the first keyword group the name mentions, with none before it |
| ImageGenerator.ChooseTag | backend/utils/imageGenerator.js:19-28 | `meal` iff no group is mentioned; otherwise the tag of the first mentioned group in priority order |
| ImageGenerator.TagName | backend/utils/imageGenerator.js:12 | a missing or empty name reads as `food`; otherwise it is lower-cased |
| ImageGenerator.HashedName | backend/utils/imageGenerator.js:11 | the hash reads the name as given; the default applies only to a missing argument |
| ImageGenerator.Tags | backend/utils/imageGenerator.js:16-28 | exactly two tags, the first `food` |
| ImageGenerator.ImageUrl | backend/utils/imageGenerator.js:34 | the URL is the prefix, then `food,` and the tag, then `?lock=` and the seed |
| ImageGenerator.GenerateDefaultImageUrl | backend/utils/imageGenerator.js:11-35 | the URL has the fixed prefix, `food,`, the chosen tag, `?lock=`, and the decimal seed of the name |
| ImageGenerator.CategoryIgnored | backend/utils/imageGenerator.js:11-35 | the category argument never affects the URL |
| ImageGenerator.LockReadsBack | backend/utils/imageGenerator.js:30-34 | the URL ends in one to three digits that read back as the seed |
| ImageGenerator.PriorityExample | backend/utils/imageGenerator.js:19-27 | "veg chaap roll" mentions `veg` too, but gets `curry` from the earlier group |
| ImageGenerator.EmptyAndAbsentNames | backend/utils/imageGenerator.js:11-30 | an empty name is tagged like an absent one but hashes to seed 0, while an absent name hashes `food` to seed 894 |

## Left out

- HTTP handling, routers, status codes and response bodies are not modelled. Error results are datatype values instead.
- Mongoose is not modelled: queries, `populate`, sessions, transactions, and the `createOrder` retry on transient transaction errors. Each operation is one atomic step over the values passed in.
- Concurrency between requests is not modelled: two acceptances racing for one slot, a timer firing mid-request.
- The `$geoNear` search is not modelled: distances are inputs. A user with several volunteer profiles (which `$unwind` would duplicate) is not modelled.
- The 50 km debug query and all logging are left out.
- `setTimeout` is an explicit `FallbackStep` applied to the order as it stands when the timer fires.
- `Math.random` and `Date.now` are parameters. Date parsing of `pickupWindow.to` and `scheduledAt` is not modelled: times are integers, and a missing or unparsable end time is `None`.
- Notification titles, messages and emoji are left out: only the receivers are modelled. Mark-as-read bookkeeping other than the rescue-request inbox filter is left out.
- `reportEmergency`, payments, translation, uploads, Firebase auth, middleware and scripts are outside this model.
- `models/Order.js` is not part of this model: its schema does not match the fields the controller uses.
- The inbox's `createdAt` sort is left out: the inbox is passed in already in store order.
- Arguments of the wrong JavaScript type are not modelled: `null` or non-string names, numbers sent as strings, an OTP sent as JSON `null`. A `null` food name crashes `generateDefaultImageUrl`; the model takes `Option<string>`.
- `cancelledBy` values other than buyer, seller, volunteer and system are left out. So are fulfillment values other than `self_pickup` and `volunteer_delivery`, and `updateOrder` patches carrying other fields.
- Inherited object keys such as `constructor` used as food-type names in `RULES` are left out.
- Floating point is left out: scores and rates are exact rationals, so ties at .5 that binary floating point would round differently are not modelled.
- `toLowerCase` outside ASCII is not modelled.
- Gamification.UpdateTrustScore: a NaN total (a non-numeric rating) is not modelled, and `min(100, …)` is taken on exact rationals.
- OrderLifecycle.VerifyOtp: the notification after `picked_up` goes to the buyer and the volunteer. Its receivers are returned but not stated in the contract. When a pickup code is accepted from `placed` or `awaiting_volunteer` with no volunteer assigned, the source also addresses a notification to a null user id. The model leaves that entry out.
- Matching.Ranking: ties in match score keep no particular order, as with `$sort` on equal keys; only the multiset of ranked entries is stated.

## Findings

| source | as written | input that shows it | evidently intended | confidence | as-written member | corrected member |
|---|---|---|---|---|---|---|
| backend/controllers/orderController.js:418-431 | `updateOrder` frees the volunteer's slot when moving to `delivered`/`cancelled` from any status outside those two. `failed` is outside, although the failed branch of `cancelOrder` (581-605) already freed the slot | a volunteer with one active order: the order is cancelled while `picked_up` (count 1 → 0), then patched to `delivered` (count 0 → −1) | free the slot only when leaving an active status, as the comment at line 417 says ("from an active one") | high, not executed | OrderFindings.FailedThenDeliveredBreaksCapacity | OrderFindings.UpdateOrderCorrected |
| backend/controllers/orderController.js:1243-1248 | for `self_pickup`, `verifyOtp` accepts the handover code whatever the order's status | a self-pickup order cancelled by the seller (portions restocked, payment refunded), then the buyer's handover code: the order becomes `delivered` | delivered, cancelled and failed orders accept no code, as in the volunteer-delivery stages (1251-1267) | medium, not executed | OrderFindings.CancelThenHandoverDelivers | OrderFindings.VerifyOtpCorrected |
