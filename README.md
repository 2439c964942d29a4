# HarvestHarmony core, modelled in Dafny

HarvestHarmony is a contract-farming marketplace. Its farmers list crops, and buyers propose
contracts, follow their progress and record payments. Farmers and buyers also message each
other. The application is a React single-page app over a hosted database. Its logic sits in a
few hooks (the store calls) and in the event handlers of its pages. This project models that
logic and proves what it does:

- **The contract rules** (`ContractRules`, `ContractStats`): the status toggle and its guard,
  the ±10 progress buttons clamped to [0,100], the buyer's "Make Payment" formula
  `min(total, paid + total/5)` with its guard, the payment percentage, and the dashboard and
  payment-page figures (sums and counts).
- **The contract store and the contract pages** (`ContractStore`, `ContractViews`):
  - the `contracts` table is a class holding a map keyed by id;
  - each hook operation inserts one row or rewrites exactly one column of one row, and checks
    nothing about the value it writes;
  - each page keeps its fetched list and rewrites the matching entry only when the store answers
    with a row.
- **The new-contract form** (`ContractFormModel`):
  - its total field, recomputed on every quantity or price edit;
  - its date pickers;
  - the submit guard and the draft it sends.
- **Crop listings** (`CropStore`, `CropViews`):
  - the `crop_listings` table and its hook;
  - the "Add Crop" dialog;
  - the farmer dashboard's list, with prepend on add and filter on delete;
  - the wiring of the dialog's callback to the dashboard's add handler.
- **Messaging** (`Messaging`, `MessagingViews`):
  - sending and marking read;
  - the two-party thread;
  - the grouping of a user's messages into conversations: one per counterparty, each with its
    unread count and its newest message, newest conversation first;
  - the case-insensitive conversation search;
  - the message panel's send-and-append.
- **The protected route** (`RouteGuard`): a pure decision between spinner, page and nothing,
  with a redirect to the login page or to the user's own dashboard.

Shared modules:

- `Common`: an `Option`, plus the JavaScript string operations the code relies on, written out:
  `trim`, `includes` and `split('T')[0]`, `toLowerCase` on the letters A–Z, and `parseFloat` on
  decimal text without `Infinity`.
- `Records`: the table rows.

What lies outside the code is passed in as a parameter:

- Store failure is a `fail` flag on every store call.
- The id and timestamp the store assigns are parameters.
- So is the current time.
- The rows a query answers with are passed as a sequence. The store does the filtering, joining
  and ordering of a query.

## Model

| member | source | states |
|---|---|---|
| Common.TrimStart | src/components/messaging/MessageInterface.tsx:51 | the result is a suffix of the input, starts with a non-whitespace character, and only whitespace was dropped |
| Common.TrimEnd | src/components/messaging/MessageInterface.tsx:51 | the result is a prefix of the input, ends with a non-whitespace character, and only whitespace was dropped |
| Common.Trim | src/components/messaging/MessageInterface.tsx:51 | definition: `trim()`, whitespace dropped from both ends |
| Common.TrimEmptyIffBlank | src/components/messaging/MessageInterface.tsx:51 | `trim()` is empty exactly when the text is all whitespace |
| Common.ToLower | src/pages/MessagingPage.tsx:34-35 | same length; every character is lower-cased pointwise |
| Common.Includes | src/pages/MessagingPage.tsx:34-35 | definition: `s.includes(t)`, `t` occurs in `s` at some position |
| Common.IncludesEmpty | src/pages/MessagingPage.tsx:33-35 | every text includes the empty term |
| Common.BeforeT | src/components/farmer/AddCropForm.tsx:63-64 | the result is the prefix up to the first 'T': it holds no 'T', and the next character, if any, is 'T' |
| Common.BeforeTOfTimestamp | src/components/contract/ContractForm.tsx:75-76 | an ISO text `date + "T" + rest` splits back to `date` |
| Common.ParseFloat | src/components/contract/ContractForm.tsx:43-44 | definition: `parseFloat` after leading whitespace and an optional sign: the longest decimal prefix with point and exponent, NaN (None) when it holds no digit (also src/components/farmer/AddCropForm.tsx:61-62) |
| Common.NumberOrZero | src/components/contract/ContractForm.tsx:43-44 | definition: `parseFloat(s) \|\| 0`, NaN read as 0 |
| Common.ParseNoDigits | src/components/contract/ContractForm.tsx:43-44 | parseFloat of text without a digit is NaN |
| Common.ParseDigits | src/components/contract/ContractForm.tsx:69-71 | parseFloat of a digit string is the number it denotes |
| Common.ParseNumeral | src/components/contract/ContractForm.tsx:43-44 | parsing the decimal numeral of n gives n back, also under `\|\| 0` |
| Common.ParseEmpty | src/components/contract/ContractForm.tsx:27-30 | the empty initial field parses to NaN, and `parseFloat("") \|\| 0` is 0 |
| ContractRules.ToggleTarget | src/components/farmer/ContractsList.tsx:88 | completed exactly when the status is active, active for every other status; never pending or cancelled |
| ContractRules.ToggleDisabled | src/components/farmer/ContractsList.tsx:89 | definition: `disabled={status === 'cancelled'}` |
| ContractRules.ToggleMoves | src/components/farmer/ContractsList.tsx:88-89 | on an enabled toggle: pending and completed go to active, active goes to completed; toggling twice returns active or completed |
| ContractRules.StepDown | src/components/farmer/ContractsList.tsx:106 | `max(0, p - 10)` with null read as 0: never negative, 10 less when p >= 10, otherwise 0 |
| ContractRules.StepUp | src/components/farmer/ContractsList.tsx:114 | `min(100, p + 10)` with null read as 0: never above 100, 10 more when p <= 90, otherwise 100 |
| ContractRules.StepDownDisabled | src/components/farmer/ContractsList.tsx:107 | definition: `disabled={progress <= 0}` |
| ContractRules.StepUpDisabled | src/components/farmer/ContractsList.tsx:115 | definition: `disabled={progress >= 100}` |
| ContractRules.StepsStayInRange | src/components/farmer/ContractsList.tsx:106-115 | from p in [0,100] both buttons land in [0,100], and an enabled button strictly moves p |
| ContractRules.StepRoundTrip | src/components/farmer/ContractsList.tsx:106-114 | away from the clamping edges, up then down and down then up return p |
| ContractRules.PaidOf | src/pages/BuyerPaymentsPage.tsx:56 | definition: `paid_amount \|\| 0`, a null payment read as 0 |
| ContractRules.PendingAmount | src/pages/BuyerPaymentsPage.tsx:235 | paid plus pending equals the total (also src/pages/FarmerPaymentsPage.tsx:133); not negative when not overpaid |
| ContractRules.PaymentTarget | src/pages/BuyerDashboard.tsx:106 | never above the total; either the total or paid + total/5; at least paid when 0 <= paid <= total, and strictly more when paid < total |
| ContractRules.PaymentIncrement | src/pages/BuyerDashboard.tsx:116 | the reported increment is target − paid; between 0 and total/5 when 0 <= paid <= total |
| ContractRules.PaymentOffered | src/pages/BuyerDashboard.tsx:387 | definition: the "Make Payment" button shows when `status === 'active' && (paid_amount \|\| 0) < total_value` |
| ContractRules.PaymentClickAdvances | src/pages/BuyerDashboard.tsx:387 | an offered payment on an in-range contract writes more than was paid and at most the total |
| ContractRules.FiveClicksPayInFull | src/pages/BuyerDashboard.tsx:106 | five clicks from 0 pay the contract in full |
| ContractRules.Round | src/pages/FarmerPaymentsPage.tsx:142 | `Math.round`: the nearest integer, halves rounded up |
| ContractRules.PaymentPercent | src/pages/FarmerPaymentsPage.tsx:142 | in [0,100] when 0 <= paid <= total; 100 when fully paid, 0 when nothing or null is paid (also src/pages/BuyerPaymentsPage.tsx:244 and src/pages/BuyerDashboard.tsx:373) |
| ContractRules.FirstPaymentScenario | src/pages/BuyerDashboard.tsx:104-119 | a 5000 active contract with 0 paid is offered a payment that records 1000, leaves 4000 pending and shows 20% |
| ContractStats.SumPending | src/pages/BuyerPaymentsPage.tsx:60-63 | definition: the sum of `total_value - (paid_amount \|\| 0)` over every contract (also src/pages/FarmerDashboard.tsx:158-161) |
| ContractStats.SumPaid | src/pages/BuyerPaymentsPage.tsx:55-58 | definition: the sum of `paid_amount \|\| 0` |
| ContractStats.SumTotals | src/pages/FarmerDashboard.tsx:163-166 | definition: the sum of `total_value` |
| ContractStats.UpcomingPayments | src/pages/BuyerDashboard.tsx:124-129 | definition: the sum of the pending amounts of the active contracts |
| ContractStats.ActiveOnly | src/pages/BuyerDashboard.tsx:124-129 | contains exactly the active contracts, none more often than in the list |
| ContractStats.CountWithStatus | src/pages/BuyerDashboard.tsx:122 | at most the list length; zero exactly when no contract has that status |
| ContractStats.OutstandingCount | src/pages/FarmerDashboard.tsx:169 | at most the list length; zero exactly when every contract is paid up |
| ContractStats.SpentPlusPendingIsTotal | src/pages/BuyerPaymentsPage.tsx:55-63 | total spent plus pending payments equals the sum of the totals (src/pages/FarmerDashboard.tsx:158-166 computes the same sums) |
| ContractStats.UpcomingIsActivePending | src/pages/BuyerDashboard.tsx:124-129 | upcoming payments are the pending amounts of the active contracts only |
| ContractStats.UpcomingWithinPending | src/pages/BuyerDashboard.tsx:124-129 | with no overpaid contract, upcoming payments lie between 0 and the pending amount of all contracts |
| ContractStats.DueWithin | src/pages/BuyerDashboard.tsx:131-141 | definition: active, with an end date strictly after now and strictly before now + horizon |
| ContractStats.CountDueWithin | src/pages/BuyerDashboard.tsx:131-141 | definition: the number of contracts DueWithin the horizon |
| ContractStats.UpcomingDeliveries | src/pages/BuyerDashboard.tsx:131-135 | definition: CountDueWithin a 30-day horizon in milliseconds |
| ContractStats.DeliveriesThisWeek | src/pages/BuyerDashboard.tsx:137-141 | definition: CountDueWithin a 7-day horizon in milliseconds |
| ContractStats.WiderWindowCountsMore | src/pages/BuyerDashboard.tsx:131-141 | a wider delivery window never counts fewer contracts, and every count is at most the active count |
| ContractStats.WeekWithinMonth | src/pages/BuyerDashboard.tsx:131-141 | for the same now, this week's deliveries are at most the upcoming deliveries, which are at most the active contracts |
| ContractStats.PendingCardCountsInactive | src/pages/BuyerPaymentsPage.tsx:60-63 | a witness: the "Due for active contracts" card counts a completed contract's whole unpaid value, while the active-only sum is 0 |
| ContractStats.InactiveOnly | src/pages/BuyerPaymentsPage.tsx:60-63 | contains exactly the contracts that are not active, none more often than in the list |
| ContractStats.PendingSplitsByStatus | src/pages/BuyerPaymentsPage.tsx:60-63 | on every list, the card's sum is the active contracts' pending amount plus the pending amount of all the others |
| ContractStats.PendingPositive | src/pages/BuyerPaymentsPage.tsx:60-63 | with nothing overpaid, a pending sum is never negative, and positive once one contract is not paid up |
| ContractStats.PendingCardOvercounts | src/pages/BuyerPaymentsPage.tsx:60-63 | with nothing overpaid, a contract that is not active and not paid up makes the card show strictly more than is due on the active contracts |
| ContractStore.ApplyPatch | src/hooks/useContracts.ts:43-44 | the patched column takes the written value and every other column, the id among them, keeps its own |
| ContractStore.PatchesCommuteOrOverwrite | src/hooks/useContracts.ts:38-106 | writes of different columns commute; two writes of the same column keep the later |
| ContractStore.UpdateRow | src/hooks/useContracts.ts:38-66 | an error or an unknown id yields null and leaves the table; otherwise exactly that row takes the patch, whatever value it carries |
| ContractStore.InsertContract | src/hooks/useContracts.ts:9-36 | one new row under the new id carrying every column of the draft (quality and payment terms, progress and paid amount as present values), nothing else changed; or null with the table unchanged on an error, a taken id or a NaN number |
| ContractStore.ContractsApi.CreateContract | src/hooks/useContracts.ts:9-36 | the table and the result are those of InsertContract; loading is off afterwards |
| ContractStore.ContractsApi.Update | src/hooks/useContracts.ts:38-66 | the table and the result are those of UpdateRow; loading is off afterwards |
| ContractStore.ContractsApi.UpdateContractStatus | src/hooks/useContracts.ts:38-66 | writes only `status` of the given row, as UpdateRow says |
| ContractStore.ContractsApi.UpdateContractProgress | src/hooks/useContracts.ts:68-96 | writes only `progress` of the given row, as UpdateRow says |
| ContractStore.ContractsApi.UpdatePaymentAmount | src/hooks/useContracts.ts:98-126 | writes only `paid_amount`, absolute and not a delta, as UpdateRow says |
| ContractViews.ReplaceWhere | src/pages/BuyerDashboard.tsx:94-96 | same length and ids; entries with the id take the patch, all others are unchanged |
| ContractViews.WriteKeepsMirror | src/pages/FarmerDashboard.tsx:92-104 | after a write, whether it succeeded or failed, a list that showed the stored rows still shows them |
| ContractViews.ToggleClickStatuses | src/pages/BuyerDashboard.tsx:382-383 | a toggle click sets that entry to the toggle target, leaves the others alone, and makes no entry pending or cancelled |
| ContractViews.ProgressClickKeepsRange | src/components/farmer/ContractsList.tsx:106-115 | a progress click keeps every progress in [0,100] |
| ContractViews.PaymentClickKeepsRange | src/pages/BuyerDashboard.tsx:387-391 | an offered payment click raises that entry's paid amount, keeps every entry in 0 <= paid <= total, and leaves the others alone |
| ContractViews.ContractsPage.HandleUpdateStatus | src/pages/BuyerDashboard.tsx:90-102 | the store row is written, and the local list is rewritten only on success; the list stays a mirror of the table (also src/pages/FarmerDashboard.tsx:106-118, src/pages/BuyerContractsPage.tsx:75-87, src/pages/FarmerContractsPage.tsx:67-79) |
| ContractViews.ContractsPage.HandleUpdateProgress | src/pages/FarmerDashboard.tsx:92-104 | the same for progress (also src/pages/FarmerContractsPage.tsx:53-65) |
| ContractViews.ContractsPage.HandleMakePayment | src/pages/BuyerDashboard.tsx:104-119 | writes the payment target; on success rewrites the entry and reports target − paid; on failure changes nothing (also src/pages/BuyerContractsPage.tsx:89-104) |
| ContractViews.ContractsPage.ClickToggle | src/components/farmer/ContractsList.tsx:88-89 | disabled on cancelled, with no write; otherwise writes the toggle target (also src/pages/BuyerContractsPage.tsx:236-237) |
| ContractViews.ContractsPage.ClickStep | src/components/farmer/ContractsList.tsx:106-115 | a disabled button writes nothing; otherwise writes the clamped step |
| ContractViews.ContractsPage.ClickMakePayment | src/pages/BuyerDashboard.tsx:387-391 | without an active, not-paid-up contract nothing happens; otherwise writes `min(total, paid + total/5)` with null paid read as 0 (also src/pages/BuyerContractsPage.tsx:241-245) |
| ContractFormModel.TotalOf | src/components/contract/ContractForm.tsx:43-45 | definition: `(parseFloat(q) \|\| 0) * (parseFloat(p) \|\| 0)` in exact reals |
| ContractFormModel.Changed | src/components/contract/ContractForm.tsx:35-50 | the edited field takes the text and no other text field changes; a quantity or price edit sets the total from the new text of the edited field and the previous text of the other; other edits keep the total |
| ContractFormModel.EditsKeepTotalConsistent | src/components/contract/ContractForm.tsx:42-45 | after any sequence of edits the total is the product of the quantity and price shown, or still empty while neither was typed |
| ContractFormModel.ChangeKeepsTotalConsistent | src/components/contract/ContractForm.tsx:42-45 | one edit keeps the total consistent |
| ContractFormModel.InitialTotalConsistent | src/components/contract/ContractForm.tsx:24-33 | the initial form is consistent and its total is empty |
| ContractFormModel.NonNumericGivesZeroTotal | src/components/contract/ContractForm.tsx:43-44 | a non-numeric quantity or price makes the total 0 |
| ContractFormModel.CanSubmit | src/components/contract/ContractForm.tsx:55 | definition: a profile, both dates and a non-empty farmer id |
| ContractFormModel.BuildContract | src/components/contract/ContractForm.tsx:64-80 | a pending contract with progress 0 and paid 0, buyer = profile, farmer = route farmer, the numbers parsed, the dates cut before 'T', and the stored total sent as it is |
| ContractFormModel.SubmittedTotalIsProduct | src/components/contract/ContractForm.tsx:72 | once quantity or price was typed, the submitted total is the product of the parsed quantity and price (NaN read as 0) |
| ContractFormModel.ContractForm.HandleChange | src/components/contract/ContractForm.tsx:35-50 | the form becomes `Changed` of the old form, the dates are untouched, and total consistency is kept |
| ContractFormModel.ContractForm.PickStart | src/components/contract/ContractForm.tsx:129 | a day before now is refused; otherwise it becomes the start |
| ContractFormModel.ContractForm.PickEnd | src/components/contract/ContractForm.tsx:156 | a day before the start (before now with no start) is refused; an accepted end is never before the start |
| ContractFormModel.ContractForm.HandleSubmit | src/components/contract/ContractForm.tsx:52-91 | without a profile, both dates and a farmer id nothing is written; otherwise the draft is inserted, with navigation to the buyer dashboard exactly on success |
| CropStore.InsertListing | src/hooks/useCropListings.ts:9-36 | one new row under the new id carrying every column of the draft, and every other row kept; or null with the table unchanged on an error, a taken id or a NaN number |
| CropStore.Patched | src/hooks/useCropListings.ts:43 | each column the patch carries, the farmer among them, takes its value; every other column keeps its own; the id is kept |
| CropStore.PatchLaws | src/hooks/useCropListings.ts:38-46 | an empty patch changes nothing; two patches are one patch with the later laid over the earlier |
| CropStore.PatchListing | src/hooks/useCropListings.ts:38-66 | an error or an unknown id yields null and leaves the table; otherwise only that row changes, to the patched row |
| CropStore.DeleteListing | src/hooks/useCropListings.ts:68-94 | true with exactly that key gone, or false with the table unchanged; a missing id is not an error |
| CropStore.DeleteIdempotent | src/hooks/useCropListings.ts:71-74 | deleting twice is deleting once |
| CropStore.DeleteUndoesInsert | src/hooks/useCropListings.ts:9-94 | deleting a listing just created gives back the table as it was |
| CropStore.CropListingsApi.CreateCropListing | src/hooks/useCropListings.ts:9-36 | the table and the result are those of InsertListing; loading is off afterwards |
| CropStore.CropListingsApi.UpdateCropListing | src/hooks/useCropListings.ts:38-66 | the table and the result are those of PatchListing; loading is off afterwards |
| CropStore.CropListingsApi.DeleteCropListing | src/hooks/useCropListings.ts:68-94 | the table and the result are those of DeleteListing; loading is off afterwards |
| CropViews.WithField | src/components/farmer/AddCropForm.tsx:44-49 | the named field takes the text and every other field keeps its own |
| CropViews.CanSubmitCrop | src/components/farmer/AddCropForm.tsx:54-56 | definition: the handler's guard, a profile and both dates |
| CropViews.SubmitDisabled | src/components/farmer/AddCropForm.tsx:250 | definition: `disabled={isLoading \|\| !availableFrom \|\| !availableUntil}` |
| CropViews.SubmitGuards | src/components/farmer/AddCropForm.tsx:250 | a missing date both disables the button and stops the handler; with both dates and an idle hook the handler proceeds exactly when there is a profile |
| CropViews.NewListing | src/components/farmer/AddCropForm.tsx:58-66 | farmer = profile, quantity and price parsed, dates cut before 'T', and an empty location replaced by the profile's |
| CropViews.NewListingDates | src/components/farmer/AddCropForm.tsx:63-64 | a day whose ISO text is `date + "T" + time` is stored as `date` |
| CropViews.AddCropForm.SetOpen | src/components/farmer/AddCropForm.tsx:28 | only the open flag changes |
| CropViews.AddCropForm.HandleChange | src/components/farmer/AddCropForm.tsx:44-49 | the fields become WithField of the old fields; nothing else changes |
| CropViews.AddCropForm.PickFrom | src/components/farmer/AddCropForm.tsx:189 | a day before now is refused; otherwise it becomes the start |
| CropViews.AddCropForm.PickUntil | src/components/farmer/AddCropForm.tsx:216 | a day before the start is refused; an accepted end is never before the start |
| CropViews.AddCropForm.HandleSubmit | src/components/farmer/AddCropForm.tsx:51-89 | the guard stops everything; otherwise NewListing is inserted; on success the dialog closes, resets to its initial fields with unit "tons" and clears both dates, and the created row is returned for `onSuccess`; on failure the dialog stays as it was |
| CropViews.AddCropForm.SubmitDraft | src/components/farmer/AddCropForm.tsx:68-82 | insert, then close and reset exactly on success |
| CropViews.RemoveId | src/pages/FarmerDashboard.tsx:149 | no longer than the list; a listing is kept exactly when it was there and its id differs |
| CropViews.RemoveIdDistributes | src/pages/FarmerDashboard.tsx:149 | the filter works on each part of a list separately, so survivors keep their order |
| CropViews.RemoveIdAbsent | src/pages/FarmerDashboard.tsx:149 | a list without that id is left exactly as it is |
| CropViews.Resubmitted | src/pages/FarmerDashboard.tsx:123-133 | farmer = profile, the crop's fields copied, and '' for a missing description or location |
| CropViews.FarmerCrops.HandleAddCropListing | src/pages/FarmerDashboard.tsx:120-143 | without a profile id nothing happens; otherwise the rebuilt row is inserted and, on success, the created row is put first |
| CropViews.FarmerCrops.AcceptCreatedListing | src/components/farmer/AddCropForm.tsx:85-87 | the corrected callback: the created row is put first and nothing is inserted |
| CropViews.FarmerCrops.HandleDeleteCropListing | src/pages/FarmerDashboard.tsx:145-155 | the table and the result are those of DeleteListing; on success the list loses exactly the listings with that id |
| CropViews.AddAsWrittenInsertsTwice | src/components/farmer/CropListingTab.tsx:39-41 | one "Add" with both store calls succeeding stores two new rows, under both ids, for the same crop and quantity |
| CropViews.AddAsWrittenShowsSecondCopy | src/pages/FarmerDashboard.tsx:135-137 | the list then shows the second copy first and not the row the dialog created |
| CropViews.AddCorrectedInsertsOnce | src/components/farmer/AddCropForm.tsx:85-87 | the intended wiring stores one row and shows that very row first |
| CropViews.FailedAddChangesNothing | src/components/farmer/AddCropForm.tsx:68-70 | a failed dialog insert changes neither table nor list on either wiring |
| CropViews.SubmitAsWired | src/components/farmer/CropListingTab.tsx:39-41 | the dialog's submit followed by the forwarding callback ends in the state of AddAsWritten |
| CropViews.SubmitCorrected | src/components/farmer/AddCropForm.tsx:85-87 | the dialog's submit with a callback that only shows the row ends in the state of AddCorrected |
| Messaging.InsertMessage | src/hooks/useMessaging.ts:9-35 | one new row with the draft's sender, receiver, content and contract, read null and the store's time, or null with the table unchanged |
| Messaging.MarkRead | src/hooks/useMessaging.ts:37-50 | true unless the store errs; only that row's `read` becomes true; a missing id changes nothing |
| Messaging.SendThenMarkRead | src/hooks/useMessaging.ts:39-45 | a message just sent is unread for its receiver; once marked it is read for everybody, and marking twice is marking once |
| Messaging.FormatThread | src/hooks/useMessaging.ts:165-175 | one entry per row, in order, with the row's id, content and time, its sender's id, name and avatar, own exactly when the viewer sent it |
| Messaging.ThreadOfTwo | src/hooks/useMessaging.ts:159-160 | on a two-party thread in ascending time: times stay ascending, own entries are the viewer's and the others are the other party's |
| Messaging.Counterparty | src/hooks/useMessaging.ts:76-77 | definition: the receiver when the viewer sent the message, the sender otherwise |
| Messaging.UserOf | src/hooks/useMessaging.ts:76-94 | the conversation's user is the counterparty, with that party's name, avatar and `business_name \|\| ""` as company |
| Messaging.IsUnreadFor | src/hooks/useMessaging.ts:111 | definition: someone other than the viewer sent it and `read` is not true |
| Messaging.EntryOf | src/hooks/useMessaging.ts:102-113 | the entry keeps time and content; own iff the viewer sent it; counted as unread iff someone else sent it and it is not read |
| Messaging.FirstWith | src/hooks/useMessaging.ts:81-99 | the row that creates the conversation, whose profile it takes: a row with that counterparty, and no earlier row has it |
| Messaging.GroupConversations | src/hooks/useMessaging.ts:74-116 | the reduce yields one conversation per counterparty with unique ids, each exactly its bucket of rows in row order, with its unread count |
| Messaging.AddMessage | src/hooks/useMessaging.ts:76-113 | one reduce step: find or create the counterparty's conversation, append the entry, count it if unread; keeps the grouping invariant |
| Messaging.GroupingPartitions | src/hooks/useMessaging.ts:76-108 | the conversations hold as many entries as there are rows, and each row's entry is in its counterparty's conversation |
| Messaging.UnreadCountsRows | src/hooks/useMessaging.ts:111-113 | a conversation's unread count is the number of its rows someone else sent whose read is false or null |
| Messaging.BucketNewestFirst | src/hooks/useMessaging.ts:69-108 | with rows newest first, every conversation keeps its entries newest first |
| Messaging.InsertByNewest | src/hooks/useMessaging.ts:119-123 | inserting adds exactly that conversation |
| Messaging.InsertKeepsOrder | src/hooks/useMessaging.ts:119-123 | inserting into a newest-first list keeps it newest first |
| Messaging.SortByNewest | src/hooks/useMessaging.ts:119-123 | a permutation of the conversations, newest first message first |
| Messaging.SortKeepsUnique | src/hooks/useMessaging.ts:119-123 | sorting keeps the ids distinct |
| Messaging.SetLastMessages | src/hooks/useMessaging.ts:126-131 | every conversation gets its first entry's text as last message, and nothing else changes |
| Messaging.SortedIsGrouped | src/hooks/useMessaging.ts:119-123 | the sorted grouping is still one conversation per counterparty, each its bucket |
| Messaging.WithLastKeeps | src/hooks/useMessaging.ts:126-131 | setting last messages changes neither ids, nor order, nor uniqueness |
| Messaging.BuildConversations | src/hooks/useMessaging.ts:74-131 | the result is the conversation list: unique ids, exactly the counterparties, newest first, each its bucket with its unread count and last message |
| Messaging.LastMessageIsNewest | src/hooks/useMessaging.ts:126-129 | with rows newest first, every conversation is non-empty and its last message is the text of its newest entry |
| Messaging.MessagingApi.SendMessage | src/hooks/useMessaging.ts:9-35 | the table and result are those of InsertMessage; loading is off afterwards |
| Messaging.MessagingApi.MarkMessageAsRead | src/hooks/useMessaging.ts:37-50 | the table and result are those of MarkRead; the loading flag is not touched |
| Messaging.MessagingApi.GetConversations | src/hooks/useMessaging.ts:52-144 | an error yields []; otherwise the conversation list; loading is off afterwards |
| Messaging.MessagingApi.GetMessages | src/hooks/useMessaging.ts:146-188 | an error yields []; otherwise FormatThread of the answered rows |
| MessagingViews.Matches | src/pages/MessagingPage.tsx:33-35 | definition: the lower-cased name or company includes the lower-cased term |
| MessagingViews.FilterConversations | src/pages/MessagingPage.tsx:32-36 | no longer than the list; a conversation is kept exactly when it was there and its lower-cased name or company includes the lower-cased term |
| MessagingViews.FilterDistributes | src/pages/MessagingPage.tsx:32 | the filter works on each part of a list separately, so kept conversations keep their order |
| MessagingViews.EmptySearchKeepsAll | src/pages/MessagingPage.tsx:33-35 | an empty search keeps every conversation |
| MessagingViews.SearchIgnoresCase | src/pages/MessagingPage.tsx:34-35 | lower-casing the term or the names does not change what matches |
| MessagingViews.ReceiverId | src/pages/MessagingPage.tsx:116 | a receiver exactly when a conversation is selected |
| MessagingViews.SelectedReceiverIsCounterparty | src/pages/MessagingPage.tsx:116 | the selected conversation's user id, a counterparty of the viewer, becomes the receiver |
| MessagingViews.CanSend | src/components/messaging/MessageInterface.tsx:51 | definition: non-blank text, a user id, a receiver and a profile |
| MessagingViews.NewMessage | src/components/messaging/MessageInterface.tsx:53-58 | sender, receiver and untrimmed text as given; `contract_id` present exactly when a non-empty contract id is given |
| MessagingViews.SentEntry | src/components/messaging/MessageInterface.tsx:63-73 | the appended entry is own, carries the stored id and content and the client's time, and shows the viewer's name and avatar |
| MessagingViews.AppendMatchesRefetch | src/components/messaging/MessageInterface.tsx:63-73 | the appended entry agrees with what reloading the thread would show for the stored row in id, sender, content and own flag; its time is the client's clock, the reload's the stored `created_at` |
| MessagingViews.AppendKeepsOrder | src/components/messaging/MessageInterface.tsx:61-73 | appending at the current time keeps an ascending thread ascending |
| MessagingViews.MessagePanel.SetMessage | src/components/messaging/MessageInterface.tsx:163 | only the input text changes |
| MessagingViews.MessagePanel.LoadThread | src/components/messaging/MessageInterface.tsx:38-47 | the thread is loaded only with both a user id and a receiver, and replaces the shown messages |
| MessagingViews.MessagePanel.HandleSubmit | src/components/messaging/MessageInterface.tsx:49-76 | the guard stops everything; otherwise the message is inserted; on success its entry is appended at the end and the input cleared; on failure messages and input are unchanged |
| RouteGuard.DashboardOf | src/components/auth/ProtectedRoute.tsx:27 | definition: the path `/${type}/dashboard` |
| RouteGuard.Decide | src/components/auth/ProtectedRoute.tsx:18-46 | spinner iff loading; page iff not loading, a user, and no type required or the profile's type equal to it; login redirect iff not loading and no user; a wrong type redirects to `/{type}/dashboard`; no other redirect |
| RouteGuard.DashboardIsNotLogin | src/components/auth/ProtectedRoute.tsx:27 | no dashboard route is the login route |
| RouteGuard.GuardOutcomes | src/components/auth/ProtectedRoute.tsx:19-46 | page and redirect never come together; a typed route whose profile has not arrived shows nothing and redirects nowhere |
| RouteGuard.RightTypeSeesPage | src/components/auth/ProtectedRoute.tsx:41-43 | a user of the required type always sees the page |

## Left out

- The hosted database client, the network and the query builder are not modelled.
  - Each table is a map keyed by id.
  - Each call takes a `fail` flag for the error its answer may carry.
  - The rows a query answers with are parameters; the query's `or` filter, its joins and its
    `order` are done by the store. Lemmas such as `Messaging.LastMessageIsNewest` take that
    order as a precondition.
- Authentication and sessions (the auth context and the login, register and password pages).
  The guard receives `isLoading`, the presence of a user and the profile as inputs.
- Toasts, `console.error`, rendering and markup.
- `formatMessageTime` and every `toLocaleString`/`toLocaleTimeString`/`toLocaleDateString`.
  They are clock- and locale-dependent. Times are kept as instants. The store's `created_at`
  and the client's clock are separate parameters (`storedAt`, `shownAt`) of the panel's submit.
  The appended entry carries `shownAt`, where the code shows that local time as text.
- `Messaging.SortByNewest`:
  - modelled as an insertion sort on a sequence, proved to be a permutation in newest-first
    order; the in-place rearrangement of the array is not modelled;
  - the relative order of conversations with equal newest times is not stated, though the
    ECMAScript `Array.prototype.sort` keeps it;
  - a conversation of no messages, which the grouping never builds, sorts with time 0, not NaN.
- `ContractFormModel.Changed`: `toFixed(2)` rounding of the total field is not modelled. The
  total is kept as the exact product `(parseFloat(q) || 0) * (parseFloat(p) || 0)`.
- `ContractFormModel.BuildContract`: it submits that exact product as the total. The code
  submits `parseFloat` of the two-decimal text (src/components/contract/ContractForm.tsx:72).
- `ContractFormModel.SubmittedTotalIsProduct`: it states the exact product for the same
  reason, not the product rounded to two decimals.
- IEEE floating point:
  - Money is exact `real`, and `0.2 * total` is taken as `total / 5`.
  - Percentages divide exactly. `ContractRules.PaymentPercent` requires a positive total,
    because the code has no guard for a zero total.
  - `parseFloat` covers sign, digits, point and exponent; the `Infinity` literal and hex text
    are not modelled.
- `CropStore.Patched`: a patch carries every column but the id. The hook forwards any object to
  `update`, but a write to the `id` key itself (which would move the row) is not modelled. No
  caller in the application updates a listing.
- `Common.ToLower` lower-cases the Latin letters A–Z only. Other scripts are kept as they are,
  where `toLowerCase` would apply full Unicode case mapping.
- `Number(c.total_value) || 0` (src/pages/FarmerDashboard.tsx:164) can only differ from
  `total_value` on NaN, which exact reals do not have.
- Statuses are the four-valued datatype of the contract detail component. The store would
  accept any string; the pages only ever write these four.
- `isLoading` is modelled as false after every call. Its value during the call, seen by a
  concurrent render, is not modelled. The same goes for stale closures: handlers are sequential
  operations over the list as it is.
- Browser-side validation (the HTML `required` attribute) is not modelled. An empty or
  malformed number therefore reaches the handler, as it can from script.
- The default the database gives `read` is not visible in the code. A new message is modelled
  with `read` null, which the unread count treats like false.
- `ContractFormModel.ContractForm.PickEnd` and `CropViews.AddCropForm.PickUntil` refuse an end
  before the start only at the moment of picking. Re-picking the start later does not re-check
  the end, as in the code.
- Column constraints of the hosted schema other than NOT NULL (foreign keys, checks) are not
  modelled. An insert fails on a NaN number only because NaN is sent as null into a NOT NULL
  column.
- The current-month payment card (src/pages/BuyerPaymentsPage.tsx:188-191) is left out. It
  depends on the wall clock and on `updated_at`.
- The lakh abbreviation and the other presentation-only files are left out.

## Findings

| source | as written | input that shows it | evidently intended | confidence | as-written member | corrected member |
|---|---|---|---|---|---|---|
| src/components/farmer/CropListingTab.tsx:39-41 | the dialog inserts the listing (src/components/farmer/AddCropForm.tsx:68), and its `onSuccess` hands the created row to `handleAddCropListing`, which inserts it again (src/pages/FarmerDashboard.tsx:135) | one "Add" click with both store calls succeeding and distinct fresh ids | one stored listing, shown first in the dashboard's list | high; not executed | CropViews.AddAsWrittenInsertsTwice | CropViews.AddCorrectedInsertsOnce |
| src/pages/BuyerPaymentsPage.tsx:60-63 | the card labelled "Due for active contracts" (line 176) sums `total_value - (paid_amount \|\| 0)` over every contract, whatever its status | one completed contract of total 100 with `paid_amount` null: the card shows 100 while nothing is due on an active contract (`ContractStats.PendingCardCountsInactive`) | the pending amounts of the active contracts only, as the buyer dashboard computes them (src/pages/BuyerDashboard.tsx:124-129) | medium; not executed | ContractStats.PendingCardOvercounts | ContractStats.UpcomingIsActivePending |
