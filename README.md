# Escrow deals, modelled in Dafny

This project models the core of a MERN escrow application for buying and
selling assets in Kenya. A buyer or a seller opens a deal with a price
and a counterparty. The deal then moves through agreement, payment
(an M-Pesa STK push), asset transfer, inspection, and either release to
the seller or a dispute. Every step is guarded by the caller's role in
the deal and by the deal's status. An administrator disburses released
funds and reads a wallet summary. A socket server pushes updates to
user rooms and transaction rooms. On the browser side, a set of pages
validate what the user types before they send it: the deal form,
onboarding, buyer confirmation, the deal summary, seller payout setup,
the payment invoice, sign-up, password reset, the profile-verification
wizard, the transaction page and the transactions list.

## Layout

There is one module per source file, each in a file of the same name:

- `common.dfy` holds `Common` and `Sorting`. `Common` has Option and
  Result, and `JVal`, a JavaScript value with its truthiness. It also has
  the string and character helpers, `Math.round` over integers, and the
  decimal text of integers. `Sorting` holds the newest-first ordering the
  listing routes use.
- The backend modules are `UserModel`, `TransactionModel`, `Invoice`,
  `RoleCheck`, `TransactionRoutes`, `AdminRoutes`, `AuthRoutes`,
  `UserRoutes`, `Validator`, `ErrorHandler` and `Socket`.
  - The collection of deals is the class `TransactionRoutes.EscrowStore`.
    It holds a sequence of documents, in insertion order, whose
    transaction ids are unique. Each route handler is a method on it.
  - The invoice counter is the class `Invoice.InvoiceCounters`, whose
    counters its methods bump in place.
  - The socket server is the class `Socket.SocketServer`. It maps each
    connected socket to its set of rooms.
- The frontend modules are `ProtectedRoute`, `InspectionPeriod`,
  `DealForm`, `Onboarding`, `BuyerConfirmation`, `FormChecks`,
  `TransactionSummary`, `SellerPaymentSetup`, `PaymentInvoice`, `Signup`,
  `ResetPassword`, `VerifyProfile`, `Transact` and `Transactions`.
  - `FormChecks` holds the email, phone and password checks that several
    pages share.
  - A page's React state is a class. Each event handler is a method that
    sets that state.
  - The values the page computes from its state are functions.

Money is whole Kenyan shillings. A JavaScript number is an `int`, and NaN
appears only where the source can produce it. Dates are milliseconds.
The clock, the identity provider's answers and the replies of HTTP calls
are all parameters. So are the validation library's email and ISO-8601
grammars and the browser's date parser.

## Model

| member | source | states |
|---|---|---|
| UserModel.NewUser | backend/models/User.js:3-113 | a new user keeps the given clerkId and email, the role defaults to buyer only when absent, the wallet starts at 0 KES with no transactions, both flags start false and both timestamps are the creation time |
| UserModel.Validate | backend/models/User.js:4-8 | a user saves iff clerkId is present and the role is one of buyer, seller, admin; a missing clerkId is the reported path |
| UserModel.Touch | backend/models/User.js:116-119 | the save hook sets updatedAt to the save time and changes nothing else |
| UserModel.UserStore.constructor | backend/models/User.js:121 | the collection starts empty, keyed by clerkId |
| UserModel.UserStore.Insert | backend/models/User.js:4-13 | a new user is stored iff it validates and neither its clerkId nor its email is already taken; otherwise the error names the failing path and the collection is unchanged |
| UserModel.UserStore.SaveExisting | backend/models/User.js:9-13 | re-saving a stored user stamps updatedAt and stores it unless validation fails or another user holds the email |
| UserModel.DefaultsOfMinimalUser | backend/models/User.js:26-52 | a user made from clerkId and email alone is a buyer with an empty KES wallet, unverified, incomplete, and passes validation |
| UserModel.InvalidUsersRejected | backend/models/User.js:4-30 | a missing clerkId or a role outside the enum is never saved |
| TransactionModel.ParseStatus | backend/models/Transaction.js:38-42 | a parsed status name is one of the enum's names and parses back to itself |
| TransactionModel.StatusRoundTrip | backend/models/Transaction.js:38-42 | every status's stored name parses back to that status |
| TransactionModel.NewTransaction | backend/models/Transaction.js:3-120 | a new document is in agreement with payment pending, KES, a 3-day inspection period and no end date, a closed-open dispute, single terms unless given, no transaction id yet, and keeps the given parties, amount and fee |
| TransactionModel.StoredPaymentPaths | backend/models/Transaction.js:93-97 | a payment record stores only the declared paths method, reference and completedAt, each exactly when it holds a value |
| TransactionModel.StampHook | backend/models/Transaction.js:129-138 | every save stamps updatedAt; the inspection end is set to now plus the period only when the document is in inspection without one, and is never changed otherwise |
| TransactionModel.IdHook | backend/models/Transaction.js:141-149 | on a new document an unset transaction id becomes "ET" + time + upper-cased suffix and an unset invoice number "INV" + time + suffix; set values and stored documents are left alone |
| TransactionModel.TransactionDocument.constructor | backend/models/Transaction.js:151 | a constructed document holds the defaults of a new transaction and is new |
| TransactionModel.TransactionDocument.RunSaveHooks | backend/models/Transaction.js:129-149 | a save runs the stamp hook and then the id hook on the document |
| TransactionModel.InspectionEndNeverRecomputed | backend/models/Transaction.js:133-135 | once an inspection end is set, no sequence of saves changes it |
| TransactionModel.NoInspectionEndWithoutInspectionSave | backend/models/Transaction.js:129-135 | a document that never enters inspection gets no inspection end, and its updatedAt is the last save's time |
| TransactionModel.OpenDoesNotMeanRaised | backend/models/Transaction.js:99-109 | a fresh document's dispute status is open while no dispute is raised |
| Invoice.InvoiceCounters.constructor | backend/models/Invoice.js:3-6 | the counters collection starts with no records |
| Invoice.InvoiceCounters.IncrementAndGet | backend/routes/transactionRoutes.js:12-19 | the named counter (0 when missing) is bumped by one and the new value returned; no other counter changes |
| Invoice.FormatInvoice | backend/routes/transactionRoutes.js:20 | the invoice number is all digits and at least six long |
| Invoice.NatToStringValue | backend/routes/transactionRoutes.js:20 | the decimal text of a counter reads back as that counter |
| Invoice.LeadingZerosValue | backend/routes/transactionRoutes.js:20 | zero padding does not change a number's value |
| Invoice.ZerosValue | backend/routes/transactionRoutes.js:20 | a run of zeros is worth 0 |
| Invoice.InvoiceValue | backend/routes/transactionRoutes.js:12-20 | the padded invoice number reads back as the counter value |
| Invoice.InvoiceInjective | backend/routes/transactionRoutes.js:12-20 | distinct counter values give distinct invoice numbers |
| Invoice.NatToStringWidth | backend/routes/transactionRoutes.js:20 | a number has at most k digits iff it is below 10^k |
| Invoice.InvoiceWidth | backend/routes/transactionRoutes.js:20 | invoice numbers are exactly six digits up to 999999 and longer after |
| Invoice.InvoiceMonotone | backend/routes/transactionRoutes.js:12-20 | a later counter value gives a numerically larger invoice number |
| Invoice.FirstTwoInvoices | backend/routes/transactionRoutes.js:12-20 | on an empty collection the first two invoices are 000001 and 000002 |
| RoleCheck.Find | backend/utils/roleCheck.js:34 | the lookup returns the first document with the requested transaction id, or none when no document has it |
| RoleCheck.AccessFor | backend/utils/roleCheck.js:28-62 | access is "not found" iff no document has the id; granted access carries the caller's seller and buyer flags and a permitted action; a refusal means the action is not permitted for those flags |
| RoleCheck.StatusGate | backend/utils/roleCheck.js:71-80 | the request passes iff the transaction's status is allowed; otherwise a 400 whose message names the status |
| RoleCheck.Request.constructor | backend/utils/roleCheck.js:5-7 | a request starts with the caller's role and no attached user, transaction or party flags |
| RoleCheck.Request.CheckRole | backend/utils/roleCheck.js:4-25 | an unknown user gets 404; a known one passes iff the stored role is the required one or admin, else 403; on success the stored role and record are attached and nothing else changes |
| RoleCheck.Request.CheckTransactionAccess | backend/utils/roleCheck.js:28-68 | the request carries the decision of the access check: on a grant the transaction and party flags are attached, otherwise the matching 404 or 403 halts it and nothing is attached |
| RoleCheck.Request.CheckTransactionStatus | backend/utils/roleCheck.js:71-80 | the status guard's decision for the attached transaction |
| RoleCheck.ContainsSuffix | backend/utils/roleCheck.js:75 | the status guard's message contains the status name |
| RoleCheck.NotFoundBeforePermissions | backend/utils/roleCheck.js:36-38 | a missing transaction is reported as not found whatever the action and the caller |
| RoleCheck.UnknownActionRefused | backend/utils/roleCheck.js:45-57 | an action outside the permission table is refused for everybody exactly when it is not a property every object inherits (`constructor`, `toString`, ...); such a name lets everybody through |
| RoleCheck.PermissionTable | backend/utils/roleCheck.js:45-53 | fund and accept are the buyer's, transfer the seller's, dispute either party's, view and update either party's or an admin's, delete the seller's or an admin's |
| TransactionRoutes.ServerEscrowFee | backend/routes/transactionRoutes.js:42-44 | the stored fee is the amount times 0.0025 rounded half up: 800·fee ≤ 2·amount + 400 < 800·fee + 800 |
| TransactionRoutes.ServerFeeIsQuarterPercent | backend/routes/transactionRoutes.js:42-44 | the fee is a quarter percent (amount / 400 on multiples of 400), not the half percent the comment names: 3 rather than 5 on 1000 |
| TransactionRoutes.CreatorName | backend/routes/transactionRoutes.js:62-63 | the creator's name is the trimmed first and last name when that is not blank, and the role's fallback otherwise |
| TransactionRoutes.CreatorPhone | backend/routes/transactionRoutes.js:64 | the creator's phone is the profile phone, else the truthy contact from the form, else the empty string |
| TransactionRoutes.Parties | backend/routes/transactionRoutes.js:66-92 | the creator is the seller iff the body's role is "seller"; the other side is a pending party known only by the email and contact from the form |
| TransactionRoutes.CreateData | backend/routes/transactionRoutes.js:43-59 | the new document's data carries the parsed price as amount, its server fee, the drawn invoice number and the two party records |
| TransactionRoutes.GateFor | backend/utils/roleCheck.js:28-80 | a request passes the guards iff the transaction exists, the caller's part in it or the admin role is permitted the route's action, and its status is on the route's list; a pass carries the found index and the caller's seller and buyer flags; a stop is a 404 for a missing transaction, a 403 for a refused action, and a 400 otherwise |
| TransactionRoutes.RouteActionsInTable | backend/routes/transactionRoutes.js:165-320 | every route asks the access check for an action of the permission table, never for an inherited property name |
| TransactionRoutes.SettableParses | backend/routes/transactionRoutes.js:168-172 | each of the six names the status route accepts is a status of the schema |
| TransactionRoutes.Handle | backend/routes/transactionRoutes.js:165-344 | a request succeeds iff it passes both guards and, on the status route, names one of the six settable statuses; a success changes only the document it names and leaves every other one as it was; a refused request changes nothing |
| TransactionRoutes.CompleteScheduled | backend/routes/transactionRoutes.js:206-215 | the delayed completion leaves the collection as it was when no document has the id, and otherwise changes only the document found by that id |
| TransactionRoutes.Simulate | backend/routes/transactionRoutes.js:377-454 | a successful simulation changes only the document found by its id and leaves every other one as it was; a failed one is the simulation's 404 and changes nothing |
| TransactionRoutes.Mine | backend/routes/transactionRoutes.js:349-353 | the listing's query keeps only documents where the caller is seller or buyer, drawn from the collection |
| TransactionRoutes.ListFor | backend/routes/transactionRoutes.js:347-367 | the listing has one summary per document of the caller |
| TransactionRoutes.ViewerRole | backend/routes/transactionRoutes.js:132-157 | a role is reported iff view access is granted, and it is "seller" iff the caller is the stored seller |
| TransactionRoutes.EscrowStore.constructor | backend/routes/transactionRoutes.js:5-7 | the store starts with no transactions and the given counters |
| TransactionRoutes.EscrowStore.NextInvoiceNumber | backend/routes/transactionRoutes.js:12-21 | the invoice counter is bumped by one and its padded new value returned |
| TransactionRoutes.EscrowStore.Create | backend/routes/transactionRoutes.js:23-129 | the invoice number is drawn first; the built document is appended with 201 and its id when it validates and clashes with no unique key, else 500 and nothing is stored, the number still consumed |
| TransactionRoutes.EscrowStore.RunGuards | backend/utils/roleCheck.js:28-80 | the middleware chain run on a request object decides as the guard function does |
| TransactionRoutes.EscrowStore.Serve | backend/routes/transactionRoutes.js:165-344 | a guarded request leaves the store as the request function says and keeps the unique keys |
| TransactionRoutes.EscrowStore.CompleteScheduledPayment | backend/routes/transactionRoutes.js:206-215 | the scheduled completion updates the store as the completion function says and keeps the unique keys |
| TransactionRoutes.EscrowStore.RunSimulation | backend/routes/transactionRoutes.js:374-455 | a simulation updates the store as the simulation function says and keeps the unique keys |
| TransactionRoutes.KeysKept | backend/routes/transactionRoutes.js:174-178 | an update that keeps a document's id and invoice number keeps both unique indexes |
| TransactionRoutes.FindStable | backend/routes/transactionRoutes.js:174-178 | an update that keeps a document's id does not change which document an id finds |
| TransactionRoutes.CreatedDocumentShape | backend/routes/transactionRoutes.js:23-95 | a created document is in agreement with payment pending, has the six-digit invoice number and an "ET" id, no inspection end, the creator on exactly the side the role names and the other side without a clerkId |
| TransactionRoutes.SuccessNeedsPermission | backend/routes/transactionRoutes.js:165-344 | a request that succeeds names a stored document on which the caller holds the route's permission, in one of the route's allowed statuses |
| TransactionRoutes.FundOnlyByBuyerInAgreement | backend/routes/transactionRoutes.js:188 | initiate-payment succeeds only for the buyer of a transaction in agreement |
| TransactionRoutes.TransferOnlyBySellerInTransfer | backend/routes/transactionRoutes.js:249 | transfer-asset succeeds only for the seller of a transaction in transfer |
| TransactionRoutes.ConfirmFromAnyStatus | backend/routes/transactionRoutes.js:229-246 | confirm-payment, guarded only by view access, moves a transaction in any status back to transfer with its payment completed |
| TransactionRoutes.InitiateStartsPayment | backend/routes/transactionRoutes.js:187-225 | a successful initiate-payment sets the status to payment and the payment status to processing, records the method and a reference "PAY-" followed by the decimal request time, and changes nothing else |
| TransactionRoutes.TransferRecordsDetails | backend/routes/transactionRoutes.js:249-276 | a successful transfer-asset sets the status to inspection and records the method, recipient, notes and transfer time, not yet confirmed, and changes nothing else |
| TransactionRoutes.AcceptCompletes | backend/routes/transactionRoutes.js:279-298 | a successful accept-asset sets the status to completed with the completion time and changes nothing else |
| TransactionRoutes.ReleaseAwaitsPayout | backend/routes/transactionRoutes.js:301-317 | a successful release-funds sets the status to awaiting admin payout and changes nothing else; the release time it names is not a schema path, so the payment record is kept as it was |
| TransactionRoutes.AcceptReleaseExclusive | backend/routes/transactionRoutes.js:279-317 | after an accept or release succeeds, a second accept or release of the same transaction fails with 400 or 403 and changes nothing |
| TransactionRoutes.ClosesInspection | backend/routes/transactionRoutes.js:279-317 | a successful accept or release moves the transaction out of inspection, the only status either allows |
| TransactionRoutes.GateOutsideAllowed | backend/utils/roleCheck.js:71-80 | a route with a status guard fails with 400 or 403, changing nothing, on a transaction in any other status |
| TransactionRoutes.TransferLeavesInspectionEnd | backend/routes/transactionRoutes.js:253-270 | transfer-asset moves to inspection without setting an inspection end, because the update skips the save hook |
| TransactionRoutes.ProcessingOutsideEnum | backend/routes/transactionRoutes.js:193-202 | initiate-payment stores the payment status processing, which the schema enum rejects |
| TransactionRoutes.PutStatusRules | backend/routes/transactionRoutes.js:165-185 | the status route succeeds iff the value is one of six names, else 400 "Invalid status"; it sets exactly that status and can never set awaiting_admin_payout or disputed |
| TransactionRoutes.DisputeKeepsStatus | backend/routes/transactionRoutes.js:320-344 | a dispute is raised and open, recorded as the seller's or the buyer's, and the transaction status is unchanged |
| TransactionRoutes.SimulationOnce | backend/routes/transactionRoutes.js:377-454 | a simulation that succeeded fails with 404 when repeated and changes nothing |
| TransactionRoutes.SimulationCondition | backend/routes/transactionRoutes.js:377-454 | a simulation succeeds iff the transaction exists in the simulation's expected status; a failing one changes nothing |
| TransactionRoutes.ScheduledCompletionUnconditional | backend/routes/transactionRoutes.js:206-215 | the delayed completion sets transfer and completed payment whatever the status is by then |
| TransactionRoutes.HandleKeepsParties | backend/routes/transactionRoutes.js:165-344 | no guarded route changes any document's parties or id |
| TransactionRoutes.CompleteKeepsParties | backend/routes/transactionRoutes.js:206-215 | the delayed completion changes no document's parties or id |
| TransactionRoutes.SimulateKeepsParties | backend/routes/transactionRoutes.js:377-454 | no simulation changes any document's parties or id |
| TransactionRoutes.StepKeepsParties | backend/routes/transactionRoutes.js:165-454 | no request, completion or simulation changes any document's parties or id |
| TransactionRoutes.PartiesNeverChange | backend/routes/transactionRoutes.js:165-454 | after any sequence of requests, completions and simulations every document keeps its seller, buyer and id |
| TransactionRoutes.FindSameIds | backend/utils/roleCheck.js:34 | two collections with the same ids in the same places find the same document for every id |
| TransactionRoutes.PendingSellerNeverTransfers | backend/routes/transactionRoutes.js:87-91 | a transaction created by a buyer names no seller clerkId, and no route ever adds one, so transfer-asset on it is refused with 403 forever |
| TransactionRoutes.SellerlessRefusesTransfer | backend/routes/transactionRoutes.js:249 | transfer-asset on a transaction without a seller clerkId is refused with 403 and changes nothing |
| TransactionRoutes.ListForOrdered | backend/routes/transactionRoutes.js:354 | the listing is ordered newest first |
| TransactionRoutes.ListForComplete | backend/routes/transactionRoutes.js:349-365 | every transaction of the caller appears in the listing |
| TransactionRoutes.ListForSound | backend/routes/transactionRoutes.js:349-365 | every listed summary is that of a transaction of the caller |
| TransactionRoutes.MineMembers | backend/routes/transactionRoutes.js:349-353 | a document is selected iff it is stored and the caller is its seller or buyer |
| TransactionRoutes.AdminViewedAsBuyer | backend/routes/transactionRoutes.js:137 | an admin who is not the seller is reported as the buyer |
| AdminRoutes.RequireAdmin | backend/routes/adminRoutes.js:7-14 | a request passes iff it carries a user flagged as admin; otherwise 403 "Admin access required" |
| AdminRoutes.AdminRoutesAlwaysRefuse | backend/server.js:48 | the admin router is mounted without authentication, so no request carries a user and every admin route answers 403 |
| AdminRoutes.AwaitingPayout | backend/routes/adminRoutes.js:19-20 | the query keeps exactly the stored transactions awaiting payout |
| AdminRoutes.PayoutList | backend/routes/adminRoutes.js:17-40 | the payout list holds exactly the transactions awaiting payout, each as often as stored, most recently updated first |
| AdminRoutes.Payouts | backend/routes/adminRoutes.js:17-40 | the route refuses iff the admin check does, and otherwise lists the payouts |
| AdminRoutes.Disburse | backend/routes/adminRoutes.js:43-76 | a successful disbursement changes only the transaction found by its id and leaves every other one as it was; a refused one changes nothing |
| AdminRoutes.DisburseFunds | backend/routes/adminRoutes.js:43-76 | the store is updated as the disbursement function says and keeps its unique keys |
| AdminRoutes.DisburseCondition | backend/routes/adminRoutes.js:43-58 | a disbursement succeeds iff an admin names a transaction awaiting payout; it is then completed with its completion time, and its payment record is unchanged, since the disbursement time and admin id are not schema paths |
| AdminRoutes.DisburseOnce | backend/routes/adminRoutes.js:45-58 | a second disbursement of the same transaction is a 404 that changes nothing |
| AdminRoutes.SumWhere | backend/routes/adminRoutes.js:97-99 | the reduce yields a number whenever every amount is a number |
| AdminRoutes.WalletSummary | backend/routes/adminRoutes.js:79-111 | on an empty collection all three totals are 0 |
| AdminRoutes.NeverReleased | backend/routes/adminRoutes.js:92-95 | no stored document matches the released query, since `paymentDetails.disbursedAt` is not a path the schema stores |
| AdminRoutes.ReleasedTotalZero | backend/routes/adminRoutes.js:92-99 | the wallet summary's released total is 0 for every collection |
| AdminRoutes.SumWhereIsFilteredTotal | backend/routes/adminRoutes.js:82-99 | each total is the sum of the amounts of the transactions its query selects |
| AdminRoutes.FilterLast | backend/routes/adminRoutes.js:82-95 | selecting from a collection is selecting from all but the last document, then the last one if it qualifies |
| AdminRoutes.AmountTotalSnoc | backend/routes/adminRoutes.js:97-99 | adding a priced document adds its amount to the total |
| AdminRoutes.Filter | backend/routes/adminRoutes.js:82-95 | a query keeps exactly the stored documents that match it |
| AdminRoutes.FilterSnoc | backend/routes/adminRoutes.js:82-95 | a query over a longer collection is the query over the shorter one plus the new document if it matches |
| AdminRoutes.NaNPoisonsTotal | backend/routes/adminRoutes.js:97-99 | one selected transaction whose amount is not a number makes the whole total NaN; the aggregation has no guard against it, although the modelled routes never store such a document |
| AdminRoutes.SumWhereUpdate | backend/routes/adminRoutes.js:97-99 | replacing one document changes a total by the new amount minus the old, each counted only if selected |
| AdminRoutes.DisburseMovesAmount | backend/routes/adminRoutes.js:43-111 | a disbursement takes the transaction's amount off the awaiting-payout total and leaves the escrow total alone, while the released total stays 0: the disbursed amount is counted in no total |
| AdminRoutes.PayoutMovesAmount | backend/routes/adminRoutes.js:79-99 | replacing one awaiting-payout document with one of the same amount, funded alike and no longer awaiting, lowers the awaiting-payout total by that amount and leaves the escrow total unchanged |
| Sorting.SortDescProperties | backend/routes/transactionRoutes.js:354 | the listing sort returns the same documents, as a multiset, ordered newest first by the sort key |
| AuthRoutes.StripBearer | backend/middleware/auth.js:7 | removing the first "Bearer " never lengthens the header |
| AuthRoutes.BearerTokenRoundTrip | backend/middleware/auth.js:7 | the header "Bearer t" yields exactly the token t |
| AuthRoutes.HeaderWithoutPrefixKept | backend/middleware/auth.js:7 | a header without "Bearer " is used whole as the token |
| AuthRoutes.RequireAuth | backend/middleware/auth.js:5-55 | no token gives 401 "No token provided", a falsy payload 401 "Invalid token"; an authenticated request names a stored user whose role it carries, admin iff that role is admin; an unknown subject is first stored as a buyer, a known one leaves the collection alone; a refusal stores nothing |
| AuthRoutes.SyncedUser | backend/routes/authRoutes.js:26-31 | syncing an existing user replaces email and names, the phone only when a truthy one is sent, and never the role or clerkId |
| AuthRoutes.SyncUser | backend/routes/authRoutes.js:7-50 | a synced user is stored under the caller's clerkId: an existing one updated and stamped, a new one created from the provider's data; a failed save is a 500 that stores nothing |
| AuthRoutes.SyncRoute | backend/routes/authRoutes.js:7-50 | sync-user runs only for an authenticated request, and the synced user keeps the stored role, or is a buyer when it was new |
| AuthRoutes.FilteredKeys | backend/routes/authRoutes.js:84-98 | the filtered update keeps every sent profile field as sent, keeps role iff an admin sent a truthy one, and keeps nothing else |
| AuthRoutes.FilterUpdates | backend/routes/authRoutes.js:84-98 | the filtering loop computes the allow-listed update |
| AuthRoutes.ApplyProfile | backend/routes/authRoutes.js:100-104 | the update writes the filtered fields and changes nothing else; without role the role is kept |
| AuthRoutes.NonAdminKeepsRole | backend/routes/authRoutes.js:87-90 | a caller who is not an admin never changes a role |
| AuthRoutes.AdminRoleSkipsEnum | backend/routes/authRoutes.js:88-104 | an admin can store a role outside the schema enum, since the update runs no validators |
| AuthRoutes.UpdateProfile | backend/routes/authRoutes.js:82-126 | an unknown caller gets 404 and nothing changes; otherwise the caller's record gets the filtered update and is returned |
| AuthRoutes.Profile | backend/routes/authRoutes.js:53-79 | the profile is shown iff the caller is stored, with the stored clerkId, role, phone, wallet and flags |
| AuthRoutes.ProfileShowsUpdate | backend/routes/authRoutes.js:53-126 | after a profile update the profile shows the sent phone, or the stored one when none was sent, the role unchanged for a non-admin, and the same wallet and verification flag |
| AuthRoutes.Me | backend/routes/authRoutes.js:129-151 | /me answers iff the caller is stored, with the stored role, admin iff that role is admin, and the stored verification flags |
| AuthRoutes.MeAgreesWithRequest | backend/routes/authRoutes.js:143 | /me and the authentication middleware agree on whether the caller is an admin |
| AuthRoutes.VerifyRefusal | backend/routes/authRoutes.js:177-193 | a body is refused iff a core field is missing, a consent is missing, a bank payout lacks bank details or an M-Pesa payout lacks its number; the first failing check, in that order, gives the message |
| AuthRoutes.VerifiedDetails | backend/routes/authRoutes.js:201-224 | the stored record has bank details iff the payout is by bank, the M-Pesa number only for an M-Pesa payout, and the sent payout method and the parsed birth date |
| AuthRoutes.MarkVerified | backend/routes/authRoutes.js:196-227 | verification sets both flags, replaces the whole verification record and changes nothing else |
| AuthRoutes.VerifyProfile | backend/routes/authRoutes.js:154-251 | a refused body is a 400 with its message and changes nothing; a birth date that does not parse makes the update's cast throw, and the route answers 500 and changes nothing; an unknown caller is a 404; otherwise the caller is marked verified with the new record, which holds the birth date |
| AuthRoutes.TextPresent | backend/routes/authRoutes.js:178 | a non-empty text field is truthy |
| AuthRoutes.TrimmedPresent | backend/routes/authRoutes.js:178 | a text field that is not blank once trimmed is truthy |
| AuthRoutes.RuleSetImpliesRouteChecks | backend/middleware/validator.js:111-178 | every text body the verification rule set accepts passes the route's own checks |
| AuthRoutes.RouteAdmitsShortName | backend/routes/authRoutes.js:178-193 | the converse fails: the route accepts a two-letter full name that the rule set refuses |
| Validator.AfterPlus | backend/middleware/validator.js:78 | dropping the optional leading "+" never lengthens the text |
| Validator.IntLiteral | backend/middleware/validator.js:253 | only a non-empty text parses as an integer |
| Validator.CustomFailure | backend/middleware/validator.js:56-63 | an unparsable date passes both hand-written checks; a deadline passes iff it is after now; a birth date passes iff its age is between 18 and 120 years of 365.25 days |
| Validator.RunSteps | backend/middleware/validator.js:22-25 | a chain reports at most one error per check |
| Validator.RunStepsEmpty | backend/middleware/validator.js:22-25 | a chain reports nothing iff every one of its checks passes |
| Validator.RunChain | backend/middleware/validator.js:145-148 | a chain under an `.if` whose condition fails, or an optional field that is absent, reports nothing |
| Validator.ValidateAllEmpty | backend/middleware/validator.js:4-6 | a rule set reports nothing iff every chain in it reports nothing |
| Validator.HandleValidationErrors | backend/middleware/validator.js:4-18 | the request goes on iff there are no errors; otherwise 400 "Validation failed" with one detail per error, in order, carrying its field, message and value |
| Validator.Middleware | backend/middleware/validator.js:4-18 | a rule set with the error handler lets a request through iff the rule set accepts it |
| Validator.RequiredChain | backend/middleware/validator.js:22-25 | a trimmed required field with a length range passes iff its condition does not apply or its trimmed length is in range |
| Validator.PresentChain | backend/middleware/validator.js:145-148 | a trimmed non-empty check passes iff its condition does not apply or the trimmed text is not empty |
| Validator.FormattedChain | backend/middleware/validator.js:161-165 | a trimmed pattern check passes iff its condition does not apply or the trimmed text fits the pattern |
| Validator.ChoiceChain | backend/middleware/validator.js:27-29 | a required choice passes iff the text is one of the listed values |
| Validator.AmountChain | backend/middleware/validator.js:45-47 | a price passes iff its text is a float of at least 1 |
| Validator.DatedChain | backend/middleware/validator.js:53-63 | a dated field passes iff it is present, ISO-8601 and its hand-written check passes |
| Validator.OptionalEmailChain | backend/middleware/validator.js:65-68 | an optional email passes iff absent or an email address |
| Validator.OptionalPhoneChain | backend/middleware/validator.js:75-78 | an optional contact passes iff absent or, trimmed, an optional "+" and 10 to 15 digits |
| Validator.OptionalNameChain | backend/middleware/validator.js:90-94 | an optional name passes iff absent or, trimmed, 2 to 50 letters and spaces |
| Validator.ConsentChain | backend/middleware/validator.js:167-170 | a consent passes iff its text is exactly "true" |
| Validator.OptionalIntChain | backend/middleware/validator.js:251-257 | an optional integer passes iff absent or an integer in range |
| Validator.OptionalShortChain | backend/middleware/validator.js:241-244 | an optional trimmed text passes iff absent or within its maximum length |
| Validator.CreationHead | backend/middleware/validator.js:22-29 | the title and role chains pass iff the trimmed title has 3 to 100 characters and the role is buyer or seller |
| Validator.CreationAsset | backend/middleware/validator.js:31-38 | the asset chains pass iff the asset type is listed and the trimmed asset title has 2 to 100 characters |
| Validator.CreationMiddle | backend/middleware/validator.js:40-63 | the description, price, terms and deadline chains pass iff the description has 10 to 1000 characters, the price is at least 1, the terms are listed and the deadline is a future ISO date |
| Validator.CreationContacts | backend/middleware/validator.js:65-83 | the contact chains pass iff each given email is an email and each given contact a phone number |
| Validator.CreationRules | backend/middleware/validator.js:21-86 | the creation rule set accepts a body iff every field condition of the creation rules holds |
| Validator.VerificationPerson | backend/middleware/validator.js:112-130 | the name and birth-date chains pass iff the trimmed name has 3 to 100 characters and the birth date is an adult's |
| Validator.VerificationDocument | backend/middleware/validator.js:132-139 | the document chains pass iff the id type is listed and the trimmed id number has 5 to 20 characters |
| Validator.VerificationPayout | backend/middleware/validator.js:141-165 | the payout chains pass iff the method is listed and the fields that method needs are acceptable |
| Validator.VerificationRules | backend/middleware/validator.js:111-178 | profile verification accepts a body iff identity, the chosen payout's fields and both consents are acceptable; the other method's fields are not read |
| Validator.ProfileUpdateRules | backend/middleware/validator.js:89-108 | a profile update is accepted iff each given name and phone is well formed |
| Validator.PaymentRules | backend/middleware/validator.js:181-197 | a payment is accepted iff the phone is an optional "+" and 254 with nine digits, the amount is at least 1 and the transaction id has the ET format |
| Validator.TransactionIdRules | backend/middleware/validator.js:200-207 | the id parameter is accepted iff, trimmed, it has the ET format |
| Validator.StatusRules | backend/middleware/validator.js:210-217 | a status update is accepted iff the status is one of the seven listed |
| Validator.StatusRuleAdmitsSettable | backend/middleware/validator.js:210-217 | every status the status route sets passes the status rule |
| Validator.StatusListsDiffer | backend/routes/transactionRoutes.js:168 | the rule accepts disputed, which the route refuses, and neither accepts awaiting_admin_payout |
| Validator.DisputeReasonRules | backend/middleware/validator.js:220-227 | a dispute is accepted iff the trimmed reason has 20 to 1000 characters |
| Validator.AssetTransferRules | backend/middleware/validator.js:230-247 | a transfer is accepted iff method and recipient have their trimmed lengths and the notes, if given, at most 500 |
| Validator.PaginationRules | backend/middleware/validator.js:250-260 | paging is accepted iff a given page is a positive integer and a given limit an integer from 1 to 100 |
| Validator.GeneratedIdFormat | backend/models/Transaction.js:142-144 | an id the model generates has the format the id rule demands |
| Validator.GeneratedIdAccepted | backend/middleware/validator.js:200-207 | an id the model generates passes the id parameter rule |
| Validator.MissingTitleReportsBoth | backend/middleware/validator.js:22-25 | a missing title reports both the required and the length message, since every failing check is reported |
| Socket.UserRoom | backend/utils/socket.js:55 | a personal room's name starts with "user:" |
| Socket.TransactionRoom | backend/utils/socket.js:61 | a transaction room's name starts with "transaction:" |
| Socket.RoomNamesDistinct | backend/utils/socket.js:55-61 | different users get different personal rooms, different transactions different rooms, and no personal room is a transaction room |
| Socket.Deliver | backend/utils/socket.js:66 | an emit appends the message to the inbox of every socket in the room except the sender, and leaves every other inbox as it was |
| Socket.NotificationData | backend/utils/socket.js:161-165 | a notification carries its own fields plus an id and a timestamp |
| Socket.StatusChangeData | backend/utils/socket.js:194-199 | a status change carries the extra fields plus the transaction id, status and timestamp |
| Socket.PaymentUpdateData | backend/utils/socket.js:210-214 | a payment update carries the payment fields plus the transaction id and timestamp |
| Socket.Handshake | backend/utils/socket.js:26-48 | a connection is refused without a truthy token ("Authentication token required") or with an unverifiable one ("Invalid authentication token"), and admitted iff both hold |
| Socket.SocketServer.constructor | backend/utils/socket.js:4 | the module starts uninitialised with no sockets |
| Socket.SocketServer.Initialize | backend/utils/socket.js:11-23 | initialising the server marks it initialised with no sockets, rooms or messages |
| Socket.SocketServer.GetIO | backend/utils/socket.js:124-129 | the server is returned iff initialised, otherwise the "not initialized" error |
| Socket.SocketServer.Connect | backend/utils/socket.js:26-57 | a refused handshake changes nothing; an admitted socket gets a fresh id, its user id, an empty inbox and only its personal room |
| Socket.SocketServer.JoinTransaction | backend/utils/socket.js:60-71 | the socket joins the transaction room, with no access check, the other members receive user-joined-transaction, and every socket's rooms stay its personal room plus transaction rooms |
| Socket.SocketServer.LeaveTransaction | backend/utils/socket.js:74-85 | the socket leaves the transaction room, keeps its personal room, the remaining members receive user-left-transaction, and every socket's rooms stay its personal room plus transaction rooms |
| Socket.SocketServer.Typing | backend/utils/socket.js:88-103 | a typing or stop-typing signal reaches the other members of the transaction room and changes no rooms |
| Socket.SocketServer.EmitToRoom | backend/utils/socket.js:137-151 | an emit reaches every member of the room when initialised and nothing otherwise |
| Socket.SocketServer.EmitToTransaction | backend/utils/socket.js:137-140 | a transaction emit reaches the members of that transaction's room, and nothing when uninitialised |
| Socket.SocketServer.EmitToUser | backend/utils/socket.js:148-151 | a user emit reaches the sockets in that user's personal room, reaches no socket of another user, and nothing when uninitialised |
| Socket.SocketServer.SendNotification | backend/utils/socket.js:158-168 | the notification, with id and timestamp, reaches the user's sockets |
| Socket.SocketServer.EmitTransactionUpdate | backend/utils/socket.js:175-183 | transaction-updated with the id, transaction and timestamp reaches the transaction room |
| Socket.SocketServer.EmitStatusChange | backend/utils/socket.js:191-200 | transaction-status-changed reaches the transaction room |
| Socket.SocketServer.EmitPaymentUpdate | backend/utils/socket.js:207-215 | payment-updated reaches the transaction room |
| Socket.SocketServer.Broadcast | backend/utils/socket.js:222-225 | a broadcast reaches every connected socket when initialised and nothing otherwise |
| Socket.TransactionEmitIsolated | backend/utils/socket.js:137-140 | a socket outside a transaction room receives nothing emitted to it |
| Socket.UserEmitIsolated | backend/utils/socket.js:148-151 | when every socket is in its own personal room and otherwise only in transaction rooms, as the server keeps them, a socket of another user receives nothing emitted to a user |
| Socket.SenderNotNotified | backend/utils/socket.js:66 | the socket that triggers a room event does not receive it |
| Socket.NotificationOverrides | backend/utils/socket.js:161-165 | a notification that brings its own id and timestamp keeps them, since the spread comes last |
| ErrorHandler.StatusFor | backend/middleware/errorHandler.js:7 | the status is "fail" iff the code's decimal text starts with 4, and "error" otherwise |
| ErrorHandler.AppError | backend/middleware/errorHandler.js:2-10 | an application error carries its message, code, operational flag and the status its code gives |
| ErrorHandler.StatusByFirstDigit | backend/middleware/errorHandler.js:7 | every 4xx code is "fail" and every 5xx code "error" |
| ErrorHandler.FirstCharacterOnly | backend/middleware/errorHandler.js:7 | only the first character counts: 4000 is "fail" and -400 "error" |
| ErrorHandler.LeadingDigit | backend/middleware/errorHandler.js:7 | a three-digit code's text starts with its hundreds digit |
| ErrorHandler.CastError | backend/middleware/errorHandler.js:13-16 | a cast error becomes a 400 "Invalid <path>: <value>" |
| ErrorHandler.DuplicateFields | backend/middleware/errorHandler.js:19-24 | a duplicate-key error becomes a 400 naming the first key and its value, and throws when there is no key-value record |
| ErrorHandler.Join | backend/middleware/errorHandler.js:28-29 | joining no messages gives the empty text, and one message gives that message |
| ErrorHandler.ValidationError | backend/middleware/errorHandler.js:27-31 | a validation error becomes a 400 "Invalid input data. " followed by the messages joined by ". ", and throws without an errors record |
| ErrorHandler.ProductionError | backend/middleware/errorHandler.js:83-92 | in production a cast error is rewritten first, then a duplicate key, a validation error and the two token errors, each replacing the one before |
| ErrorHandler.ProdResponse | backend/middleware/errorHandler.js:55-73 | an operational error is sent with its code and message, anything else as 500 "Something went wrong!", never with a stack |
| ErrorHandler.WithDefaults | backend/middleware/errorHandler.js:77-78 | a falsy code becomes 500 and a falsy status "error"; truthy ones are kept |
| ErrorHandler.HandleError | backend/middleware/errorHandler.js:76-99 | outside production the development response of the defaulted error is sent; in production the rewritten error's production response, or an uncaught throw |
| ErrorHandler.NotFound | backend/middleware/errorHandler.js:109-112 | an unknown route is an operational 404 "fail" whose message contains the URL |
| ErrorHandler.ContainsInside | backend/middleware/errorHandler.js:110 | a text contains anything placed inside it |
| ErrorHandler.ProductionClassification | backend/middleware/errorHandler.js:80-94 | in production cast, duplicate-key and validation errors are 400 "fail" and the token errors 401 with their fixed messages, all without a stack |
| ErrorHandler.PlainErrorIs500 | backend/middleware/errorHandler.js:76-99 | a plain error is a 500 everywhere; production hides its message and stack, development shows both |
| ErrorHandler.AppErrorPassesThrough | backend/middleware/errorHandler.js:44-73 | an operational application error is sent with its own code and message, with a stack iff not in production |
| ErrorHandler.MissingDetailsThrow | backend/middleware/errorHandler.js:19-31 | a duplicate-key error without key values or a validation error without errors makes the production handler throw |
| UserRoutes.BuildUpdate | backend/routes/userRoutes.js:20-33 | the update always sets the payment method; an M-Pesa body sets exactly the four M-Pesa fields besides it |
| UserRoutes.SetPaymentDetails | backend/routes/userRoutes.js:35-39 | the dotted update writes the sent sub-fields and keeps every other payment sub-field and every other part of the user |
| UserRoutes.SwitchKeepsOldMethodFields | backend/routes/userRoutes.js:20-39 | after saving M-Pesa details and then bank details the method is bank, but the old M-Pesa fields are still stored beside the bank ones |
| UserRoutes.UpsertedUser | backend/routes/userRoutes.js:35-39 | a user created by the upsert has the caller's clerkId, only the payment details, the buyer role and no email |
| UserRoutes.SavePaymentDetails | backend/routes/userRoutes.js:7-46 | only the caller's user changes: an existing one gets the update; a missing one is created unless another user already lacks an email, in which case the unique index makes it a 500 that changes nothing |
| ProtectedRoute.Guard | frontend/src/components/ProtectedRoute.jsx:6-24 | while loading the page waits; a signed-out visitor goes to login; the children render iff signed in, admin when the route is admin-only, and verified when it requires verification |
| ProtectedRoute.DefaultsNeedOnlyAuthentication | frontend/src/components/ProtectedRoute.jsx:6 | with the default flags the children render iff loading is over and the visitor is signed in |
| ProtectedRoute.AdminCheckBeforeVerification | frontend/src/components/ProtectedRoute.jsx:15-21 | a signed-in non-admin on an admin-only route sees Not Found, whatever the verification requirement |
| ProtectedRoute.VerificationRedirect | frontend/src/components/ProtectedRoute.jsx:19-21 | the redirect to profile verification happens iff a signed-in visitor who passes the admin check is unverified on a route that requires verification |
| InspectionPeriod.RemainingAt | frontend/src/pages/InspectionPeriod.jsx:22-27 | without an end date three days remain; with one the remaining time is the positive difference, 0 once passed; an unparsable end gives NaN |
| InspectionPeriod.Tick | frontend/src/pages/InspectionPeriod.jsx:38-42 | a minute tick takes a minute off, never going below 0; NaN stays NaN; an unset countdown becomes 0 |
| InspectionPeriod.Page.constructor | frontend/src/pages/InspectionPeriod.jsx:10-12 | the page starts unloaded, with no countdown, accept disabled and no buttons shown |
| InspectionPeriod.Page.Load | frontend/src/pages/InspectionPeriod.jsx:14-33 | an axios reply has no `ok` property, so the fetch never sets the transaction or the countdown, and a thrown request is only logged: the page stays on "Loading..." and shows no buttons |
| InspectionPeriod.Page.MinuteTick | frontend/src/pages/InspectionPeriod.jsx:37-43 | each minute the countdown ticks and accept is enabled iff it reached 0; the page stays unloaded, so after any sequence of fetches and ticks no button shows |
| InspectionPeriod.TicksNeverIncrease | frontend/src/pages/InspectionPeriod.jsx:38-42 | the countdown never goes up, and once at 0 it stays there |
| InspectionPeriod.TicksReachZero | frontend/src/pages/InspectionPeriod.jsx:38-42 | after as many minutes as the time remaining, `canAccept` holds, although the unloaded page never renders the buttons it would enable |
| InspectionPeriod.TickNShift | frontend/src/pages/InspectionPeriod.jsx:37-43 | n ticks are one tick followed by n - 1 more |
| InspectionPeriod.UnparsableNeverExpires | frontend/src/pages/InspectionPeriod.jsx:23-42 | with an unparsable end date the countdown stays NaN and accept is never enabled |
| InspectionPeriod.FormatTimeAddsUp | frontend/src/pages/InspectionPeriod.jsx:48-53 | for every time, the floor divisions `formatTime` makes give hours under 24 and minutes under 60 that, with the days, add up to the time to within a minute |
| InspectionPeriod.FormatTime | frontend/src/pages/InspectionPeriod.jsx:48-53 | the shown days, hours under 24 and minutes under 60 add up to the time remaining to within a minute |
| InspectionPeriod.AcceptAsset | frontend/src/pages/InspectionPeriod.jsx:55-70 | only a reply whose `ok` is truthy accepts the asset, a thrown request shows the error notice, and an axios reply (no `ok` property) always shows the failure notice |
| DealForm.PriceFilterMatchesPattern | frontend/src/components/DealForm.jsx:13-19 | the digit-and-dot filter the price handler applies admits a string exactly when it matches `^\d*\.?\d{0,2}$`: digits, at most one dot, at most two digits after it |
| DealForm.FilterImpliesShape | frontend/src/components/DealForm.jsx:13-19 | a price the filter admits has the shape of `^\d*\.?\d{0,2}$` |
| DealForm.SplitPassesFilter | frontend/src/components/DealForm.jsx:13-19 | any split into digits, an optional dot and at most two digits gives a price the filter admits |
| DealForm.DigitRunHasNoDot | frontend/src/components/DealForm.jsx:16 | a run of digits contains no dot, so the dot the pattern allows is the first one |
| DealForm.DigitRunsJoin | frontend/src/components/DealForm.jsx:16 | two runs of digits side by side are one run of digits |
| DealForm.PriceFilterExamples | frontend/src/components/DealForm.jsx:15-18 | "12.50" is admitted and "12.505", with a third decimal, is refused |
| DealForm.Form.constructor | frontend/src/components/DealForm.jsx:4 | the form starts from the form data its parent passes in |
| DealForm.Form.HandleChange | frontend/src/components/DealForm.jsx:5-11 | the named field takes the event's file when there is one and its value otherwise; every other field is kept |
| DealForm.Form.HandlePriceChange | frontend/src/components/DealForm.jsx:13-19 | an admitted keystroke replaces only the price; a refused one leaves the form data unchanged |
| DealForm.Form.SelectRole | frontend/src/components/DealForm.jsx:51 | the role select sets only the role |
| DealForm.Form.SelectAssetType | frontend/src/components/DealForm.jsx:66 | the asset-type select sets only the asset type |
| DealForm.Form.SelectTerms | frontend/src/components/DealForm.jsx:124 | the terms select sets only the terms |
| DealForm.FilteredPriceStaysInShape | frontend/src/components/DealForm.jsx:13-19 | whatever keystroke arrives, a price field that was in the pattern's shape stays in it |
| Onboarding.Validate | frontend/src/pages/Onboarding.jsx:29-39 | a role message iff no role, an asset message iff no asset type, a price message iff the price is empty, not a number, not positive or above 100000, and then the over-limit message exactly when it is above the limit |
| Onboarding.PriceMessagesExclusive | frontend/src/pages/Onboarding.jsx:35-37 | no price is both unusable and over the limit, so at most one of the two price messages applies |
| Onboarding.AcceptedForm | frontend/src/pages/Onboarding.jsx:29-39 | the form passes iff role and asset type are chosen and the price is a number greater than 0 and at most 100000 |
| Onboarding.Page.constructor | frontend/src/pages/Onboarding.jsx:13-19 | role, asset type and price start empty, with no errors, nothing stored and no navigation |
| Onboarding.Page.HandleChange | frontend/src/pages/Onboarding.jsx:22-27 | the named field takes the value, every other field is kept, and all errors are cleared |
| Onboarding.Page.HandleSubmit | frontend/src/pages/Onboarding.jsx:41-55 | with errors the errors are shown and nothing else happens; a valid form from a visitor who is not signed in is stored as the pending submission and the page goes to the login; a signed-in user's valid form changes nothing |
| BuyerConfirmation.Validate | frontend/src/pages/BuyerConfirmation.jsx:25-36 | a message for a title, a description or a price that is missing, and for a price that is not a number greater than 0; a contact message exactly when the contact is neither an email address nor a 10-to-15-digit number; each key carries the page's own message for it; no other key |
| BuyerConfirmation.EmailAccepted | frontend/src/pages/BuyerConfirmation.jsx:32 | an ordinary address is accepted as a contact |
| BuyerConfirmation.PhoneAccepted | frontend/src/pages/BuyerConfirmation.jsx:32 | an international number with a leading `+` is accepted as a contact |
| BuyerConfirmation.ContactRefused | frontend/src/pages/BuyerConfirmation.jsx:32 | a seven-digit number and an address without a dotted domain are refused |
| BuyerConfirmation.Page.constructor | frontend/src/pages/BuyerConfirmation.jsx:4-15 | the form starts with asset type "Domain", terms "single", empty text fields and no proof, and with no errors |
| BuyerConfirmation.Page.HandleChange | frontend/src/pages/BuyerConfirmation.jsx:17-23 | a file input stores its first file and any other input its value; the other fields, the errors and the submitted payload are kept |
| BuyerConfirmation.Page.HandleSubmit | frontend/src/pages/BuyerConfirmation.jsx:38-55 | the submit goes through iff every field passes; then the payload is the form with status "PENDING_PAYMENT"; otherwise the errors are shown and nothing is submitted |
| FormChecks.EmailValidNotBlank | frontend/src/pages/Signup.jsx:59 | an address the email pattern accepts is never blank and has nothing to trim |
| FormChecks.EmailExamples | frontend/src/pages/TransactionSummary.jsx:37 | an ordinary address is accepted and one with two `@` signs is refused |
| FormChecks.KenyanPhoneDigits | frontend/src/pages/TransactionSummary.jsx:38 | every number the Kenyan pattern accepts is `+` and twelve digits that start with 254 |
| FormChecks.WithCountryCode | frontend/src/pages/TransactionSummary.jsx:41-44 | the normalised number is all digits and starts with 254, and a number that already starts with 254 is kept as it is |
| FormChecks.LocalPrefixReplaced | frontend/src/pages/TransactionSummary.jsx:41-42 | a digit string `07…` or `01…` has its leading 0 replaced by 254 |
| FormChecks.DigitsAfterPlus | frontend/src/pages/SellerPaymentSetup.jsx:24 | collecting the digits of `+` and a run of digits gives back that run |
| FormChecks.ValidatePassword | frontend/src/pages/Signup.jsx:25-33 | the password is valid iff it is at least 8 long, has a lower and an upper case letter, and has a digit or one of `!@#$%^&*` |
| FormChecks.PasswordValidExtends | frontend/src/pages/ResetPassword.jsx:16-24 | a valid password stays valid whatever is typed after it |
| FormChecks.PasswordValidHasThreeKinds | frontend/src/pages/Signup.jsx:25-33 | a valid password has at least three different characters |
| FormChecks.PasswordExamples | frontend/src/pages/Signup.jsx:25-33 | "Passw0rd" is valid; "password1", "Pa1" and "Password" each fail exactly the one rule they break |
| TransactionSummary.EscrowFee | frontend/src/pages/TransactionSummary.jsx:31 | the fee is half a percent of the price rounded to the nearest shilling, halves rounded up |
| TransactionSummary.HalfFee | frontend/src/pages/TransactionSummary.jsx:32 | each party's share is half the fee rounded to the nearest shilling, halves rounded up |
| TransactionSummary.FeeSplit | frontend/src/pages/TransactionSummary.jsx:31-34 | buyer's payment less seller's receipt is two shares, which cover the fee and exceed it by at most one shilling; the seller never receives less than 0 or more than the price |
| TransactionSummary.PageFeeIsTwiceServerFee | frontend/src/pages/TransactionSummary.jsx:31 | the page's 0.5% fee is not the server's 0.25%: at price 100 the page shows 1 where the server stores 0, and on multiples of 400 the page's fee is exactly twice the server's |
| TransactionSummary.Normalize | frontend/src/pages/TransactionSummary.jsx:40-46 | the normalised phone is `+254` followed by digits only, at most 13 characters in all |
| TransactionSummary.NormalizeIdempotent | frontend/src/pages/TransactionSummary.jsx:40-46 | normalising a normalised number changes nothing |
| TransactionSummary.AcceptedNumbersAreNormal | frontend/src/pages/TransactionSummary.jsx:38-46 | a number the Kenyan pattern accepts is already in normal form |
| TransactionSummary.CutKeepsCountryCode | frontend/src/pages/TransactionSummary.jsx:40-46 | keeping at most the first twelve digits of a number that starts with 254 keeps it all digits and starting with 254 |
| TransactionSummary.PlusInFront | frontend/src/pages/TransactionSummary.jsx:40-46 | a `+` put in front of digits starting with 254 gives a string starting with `+254` followed only by digits |
| TransactionSummary.LocalNumberPrefixed | frontend/src/pages/TransactionSummary.jsx:40-46 | the digits of a local `07…` or `01…` number get 254 in place of the leading 0 |
| TransactionSummary.LocalNumberDigits | frontend/src/pages/TransactionSummary.jsx:40-46 | a local number made of `0`, a 7 or a 1, and digits is all digits, so no character is dropped |
| TransactionSummary.InternationalFormAccepted | frontend/src/pages/TransactionSummary.jsx:38 | `+254`, a 7 or a 1 and eight digits is a number the page's pattern accepts |
| TransactionSummary.LocalNumberNormalized | frontend/src/pages/TransactionSummary.jsx:40-46 | a ten-digit local number `07…` or `01…` becomes `+254` and its last nine digits, which the pattern accepts |
| TransactionSummary.LongNumberCut | frontend/src/pages/TransactionSummary.jsx:45 | the digits after the twelfth are cut off |
| TransactionSummary.SpaceRunStart | frontend/src/pages/TransactionSummary.jsx:84 | the run of white space the pattern's `\s*` takes before a position: all of it is white space and it cannot be extended to the left |
| TransactionSummary.IndexFrom | frontend/src/pages/TransactionSummary.jsx:84 | the position found holds the character and none before it from the start point does; no position means the character does not occur from there on |
| TransactionSummary.StripParenGroup | frontend/src/pages/TransactionSummary.jsx:84 | with no `(` followed later by a `)` the terms are unchanged; otherwise at least the two brackets are removed |
| TransactionSummary.LowerCaseTermsKept | frontend/src/pages/TransactionSummary.jsx:84 | terms in lower-case letters, such as `single`, are sent as they are |
| TransactionSummary.NoteDropped | frontend/src/pages/TransactionSummary.jsx:84 | a label followed by a space and a bracketed note loses the note and the space, so `Staged (Milestones)` is sent as `staged` |
| TransactionSummary.FirstParenAfterLabel | frontend/src/pages/TransactionSummary.jsx:84 | in a label, a space and a bracketed note, the first `(` is the note's |
| TransactionSummary.ParenClosesAfterNote | frontend/src/pages/TransactionSummary.jsx:84 | the first `)` after the note's `(` is the one that ends the note |
| TransactionSummary.SpaceBeforeNote | frontend/src/pages/TransactionSummary.jsx:84 | when the label does not end in white space, the white space the pattern removes before the note is the single space |
| TransactionSummary.DraftFields | frontend/src/pages/TransactionSummary.jsx:77-89 | the draft part of the request carries the sent terms and the role as saved, and no contact field of either party |
| TransactionSummary.RequestBody | frontend/src/pages/TransactionSummary.jsx:77-89 | a buyer's request carries the email and phone as the seller's and has no buyer contact fields, any other role's request carries them as the buyer's; the terms are sent lower-cased without the bracketed note, and the role as given |
| TransactionSummary.CounterpartyGetsContact | frontend/src/pages/TransactionSummary.jsx:77-89 | for the roles buyer and seller the pending party the server records carries the email and phone typed on the page; for any other role the server's pending seller has no email and no phone |
| TransactionSummary.SummaryForm.constructor | frontend/src/pages/TransactionSummary.jsx:11-14 | email and phone start empty, the box unticked and no messages |
| TransactionSummary.SummaryForm.EmailChange | frontend/src/pages/TransactionSummary.jsx:48-53 | the email is stored, its message set exactly when the address is invalid, and the box unticked; the phone is kept |
| TransactionSummary.SummaryForm.PhoneChange | frontend/src/pages/TransactionSummary.jsx:55-65 | the normalised phone is stored, its message set exactly when it fails the Kenyan pattern, and the box unticked; the email is kept |
| TransactionSummary.SummaryForm.ToggleAgree | frontend/src/pages/TransactionSummary.jsx:222-223 | a click on the box flips it exactly when email and phone are valid and leaves it otherwise; the box is never ticked over invalid inputs |
| TransactionSummary.SummaryForm.StartShown | frontend/src/pages/TransactionSummary.jsx:232 | the start button only appears when email and phone are valid |
| SellerPaymentSetup.NormalizePayout | frontend/src/pages/SellerPaymentSetup.jsx:23-33 | the normalised number is `+254` followed by digits only, and no digit of the input is lost: there is no cut after twelve digits |
| SellerPaymentSetup.NormalizePayoutIdempotent | frontend/src/pages/SellerPaymentSetup.jsx:23-33 | normalising a normalised number changes nothing |
| SellerPaymentSetup.NormalizersAgreeOnValidNumbers | frontend/src/pages/SellerPaymentSetup.jsx:35-38 | on every number this page accepts, its normaliser and the summary page's give the same result, which the Kenyan pattern accepts |
| SellerPaymentSetup.NormalizersDifferOnLongNumbers | frontend/src/pages/SellerPaymentSetup.jsx:23-38 | with more than twelve digits after normalisation the two pages' normalisers give different numbers, and this page refuses the number |
| SellerPaymentSetup.EmptyPhoneRefused | frontend/src/pages/SellerPaymentSetup.jsx:23-38 | an empty phone box normalises to the bare `+254` and is refused |
| SellerPaymentSetup.AsValues | frontend/src/pages/SellerPaymentSetup.jsx:61-64 | every form field becomes a request value holding the same text, and no other key appears |
| SellerPaymentSetup.PaymentData | frontend/src/pages/SellerPaymentSetup.jsx:61-76 | the request holds the method and every form field, a form field named like the method overriding it; for M-Pesa the phone is replaced by its normal form |
| SellerPaymentSetup.MpesaSaveStoresNormalPhone | frontend/src/pages/SellerPaymentSetup.jsx:67-88 | an accepted M-Pesa save updates exactly the method and the M-Pesa fields on the server, with the normalised phone, which the Kenyan pattern accepts; the bank fields the form carries are not stored |
| SellerPaymentSetup.Page.constructor | frontend/src/pages/SellerPaymentSetup.jsx:11-21 | no method chosen, the seven fields empty and no messages |
| SellerPaymentSetup.Page.SelectMethod | frontend/src/pages/SellerPaymentSetup.jsx:110-112 | the select sets only the method |
| SellerPaymentSetup.Page.HandleInputChange | frontend/src/pages/SellerPaymentSetup.jsx:40-55 | the field takes the value; its message is cleared if it had one, and a phone that is not accepted sets the phone message again |
| SellerPaymentSetup.Page.HandleSave | frontend/src/pages/SellerPaymentSetup.jsx:57-98 | for M-Pesa the request is sent iff the four fields are filled and the phone is accepted, with the fields message before the phone message; for a bank transfer iff the three bank fields are filled; with any other method it is always sent; what is sent is the payment data |
| PaymentInvoice.FormatPhone | frontend/src/pages/PaymentInvoice.jsx:137-144 | white space is removed, and a number that then starts with 0 has the 0 replaced by 254; any other number is kept as cleaned |
| PaymentInvoice.ValidNumbersFormatInternational | frontend/src/pages/PaymentInvoice.jsx:130-144 | a number the Safaricom check accepts is formatted as 254 followed by 7 or 1 and eight digits, which with a `+` in front is the Kenyan form the other pages accept |
| PaymentInvoice.FormatIdempotentOnValid | frontend/src/pages/PaymentInvoice.jsx:137-144 | formatting an accepted number twice gives what formatting it once gives |
| PaymentInvoice.InternationalNumberSentAsTyped | frontend/src/pages/PaymentInvoice.jsx:130-144 | a number already written as 254 and a subscriber number is accepted and sent unchanged |
| PaymentInvoice.Total | frontend/src/pages/PaymentInvoice.jsx:175 | the amount pushed is the amount plus the escrow fee: the `amount * 0.00` VAT term adds nothing |
| PaymentInvoice.BalanceDiffersFromTotal | frontend/src/pages/PaymentInvoice.jsx:421 | the Balance line exceeds the pushed total by 16% of the amount, and so differs from it for every positive amount |
| PaymentInvoice.Controls | frontend/src/pages/PaymentInvoice.jsx:285-331 | the "complete payment" button is on show exactly while a push is pending, and a paid invoice shows no payment button |
| PaymentInvoice.Payment.constructor | frontend/src/pages/PaymentInvoice.jsx:18-22 | the phone box starts at 254723881433, with no message, the status idle and no checkout id |
| PaymentInvoice.Payment.PhoneChange | frontend/src/pages/PaymentInvoice.jsx:146-156 | the number is stored; the message is shown exactly when the number is non-empty and not accepted; status and checkout id are kept |
| PaymentInvoice.Payment.SendStkPush | frontend/src/pages/PaymentInvoice.jsx:158-192 | an unaccepted number only sets the message and sends nothing; an accepted one sends the formatted number, the total and the transaction id, then waits with the checkout id when the push is accepted and fails otherwise |
| PaymentInvoice.Payment.CompleteTransaction | frontend/src/pages/PaymentInvoice.jsx:194-225 | the invoice is marked paid exactly when there is a non-empty checkout id and the query answers success with status "success"; every other answer, and a missing or empty id, leaves the status as it was |
| PaymentInvoice.Payment.TryAgain | frontend/src/pages/PaymentInvoice.jsx:321-324 | "Try Again" returns to idle and forgets the checkout id, keeping the phone and its message |
| Signup.ValidateForm | frontend/src/pages/Signup.jsx:73-119 | the form passes iff the email matches the pattern, the password meets the three rules, the confirmation is non-empty and equal to it, and both boxes are ticked; each failing check has its own key, with the "required" message for a blank email, an empty password and the mismatch message for a differing confirmation |
| Signup.OptionalText | frontend/src/pages/Signup.jsx:155-157 | a blank field is sent as `undefined`, any other field as its trimmed text |
| Signup.Page.constructor | frontend/src/pages/Signup.jsx:11-20 | every field empty, both boxes unticked and no messages |
| Signup.Page.EmailChange | frontend/src/pages/Signup.jsx:63-71 | the email is stored and its message set exactly when it is non-empty and fails the pattern; the other fields are kept |
| Signup.Page.PasswordChange | frontend/src/pages/Signup.jsx:38-47 | the password is stored and the rule flags shown are those of the new password |
| Signup.Page.ConfirmChange | frontend/src/pages/Signup.jsx:49-56 | the confirmation is stored and the mismatch message shown exactly when it is non-empty and differs from the password |
| Signup.Page.ToggleTerms | frontend/src/pages/Signup.jsx:295 | the terms box flips and nothing else changes |
| Signup.Page.ToggleLocal | frontend/src/pages/Signup.jsx:306 | the local-use box flips and nothing else changes |
| Signup.Page.Submit | frontend/src/pages/Signup.jsx:121-158 | the messages are those of the form check, and a sign-up request is made iff it passes, with the email, the password and `undefined` names and phone, since the page has no inputs for them |
| Signup.Page.GoogleSignup | frontend/src/pages/Signup.jsx:179-194 | the Google redirect happens iff both boxes are ticked; the email and password are not checked |
| ResetPassword.ValidateForm | frontend/src/pages/ResetPassword.jsx:48-59 | the fields pass iff both are filled and equal; a password message iff the password is empty, a confirmation message iff the confirmation is empty or differs from a filled password; the password rules are not consulted |
| ResetPassword.IsFormValidMissesLaterMismatch | frontend/src/pages/ResetPassword.jsx:61-65 | `isFormValid` holds for "Passw0rdx" and "Passw0rd": the confirmation message is computed when the confirmation is typed, so a later change to the password is not caught |
| ResetPassword.Page.constructor | frontend/src/pages/ResetPassword.jsx:10-14 | both fields empty and no messages |
| ResetPassword.Page.PasswordChange | frontend/src/pages/ResetPassword.jsx:29-37 | the password is stored and the rule flags shown are those of the new password |
| ResetPassword.Page.ConfirmChange | frontend/src/pages/ResetPassword.jsx:39-46 | the confirmation is stored and flagged exactly when it is non-empty and differs from the password |
| ResetPassword.Page.FormValid | frontend/src/pages/ResetPassword.jsx:61-65 | when the flag holds, the current password meets the three rules |
| ResetPassword.Page.Submit | frontend/src/pages/ResetPassword.jsx:68-84 | the new password is sent iff a user is signed in and the two fields are filled and equal; a weak password that matches is sent, since the rules are not checked |
| VerifyProfile.StepFields | frontend/src/pages/VerifyProfile.jsx:64-112 | the inputs each step renders are fields of the form, text, file or checkbox |
| VerifyProfile.ShapedUpdate | frontend/src/pages/VerifyProfile.jsx:52-57 | storing an entry of the kind its input gives keeps every field of the form of its kind |
| VerifyProfile.EmptyForm | frontend/src/pages/VerifyProfile.jsx:20-45 | the form without a saved draft has every field of its kind and every entry empty, unchosen or unticked |
| VerifyProfile.ActualAge | frontend/src/pages/VerifyProfile.jsx:71-75 | the age is the number of birthdays passed: the latest one is not after today and the next one is; the age is at least 18 exactly when the eighteenth birthday is not after today |
| VerifyProfile.IdFormatsDisjoint | frontend/src/pages/VerifyProfile.jsx:88-93 | no number matches two of the national ID, passport and driver's licence formats |
| VerifyProfile.ProfilePhoneCoversOtherForms | frontend/src/pages/VerifyProfile.jsx:81 | every number the invoice page's Safaricom check or the Kenyan `+254` pattern accepts is also accepted here, and with a leading `+` this check and the Kenyan pattern agree |
| VerifyProfile.MpesaNumberStricterThanInvoice | frontend/src/pages/VerifyProfile.jsx:105 | every M-Pesa number accepted here is accepted by the invoice page, but a `2541…` number the invoice page accepts is refused here |
| VerifyProfile.FieldStep | frontend/src/pages/VerifyProfile.jsx:64-112 | no field is rendered on two steps: a field belongs to exactly the step this names, or to none |
| VerifyProfile.PersonalReadsOwnFields | frontend/src/pages/VerifyProfile.jsx:67-83 | the first step's verdict does not change when a field of another step changes |
| VerifyProfile.IdentityReadsOwnFields | frontend/src/pages/VerifyProfile.jsx:84-95 | the second step's verdict does not change when a field of another step changes |
| VerifyProfile.PayoutReadsOwnFields | frontend/src/pages/VerifyProfile.jsx:96-108 | the third step's verdict does not change when a field of another step changes |
| VerifyProfile.PersonalErrors | frontend/src/pages/VerifyProfile.jsx:67-83 | a name message iff the name is blank; a date-of-birth message iff it is empty ("required") or the age is below 18 ("at least 18"); a phone message iff it is blank ("required") or fails the pattern once spaces are removed ("valid Kenyan"); no message at all exactly when the name, the date of birth and the phone pass |
| VerifyProfile.IdentityErrors | frontend/src/pages/VerifyProfile.jsx:84-95 | a type message iff no type is chosen; a number message iff the number is blank or fails the chosen type's format, with the "required" and per-format messages; no message at all exactly when the identity step passes |
| VerifyProfile.PayoutErrors | frontend/src/pages/VerifyProfile.jsx:96-108 | a method message iff no method is chosen; for a bank a message for each blank bank field; for M-Pesa a message iff the number is blank or fails `2547` and eight digits; no field of the other method is flagged; no message at all exactly when the payout step passes |
| VerifyProfile.ConsentErrors | frontend/src/pages/VerifyProfile.jsx:109-112 | a message for each consent not given, and none exactly when both are given |
| VerifyProfile.StepErrors | frontend/src/pages/VerifyProfile.jsx:64-116 | a step passes iff its messages are empty, iff its checks hold, and only the step's own fields are flagged |
| VerifyProfile.Progress | frontend/src/pages/VerifyProfile.jsx:125 | the progress bar is a quarter per step, and full exactly on step 4 |
| VerifyProfile.BodyOf | frontend/src/pages/VerifyProfile.jsx:138 | every text field is sent as its string and every checkbox as its boolean |
| VerifyProfile.FilledTextSent | frontend/src/pages/VerifyProfile.jsx:138 | a filled-in text field reaches the server as a truthy string |
| VerifyProfile.ConsentSent | frontend/src/pages/VerifyProfile.jsx:109-112 | both consents given on the form reach the server as truthy values |
| VerifyProfile.PayoutSent | frontend/src/pages/VerifyProfile.jsx:96-108 | a payout step that passes sends its method as typed, the three bank fields the server asks for when the method is bank, and a truthy M-Pesa number when it is mpesa |
| VerifyProfile.WizardFormPassesServer | frontend/src/pages/VerifyProfile.jsx:127-140 | a form that passes all four steps also passes the server's verify-profile checks |
| VerifyProfile.ServerSkipsIdFormat | backend/routes/authRoutes.js:177-193 | the server accepts a form that passes steps 1, 3 and 4 and has any non-empty ID type and number, whatever the number's format |
| VerifyProfile.IdentityEditKeepsOtherSteps | frontend/src/pages/VerifyProfile.jsx:250-273 | typing an ID type and number on step 2 keeps the form well formed and leaves the verdicts of steps 1, 3 and 4 unchanged |
| VerifyProfile.EnterAtIdentityStepSendsBadId | frontend/src/pages/VerifyProfile.jsx:127-140 | a form that reached step 4, taken back to step 2 with a passport and the number "12345678", still passes steps 1, 3 and 4, so Enter sends it; it fails the passport format and the server accepts it |
| VerifyProfile.ChangeValue | frontend/src/pages/VerifyProfile.jsx:52-57 | a checkbox stores its state, a file input its first file if one is chosen, any other input its value |
| VerifyProfile.Wizard.constructor | frontend/src/pages/VerifyProfile.jsx:10-45 | a visit starts at step 1 with no messages, from the saved draft or the empty form |
| VerifyProfile.EarlierStepsUnaffected | frontend/src/pages/VerifyProfile.jsx:52-62 | a change to a field one step renders leaves the checks of every earlier step with the same verdict |
| VerifyProfile.Wizard.HandleChange | frontend/src/pages/VerifyProfile.jsx:52-62 | the field takes the event's entry, its message is cleared if it had one, and every earlier step still passes |
| VerifyProfile.Wizard.ValidateStep | frontend/src/pages/VerifyProfile.jsx:64-116 | the step's messages replace the old ones, and the step passes iff there are none |
| VerifyProfile.Wizard.NextStep | frontend/src/pages/VerifyProfile.jsx:118-122 | the wizard moves forward exactly when the current step passes, and otherwise stays |
| VerifyProfile.Wizard.PrevStep | frontend/src/pages/VerifyProfile.jsx:123 | "Back" moves one step back and changes nothing else |
| VerifyProfile.Wizard.Submit | frontend/src/pages/VerifyProfile.jsx:127-140 | from any step (the Submit button of step 4, or Enter in the single text box of step 2 or 3) only the consents are checked again and the form is sent iff both are given; a sent form passes exactly the steps already left behind, and one sent from step 4 passes the server's checks |
| Transact.GetTimeLeft | frontend/src/pages/Transact.jsx:30-38 | a deadline that does not parse gives all zeros; otherwise the total is the milliseconds to the deadline, and before the deadline the parts are a day count and clock readings below 24 hours, 60 minutes and 60 seconds, after it all parts are at most zero |
| Transact.TimeLeftAddsUp | frontend/src/pages/Transact.jsx:30-38 | before the deadline the days, hours, minutes and seconds add up to the time left, to within the milliseconds below a second |
| Transact.Percent | frontend/src/pages/Transact.jsx:150-158 | the bar is at most full, full exactly for a completed deal, and empty for any status off the normal lifecycle |
| Transact.PercentGrowsAlongLifecycle | frontend/src/pages/Transact.jsx:150-158 | along pending payment, funded, delivered and completed the bar strictly grows |
| Transact.ActionStatus | frontend/src/pages/Transact.jsx:106-126 | no action sets the pending status, and every action but cancel sets a later lifecycle status |
| Transact.Visible | frontend/src/pages/Transact.jsx:160-163 | an administrator, and anybody on a completed, cancelled or expired deal, sees no action; a buyer never sees "deliver" and a seller sees at most "deliver" |
| Transact.VisibleActionsAdvance | frontend/src/pages/Transact.jsx:280-318 | a cancel on show ends a pending deal with an empty bar; any other action on show moves the deal exactly one lifecycle step on and the bar up |
| Transact.Round | frontend/src/pages/Transact.jsx:135 | the rounded value is within a half of the real one, halves rounded up |
| Transact.EffectiveRate | frontend/src/pages/Transact.jsx:146-147 | a missing or zero rate reads as 2.5%, any other rate is used as given |
| Transact.CalcEscrowFee | frontend/src/pages/Transact.jsx:135 | the fee is the price times the rate, to within a half |
| Transact.TotalAmount | frontend/src/pages/Transact.jsx:136 | the total is the price plus the fee, and not below the price for a non-negative price and rate |
| Transact.RealQuotientFloor | frontend/src/pages/Transact.jsx:135 | the floor of a real quotient of integers is their integer quotient |
| Transact.DefaultFeeIsOneFortieth | frontend/src/pages/Transact.jsx:146 | at the default rate the fee is a fortieth of the price, rounded to the nearest shilling |
| Transact.FeesOfThePagesOrdered | frontend/src/pages/Transact.jsx:146 | for every price this page's 2.5% fee is at least the summary page's 0.5% fee, which is at least the server's 0.25% fee, and from a price of 200 this page's fee is strictly more |
| Transact.Page.constructor | frontend/src/pages/Transact.jsx:41-46 | a loaded page views the deal as the buyer, with no dialog open and no countdown yet |
| Transact.Page.SelectRole | frontend/src/pages/Transact.jsx:198 | the "View as" select changes only the role |
| Transact.Page.Tick | frontend/src/pages/Transact.jsx:83-92 | the countdown is refreshed; a pending deal whose deadline has passed, or does not parse, expires; no other status is changed |
| Transact.Page.Open | frontend/src/pages/Transact.jsx:280-316 | a button on show opens its confirmation and nothing else changes |
| Transact.Page.Close | frontend/src/pages/Transact.jsx:360-388 | the dialog closes and nothing else changes |
| Transact.Page.ConfirmAction | frontend/src/pages/Transact.jsx:106-132 | the dialog's action sets its status, whatever the status has become since, and the dialog closes |
| Transactions.Capitalize | frontend/src/pages/Transactions.jsx:41 | the text keeps its length, its first character is upper-cased and the rest is kept |
| Transactions.CardStatus | frontend/src/pages/Transactions.jsx:41 | a card's status starts with a capital letter and otherwise reads as the server's status name |
| Transactions.ToCard | frontend/src/pages/Transactions.jsx:29-44 | a card carries the row's id, title and asset type, the role "Seller" or "Buyer" from the row's seller flag, the capitalised status, and needs action exactly when the status is agreement or payment |
| Transactions.ToCards | frontend/src/pages/Transactions.jsx:29-44 | one card per row, in the listing's order |
| Transactions.OpenAndClosedMatchNoCard | frontend/src/pages/Transactions.jsx:154-160 | no card made from the listing matches the "Open" or "Closed" filter, so both choices empty the list |
| Transactions.Filtered | frontend/src/pages/Transactions.jsx:149-169 | the cards shown are exactly those that pass the filter and the search, kept in the list's order |
| Transactions.ContainsEmpty | frontend/src/pages/Transactions.jsx:162-165 | every text contains the empty search |
| Transactions.EmptySearchShowsTextCards | frontend/src/pages/Transactions.jsx:149-169 | with "All" and an empty search box a card is shown iff its title, id or asset type is text |
| Transactions.CardFoundByItsId | frontend/src/pages/Transactions.jsx:162-165 | a card made from a row with an id is found by searching for that id |
| Transactions.MergeUpdate | frontend/src/pages/Transactions.jsx:70-76 | the patch is merged into every card with the event's id, the other cards stay as they were, and the list keeps its length |
| Transactions.MergeUpdateIdempotent | frontend/src/pages/Transactions.jsx:70-76 | an update that does not rename its cards can arrive twice without changing the list again |
| Transactions.Page.constructor | frontend/src/pages/Transactions.jsx:143-146 | no cards, the filter "All" and an empty search |
| Transactions.Page.Visible | frontend/src/pages/Transactions.jsx:149-169 | the cards on show are some of the cards, in their order |
| Transactions.Page.Load | frontend/src/pages/Transactions.jsx:18-57 | a listing whose amounts are all numbers replaces the cards with one card per row; a failed request, or a row whose amount is NaN (null on the page, so the mapping throws), leaves them |
| Transactions.Page.SetFilter | frontend/src/pages/Transactions.jsx:202 | the filter select changes only the filter |
| Transactions.Page.SetSearch | frontend/src/pages/Transactions.jsx:226 | the search box changes only the search |
| Transactions.Page.Created | frontend/src/pages/Transactions.jsx:63-68 | the event's transaction goes first, as sent; it is shown first iff it passes the filter and search, and the cards on show are otherwise unchanged |
| Transactions.Page.Updated | frontend/src/pages/Transactions.jsx:70-76 | the event's patch is merged into the cards with its id |

## Left out

- Rendering is not modelled: JSX, styling, animations and the PDF layout of the invoice (frontend/src/pages/PaymentInvoice.jsx:45-128), along with `window.print`. None of it decides anything the model states.
- HTTP calls made with axios or fetch are not modelled. The reply a page receives, or the fact that the request failed, is a method parameter. The request a page would send is a value that the model returns.
- The Clerk identity provider is not modelled. Token verification, `signUp.create`, Google redirect sign-up and `user.updatePassword` are represented by their outcomes, or by the request the page hands to them. `optionalAuth` (backend/middleware/auth.js:58-88) is left out because no modelled route mounts it.
- The Safaricom STK push and its status query are not modelled. Their replies are parameters to the payment page and to the store's payment steps.
- The Socket.io client plumbing is not modelled: connection objects, reconnection, and the React socket hooks. The server keeps only its room membership and the messages each socket receives.
- Timers and intervals are not modelled. The five-second simulated payment completion in the transaction routes is a separate explicit store step. The countdowns on the inspection and transaction pages are explicit tick methods, and "now" is always a parameter.
- Floating point is modelled only partly. Money is whole shillings. The price field's `toFixed(2)` on blur (frontend/src/components/DealForm.jsx:21-26) is left out. So are `toFixed` and `toLocaleString` display text, and the locale text of dates. The transaction page's rate is a `real`, rounded as `Math.round` rounds.
- NaN is not modelled outside two places: amounts that do not parse, and dates that do not parse, where the source can produce them. Number parsing (`Common.JsNumber`) reads optional sign, digits and one decimal point only: it has no exponent notation, no hexadecimal, binary or octal literals (`Number("0x10")` is 16 in JavaScript) and no `Infinity`, so such text parses as NaN in the model where JavaScript gives a number.
- The schema check `TransactionModel.SchemaValid` demands that every text field hold a string, whereas Mongoose casts a number given for a String path to its decimal text; a document created from a number in such a field is refused by the model where the source stores it.
- The validation library's `isEmail` and `isISO8601` grammars and the browser's `Date` parser are not modelled. Each is a parameter, and the model relies only on the results it is given.
- Unicode is not modelled beyond the characters the source names. Whitespace is limited to the ASCII spaces, and case mapping covers ASCII letters only.
- Database atomicity and concurrency are not modelled. The store handles one request at a time, and the compare-and-set updates are guarded updates.
- The ODM's strict mode is modelled by leaving out of the stored records every key that is not a schema path: release-funds' `paymentDetails.releasedAt`, the disbursement's `disbursedAt` and `disbursedBy`, and the simulations' `simulated` and `simulatedDisbursement`. The wallet summary's query on `paymentDetails.disbursedAt` is taken to match stored paths, as the ODM does by default from version 7 on. Under an older ODM whose `strictQuery` is on, that filter would itself be dropped, and the released total would be the sum over every completed transaction; that variant is not modelled.
- Database failures are not modelled. The route handlers' generic `catch` blocks answer 500 when a query or an update throws. These are in backend/routes/transactionRoutes.js, backend/routes/authRoutes.js, backend/routes/userRoutes.js and backend/routes/adminRoutes.js, and the guards' "Access check failed" is at backend/utils/roleCheck.js:63-66. The model assumes that every store operation succeeds. It models only the failures that the code itself raises: schema validation on creation and on save, and the cast of an unparsable birth date in verify-profile.
- The socket server's `disconnect` handler (backend/utils/socket.js:105-108) is not modelled. It only logs. Socket.io takes a disconnected socket out of its rooms by itself, but in the model a socket stays in every room it joined.
- `catchAsync` (backend/middleware/errorHandler.js:102-106) is not modelled. Handlers return their errors as values, so there is no promise to forward.
- The dispute button on the inspection page (frontend/src/pages/InspectionPeriod.jsx:72-75) is not modelled. It shows a notice and sends nothing.
- Two effects of the verification wizard are not modelled: the redirect of an already verified user (frontend/src/pages/VerifyProfile.jsx:14-19) and the draft autosave to local storage (frontend/src/pages/VerifyProfile.jsx:47-50). The saved draft is a parameter of the wizard's constructor.
- The contents of uploaded files are not modelled; the source never serialises them.
- Security middleware, logging and the server wiring are not modelled. They only configure libraries.
- The socket usage example file is not modelled because it is never mounted.
- The remaining pages are not modelled: TransactionDetails, TransactionProgress, DealDetails, PaymentPage, PaymentConfirmation, AssetTransfer, TransactionComplete, TransactionStart and the App routes. They are presentation around endpoints that other modules model.

## Behaviour of the code as written

Where the code and its intent part ways, the model follows the code. The
model states each of these behaviours as a lemma or as an ensures clause:

- **Escrow fee rates.** Three rates are in use.
  - The server charges `Math.round(amount * 0.0025)`, which is 0.25%, although its comment says 0.5% (`TransactionRoutes.ServerFeeIsQuarterPercent`).
  - The deal summary page charges 0.5% and shows half of it to each party.
  - The transaction page defaults to 2.5%.
  - For every price the three fees are ordered (`Transact.FeesOfThePagesOrdered`). The fee is still computed once, at creation.
- **Payment status.** `initiate-payment` writes the payment status `processing`, which is not in the schema's enum (`TransactionRoutes.ProcessingOutsideEnum`). The write goes through because updates bypass validation.
- **Payment confirmation.** `confirm-payment` has no status guard (`TransactionRoutes.ConfirmFromAnyStatus`).
- **Counterparty.** No route ever sets the counterparty's identity. The party who did not create a deal can therefore never act on it (`TransactionRoutes.PendingSellerNeverTransfers`).
- **Invoice numbers.**
  - A creation that fails still consumes an invoice number, because the counter is bumped before the save.
  - The `INV` number of the model's save hook is never used, because the route sets the invoice number first.
- **Inspection end.** The asset-transfer route never sets the inspection end (`TransactionRoutes.TransferLeavesInspectionEnd`).
- **Verify-profile birth date.** A truthy birth date that does not parse passes the route's own checks. The update then fails its cast to the schema's `Date`, and the route answers 500 (`AuthRoutes.VerifyProfile`).
- **Permission table lookups.** `permissions[action]` also finds the properties that every object inherits. An action such as `constructor` would therefore let every caller through (`RoleCheck.UnknownActionRefused`). No route asks for such an action (`TransactionRoutes.RouteActionsInTable`).
- **Admin routes.** The administrator routes check the role without any authentication in front of them, so they always refuse (`AdminRoutes.AdminRoutesAlwaysRefuse`).
- **Real-time list events.**
  - The transactions list listens for `transaction-created`, which no backend route emits.
  - Its "Open" and "Closed" filters match no card (`Transactions.OpenAndClosedMatchNoCard`).
- **Password reset.** `isFormValid` misses a mismatch introduced after the first check (`ResetPassword.IsFormValidMissesLaterMismatch`).
- **Invoice balance.** The payment invoice's balance line adds 16% to the total (`PaymentInvoice.BalanceDiffersFromTotal`).
- **Phone checks differ by page.**
  - The verification wizard's M-Pesa check is stricter than the invoice page's (`VerifyProfile.MpesaNumberStricterThanInvoice`).
  - The payout page and the summary page normalise long numbers differently (`SellerPaymentSetup.NormalizersDifferOnLongNumbers`).
- **Unparsable deadlines.** On the transaction page, a deadline that does not parse expires a pending deal at the first tick.
- **Confirmation after expiry.** A dialog confirmed after expiry applies its action anyway (`Transact.Page.ConfirmAction`).
- **Inspection page.** The page tests `response.ok`, which an axios reply does not have.
  - Its fetch never sets the transaction, so the page stays on "Loading..." and never shows the accept and dispute buttons (`InspectionPeriod.Page.Load`, `InspectionPeriod.Page.MinuteTick`).
  - Its accept handler shows the failure notice even when the request succeeds (`InspectionPeriod.AcceptAsset`).
- **Released funds.** Release and disbursement name payment-record keys the schema does not declare, so neither the release time nor the disbursement time or admin is stored. The wallet summary's released total is always 0 (`AdminRoutes.ReleasedTotalZero`), and a disbursement takes its amount off the awaiting total without adding it anywhere (`AdminRoutes.DisburseMovesAmount`).
- **Submitting the verification wizard early.** On step 2, and on step 3 with M-Pesa chosen, the form has a single text box and no submit button, so Enter submits it. `handleSubmit` checks only the consents, so a form whose ID number fails its format is sent and accepted by the server (`VerifyProfile.Wizard.Submit`, `VerifyProfile.EnterAtIdentityStepSendsBadId`). Browser constraint validation (the M-Pesa box's `pattern`, the payout select's `required`) is not modelled.
