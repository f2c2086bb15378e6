/**
 * The transaction routes: creation with its invoice number, the guarded
 * lifecycle transitions, the unguarded payment completion, the caller's list,
 * and the development-only compare-and-set simulations.
 */
module TransactionRoutes {
  import opened Common
  import opened TransactionModel
  import opened RoleCheck
  import opened Invoice
  import opened Sorting

  /** A route's answer: a success code, or an error code with its message. */
  datatype Reply = Ok(code: int) | Fail(code: int, error: string)

  // ------------------------------------------------------------------ fees

  /** `Math.round(amount * 0.0025)`: the server's escrow fee, 0.25% of the amount. */
  function ServerEscrowFee(amount: int): (fee: int)
    ensures 800 * fee <= 2 * amount + 400 < 800 * fee + 800
  {
    RoundDiv(amount, 400)
  }

  /**
   * The fee is a quarter of a percent: a thousand shillings pay 3 (2.5
   * rounded up), not the 5 that the "0.5%" in the nearby comment would give.
   */
  lemma ServerFeeIsQuarterPercent(amount: int)
    ensures amount % 400 == 0 ==> ServerEscrowFee(amount) == amount / 400
    ensures ServerEscrowFee(1000) == 3 && RoundDiv(1000, 200) == 5
  {
  }

  // ------------------------------------------------------------------ create

  /** The create request body. `price` and `deadline` are already parsed (`None` for NaN / Invalid Date). */
  datatype CreateBody = CreateBody(
    transactionTitle: JVal, role: JVal, assetType: JVal, assetTitle: JVal, assetDescription: JVal,
    price: Option<int>, terms: JVal, deadline: Option<int>,
    buyerEmail: JVal, buyerContact: JVal, sellerEmail: JVal, sellerContact: JVal)

  /**
   * The creator's display name: first and last name joined and trimmed, or
   * the fallback. The request user carries no payment details, so the
   * payment-details alternative of the source is always absent.
   */
  function CreatorName(caller: AuthUser, fallback: string): (name: string)
    ensures name != ""
    ensures Trim(caller.firstName + " " + caller.lastName) != "" ==> name == Trim(caller.firstName + " " + caller.lastName)
    ensures Trim(caller.firstName + " " + caller.lastName) == "" ==> name == fallback
    requires fallback != ""
  {
    var joined := Trim(caller.firstName + " " + caller.lastName);
    if joined != "" then joined else fallback
  }

  /** `phoneNumber || contact || ''`. */
  function CreatorPhone(caller: AuthUser, contact: JVal): (p: JVal)
    ensures caller.phone != "" ==> p == JStr(caller.phone)
    ensures caller.phone == "" && Truthy(contact) ==> p == contact
    ensures caller.phone == "" && !Truthy(contact) ==> p == JStr("")
  {
    if caller.phone != "" then JStr(caller.phone) else if Truthy(contact) then contact else JStr("")
  }

  /** `role === 'seller'`: the only value that makes the creator the seller. */
  predicate CreatorIsSeller(body: CreateBody) { body.role == JStr("seller") }

  /** The creator's party record, and the counterparty known only by contact details. */
  function Parties(body: CreateBody, caller: AuthUser): (p: (Party, Party))
    ensures CreatorIsSeller(body) ==> (p.0.clerkId == Some(caller.clerkId)
      && p.1 == Party(None, body.buyerEmail, JStr("Pending Buyer"), body.buyerContact))
    ensures !CreatorIsSeller(body) ==> (p.1.clerkId == Some(caller.clerkId)
      && p.0 == Party(None, body.sellerEmail, JStr("Pending Seller"), body.sellerContact))
  {
    if CreatorIsSeller(body) then
      (Party(Some(caller.clerkId), JStr(caller.email), JStr(CreatorName(caller, "Seller")), CreatorPhone(caller, body.sellerContact)),
       Party(None, body.buyerEmail, JStr("Pending Buyer"), body.buyerContact))
    else
      (Party(None, body.sellerEmail, JStr("Pending Seller"), body.sellerContact),
       Party(Some(caller.clerkId), JStr(caller.email), JStr(CreatorName(caller, "Buyer")), CreatorPhone(caller, body.buyerContact)))
  }

  /** `transactionData`, built from the body, the caller and the invoice number. */
  function CreateData(body: CreateBody, caller: AuthUser, invoiceNumber: string): (d: TransactionData)
    ensures d.amount == body.price && d.invoiceNumber == Some(invoiceNumber)
    ensures body.price.Some? ==> d.escrowFee == Some(ServerEscrowFee(body.price.value))
    ensures body.price.None? ==> d.escrowFee.None?
    ensures (d.seller, d.buyer) == Parties(body, caller)
  {
    var (seller, buyer) := Parties(body, caller);
    TransactionData(body.transactionTitle, body.assetDescription, body.assetType, body.assetTitle,
      body.price, if body.price.Some? then Some(ServerEscrowFee(body.price.value)) else None,
      body.terms, body.deadline, Some(invoiceNumber), seller, buyer)
  }

  /** The document `save()` would store: defaults, then both save hooks. */
  function CreatedDocument(body: CreateBody, caller: AuthUser, invoiceNumber: string,
                           now: nat, idSuffix: string, invoiceSuffix: string): Transaction
  {
    IdHook(StampHook(NewTransaction(CreateData(body, caller, invoiceNumber), now), now), true, now, idSuffix, invoiceSuffix)
  }

  /** The unique indexes on transactionId and invoiceNumber would reject `t`. */
  predicate Clashes(docs: seq<Transaction>, t: Transaction)
  {
    exists k :: 0 <= k < |docs| && (docs[k].transactionId == t.transactionId || docs[k].invoiceNumber == t.invoiceNumber)
  }

  /** Both unique indexes hold and every stored document has an id. */
  predicate UniqueKeys(docs: seq<Transaction>)
  {
    && (forall k :: 0 <= k < |docs| ==> docs[k].transactionId.Some?)
    && (forall i, j :: 0 <= i < j < |docs| ==>
          docs[i].transactionId != docs[j].transactionId && docs[i].invoiceNumber != docs[j].invoiceNumber)
  }

  // ------------------------------------------------------------------ guarded routes

  /** The guarded routes under `/:id`. */
  datatype Route =
    | PutStatus(status: JVal)
    | InitiatePayment(paymentMethod: JVal)
    | ConfirmPayment
    | TransferAsset(transferMethod: JVal, recipientInfo: JVal, notes: JVal)
    | AcceptAsset
    | ReleaseFunds
    | RaiseDispute(reason: JVal)

  datatype Call = Call(caller: AuthUser, id: string, route: Route, now: nat)

  /** The action each route asks `checkTransactionAccess` for. */
  function ActionOf(r: Route): string
  {
    match r
    case PutStatus(_) => "update"
    case InitiatePayment(_) => "fund"
    case ConfirmPayment => "view"
    case TransferAsset(_, _, _) => "transfer"
    case AcceptAsset => "accept"
    case ReleaseFunds => "accept"
    case RaiseDispute(_) => "dispute"
  }

  /**
   * Every route asks for an action of the permission table, so no route
   * reaches the names the table object inherits.
   */
  lemma RouteActionsInTable(r: Route)
    ensures ActionOf(r) in Actions && ActionOf(r) !in InheritedNames
  {
  }

  /** The status allow-list each route checks, if any. */
  function AllowedOf(r: Route): Option<seq<Status>>
  {
    match r
    case InitiatePayment(_) => Some([Agreement])
    case TransferAsset(_, _, _) => Some([Transfer])
    case AcceptAsset => Some([Inspection])
    case ReleaseFunds => Some([Inspection])
    case _ => None
  }

  /** The six values the status route accepts. */
  const SettableStatuses: seq<string> := ["agreement", "payment", "transfer", "inspection", "completed", "cancelled"]

  datatype Gate = Pass(index: nat, isSeller: bool, isBuyer: bool) | Stop(halt: Halt)

  /**
   * What the two guards demand of a request: the transaction exists, the
   * caller's part in it (or the admin role) is permitted the route's action,
   * and its status is on the route's allow-list when the route has one.
   */
  predicate Admitted(docs: seq<Transaction>, c: Call)
  {
    && Find(docs, c.id).Some?
    && var t := docs[Find(docs, c.id).value];
    && Permitted(ActionOf(c.route), IsParty(t.seller, c.caller), IsParty(t.buyer, c.caller), c.caller.role == JStr("admin"))
    && (AllowedOf(c.route).Some? ==> t.status in AllowedOf(c.route).value)
  }

  /** `after` differs from `before` at most at index `i`. */
  predicate OthersKept(before: seq<Transaction>, after: seq<Transaction>, i: nat)
  {
    |after| == |before| && forall k :: 0 <= k < |before| && k != i ==> after[k] == before[k]
  }

  /** The access check, then the status check when the route has one. */
  function GateFor(docs: seq<Transaction>, c: Call): (g: Gate)
    ensures g.Pass? <==> Admitted(docs, c)
    ensures g.Pass? ==> (&& Find(docs, c.id) == Some(g.index)
      && g.isSeller == IsParty(docs[g.index].seller, c.caller)
      && g.isBuyer == IsParty(docs[g.index].buyer, c.caller))
    ensures g.Stop? && Find(docs, c.id).None? ==> g.halt == Halt(404, "Transaction not found")
    ensures g.Stop? && Find(docs, c.id).Some? ==>
      var t := docs[Find(docs, c.id).value];
      if Permitted(ActionOf(c.route), IsParty(t.seller, c.caller), IsParty(t.buyer, c.caller), c.caller.role == JStr("admin"))
      then g.halt.code == 400
      else g.halt == Halt(403, "Not authorized for this action")
  {
    match AccessFor(docs, c.id, c.caller, ActionOf(c.route))
    case NoSuchTransaction => Stop(Halt(404, "Transaction not found"))
    case Forbidden => Stop(Halt(403, "Not authorized for this action"))
    case Granted(i, s, b) =>
      if AllowedOf(c.route).Some? && StatusGate(docs[i].status, AllowedOf(c.route).value).Some?
      then Stop(StatusGate(docs[i].status, AllowedOf(c.route).value).value)
      else Pass(i, s, b)
  }

  /** initiate-payment: status `payment`, paymentStatus `processing`, method and reference. */
  function StartPayment(t: Transaction, paymentMethod: JVal, now: nat): Transaction
  {
    t.(status := Payment, paymentStatus := PayProcessing,
       paymentDetails := t.paymentDetails.(paymentMethod := paymentMethod, reference := Some("PAY-" + NatToString(now))))
  }

  /** confirm-payment and the delayed completion: paid, and on to `transfer`. */
  function FinishPayment(t: Transaction, now: int): Transaction
  {
    t.(paymentStatus := PayCompleted, paymentDetails := t.paymentDetails.(completedAt := Some(now)), status := Transfer)
  }

  /** transfer-asset: status `inspection` and a replaced transferDetails sub-record. */
  function RecordTransfer(t: Transaction, transferMethod: JVal, recipientInfo: JVal, notes: JVal, now: int): Transaction
  {
    t.(status := Inspection, transferDetails := TransferDetails(transferMethod, recipientInfo, notes, Some(now)))
  }

  function AcceptUpdate(t: Transaction, now: int): Transaction
  {
    t.(status := Completed, completedAt := Some(now))
  }

  /** release-funds: the status; its `paymentDetails.releasedAt` is not a schema path and is dropped. */
  function ReleaseUpdate(t: Transaction): Transaction
  {
    t.(status := AwaitingAdminPayout)
  }

  function DisputeUpdate(t: Transaction, isSeller: bool, reason: JVal, now: int): Transaction
  {
    t.(dispute := Dispute(true, Some(if isSeller then "seller" else "buyer"), reason, DisputeOpen, Some(now)))
  }

  /** The update a passing request applies to the matched document. */
  function Apply(t: Transaction, c: Call, isSeller: bool): Transaction
    requires c.route.PutStatus? ==> c.route.status.JStr? && ParseStatus(c.route.status.s).Some?
  {
    match c.route
    case PutStatus(s) => t.(status := ParseStatus(s.s).value)
    case InitiatePayment(m) => StartPayment(t, m, c.now)
    case ConfirmPayment => FinishPayment(t, c.now)
    case TransferAsset(m, ri, n) => RecordTransfer(t, m, ri, n, c.now)
    case AcceptAsset => AcceptUpdate(t, c.now)
    case ReleaseFunds => ReleaseUpdate(t)
    case RaiseDispute(reason) => DisputeUpdate(t, isSeller, reason, c.now)
  }

  /** `allowedStatuses.includes(status)`: a string among the six. */
  predicate Settable(v: JVal) { v.JStr? && v.s in SettableStatuses }

  lemma SettableParses(v: JVal)
    requires Settable(v)
    ensures ParseStatus(v.s).Some?
  {
  }

  /** One guarded request: its reply and the collection afterwards. */
  function Handle(docs: seq<Transaction>, c: Call): (res: (Reply, seq<Transaction>))
    ensures |res.1| == |docs|
    ensures res.0.Ok? <==> Admitted(docs, c) && (c.route.PutStatus? ==> Settable(c.route.status))
    ensures res.0.Fail? ==> res.1 == docs
    ensures res.0.Ok? ==> Find(docs, c.id).Some? && OthersKept(docs, res.1, Find(docs, c.id).value)
  {
    match GateFor(docs, c)
    case Stop(h) => (Fail(h.code, h.error), docs)
    case Pass(i, s, _) =>
      if c.route.PutStatus? && !Settable(c.route.status) then (Fail(400, "Invalid status"), docs)
      else if c.route.PutStatus? then
        SettableParses(c.route.status);
        (Ok(200), docs[i := Apply(docs[i], c, s)])
      else
        (Ok(200), docs[i := Apply(docs[i], c, s)])
  }

  // ------------------------------------------------------------------ unguarded updates

  /** The completion that initiate-payment schedules: by id, with no status condition. */
  function CompleteScheduled(docs: seq<Transaction>, id: string, now: int): (r: seq<Transaction>)
    ensures |r| == |docs|
    ensures Find(docs, id).None? ==> r == docs
    ensures Find(docs, id).Some? ==> OthersKept(docs, r, Find(docs, id).value)
  {
    match Find(docs, id)
    case None => docs
    case Some(i) => docs[i := FinishPayment(docs[i], now)]
  }

  /** The three development-only simulations. */
  datatype Simulation = SimulatePayment | SimulateTransfer | SimulateDisbursement

  /** The status a simulation requires (its compare-and-set condition). */
  function Expected(s: Simulation): Status
  {
    match s
    case SimulatePayment => Payment
    case SimulateTransfer => Transfer
    case SimulateDisbursement => AwaitingAdminPayout
  }

  /**
   * What each simulation stores. The `simulated` and `simulatedDisbursement`
   * flags and the disbursement's `disbursedAt` and `disbursedBy` are not
   * schema paths and are dropped.
   */
  function Simulated(t: Transaction, s: Simulation, now: int): Transaction
  {
    match s
    case SimulatePayment =>
      t.(status := Transfer, paymentStatus := PayCompleted,
         paymentDetails := t.paymentDetails.(completedAt := Some(now)))
    case SimulateTransfer =>
      t.(status := Inspection,
         transferDetails := TransferDetails(JStr("simulated"), JStr("Test transfer"), JStr("Simulated asset transfer"), Some(now)))
    case SimulateDisbursement =>
      t.(status := Completed, completedAt := Some(now))
  }

  function SimulationError(s: Simulation): string
  {
    match s
    case SimulatePayment => "Transaction not found or not in payment stage"
    case SimulateTransfer => "Transaction not found or not in transfer stage"
    case SimulateDisbursement => "Transaction not found or not awaiting payout"
  }

  /** `findOneAndUpdate({transactionId, status: expected}, ...)`, and 404 when nothing matches. */
  function Simulate(docs: seq<Transaction>, id: string, s: Simulation, now: int): (res: (Reply, seq<Transaction>))
    ensures |res.1| == |docs|
    ensures res.0.Fail? ==> res.1 == docs && res.0 == Fail(404, SimulationError(s))
    ensures res.0.Ok? ==> Find(docs, id).Some? && OthersKept(docs, res.1, Find(docs, id).value)
  {
    match Find(docs, id)
    case Some(i) =>
      if docs[i].status == Expected(s) then (Ok(200), docs[i := Simulated(docs[i], s, now)])
      else (Fail(404, SimulationError(s)), docs)
    case None => (Fail(404, SimulationError(s)), docs)
  }

  // ------------------------------------------------------------------ listing

  datatype Summary = Summary(
    id: Option<string>, title: JVal, assetType: JVal, amount: Option<int>,
    status: Status, paymentStatus: PaymentStatus, createdAt: int, isSeller: bool)

  predicate Involves(t: Transaction, clerkId: string)
  {
    t.seller.clerkId == Some(clerkId) || t.buyer.clerkId == Some(clerkId)
  }

  function Mine(docs: seq<Transaction>, clerkId: string): (r: seq<Transaction>)
    ensures forall k :: 0 <= k < |r| ==> Involves(r[k], clerkId)
    ensures multiset(r) <= multiset(docs)
  {
    if docs == [] then []
    else
      var rest := Mine(docs[1..], clerkId);
      assert docs == [docs[0]] + docs[1..];
      if Involves(docs[0], clerkId) then [docs[0]] + rest else rest
  }

  function CreatedAtKey(t: Transaction): int { t.createdAt }

  function Summarize(t: Transaction, clerkId: string): Summary
  {
    Summary(t.transactionId, t.title, t.assetType, t.amount, t.status, t.paymentStatus, t.createdAt,
            t.seller.clerkId == Some(clerkId))
  }

  /** GET `/`: the caller's transactions, newest first, each with its isSeller flag. */
  function ListFor(docs: seq<Transaction>, clerkId: string): (r: seq<Summary>)
    ensures |r| == |Mine(docs, clerkId)|
  {
    var sorted := SortDesc(Mine(docs, clerkId), CreatedAtKey);
    SortDescProperties(Mine(docs, clerkId), CreatedAtKey);
    seq(|sorted|, k requires 0 <= k < |sorted| => Summarize(sorted[k], clerkId))
  }

  /**
   * GET `/:id`: the `currentUserRole` it reports after view access is
   * granted, `None` when access is refused.
   */
  function ViewerRole(docs: seq<Transaction>, id: string, caller: AuthUser): (r: Option<string>)
    ensures r.Some? <==> AccessFor(docs, id, caller, "view").Granted?
    ensures r == Some("seller") <==> (Find(docs, id).Some? && IsParty(docs[Find(docs, id).value].seller, caller))
  {
    match AccessFor(docs, id, caller, "view")
    case Granted(_, isSeller, _) => Some(if isSeller then "seller" else "buyer")
    case _ => None
  }

  // ------------------------------------------------------------------ the store

  /** The transactions collection and the invoice counters it draws numbers from. */
  class EscrowStore {
    var docs: seq<Transaction>
    const counters: InvoiceCounters

    ghost predicate Valid()
      reads this
    {
      UniqueKeys(docs)
    }

    constructor (counters: InvoiceCounters)
      ensures Valid() && docs == [] && this.counters == counters
    {
      docs := [];
      this.counters := counters;
    }

    /** `getNextInvoiceNumber()`: bump the "invoice" counter and format its new value. */
    method NextInvoiceNumber() returns (number: string)
      modifies counters
      ensures counters.seqs == old(counters.seqs)[InvoiceCounter := old(counters.Current(InvoiceCounter)) + 1]
      ensures number == FormatInvoice(old(counters.Current(InvoiceCounter)) + 1)
    {
      var value := counters.IncrementAndGet(InvoiceCounter);
      number := FormatInvoice(value);
    }

    /**
     * POST `/`: the invoice number is drawn first, so a creation that then
     * fails validation or a unique index still consumes it.
     */
    method Create(caller: AuthUser, body: CreateBody, now: nat, idSuffix: string, invoiceSuffix: string)
      returns (r: Reply, createdId: Option<string>)
      requires Valid()
      modifies this, counters
      ensures Valid()
      ensures counters.seqs == old(counters.seqs)[InvoiceCounter := old(counters.Current(InvoiceCounter)) + 1]
      ensures var t := CreatedDocument(body, caller, FormatInvoice(old(counters.Current(InvoiceCounter)) + 1),
                                       now, idSuffix, invoiceSuffix);
        if SchemaValid(t) && !Clashes(old(docs), t) then
          r == Ok(201) && createdId == t.transactionId && docs == old(docs) + [t]
        else
          r == Fail(500, "Failed to create transaction") && createdId == None && docs == old(docs)
    {
      var invoiceNumber := NextInvoiceNumber();
      var data := CreateData(body, caller, invoiceNumber);
      var document := new TransactionDocument(data, now);
      document.RunSaveHooks(now, idSuffix, invoiceSuffix);
      var t := document.doc;
      assert t == CreatedDocument(body, caller, invoiceNumber, now, idSuffix, invoiceSuffix);
      if !SchemaValid(t) || Clashes(docs, t) {
        r, createdId := Fail(500, "Failed to create transaction"), None;
        return;
      }
      assert t.transactionId.Some?;
      docs := docs + [t];
      r, createdId := Ok(201), t.transactionId;
    }

    /** The guard chain of a route, run on a request object as the middleware does. */
    method RunGuards(c: Call) returns (g: Gate)
      ensures g == GateFor(docs, c)
    {
      var req := new Request(c.caller, c.id);
      var halt := req.CheckTransactionAccess(docs, ActionOf(c.route));
      var a := AccessFor(docs, c.id, c.caller, ActionOf(c.route));
      if halt.Some? {
        return Stop(halt.value);
      }
      var allowed := AllowedOf(c.route);
      if allowed.Some? {
        halt := req.CheckTransactionStatus(allowed.value);
        if halt.Some? {
          return Stop(halt.value);
        }
      }
      g := Pass(a.index, a.isSeller, a.isBuyer);
    }

    /** A guarded route: guards, then the field update of the matched document. */
    method Serve(c: Call) returns (r: Reply)
      requires Valid()
      modifies this
      ensures Valid()
      ensures (r, docs) == Handle(old(docs), c)
    {
      var g := RunGuards(c);
      if g.Stop? {
        r := Fail(g.halt.code, g.halt.error);
        return;
      }
      if c.route.PutStatus? && !Settable(c.route.status) {
        r := Fail(400, "Invalid status");
        return;
      }
      if c.route.PutStatus? {
        SettableParses(c.route.status);
      }
      var t := Apply(docs[g.index], c, g.isSeller);
      KeysKept(docs, g.index, t);
      docs := docs[g.index := t];
      r := Ok(200);
    }

    /** The payment completion initiate-payment schedules, taken as a separate step. */
    method CompleteScheduledPayment(id: string, now: int)
      requires Valid()
      modifies this
      ensures Valid()
      ensures docs == CompleteScheduled(old(docs), id, now)
    {
      var i := Find(docs, id);
      if i.Some? {
        KeysKept(docs, i.value, FinishPayment(docs[i.value], now));
        docs := docs[i.value := FinishPayment(docs[i.value], now)];
      }
    }

    /** A development-only simulation endpoint. */
    method RunSimulation(id: string, s: Simulation, now: int) returns (r: Reply)
      requires Valid()
      modifies this
      ensures Valid()
      ensures (r, docs) == Simulate(old(docs), id, s, now)
    {
      var i := Find(docs, id);
      if i.None? || docs[i.value].status != Expected(s) {
        r := Fail(404, SimulationError(s));
        return;
      }
      KeysKept(docs, i.value, Simulated(docs[i.value], s, now));
      docs := docs[i.value := Simulated(docs[i.value], s, now)];
      r := Ok(200);
    }
  }

  /** Replacing a document by one with the same keys keeps both unique indexes. */
  lemma KeysKept(docs: seq<Transaction>, i: nat, t: Transaction)
    requires UniqueKeys(docs) && i < |docs|
    requires t.transactionId == docs[i].transactionId && t.invoiceNumber == docs[i].invoiceNumber
    ensures UniqueKeys(docs[i := t])
  {
  }

  // ------------------------------------------------------------------ properties

  /** Rewriting a document without touching its id leaves every lookup where it was. */
  lemma FindStable(docs: seq<Transaction>, i: nat, t: Transaction, id: string)
    requires i < |docs| && t.transactionId == docs[i].transactionId
    ensures Find(docs[i := t], id) == Find(docs, id)
  {
    FindSameIds(docs[i := t], docs, id);
  }

  /**
   * The document a creation stores: in `agreement`, payment pending, the
   * creator's clerkId on exactly one side, the route's six-digit invoice
   * number (the hook's `INV...` fallback never applies) and a generated `ET` id.
   */
  lemma CreatedDocumentShape(body: CreateBody, caller: AuthUser, n: nat, now: nat, idSuffix: string, invoiceSuffix: string)
    ensures var t := CreatedDocument(body, caller, FormatInvoice(n), now, idSuffix, invoiceSuffix);
      && t.status == Agreement && t.paymentStatus == PayPending
      && t.invoiceNumber == Some(FormatInvoice(n))
      && t.transactionId == Some("ET" + NatToString(now) + Upper(idSuffix))
      && t.createdAt == now && t.updatedAt == now && t.inspectionPeriodEnd.None?
      && (CreatorIsSeller(body) <==> t.seller.clerkId == Some(caller.clerkId))
      && (CreatorIsSeller(body) <==> t.buyer.clerkId.None?)
      && !t.dispute.raised
  {
  }

  /** A request that gets through names a document its caller may act on, in an allowed status. */
  lemma SuccessNeedsPermission(docs: seq<Transaction>, c: Call)
    requires Handle(docs, c).0.Ok?
    ensures Find(docs, c.id).Some?
    ensures var t := docs[Find(docs, c.id).value];
      && Permitted(ActionOf(c.route), IsParty(t.seller, c.caller), IsParty(t.buyer, c.caller), c.caller.role == JStr("admin"))
      && (AllowedOf(c.route).Some? ==> t.status in AllowedOf(c.route).value)
  {
    var a := AccessFor(docs, c.id, c.caller, ActionOf(c.route));
    assert a.Granted?;
  }

  /** Only the buyer of a transaction in `agreement` can start its payment. */
  lemma FundOnlyByBuyerInAgreement(docs: seq<Transaction>, c: Call)
    requires c.route.InitiatePayment? && Handle(docs, c).0.Ok?
    ensures var t := docs[Find(docs, c.id).value];
      IsParty(t.buyer, c.caller) && t.status == Agreement
  {
    SuccessNeedsPermission(docs, c);
  }

  /** Only the seller of a transaction in `transfer` can record the asset transfer. */
  lemma TransferOnlyBySellerInTransfer(docs: seq<Transaction>, c: Call)
    requires c.route.TransferAsset? && Handle(docs, c).0.Ok?
    ensures var t := docs[Find(docs, c.id).value];
      IsParty(t.seller, c.caller) && t.status == Transfer
  {
    SuccessNeedsPermission(docs, c);
  }

  /**
   * confirm-payment has no status guard and needs only view access: any party,
   * or an admin, moves a transaction in any status (a completed one included)
   * back to `transfer` with its payment marked completed.
   */
  lemma ConfirmFromAnyStatus(docs: seq<Transaction>, c: Call)
    requires c.route.ConfirmPayment?
    requires Find(docs, c.id).Some?
    requires var t := docs[Find(docs, c.id).value];
      IsParty(t.seller, c.caller) || IsParty(t.buyer, c.caller) || c.caller.role == JStr("admin")
    ensures var i := Find(docs, c.id).value;
      && Handle(docs, c) == (Ok(200), docs[i := FinishPayment(docs[i], c.now)])
      && Handle(docs, c).1[i].status == Transfer && Handle(docs, c).1[i].paymentStatus == PayCompleted
  {
  }

  /**
   * Accept and release both require `inspection` and both leave it, so once
   * either succeeds the other is refused: 400 for a party allowed the action,
   * 403 for anyone else.
   */
  lemma AcceptReleaseExclusive(docs: seq<Transaction>, c1: Call, c2: Call)
    requires c1.route.AcceptAsset? || c1.route.ReleaseFunds?
    requires c2.route.AcceptAsset? || c2.route.ReleaseFunds?
    requires c1.id == c2.id
    requires Handle(docs, c1).0.Ok?
    ensures Handle(Handle(docs, c1).1, c2).0.Fail?
    ensures Handle(Handle(docs, c1).1, c2).1 == Handle(docs, c1).1
    ensures Handle(Handle(docs, c1).1, c2).0.code in {400, 403}
  {
    ClosesInspection(docs, c1, c2);
    GateOutsideAllowed(Handle(docs, c1).1, c2);
  }

  /**
   * initiate-payment writes status `payment`, payment status `processing`,
   * the sent method and the reference `PAY-` and the time, and keeps every
   * other field of the document and every other document.
   */
  lemma InitiateStartsPayment(docs: seq<Transaction>, c: Call)
    requires c.route.InitiatePayment? && Handle(docs, c).0.Ok?
    ensures var i := Find(docs, c.id).value;
      var pd := docs[i].paymentDetails;
      Handle(docs, c).1 == docs[i := docs[i].(status := Payment, paymentStatus := PayProcessing,
        paymentDetails := pd.(paymentMethod := c.route.paymentMethod, reference := Some("PAY-" + NatToString(c.now))))]
    ensures var r := Handle(docs, c).1[Find(docs, c.id).value].paymentDetails.reference.value;
      r[..4] == "PAY-" && AllDigits(r[4..]) && DigitsValue(r[4..]) == c.now
  {
    var i := Find(docs, c.id).value;
    var r := "PAY-" + NatToString(c.now);
    assert Handle(docs, c).1[i].paymentDetails.reference == Some(r);
    assert r[4..] == NatToString(c.now);
    NatToStringValue(c.now);
  }

  /**
   * transfer-asset writes status `inspection` and a new transfer record
   * holding the sent method, recipient and notes and the time; every other
   * field, the inspection end included, is kept.
   */
  lemma TransferRecordsDetails(docs: seq<Transaction>, c: Call)
    requires c.route.TransferAsset? && Handle(docs, c).0.Ok?
    ensures var i := Find(docs, c.id).value;
      Handle(docs, c).1 == docs[i := docs[i].(status := Inspection,
        transferDetails := TransferDetails(c.route.transferMethod, c.route.recipientInfo, c.route.notes, Some(c.now)))]
  {
  }

  /** accept-asset writes status `completed` and the completion time, and nothing else. */
  lemma AcceptCompletes(docs: seq<Transaction>, c: Call)
    requires c.route.AcceptAsset? && Handle(docs, c).0.Ok?
    ensures var i := Find(docs, c.id).value;
      Handle(docs, c).1 == docs[i := docs[i].(status := Completed, completedAt := Some(c.now))]
  {
  }

  /**
   * release-funds stores status `awaiting_admin_payout` and nothing else:
   * the release time it names is not a schema path, so the payment record
   * is kept as it was.
   */
  lemma ReleaseAwaitsPayout(docs: seq<Transaction>, c: Call)
    requires c.route.ReleaseFunds? && Handle(docs, c).0.Ok?
    ensures var i := Find(docs, c.id).value;
      Handle(docs, c).1 == docs[i := docs[i].(status := AwaitingAdminPayout)]
    ensures var i := Find(docs, c.id).value;
      Handle(docs, c).1[i].paymentDetails == docs[i].paymentDetails
  {
  }

  /**
   * A successful accept or release moves the document out of `inspection`,
   * the one status a later accept or release of it would need.
   */
  lemma ClosesInspection(docs: seq<Transaction>, c: Call, next: Call)
    requires c.route.AcceptAsset? || c.route.ReleaseFunds?
    requires next.route.AcceptAsset? || next.route.ReleaseFunds?
    requires next.id == c.id && Handle(docs, c).0.Ok?
    ensures var after := Handle(docs, c).1;
      && AllowedOf(next.route).Some? && Find(after, next.id).Some?
      && after[Find(after, next.id).value].status !in AllowedOf(next.route).value
  {
    ClosedStatus(docs, c);
    assert AllowedOf(next.route) == Some([Inspection]);
  }

  /** The document an accept or release wrote, in its new status, with its id kept. */
  lemma ClosedStatus(docs: seq<Transaction>, c: Call)
    requires (c.route.AcceptAsset? || c.route.ReleaseFunds?) && Handle(docs, c).0.Ok?
    ensures var i := Find(docs, c.id).value;
      var after := Handle(docs, c).1;
      && Find(after, c.id) == Some(i)
      && (after[i].status == Completed || after[i].status == AwaitingAdminPayout)
  {
    var i := Find(docs, c.id).value;
    if c.route.AcceptAsset? {
      AcceptCompletes(docs, c);
    } else {
      ReleaseAwaitsPayout(docs, c);
    }
    FindStable(docs, i, Handle(docs, c).1[i], c.id);
  }

  /** A route with a status check fails, with 400 or 403 and no change, on a document in any other status. */
  lemma GateOutsideAllowed(docs: seq<Transaction>, c: Call)
    requires AllowedOf(c.route).Some? && Find(docs, c.id).Some?
    requires docs[Find(docs, c.id).value].status !in AllowedOf(c.route).value
    ensures Handle(docs, c).0.Fail? && Handle(docs, c).0.code in {400, 403} && Handle(docs, c).1 == docs
  {
    var g := GateFor(docs, c);
    assert g.Stop? && g.halt.code in {400, 403};
  }

  /**
   * transfer-asset writes with an update that skips the save hooks, so the
   * inspection end date stays whatever it was (never set, on a fresh document).
   */
  lemma TransferLeavesInspectionEnd(docs: seq<Transaction>, c: Call)
    requires c.route.TransferAsset? && Handle(docs, c).0.Ok?
    ensures var i := Find(docs, c.id).value;
      Handle(docs, c).1[i].inspectionPeriodEnd == docs[i].inspectionPeriodEnd
      && Handle(docs, c).1[i].status == Inspection
  {
    var i := Find(docs, c.id).value;
    assert Handle(docs, c).1 == docs[i := RecordTransfer(docs[i], c.route.transferMethod, c.route.recipientInfo, c.route.notes, c.now)];
  }

  /**
   * initiate-payment stores the payment status `processing`, which the schema
   * enum does not list: the document it leaves behind would fail validation on
   * its next full save.
   */
  lemma ProcessingOutsideEnum(docs: seq<Transaction>, c: Call)
    requires c.route.InitiatePayment? && Handle(docs, c).0.Ok?
    ensures var i := Find(docs, c.id).value;
      Handle(docs, c).1[i].paymentStatus == PayProcessing && !SchemaValid(Handle(docs, c).1[i])
  {
  }

  /**
   * The status route accepts exactly the six listed names. It can neither
   * reach `awaiting_admin_payout` nor `disputed`, and it imposes no order: any
   * party (or an admin) may set any of the six from any current status.
   */
  lemma PutStatusRules(docs: seq<Transaction>, c: Call)
    requires c.route.PutStatus? && GateFor(docs, c).Pass?
    ensures Handle(docs, c).0.Ok? <==> Settable(c.route.status)
    ensures !Settable(c.route.status) ==> Handle(docs, c).0 == Fail(400, "Invalid status")
    ensures Settable(c.route.status) ==>
      var i := Find(docs, c.id).value;
      Handle(docs, c).1[i] == docs[i].(status := ParseStatus(c.route.status.s).value)
    ensures c.route.status == JStr("awaiting_admin_payout") || c.route.status == JStr("disputed") ==>
      Handle(docs, c).0.Fail?
  {
  }

  /** A dispute records who raised it and leaves the transaction status alone. */
  lemma DisputeKeepsStatus(docs: seq<Transaction>, c: Call)
    requires c.route.RaiseDispute? && Handle(docs, c).0.Ok?
    ensures var i := Find(docs, c.id).value;
      var t := Handle(docs, c).1[i];
      && t.status == docs[i].status
      && t.dispute.raised && t.dispute.status == DisputeOpen
      && t.dispute.raisedBy == Some(if IsParty(docs[i].seller, c.caller) then "seller" else "buyer")
  {
  }

  /** Each simulation succeeds at most once on a document: the second attempt is a 404 that changes nothing. */
  lemma SimulationOnce(docs: seq<Transaction>, id: string, s: Simulation, now1: int, now2: int)
    requires Simulate(docs, id, s, now1).0.Ok?
    ensures var after := Simulate(docs, id, s, now1).1;
      Simulate(after, id, s, now2) == (Fail(404, SimulationError(s)), after)
  {
    var i := Find(docs, id).value;
    FindStable(docs, i, Simulated(docs[i], s, now1), id);
  }

  /** A simulation succeeds exactly when the id exists and the document is in the expected status. */
  lemma SimulationCondition(docs: seq<Transaction>, id: string, s: Simulation, now: int)
    ensures Simulate(docs, id, s, now).0.Ok? <==>
      (Find(docs, id).Some? && docs[Find(docs, id).value].status == Expected(s))
    ensures Simulate(docs, id, s, now).0.Fail? ==> Simulate(docs, id, s, now).1 == docs
  {
  }

  /**
   * The scheduled completion carries no status condition: whatever happened
   * in the five seconds before it (a cancellation, say), the transaction ends
   * up in `transfer` with its payment completed.
   */
  lemma ScheduledCompletionUnconditional(docs: seq<Transaction>, id: string, now: int)
    requires Find(docs, id).Some?
    ensures var i := Find(docs, id).value;
      CompleteScheduled(docs, id, now)[i].status == Transfer
      && CompleteScheduled(docs, id, now)[i].paymentStatus == PayCompleted
  {
  }

  /** Any later event against the stored transactions. */
  datatype Event =
    | Request(call: Call)
    | Completion(id: string, at: int)
    | Simulation(id: string, kind: Simulation, at: int)

  function Step(docs: seq<Transaction>, e: Event): (r: seq<Transaction>)
    ensures |r| == |docs|
  {
    match e
    case Request(c) => Handle(docs, c).1
    case Completion(id, at) => CompleteScheduled(docs, id, at)
    case Simulation(id, kind, at) => Simulate(docs, id, kind, at).1
  }

  function Run(docs: seq<Transaction>, events: seq<Event>): (r: seq<Transaction>)
    ensures |r| == |docs|
    decreases |events|
  {
    if events == [] then docs else Run(Step(docs, events[0]), events[1..])
  }

  predicate SameParties(a: Transaction, b: Transaction)
  {
    a.seller == b.seller && a.buyer == b.buyer && a.transactionId == b.transactionId
  }

  lemma HandleKeepsParties(docs: seq<Transaction>, c: Call)
    ensures forall k :: 0 <= k < |docs| ==> SameParties(Handle(docs, c).1[k], docs[k])
  {
    if Handle(docs, c).0.Ok? {
      var i := GateFor(docs, c).index;
      assert Handle(docs, c).1 == docs[i := Apply(docs[i], c, GateFor(docs, c).isSeller)];
    }
  }

  lemma CompleteKeepsParties(docs: seq<Transaction>, id: string, at: int)
    ensures forall k :: 0 <= k < |docs| ==> SameParties(CompleteScheduled(docs, id, at)[k], docs[k])
  {
  }

  lemma SimulateKeepsParties(docs: seq<Transaction>, id: string, kind: Simulation, at: int)
    ensures forall k :: 0 <= k < |docs| ==> SameParties(Simulate(docs, id, kind, at).1[k], docs[k])
  {
  }

  /** No event changes a document's id or either party. */
  lemma StepKeepsParties(docs: seq<Transaction>, e: Event)
    ensures forall k :: 0 <= k < |docs| ==> SameParties(Step(docs, e)[k], docs[k])
  {
    match e
    case Request(c) => HandleKeepsParties(docs, c);
    case Completion(id, at) => CompleteKeepsParties(docs, id, at);
    case Simulation(id, kind, at) => SimulateKeepsParties(docs, id, kind, at);
  }

  /**
   * Nothing in the routes ever fills in the counterparty: whatever happens,
   * each document keeps the parties and the id it was created with.
   */
  lemma {:induction false} PartiesNeverChange(docs: seq<Transaction>, events: seq<Event>)
    ensures forall k :: 0 <= k < |docs| ==>
      && Run(docs, events)[k].seller == docs[k].seller && Run(docs, events)[k].buyer == docs[k].buyer
      && Run(docs, events)[k].transactionId == docs[k].transactionId
    decreases |events|
  {
    if events != [] {
      StepKeepsParties(docs, events[0]);
      PartiesNeverChange(Step(docs, events[0]), events[1..]);
    }
  }

  /** Two collections with the same ids at every position resolve every id to the same place. */
  lemma {:induction false} FindSameIds(a: seq<Transaction>, b: seq<Transaction>, id: string)
    requires |a| == |b| && forall k :: 0 <= k < |a| ==> a[k].transactionId == b[k].transactionId
    ensures Find(a, id) == Find(b, id)
  {
    var x, y := Find(a, id), Find(b, id);
    if x.Some? && y.Some? && x.value != y.value {
      assert false;
    }
  }

  /**
   * A transaction created by its buyer has a seller with no clerkId, and no
   * later event gives it one: every transfer-asset request on it is refused
   * with 403, so the deal can never pass the transfer stage through the guarded routes.
   */
  lemma PendingSellerNeverTransfers(docs: seq<Transaction>, events: seq<Event>, c: Call)
    requires c.route.TransferAsset?
    requires Find(docs, c.id).Some? && docs[Find(docs, c.id).value].seller.clerkId.None?
    ensures Handle(Run(docs, events), c) == (Fail(403, "Not authorized for this action"), Run(docs, events))
  {
    var after := Run(docs, events);
    PartiesNeverChange(docs, events);
    FindSameIds(after, docs, c.id);
    SellerlessRefusesTransfer(after, c);
  }

  /** transfer-asset is for the seller alone, so it is refused on a document with no seller account. */
  lemma SellerlessRefusesTransfer(docs: seq<Transaction>, c: Call)
    requires c.route.TransferAsset?
    requires Find(docs, c.id).Some? && docs[Find(docs, c.id).value].seller.clerkId.None?
    ensures Handle(docs, c) == (Fail(403, "Not authorized for this action"), docs)
  {
    assert AccessFor(docs, c.id, c.caller, ActionOf(c.route)).Forbidden?;
  }

  /** The caller's list is newest first. */
  lemma ListForOrdered(docs: seq<Transaction>, clerkId: string)
    ensures var r := ListFor(docs, clerkId);
      forall i, j :: 0 <= i < j < |r| ==> r[i].createdAt >= r[j].createdAt
  {
    var sorted := SortDesc(Mine(docs, clerkId), CreatedAtKey);
    SortDescProperties(Mine(docs, clerkId), CreatedAtKey);
    var r := ListFor(docs, clerkId);
    assert forall k :: 0 <= k < |r| ==> r[k].createdAt == CreatedAtKey(sorted[k]);
  }

  /** It holds every transaction naming the caller on either side. */
  lemma ListForComplete(docs: seq<Transaction>, clerkId: string)
    ensures forall t :: t in docs && Involves(t, clerkId) ==> Summarize(t, clerkId) in ListFor(docs, clerkId)
  {
    var sorted := SortDesc(Mine(docs, clerkId), CreatedAtKey);
    SortDescProperties(Mine(docs, clerkId), CreatedAtKey);
    var r := ListFor(docs, clerkId);
    MineMembers(docs, clerkId);
    forall t | t in docs && Involves(t, clerkId)
      ensures Summarize(t, clerkId) in r
    {
      assert t in multiset(sorted);
      var k :| 0 <= k < |sorted| && sorted[k] == t;
      assert r[k] == Summarize(t, clerkId);
    }
  }

  /** And nothing else. */
  lemma ListForSound(docs: seq<Transaction>, clerkId: string)
    ensures var r := ListFor(docs, clerkId);
      forall k :: 0 <= k < |r| ==> exists t :: t in docs && Involves(t, clerkId) && r[k] == Summarize(t, clerkId)
  {
    var m := Mine(docs, clerkId);
    var sorted := SortDesc(m, CreatedAtKey);
    SortDescProperties(m, CreatedAtKey);
    var r := ListFor(docs, clerkId);
    MineMembers(docs, clerkId);
    forall k | 0 <= k < |r|
      ensures exists t :: t in docs && Involves(t, clerkId) && r[k] == Summarize(t, clerkId)
    {
      assert sorted[k] in multiset(m);
      assert r[k] == Summarize(sorted[k], clerkId);
    }
  }

  lemma {:induction false} MineMembers(docs: seq<Transaction>, clerkId: string)
    ensures forall t :: t in Mine(docs, clerkId) <==> t in docs && Involves(t, clerkId)
    decreases |docs|
  {
    if docs != [] {
      MineMembers(docs[1..], clerkId);
      assert docs == [docs[0]] + docs[1..];
    }
  }

  /**
   * GET `/:id` reports `buyer` for anyone who is not the seller: an admin who
   * is neither party is shown as the buyer.
   */
  lemma AdminViewedAsBuyer(docs: seq<Transaction>, id: string, caller: AuthUser)
    requires caller.role == JStr("admin")
    requires Find(docs, id).Some? && !IsParty(docs[Find(docs, id).value].seller, caller)
    ensures ViewerRole(docs, id, caller) == Some("buyer")
  {
  }
}
