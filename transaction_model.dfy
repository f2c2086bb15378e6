/**
 * The escrow transaction record: its enums, defaults, dispute sub-record,
 * schema validation and the two `pre('save')` hooks.
 */
module TransactionModel {
  import opened Common

  /** The eight values of the `status` enum. */
  datatype Status =
    | Agreement | Payment | Transfer | Inspection | AwaitingAdminPayout
    | Completed | Cancelled | Disputed

  function StatusName(s: Status): string
  {
    match s
    case Agreement => "agreement"
    case Payment => "payment"
    case Transfer => "transfer"
    case Inspection => "inspection"
    case AwaitingAdminPayout => "awaiting_admin_payout"
    case Completed => "completed"
    case Cancelled => "cancelled"
    case Disputed => "disputed"
  }

  /** The enum check on a status string: `None` for any text outside the eight names. */
  function ParseStatus(name: string): (r: Option<Status>)
    ensures r.Some? ==> StatusName(r.value) == name
  {
    if name == "agreement" then Some(Agreement)
    else if name == "payment" then Some(Payment)
    else if name == "transfer" then Some(Transfer)
    else if name == "inspection" then Some(Inspection)
    else if name == "awaiting_admin_payout" then Some(AwaitingAdminPayout)
    else if name == "completed" then Some(Completed)
    else if name == "cancelled" then Some(Cancelled)
    else if name == "disputed" then Some(Disputed)
    else None
  }

  /** Status names and the enum check are inverse: every status survives a round trip. */
  lemma StatusRoundTrip(s: Status)
    ensures ParseStatus(StatusName(s)) == Some(s)
  {
  }

  /**
   * Payment sub-status. The first five are the schema enum; `PayProcessing`
   * is the extra value that initiate-payment writes.
   */
  datatype PaymentStatus = PayPending | PayFunded | PayCompleted | PayFailed | PayCancelled | PayProcessing

  predicate InPaymentEnum(p: PaymentStatus) { !p.PayProcessing? }

  datatype DisputeStatus = DisputeOpen | DisputeResolved | DisputeEscalated

  const AssetTypes: seq<string> := ["domain", "website", "app", "saas business", "other"]
  const TermsValues: seq<string> := ["single", "staged"]

  /** One day in milliseconds. */
  const DayMillis: int := 24 * 60 * 60 * 1000

  datatype Party = Party(clerkId: Option<string>, email: JVal, name: JVal, phone: JVal)

  /**
   * The transfer and payment sub-records hold only the paths the schema
   * declares. The ODM's strict mode drops any other key an update names
   * (`releasedAt`, `disbursedAt`, `disbursedBy`, `simulated`,
   * `simulatedDisbursement`) before the update reaches the database.
   */
  datatype TransferDetails = TransferDetails(
    transferMethod: JVal, recipientInfo: JVal, notes: JVal, completedAt: Option<int>)

  datatype PaymentDetails = PaymentDetails(paymentMethod: JVal, reference: Option<string>, completedAt: Option<int>)

  /** The paths a payment sub-record stores: the declared ones that hold a value. */
  function StoredPaymentPaths(p: PaymentDetails): (paths: set<string>)
    ensures paths <= {"method", "reference", "completedAt"}
    ensures ("method" in paths <==> p.paymentMethod != Undefined) && ("reference" in paths <==> p.reference.Some?)
    ensures "completedAt" in paths <==> p.completedAt.Some?
  {
    (if p.paymentMethod != Undefined then {"method"} else {})
    + (if p.reference.Some? then {"reference"} else {})
    + (if p.completedAt.Some? then {"completedAt"} else {})
  }

  datatype Dispute = Dispute(
    raised: bool, raisedBy: Option<string>, reason: JVal, status: DisputeStatus, createdAt: Option<int>)

  /** A stored transaction. `None` amounts and dates stand for NaN and Invalid Date. */
  datatype Transaction = Transaction(
    transactionId: Option<string>, title: JVal, description: JVal, assetType: JVal, assetTitle: JVal,
    amount: Option<int>, currency: string, escrowFee: Option<int>,
    status: Status, paymentStatus: PaymentStatus,
    seller: Party, buyer: Party, terms: JVal, deadline: Option<int>,
    inspectionPeriod: int, inspectionPeriodEnd: Option<int>, invoiceNumber: Option<string>,
    transferDetails: TransferDetails, paymentDetails: PaymentDetails, dispute: Dispute,
    createdAt: int, updatedAt: int, completedAt: Option<int>)

  /** The fields the create handler passes to `new Transaction(...)`. */
  datatype TransactionData = TransactionData(
    title: JVal, description: JVal, assetType: JVal, assetTitle: JVal,
    amount: Option<int>, escrowFee: Option<int>, terms: JVal, deadline: Option<int>,
    invoiceNumber: Option<string>, seller: Party, buyer: Party)

  const EmptyTransfer := TransferDetails(Undefined, Undefined, Undefined, None)
  const EmptyPayment := PaymentDetails(Undefined, None, None)
  /** The dispute sub-record of a fresh document. */
  const DefaultDispute := Dispute(false, None, Undefined, DisputeOpen, None)

  /** `new Transaction(data)` at time `now`: the schema defaults fill the rest. */
  function NewTransaction(data: TransactionData, now: int): (t: Transaction)
    ensures t.status == Agreement && t.paymentStatus == PayPending
    ensures t.currency == "KES" && t.inspectionPeriod == 3 && t.inspectionPeriodEnd == None
    ensures t.dispute == DefaultDispute
    ensures t.terms == (if data.terms == Undefined then JStr("single") else data.terms)
    ensures t.transactionId == None && t.invoiceNumber == data.invoiceNumber
    ensures t.amount == data.amount && t.escrowFee == data.escrowFee
    ensures t.seller == data.seller && t.buyer == data.buyer
    ensures t.createdAt == now && t.updatedAt == now && t.completedAt == None
  {
    Transaction(None, data.title, data.description, data.assetType, data.assetTitle,
      data.amount, "KES", data.escrowFee, Agreement, PayPending, data.seller, data.buyer,
      if data.terms == Undefined then JStr("single") else data.terms, data.deadline,
      3, None, data.invoiceNumber, EmptyTransfer, EmptyPayment, DefaultDispute, now, now, None)
  }

  /** A required string path: present and non-empty. */
  predicate RequiredText(v: JVal) { v.JStr? && v.s != "" }

  /** Schema validation run by `save()`. */
  predicate SchemaValid(t: Transaction)
  {
    && RequiredText(t.title) && RequiredText(t.description) && RequiredText(t.assetTitle)
    && t.assetType.JStr? && t.assetType.s in AssetTypes
    && t.amount.Some? && t.amount.value >= 0
    && t.escrowFee.Some?
    && t.deadline.Some?
    && t.terms.JStr? && t.terms.s in TermsValues
    && InPaymentEnum(t.paymentStatus)
  }

  /** `!this.x` on an optional string: missing or empty. */
  predicate Unset(o: Option<string>) { o.None? || o.value == "" }

  /**
   * The first save hook: stamp `updatedAt`, and start the inspection clock
   * when the document is in `inspection` without an end date.
   */
  function StampHook(t: Transaction, now: int): (r: Transaction)
    ensures r.updatedAt == now
    ensures t.inspectionPeriodEnd.Some? ==> r.inspectionPeriodEnd == t.inspectionPeriodEnd
    ensures t.inspectionPeriodEnd.None? && t.status == Inspection ==>
      r.inspectionPeriodEnd == Some(now + t.inspectionPeriod * DayMillis)
    ensures t.status != Inspection ==> r.inspectionPeriodEnd == t.inspectionPeriodEnd
    ensures r.(updatedAt := t.updatedAt, inspectionPeriodEnd := t.inspectionPeriodEnd) == t
  {
    var end := if t.status == Inspection && t.inspectionPeriodEnd.None?
      then Some(now + t.inspectionPeriod * DayMillis) else t.inspectionPeriodEnd;
    t.(updatedAt := now, inspectionPeriodEnd := end)
  }

  /**
   * The second save hook: a new document lacking them gets
   * `'ET' + millis + suffix` and `'INV' + millis + suffix`.
   */
  function IdHook(t: Transaction, isNew: bool, now: nat, idSuffix: string, invoiceSuffix: string): (r: Transaction)
    ensures !Unset(t.transactionId) ==> r.transactionId == t.transactionId
    ensures !Unset(t.invoiceNumber) ==> r.invoiceNumber == t.invoiceNumber
    ensures !isNew ==> r == t
    ensures isNew && Unset(t.transactionId) ==> r.transactionId == Some("ET" + NatToString(now) + Upper(idSuffix))
    ensures isNew && Unset(t.invoiceNumber) ==> r.invoiceNumber == Some("INV" + NatToString(now) + Upper(invoiceSuffix))
    ensures r.(transactionId := t.transactionId, invoiceNumber := t.invoiceNumber) == t
  {
    var id := if isNew && Unset(t.transactionId) then Some("ET" + NatToString(now) + Upper(idSuffix)) else t.transactionId;
    var inv := if isNew && Unset(t.invoiceNumber) then Some("INV" + NatToString(now) + Upper(invoiceSuffix)) else t.invoiceNumber;
    t.(transactionId := id, invoiceNumber := inv)
  }

  /** A document being saved: the hooks update it in place, in registration order. */
  class TransactionDocument {
    var doc: Transaction
    var isNew: bool

    /** `new Transaction(data)`. */
    constructor (data: TransactionData, now: int)
      ensures doc == NewTransaction(data, now) && isNew
    {
      doc := NewTransaction(data, now);
      isNew := true;
    }

    /** Runs both `pre('save')` hooks at time `now` with the random suffixes given. */
    method RunSaveHooks(now: nat, idSuffix: string, invoiceSuffix: string)
      modifies this
      ensures isNew == old(isNew)
      ensures doc == IdHook(StampHook(old(doc), now), old(isNew), now, idSuffix, invoiceSuffix)
    {
      doc := doc.(updatedAt := now);
      if doc.status == Inspection && doc.inspectionPeriodEnd.None? {
        doc := doc.(inspectionPeriodEnd := Some(now + doc.inspectionPeriod * DayMillis));
      }
      if isNew && Unset(doc.transactionId) {
        doc := doc.(transactionId := Some("ET" + NatToString(now) + Upper(idSuffix)));
      }
      if isNew && Unset(doc.invoiceNumber) {
        doc := doc.(invoiceNumber := Some("INV" + NatToString(now) + Upper(invoiceSuffix)));
      }
    }
  }

  /** Once set, the inspection end date survives any number of later saves. */
  lemma {:induction false} InspectionEndNeverRecomputed(t: Transaction, times: seq<int>)
    requires t.inspectionPeriodEnd.Some?
    ensures SaveAll(t, times).inspectionPeriodEnd == t.inspectionPeriodEnd
    decreases |times|
  {
    if times != [] {
      InspectionEndNeverRecomputed(StampHook(t, times[0]), times[1..]);
    }
  }

  /** The stamp hook applied at each time in turn (a series of saves of one document). */
  function SaveAll(t: Transaction, times: seq<int>): Transaction
    decreases |times|
  {
    if times == [] then t else SaveAll(StampHook(t, times[0]), times[1..])
  }

  /**
   * The inspection end date is set only by saving a document in
   * `inspection`; a document that is never saved in that status keeps none.
   */
  lemma {:induction false} NoInspectionEndWithoutInspectionSave(t: Transaction, times: seq<int>)
    requires t.inspectionPeriodEnd.None? && t.status != Inspection
    ensures SaveAll(t, times).inspectionPeriodEnd.None?
    ensures |times| > 0 ==> SaveAll(t, times).updatedAt == times[|times| - 1]
    decreases |times|
  {
    if times != [] {
      NoInspectionEndWithoutInspectionSave(StampHook(t, times[0]), times[1..]);
    }
  }

  /**
   * A fresh document has `raised == false` while its dispute status already
   * reads `open`: an open dispute status alone does not mean a dispute exists.
   */
  lemma OpenDoesNotMeanRaised(data: TransactionData, now: int)
    ensures var d := NewTransaction(data, now).dispute; d.status == DisputeOpen && !d.raised
  {
  }
}
