/**
 * POST /payment-details: the update document is built field by field from
 * the payment method, then upserted into the caller's user.
 */
module UserRoutes {
  import opened Common
  import opened UserModel

  const MpesaFields: set<string> := {"firstName", "lastName", "nationalId", "phoneNumber"}
  const BankFields: set<string> := {"bankName", "accountNumber", "accountName"}

  /** The `paymentDetails` paths the handler writes for a body. */
  function UpdateKeys(body: map<string, JVal>): set<string>
  {
    var paymentMethod := Get(body, "paymentMethod");
    {"paymentMethod"}
    + (if paymentMethod == JStr("mpesa") then MpesaFields
       else if paymentMethod == JStr("bank") then BankFields
       else {})
  }

  /** The update document: every written path takes the body field of the same name. */
  function UpdateFor(body: map<string, JVal>): map<string, JVal>
  {
    map k | k in UpdateKeys(body) :: Get(body, k)
  }

  /**
   * The `updateData` object, filled by conditional assignments. The method
   * is compared with strict equality, so only the strings `mpesa` and
   * `bank` select extra fields.
   */
  method BuildUpdate(body: map<string, JVal>) returns (update: map<string, JVal>)
    ensures update == UpdateFor(body)
    ensures "paymentMethod" in update
    ensures Get(body, "paymentMethod") == JStr("mpesa") ==> update.Keys == {"paymentMethod"} + MpesaFields
    ensures Get(body, "paymentMethod") == JStr("bank") ==> update.Keys == {"paymentMethod"} + BankFields
    ensures Get(body, "paymentMethod") !in {JStr("mpesa"), JStr("bank")} ==> update.Keys == {"paymentMethod"}
    ensures forall k :: k in update ==> update[k] == Get(body, k)
  {
    var paymentMethod := Get(body, "paymentMethod");
    update := map["paymentMethod" := paymentMethod];
    if paymentMethod == JStr("mpesa") {
      update := update["firstName" := Get(body, "firstName")];
      update := update["lastName" := Get(body, "lastName")];
      update := update["nationalId" := Get(body, "nationalId")];
      update := update["phoneNumber" := Get(body, "phoneNumber")];
    } else if paymentMethod == JStr("bank") {
      update := update["bankName" := Get(body, "bankName")];
      update := update["accountNumber" := Get(body, "accountNumber")];
      update := update["accountName" := Get(body, "accountName")];
    }
    assert update.Keys == UpdateKeys(body);
  }

  /** `$set` of the dotted paths: the named sub-fields change, the others stay. */
  function SetPaymentDetails(u: User, update: map<string, JVal>): (r: User)
    ensures r.(paymentDetails := u.paymentDetails) == u
    ensures r.paymentDetails.Keys == u.paymentDetails.Keys + update.Keys
    ensures forall k :: k in update ==> r.paymentDetails[k] == update[k]
    ensures forall k :: k in u.paymentDetails && k !in update ==> r.paymentDetails[k] == u.paymentDetails[k]
  {
    u.(paymentDetails := u.paymentDetails + update)
  }

  /**
   * Switching from M-Pesa to bank details keeps the M-Pesa fields written
   * before: nothing clears them.
   */
  lemma SwitchKeepsOldMethodFields(u: User, mpesa: map<string, JVal>, bank: map<string, JVal>)
    requires Get(mpesa, "paymentMethod") == JStr("mpesa") && Get(bank, "paymentMethod") == JStr("bank")
    ensures var after := SetPaymentDetails(SetPaymentDetails(u, UpdateFor(mpesa)), UpdateFor(bank));
      && after.paymentDetails["paymentMethod"] == JStr("bank")
      && (forall k :: k in MpesaFields ==> after.paymentDetails[k] == Get(mpesa, k))
      && (forall k :: k in BankFields ==> after.paymentDetails[k] == Get(bank, k))
  {
    var m := UpdateFor(mpesa);
    var b := UpdateFor(bank);
    assert UpdateKeys(mpesa) == {"paymentMethod"} + MpesaFields;
    assert UpdateKeys(bank) == {"paymentMethod"} + BankFields;
    assert forall k :: k in MpesaFields ==> k in m && k !in b;
  }

  /**
   * The document an upsert inserts when no user has the clerkId: the
   * filter's clerkId, the schema defaults, and the update.
   */
  function UpsertedUser(clerkId: string, update: map<string, JVal>, now: int): (u: User)
    ensures u.clerkId == JStr(clerkId) && u.paymentDetails == update
    ensures u.role == JStr("buyer") && !u.isVerified && u.email == Undefined
  {
    NewUser(UserInput(JStr(clerkId), Undefined, Undefined, Undefined, Undefined, Undefined), now)
      .(paymentDetails := update)
  }

  datatype PaymentReply = PaymentSaved(user: User) | PaymentFailed(code: int, error: string)

  /**
   * POST /payment-details: build the update, then `findOneAndUpdate` with
   * `upsert`. Only the caller's user changes. An inserted document has no
   * email, and the unique index on email admits one such document.
   */
  method SavePaymentDetails(store: UserStore, clerkId: string, body: map<string, JVal>, now: int)
    returns (r: PaymentReply)
    requires store.Valid()
    modifies store
    ensures store.Valid()
    ensures forall k :: k in old(store.users) && k != clerkId ==> k in store.users && store.users[k] == old(store.users[k])
    ensures r.PaymentFailed? ==> r == PaymentFailed(500, "Failed to update payment details") && store.users == old(store.users)
    ensures clerkId in old(store.users) ==>
      && store.users == old(store.users)[clerkId := SetPaymentDetails(old(store.users[clerkId]), UpdateFor(body))]
      && r == PaymentSaved(store.users[clerkId])
    ensures clerkId !in old(store.users) && r.PaymentSaved? ==>
      && store.users == old(store.users)[clerkId := UpsertedUser(clerkId, UpdateFor(body), now)]
      && r == PaymentSaved(store.users[clerkId])
    ensures r.PaymentFailed? <==> clerkId !in old(store.users) && old(store.EmailTaken(Undefined, clerkId))
  {
    var update := BuildUpdate(body);
    if clerkId in store.users {
      var u := SetPaymentDetails(store.users[clerkId], update);
      store.users := store.users[clerkId := u];
      return PaymentSaved(u);
    }
    if store.EmailTaken(Undefined, clerkId) {
      return PaymentFailed(500, "Failed to update payment details");
    }
    var u := UpsertedUser(clerkId, update, now);
    store.users := store.users[clerkId := u];
    r := PaymentSaved(u);
  }
}
