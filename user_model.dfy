/**
 * The user record: role enum and defaults, wallet defaults, verification
 * flags, the `updatedAt` save hook, and the collection with its two unique
 * indexes (clerkId and email).
 */
module UserModel {
  import opened Common

  /** The values the `role` enum admits. */
  const Roles: seq<string> := ["buyer", "seller", "admin"]

  datatype Wallet = Wallet(balance: int, currency: string, transactions: seq<string>)

  datatype BankDetails = BankDetails(bankName: JVal, accountName: JVal, accountNumber: JVal, bankBranch: JVal)

  datatype Address = Address(street: JVal, city: JVal, county: JVal, postalCode: JVal)

  datatype VerificationDetails = VerificationDetails(
    fullName: JVal, dob: Option<int>, address: Address, phone: JVal,
    idType: JVal, idNumber: JVal, payoutMethod: JVal,
    bankDetails: Option<BankDetails>, mpesaNumber: JVal,
    referralCode: JVal, agreeTerms: JVal, agreePrivacy: JVal)

  /** A stored user. Scalar fields keep the JavaScript value that was written. */
  datatype User = User(
    clerkId: JVal, email: JVal, firstName: JVal, lastName: JVal, phoneNumber: JVal,
    role: JVal, wallet: Wallet, isVerified: bool, profileComplete: bool,
    verificationDetails: Option<VerificationDetails>,
    paymentDetails: map<string, JVal>,
    createdAt: int, updatedAt: int)

  /** The fields a caller may pass to `new User({...})`; `Undefined` where absent. */
  datatype UserInput = UserInput(
    clerkId: JVal, email: JVal, firstName: JVal, lastName: JVal, phoneNumber: JVal, role: JVal)

  /** `new User(input)` at time `now`: schema defaults fill what the input leaves out. */
  function NewUser(input: UserInput, now: int): (u: User)
    ensures input.role == Undefined ==> u.role == JStr("buyer")
    ensures input.role != Undefined ==> u.role == input.role
    ensures u.wallet == Wallet(0, "KES", [])
    ensures !u.isVerified && !u.profileComplete
    ensures u.paymentDetails == map[] && u.verificationDetails == None
    ensures u.clerkId == input.clerkId && u.email == input.email
    ensures u.createdAt == now && u.updatedAt == now
  {
    User(input.clerkId, input.email, input.firstName, input.lastName, input.phoneNumber,
         if input.role == Undefined then JStr("buyer") else input.role,
         Wallet(0, "KES", []), false, false, None, map[], now, now)
  }

  /** The role the schema accepts: one of the three enum values. */
  predicate RoleValid(role: JVal)
  {
    role.JStr? && role.s in Roles
  }

  /** A required string path fails validation when missing or empty. */
  predicate RequiredPresent(v: JVal)
  {
    v.JStr? && v.s != ""
  }

  datatype SaveResult = Saved | ValidationError(path: string) | DuplicateKey(path: string)

  /** The schema validation run by `save()`: clerkId is checked before role. */
  function Validate(u: User): (r: SaveResult)
    ensures r == Saved <==> RequiredPresent(u.clerkId) && RoleValid(u.role)
    ensures !RequiredPresent(u.clerkId) ==> r == ValidationError("clerkId")
  {
    if !RequiredPresent(u.clerkId) then ValidationError("clerkId")
    else if !RoleValid(u.role) then ValidationError("role")
    else Saved
  }

  /** The `pre('save')` hook: `updatedAt` becomes the time of the save. */
  function Touch(u: User, now: int): (r: User)
    ensures r.updatedAt == now
    ensures r.(updatedAt := u.updatedAt) == u
  {
    u.(updatedAt := now)
  }

  /**
   * The users collection, keyed by clerkId (the unique index). Documents
   * written by `save()` pass the schema validation; documents written by
   * `findOneAndUpdate` do not go through it, so the invariant is only the
   * key.
   */
  class UserStore {
    var users: map<string, User>

    ghost predicate Valid()
      reads this
    {
      forall k :: k in users ==> users[k].clerkId == JStr(k)
    }

    constructor ()
      ensures Valid() && users == map[]
    {
      users := map[];
    }

    /** True when a stored user other than `except` already has this email (null counts as a value). */
    predicate EmailTaken(email: JVal, except: string)
      reads this
    {
      exists k :: k in users && k != except && users[k].email == email
    }

    /**
     * `new User(...).save()`: the save hook, schema validation, then the
     * unique indexes on clerkId and email.
     */
    method Insert(input: UserInput, now: int) returns (r: SaveResult)
      requires Valid()
      modifies this
      ensures Valid()
      ensures var u := Touch(NewUser(input, now), now);
        if Validate(u) != Saved then r == Validate(u) && users == old(users)
        else if u.clerkId.s in old(users) then r == DuplicateKey("clerkId") && users == old(users)
        else if old(EmailTaken(u.email, u.clerkId.s)) then r == DuplicateKey("email") && users == old(users)
        else r == Saved && users == old(users)[u.clerkId.s := u]
    {
      var u := NewUser(input, now);
      u := Touch(u, now);
      r := Validate(u);
      if r != Saved {
        return;
      }
      if u.clerkId.s in users {
        r := DuplicateKey("clerkId");
      } else if EmailTaken(u.email, u.clerkId.s) {
        r := DuplicateKey("email");
      } else {
        users := users[u.clerkId.s := u];
      }
    }

    /** `user.save()` on a document already stored under `key`. */
    method SaveExisting(key: string, u: User, now: int) returns (r: SaveResult)
      requires Valid() && key in users && u.clerkId == JStr(key)
      modifies this
      ensures Valid()
      ensures var t := Touch(u, now);
        if Validate(t) != Saved then r == Validate(t) && users == old(users)
        else if old(EmailTaken(t.email, key)) then r == DuplicateKey("email") && users == old(users)
        else r == Saved && users == old(users)[key := t]
    {
      var t := Touch(u, now);
      r := Validate(t);
      if r != Saved {
        return;
      }
      if EmailTaken(t.email, key) {
        r := DuplicateKey("email");
      } else {
        users := users[key := t];
      }
    }
  }

  /** A user built from clerkId and email alone gets the documented defaults and passes validation. */
  lemma DefaultsOfMinimalUser(clerkId: string, email: string, now: int)
    requires clerkId != ""
    ensures var u := NewUser(UserInput(JStr(clerkId), JStr(email), Undefined, Undefined, Undefined, Undefined), now);
      u.role == JStr("buyer") && u.wallet.balance == 0 && u.wallet.currency == "KES"
      && u.wallet.transactions == [] && !u.isVerified && !u.profileComplete
      && Validate(Touch(u, now)) == Saved
  {
  }

  /** A role outside the enum, or a missing clerkId, never reaches the collection. */
  lemma InvalidUsersRejected(input: UserInput, now: int)
    requires !RequiredPresent(input.clerkId) || (input.role != Undefined && !RoleValid(input.role))
    ensures Validate(Touch(NewUser(input, now), now)) != Saved
  {
  }
}
