/**
 * The authentication middleware and the account routes: the identity
 * provider's account synced into the users collection, the allow-listed
 * profile update, `/me`, and identity verification with the record it
 * stores.
 */
module AuthRoutes {
  import opened Common
  import opened UserModel
  import Validator

  // ---------------------------------------------------------------- requireAuth

  const BearerPrefix: string := "Bearer "

  /** `header.replace('Bearer ', '')`: the first occurrence of the prefix is cut out. */
  function StripBearer(h: string): (t: string)
    ensures |t| <= |h|
  {
    if StartsWith(h, BearerPrefix) then h[|BearerPrefix|..]
    else if h == [] then []
    else [h[0]] + StripBearer(h[1..])
  }

  /** A header `Bearer <t>` yields the token `t`. */
  lemma BearerTokenRoundTrip(t: string)
    ensures StripBearer(BearerPrefix + t) == t
  {
    assert (BearerPrefix + t)[..|BearerPrefix|] == BearerPrefix;
  }

  /** A header without the prefix is taken as the token unchanged. */
  lemma {:induction false} HeaderWithoutPrefixKept(h: string)
    requires !Contains(h, BearerPrefix)
    ensures StripBearer(h) == h
  {
    if h != [] {
      HeaderWithoutPrefixKept(h[1..]);
    }
  }

  /** What the identity provider answers for a token: its subject, a falsy payload, or an error. */
  datatype TokenCheck = Subject(sub: string) | NoPayload | Rejected

  /** The provider's account: first email address, names, first phone number. */
  datatype Account = Account(email: JVal, firstName: JVal, lastName: JVal, phone: JVal)

  /** `req.user` as the middleware sets it. */
  datatype AuthUser = AuthUser(
    clerkId: string, email: JVal, firstName: JVal, lastName: JVal, phone: JVal,
    role: JVal, isAdmin: bool)

  /** Every refusal of the middleware is a 401 with this error text. */
  datatype AuthResult = Authenticated(user: AuthUser) | Unauthorized(error: string)

  /** The user the middleware creates for a subject it does not know. */
  function AutoSyncInput(sub: string, a: Account): UserInput
  {
    UserInput(JStr(sub), Or(a.email, JStr("")), Or(a.firstName, JStr("")), Or(a.lastName, JStr("")),
              Or(a.phone, JStr("")), JStr("buyer"))
  }

  function TokenOf(authorization: Option<string>): string
  {
    if authorization.Some? then StripBearer(authorization.value) else ""
  }

  /**
   * `requireAuth`: a token must be present and accepted, and the account
   * must be readable; a subject with no stored user gets one, created as a
   * buyer. `req.user.isAdmin` is read from the stored role.
   */
  method RequireAuth(store: UserStore, authorization: Option<string>, check: TokenCheck,
                     account: Option<Account>, now: int) returns (r: AuthResult)
    requires store.Valid()
    modifies store
    ensures store.Valid()
    ensures TokenOf(authorization) == "" ==> r == Unauthorized("No token provided")
    ensures TokenOf(authorization) != "" && check.NoPayload? ==> r == Unauthorized("Invalid token")
    ensures r.Unauthorized? ==> store.users == old(store.users)
    ensures r.Authenticated? ==>
      && TokenOf(authorization) != "" && check == Subject(r.user.clerkId) && account.Some?
      && r.user.clerkId in store.users
      && r.user.role == store.users[r.user.clerkId].role
      && (r.user.isAdmin <==> r.user.role == JStr("admin"))
    ensures r.Authenticated? && r.user.clerkId in old(store.users) ==> store.users == old(store.users)
    ensures r.Authenticated? && r.user.clerkId !in old(store.users) ==>
      store.users == old(store.users)[r.user.clerkId := Touch(NewUser(AutoSyncInput(r.user.clerkId, account.value), now), now)]
  {
    var token := TokenOf(authorization);
    if token == "" {
      return Unauthorized("No token provided");
    }
    if check.Rejected? {
      return Unauthorized("Authentication failed");
    }
    if check.NoPayload? {
      return Unauthorized("Invalid token");
    }
    if account.None? {
      return Unauthorized("Authentication failed");
    }
    var sub := check.sub;
    var a := account.value;
    if sub !in store.users {
      var saved := store.Insert(AutoSyncInput(sub, a), now);
      if saved != Saved {
        return Unauthorized("Authentication failed");
      }
    }
    var role := store.users[sub].role;
    r := Authenticated(AuthUser(sub, Or(a.email, JStr("")), Or(a.firstName, JStr("")), Or(a.lastName, JStr("")),
                                Or(a.phone, JStr("")), role, role == JStr("admin")));
  }

  // ---------------------------------------------------------------- sync-user

  /** Replies of the account routes that end in a 500 carry the route's own message. */
  datatype SyncReply = Synced(user: User) | SyncFailed(code: int, error: string)

  /** The update branch of sync-user: email and names from the provider, phone only when supplied. */
  function SyncedUser(u: User, who: AuthUser, body: map<string, JVal>): (r: User)
    ensures r.(email := u.email, firstName := u.firstName, lastName := u.lastName, phoneNumber := u.phoneNumber) == u
    ensures r.role == u.role && r.clerkId == u.clerkId
    ensures Truthy(Get(body, "phoneNumber")) ==> r.phoneNumber == Get(body, "phoneNumber")
    ensures !Truthy(Get(body, "phoneNumber")) ==> r.phoneNumber == u.phoneNumber
  {
    var phone := Get(body, "phoneNumber");
    u.(email := who.email, firstName := who.firstName, lastName := who.lastName,
       phoneNumber := if Truthy(phone) then phone else u.phoneNumber)
  }

  /** The create branch of sync-user: the role comes from the body, `buyer` when falsy. */
  function SyncInput(who: AuthUser, body: map<string, JVal>): UserInput
  {
    UserInput(JStr(who.clerkId), who.email, who.firstName, who.lastName,
              Or(Get(body, "phoneNumber"), JStr("")), Or(Get(body, "role"), JStr("buyer")))
  }

  /** POST /sync-user: create the caller's user, or refresh the stored one, then save. */
  method SyncUser(store: UserStore, who: AuthUser, body: map<string, JVal>, now: int) returns (r: SyncReply)
    requires store.Valid()
    modifies store
    ensures store.Valid()
    ensures r.SyncFailed? ==> r == SyncFailed(500, "Failed to sync user data") && store.users == old(store.users)
    ensures r.Synced? ==> who.clerkId in store.users && r.user == store.users[who.clerkId]
    ensures r.Synced? && who.clerkId in old(store.users) ==>
      store.users == old(store.users)[who.clerkId := Touch(SyncedUser(old(store.users[who.clerkId]), who, body), now)]
    ensures r.Synced? && who.clerkId !in old(store.users) ==>
      store.users == old(store.users)[who.clerkId := Touch(NewUser(SyncInput(who, body), now), now)]
  {
    var key := who.clerkId;
    var saved;
    if key !in store.users {
      saved := store.Insert(SyncInput(who, body), now);
    } else {
      saved := store.SaveExisting(key, SyncedUser(store.users[key], who, body), now);
    }
    if saved != Saved {
      return SyncFailed(500, "Failed to sync user data");
    }
    r := Synced(store.users[key]);
  }

  /**
   * sync-user behind requireAuth. The middleware has stored the caller
   * before the handler runs, so the handler always takes its update branch
   * and the role in the body is never used: a synced caller keeps the role
   * they had, or `buyer` when the middleware just created them.
   */
  method SyncRoute(store: UserStore, authorization: Option<string>, check: TokenCheck,
                   account: Option<Account>, body: map<string, JVal>, now: int)
    returns (auth: AuthResult, r: Option<SyncReply>)
    requires store.Valid()
    modifies store
    ensures store.Valid()
    ensures r.Some? <==> auth.Authenticated?
    ensures r.Some? && r.value.Synced? ==>
      var k := auth.user.clerkId;
      && k in store.users
      && store.users[k].role == (if k in old(store.users) then old(store.users[k].role) else JStr("buyer"))
  {
    auth := RequireAuth(store, authorization, check, account, now);
    if auth.Unauthorized? {
      return auth, None;
    }
    var reply := SyncUser(store, auth.user, body, now);
    r := Some(reply);
  }

  // ---------------------------------------------------------------- PUT /profile

  const ProfileFields: seq<string> := ["firstName", "lastName", "phoneNumber"]

  /** The keys the handler allows: `role` joins only for an admin who supplies one. */
  function AllowedUpdates(updates: map<string, JVal>, isAdmin: bool): seq<string>
  {
    if isAdmin && Truthy(Get(updates, "role")) then ProfileFields + ["role"] else ProfileFields
  }

  /** The allow-listed part of the body. */
  function Filtered(updates: map<string, JVal>, isAdmin: bool): map<string, JVal>
  {
    map k | k in updates && k in AllowedUpdates(updates, isAdmin) :: updates[k]
  }

  /** What the allow-list keeps: profile fields as given, and role only from an admin who supplies one. */
  lemma FilteredKeys(updates: map<string, JVal>, isAdmin: bool)
    ensures forall k :: k in Filtered(updates, isAdmin) ==> k in updates && Filtered(updates, isAdmin)[k] == updates[k]
    ensures forall k :: k in updates && k in ProfileFields ==> k in Filtered(updates, isAdmin)
    ensures "role" in Filtered(updates, isAdmin) <==> isAdmin && Truthy(Get(updates, "role"))
    ensures forall k :: k in Filtered(updates, isAdmin) ==> k in ProfileFields || k == "role"
  {
  }

  /** The `forEach` over the body's keys that builds `filteredUpdates`. */
  method FilterUpdates(updates: map<string, JVal>, isAdmin: bool) returns (filtered: map<string, JVal>)
    ensures filtered == Filtered(updates, isAdmin)
  {
    var allowed := ProfileFields;
    if isAdmin && Truthy(Get(updates, "role")) {
      allowed := allowed + ["role"];
    }
    filtered := map[];
    var pending := updates.Keys;
    while pending != {}
      invariant pending <= updates.Keys
      invariant forall k :: k in filtered <==> k in updates && k !in pending && k in allowed
      invariant forall k :: k in filtered ==> filtered[k] == updates[k]
      decreases |pending|
    {
      var key :| key in pending;
      if key in allowed {
        filtered := filtered[key := updates[key]];
      }
      pending := pending - {key};
    }
    assert allowed == AllowedUpdates(updates, isAdmin);
  }

  /** `findOneAndUpdate` with the filtered fields: no save hook, no schema validation. */
  function ApplyProfile(u: User, f: map<string, JVal>): (r: User)
    ensures r.(firstName := u.firstName, lastName := u.lastName, phoneNumber := u.phoneNumber, role := u.role) == u
    ensures "role" !in f ==> r.role == u.role
    ensures forall k :: k in f && k in ProfileFields + ["role"] ==>
      f[k] == (if k == "firstName" then r.firstName else if k == "lastName" then r.lastName
               else if k == "phoneNumber" then r.phoneNumber else r.role)
  {
    u.(firstName := if "firstName" in f then f["firstName"] else u.firstName,
       lastName := if "lastName" in f then f["lastName"] else u.lastName,
       phoneNumber := if "phoneNumber" in f then f["phoneNumber"] else u.phoneNumber,
       role := if "role" in f then f["role"] else u.role)
  }

  /** A caller who is not an admin never changes a role through PUT /profile. */
  lemma NonAdminKeepsRole(u: User, updates: map<string, JVal>)
    ensures ApplyProfile(u, Filtered(updates, false)).role == u.role
  {
    FilteredKeys(updates, false);
  }

  /**
   * The update path runs no validators, so an admin can store a role the
   * schema's enum does not list.
   */
  lemma AdminRoleSkipsEnum(u: User)
    ensures var r := ApplyProfile(u, Filtered(map["role" := JStr("owner")], true));
      r.role == JStr("owner") && !RoleValid(r.role)
  {
    var f := Filtered(map["role" := JStr("owner")], true);
    assert "role" in f;
  }

  datatype ProfileReply = ProfileUpdated(user: User) | ProfileNotFound

  /** PUT /profile: filter the body, then update the caller's user (404 when none is stored). */
  method UpdateProfile(store: UserStore, who: AuthUser, updates: map<string, JVal>) returns (r: ProfileReply)
    requires store.Valid()
    modifies store
    ensures store.Valid()
    ensures who.clerkId !in old(store.users) ==> r == ProfileNotFound && store.users == old(store.users)
    ensures who.clerkId in old(store.users) ==>
      && store.users == old(store.users)[who.clerkId := ApplyProfile(old(store.users[who.clerkId]), Filtered(updates, who.isAdmin))]
      && r == ProfileUpdated(store.users[who.clerkId])
  {
    var filtered := FilterUpdates(updates, who.isAdmin);
    if who.clerkId !in store.users {
      return ProfileNotFound;
    }
    var u := ApplyProfile(store.users[who.clerkId], filtered);
    store.users := store.users[who.clerkId := u];
    r := ProfileUpdated(u);
  }

  // ---------------------------------------------------------------- GET /profile

  datatype ProfileView = ProfileView(
    clerkId: JVal, email: JVal, firstName: JVal, lastName: JVal, phoneNumber: JVal, role: JVal,
    wallet: Wallet, isVerified: bool, profileComplete: bool)

  /** GET /profile: the stored user's fields with the phone and wallet, `None` for the 404. */
  function Profile(users: map<string, User>, key: string): (r: Option<ProfileView>)
    ensures r.None? <==> key !in users
    ensures r.Some? ==> r.value.clerkId == users[key].clerkId && r.value.role == users[key].role
    ensures r.Some? ==> r.value.phoneNumber == users[key].phoneNumber && r.value.wallet == users[key].wallet
    ensures r.Some? ==> r.value.isVerified == users[key].isVerified && r.value.profileComplete == users[key].profileComplete
  {
    if key !in users then None
    else
      var u := users[key];
      Some(ProfileView(u.clerkId, u.email, u.firstName, u.lastName, u.phoneNumber, u.role, u.wallet,
                       u.isVerified, u.profileComplete))
  }

  /** A profile update is what the next GET /profile shows: the allowed fields as sent, the rest as stored. */
  lemma ProfileShowsUpdate(users: map<string, User>, key: string, updates: map<string, JVal>, isAdmin: bool)
    requires key in users
    ensures var shown := Profile(users[key := ApplyProfile(users[key], Filtered(updates, isAdmin))], key);
      && shown.Some?
      && ("phoneNumber" in updates ==> shown.value.phoneNumber == updates["phoneNumber"])
      && ("phoneNumber" !in updates ==> shown.value.phoneNumber == users[key].phoneNumber)
      && (!isAdmin ==> shown.value.role == users[key].role)
      && shown.value.wallet == users[key].wallet && shown.value.isVerified == users[key].isVerified
  {
    FilteredKeys(updates, isAdmin);
    NonAdminKeepsRole(users[key], updates);
  }

  // ---------------------------------------------------------------- GET /me

  datatype MeView = MeView(
    clerkId: JVal, email: JVal, firstName: JVal, lastName: JVal, role: JVal,
    isAdmin: bool, isVerified: bool, profileComplete: bool)

  /** GET /me: the stored user's summary, `None` for the 404. */
  function Me(users: map<string, User>, key: string): (r: Option<MeView>)
    ensures r.None? <==> key !in users
    ensures r.Some? ==> r.value.role == users[key].role && (r.value.isAdmin <==> users[key].role == JStr("admin"))
    ensures r.Some? ==> r.value.isVerified == users[key].isVerified && r.value.profileComplete == users[key].profileComplete
  {
    if key !in users then None
    else
      var u := users[key];
      Some(MeView(u.clerkId, u.email, u.firstName, u.lastName, u.role, u.role == JStr("admin"),
                  u.isVerified, u.profileComplete))
  }

  /** `/me` and the middleware agree on who is an admin. */
  lemma MeAgreesWithRequest(users: map<string, User>, who: AuthUser)
    requires who.clerkId in users && who.role == users[who.clerkId].role
    requires who.isAdmin <==> who.role == JStr("admin")
    ensures Me(users, who.clerkId).Some? && Me(users, who.clerkId).value.isAdmin == who.isAdmin
  {
  }

  // ---------------------------------------------------------------- POST /verify-profile

  const MissingFields := "Missing required fields"
  const ConsentMissing := "You must agree to terms and privacy policy"
  const BankMissing := "Bank details are required for bank payout method"
  const MpesaMissing := "M-Pesa number is required for M-Pesa payout method"

  predicate CoreFieldsPresent(body: map<string, JVal>)
  {
    Truthy(Get(body, "fullName")) && Truthy(Get(body, "dob")) && Truthy(Get(body, "idType"))
    && Truthy(Get(body, "idNumber")) && Truthy(Get(body, "payoutMethod"))
  }

  predicate ConsentGiven(body: map<string, JVal>)
  {
    Truthy(Get(body, "agreeTerms")) && Truthy(Get(body, "agreePrivacy"))
  }

  predicate BankComplete(body: map<string, JVal>)
  {
    Truthy(Get(body, "bankName")) && Truthy(Get(body, "accountName")) && Truthy(Get(body, "accountNumber"))
  }

  /**
   * The checks verify-profile makes before writing, in the order it makes
   * them; `None` lets the request through.
   */
  function VerifyRefusal(body: map<string, JVal>): (r: Option<string>)
    ensures r.None? <==>
      && CoreFieldsPresent(body) && ConsentGiven(body)
      && (Get(body, "payoutMethod") == JStr("bank") ==> BankComplete(body))
      && (Get(body, "payoutMethod") == JStr("mpesa") ==> Truthy(Get(body, "mpesaNumber")))
    ensures !CoreFieldsPresent(body) ==> r == Some(MissingFields)
    ensures CoreFieldsPresent(body) && !ConsentGiven(body) ==> r == Some(ConsentMissing)
    ensures r.Some? ==> r.value in [MissingFields, ConsentMissing, BankMissing, MpesaMissing]
  {
    var payout := Get(body, "payoutMethod");
    if !CoreFieldsPresent(body) then Some(MissingFields)
    else if !ConsentGiven(body) then Some(ConsentMissing)
    else if payout == JStr("bank") && !BankComplete(body) then Some(BankMissing)
    else if payout == JStr("mpesa") && !Truthy(Get(body, "mpesaNumber")) then Some(MpesaMissing)
    else None
  }

  /**
   * The verification record written on success; `dob` is `new Date(dob)`
   * as a time.
   */
  function VerifiedDetails(body: map<string, JVal>, dob: Option<int>): (d: VerificationDetails)
    ensures d.bankDetails.Some? <==> Get(body, "payoutMethod") == JStr("bank")
    ensures d.bankDetails.Some? ==> d.bankDetails.value.accountNumber == Get(body, "accountNumber")
    ensures Get(body, "payoutMethod") == JStr("mpesa") ==> d.mpesaNumber == Get(body, "mpesaNumber")
    ensures Get(body, "payoutMethod") != JStr("mpesa") ==> d.mpesaNumber == Undefined
    ensures d.payoutMethod == Get(body, "payoutMethod") && d.dob == dob
  {
    var payout := Get(body, "payoutMethod");
    VerificationDetails(
      Get(body, "fullName"), dob,
      Address(Get(body, "street"), Get(body, "city"), Get(body, "county"), Get(body, "postalCode")),
      Get(body, "phone"), Get(body, "idType"), Get(body, "idNumber"), payout,
      if payout == JStr("bank")
      then Some(BankDetails(Get(body, "bankName"), Get(body, "accountName"), Get(body, "accountNumber"), Get(body, "bankBranch")))
      else None,
      if payout == JStr("mpesa") then Get(body, "mpesaNumber") else Undefined,
      Get(body, "referralCode"), Get(body, "agreeTerms"), Get(body, "agreePrivacy"))
  }

  /** The update verify-profile applies: both flags set, the whole record replaced. */
  function MarkVerified(u: User, d: VerificationDetails): (r: User)
    ensures r.isVerified && r.profileComplete && r.verificationDetails == Some(d)
    ensures r.(isVerified := u.isVerified, profileComplete := u.profileComplete, verificationDetails := u.verificationDetails) == u
  {
    u.(isVerified := true, profileComplete := true, verificationDetails := Some(d))
  }

  datatype VerifyReply = VerifyRefused(error: string) | VerifyNotFound | VerifyFailed(error: string) | ProfileVerified(user: User)

  /**
   * POST /verify-profile: the checks (400), then the update of the caller's
   * user (404 when none). `dob` is `new Date(dob)` as a time, `None` for a
   * date that does not parse: the update's cast of that Invalid Date to the
   * schema's `Date` throws before any document is touched, and the route's
   * `catch` answers 500.
   */
  method VerifyProfile(store: UserStore, who: AuthUser, body: map<string, JVal>, dob: Option<int>)
    returns (r: VerifyReply)
    requires store.Valid()
    modifies store
    ensures store.Valid()
    ensures VerifyRefusal(body).Some? ==> r == VerifyRefused(VerifyRefusal(body).value) && store.users == old(store.users)
    ensures VerifyRefusal(body).None? && dob.None? ==>
      r == VerifyFailed("Failed to verify profile") && store.users == old(store.users)
    ensures VerifyRefusal(body).None? && dob.Some? && who.clerkId !in old(store.users) ==>
      r == VerifyNotFound && store.users == old(store.users)
    ensures VerifyRefusal(body).None? && dob.Some? && who.clerkId in old(store.users) ==>
      && store.users == old(store.users)[who.clerkId := MarkVerified(old(store.users[who.clerkId]), VerifiedDetails(body, dob))]
      && r == ProfileVerified(store.users[who.clerkId])
    ensures r.ProfileVerified? ==> r.user.isVerified && r.user.verificationDetails.value.dob.Some?
  {
    var refusal := VerifyRefusal(body);
    if refusal.Some? {
      return VerifyRefused(refusal.value);
    }
    if dob.None? {
      return VerifyFailed("Failed to verify profile");
    }
    if who.clerkId !in store.users {
      return VerifyNotFound;
    }
    var u := MarkVerified(store.users[who.clerkId], VerifiedDetails(body, dob));
    store.users := store.users[who.clerkId := u];
    r := ProfileVerified(u);
  }

  // ---------------------------------------------------------------- the route against the verification rule set

  /** A body whose values are all strings, as a form or JSON body of text fields is. */
  predicate TextBody(body: map<string, JVal>)
  {
    forall k :: k in body ==> body[k].JStr?
  }

  lemma TextPresent(body: map<string, JVal>, field: string)
    requires TextBody(body)
    ensures Validator.Text(Get(body, field)) != "" ==> Truthy(Get(body, field))
  {
  }

  lemma TrimmedPresent(body: map<string, JVal>, field: string)
    requires TextBody(body)
    ensures Validator.Trimmed(body, field) != "" ==> Truthy(Get(body, field))
  {
    assert Trim("") == "";
    TextPresent(body, field);
  }

  /**
   * On text bodies the profile-verification rule set is stricter than the
   * route's own checks: whatever it accepts, the route lets through.
   */
  lemma RuleSetImpliesRouteChecks(body: map<string, JVal>, env: Validator.Env)
    requires TextBody(body)
    requires Validator.VerificationAcceptable(body, env)
    ensures VerifyRefusal(body) == None
  {
    TrimmedPresent(body, "fullName");
    TextPresent(body, "dob");
    TextPresent(body, "idType");
    TrimmedPresent(body, "idNumber");
    TextPresent(body, "payoutMethod");
    TextPresent(body, "agreeTerms");
    TextPresent(body, "agreePrivacy");
    var payout := Get(body, "payoutMethod");
    if payout == JStr("bank") {
      TrimmedPresent(body, "bankName");
      TrimmedPresent(body, "accountName");
      TrimmedPresent(body, "accountNumber");
    }
    if payout == JStr("mpesa") {
      TrimmedPresent(body, "mpesaNumber");
    }
  }

  /** The converse fails: the route accepts a two-letter full name the rule set refuses. */
  lemma RouteAdmitsShortName(env: Validator.Env)
    ensures var body := map["fullName" := JStr("Al"), "dob" := JStr("1990-01-01"), "idType" := JStr("passport"),
                            "idNumber" := JStr("A1234567"), "payoutMethod" := JStr("mpesa"),
                            "mpesaNumber" := JStr("254712345678"),
                            "agreeTerms" := JStr("true"), "agreePrivacy" := JStr("true")];
      VerifyRefusal(body) == None && !Validator.VerificationAcceptable(body, env)
  {
    var body := map["fullName" := JStr("Al"), "dob" := JStr("1990-01-01"), "idType" := JStr("passport"),
                     "idNumber" := JStr("A1234567"), "payoutMethod" := JStr("mpesa"),
                     "mpesaNumber" := JStr("254712345678"),
                     "agreeTerms" := JStr("true"), "agreePrivacy" := JStr("true")];
    assert CoreFieldsPresent(body) && ConsentGiven(body) && Truthy(Get(body, "mpesaNumber"));
    TrimUnchanged("Al");
    assert Validator.Trimmed(body, "fullName") == "Al";
    assert !Validator.IdentityAcceptable(body, env);
  }
}
