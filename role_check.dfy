/**
 * Request guards: the role check, the per-transaction permission table and
 * the status allow-list. The guards write what they learn into the request.
 */
module RoleCheck {
  import opened Common
  import opened TransactionModel
  import opened UserModel

  /** `req.user` as the authentication middleware leaves it. */
  datatype AuthUser = AuthUser(
    clerkId: string, email: string, firstName: string, lastName: string, phone: string,
    role: JVal, isAdmin: bool)

  /** An early response that stops the middleware chain. */
  datatype Halt = Halt(code: int, error: string)

  /** The action names of the permission table. */
  const Actions: seq<string> := ["view", "update", "delete", "fund", "transfer", "accept", "dispute"]

  /**
   * The properties every plain object inherits from `Object.prototype`: a
   * lookup of one of these names in an object literal finds a function (or,
   * for `__proto__`, the prototype object), which is truthy.
   */
  const InheritedNames: seq<string> := [
    "constructor", "hasOwnProperty", "isPrototypeOf", "propertyIsEnumerable",
    "toLocaleString", "toString", "valueOf", "__proto__",
    "__defineGetter__", "__defineSetter__", "__lookupGetter__", "__lookupSetter__"]

  /**
   * `permissions[action]` taken as a truth value: the table entry; a name the
   * object inherits lets everybody through; any other name is `undefined`
   * and refused.
   */
  predicate Permitted(action: string, isSeller: bool, isBuyer: bool, isAdmin: bool)
  {
    if action == "view" || action == "update" then isSeller || isBuyer || isAdmin
    else if action == "delete" then isSeller || isAdmin
    else if action == "fund" || action == "accept" then isBuyer
    else if action == "transfer" then isSeller
    else if action == "dispute" then isSeller || isBuyer
    else action in InheritedNames
  }

  /** `findOne({transactionId: id})`: the first stored document with that id. */
  function Find(docs: seq<Transaction>, id: string): (r: Option<nat>)
    ensures r.Some? ==> (r.value < |docs| && docs[r.value].transactionId == Some(id)
      && forall j :: 0 <= j < r.value ==> docs[j].transactionId != Some(id))
    ensures r.None? ==> forall j :: 0 <= j < |docs| ==> docs[j].transactionId != Some(id)
  {
    if docs == [] then None
    else if docs[0].transactionId == Some(id) then Some(0)
    else match Find(docs[1..], id)
      case None => None
      case Some(k) => Some(k + 1)
  }

  /** `party.clerkId === req.user.clerkId`. */
  predicate IsParty(p: Party, caller: AuthUser) { p.clerkId == Some(caller.clerkId) }

  datatype Access = NoSuchTransaction | Forbidden | Granted(index: nat, isSeller: bool, isBuyer: bool)

  /** The decision of `checkTransactionAccess(action)` for one request. */
  function AccessFor(docs: seq<Transaction>, id: string, caller: AuthUser, action: string): (a: Access)
    ensures a.NoSuchTransaction? <==> Find(docs, id).None?
    ensures a.Granted? ==> (Find(docs, id) == Some(a.index)
      && a.isSeller == IsParty(docs[a.index].seller, caller)
      && a.isBuyer == IsParty(docs[a.index].buyer, caller)
      && Permitted(action, a.isSeller, a.isBuyer, caller.role == JStr("admin")))
    ensures a.Forbidden? ==> var i := Find(docs, id).value;
      !Permitted(action, IsParty(docs[i].seller, caller), IsParty(docs[i].buyer, caller), caller.role == JStr("admin"))
  {
    match Find(docs, id)
    case None => NoSuchTransaction
    case Some(i) =>
      var isSeller := IsParty(docs[i].seller, caller);
      var isBuyer := IsParty(docs[i].buyer, caller);
      var isAdmin := caller.role == JStr("admin");
      if Permitted(action, isSeller, isBuyer, isAdmin) then Granted(i, isSeller, isBuyer) else Forbidden
  }

  /** The 404/403 answer for a refused access decision. */
  function AccessHalt(a: Access): Halt
    requires !a.Granted?
  {
    if a.NoSuchTransaction? then Halt(404, "Transaction not found")
    else Halt(403, "Not authorized for this action")
  }

  /** `checkTransactionStatus(allowed)`: `None` lets the request through. */
  function StatusGate(status: Status, allowed: seq<Status>): (h: Option<Halt>)
    ensures h.None? <==> status in allowed
    ensures h.Some? ==> (h.value.code == 400
      && Contains(h.value.error, StatusName(status)))
  {
    if status in allowed then None
    else
      var prefix := "Action not allowed in current transaction status: ";
      ContainsSuffix(prefix, StatusName(status));
      Some(Halt(400, prefix + StatusName(status)))
  }

  lemma {:induction false} ContainsSuffix(p: string, s: string)
    ensures Contains(p + s, s)
    decreases |p|
  {
    if p == [] {
      assert (p + s)[..|s|] == s;
    } else {
      assert (p + s)[1..] == p[1..] + s;
      ContainsSuffix(p[1..], s);
    }
  }

  /** The parts of a request the guards read and write. */
  class Request {
    const user: AuthUser
    const params: string
    /** `req.user.role`, overwritten by the role check. */
    var role: JVal
    var dbUser: Option<User>
    var transaction: Option<Transaction>
    var isSeller: Option<bool>
    var isBuyer: Option<bool>

    constructor (user: AuthUser, id: string)
      ensures this.user == user && params == id && role == user.role
      ensures dbUser.None? && transaction.None? && isSeller.None? && isBuyer.None?
    {
      this.user := user;
      params := id;
      role := user.role;
      dbUser := None;
      transaction := None;
      isSeller := None;
      isBuyer := None;
    }

    /**
     * `checkRole(required)`: 404 for an unknown user, 403 unless the stored
     * role is the required one or admin; on success the stored role and
     * record are attached.
     */
    method CheckRole(users: map<string, User>, required: string) returns (halt: Option<Halt>)
      modifies this
      ensures user.clerkId !in users ==> halt == Some(Halt(404, "User not found"))
      ensures user.clerkId in users ==>
        var u := users[user.clerkId];
        (halt.None? <==> (u.role == JStr(required) || u.role == JStr("admin")))
        && (halt.Some? ==> halt.value == Halt(403, "Insufficient permissions"))
      ensures halt.None? ==> role == users[user.clerkId].role && dbUser == Some(users[user.clerkId])
      ensures halt.Some? ==> role == old(role) && dbUser == old(dbUser)
      ensures transaction == old(transaction) && isSeller == old(isSeller) && isBuyer == old(isBuyer)
    {
      if user.clerkId !in users {
        return Some(Halt(404, "User not found"));
      }
      var u := users[user.clerkId];
      if u.role != JStr(required) && u.role != JStr("admin") {
        return Some(Halt(403, "Insufficient permissions"));
      }
      role := u.role;
      dbUser := Some(u);
      halt := None;
    }

    /**
     * `checkTransactionAccess(action)`: the transaction and the two flags
     * are attached only when access is granted.
     */
    method CheckTransactionAccess(docs: seq<Transaction>, action: string) returns (halt: Option<Halt>)
      modifies this
      ensures var a := AccessFor(docs, params, AuthUser(user.clerkId, user.email, user.firstName,
                                   user.lastName, user.phone, old(role), user.isAdmin), action);
        if a.Granted? then
          halt.None? && transaction == Some(docs[a.index])
          && isSeller == Some(a.isSeller) && isBuyer == Some(a.isBuyer)
        else
          halt == Some(AccessHalt(a))
          && transaction == old(transaction) && isSeller == old(isSeller) && isBuyer == old(isBuyer)
      ensures role == old(role) && dbUser == old(dbUser)
    {
      var caller := AuthUser(user.clerkId, user.email, user.firstName, user.lastName, user.phone, role, user.isAdmin);
      var a := AccessFor(docs, params, caller, action);
      if !a.Granted? {
        return Some(AccessHalt(a));
      }
      transaction := Some(docs[a.index]);
      isSeller := Some(a.isSeller);
      isBuyer := Some(a.isBuyer);
      halt := None;
    }

    /** `checkTransactionStatus(allowed)` on the attached transaction. */
    method CheckTransactionStatus(allowed: seq<Status>) returns (halt: Option<Halt>)
      requires transaction.Some?
      ensures halt == StatusGate(transaction.value.status, allowed)
    {
      halt := StatusGate(transaction.value.status, allowed);
    }
  }

  /**
   * An unknown id is answered with 404 whatever the caller and the action:
   * existence is checked before any permission.
   */
  lemma NotFoundBeforePermissions(docs: seq<Transaction>, id: string, caller: AuthUser, action: string)
    requires forall j :: 0 <= j < |docs| ==> docs[j].transactionId != Some(id)
    ensures AccessFor(docs, id, caller, action) == NoSuchTransaction
  {
  }

  /**
   * An action name outside the table is refused for every caller, unless the
   * table object inherits a property of that name, in which case every
   * caller passes, parties or not.
   */
  lemma UnknownActionRefused(action: string, isSeller: bool, isBuyer: bool, isAdmin: bool)
    requires action !in Actions
    ensures !Permitted(action, isSeller, isBuyer, isAdmin) <==> action !in InheritedNames
  {
  }

  /**
   * The table row by row: fund and accept are for the buyer only, transfer
   * for the seller only, dispute for either party but never for an admin who
   * is neither, view and update for all three, delete for seller or admin.
   */
  lemma PermissionTable(isSeller: bool, isBuyer: bool, isAdmin: bool)
    ensures Permitted("fund", isSeller, isBuyer, isAdmin) <==> isBuyer
    ensures Permitted("accept", isSeller, isBuyer, isAdmin) <==> isBuyer
    ensures Permitted("transfer", isSeller, isBuyer, isAdmin) <==> isSeller
    ensures Permitted("dispute", isSeller, isBuyer, isAdmin) <==> isSeller || isBuyer
    ensures Permitted("view", isSeller, isBuyer, isAdmin) <==> isSeller || isBuyer || isAdmin
    ensures Permitted("update", isSeller, isBuyer, isAdmin) <==> isSeller || isBuyer || isAdmin
    ensures Permitted("delete", isSeller, isBuyer, isAdmin) <==> isSeller || isAdmin
  {
  }
}
