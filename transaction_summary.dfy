/**
 * The summary page shown before a deal is created: the 0.5% fee split
 * between the parties, the counterparty's email and phone with the
 * agreement box they unlock, and the create request it sends.
 */
module TransactionSummary {
  import opened Common
  import opened FormChecks
  import TransactionModel
  import TransactionRoutes
  import RoleCheck

  // ---------------------------------------------------------------- fees

  /** `Math.round(price * 0.005)`: the page's fee, half a percent of a whole-shilling price. */
  function EscrowFee(price: nat): (fee: nat)
    ensures 400 * fee <= 2 * price + 200 < 400 * fee + 400
  {
    RoundDiv(price, 200)
  }

  /** `Math.round(escrowFee / 2)`: each party's share. */
  function HalfFee(price: nat): (half: nat)
    ensures 4 * half <= 2 * EscrowFee(price) + 2 < 4 * half + 4
  {
    RoundDiv(EscrowFee(price), 2)
  }

  function BuyerPays(price: nat): int { price + HalfFee(price) }

  function SellerReceives(price: nat): int { price - HalfFee(price) }

  /**
   * The buyer pays the price plus one share and the seller receives the
   * price less one share: the gap is two shares, which cover the fee and
   * exceed it by at most one shilling (an odd fee is rounded up), and the
   * seller never receives a negative amount.
   */
  lemma FeeSplit(price: nat)
    ensures BuyerPays(price) - SellerReceives(price) == 2 * HalfFee(price)
    ensures EscrowFee(price) <= 2 * HalfFee(price) <= EscrowFee(price) + 1
    ensures 0 <= SellerReceives(price) <= price <= BuyerPays(price)
  {
  }

  /**
   * The page's fee is not the server's: for a price of 100 the page shows
   * a fee of 1 while the server stores 0, and on multiples of 400 the
   * page's fee is exactly twice the server's.
   */
  lemma PageFeeIsTwiceServerFee(price: nat)
    ensures EscrowFee(100) == 1 && TransactionRoutes.ServerEscrowFee(100) == 0
    ensures price % 400 == 0 ==> EscrowFee(price) == 2 * TransactionRoutes.ServerEscrowFee(price)
  {
    if price % 400 == 0 {
      var q := price / 400;
      assert price == 400 * q;
      DivModUnique(2 * price + 200, 400, 2 * q, 200);
      DivModUnique(2 * price + 400, 800, q, 400);
    }
  }

  // ---------------------------------------------------------------- phone

  /**
   * `normalizePhone`: keep the digits, put the country code in front, and
   * keep at most twelve digits after a `+`.
   */
  function Normalize(input: string): (r: string)
    ensures StartsWith(r, "+254") && 4 <= |r| <= 13
    ensures r[0] == '+' && AllDigits(r[1..])
  {
    var p := WithCountryCode(DigitsOf(input));
    var q := if |p| <= 12 then p else p[..12];
    CutKeepsCountryCode(p, q);
    PlusInFront(q);
    "+" + q
  }

  /** Keeping the first twelve digits keeps the country code. */
  lemma CutKeepsCountryCode(p: string, q: string)
    requires AllDigits(p) && StartsWith(p, "254")
    requires q == if |p| <= 12 then p else p[..12]
    ensures AllDigits(q) && StartsWith(q, "254") && |q| <= 12
  {
    assert q[..3] == p[..3];
  }

  /** A `+` in front of digits that start with the country code. */
  lemma PlusInFront(q: string)
    requires AllDigits(q) && StartsWith(q, "254")
    ensures StartsWith("+" + q, "+254") && ("+" + q)[0] == '+' && AllDigits(("+" + q)[1..])
  {
    assert ("+" + q)[1..] == q;
    assert ("+" + q)[..4] == "+" + q[..3];
  }

  /** Normalising a normalised number changes nothing. */
  lemma NormalizeIdempotent(input: string)
    ensures Normalize(Normalize(input)) == Normalize(input)
  {
    var r := Normalize(input);
    var q := r[1..];
    assert r == "+" + q;
    DigitsAfterPlus(q);
    assert q[..3] == r[1..4];
    assert WithCountryCode(q) == q;
  }

  /** A number the page accepts is already in normal form. */
  lemma AcceptedNumbersAreNormal(s: string)
    requires KenyanPhone(s)
    ensures Normalize(s) == s
  {
    KenyanPhoneDigits(s);
    var q := s[1..];
    assert s == "+" + q;
    DigitsAfterPlus(q);
    assert WithCountryCode(q) == q;
  }

  /** A ten-digit local number `07…` or `01…` becomes the accepted international number. */
  lemma LocalNumberNormalized(c: char, rest: string)
    requires (c == '7' || c == '1') && AllDigits(rest) && |rest| == 8
    ensures Normalize("0" + [c] + rest) == "+254" + [c] + rest
    ensures KenyanPhone("+254" + [c] + rest)
  {
    LocalNumberPrefixed(c, rest);
    assert "+" + ("254" + [c] + rest) == "+254" + [c] + rest;
    InternationalFormAccepted(c, rest);
  }

  /** The local number's digits get the country code in place of the `0`. */
  lemma LocalNumberPrefixed(c: char, rest: string)
    requires (c == '7' || c == '1') && AllDigits(rest) && |rest| == 8
    ensures WithCountryCode(DigitsOf("0" + [c] + rest)) == "254" + [c] + rest
  {
    var d := "0" + [c] + rest;
    LocalNumberDigits(c, rest);
    assert DigitsOf(d) == d;
    assert d[0] == '0' && d[1] == c;
    LocalPrefixReplaced(d);
    assert d[1..] == [c] + rest;
    assert "254" + d[1..] == "254" + [c] + rest;
  }

  lemma LocalNumberDigits(c: char, rest: string)
    requires (c == '7' || c == '1') && AllDigits(rest)
    ensures AllDigits("0" + [c] + rest)
  {
    var d := "0" + [c] + rest;
    forall k | 2 <= k < |d|
      ensures IsDigit(d[k])
    {
      assert d[k] == rest[k - 2];
    }
  }

  /** `+254`, a 7 or a 1 and eight digits is a number the page accepts. */
  lemma InternationalFormAccepted(c: char, rest: string)
    requires (c == '7' || c == '1') && AllDigits(rest) && |rest| == 8
    ensures KenyanPhone("+254" + [c] + rest)
  {
    var r := "+254" + [c] + rest;
    assert r[..4] == "+254" && r[4] == c;
    assert r[5..] == rest;
  }

  /** Digits past the twelfth are cut. */
  lemma LongNumberCut(x: string)
    requires AllDigits(x) && |x| > 9
    ensures Normalize("254" + x) == "+" + ("254" + x)[..12]
  {
    var d := "254" + x;
    assert AllDigits(d) by {
      assert forall k :: 3 <= k < |d| ==> d[k] == x[k - 3];
    }
    assert d[..3] == "254";
  }

  // ---------------------------------------------------------------- terms

  /** The start of the run of white space that ends just before position `j`. */
  function SpaceRunStart(s: string, j: nat): (i: nat)
    requires j <= |s|
    ensures i <= j && forall k :: i <= k < j ==> IsSpace(s[k])
    ensures i == 0 || !IsSpace(s[i - 1])
  {
    if j > 0 && IsSpace(s[j - 1]) then SpaceRunStart(s, j - 1) else j
  }

  /** The first position at or after `from` that holds `c`, if any. */
  function IndexFrom(s: string, c: char, from: nat): (r: Option<nat>)
    decreases |s| - from
    ensures r.Some? ==> from <= r.value < |s| && s[r.value] == c
    ensures r.Some? ==> forall k :: from <= k < r.value ==> s[k] != c
    ensures r.None? ==> forall k :: from <= k < |s| ==> s[k] != c
  {
    if from >= |s| then None
    else if s[from] == c then Some(from)
    else IndexFrom(s, c, from + 1)
  }

  /** Some `(` has a `)` after it: the pattern `\s*\([^)]*\)` matches somewhere. */
  predicate HasGroup(s: string)
  {
    exists j, k :: 0 <= j < k < |s| && s[j] == '(' && s[k] == ')'
  }

  /**
   * `s.replace(/\s*\([^)]*\)/, '')`: the leftmost match starts at the white
   * space before the first `(` and ends at the first `)` after it.
   */
  function StripParenGroup(s: string): (r: string)
    ensures !HasGroup(s) ==> r == s
    ensures HasGroup(s) ==> |r| <= |s| - 2
  {
    match IndexFrom(s, '(', 0)
    case None => s
    case Some(j) =>
      match IndexFrom(s, ')', j + 1)
      case None => s
      case Some(k) => s[..SpaceRunStart(s, j)] + s[k + 1..]
  }

  /** `deal.terms.toLowerCase().replace(...)`. */
  function SentTerms(terms: string): string
  {
    StripParenGroup(Lower(terms))
  }

  /** A term written in lower-case letters, such as the deal form's `single` and `staged`, is sent unchanged. */
  lemma LowerCaseTermsKept(t: string)
    requires forall k :: 0 <= k < |t| ==> IsLower(t[k])
    ensures SentTerms(t) == t
  {
    assert Lower(t) == t;
  }

  /**
   * A label followed by a space and a parenthesised note loses the note and
   * the space: `Staged (Milestones)` is sent as `staged`.
   */
  lemma NoteDropped(w: string, note: string)
    requires forall k :: 0 <= k < |w| ==> w[k] != '('
    requires w == [] || !IsSpace(w[|w| - 1])
    requires forall k :: 0 <= k < |note| ==> note[k] != ')'
    ensures StripParenGroup(w + " (" + note + ")") == w
  {
    var s := w + " (" + note + ")";
    FirstParenAfterLabel(w, note);
    ParenClosesAfterNote(w, note);
    SpaceBeforeNote(w, note);
    assert s[..|w|] == w;
  }

  /** In a label, a space and a bracketed note, the first `(` is the note's. */
  lemma FirstParenAfterLabel(w: string, note: string)
    requires forall k :: 0 <= k < |w| ==> w[k] != '('
    ensures IndexFrom(w + " (" + note + ")", '(', 0) == Some(|w| + 1)
  {
    var s := w + " (" + note + ")";
    forall i | 0 <= i < |w| + 1
      ensures s[i] != '('
    {
      if i < |w| {
        assert s[i] == w[i];
      }
    }
    assert s[|w| + 1] == '(';
  }

  /** The first `)` after the note's `(` is the last character, the one that ends the note. */
  lemma ParenClosesAfterNote(w: string, note: string)
    requires forall k :: 0 <= k < |note| ==> note[k] != ')'
    ensures var s := w + " (" + note + ")"; IndexFrom(s, ')', |w| + 2) == Some(|s| - 1)
  {
    var s := w + " (" + note + ")";
    forall i | |w| + 2 <= i < |s| - 1
      ensures s[i] != ')'
    {
      assert s[i] == note[i - |w| - 2];
    }
    assert s[|s| - 1] == ')';
  }

  /** The white space the replacement removes with the note is the single space. */
  lemma SpaceBeforeNote(w: string, note: string)
    requires w == [] || !IsSpace(w[|w| - 1])
    ensures SpaceRunStart(w + " (" + note + ")", |w| + 1) == |w|
  {
    var s := w + " (" + note + ")";
    assert s[|w|] == ' ';
    assert w != [] ==> s[|w| - 1] == w[|w| - 1];
  }

  // ---------------------------------------------------------------- request

  /** The saved draft. The price is taken in whole shillings. */
  datatype Deal = Deal(
    transactionTitle: JVal, role: JVal, assetType: JVal, assetTitle: JVal, assetDescription: JVal,
    price: nat, terms: string, deadline: JVal)

  /** The create request: the draft, plus the counterparty's email and phone under the counterparty's names. */
  function RequestBody(deal: Deal, mail: string, contact: string): (body: map<string, JVal>)
    ensures deal.role == JStr("buyer") ==>
      (&& Get(body, "sellerEmail") == JStr(mail) && Get(body, "sellerContact") == JStr(contact)
       && "buyerEmail" !in body && "buyerContact" !in body)
    ensures deal.role != JStr("buyer") ==>
      (&& Get(body, "buyerEmail") == JStr(mail) && Get(body, "buyerContact") == JStr(contact)
       && "sellerEmail" !in body && "sellerContact" !in body)
    ensures Get(body, "terms") == JStr(SentTerms(deal.terms)) && Get(body, "role") == deal.role
  {
    DraftFields(deal);
    if deal.role == JStr("buyer") then Draft(deal)["sellerEmail" := JStr(mail)]["sellerContact" := JStr(contact)]
    else Draft(deal)["buyerEmail" := JStr(mail)]["buyerContact" := JStr(contact)]
  }

  /** The draft's own fields, sent as saved except the terms. */
  function Draft(deal: Deal): map<string, JVal>
  {
    map[
      "transactionTitle" := deal.transactionTitle, "role" := deal.role, "assetType" := deal.assetType,
      "assetTitle" := deal.assetTitle, "assetDescription" := deal.assetDescription,
      "price" := JNum(deal.price), "terms" := JStr(SentTerms(deal.terms)), "deadline" := deal.deadline]
  }

  /** The draft carries the sent terms and the role, and no contact field of either party. */
  lemma DraftFields(deal: Deal)
    ensures Get(Draft(deal), "terms") == JStr(SentTerms(deal.terms)) && Get(Draft(deal), "role") == deal.role
    ensures "sellerEmail" !in Draft(deal) && "sellerContact" !in Draft(deal)
    ensures "buyerEmail" !in Draft(deal) && "buyerContact" !in Draft(deal)
  {
  }

  /** The server's reading of the request; the deadline is parsed by the server and passed in. */
  function AsCreateBody(body: map<string, JVal>, price: nat, deadline: Option<int>): TransactionRoutes.CreateBody
  {
    TransactionRoutes.CreateBody(
      Get(body, "transactionTitle"), Get(body, "role"), Get(body, "assetType"), Get(body, "assetTitle"),
      Get(body, "assetDescription"), Some(price), Get(body, "terms"), deadline,
      Get(body, "buyerEmail"), Get(body, "buyerContact"), Get(body, "sellerEmail"), Get(body, "sellerContact"))
  }

  /**
   * Page and server agree on who the counterparty is when the role is
   * `buyer` or `seller`: the pending party the server records carries the
   * email and phone typed on the page. For any other role the page sends
   * buyer fields while the server makes the creator the buyer, so the
   * pending seller is stored without contact details.
   */
  lemma CounterpartyGetsContact(deal: Deal, mail: string, contact: string, caller: RoleCheck.AuthUser,
                                deadline: Option<int>)
    ensures var parties := TransactionRoutes.Parties(AsCreateBody(RequestBody(deal, mail, contact), deal.price, deadline), caller);
      && (deal.role == JStr("buyer") ==>
            parties.0 == TransactionModel.Party(None, JStr(mail), JStr("Pending Seller"), JStr(contact)))
      && (deal.role == JStr("seller") ==>
            parties.1 == TransactionModel.Party(None, JStr(mail), JStr("Pending Buyer"), JStr(contact)))
      && (deal.role !in {JStr("buyer"), JStr("seller")} ==>
            parties.0 == TransactionModel.Party(None, Undefined, JStr("Pending Seller"), Undefined))
  {
    var body := RequestBody(deal, mail, contact);
    assert Get(body, "role") == deal.role;
  }

  // ---------------------------------------------------------------- page state

  const EmailInvalid := "Enter a valid email."
  const PhoneInvalid := "Enter a valid Kenyan phone (e.g. +254712345678)."

  /** `inputsAreValid`. */
  predicate InputsValid(mail: string, contact: string)
  {
    EmailValid(mail) && KenyanPhone(contact)
  }

  /** The counterparty inputs, their messages, and the agreement box. */
  class SummaryForm {
    var mail: string
    var contact: string
    var agreed: bool
    var errors: map<string, string>

    /** The box can only be ticked over valid inputs, and the phone box holds a normalised number or nothing. */
    ghost predicate Valid()
      reads this
    {
      && (agreed ==> InputsValid(mail, contact))
      && (contact == "" || StartsWith(contact, "+254"))
    }

    constructor ()
      ensures Valid() && mail == "" && contact == "" && !agreed && errors == map[]
    {
      mail := "";
      contact := "";
      agreed := false;
      errors := map[];
    }

    /** `handleEmailChange`: store the text, set or clear its message, and untick the box. */
    method EmailChange(value: string)
      requires Valid()
      modifies this
      ensures Valid()
      ensures mail == value && contact == old(contact) && !agreed
      ensures errors == old(errors)["email" := if EmailValid(value) then "" else EmailInvalid]
    {
      mail := value;
      errors := errors["email" := if EmailValid(value) then "" else EmailInvalid];
      agreed := false;
    }

    /** `handlePhoneChange`: store the normalised number, set or clear its message, and untick the box. */
    method PhoneChange(value: string)
      requires Valid()
      modifies this
      ensures Valid()
      ensures contact == Normalize(value) && mail == old(mail) && !agreed
      ensures errors == old(errors)["contact" := if KenyanPhone(Normalize(value)) then "" else PhoneInvalid]
    {
      contact := Normalize(value);
      errors := errors["contact" := if KenyanPhone(contact) then "" else PhoneInvalid];
      agreed := false;
    }

    /** A click on the box: it flips only while it is enabled, that is over valid inputs. */
    method ToggleAgree()
      requires Valid()
      modifies this
      ensures Valid()
      ensures InputsValid(mail, contact) ==> agreed == !old(agreed)
      ensures !InputsValid(mail, contact) ==> agreed == old(agreed)
      ensures mail == old(mail) && contact == old(contact) && errors == old(errors)
    {
      if InputsValid(mail, contact) {
        agreed := !agreed;
      }
    }

    /** The Start button appears only when the box is ticked, hence only over valid inputs. */
    function StartShown(): (shown: bool)
      requires Valid()
      reads this
      ensures shown ==> InputsValid(mail, contact)
    {
      agreed
    }
  }
}
