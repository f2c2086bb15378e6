/**
 * The four-step profile verification wizard: the checks each step makes
 * before it lets the user on, the step counter and its progress bar, the
 * field handler, and the submit that posts the whole form.
 */
module VerifyProfile {
  import opened Common
  import PaymentInvoice
  import FormChecks
  import AuthRoutes

  // ---------------------------------------------------------------- form data

  /** A form entry: the text of a text box or select, a checkbox's state, the chosen file, or none (`null`, `undefined`). */
  datatype Entry = Text(s: string) | Flag(on: bool) | File(name: string) | NoFile

  predicate EntryTruthy(v: Entry)
  {
    match v
    case Text(s) => s != ""
    case Flag(b) => b
    case File(_) => true
    case NoFile => false
  }

  const TextFields: set<string> := {"fullName", "dob", "street", "city", "county", "postalCode", "phone",
    "idType", "idNumber", "payoutMethod", "bankName", "accountName", "accountNumber", "bankBranch",
    "mpesaNumber", "referralCode"}
  const FileFields: set<string> := {"idFile", "selfie"}
  const FlagFields: set<string> := {"agreeTerms", "agreePrivacy"}

  /** The inputs each step renders. */
  function StepFields(step: int): (f: set<string>)
    ensures f <= TextFields + FileFields + FlagFields
  {
    if step == 1 then {"fullName", "dob", "street", "city", "county", "postalCode", "phone"}
    else if step == 2 then {"idType", "idNumber", "idFile", "selfie"}
    else if step == 3 then {"payoutMethod", "bankName", "accountName", "accountNumber", "bankBranch", "mpesaNumber"}
    else if step == 4 then {"referralCode", "agreeTerms", "agreePrivacy"}
    else {}
  }

  /** The kind of entry the input of that name gives. */
  predicate EntryFits(name: string, v: Entry)
  {
    if name in FlagFields then v.Flag? else if name in FileFields then v.File? || v.NoFile? else v.Text?
  }

  /**
   * Every text field is present, and every entry is of the kind its input
   * gives, so `.trim()` and `.replace()` apply to the text fields.
   */
  ghost predicate Shaped(form: map<string, Entry>)
  {
    && (forall k :: k in TextFields ==> k in form)
    && (forall k :: k in form ==> EntryFits(k, form[k]))
  }

  /** Storing an entry of the right kind keeps the form shaped. */
  lemma ShapedUpdate(form: map<string, Entry>, k: string, v: Entry)
    requires Shaped(form) && EntryFits(k, v)
    ensures Shaped(form[k := v])
  {
  }

  /** The text of a field; anything else reads as empty. */
  function TextOf(form: map<string, Entry>, k: string): string
  {
    if k in form && form[k].Text? then form[k].s else ""
  }

  function EntryOf(form: map<string, Entry>, k: string): Entry
  {
    if k in form then form[k] else NoFile
  }

  /** The form the page starts with when no draft was saved. */
  function EmptyForm(): (form: map<string, Entry>)
    ensures Shaped(form)
    ensures forall k :: k in form ==> !EntryTruthy(form[k])
  {
    map k | k in TextFields + FileFields + FlagFields ::
      if k in FlagFields then Flag(false) else if k in FileFields then NoFile else Text("")
  }

  // ---------------------------------------------------------------- age

  /** A calendar date as the page reads it (`getFullYear`, `getMonth`, `getDate`). */
  datatype Date = Date(year: int, month: int, day: int)

  /** `a` comes strictly before `b`. */
  predicate DateBefore(a: Date, b: Date)
  {
    a.year < b.year || (a.year == b.year && (a.month < b.month || (a.month == b.month && a.day < b.day)))
  }

  /**
   * The age on `today`: the difference of the years, one less when this
   * year's birthday is still to come. It is the number of birthdays that
   * have passed, so it reaches 18 exactly on the eighteenth birthday.
   */
  function ActualAge(birth: Date, today: Date): (age: int)
    ensures !DateBefore(today, Date(birth.year + age, birth.month, birth.day))
    ensures DateBefore(today, Date(birth.year + age + 1, birth.month, birth.day))
    ensures age >= 18 <==> !DateBefore(today, Date(birth.year + 18, birth.month, birth.day))
  {
    var age := today.year - birth.year;
    var monthDiff := today.month - birth.month;
    if monthDiff < 0 || (monthDiff == 0 && today.day < birth.day) then age - 1 else age
  }

  // ---------------------------------------------------------------- formats

  /** `^(\+254|254|0)[17]\d{8}$`. */
  predicate ProfilePhonePattern(s: string)
  {
    || (StartsWith(s, "+254") && PaymentInvoice.Subscriber(s[4..]))
    || (StartsWith(s, "254") && PaymentInvoice.Subscriber(s[3..]))
    || (StartsWith(s, "0") && PaymentInvoice.Subscriber(s[1..]))
  }

  /** `^2547\d{8}$`. */
  predicate MpesaNumberPattern(s: string)
  {
    |s| == 12 && StartsWith(s, "2547") && AllDigits(s[4..])
  }

  /** `^\d{8}$`. */
  predicate NationalIdPattern(s: string)
  {
    |s| == 8 && AllDigits(s)
  }

  /** `^[A-Z]\d{7}$`. */
  predicate PassportPattern(s: string)
  {
    |s| == 8 && IsUpper(s[0]) && AllDigits(s[1..])
  }

  /** `^[A-Z]{2}\d{6}[A-Z]{2}$`. */
  predicate LicencePattern(s: string)
  {
    |s| == 10 && IsUpper(s[0]) && IsUpper(s[1]) && AllDigits(s[2..8]) && IsUpper(s[8]) && IsUpper(s[9])
  }

  /** The format the chosen ID type demands; any other type demands none. */
  predicate IdFormatOk(idType: string, idNumber: string)
  {
    && (idType == "national_id" ==> NationalIdPattern(idNumber))
    && (idType == "passport" ==> PassportPattern(idNumber))
    && (idType == "driver_license" ==> LicencePattern(idNumber))
  }

  /** The three ID formats never accept the same number. */
  lemma IdFormatsDisjoint(s: string)
    ensures !(NationalIdPattern(s) && PassportPattern(s))
    ensures !(NationalIdPattern(s) && LicencePattern(s)) && !(PassportPattern(s) && LicencePattern(s))
  {
    assert NationalIdPattern(s) ==> IsDigit(s[0]);
  }

  /**
   * Every number the invoice page accepts, and every `+254` number the
   * other forms accept, passes the profile's phone check; a number with
   * the `+` passes it exactly when it is such a `+254` number.
   */
  lemma ProfilePhoneCoversOtherForms(s: string)
    ensures PaymentInvoice.MpesaPattern(s) ==> ProfilePhonePattern(s)
    ensures FormChecks.KenyanPhone(s) ==> ProfilePhonePattern(s)
    ensures StartsWith(s, "+") ==> (ProfilePhonePattern(s) <==> FormChecks.KenyanPhone(s))
  {
    assert StartsWith(s, "+") ==> s[0] == s[..1][0];
    assert StartsWith(s, "254") ==> s[0] == s[..3][0];
    assert StartsWith(s, "0") ==> s[0] == s[..1][0];
    if FormChecks.KenyanPhone(s) {
      assert s[5..] == s[4..][1..];
    }
    if StartsWith(s, "+254") && PaymentInvoice.Subscriber(s[4..]) {
      assert s[5..] == s[4..][1..];
      assert s[4] == s[4..][0];
    }
  }

  /**
   * The payout number check is stricter than the invoice page's: a
   * `2547…` number passes both, while a `2541…` number, which the invoice
   * page takes, is refused here.
   */
  lemma MpesaNumberStricterThanInvoice(s: string, d: string)
    ensures MpesaNumberPattern(s) ==> PaymentInvoice.MpesaPattern(s)
    ensures |d| == 8 && AllDigits(d) ==> PaymentInvoice.MpesaPattern("2541" + d) && !MpesaNumberPattern("2541" + d)
  {
    if MpesaNumberPattern(s) {
      assert s[3..][1..] == s[4..];
      assert s[3] == s[..4][3];
      assert s[..3] == s[..4][..3];
    }
    var t := "2541" + d;
    assert t[..3] == "254" && t[3..] == "1" + d && t[3..][1..] == d;
    assert t[..4] == "2541";
  }

  // ---------------------------------------------------------------- steps

  const FullNameRequired := "Full name is required"
  const DobRequired := "Date of birth is required"
  const Underage := "You must be at least 18 years old"
  const PhoneRequired := "Phone number is required"
  const PhoneInvalid := "Please enter a valid Kenyan phone number"
  const IdTypeRequired := "ID type is required"
  const IdNumberRequired := "ID number is required"
  const NationalIdInvalid := "National ID must be 8 digits"
  const PassportInvalid := "Passport must be 1 letter followed by 7 digits"
  const LicenceInvalid := "Driver's license must be 2 letters, 6 digits, 2 letters"
  const PayoutRequired := "Payout method is required"
  const BankNameRequired := "Bank name is required"
  const AccountNameRequired := "Account holder name is required"
  const AccountNumberRequired := "Account number is required"
  const BranchRequired := "Bank branch is required"
  const MpesaRequired := "M-Pesa number is required"
  const MpesaInvalid := "Please enter a valid M-Pesa number (e.g., 2547XXXXXXXX)"
  const TermsRequired := "You must agree to the terms"
  const PrivacyRequired := "You must agree to privacy policy"

  /**
   * The date of birth: filled in, and 18 years old today. A text that is
   * no date (`birth` is `None`) gives NaN for the age, and NaN is not
   * below 18.
   */
  predicate DobOk(dob: string, birth: Option<Date>, today: Date)
  {
    dob != "" && (birth.Some? ==> ActualAge(birth.value, today) >= 18)
  }

  predicate PhoneOk(phone: string)
  {
    !Blank(phone) && ProfilePhonePattern(StripSpaces(phone))
  }

  predicate MpesaOk(number: string)
  {
    !Blank(number) && MpesaNumberPattern(StripSpaces(number))
  }

  predicate BankOk(form: map<string, Entry>)
  {
    !Blank(TextOf(form, "bankName")) && !Blank(TextOf(form, "accountName"))
    && !Blank(TextOf(form, "accountNumber")) && !Blank(TextOf(form, "bankBranch"))
  }

  /** Step 1: a name, an adult's date of birth, and a Kenyan phone number. */
  predicate PersonalOk(form: map<string, Entry>, dateOf: string -> Option<Date>, today: Date)
  {
    && !Blank(TextOf(form, "fullName"))
    && DobOk(TextOf(form, "dob"), dateOf(TextOf(form, "dob")), today)
    && PhoneOk(TextOf(form, "phone"))
  }

  /** Step 2: an ID type, and a number in that type's format. */
  predicate IdentityOk(form: map<string, Entry>)
  {
    TextOf(form, "idType") != "" && !Blank(TextOf(form, "idNumber"))
    && IdFormatOk(TextOf(form, "idType"), TextOf(form, "idNumber"))
  }

  /** Step 3: a payout method, and the fields that method needs. */
  predicate PayoutOk(form: map<string, Entry>)
  {
    && TextOf(form, "payoutMethod") != ""
    && (TextOf(form, "payoutMethod") == "bank" ==> BankOk(form))
    && (TextOf(form, "payoutMethod") == "mpesa" ==> MpesaOk(TextOf(form, "mpesaNumber")))
  }

  /** Step 4: both consents. */
  predicate ConsentOk(form: map<string, Entry>)
  {
    EntryTruthy(EntryOf(form, "agreeTerms")) && EntryTruthy(EntryOf(form, "agreePrivacy"))
  }

  /** What each step demands of the form before the user may leave it forwards. */
  predicate StepOk(step: int, form: map<string, Entry>, dateOf: string -> Option<Date>, today: Date)
  {
    if step == 1 then PersonalOk(form, dateOf, today)
    else if step == 2 then IdentityOk(form)
    else if step == 3 then PayoutOk(form)
    else if step == 4 then ConsentOk(form)
    else true
  }

  /** The step whose screen renders a field, or 0 for a name no step renders: no field is on two steps. */
  function FieldStep(name: string): (step: int)
    ensures 0 <= step <= 4
    ensures forall s :: name in StepFields(s) <==> s == step && step != 0
  {
    if name in StepFields(1) then 1
    else if name in StepFields(2) then 2
    else if name in StepFields(3) then 3
    else if name in StepFields(4) then 4
    else 0
  }

  // Each step's verdict reads only the fields that step renders.

  lemma PersonalReadsOwnFields(form: map<string, Entry>, dateOf: string -> Option<Date>, today: Date, k: string, v: Entry)
    requires k !in StepFields(1)
    ensures PersonalOk(form[k := v], dateOf, today) == PersonalOk(form, dateOf, today)
  {
    var m := form[k := v];
    assert TextOf(m, "fullName") == TextOf(form, "fullName") && TextOf(m, "dob") == TextOf(form, "dob");
    assert TextOf(m, "phone") == TextOf(form, "phone");
  }

  lemma IdentityReadsOwnFields(form: map<string, Entry>, k: string, v: Entry)
    requires k !in StepFields(2)
    ensures IdentityOk(form[k := v]) == IdentityOk(form)
  {
    var m := form[k := v];
    assert TextOf(m, "idType") == TextOf(form, "idType") && TextOf(m, "idNumber") == TextOf(form, "idNumber");
  }

  lemma PayoutReadsOwnFields(form: map<string, Entry>, k: string, v: Entry)
    requires k !in StepFields(3)
    ensures PayoutOk(form[k := v]) == PayoutOk(form)
  {
    var m := form[k := v];
    assert TextOf(m, "payoutMethod") == TextOf(form, "payoutMethod");
    assert TextOf(m, "mpesaNumber") == TextOf(form, "mpesaNumber");
    assert BankOk(m) == BankOk(form);
  }

  /** A change to a field of one step leaves the verdicts of the steps before it as they were. */
  lemma EarlierStepsUnaffected(form: map<string, Entry>, dateOf: string -> Option<Date>, today: Date, step: int, k: string, v: Entry)
    requires k in StepFields(step)
    ensures step > 1 ==> PersonalOk(form[k := v], dateOf, today) == PersonalOk(form, dateOf, today)
    ensures step > 2 ==> IdentityOk(form[k := v]) == IdentityOk(form)
    ensures step > 3 ==> PayoutOk(form[k := v]) == PayoutOk(form)
  {
    assert FieldStep(k) == step;
    if step > 1 {
      PersonalReadsOwnFields(form, dateOf, today, k, v);
    }
    if step > 2 {
      IdentityReadsOwnFields(form, k, v);
    }
    if step > 3 {
      PayoutReadsOwnFields(form, k, v);
    }
  }

  /** Step 1's messages, field by field, in the order the page writes them. */
  method PersonalErrors(form: map<string, Entry>, birth: Option<Date>, today: Date) returns (errors: map<string, string>)
    ensures errors.Keys == {} <==>
      !Blank(TextOf(form, "fullName")) && DobOk(TextOf(form, "dob"), birth, today) && PhoneOk(TextOf(form, "phone"))
    ensures errors.Keys <= {"fullName", "dob", "phone"}
    ensures "fullName" in errors <==> Blank(TextOf(form, "fullName"))
    ensures "dob" in errors <==> !DobOk(TextOf(form, "dob"), birth, today)
    ensures "phone" in errors <==> !PhoneOk(TextOf(form, "phone"))
    ensures TextOf(form, "dob") == "" ==> errors["dob"] == DobRequired
    ensures TextOf(form, "dob") != "" && !DobOk(TextOf(form, "dob"), birth, today) ==> errors["dob"] == Underage
    ensures Blank(TextOf(form, "phone")) ==> errors["phone"] == PhoneRequired
    ensures !Blank(TextOf(form, "phone")) && !PhoneOk(TextOf(form, "phone")) ==> errors["phone"] == PhoneInvalid
  {
    errors := map[];
    if Blank(TextOf(form, "fullName")) {
      errors := errors["fullName" := FullNameRequired];
    }
    var dob := TextOf(form, "dob");
    if dob == "" {
      errors := errors["dob" := DobRequired];
    } else if birth.Some? && ActualAge(birth.value, today) < 18 {
      errors := errors["dob" := Underage];
    }
    var phone := TextOf(form, "phone");
    if Blank(phone) {
      errors := errors["phone" := PhoneRequired];
    } else if !ProfilePhonePattern(StripSpaces(phone)) {
      errors := errors["phone" := PhoneInvalid];
    }
    if !Blank(TextOf(form, "fullName")) && DobOk(TextOf(form, "dob"), birth, today) && PhoneOk(TextOf(form, "phone")) {
      assert errors.Keys == {};
    } else {
      assert "fullName" in errors || "dob" in errors || "phone" in errors;
    }
  }

  /** Step 2's messages: the type, then the number and its format for the chosen type. */
  method IdentityErrors(form: map<string, Entry>) returns (errors: map<string, string>)
    ensures errors.Keys == {} <==> IdentityOk(form)
    ensures errors.Keys <= {"idType", "idNumber"}
    ensures "idType" in errors <==> TextOf(form, "idType") == ""
    ensures "idNumber" in errors <==>
      (Blank(TextOf(form, "idNumber")) || !IdFormatOk(TextOf(form, "idType"), TextOf(form, "idNumber")))
    ensures Blank(TextOf(form, "idNumber")) ==> errors["idNumber"] == IdNumberRequired
    ensures (!Blank(TextOf(form, "idNumber")) && TextOf(form, "idType") == "passport"
             && !PassportPattern(TextOf(form, "idNumber"))) ==> errors["idNumber"] == PassportInvalid
  {
    errors := map[];
    var idType := TextOf(form, "idType");
    var idNumber := TextOf(form, "idNumber");
    if idType == "" {
      errors := errors["idType" := IdTypeRequired];
    }
    if Blank(idNumber) {
      errors := errors["idNumber" := IdNumberRequired];
    } else if idType == "national_id" && !NationalIdPattern(idNumber) {
      errors := errors["idNumber" := NationalIdInvalid];
    } else if idType == "passport" && !PassportPattern(idNumber) {
      errors := errors["idNumber" := PassportInvalid];
    } else if idType == "driver_license" && !LicencePattern(idNumber) {
      errors := errors["idNumber" := LicenceInvalid];
    }
    if IdentityOk(form) {
      assert errors.Keys == {};
    } else {
      assert "idType" in errors || "idNumber" in errors;
    }
  }

  /** Step 3's messages: the method, then the fields of the chosen method. */
  method PayoutErrors(form: map<string, Entry>) returns (errors: map<string, string>)
    ensures errors.Keys == {} <==> PayoutOk(form)
    ensures errors.Keys <= {"payoutMethod", "bankName", "accountName", "accountNumber", "bankBranch", "mpesaNumber"}
    ensures "payoutMethod" in errors <==> TextOf(form, "payoutMethod") == ""
    ensures TextOf(form, "payoutMethod") == "bank" ==>
      (&& ("bankName" in errors <==> Blank(TextOf(form, "bankName")))
       && ("accountName" in errors <==> Blank(TextOf(form, "accountName")))
       && ("accountNumber" in errors <==> Blank(TextOf(form, "accountNumber")))
       && ("bankBranch" in errors <==> Blank(TextOf(form, "bankBranch")))
       && "mpesaNumber" !in errors)
    ensures TextOf(form, "payoutMethod") == "mpesa" ==>
      (&& ("mpesaNumber" in errors <==> !MpesaOk(TextOf(form, "mpesaNumber")))
       && errors.Keys <= {"mpesaNumber"})
    ensures TextOf(form, "payoutMethod") != "bank" && TextOf(form, "payoutMethod") != "mpesa" ==>
      errors.Keys <= {"payoutMethod"}
    ensures (TextOf(form, "payoutMethod") == "mpesa" && !Blank(TextOf(form, "mpesaNumber"))
             && !MpesaOk(TextOf(form, "mpesaNumber"))) ==> errors["mpesaNumber"] == MpesaInvalid
  {
    errors := map[];
    var method_ := TextOf(form, "payoutMethod");
    if method_ == "" {
      errors := errors["payoutMethod" := PayoutRequired];
    }
    if method_ == "bank" {
      if Blank(TextOf(form, "bankName")) {
        errors := errors["bankName" := BankNameRequired];
      }
      if Blank(TextOf(form, "accountName")) {
        errors := errors["accountName" := AccountNameRequired];
      }
      if Blank(TextOf(form, "accountNumber")) {
        errors := errors["accountNumber" := AccountNumberRequired];
      }
      if Blank(TextOf(form, "bankBranch")) {
        errors := errors["bankBranch" := BranchRequired];
      }
    } else if method_ == "mpesa" {
      var number := TextOf(form, "mpesaNumber");
      if Blank(number) {
        errors := errors["mpesaNumber" := MpesaRequired];
      } else if !MpesaNumberPattern(StripSpaces(number)) {
        errors := errors["mpesaNumber" := MpesaInvalid];
      }
    }
    if PayoutOk(form) {
      assert errors.Keys == {};
    } else {
      assert "payoutMethod" in errors || "bankName" in errors || "accountName" in errors || "accountNumber" in errors || "bankBranch" in errors || "mpesaNumber" in errors;
    }
  }

  /** Step 4's messages: one per consent not given. */
  method ConsentErrors(form: map<string, Entry>) returns (errors: map<string, string>)
    ensures errors.Keys == {} <==> ConsentOk(form)
    ensures errors.Keys <= {"agreeTerms", "agreePrivacy"}
    ensures "agreeTerms" in errors <==> !EntryTruthy(EntryOf(form, "agreeTerms"))
    ensures "agreePrivacy" in errors <==> !EntryTruthy(EntryOf(form, "agreePrivacy"))
    ensures "agreeTerms" in errors ==> errors["agreeTerms"] == TermsRequired
  {
    errors := map[];
    if !EntryTruthy(EntryOf(form, "agreeTerms")) {
      errors := errors["agreeTerms" := TermsRequired];
    }
    if !EntryTruthy(EntryOf(form, "agreePrivacy")) {
      errors := errors["agreePrivacy" := PrivacyRequired];
    }
    if ConsentOk(form) {
      assert errors.Keys == {};
    } else {
      assert "agreeTerms" in errors || "agreePrivacy" in errors;
    }
  }

  /** `validateStep`: the step's messages, and whether there are none. */
  method StepErrors(step: int, form: map<string, Entry>, dateOf: string -> Option<Date>, today: Date) returns (errors: map<string, string>, ok: bool)
    ensures ok <==> StepOk(step, form, dateOf, today)
    ensures ok <==> |errors| == 0
    ensures errors.Keys <= StepFields(step)
  {
    if step == 1 {
      errors := PersonalErrors(form, dateOf(TextOf(form, "dob")), today);
    } else if step == 2 {
      errors := IdentityErrors(form);
    } else if step == 3 {
      errors := PayoutErrors(form);
    } else if step == 4 {
      errors := ConsentErrors(form);
    } else {
      errors := map[];
    }
    ok := |errors| == 0;
    if !StepOk(step, form, dateOf, today) {
      var k :| k in errors;
    }
  }

  /** `progress`: `Math.round(step / 4 * 100)`, a quarter per step. */
  function Progress(step: int): (p: int)
    ensures 1 <= step <= 4 ==> p == 25 * step
    ensures 1 <= step <= 4 ==> (p == 100 <==> step == 4)
  {
    RoundDiv(step * 100, 4)
  }

  // ---------------------------------------------------------------- submission

  /** A form entry as it travels in the JSON body; a chosen file is not modelled and is left out. */
  function BodyOf(form: map<string, Entry>): (body: map<string, JVal>)
    ensures forall k :: k in form && form[k].Text? ==> k in body && body[k] == JStr(form[k].s)
    ensures forall k :: k in form && form[k].Flag? ==> k in body && body[k] == JBool(form[k].on)
  {
    map k | k in form && !form[k].File? :: match form[k]
      case Text(s) => JStr(s)
      case Flag(b) => JBool(b)
      case _ => Null
  }

  /** A filled-in text field is a non-empty string in the body. */
  lemma FilledTextSent(form: map<string, Entry>, k: string)
    requires TextOf(form, k) != ""
    ensures Get(BodyOf(form), k) == JStr(TextOf(form, k)) && Truthy(Get(BodyOf(form), k))
  {
  }

  /** Both consents given on the form are both truthy in the body. */
  lemma ConsentSent(form: map<string, Entry>)
    requires Shaped(form) && ConsentOk(form)
    ensures AuthRoutes.ConsentGiven(BodyOf(form))
  {
    assert "agreeTerms" in form && "agreePrivacy" in form;
    assert EntryFits("agreeTerms", form["agreeTerms"]) && EntryFits("agreePrivacy", form["agreePrivacy"]);
  }

  /** A payout step that passes sends the fields the server asks of the chosen method. */
  lemma PayoutSent(form: map<string, Entry>)
    requires PayoutOk(form)
    ensures Get(BodyOf(form), "payoutMethod") == JStr(TextOf(form, "payoutMethod"))
    ensures TextOf(form, "payoutMethod") == "bank" ==> AuthRoutes.BankComplete(BodyOf(form))
    ensures TextOf(form, "payoutMethod") == "mpesa" ==> Truthy(Get(BodyOf(form), "mpesaNumber"))
  {
    FilledTextSent(form, "payoutMethod");
    if TextOf(form, "payoutMethod") == "bank" {
      FilledTextSent(form, "bankName");
      FilledTextSent(form, "accountName");
      FilledTextSent(form, "accountNumber");
    }
    if TextOf(form, "payoutMethod") == "mpesa" {
      FilledTextSent(form, "mpesaNumber");
    }
  }

  /**
   * A form that passes all four steps also passes the server's own checks
   * on verify-profile: every field the server requires is truthy in the
   * body, and so are the fields of the chosen payout method.
   */
  lemma WizardFormPassesServer(form: map<string, Entry>, dateOf: string -> Option<Date>, today: Date)
    requires Shaped(form)
    requires PersonalOk(form, dateOf, today) && IdentityOk(form) && PayoutOk(form) && ConsentOk(form)
    ensures AuthRoutes.VerifyRefusal(BodyOf(form)) == None
  {
    ServerSkipsIdFormat(form, dateOf, today);
  }

  /**
   * The server asks only that an ID type and number be present: a form
   * passing steps 1, 3 and 4 with both filled in passes its checks,
   * whatever the format of the number.
   */
  lemma ServerSkipsIdFormat(form: map<string, Entry>, dateOf: string -> Option<Date>, today: Date)
    requires Shaped(form)
    requires PersonalOk(form, dateOf, today) && PayoutOk(form) && ConsentOk(form)
    requires TextOf(form, "idType") != "" && TextOf(form, "idNumber") != ""
    ensures AuthRoutes.VerifyRefusal(BodyOf(form)) == None
  {
    var body := BodyOf(form);
    FilledTextSent(form, "fullName");
    FilledTextSent(form, "dob");
    FilledTextSent(form, "idType");
    FilledTextSent(form, "idNumber");
    PayoutSent(form);
    ConsentSent(form);
    assert AuthRoutes.CoreFieldsPresent(body);
  }

  /**
   * A form that reached step 4 and went back to step 2, where the user
   * chose a passport and typed "12345678" into the ID number and pressed
   * Enter: it still passes steps 1, 3 and 4, so `handleSubmit` sends it,
   * it fails the passport format, and the server accepts it.
   */
  lemma EnterAtIdentityStepSendsBadId(form: map<string, Entry>, dateOf: string -> Option<Date>, today: Date)
    requires Shaped(form)
    requires PersonalOk(form, dateOf, today) && PayoutOk(form) && ConsentOk(form)
    ensures var f := form["idType" := Text("passport")]["idNumber" := Text("12345678")];
      && Shaped(f) && PersonalOk(f, dateOf, today) && PayoutOk(f) && ConsentOk(f)
      && !IdentityOk(f)
      && AuthRoutes.VerifyRefusal(BodyOf(f)) == None
  {
    var f := form["idType" := Text("passport")]["idNumber" := Text("12345678")];
    IdentityEditKeepsOtherSteps(form, dateOf, today, "passport", "12345678");
    assert TextOf(f, "idNumber") == "12345678" && TextOf(f, "idType") == "passport";
    assert !PassportPattern("12345678") by { assert !IsUpper('1'); }
    ServerSkipsIdFormat(f, dateOf, today);
  }

  /** Typing an ID type and number leaves the form shaped and the other steps' verdicts as they were. */
  lemma IdentityEditKeepsOtherSteps(form: map<string, Entry>, dateOf: string -> Option<Date>, today: Date, idType: string, idNumber: string)
    requires Shaped(form)
    ensures var f := form["idType" := Text(idType)]["idNumber" := Text(idNumber)];
      && Shaped(f)
      && PersonalOk(f, dateOf, today) == PersonalOk(form, dateOf, today)
      && PayoutOk(f) == PayoutOk(form) && ConsentOk(f) == ConsentOk(form)
  {
    var g := form["idType" := Text(idType)];
    ShapedUpdate(form, "idType", Text(idType));
    ShapedUpdate(g, "idNumber", Text(idNumber));
    IdentityEditKeepsVerdicts(form, dateOf, today, idType, idNumber);
  }

  lemma IdentityEditKeepsVerdicts(form: map<string, Entry>, dateOf: string -> Option<Date>, today: Date, idType: string, idNumber: string)
    ensures var f := form["idType" := Text(idType)]["idNumber" := Text(idNumber)];
      && PersonalOk(f, dateOf, today) == PersonalOk(form, dateOf, today)
      && PayoutOk(f) == PayoutOk(form) && ConsentOk(f) == ConsentOk(form)
  {
    var g := form["idType" := Text(idType)];
    IdentityFieldKeepsVerdicts(form, dateOf, today, "idType", Text(idType));
    IdentityFieldKeepsVerdicts(g, dateOf, today, "idNumber", Text(idNumber));
  }

  /** A field of step 2 is read by no other step's verdict. */
  lemma IdentityFieldKeepsVerdicts(form: map<string, Entry>, dateOf: string -> Option<Date>, today: Date, k: string, v: Entry)
    requires k in StepFields(2)
    ensures PersonalOk(form[k := v], dateOf, today) == PersonalOk(form, dateOf, today)
    ensures PayoutOk(form[k := v]) == PayoutOk(form) && ConsentOk(form[k := v]) == ConsentOk(form)
  {
    assert FieldStep(k) == 2;
    PersonalReadsOwnFields(form, dateOf, today, k, v);
    PayoutReadsOwnFields(form, k, v);
    assert EntryOf(form[k := v], "agreeTerms") == EntryOf(form, "agreeTerms");
    assert EntryOf(form[k := v], "agreePrivacy") == EntryOf(form, "agreePrivacy");
  }

  // ---------------------------------------------------------------- the page

  /** The input kinds the page renders. */
  datatype InputKind = TextBox | Checkbox | FilePicker

  /** The parts of the change event `handleChange` reads. */
  datatype Change = Change(name: string, kind: InputKind, value: string, checked: bool, files: seq<string>)

  /** `type === "checkbox" ? checked : files ? files[0] : value`. */
  function ChangeValue(e: Change): (v: Entry)
    ensures e.kind == TextBox ==> v == Text(e.value)
    ensures e.kind == Checkbox ==> v == Flag(e.checked)
    ensures e.kind == FilePicker ==> (v.File? <==> e.files != [])
  {
    match e.kind
    case Checkbox => Flag(e.checked)
    case FilePicker => if e.files == [] then NoFile else File(e.files[0])
    case TextBox => Text(e.value)
  }

  /** The kind of input the page renders for each field. */
  function KindOf(name: string): InputKind
  {
    if name in FlagFields then Checkbox else if name in FileFields then FilePicker else TextBox
  }

  /** The wizard's state; the reading of the date of birth and today's date are fixed for a visit. */
  class Wizard {
    const dateOf: string -> Option<Date>
    const today: Date
    var step: int
    var formData: map<string, Entry>
    var errors: map<string, string>

    /**
     * The step stays within 1..4, and every step before the current one
     * passes its checks on the current form.
     */
    ghost predicate Valid()
      reads this
    {
      && 1 <= step <= 4
      && Shaped(formData)
      && (step > 1 ==> PersonalOk(formData, dateOf, today))
      && (step > 2 ==> IdentityOk(formData))
      && (step > 3 ==> PayoutOk(formData))
    }

    /** A visit starts at step 1, with the saved draft or the empty form. */
    constructor (dateOf: string -> Option<Date>, today: Date, draft: Option<map<string, Entry>>)
      requires draft.Some? ==> Shaped(draft.value)
      ensures Valid()
      ensures step == 1 && errors == map[] && this.dateOf == dateOf && this.today == today
      ensures formData == if draft.Some? then draft.value else EmptyForm()
    {
      this.dateOf := dateOf;
      this.today := today;
      step := 1;
      formData := if draft.Some? then draft.value else EmptyForm();
      errors := map[];
    }

    /** `handleChange` on one of the inputs the current step renders. */
    method HandleChange(e: Change)
      requires Valid()
      requires e.name in StepFields(step) && e.kind == KindOf(e.name)
      modifies this
      ensures Valid()
      ensures formData == old(formData)[e.name := ChangeValue(e)] && step == old(step)
      ensures errors == if e.name in old(errors) && old(errors)[e.name] != "" then old(errors)[e.name := ""] else old(errors)
    {
      var v := ChangeValue(e);
      assert EntryFits(e.name, v);
      ShapedUpdate(formData, e.name, v);
      EarlierStepsUnaffected(formData, dateOf, today, step, e.name, v);
      formData := formData[e.name := v];
      if e.name in errors && errors[e.name] != "" {
        errors := errors[e.name := ""];
      }
    }

    /** `validateStep(s)`: the step's messages replace the old ones. */
    method ValidateStep(s: int) returns (ok: bool)
      modifies this
      ensures ok <==> StepOk(s, formData, dateOf, today)
      ensures ok <==> errors == map[]
      ensures errors.Keys <= StepFields(s)
      ensures formData == old(formData) && step == old(step)
    {
      errors, ok := StepErrors(s, formData, dateOf, today);
      if ok {
        assert errors.Keys == {};
      }
    }

    /** "Save and next", shown below step 4: forwards only when the step passes. */
    method NextStep()
      requires Valid() && step < 4
      modifies this
      ensures Valid()
      ensures StepOk(old(step), formData, dateOf, today) ==> step == old(step) + 1
      ensures !StepOk(old(step), formData, dateOf, today) ==> step == old(step)
      ensures formData == old(formData)
    {
      var ok := ValidateStep(step);
      if ok {
        step := step + 1;
      }
    }

    /** "Back", shown above step 1: always one step back. */
    method PrevStep()
      requires Valid() && step > 1
      modifies this
      ensures Valid()
      ensures step == old(step) - 1 && formData == old(formData) && errors == old(errors)
    {
      step := step - 1;
    }

    /**
     * `handleSubmit`, which checks step 4 alone. The Submit button of
     * step 4 reaches it, and so does Enter in a step whose only text box
     * is the form's single field blocking implicit submission (the ID
     * number of step 2, the M-Pesa number of step 3). A form sent from
     * step 4 passes every step, and so the server's checks; one sent
     * earlier carries only the steps already left behind.
     */
    method Submit() returns (sent: Option<map<string, JVal>>)
      requires Valid()
      modifies this
      ensures Valid()
      ensures sent.Some? <==> ConsentOk(formData)
      ensures sent.Some? ==> sent.value == BodyOf(formData)
      ensures sent.Some? ==>
        && (step > 1 ==> PersonalOk(formData, dateOf, today))
        && (step > 2 ==> IdentityOk(formData))
        && (step > 3 ==> PayoutOk(formData))
      ensures sent.Some? && step == 4 ==> AuthRoutes.VerifyRefusal(sent.value) == None
      ensures formData == old(formData) && step == old(step)
    {
      var ok := ValidateStep(4);
      if !ok {
        return None;
      }
      if step == 4 {
        WizardFormPassesServer(formData, dateOf, today);
      }
      sent := Some(BodyOf(formData));
    }
  }
}
