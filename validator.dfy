/**
 * The request-validation rule sets. A rule set is a list of field chains;
 * each chain reads one field, may sanitise it (trim), and runs its checks in
 * order. Every failing check is reported, not only the first, and the error
 * handler answers 400 with one detail per failure when any check failed.
 */
module Validator {
  import opened Common
  import opened TransactionModel
  import Invoice
  import TransactionRoutes

  // ---------------------------------------------------------------- values and formats

  /** The text a check sees: `null` and `undefined` read as the empty string. */
  function Text(v: JVal): string
  {
    match v
    case Undefined => ""
    case Null => ""
    case JStr(s) => s
    case _ => Render(v)
  }

  /** The part after an optional leading `+`. */
  function AfterPlus(s: string): (d: string)
    ensures |d| <= |s|
  {
    if s != [] && s[0] == '+' then s[1..] else s
  }

  /** `^\+?[0-9]{10,15}$`. */
  predicate PhoneFormat(s: string)
  {
    var d := AfterPlus(s);
    AllDigits(d) && 10 <= |d| <= 15
  }

  /** `^\+?254[0-9]{9}$`. */
  predicate MpesaFormat(s: string)
  {
    var d := AfterPlus(s);
    AllDigits(d) && |d| == 12 && d[..3] == "254"
  }

  /** `[A-Z0-9]`. */
  predicate IdChar(c: char) { IsDigit(c) || IsUpper(c) }

  /** `^ET[0-9]+[A-Z0-9]{5}$`: at least one digit, then exactly five final id characters. */
  predicate TransactionIdFormat(s: string)
  {
    |s| >= 8 && s[..2] == "ET" && AllDigits(s[2..|s| - 5])
    && forall i :: |s| - 5 <= i < |s| ==> IdChar(s[i])
  }

  /** `^[a-zA-Z\s]+$`. */
  predicate NameFormat(s: string)
  {
    s != [] && forall i :: 0 <= i < |s| ==> IsLetter(s[i]) || IsSpace(s[i])
  }

  /** An integer literal with an optional sign and leading zeros allowed (`isInt`). */
  function IntLiteral(s: string): (r: Option<int>)
    ensures r.Some? ==> s != []
  {
    if s != [] && (s[0] == '+' || s[0] == '-') && |s| > 1 && AllDigits(s[1..]) then
      var n: int := DigitsValue(s[1..]);
      Some(if s[0] == '-' then -n else n)
    else if s != [] && AllDigits(s) then Some(DigitsValue(s))
    else None
  }

  /** The length of a year as the birth-date check counts it: 365.25 days in milliseconds. */
  const YearMillis: int := 1000 * 60 * 60 * 24 * 36525 / 100


  // ---------------------------------------------------------------- messages

  /** The messages attached with `withMessage`, and those the hand-written checks throw. */
  datatype Message =
    | TitleRequired | TitleLength | RoleRequired | RoleInvalid | AssetTypeRequired | AssetTypeInvalid
    | AssetTitleRequired | AssetTitleLength | DescriptionRequired | DescriptionLength
    | PriceRequired | PriceInvalid | TermsRequired | TermsInvalid | DeadlineRequired | DateInvalid | DeadlinePast
    | BuyerEmailInvalid | SellerEmailInvalid | PhoneInvalid
    | FirstNameLength | FirstNameLetters | LastNameLength | LastNameLetters
    | FullNameRequired | FullNameLength | BirthDateRequired | Underage | BirthDateImplausible
    | IdTypeRequired | IdTypeInvalid | IdNumberRequired | IdNumberLength | PayoutRequired | PayoutInvalid
    | BankNameRequired | AccountNumberRequired | AccountNumberInvalid | AccountNameRequired
    | MpesaRequired | MpesaInvalid | TermsRefused | TermsValueInvalid | PrivacyRefused | PrivacyValueInvalid
    | PaymentPhoneRequired | PaymentPhoneInvalid | AmountRequired | AmountInvalid
    | TransactionIdRequired | TransactionIdInvalid | StatusRequired | StatusInvalid
    | ReasonRequired | ReasonLength | TransferMethodRequired | TransferMethodLength
    | RecipientRequired | RecipientLength | NotesLength | PageInvalid | LimitInvalid

  function MessageText(m: Message): string
  {
    match m
    case TitleRequired => "Transaction title is required"
    case TitleLength => "Title must be between 3 and 100 characters"
    case RoleRequired => "Role is required"
    case RoleInvalid => "Role must be either buyer or seller"
    case AssetTypeRequired => "Asset type is required"
    case AssetTypeInvalid => "Invalid asset type"
    case AssetTitleRequired => "Asset title is required"
    case AssetTitleLength => "Asset title must be between 2 and 100 characters"
    case DescriptionRequired => "Asset description is required"
    case DescriptionLength => "Description must be between 10 and 1000 characters"
    case PriceRequired => "Price is required"
    case PriceInvalid => "Price must be a positive number"
    case TermsRequired => "Terms are required"
    case TermsInvalid => "Terms must be either single or staged"
    case DeadlineRequired => "Deadline is required"
    case DateInvalid => "Invalid date format"
    case DeadlinePast => "Deadline must be in the future"
    case BuyerEmailInvalid => "Invalid buyer email format"
    case SellerEmailInvalid => "Invalid seller email format"
    case PhoneInvalid => "Invalid phone number format"
    case FirstNameLength => "First name must be between 2 and 50 characters"
    case FirstNameLetters => "First name can only contain letters"
    case LastNameLength => "Last name must be between 2 and 50 characters"
    case LastNameLetters => "Last name can only contain letters"
    case FullNameRequired => "Full name is required"
    case FullNameLength => "Full name must be between 3 and 100 characters"
    case BirthDateRequired => "Date of birth is required"
    case Underage => "You must be at least 18 years old"
    case BirthDateImplausible => "Invalid date of birth"
    case IdTypeRequired => "ID type is required"
    case IdTypeInvalid => "Invalid ID type"
    case IdNumberRequired => "ID number is required"
    case IdNumberLength => "ID number must be between 5 and 20 characters"
    case PayoutRequired => "Payout method is required"
    case PayoutInvalid => "Invalid payout method"
    case BankNameRequired => "Bank name is required for bank payout"
    case AccountNumberRequired => "Account number is required for bank payout"
    case AccountNumberInvalid => "Invalid account number"
    case AccountNameRequired => "Account name is required for bank payout"
    case MpesaRequired => "M-Pesa number is required for M-Pesa payout"
    case MpesaInvalid => "Invalid M-Pesa number format (use +254XXXXXXXXX)"
    case TermsRefused => "You must agree to terms"
    case TermsValueInvalid => "Invalid value for terms agreement"
    case PrivacyRefused => "You must agree to privacy policy"
    case PrivacyValueInvalid => "Invalid value for privacy agreement"
    case PaymentPhoneRequired => "Phone number is required"
    case PaymentPhoneInvalid => "Invalid phone number format (use +254XXXXXXXXX)"
    case AmountRequired => "Amount is required"
    case AmountInvalid => "Amount must be a positive number"
    case TransactionIdRequired => "Transaction ID is required"
    case TransactionIdInvalid => "Invalid transaction ID format"
    case StatusRequired => "Status is required"
    case StatusInvalid => "Invalid status"
    case ReasonRequired => "Dispute reason is required"
    case ReasonLength => "Reason must be between 20 and 1000 characters"
    case TransferMethodRequired => "Transfer method is required"
    case TransferMethodLength => "Transfer method must be between 2 and 50 characters"
    case RecipientRequired => "Recipient info is required"
    case RecipientLength => "Recipient info must be between 5 and 200 characters"
    case NotesLength => "Notes must not exceed 500 characters"
    case PageInvalid => "Page must be a positive integer"
    case LimitInvalid => "Limit must be between 1 and 100"
  }

  // ---------------------------------------------------------------- chains

  /** What the rule sets need from outside: the clock and three library checks. */
  datatype Env = Env(now: int, isEmail: string -> bool, isIso8601: string -> bool, dateOf: JVal -> Option<int>)

  datatype Format = Phone | Mpesa | TransactionId | Name

  datatype Check =
    | NotEmpty
    | LengthIn(min: nat, max: nat)
    | OneOf(values: seq<string>)
    | FloatAtLeast(least: int)
    | IntIn(low: int, high: Option<int>)
    | Matches(format: Format)
    | Email
    | Iso8601
    | Boolean
    | EqualsText(text: string)

  /** The two hand-written checks; each throws its own message. */
  datatype Custom = InFuture | AdultBirthDate

  datatype Step = Validate(check: Check, message: Message) | Run(custom: Custom)

  /**
   * One chain on `field`: `.optional()` skips it when the field is absent,
   * `.if(body(f).equals(t))` skips it unless field `f` reads `t`, and a
   * leading `.trim()` replaces the value the checks see by its trimmed text.
   */
  datatype Chain = Chain(field: string, optional: bool, onlyIf: Option<(string, string)>, trim: bool, steps: seq<Step>)

  /** One entry of `validationResult(req)`. */
  datatype FieldError = FieldError(field: string, message: Message, value: JVal)

  predicate Fits(f: Format, s: string)
  {
    match f
    case Phone => PhoneFormat(s)
    case Mpesa => MpesaFormat(s)
    case TransactionId => TransactionIdFormat(s)
    case Name => NameFormat(s)
  }

  predicate FloatAtLeastText(s: string, least: int)
  {
    DecimalLiteral(s).Some? && DecimalLiteral(s).value >= least as real
  }

  predicate IntInText(s: string, lo: int, hi: Option<int>)
  {
    IntLiteral(s).Some? && lo <= IntLiteral(s).value && (hi.None? || IntLiteral(s).value <= hi.value)
  }

  /** Whether a library check accepts the text of the value. */
  predicate Passes(c: Check, s: string, env: Env)
  {
    match c
    case NotEmpty => s != ""
    case LengthIn(lo, hi) => lo <= |s| <= hi
    case OneOf(values) => s in values
    case FloatAtLeast(least) => FloatAtLeastText(s, least)
    case IntIn(lo, hi) => IntInText(s, lo, hi)
    case Matches(f) => Fits(f, s)
    case Email => env.isEmail(s)
    case Iso8601 => env.isIso8601(s)
    case Boolean => s in ["true", "false", "1", "0"]
    case EqualsText(t) => s == t
  }

  /**
   * The message a hand-written check throws, or `None`. An unparsable date
   * compares false both ways and so passes both checks.
   */
  function CustomFailure(c: Custom, v: JVal, env: Env): (m: Option<Message>)
    ensures env.dateOf(v).None? ==> m.None?
    ensures c == InFuture ==> (m.None? <==> (env.dateOf(v).None? || env.dateOf(v).value > env.now))
    ensures c == AdultBirthDate ==> (m.None? <==> (env.dateOf(v).None?
      || 18 * YearMillis <= env.now - env.dateOf(v).value <= 120 * YearMillis))
  {
    match env.dateOf(v)
    case None => None
    case Some(t) =>
      match c
      case InFuture => if t <= env.now then Some(DeadlinePast) else None
      case AdultBirthDate =>
        if env.now - t < 18 * YearMillis then Some(Underage)
        else if env.now - t > 120 * YearMillis then Some(BirthDateImplausible)
        else None
  }

  /** The error one step reports on value `v`, if any. */
  function StepError(field: string, st: Step, v: JVal, env: Env): (e: Option<FieldError>)
  {
    match st
    case Validate(c, m) => if Passes(c, Text(v), env) then None else Some(FieldError(field, m, v))
    case Run(c) =>
      match CustomFailure(c, v, env)
      case None => None
      case Some(m) => Some(FieldError(field, m, v))
  }

  /** Every step of a chain runs, in order, and each failing one adds its error. */
  function RunSteps(field: string, steps: seq<Step>, v: JVal, env: Env): (errs: seq<FieldError>)
    ensures |errs| <= |steps|
  {
    if steps == [] then []
    else
      (match StepError(field, steps[0], v, env) case None => [] case Some(e) => [e])
      + RunSteps(field, steps[1..], v, env)
  }

  /** A chain reports nothing exactly when each of its steps passes. */
  lemma {:induction false} RunStepsEmpty(field: string, steps: seq<Step>, v: JVal, env: Env)
    ensures RunSteps(field, steps, v, env) == [] <==>
      forall k :: 0 <= k < |steps| ==> StepError(field, steps[k], v, env).None?
  {
    if steps != [] {
      RunStepsEmpty(field, steps[1..], v, env);
      assert forall k :: 1 <= k < |steps| ==> steps[k] == steps[1..][k - 1];
    }
  }

  /** Whether a chain's `.if` condition lets it run. */
  predicate Applies(input: map<string, JVal>, cond: Option<(string, string)>)
  {
    cond.None? || Text(Get(input, cond.value.0)) == cond.value.1
  }

  /** The value the checks of a chain see. */
  function Checked(input: map<string, JVal>, ch: Chain): JVal
  {
    if ch.trim then JStr(Trim(Text(Get(input, ch.field)))) else Get(input, ch.field)
  }

  /** Whether a chain is skipped: optional and absent, or its `.if` condition fails. */
  predicate Skipped(input: map<string, JVal>, ch: Chain)
  {
    (ch.optional && Get(input, ch.field) == Undefined) || !Applies(input, ch.onlyIf)
  }

  /** One chain. */
  function RunChain(input: map<string, JVal>, ch: Chain, env: Env): (errs: seq<FieldError>)
    ensures Skipped(input, ch) ==> errs == []
  {
    if Skipped(input, ch) then [] else RunSteps(ch.field, ch.steps, Checked(input, ch), env)
  }

  /** The results of `f` on each item, concatenated in order. */
  function FlatMap<A, B>(xs: seq<A>, f: A -> seq<B>): seq<B>
  {
    if xs == [] then [] else f(xs[0]) + FlatMap(xs[1..], f)
  }

  /** Nothing comes out exactly when nothing comes out of any item. */
  lemma {:induction false} FlatMapEmpty<A, B>(xs: seq<A>, f: A -> seq<B>)
    ensures FlatMap(xs, f) == [] <==> forall j :: 0 <= j < |xs| ==> f(xs[j]) == []
  {
    if xs != [] {
      var rest := xs[1..];
      FlatMapEmpty(rest, f);
      assert FlatMap(xs, f) == f(xs[0]) + FlatMap(rest, f);
      assert forall j :: 1 <= j < |xs| ==> xs[j] == rest[j - 1];
    }
  }

  /** Peeling off the item at index `k`. */
  lemma FlatMapFrom<A, B>(xs: seq<A>, f: A -> seq<B>, k: nat)
    requires k < |xs|
    ensures FlatMap(xs[k..], f) == [] <==> f(xs[k]) == [] && FlatMap(xs[k + 1..], f) == []
  {
    assert xs[k..][0] == xs[k];
    assert xs[k..][1..] == xs[k + 1..];
  }

  lemma FlatMapFour<A, B>(xs: seq<A>, f: A -> seq<B>, k: nat)
    requires k + 4 <= |xs|
    ensures FlatMap(xs[k..], f) == [] <==>
      f(xs[k]) == [] && f(xs[k + 1]) == [] && f(xs[k + 2]) == [] && f(xs[k + 3]) == []
      && FlatMap(xs[k + 4..], f) == []
  {
    FlatMapFrom(xs, f, k);
    FlatMapFrom(xs, f, k + 1);
    FlatMapFrom(xs, f, k + 2);
    FlatMapFrom(xs, f, k + 3);
  }

  lemma FlatMapTwelve<A, B>(xs: seq<A>, f: A -> seq<B>)
    requires |xs| == 12
    ensures FlatMap(xs, f) == [] <==>
      (f(xs[0]) == [] && f(xs[1]) == [] && f(xs[2]) == []
      && f(xs[3]) == [] && f(xs[4]) == [] && f(xs[5]) == []
      && f(xs[6]) == [] && f(xs[7]) == [] && f(xs[8]) == []
      && f(xs[9]) == [] && f(xs[10]) == [] && f(xs[11]) == [])
  {
    assert xs[0..] == xs && xs[12..] == [];
    FlatMapFour(xs, f, 0);
    FlatMapFour(xs, f, 4);
    FlatMapFour(xs, f, 8);
  }

  lemma FlatMapEleven<A, B>(xs: seq<A>, f: A -> seq<B>)
    requires |xs| == 11
    ensures FlatMap(xs, f) == [] <==>
      (f(xs[0]) == [] && f(xs[1]) == [] && f(xs[2]) == []
      && f(xs[3]) == [] && f(xs[4]) == [] && f(xs[5]) == []
      && f(xs[6]) == [] && f(xs[7]) == [] && f(xs[8]) == []
      && f(xs[9]) == [] && f(xs[10]) == [])
  {
    assert xs[0..] == xs && xs[11..] == [];
    FlatMapFour(xs, f, 0);
    FlatMapFour(xs, f, 4);
    FlatMapFrom(xs, f, 8);
    FlatMapFrom(xs, f, 9);
    FlatMapFrom(xs, f, 10);
  }

  function ChainErrors(input: map<string, JVal>, env: Env): Chain -> seq<FieldError>
  {
    ch => RunChain(input, ch, env)
  }

  /** `validationResult(req)` after all chains of a rule set have run, in order. */
  function ValidateAll(input: map<string, JVal>, rules: seq<Chain>, env: Env): seq<FieldError>
  {
    FlatMap(rules, ChainErrors(input, env))
  }

  /** A rule set reports nothing exactly when each of its chains reports nothing. */
  lemma ValidateAllEmpty(input: map<string, JVal>, rules: seq<Chain>, env: Env)
    ensures ValidateAll(input, rules, env) == [] <==>
      forall j :: 0 <= j < |rules| ==> RunChain(input, rules[j], env) == []
  {
    FlatMapEmpty(rules, ChainErrors(input, env));
  }

  /** A rule set lets a request through when no chain reports an error. */
  predicate Accepts(input: map<string, JVal>, rules: seq<Chain>, env: Env)
  {
    ValidateAll(input, rules, env) == []
  }

  /** Peeling the first chain off the rules from index `k` on. */
  lemma AcceptsFrom(input: map<string, JVal>, rules: seq<Chain>, k: nat, env: Env)
    requires k < |rules|
    ensures Accepts(input, rules[k..], env) <==>
      RunChain(input, rules[k], env) == [] && Accepts(input, rules[k + 1..], env)
  {
    FlatMapFrom(rules, ChainErrors(input, env), k);
  }

  /** A twelve-chain rule set passes when each of its chains does. */
  lemma AcceptsTwelve(input: map<string, JVal>, rules: seq<Chain>, env: Env)
    requires |rules| == 12
    ensures Accepts(input, rules, env) <==>
      (RunChain(input, rules[0], env) == [] && RunChain(input, rules[1], env) == [] && RunChain(input, rules[2], env) == []
      && RunChain(input, rules[3], env) == [] && RunChain(input, rules[4], env) == [] && RunChain(input, rules[5], env) == []
      && RunChain(input, rules[6], env) == [] && RunChain(input, rules[7], env) == [] && RunChain(input, rules[8], env) == []
      && RunChain(input, rules[9], env) == [] && RunChain(input, rules[10], env) == [] && RunChain(input, rules[11], env) == [])
  {
    FlatMapTwelve(rules, ChainErrors(input, env));
  }

  /** An eleven-chain rule set passes when each of its chains does. */
  lemma AcceptsEleven(input: map<string, JVal>, rules: seq<Chain>, env: Env)
    requires |rules| == 11
    ensures Accepts(input, rules, env) <==>
      (RunChain(input, rules[0], env) == [] && RunChain(input, rules[1], env) == [] && RunChain(input, rules[2], env) == []
      && RunChain(input, rules[3], env) == [] && RunChain(input, rules[4], env) == [] && RunChain(input, rules[5], env) == []
      && RunChain(input, rules[6], env) == [] && RunChain(input, rules[7], env) == [] && RunChain(input, rules[8], env) == []
      && RunChain(input, rules[9], env) == [] && RunChain(input, rules[10], env) == [])
  {
    FlatMapEleven(rules, ChainErrors(input, env));
  }

  // ---------------------------------------------------------------- the error handler

  datatype Detail = Detail(field: string, message: string, value: JVal)

  datatype Verdict = Next | Rejected(status: int, success: bool, error: string, details: seq<Detail>)

  /** `handleValidationErrors`: 400 with one `{field, message, value}` per error, else `next()`. */
  function HandleValidationErrors(errors: seq<FieldError>): (v: Verdict)
    ensures v.Next? <==> errors == []
    ensures v.Rejected? ==> v.status == 400 && !v.success && v.error == "Validation failed"
    ensures v.Rejected? ==> (|v.details| == |errors|
      && forall i :: 0 <= i < |errors| ==>
        (v.details[i].field == errors[i].field && v.details[i].message == MessageText(errors[i].message)
        && v.details[i].value == errors[i].value))
  {
    if errors == [] then Next
    else
      Rejected(400, false, "Validation failed",
        seq(|errors|, i requires 0 <= i < |errors| => Detail(errors[i].field, MessageText(errors[i].message), errors[i].value)))
  }

  /** A rule set followed by `handleValidationErrors`. */
  function Middleware(input: map<string, JVal>, rules: seq<Chain>, env: Env): (v: Verdict)
    ensures v.Next? <==> Accepts(input, rules, env)
  {
    HandleValidationErrors(ValidateAll(input, rules, env))
  }

  // ---------------------------------------------------------------- chain shapes

  /** `trim().notEmpty().isLength({min, max})`, possibly under an `.if`. */
  function Required(field: string, cond: Option<(string, string)>, missing: Message, lo: nat, hi: nat, wrong: Message): Chain
  {
    Chain(field, false, cond, true, [Validate(NotEmpty, missing), Validate(LengthIn(lo, hi), wrong)])
  }

  /** `trim().notEmpty()` under an `.if`. */
  function Present(field: string, cond: Option<(string, string)>, missing: Message): Chain
  {
    Chain(field, false, cond, true, [Validate(NotEmpty, missing)])
  }

  /** `trim().notEmpty().matches(format)`, possibly under an `.if`. */
  function Formatted(field: string, cond: Option<(string, string)>, missing: Message, f: Format, wrong: Message): Chain
  {
    Chain(field, false, cond, true, [Validate(NotEmpty, missing), Validate(Matches(f), wrong)])
  }

  /** `notEmpty().isIn(values)`. */
  function Choice(field: string, missing: Message, values: seq<string>, wrong: Message): Chain
  {
    Chain(field, false, None, false, [Validate(NotEmpty, missing), Validate(OneOf(values), wrong)])
  }

  /** `notEmpty().isFloat({min: 1})`. */
  function Amount(field: string, missing: Message, wrong: Message): Chain
  {
    Chain(field, false, None, false, [Validate(NotEmpty, missing), Validate(FloatAtLeast(1), wrong)])
  }

  /** `notEmpty().isISO8601().custom(check)`. */
  function Dated(field: string, missing: Message, c: Custom): Chain
  {
    Chain(field, false, None, false, [Validate(NotEmpty, missing), Validate(Iso8601, DateInvalid), Run(c)])
  }

  /** `optional().isEmail().normalizeEmail()`; the normalisation does not affect the verdict. */
  function OptionalEmail(field: string, wrong: Message): Chain
  {
    Chain(field, true, None, false, [Validate(Email, wrong)])
  }

  /** `optional().trim().matches(phone)`. */
  function OptionalPhone(field: string): Chain
  {
    Chain(field, true, None, true, [Validate(Matches(Phone), PhoneInvalid)])
  }

  /** `optional().trim().isLength({min: 2, max: 50}).matches(letters)`. */
  function OptionalName(field: string, wrongLength: Message, wrongLetters: Message): Chain
  {
    Chain(field, true, None, true, [Validate(LengthIn(2, 50), wrongLength), Validate(Matches(Name), wrongLetters)])
  }

  /** `notEmpty().isBoolean().equals('true')`: a consent box. */
  function Consent(field: string, refused: Message, wrong: Message): Chain
  {
    Chain(field, false, None, false, [Validate(NotEmpty, refused), Validate(Boolean, wrong), Validate(EqualsText("true"), refused)])
  }

  /** `optional().isInt({min, max})` on a query parameter. */
  function OptionalInt(field: string, lo: int, hi: Option<int>, wrong: Message): Chain
  {
    Chain(field, true, None, false, [Validate(IntIn(lo, hi), wrong)])
  }

  /** `optional().trim().isLength({max})`. */
  function OptionalShort(field: string, hi: nat, wrong: Message): Chain
  {
    Chain(field, true, None, true, [Validate(LengthIn(0, hi), wrong)])
  }
  // ---------------------------------------------------------------- rule sets

  const TransactionCreation: seq<Chain> := [
    Required("transactionTitle", None, TitleRequired, 3, 100, TitleLength),
    Choice("role", RoleRequired, ["buyer", "seller"], RoleInvalid),
    Choice("assetType", AssetTypeRequired, AssetTypes, AssetTypeInvalid),
    Required("assetTitle", None, AssetTitleRequired, 2, 100, AssetTitleLength),
    Required("assetDescription", None, DescriptionRequired, 10, 1000, DescriptionLength),
    Amount("price", PriceRequired, PriceInvalid),
    Choice("terms", TermsRequired, TermsValues, TermsInvalid),
    Dated("deadline", DeadlineRequired, InFuture),
    OptionalEmail("buyerEmail", BuyerEmailInvalid),
    OptionalEmail("sellerEmail", SellerEmailInvalid),
    OptionalPhone("buyerContact"),
    OptionalPhone("sellerContact")
  ]

  const ProfileUpdate: seq<Chain> := [
    OptionalName("firstName", FirstNameLength, FirstNameLetters),
    OptionalName("lastName", LastNameLength, LastNameLetters),
    OptionalPhone("phoneNumber")
  ]

  const IfBank: Option<(string, string)> := Some(("payoutMethod", "bank"))
  const IfMpesa: Option<(string, string)> := Some(("payoutMethod", "mpesa"))

  const ProfileVerification: seq<Chain> := [
    Required("fullName", None, FullNameRequired, 3, 100, FullNameLength),
    Dated("dob", BirthDateRequired, AdultBirthDate),
    Choice("idType", IdTypeRequired, ["national_id", "passport", "driver_license"], IdTypeInvalid),
    Required("idNumber", None, IdNumberRequired, 5, 20, IdNumberLength),
    Choice("payoutMethod", PayoutRequired, ["mpesa", "bank"], PayoutInvalid),
    Present("bankName", IfBank, BankNameRequired),
    Required("accountNumber", IfBank, AccountNumberRequired, 8, 20, AccountNumberInvalid),
    Present("accountName", IfBank, AccountNameRequired),
    Formatted("mpesaNumber", IfMpesa, MpesaRequired, Mpesa, MpesaInvalid),
    Consent("agreeTerms", TermsRefused, TermsValueInvalid),
    Consent("agreePrivacy", PrivacyRefused, PrivacyValueInvalid)
  ]

  const Payment: seq<Chain> := [
    Formatted("phone", None, PaymentPhoneRequired, Mpesa, PaymentPhoneInvalid),
    Amount("amount", AmountRequired, AmountInvalid),
    Formatted("transactionId", None, TransactionIdRequired, TransactionId, TransactionIdInvalid)
  ]

  /** Applied to the route parameters. */
  const TransactionIdParam: seq<Chain> := [Formatted("id", None, TransactionIdRequired, TransactionId, TransactionIdInvalid)]

  /** The statuses the status-update rule admits. */
  const ValidatorStatuses: seq<string> := ["agreement", "payment", "transfer", "inspection", "completed", "cancelled", "disputed"]

  const StatusUpdate: seq<Chain> := [Choice("status", StatusRequired, ValidatorStatuses, StatusInvalid)]

  const DisputeRules: seq<Chain> := [Required("reason", None, ReasonRequired, 20, 1000, ReasonLength)]

  const AssetTransfer: seq<Chain> := [
    Required("transferMethod", None, TransferMethodRequired, 2, 50, TransferMethodLength),
    Required("recipientInfo", None, RecipientRequired, 5, 200, RecipientLength),
    OptionalShort("notes", 500, NotesLength)
  ]

  /** Applied to the query string. */
  const Pagination: seq<Chain> := [
    OptionalInt("page", 1, None, PageInvalid),
    OptionalInt("limit", 1, Some(100), LimitInvalid)
  ]


  // ---------------------------------------------------------------- what each chain shape admits

  /** The trimmed text of a field. */
  function Trimmed(input: map<string, JVal>, field: string): string
  {
    Trim(Text(Get(input, field)))
  }

  predicate Absent(input: map<string, JVal>, field: string) { Get(input, field) == Undefined }

  /** A date field: present, ISO-8601, and accepted by its hand-written check. */
  predicate DateField(input: map<string, JVal>, field: string, c: Custom, env: Env)
  {
    var v := Get(input, field);
    Text(v) != "" && env.isIso8601(Text(v)) && CustomFailure(c, v, env).None?
  }

  lemma FormatsNonEmpty(f: Format, s: string)
    requires Fits(f, s)
    ensures s != ""
  {
  }

  lemma RequiredChain(input: map<string, JVal>, field: string, cond: Option<(string, string)>,
                      missing: Message, lo: nat, hi: nat, wrong: Message, env: Env)
    requires lo >= 1
    ensures RunChain(input, Required(field, cond, missing, lo, hi, wrong), env) == [] <==>
      (!Applies(input, cond) || lo <= |Trimmed(input, field)| <= hi)
  {
    var ch := Required(field, cond, missing, lo, hi, wrong);
    var t := Checked(input, ch);
    assert Text(t) == Trimmed(input, field);
    RunStepsEmpty(field, ch.steps, t, env);
  }

  lemma PresentChain(input: map<string, JVal>, field: string, cond: Option<(string, string)>, missing: Message, env: Env)
    ensures RunChain(input, Present(field, cond, missing), env) == [] <==>
      (!Applies(input, cond) || Trimmed(input, field) != "")
  {
    var ch := Present(field, cond, missing);
    var t := Checked(input, ch);
    assert Text(t) == Trimmed(input, field);
    RunStepsEmpty(field, ch.steps, t, env);
    assert StepError(field, ch.steps[0], t, env).None? <==> Trimmed(input, field) != "";
  }

  lemma FormattedChain(input: map<string, JVal>, field: string, cond: Option<(string, string)>,
                       missing: Message, f: Format, wrong: Message, env: Env)
    ensures RunChain(input, Formatted(field, cond, missing, f, wrong), env) == [] <==>
      (!Applies(input, cond) || Fits(f, Trimmed(input, field)))
  {
    var ch := Formatted(field, cond, missing, f, wrong);
    var t := Checked(input, ch);
    assert Text(t) == Trimmed(input, field);
    RunStepsEmpty(field, ch.steps, t, env);
    if Fits(f, Trimmed(input, field)) {
      FormatsNonEmpty(f, Trimmed(input, field));
    }
  }

  lemma ChoiceChain(input: map<string, JVal>, field: string, missing: Message, values: seq<string>, wrong: Message, env: Env)
    requires "" !in values
    ensures RunChain(input, Choice(field, missing, values, wrong), env) == [] <==> Text(Get(input, field)) in values
  {
    var ch := Choice(field, missing, values, wrong);
    RunStepsEmpty(field, ch.steps, Checked(input, ch), env);
  }

  lemma AmountChain(input: map<string, JVal>, field: string, missing: Message, wrong: Message, env: Env)
    ensures RunChain(input, Amount(field, missing, wrong), env) == [] <==> FloatAtLeastText(Text(Get(input, field)), 1)
  {
    var ch := Amount(field, missing, wrong);
    RunStepsEmpty(field, ch.steps, Checked(input, ch), env);
  }

  lemma DatedChain(input: map<string, JVal>, field: string, missing: Message, c: Custom, env: Env)
    ensures RunChain(input, Dated(field, missing, c), env) == [] <==> DateField(input, field, c, env)
  {
    var ch := Dated(field, missing, c);
    var v := Checked(input, ch);
    RunStepsEmpty(field, ch.steps, v, env);
    assert StepError(field, ch.steps[2], v, env).None? <==> CustomFailure(c, v, env).None?;
  }

  lemma OptionalEmailChain(input: map<string, JVal>, field: string, wrong: Message, env: Env)
    ensures RunChain(input, OptionalEmail(field, wrong), env) == [] <==>
      (Absent(input, field) || env.isEmail(Text(Get(input, field))))
  {
    var ch := OptionalEmail(field, wrong);
    RunStepsEmpty(field, ch.steps, Checked(input, ch), env);
  }

  lemma OptionalPhoneChain(input: map<string, JVal>, field: string, env: Env)
    ensures RunChain(input, OptionalPhone(field), env) == [] <==>
      (Absent(input, field) || PhoneFormat(Trimmed(input, field)))
  {
    var ch := OptionalPhone(field);
    var t := Checked(input, ch);
    assert Text(t) == Trimmed(input, field);
    RunStepsEmpty(field, ch.steps, t, env);
  }

  lemma OptionalNameChain(input: map<string, JVal>, field: string, wrongLength: Message, wrongLetters: Message, env: Env)
    ensures RunChain(input, OptionalName(field, wrongLength, wrongLetters), env) == [] <==>
      (Absent(input, field) || (2 <= |Trimmed(input, field)| <= 50 && NameFormat(Trimmed(input, field))))
  {
    var ch := OptionalName(field, wrongLength, wrongLetters);
    var t := Checked(input, ch);
    assert Text(t) == Trimmed(input, field);
    RunStepsEmpty(field, ch.steps, t, env);
  }

  lemma ConsentChain(input: map<string, JVal>, field: string, refused: Message, wrong: Message, env: Env)
    ensures RunChain(input, Consent(field, refused, wrong), env) == [] <==> Text(Get(input, field)) == "true"
  {
    var ch := Consent(field, refused, wrong);
    var v := Checked(input, ch);
    RunStepsEmpty(field, ch.steps, v, env);
    assert StepError(field, ch.steps[2], v, env).None? <==> Text(v) == "true";
  }

  lemma OptionalIntChain(input: map<string, JVal>, field: string, lo: int, hi: Option<int>, wrong: Message, env: Env)
    ensures RunChain(input, OptionalInt(field, lo, hi, wrong), env) == [] <==>
      (Absent(input, field) || IntInText(Text(Get(input, field)), lo, hi))
  {
    var ch := OptionalInt(field, lo, hi, wrong);
    RunStepsEmpty(field, ch.steps, Checked(input, ch), env);
  }

  lemma OptionalShortChain(input: map<string, JVal>, field: string, hi: nat, wrong: Message, env: Env)
    ensures RunChain(input, OptionalShort(field, hi, wrong), env) == [] <==>
      (Absent(input, field) || |Trimmed(input, field)| <= hi)
  {
    var ch := OptionalShort(field, hi, wrong);
    var t := Checked(input, ch);
    assert Text(t) == Trimmed(input, field);
    RunStepsEmpty(field, ch.steps, t, env);
  }

  // ---------------------------------------------------------------- what each rule set admits

  /** An optional field: absent, or its check holds. */
  predicate OptionalPhoneOk(input: map<string, JVal>, field: string)
  {
    Absent(input, field) || PhoneFormat(Trimmed(input, field))
  }

  predicate OptionalEmailOk(input: map<string, JVal>, field: string, env: Env)
  {
    Absent(input, field) || env.isEmail(Text(Get(input, field)))
  }

  predicate CreationAcceptable(body: map<string, JVal>, env: Env)
  {
    3 <= |Trimmed(body, "transactionTitle")| <= 100
    && Text(Get(body, "role")) in ["buyer", "seller"]
    && Text(Get(body, "assetType")) in AssetTypes
    && 2 <= |Trimmed(body, "assetTitle")| <= 100
    && 10 <= |Trimmed(body, "assetDescription")| <= 1000
    && FloatAtLeastText(Text(Get(body, "price")), 1)
    && Text(Get(body, "terms")) in TermsValues
    && DateField(body, "deadline", InFuture, env)
    && OptionalEmailOk(body, "buyerEmail", env) && OptionalEmailOk(body, "sellerEmail", env)
    && OptionalPhoneOk(body, "buyerContact") && OptionalPhoneOk(body, "sellerContact")
  }

  /** The first two creation chains: title and role. */
  lemma CreationHead(body: map<string, JVal>, env: Env)
    ensures (RunChain(body, TransactionCreation[0], env) == [] && RunChain(body, TransactionCreation[1], env) == []) <==>
      (3 <= |Trimmed(body, "transactionTitle")| <= 100 && Text(Get(body, "role")) in ["buyer", "seller"])
  {
    RequiredChain(body, "transactionTitle", None, TitleRequired, 3, 100, TitleLength, env);
    ChoiceChain(body, "role", RoleRequired, ["buyer", "seller"], RoleInvalid, env);
  }

  /** The next two: asset type and asset title. */
  lemma CreationAsset(body: map<string, JVal>, env: Env)
    ensures (RunChain(body, TransactionCreation[2], env) == [] && RunChain(body, TransactionCreation[3], env) == []) <==>
      (Text(Get(body, "assetType")) in AssetTypes && 2 <= |Trimmed(body, "assetTitle")| <= 100)
  {
    ChoiceChain(body, "assetType", AssetTypeRequired, AssetTypes, AssetTypeInvalid, env);
    RequiredChain(body, "assetTitle", None, AssetTitleRequired, 2, 100, AssetTitleLength, env);
  }

  /** The next four: description, price, terms, deadline. */
  lemma CreationMiddle(body: map<string, JVal>, env: Env)
    ensures (RunChain(body, TransactionCreation[4], env) == [] && RunChain(body, TransactionCreation[5], env) == []
      && RunChain(body, TransactionCreation[6], env) == [] && RunChain(body, TransactionCreation[7], env) == []) <==>
      (10 <= |Trimmed(body, "assetDescription")| <= 1000
      && FloatAtLeastText(Text(Get(body, "price")), 1)
      && Text(Get(body, "terms")) in TermsValues
      && DateField(body, "deadline", InFuture, env))
  {
    RequiredChain(body, "assetDescription", None, DescriptionRequired, 10, 1000, DescriptionLength, env);
    AmountChain(body, "price", PriceRequired, PriceInvalid, env);
    ChoiceChain(body, "terms", TermsRequired, TermsValues, TermsInvalid, env);
    DatedChain(body, "deadline", DeadlineRequired, InFuture, env);
  }

  /** The last four creation chains: the optional contacts. */
  lemma CreationContacts(body: map<string, JVal>, env: Env)
    ensures (RunChain(body, TransactionCreation[8], env) == [] && RunChain(body, TransactionCreation[9], env) == []
      && RunChain(body, TransactionCreation[10], env) == [] && RunChain(body, TransactionCreation[11], env) == []) <==>
      (OptionalEmailOk(body, "buyerEmail", env) && OptionalEmailOk(body, "sellerEmail", env)
      && OptionalPhoneOk(body, "buyerContact") && OptionalPhoneOk(body, "sellerContact"))
  {
    OptionalEmailChain(body, "buyerEmail", BuyerEmailInvalid, env);
    OptionalEmailChain(body, "sellerEmail", SellerEmailInvalid, env);
    OptionalPhoneChain(body, "buyerContact", env);
    OptionalPhoneChain(body, "sellerContact", env);
  }

  /**
   * Transaction creation passes exactly when the title, asset title and
   * description have the required trimmed lengths, role, asset type and terms
   * are listed values, the price is a number of at least 1, the deadline is an
   * ISO-8601 date not in the past, and each contact given is well formed.
   */
  lemma CreationRules(body: map<string, JVal>, env: Env)
    ensures Accepts(body, TransactionCreation, env) <==> CreationAcceptable(body, env)
  {
    AcceptsTwelve(body, TransactionCreation, env);
    CreationHead(body, env);
    CreationAsset(body, env);
    CreationMiddle(body, env);
    CreationContacts(body, env);
  }

  /** What profile verification demands of the identity fields. */
  predicate IdentityAcceptable(body: map<string, JVal>, env: Env)
  {
    3 <= |Trimmed(body, "fullName")| <= 100
    && DateField(body, "dob", AdultBirthDate, env)
    && Text(Get(body, "idType")) in ["national_id", "passport", "driver_license"]
    && 5 <= |Trimmed(body, "idNumber")| <= 20
  }

  /**
   * What it demands of the payout fields: bank details only for a bank
   * payout, an M-Pesa number only for an M-Pesa payout.
   */
  predicate PayoutAcceptable(body: map<string, JVal>)
  {
    var payout := Text(Get(body, "payoutMethod"));
    payout in ["mpesa", "bank"]
    && (payout == "bank" ==>
          Trimmed(body, "bankName") != "" && 8 <= |Trimmed(body, "accountNumber")| <= 20 && Trimmed(body, "accountName") != "")
    && (payout == "mpesa" ==> MpesaFormat(Trimmed(body, "mpesaNumber")))
  }

  predicate VerificationAcceptable(body: map<string, JVal>, env: Env)
  {
    IdentityAcceptable(body, env) && PayoutAcceptable(body)
    && Text(Get(body, "agreeTerms")) == "true" && Text(Get(body, "agreePrivacy")) == "true"
  }

  lemma VerificationPerson(body: map<string, JVal>, env: Env)
    ensures (RunChain(body, ProfileVerification[0], env) == [] && RunChain(body, ProfileVerification[1], env) == [])
      <==> (3 <= |Trimmed(body, "fullName")| <= 100 && DateField(body, "dob", AdultBirthDate, env))
  {
    RequiredChain(body, "fullName", None, FullNameRequired, 3, 100, FullNameLength, env);
    DatedChain(body, "dob", BirthDateRequired, AdultBirthDate, env);
  }

  lemma VerificationDocument(body: map<string, JVal>, env: Env)
    ensures (RunChain(body, ProfileVerification[2], env) == [] && RunChain(body, ProfileVerification[3], env) == [])
      <==> (Text(Get(body, "idType")) in ["national_id", "passport", "driver_license"]
        && 5 <= |Trimmed(body, "idNumber")| <= 20)
  {
    ChoiceChain(body, "idType", IdTypeRequired, ["national_id", "passport", "driver_license"], IdTypeInvalid, env);
    RequiredChain(body, "idNumber", None, IdNumberRequired, 5, 20, IdNumberLength, env);
  }

  lemma VerificationPayout(body: map<string, JVal>, env: Env)
    ensures (RunChain(body, ProfileVerification[4], env) == [] && RunChain(body, ProfileVerification[5], env) == []
      && RunChain(body, ProfileVerification[6], env) == [] && RunChain(body, ProfileVerification[7], env) == []
      && RunChain(body, ProfileVerification[8], env) == [])
      <==> PayoutAcceptable(body)
  {
    ChoiceChain(body, "payoutMethod", PayoutRequired, ["mpesa", "bank"], PayoutInvalid, env);
    PresentChain(body, "bankName", IfBank, BankNameRequired, env);
    RequiredChain(body, "accountNumber", IfBank, AccountNumberRequired, 8, 20, AccountNumberInvalid, env);
    PresentChain(body, "accountName", IfBank, AccountNameRequired, env);
    FormattedChain(body, "mpesaNumber", IfMpesa, MpesaRequired, Mpesa, MpesaInvalid, env);
  }

  /**
   * Profile verification passes exactly when the identity fields are
   * acceptable, the payout fields the chosen method needs are, and both
   * consent boxes read `true`; the fields of the other payout method are
   * not looked at.
   */
  lemma VerificationRules(body: map<string, JVal>, env: Env)
    ensures Accepts(body, ProfileVerification, env) <==> VerificationAcceptable(body, env)
  {
    AcceptsEleven(body, ProfileVerification, env);
    VerificationPerson(body, env);
    VerificationDocument(body, env);
    VerificationPayout(body, env);
    ConsentChain(body, "agreeTerms", TermsRefused, TermsValueInvalid, env);
    ConsentChain(body, "agreePrivacy", PrivacyRefused, PrivacyValueInvalid, env);
  }

  predicate OptionalNameOk(input: map<string, JVal>, field: string)
  {
    Absent(input, field) || (2 <= |Trimmed(input, field)| <= 50 && NameFormat(Trimmed(input, field)))
  }

  /** A profile update may leave out any field; the ones given must be well formed. */
  lemma ProfileUpdateRules(body: map<string, JVal>, env: Env)
    ensures Accepts(body, ProfileUpdate, env) <==>
      (OptionalNameOk(body, "firstName") && OptionalNameOk(body, "lastName") && OptionalPhoneOk(body, "phoneNumber"))
  {
    assert ProfileUpdate[0..] == ProfileUpdate && ProfileUpdate[3..] == [];
    AcceptsFrom(body, ProfileUpdate, 0, env);
    AcceptsFrom(body, ProfileUpdate, 1, env);
    AcceptsFrom(body, ProfileUpdate, 2, env);
    OptionalNameChain(body, "firstName", FirstNameLength, FirstNameLetters, env);
    OptionalNameChain(body, "lastName", LastNameLength, LastNameLetters, env);
    OptionalPhoneChain(body, "phoneNumber", env);
  }

  /** A payment needs an M-Pesa phone number, an amount of at least 1 and a transaction id. */
  lemma PaymentRules(body: map<string, JVal>, env: Env)
    ensures Accepts(body, Payment, env) <==>
      (MpesaFormat(Trimmed(body, "phone")) && FloatAtLeastText(Text(Get(body, "amount")), 1)
      && TransactionIdFormat(Trimmed(body, "transactionId")))
  {
    assert Payment[0..] == Payment && Payment[3..] == [];
    AcceptsFrom(body, Payment, 0, env);
    AcceptsFrom(body, Payment, 1, env);
    AcceptsFrom(body, Payment, 2, env);
    FormattedChain(body, "phone", None, PaymentPhoneRequired, Mpesa, PaymentPhoneInvalid, env);
    AmountChain(body, "amount", AmountRequired, AmountInvalid, env);
    FormattedChain(body, "transactionId", None, TransactionIdRequired, TransactionId, TransactionIdInvalid, env);
  }

  /** The id route parameter passes exactly when, trimmed, it has the generated id's format. */
  lemma TransactionIdRules(params: map<string, JVal>, env: Env)
    ensures Accepts(params, TransactionIdParam, env) <==> TransactionIdFormat(Trimmed(params, "id"))
  {
    ValidateAllEmpty(params, TransactionIdParam, env);
    FormattedChain(params, "id", None, TransactionIdRequired, TransactionId, TransactionIdInvalid, env);
  }

  lemma StatusRules(body: map<string, JVal>, env: Env)
    ensures Accepts(body, StatusUpdate, env) <==> Text(Get(body, "status")) in ValidatorStatuses
  {
    ValidateAllEmpty(body, StatusUpdate, env);
    ChoiceChain(body, "status", StatusRequired, ValidatorStatuses, StatusInvalid, env);
  }

  /** The status rule admits every status the status route sets. */
  lemma StatusRuleAdmitsSettable(v: JVal, env: Env)
    requires TransactionRoutes.Settable(v)
    ensures Accepts(map["status" := v], StatusUpdate, env)
  {
    var body := map["status" := v];
    assert Get(body, "status") == v;
    assert v.s in ValidatorStatuses by {
      assert ValidatorStatuses == TransactionRoutes.SettableStatuses + ["disputed"];
    }
    StatusRules(body, env);
  }

  /**
   * The status rule also admits `disputed`, which the status route then
   * refuses; `awaiting_admin_payout` is refused by both.
   */
  lemma StatusListsDiffer(env: Env)
    ensures Accepts(map["status" := JStr("disputed")], StatusUpdate, env)
    ensures !TransactionRoutes.Settable(JStr("disputed"))
    ensures !Accepts(map["status" := JStr("awaiting_admin_payout")], StatusUpdate, env)
    ensures !TransactionRoutes.Settable(JStr("awaiting_admin_payout"))
  {
    var disputed, awaiting := map["status" := JStr("disputed")], map["status" := JStr("awaiting_admin_payout")];
    assert Get(disputed, "status") == JStr("disputed");
    assert Get(awaiting, "status") == JStr("awaiting_admin_payout");
    StatusRules(disputed, env);
    StatusRules(awaiting, env);
  }

  lemma DisputeReasonRules(body: map<string, JVal>, env: Env)
    ensures Accepts(body, DisputeRules, env) <==> 20 <= |Trimmed(body, "reason")| <= 1000
  {
    ValidateAllEmpty(body, DisputeRules, env);
    RequiredChain(body, "reason", None, ReasonRequired, 20, 1000, ReasonLength, env);
  }

  lemma AssetTransferRules(body: map<string, JVal>, env: Env)
    ensures Accepts(body, AssetTransfer, env) <==>
      (2 <= |Trimmed(body, "transferMethod")| <= 50 && 5 <= |Trimmed(body, "recipientInfo")| <= 200
      && (Absent(body, "notes") || |Trimmed(body, "notes")| <= 500))
  {
    assert AssetTransfer[0..] == AssetTransfer && AssetTransfer[3..] == [];
    AcceptsFrom(body, AssetTransfer, 0, env);
    AcceptsFrom(body, AssetTransfer, 1, env);
    AcceptsFrom(body, AssetTransfer, 2, env);
    RequiredChain(body, "transferMethod", None, TransferMethodRequired, 2, 50, TransferMethodLength, env);
    RequiredChain(body, "recipientInfo", None, RecipientRequired, 5, 200, RecipientLength, env);
    OptionalShortChain(body, "notes", 500, NotesLength, env);
  }

  /** `page` may be any positive integer and `limit` one from 1 to 100; both may be left out. */
  lemma PaginationRules(query: map<string, JVal>, env: Env)
    ensures Accepts(query, Pagination, env) <==>
      ((Absent(query, "page") || IntInText(Text(Get(query, "page")), 1, None))
      && (Absent(query, "limit") || IntInText(Text(Get(query, "limit")), 1, Some(100))))
  {
    assert Pagination[0..] == Pagination && Pagination[2..] == [];
    AcceptsFrom(query, Pagination, 0, env);
    AcceptsFrom(query, Pagination, 1, env);
    OptionalIntChain(query, "page", 1, None, PageInvalid, env);
    OptionalIntChain(query, "limit", 1, Some(100), LimitInvalid, env);
  }

  /**
   * The id the save hook generates, `ET`, the millisecond clock and five
   * base-36 characters upper-cased, has the format the id rules demand once
   * the clock has six digits (the base-36 text may come out shorter; the
   * clock's last digits then fill the five final places).
   */
  lemma GeneratedIdFormat(now: nat, suffix: string)
    requires now >= 100000
    requires |suffix| <= 5 && forall i :: 0 <= i < |suffix| ==> IsDigit(suffix[i]) || IsLower(suffix[i])
    ensures TransactionIdFormat("ET" + NatToString(now) + Upper(suffix))
  {
    Invoice.NatToStringWidth(now, 5);
    var u := Upper(suffix);
    assert forall i :: 0 <= i < |u| ==> IdChar(u[i]) by {
      forall i | 0 <= i < |u|
        ensures IdChar(u[i])
      {
        assert u[i] == UpperChar(suffix[i]);
      }
    }
    DigitsThenIdChars(NatToString(now), u);
  }

  /** `ET`, at least six digits, then up to five id characters. */
  lemma DigitsThenIdChars(d: string, u: string)
    requires AllDigits(d) && |d| >= 6
    requires |u| <= 5 && forall i :: 0 <= i < |u| ==> IdChar(u[i])
    ensures TransactionIdFormat("ET" + d + u)
  {
    var id := "ET" + d + u;
    assert id[..2] == "ET";
    assert id[2..|id| - 5] == d[..|d| + |u| - 5];
    forall i | |id| - 5 <= i < |id|
      ensures IdChar(id[i])
    {
      if i < 2 + |d| {
        assert id[i] == d[i - 2];
      } else {
        assert id[i] == u[i - 2 - |d|];
      }
    }
  }

  /** The generated id, given as the route parameter, passes the id rules. */
  lemma GeneratedIdAccepted(now: nat, suffix: string, env: Env)
    requires now >= 100000
    requires |suffix| <= 5 && forall i :: 0 <= i < |suffix| ==> IsDigit(suffix[i]) || IsLower(suffix[i])
    ensures Accepts(map["id" := JStr("ET" + NatToString(now) + Upper(suffix))], TransactionIdParam, env)
  {
    var id := "ET" + NatToString(now) + Upper(suffix);
    GeneratedIdFormat(now, suffix);
    assert id[0] == 'E';
    TrimUnchanged(id);
    var params := map["id" := JStr(id)];
    assert Trimmed(params, "id") == id;
    TransactionIdRules(params, env);
  }

  /** Every failing check of a chain is reported: a missing title yields both of its messages. */
  lemma MissingTitleReportsBoth(body: map<string, JVal>, env: Env)
    requires "transactionTitle" !in body
    ensures RunChain(body, TransactionCreation[0], env) ==
      [FieldError("transactionTitle", TitleRequired, JStr("")), FieldError("transactionTitle", TitleLength, JStr(""))]
  {
    var ch := TransactionCreation[0];
    var v := Checked(body, ch);
    assert v == JStr("");
    assert ch.steps[1..][1..] == [];
    assert RunSteps(ch.field, ch.steps[1..], v, env) == [FieldError("transactionTitle", TitleLength, v)];
  }
}
