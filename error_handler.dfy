/**
 * Error classification: the operational error record, the mappers for
 * database and token errors, the environment-dependent response of the
 * global handler, and the 404 for unknown routes.
 */
module ErrorHandler {
  import opened Common

  /**
   * An error object as the handler receives it: an `AppError`, a plain
   * `Error`, or a bare object. Properties a given error lacks are `Undefined`.
   * `keyValue` lists a duplicate-key error's fields in key order, and
   * `errors` the `message` of each validation error; `None` stands for a
   * missing property, on which the mapper throws.
   */
  datatype ErrorObject = ErrorObject(
    name: JVal, message: JVal, statusCode: JVal, status: JVal, isOperational: JVal,
    code: JVal, path: JVal, value: JVal,
    keyValue: Option<seq<(string, JVal)>>, errors: Option<seq<JVal>>, stack: JVal)

  /** `${statusCode}`.startsWith('4') ? 'fail' : 'error'. */
  function StatusFor(statusCode: int): (s: string)
    ensures s == "fail" <==> IntToString(statusCode)[0] == '4'
    ensures s == "fail" || s == "error"
  {
    if IntToString(statusCode)[0] == '4' then "fail" else "error"
  }

  /** `new AppError(message, statusCode, isOperational)`; `trace` is the captured stack. */
  function AppError(message: string, statusCode: int, isOperational: bool, trace: JVal): (e: ErrorObject)
    ensures e.message == JStr(message) && e.statusCode == JNum(statusCode)
    ensures e.isOperational == JBool(isOperational) && e.status == JStr(StatusFor(statusCode))
    ensures e.name == JStr("Error") && e.code == Undefined
  {
    ErrorObject(JStr("Error"), JStr(message), JNum(statusCode), JStr(StatusFor(statusCode)),
      JBool(isOperational), Undefined, Undefined, Undefined, None, None, trace)
  }

  /** Client-error codes (400 to 499) are `fail` and server-error codes (500 to 599) `error`. */
  lemma StatusByFirstDigit(code: int)
    ensures 400 <= code < 500 ==> StatusFor(code) == "fail"
    ensures 500 <= code < 600 ==> StatusFor(code) == "error"
  {
    if 400 <= code < 600 {
      LeadingDigit(code);
    }
  }

  /** The test is on the first character only: 4000 is `fail` and -400 is `error`. */
  lemma FirstCharacterOnly()
    ensures StatusFor(4000) == "fail" && StatusFor(-400) == "error"
  {
    assert NatToString(4000) == NatToString(400) + "0";
    LeadingDigit(400);
  }

  /** A three-digit code is written starting with its hundreds digit. */
  lemma LeadingDigit(code: nat)
    requires 100 <= code < 1000
    ensures IntToString(code)[0] == DigitChar(code / 100)
  {
    var tens := code / 10;
    assert NatToString(code) == NatToString(tens) + [DigitChar(code % 10)];
    assert NatToString(tens) == NatToString(tens / 10) + [DigitChar(tens % 10)];
    assert tens / 10 == code / 100;
  }

  /** The trace of an error the mappers build; production responses never read it. */
  const NoTrace: JVal := Undefined

  /** `handleCastErrorDB`. */
  function CastError(e: ErrorObject): (r: ErrorObject)
    ensures r.statusCode == JNum(400) && r.message == JStr("Invalid " + Render(e.path) + ": " + Render(e.value))
  {
    AppError("Invalid " + Render(e.path) + ": " + Render(e.value), 400, true, NoTrace)
  }

  /** `Object.keys(keyValue)[0]` and its value; `undefined` for both when there are no keys. */
  function FirstKey(kv: seq<(string, JVal)>): (JVal, JVal)
  {
    if kv == [] then (Undefined, Undefined) else (JStr(kv[0].0), kv[0].1)
  }

  /** `handleDuplicateFieldsDB`: `None` when `keyValue` is missing and the mapper throws. */
  function DuplicateFields(e: ErrorObject): (r: Option<ErrorObject>)
    ensures r.None? <==> e.keyValue.None?
    ensures r.Some? ==> (r.value.statusCode == JNum(400)
      && r.value.message == JStr("Duplicate field value: " + Render(FirstKey(e.keyValue.value).0)
           + " = \"" + Render(FirstKey(e.keyValue.value).1) + "\". Please use another value."))
  {
    match e.keyValue
    case None => None
    case Some(kv) =>
      var (field, value) := FirstKey(kv);
      Some(AppError("Duplicate field value: " + Render(field) + " = \"" + Render(value) + "\". Please use another value.",
        400, true, NoTrace))
  }

  /** An array element as `join` prints it: `undefined` and `null` become empty. */
  function JoinPart(v: JVal): string
  {
    if v == Undefined || v == Null then "" else Render(v)
  }

  /** `parts.join(sep)`. */
  function Join(parts: seq<JVal>, sep: string): (r: string)
    ensures parts == [] ==> r == ""
    ensures |parts| == 1 ==> r == JoinPart(parts[0])
    decreases |parts|
  {
    if parts == [] then ""
    else if |parts| == 1 then JoinPart(parts[0])
    else Join(parts[..|parts| - 1], sep) + sep + JoinPart(parts[|parts| - 1])
  }

  /** `handleValidationErrorDB`: `None` when `errors` is missing and the mapper throws. */
  function ValidationError(e: ErrorObject): (r: Option<ErrorObject>)
    ensures r.None? <==> e.errors.None?
    ensures r.Some? ==> (r.value.statusCode == JNum(400)
      && r.value.message == JStr("Invalid input data. " + Join(e.errors.value, ". ")))
  {
    match e.errors
    case None => None
    case Some(msgs) => Some(AppError("Invalid input data. " + Join(msgs, ". "), 400, true, NoTrace))
  }

  const JwtInvalid: ErrorObject := AppError("Invalid token. Please log in again.", 401, true, NoTrace)
  const JwtExpired: ErrorObject := AppError("Your token has expired. Please log in again.", 401, true, NoTrace)

  /** The production mapping as a priority list: the first matching rule decides. */
  function ProductionError(e: ErrorObject): (r: Option<ErrorObject>)
    ensures e.name == JStr("CastError") ==> r == Some(CastError(e))
    ensures e.name != JStr("CastError") && e.code == JNum(11000) ==> r == DuplicateFields(e)
  {
    if e.name == JStr("CastError") then Some(CastError(e))
    else if e.code == JNum(11000) then DuplicateFields(e)
    else if e.name == JStr("ValidationError") then ValidationError(e)
    else if e.name == JStr("JsonWebTokenError") then Some(JwtInvalid)
    else if e.name == JStr("TokenExpiredError") then Some(JwtExpired)
    else Some(e)
  }

  /** What the client receives; `Uncaught` when the handler itself throws. */
  datatype Response =
    | Sent(code: JVal, status: JVal, message: JVal, stack: Option<JVal>)
    | Uncaught

  /** `sendErrorDev`: status, message and stack as they are. */
  function DevResponse(e: ErrorObject): Response
  {
    Sent(e.statusCode, e.status, e.message, Some(e.stack))
  }

  /** `sendErrorProd`: operational errors as they are, anything else hidden behind a 500. */
  function ProdResponse(e: ErrorObject): (r: Response)
    ensures r.Sent? && r.stack.None?
    ensures !Truthy(e.isOperational) ==> r == Sent(JNum(500), JStr("error"), JStr("Something went wrong!"), None)
    ensures Truthy(e.isOperational) ==> r.code == e.statusCode && r.message == e.message
  {
    if Truthy(e.isOperational) then Sent(e.statusCode, e.status, e.message, None)
    else Sent(JNum(500), JStr("error"), JStr("Something went wrong!"), None)
  }

  /** The first two assignments of `errorHandler`: default code 500 and status `error`. */
  function WithDefaults(e: ErrorObject): (r: ErrorObject)
    ensures Truthy(r.statusCode) && Truthy(r.status)
    ensures !Truthy(e.statusCode) ==> r.statusCode == JNum(500)
    ensures !Truthy(e.status) ==> r.status == JStr("error")
    ensures Truthy(e.statusCode) ==> r.statusCode == e.statusCode
  {
    e.(statusCode := Or(e.statusCode, JNum(500)), status := Or(e.status, JStr("error")))
  }

  /**
   * `errorHandler(err, req, res, next)` under the environment `env`: the
   * defaults, then the development response (also for any environment other
   * than `production`), or the production copy passed through each mapper in turn.
   */
  method HandleError(err: ErrorObject, env: JVal) returns (r: Response)
    ensures env != JStr("production") ==> r == DevResponse(WithDefaults(err))
    ensures env == JStr("production") ==>
      r == (match ProductionError(WithDefaults(err)) case None => Uncaught case Some(e) => ProdResponse(e))
  {
    var e := err.(statusCode := Or(err.statusCode, JNum(500)));
    e := e.(status := Or(e.status, JStr("error")));
    if env == JStr("development") {
      return DevResponse(e);
    } else if env != JStr("production") {
      return DevResponse(e);
    }
    var error := e;
    if error.name == JStr("CastError") {
      error := CastError(error);
    }
    if error.code == JNum(11000) {
      var d := DuplicateFields(error);
      if d.None? {
        return Uncaught;
      }
      error := d.value;
    }
    if error.name == JStr("ValidationError") {
      var v := ValidationError(error);
      if v.None? {
        return Uncaught;
      }
      error := v.value;
    }
    if error.name == JStr("JsonWebTokenError") {
      error := JwtInvalid;
    }
    if error.name == JStr("TokenExpiredError") {
      error := JwtExpired;
    }
    r := ProdResponse(error);
  }

  /** `notFound`: a 404 operational error naming the requested URL. */
  function NotFound(url: string, trace: JVal): (e: ErrorObject)
    ensures e.statusCode == JNum(404) && e.status == JStr("fail") && e.isOperational == JBool(true)
    ensures e.message.JStr? && Contains(e.message.s, url)
  {
    StatusByFirstDigit(404);
    ContainsInside("Route ", url, " not found");
    AppError("Route " + url + " not found", 404, true, trace)
  }

  lemma {:induction false} ContainsInside(p: string, s: string, q: string)
    ensures Contains(p + s + q, s)
    decreases |p|
  {
    if p == [] {
      assert (p + s + q)[..|s|] == s;
    } else {
      assert (p + s + q)[1..] == p[1..] + s + q;
      ContainsInside(p[1..], s, q);
    }
  }

  /** In production every database and token error is answered as a client error, without a stack. */
  lemma ProductionClassification(err: ErrorObject)
    ensures var r := HandleErrorSpec(err, JStr("production"));
      && (err.name == JStr("CastError") ==> r.Sent? && r.code == JNum(400) && r.status == JStr("fail"))
      && (err.name != JStr("CastError") && err.code == JNum(11000) && err.keyValue.Some? ==>
            r.Sent? && r.code == JNum(400))
      && (err.name == JStr("ValidationError") && err.code != JNum(11000) && err.errors.Some? ==>
            r.Sent? && r.code == JNum(400) && r.status == JStr("fail"))
      && (err.name == JStr("JsonWebTokenError") && err.code != JNum(11000) ==>
            r == Sent(JNum(401), JStr("fail"), JStr("Invalid token. Please log in again."), None))
      && (err.name == JStr("TokenExpiredError") && err.code != JNum(11000) ==>
            r == Sent(JNum(401), JStr("fail"), JStr("Your token has expired. Please log in again."), None))
      && (r.Sent? ==> r.stack.None?)
  {
    StatusByFirstDigit(400);
    StatusByFirstDigit(401);
  }

  /** The handler's response as a function, for stating properties across inputs. */
  function HandleErrorSpec(err: ErrorObject, env: JVal): Response
  {
    if env != JStr("production") then DevResponse(WithDefaults(err))
    else match ProductionError(WithDefaults(err)) case None => Uncaught case Some(e) => ProdResponse(e)
  }

  /**
   * A plain `Error` (no status code, not operational) is a 500 in every
   * environment; production hides its message, development shows it with the stack.
   */
  lemma PlainErrorIs500(message: string, stack: JVal, env: JVal)
    ensures var err := ErrorObject(JStr("Error"), JStr(message), Undefined, Undefined, Undefined,
                                   Undefined, Undefined, Undefined, None, None, stack);
      var r := HandleErrorSpec(err, env);
      && r.Sent? && r.code == JNum(500)
      && (env == JStr("production") ==> r.message == JStr("Something went wrong!") && r.stack.None?)
      && (env != JStr("production") ==> r.message == JStr(message) && r.stack == Some(stack))
  {
  }

  /** An operational `AppError` keeps its own code and message in every environment. */
  lemma AppErrorPassesThrough(message: string, code: int, trace: JVal, env: JVal)
    requires code != 0
    ensures var r := HandleErrorSpec(AppError(message, code, true, trace), env);
      r.Sent? && r.code == JNum(code) && r.message == JStr(message)
      && (r.stack.Some? <==> env != JStr("production"))
  {
  }

  /** A duplicate-key error without `keyValue`, or a validation error without `errors`, makes the handler throw. */
  lemma MissingDetailsThrow(err: ErrorObject)
    requires err.name != JStr("CastError")
    requires (err.code == JNum(11000) && err.keyValue.None?)
          || (err.code != JNum(11000) && err.name == JStr("ValidationError") && err.errors.None?)
    ensures HandleErrorSpec(err, JStr("production")) == Uncaught
  {
  }
}
