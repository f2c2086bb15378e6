/**
 * The buyer's create-deal page: the form handler, the validation, and the
 * submit gate that builds the payload.
 */
module BuyerConfirmation {
  import opened Common
  import Validator

  const TitleMissing := "Asset title is required."
  const DescriptionMissing := "Description is required."
  const PriceInvalid := "Enter a valid price greater than 0."
  const ContactInvalid := "Enter a valid phone or email."

  /** The form's initial state; `proof` starts as `null`. */
  const InitialForm: map<string, Field> := map[
    "assetType" := Str("Domain"), "title" := Str(""), "description" := Str(""), "price" := Str(""),
    "sellerContact" := Str(""), "terms" := Str("single"), "deadline" := Str(""), "proof" := Nothing]

  function Value(form: map<string, Field>, k: string): Field
  {
    if k in form then form[k] else Nothing
  }

  /** JavaScript truthiness of a field value. */
  predicate Filled(f: Field)
  {
    match f
    case Str(s) => s != ""
    case Chosen(_) => true
    case Nothing => false
  }

  /** `form.price && !isNaN(form.price) && Number(form.price) > 0`; a file or `null` is not a number. */
  predicate PriceOk(f: Field)
  {
    f.Str? && f.text != "" && JsNumber(f.text).Some? && JsNumber(f.text).value > 0.0
  }

  /** `[\w.-]`. */
  predicate EmailChar(c: char) { IsWord(c) || c == '.' || c == '-' }

  /** `^[\w.-]+@[\w.-]+\.\w+$`: a local part, `@`, a domain part, a dot, and a final word. */
  predicate EmailShape(s: string)
  {
    exists a, b :: 0 < a && a + 1 < b && b + 1 < |s| && s[a] == '@' && s[b] == '.'
      && (forall k :: 0 <= k < a ==> EmailChar(s[k]))
      && (forall k :: a < k < b ==> EmailChar(s[k]))
      && (forall k :: b < k < |s| ==> IsWord(s[k]))
  }

  /** The contact pattern: an email address, or `^\+?\d{10,15}$`. */
  predicate ContactOk(s: string)
  {
    EmailShape(s) || Validator.PhoneFormat(s)
  }

  /** An email address is accepted. */
  lemma EmailAccepted()
    ensures ContactOk("jo@mail.co")
  {
    var s := "jo@mail.co";
    assert s[2] == '@' && s[7] == '.';
    assert forall k :: 0 <= k < 2 ==> EmailChar(s[k]);
    assert forall k :: 2 < k < 7 ==> EmailChar(s[k]);
    assert forall k :: 7 < k < |s| ==> IsWord(s[k]);
  }

  /** An international phone number is accepted. */
  lemma PhoneAccepted()
    ensures ContactOk("+254712345678")
  {
    assert Validator.AfterPlus("+254712345678") == "254712345678";
  }

  /** A short number and an address without a dotted domain are refused. */
  lemma ContactRefused()
    ensures !ContactOk("0712345") && !ContactOk("jo@mail")
  {
    var s := "jo@mail";
    assert forall k :: 0 <= k < |s| ==> s[k] != '.';
    assert !IsDigit(s[0]);
    var t := "0712345";
    assert forall k :: 0 <= k < |t| ==> t[k] != '@';
  }

  /**
   * `validate`: one message per failing field. The contact is matched as
   * text; the page's contact input is a text box, so it always holds one.
   */
  method Validate(form: map<string, Field>) returns (errors: map<string, string>)
    requires Value(form, "sellerContact").Str?
    ensures "title" in errors <==> !Filled(Value(form, "title"))
    ensures "description" in errors <==> !Filled(Value(form, "description"))
    ensures "price" in errors <==> !PriceOk(Value(form, "price"))
    ensures "sellerContact" in errors <==> !ContactOk(Value(form, "sellerContact").text)
    ensures errors.Keys <= {"title", "description", "price", "sellerContact"}
    ensures "title" in errors ==> errors["title"] == TitleMissing
    ensures "description" in errors ==> errors["description"] == DescriptionMissing
    ensures "price" in errors ==> errors["price"] == PriceInvalid
    ensures "sellerContact" in errors ==> errors["sellerContact"] == ContactInvalid
  {
    errors := map[];
    if !Filled(Value(form, "title")) {
      errors := errors["title" := TitleMissing];
    }
    if !Filled(Value(form, "description")) {
      errors := errors["description" := DescriptionMissing];
    }
    if !PriceOk(Value(form, "price")) {
      errors := errors["price" := PriceInvalid];
    }
    if !ContactOk(Value(form, "sellerContact").text) {
      errors := errors["sellerContact" := ContactInvalid];
    }
  }

  class Page {
    var form: map<string, Field>
    var errors: map<string, string>
    /** The payload handed on by the last successful submit. */
    var submitted: Option<map<string, Field>>

    ghost predicate Valid()
      reads this
    {
      Value(form, "sellerContact").Str?
    }

    constructor ()
      ensures Valid() && form == InitialForm && errors == map[] && submitted == None
    {
      form := InitialForm;
      errors := map[];
      submitted := None;
    }

    /** `handleChange`: a file input stores its first file, any other input its value; other fields are kept. */
    method HandleChange(e: InputEvent)
      requires Valid()
      requires e.name == "sellerContact" ==> !e.isFile
      modifies this
      ensures Valid()
      ensures form == old(form)[e.name := EventValue(e)]
      ensures errors == old(errors) && submitted == old(submitted)
    {
      form := form[e.name := EventValue(e)];
    }

    /** `handleSubmit`: any error stops it; otherwise the payload is the form plus the pending status. */
    method HandleSubmit() returns (errorKeys: set<string>)
      requires Valid()
      modifies this
      ensures Valid() && form == old(form)
      ensures errorKeys != {} ==> errors.Keys == errorKeys && submitted == old(submitted)
      ensures errorKeys == {} <==>
        (&& Filled(Value(form, "title")) && Filled(Value(form, "description"))
         && PriceOk(Value(form, "price")) && ContactOk(Value(form, "sellerContact").text))
      ensures errorKeys == {} ==> submitted == Some(form["status" := Str("PENDING_PAYMENT")]) && errors == old(errors)
    {
      var e := Validate(form);
      errorKeys := e.Keys;
      if errorKeys != {} {
        errors := e;
        return;
      }
      submitted := Some(form["status" := Str("PENDING_PAYMENT")]);
    }
  }
}
