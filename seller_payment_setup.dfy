/**
 * The seller's payout page: a number normaliser without truncation, the
 * Kenyan number check built on it, the field handler, and the save
 * checks that decide whether the payout details are sent.
 */
module SellerPaymentSetup {
  import opened Common
  import opened FormChecks
  import TransactionSummary
  import UserRoutes

  /**
   * `validateKenyanPhone`, a normaliser despite its name: the digits with
   * the country code in front and a `+`, however many digits there are.
   */
  function NormalizePayout(phone: string): (r: string)
    ensures StartsWith(r, "+254") && r[0] == '+' && AllDigits(r[1..])
    ensures |r| >= 4 && |r| - 1 >= |DigitsOf(phone)|
  {
    var p := WithCountryCode(DigitsOf(phone));
    assert ("+" + p)[1..] == p;
    assert ("+" + p)[..4] == "+" + p[..3];
    "+" + p
  }

  /** `isValidKenyanPhone`: the normalised number matches `^\+254(7\d{8}|1\d{8})$`. */
  predicate IsValidKenyanPhone(phone: string)
  {
    KenyanPhone(NormalizePayout(phone))
  }

  /** Normalising a normalised number changes nothing. */
  lemma NormalizePayoutIdempotent(phone: string)
    ensures NormalizePayout(NormalizePayout(phone)) == NormalizePayout(phone)
  {
    var r := NormalizePayout(phone);
    var q := r[1..];
    assert r == "+" + q;
    DigitsAfterPlus(q);
    assert q[..3] == r[1..4];
    assert WithCountryCode(q) == q;
  }

  /**
   * The two pages' normalisers differ only in the summary page's cut after
   * twelve digits: on every number this page accepts they agree, and
   * both results are accepted.
   */
  lemma NormalizersAgreeOnValidNumbers(phone: string)
    requires IsValidKenyanPhone(phone)
    ensures TransactionSummary.Normalize(phone) == NormalizePayout(phone)
    ensures KenyanPhone(TransactionSummary.Normalize(phone))
  {
    var p := WithCountryCode(DigitsOf(phone));
    assert |p| == 12;
  }

  /** With more than twelve digits the summary page cuts the number and this page keeps it whole. */
  lemma NormalizersDifferOnLongNumbers(phone: string)
    requires |WithCountryCode(DigitsOf(phone))| > 12
    ensures TransactionSummary.Normalize(phone) != NormalizePayout(phone)
    ensures !IsValidKenyanPhone(phone)
  {
    assert |TransactionSummary.Normalize(phone)| <= 13 < |NormalizePayout(phone)|;
  }

  /** An empty phone box is refused: it normalises to the bare country code. */
  lemma EmptyPhoneRefused()
    ensures NormalizePayout("") == "+254" && !IsValidKenyanPhone("")
  {
    assert WithCountryCode("") == "254";
  }

  // ---------------------------------------------------------------- saving

  const PhoneMessage := "Enter a valid Kenyan phone number (e.g. +254712345678)"
  const MpesaFieldsMissing := "Please fill in all required fields for M-Pesa"
  const MpesaPhoneInvalid := "Please enter a valid Kenyan phone number"
  const BankFieldsMissing := "Please fill in all required fields for Bank transfer"

  /** The text of a form field; a missing field reads as empty, and both are falsy. */
  function Text(form: map<string, string>, k: string): string
  {
    if k in form then form[k] else ""
  }

  /** The M-Pesa fields are all filled in. */
  predicate MpesaFilled(form: map<string, string>)
  {
    Text(form, "firstName") != "" && Text(form, "lastName") != "" && Text(form, "nationalId") != ""
    && Text(form, "phoneNumber") != ""
  }

  /** The bank fields are all filled in. */
  predicate BankFilled(form: map<string, string>)
  {
    Text(form, "bankName") != "" && Text(form, "accountNumber") != "" && Text(form, "accountName") != ""
  }

  /** The form's fields as request values. */
  function AsValues(form: map<string, string>): (m: map<string, JVal>)
    ensures m.Keys == form.Keys && forall k :: k in form ==> m[k] == JStr(form[k])
  {
    map k | k in form :: JStr(form[k])
  }

  /**
   * `{paymentMethod, ...formData}` with, for M-Pesa, the phone replaced by
   * its normal form. A form field of the same name would override the method.
   */
  function PaymentData(paymentMethod: string, form: map<string, string>): (data: map<string, JVal>)
    ensures data.Keys == form.Keys + {"paymentMethod"} + (if paymentMethod == "mpesa" then {"phoneNumber"} else {})
    ensures "paymentMethod" !in form ==> data["paymentMethod"] == JStr(paymentMethod)
    ensures paymentMethod == "mpesa" ==> data["phoneNumber"] == JStr(NormalizePayout(Text(form, "phoneNumber")))
    ensures forall k :: k in form && k != "paymentMethod" && (k != "phoneNumber" || paymentMethod != "mpesa") ==>
      data[k] == JStr(form[k])
  {
    var data := map["paymentMethod" := JStr(paymentMethod)] + AsValues(form);
    if paymentMethod == "mpesa" then data["phoneNumber" := JStr(NormalizePayout(Text(form, "phoneNumber")))]
    else data
  }

  /** What a click on Save leads to: the request sent, or the message shown instead. */
  datatype SaveOutcome = Sent(data: map<string, JVal>) | Refused(message: string)

  /**
   * An M-Pesa save reaches the profile with the method, the three names
   * and the normalised, accepted phone, and with none of the bank fields
   * the form also carried.
   */
  lemma MpesaSaveStoresNormalPhone(form: map<string, string>)
    requires "paymentMethod" !in form && MpesaFilled(form) && IsValidKenyanPhone(Text(form, "phoneNumber"))
    ensures var update := UserRoutes.UpdateFor(PaymentData("mpesa", form));
      && update.Keys == {"paymentMethod"} + UserRoutes.MpesaFields
      && update["phoneNumber"] == JStr(NormalizePayout(Text(form, "phoneNumber")))
      && KenyanPhone(update["phoneNumber"].s)
      && update["firstName"] == JStr(form["firstName"])
  {
    var data := PaymentData("mpesa", form);
    assert Get(data, "paymentMethod") == JStr("mpesa");
    assert UserRoutes.UpdateKeys(data) == {"paymentMethod"} + UserRoutes.MpesaFields;
  }

  /** The page's state: the chosen method, the fields, and their messages. */
  class Page {
    var paymentMethod: string
    var formData: map<string, string>
    var errors: map<string, string>

    constructor ()
      ensures paymentMethod == "" && errors == map[]
      ensures formData == map["firstName" := "", "lastName" := "", "nationalId" := "", "phoneNumber" := "",
                              "bankName" := "", "accountNumber" := "", "accountName" := ""]
    {
      paymentMethod := "";
      formData := map["firstName" := "", "lastName" := "", "nationalId" := "", "phoneNumber" := "",
                      "bankName" := "", "accountNumber" := "", "accountName" := ""];
      errors := map[];
    }

    /** The method select. */
    method SelectMethod(value: string)
      modifies this
      ensures paymentMethod == value && formData == old(formData) && errors == old(errors)
    {
      paymentMethod := value;
    }

    /**
     * `handleInputChange`: store the value, clear the field's message if it
     * had one, and for the phone raise the message again when the new
     * number is not accepted.
     */
    method HandleInputChange(name: string, value: string)
      modifies this
      ensures formData == old(formData)[name := value] && paymentMethod == old(paymentMethod)
      ensures name == "phoneNumber" && !IsValidKenyanPhone(value) ==> errors == old(errors)["phoneNumber" := PhoneMessage]
      ensures !(name == "phoneNumber" && !IsValidKenyanPhone(value)) ==>
        (errors == if Text(old(errors), name) != "" then old(errors)[name := ""] else old(errors))
    {
      formData := formData[name := value];
      if Text(errors, name) != "" {
        errors := errors[name := ""];
      }
      if name == "phoneNumber" {
        if !IsValidKenyanPhone(value) {
          errors := errors["phoneNumber" := PhoneMessage];
        }
      }
    }

    /**
     * `handleSave`: the M-Pesa checks (fields, then the number), the bank
     * checks, and otherwise the request with the method and every field.
     */
    method HandleSave() returns (r: SaveOutcome)
      ensures paymentMethod == "mpesa" ==>
        (&& (!MpesaFilled(formData) ==> r == Refused(MpesaFieldsMissing))
         && (MpesaFilled(formData) && !IsValidKenyanPhone(Text(formData, "phoneNumber")) ==> r == Refused(MpesaPhoneInvalid))
         && (r.Sent? <==> MpesaFilled(formData) && IsValidKenyanPhone(Text(formData, "phoneNumber"))))
      ensures paymentMethod == "bank" ==>
        (&& (!BankFilled(formData) ==> r == Refused(BankFieldsMissing))
         && (r.Sent? <==> BankFilled(formData)))
      ensures paymentMethod != "mpesa" && paymentMethod != "bank" ==> r.Sent?
      ensures r.Sent? ==> r.data == PaymentData(paymentMethod, formData)
    {
      var data := map["paymentMethod" := JStr(paymentMethod)] + AsValues(formData);
      if paymentMethod == "mpesa" {
        if !MpesaFilled(formData) {
          return Refused(MpesaFieldsMissing);
        }
        if !IsValidKenyanPhone(Text(formData, "phoneNumber")) {
          return Refused(MpesaPhoneInvalid);
        }
        data := data["phoneNumber" := JStr(NormalizePayout(Text(formData, "phoneNumber")))];
      } else if paymentMethod == "bank" {
        if !BankFilled(formData) {
          return Refused(BankFieldsMissing);
        }
      }
      r := Sent(data);
    }
  }
}
