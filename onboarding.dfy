/**
 * The landing form that collects role, asset type and price before
 * sign-in: field handlers, the validation, and the submit gate that parks
 * the form in local storage for a visitor who is not signed in.
 */
module Onboarding {
  import opened Common

  const RoleMissing := "Please select selling or buying"
  const AssetMissing := "Please select an asset"
  const PriceInvalid := "Please enter a valid price"
  const PriceTooHigh := "Transactions above KES 100, 000 are not allowed"

  /** The largest price the form lets through. */
  const PriceLimit: real := 100000.0

  /** `!price || isNaN(Number(price)) || Number(price) <= 0`. */
  predicate PriceUnusable(price: string)
  {
    var n := JsNumber(price);
    price == "" || n.None? || n.value <= 0.0
  }

  /** `Number(price) > 100000` (false for NaN). */
  predicate PriceOverLimit(price: string)
  {
    var n := JsNumber(price);
    n.Some? && n.value > PriceLimit
  }

  function Value(form: map<string, string>, k: string): string
  {
    if k in form then form[k] else ""
  }

  /** `validate`: one message per failing field; the limit message overwrites the price message. */
  method Validate(form: map<string, string>) returns (errors: map<string, string>)
    ensures errors == ValidationErrors(form)
    ensures "role" in errors <==> Value(form, "role") == ""
    ensures "assetType" in errors <==> Value(form, "assetType") == ""
    ensures "price" in errors <==> PriceUnusable(Value(form, "price")) || PriceOverLimit(Value(form, "price"))
    ensures PriceOverLimit(Value(form, "price")) ==> errors["price"] == PriceTooHigh
    ensures errors.Keys <= {"role", "assetType", "price"}
    ensures forall k :: k in errors ==> errors[k] in [RoleMissing, AssetMissing, PriceInvalid, PriceTooHigh]
  {
    errors := map[];
    var price := Value(form, "price");
    if Value(form, "role") == "" {
      errors := errors["role" := RoleMissing];
    }
    if Value(form, "assetType") == "" {
      errors := errors["assetType" := AssetMissing];
    }
    if PriceUnusable(price) {
      errors := errors["price" := PriceInvalid];
    }
    if PriceOverLimit(price) {
      errors := errors["price" := PriceTooHigh];
    }
  }

  /** The two price conditions never hold together: a price over the limit is usable. */
  lemma PriceMessagesExclusive(price: string)
    ensures !(PriceUnusable(price) && PriceOverLimit(price))
  {
    if price == "" {
      assert Blank(price) by { assert TrimStart(price) == price; }
    }
  }

  /** A form passes validation iff both selections are made and the price lies in (0, 100000]. */
  lemma AcceptedForm(form: map<string, string>)
    ensures ValidationErrors(form) == map[] <==>
      (&& Value(form, "role") != "" && Value(form, "assetType") != "" && Value(form, "price") != ""
       && JsNumber(Value(form, "price")).Some? && 0.0 < JsNumber(Value(form, "price")).value <= PriceLimit)
  {
    var price := Value(form, "price");
    if Value(form, "role") == "" {
      assert "role" in ValidationErrors(form);
    }
    if Value(form, "assetType") == "" {
      assert "assetType" in ValidationErrors(form);
    }
    if PriceUnusable(price) || PriceOverLimit(price) {
      assert "price" in ValidationErrors(form);
    }
  }

  /** Where the submit leaves the visitor. */
  datatype Destination = Stay | ToLogin

  class Page {
    var formData: map<string, string>
    var errors: map<string, string>
    /** The `pendingSubmission` entry of local storage. */
    var pendingSubmission: Option<map<string, string>>
    var destination: Destination

    constructor ()
      ensures formData == map["role" := "", "assetType" := "", "price" := ""]
      ensures errors == map[] && pendingSubmission == None && destination == Stay
    {
      formData := map["role" := "", "assetType" := "", "price" := ""];
      errors := map[];
      pendingSubmission := None;
      destination := Stay;
    }

    /** `handleChange`: the field takes the value, and every error is cleared. */
    method HandleChange(name: string, value: string)
      modifies this
      ensures formData == old(formData)[name := value] && errors == map[]
      ensures pendingSubmission == old(pendingSubmission) && destination == old(destination)
    {
      formData := formData[name := value];
      errors := map[];
    }

    /**
     * `handleSubmit`: with errors, they are shown and nothing else happens;
     * otherwise a visitor who is not signed in has the form stored and is
     * sent to the login page.
     */
    method HandleSubmit(signedIn: bool)
      modifies this
      ensures formData == old(formData)
      ensures var e := ValidationErrors(old(formData));
        if e != map[] then (errors == e && pendingSubmission == old(pendingSubmission) && destination == old(destination))
        else (errors == old(errors) &&
          (if signedIn then pendingSubmission == old(pendingSubmission) && destination == old(destination)
           else pendingSubmission == Some(old(formData)) && destination == ToLogin))
    {
      var e := Validate(formData);
      if e != map[] {
        errors := e;
        return;
      }
      if !signedIn {
        pendingSubmission := Some(formData);
        destination := ToLogin;
      }
    }
  }

  /** The error map `validate` returns, as a function. */
  function ValidationErrors(form: map<string, string>): map<string, string>
  {
    var price := Value(form, "price");
    var base := (if Value(form, "role") == "" then map["role" := RoleMissing] else map[])
      + (if Value(form, "assetType") == "" then map["assetType" := AssetMissing] else map[]);
    if PriceOverLimit(price) then base["price" := PriceTooHigh]
    else if PriceUnusable(price) then base["price" := PriceInvalid]
    else base
  }
}
