/**
 * The sign-up page: live messages for the email, password and
 * confirmation, the full form check run on submit, and the two gates in
 * front of the identity provider (the form, and the Google button).
 */
module Signup {
  import opened Common
  import opened FormChecks

  const EmailRequired := "Email is required"
  const EmailInvalid := "Please enter a valid email address"
  const PasswordRequired := "Password is required"
  const PasswordWeak := "Password must be at least 8 characters, include upper & lower case, and one number/special character"
  const ConfirmRequired := "Please confirm your password"
  const Mismatch := "Passwords do not match"
  const TermsRequired := "You must agree to the Terms & Conditions"
  const LocalTermsRequired := "You must agree to use Escrow for local transactions only"
  const LiveEmailInvalid := "Please enter a valid email"

  /** The fields `validateForm` reads. */
  datatype Form = Form(email: string, password: string, confirmPassword: string, termsChecked: bool, localChecked: bool)

  /** Every check of `validateForm` passes. */
  predicate FormOk(f: Form)
  {
    && EmailValid(f.email)
    && ValidatePassword(f.password).valid
    && f.confirmPassword != "" && f.confirmPassword == f.password
    && f.termsChecked && f.localChecked
  }

  /**
   * `validateForm`: each failing check writes its field's message into a
   * fresh error map and clears the flag. The email is first checked for
   * blankness, the password for emptiness, then each against its rule.
   */
  method ValidateForm(f: Form) returns (errors: map<string, string>, isValid: bool)
    ensures isValid <==> FormOk(f)
    ensures "email" in errors <==> !EmailValid(f.email)
    ensures "password" in errors <==> !ValidatePassword(f.password).valid
    ensures "confirm" in errors <==> (f.confirmPassword == "" || f.confirmPassword != f.password)
    ensures "terms" in errors <==> !f.termsChecked
    ensures "localTerms" in errors <==> !f.localChecked
    ensures errors.Keys <= {"email", "password", "confirm", "terms", "localTerms"}
    ensures Blank(f.email) ==> errors["email"] == EmailRequired
    ensures f.password == "" ==> errors["password"] == PasswordRequired
    ensures f.confirmPassword != "" && f.confirmPassword != f.password ==> errors["confirm"] == Mismatch
  {
    if EmailValid(f.email) {
      EmailValidNotBlank(f.email);
    }
    errors := map[];
    isValid := true;
    if Blank(f.email) {
      errors := errors["email" := EmailRequired];
      isValid := false;
    } else if !EmailValid(f.email) {
      errors := errors["email" := EmailInvalid];
      isValid := false;
    }
    assert errors.Keys == (if EmailValid(f.email) then {} else {"email"});
    if f.password == "" {
      errors := errors["password" := PasswordRequired];
      isValid := false;
    } else if !ValidatePassword(f.password).valid {
      errors := errors["password" := PasswordWeak];
      isValid := false;
    }
    assert "password" in errors <==> !ValidatePassword(f.password).valid;
    if f.confirmPassword == "" {
      errors := errors["confirm" := ConfirmRequired];
      isValid := false;
    } else if f.password != f.confirmPassword {
      errors := errors["confirm" := Mismatch];
      isValid := false;
    }
    if !f.termsChecked {
      errors := errors["terms" := TermsRequired];
      isValid := false;
    }
    if !f.localChecked {
      errors := errors["localTerms" := LocalTermsRequired];
      isValid := false;
    }
  }

  /** The identity provider's sign-up request. */
  datatype SignUpRequest = SignUpRequest(emailAddress: string, password: string, firstName: JVal, lastName: JVal, phoneNumber: JVal)

  /** `s.trim() || undefined`. */
  function OptionalText(s: string): (v: JVal)
    ensures Blank(s) <==> v == Undefined
  {
    if Trim(s) == "" then Undefined else JStr(Trim(s))
  }

  /** The page's state. The name and phone fields have no input on the page and stay empty. */
  class Page {
    var email: string
    var password: string
    var confirmPassword: string
    var termsChecked: bool
    var localChecked: bool
    var errors: map<string, ErrorValue>

    function Fields(): Form
      reads this
    {
      Form(email, password, confirmPassword, termsChecked, localChecked)
    }

    constructor ()
      ensures Fields() == Form("", "", "", false, false) && errors == map[]
    {
      email := "";
      password := "";
      confirmPassword := "";
      termsChecked := false;
      localChecked := false;
      errors := map[];
    }

    /** `handleEmailChange`: a message only for a non-empty invalid address. */
    method EmailChange(value: string)
      modifies this
      ensures Fields() == old(Fields()).(email := value)
      ensures errors == old(errors)["email" := Message(if value != "" && !EmailValid(value) then LiveEmailInvalid else "")]
    {
      email := value;
      errors := errors["email" := Message(if value != "" && !EmailValid(value) then LiveEmailInvalid else "")];
    }

    /** `handlePasswordChange`: the rule flags of the new password are shown. */
    method PasswordChange(value: string)
      modifies this
      ensures Fields() == old(Fields()).(password := value)
      ensures errors == old(errors)["passwordRules" := Rules(ValidatePassword(value))]
    {
      password := value;
      errors := errors["passwordRules" := Rules(ValidatePassword(value))];
    }

    /**
     * `handleConfirmPassword`: "Passwords do not match" exactly when the
     * confirmation is non-empty and differs from the password.
     */
    method ConfirmChange(value: string)
      modifies this
      ensures Fields() == old(Fields()).(confirmPassword := value)
      ensures "confirm" in errors && errors == old(errors)["confirm" := errors["confirm"]]
      ensures errors["confirm"] == Message(Mismatch) <==> (value != "" && value != password)
      ensures errors["confirm"] == Message("") <==> !(value != "" && value != password)
    {
      confirmPassword := value;
      errors := errors["confirm" := Message(if value != "" && value != password then Mismatch else "")];
    }

    /** The two checkboxes. */
    method ToggleTerms()
      modifies this
      ensures Fields() == old(Fields()).(termsChecked := !old(termsChecked)) && errors == old(errors)
    {
      termsChecked := !termsChecked;
    }

    method ToggleLocal()
      modifies this
      ensures Fields() == old(Fields()).(localChecked := !old(localChecked)) && errors == old(errors)
    {
      localChecked := !localChecked;
    }

    /**
     * `handleSignup`: the form check replaces the error map; a request is
     * made only when it passes. The page then repeats the match and terms
     * checks, which the form check has already settled.
     */
    method Submit() returns (request: Option<SignUpRequest>)
      modifies this
      ensures Fields() == old(Fields())
      ensures request.Some? <==> FormOk(Fields())
      ensures request.Some? ==> request.value == SignUpRequest(email, password, Undefined, Undefined, Undefined)
      ensures errors.Keys <= {"email", "password", "confirm", "terms", "localTerms"}
      ensures "email" in errors <==> !EmailValid(email)
      ensures "password" in errors <==> !ValidatePassword(password).valid
      ensures "confirm" in errors <==> (confirmPassword == "" || confirmPassword != password)
      ensures "terms" in errors <==> !termsChecked
      ensures "localTerms" in errors <==> !localChecked
    {
      var messages, isValid := ValidateForm(Fields());
      errors := map k | k in messages :: Message(messages[k]);
      assert errors.Keys == messages.Keys;
      if !isValid {
        return None;
      }
      assert password == confirmPassword && termsChecked && localChecked;
      EmailValidNotBlank(email);
      assert OptionalText("") == Undefined by {
        assert Trim("") == "";
      }
      request := Some(SignUpRequest(Trim(email), password, OptionalText(""), OptionalText(""), OptionalText("")));
    }

    /** `handleGoogleSignup`: the redirect happens only with both boxes ticked; nothing else is checked. */
    method GoogleSignup() returns (redirected: bool)
      ensures redirected <==> termsChecked && localChecked
    {
      redirected := termsChecked && localChecked;
    }
  }
}
