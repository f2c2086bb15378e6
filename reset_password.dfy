/**
 * The reset-password page: the same live rule flags and match message as
 * sign-up, a submit check that only compares the two fields, and an
 * `isFormValid` flag that nothing uses to gate the submit.
 */
module ResetPassword {
  import opened Common
  import opened FormChecks

  const PasswordRequired := "Password is required"
  const ConfirmRequired := "Please confirm password"
  const Mismatch := "Passwords do not match"

  /**
   * `validateForm`: a message for a missing password, for a missing
   * confirmation, and for two filled fields that differ; the fields pass
   * iff no message was written. The password rules are not consulted.
   */
  method ValidateForm(password: string, confirmPassword: string) returns (errors: map<string, ErrorValue>, ok: bool)
    ensures ok <==> password != "" && confirmPassword != "" && password == confirmPassword
    ensures errors.Keys <= {"password", "confirm"}
    ensures "password" in errors <==> password == ""
    ensures "confirm" in errors <==> (confirmPassword == "" || (password != "" && password != confirmPassword))
    ensures confirmPassword == "" ==> errors["confirm"] == Message(ConfirmRequired)
    ensures confirmPassword != "" && password != "" && password != confirmPassword ==> errors["confirm"] == Message(Mismatch)
    ensures "passwordRules" !in errors
  {
    errors := map[];
    if password == "" {
      errors := errors["password" := Message(PasswordRequired)];
    }
    if confirmPassword == "" {
      errors := errors["confirm" := Message(ConfirmRequired)];
    }
    if password != "" && confirmPassword != "" && password != confirmPassword {
      errors := errors["confirm" := Message(Mismatch)];
    }
    ok := "password" !in errors && "confirm" !in errors;
  }

  /** `errors.confirm` is truthy. */
  predicate ConfirmFlagged(errors: map<string, ErrorValue>)
  {
    "confirm" in errors && errors["confirm"] != Message("")
  }

  /** `password && confirmPassword && errors.passwordRules?.valid && !errors.confirm`. */
  predicate IsFormValid(password: string, confirmPassword: string, errors: map<string, ErrorValue>)
  {
    && password != "" && confirmPassword != ""
    && "passwordRules" in errors && errors["passwordRules"].Rules? && errors["passwordRules"].checks.valid
    && !ConfirmFlagged(errors)
  }

  /**
   * The confirmation message is computed when the confirmation is typed,
   * not when the password changes afterwards: `isFormValid` can hold over
   * two different fields whose flags were each right when set.
   */
  lemma IsFormValidMissesLaterMismatch()
    ensures var errors := map["passwordRules" := Rules(ValidatePassword("Passw0rdx")), "confirm" := Message("")];
      IsFormValid("Passw0rdx", "Passw0rd", errors) && "Passw0rdx" != "Passw0rd"
  {
    PasswordExamples();
    PasswordValidExtends("Passw0rd", "x");
    assert "Passw0rd" + "x" == "Passw0rdx";
  }

  /** The page's state. */
  class Page {
    var password: string
    var confirmPassword: string
    var errors: map<string, ErrorValue>

    /** The rule flags on show, if any, are those of the current password. */
    ghost predicate Valid()
      reads this
    {
      "passwordRules" in errors ==> errors["passwordRules"] == Rules(ValidatePassword(password))
    }

    constructor ()
      ensures Valid() && password == "" && confirmPassword == "" && errors == map[]
    {
      password := "";
      confirmPassword := "";
      errors := map[];
    }

    /** `handlePasswordChange`. */
    method PasswordChange(value: string)
      requires Valid()
      modifies this
      ensures Valid()
      ensures password == value && confirmPassword == old(confirmPassword)
      ensures errors == old(errors)["passwordRules" := Rules(ValidatePassword(value))]
    {
      password := value;
      errors := errors["passwordRules" := Rules(ValidatePassword(value))];
    }

    /** `handleConfirmPassword`: the message is set iff the confirmation is non-empty and differs. */
    method ConfirmChange(value: string)
      requires Valid()
      modifies this
      ensures Valid()
      ensures confirmPassword == value && password == old(password)
      ensures errors == old(errors)["confirm" := Message(if value != "" && value != password then Mismatch else "")]
      ensures ConfirmFlagged(errors) <==> (value != "" && value != password)
    {
      confirmPassword := value;
      errors := errors["confirm" := Message(if value != "" && value != password then Mismatch else "")];
    }

    /** The flag the page computes: over a consistent state it implies the rules hold for the current password. */
    function FormValid(): (valid: bool)
      requires Valid()
      reads this
      ensures valid ==> ValidatePassword(password).valid
    {
      IsFormValid(password, confirmPassword, errors)
    }

    /**
     * `handleResetPassword`: the form check replaces the errors; the new
     * password is sent only when it passes and a user is signed in. The
     * rules are not required, so a weak but matching password is sent.
     */
    method Submit(signedIn: bool) returns (newPassword: Option<string>)
      requires Valid()
      modifies this
      ensures Valid()
      ensures password == old(password) && confirmPassword == old(confirmPassword)
      ensures newPassword.Some? <==> (signedIn && password != "" && password == confirmPassword)
      ensures newPassword.Some? ==> newPassword.value == password
      ensures "passwordRules" !in errors
    {
      var e, ok := ValidateForm(password, confirmPassword);
      errors := e;
      if !ok || !signedIn {
        return None;
      }
      newPassword := Some(password);
    }
  }
}
