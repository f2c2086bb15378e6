/**
 * Checks that several pages define identically: the email pattern of the
 * sign-up and summary pages, the Kenyan number pattern of the summary and
 * payout pages, and the password rules of the sign-up and reset pages.
 */
module FormChecks {
  import opened Common

  // ---------------------------------------------------------------- email

  /** `@` appears in `s` at position `a` and nowhere else. */
  predicate OnlyAt(s: string, a: int)
  {
    forall k :: 0 <= k < |s| && k != a ==> s[k] != '@'
  }

  /**
   * `^[^\s@]+@[^\s@]+\.[^\s@]+$`: no white space, a single `@` with text
   * before it, and a dot after the `@` with text on both sides.
   */
  predicate EmailValid(s: string)
  {
    && NoSpace(s)
    && exists a, b :: 0 < a && a + 1 < b && b + 1 < |s| && s[a] == '@' && s[b] == '.' && OnlyAt(s, a)
  }

  /** A valid address is never blank, so the pages' "required" test cannot fire on it. */
  lemma EmailValidNotBlank(s: string)
    requires EmailValid(s)
    ensures !Blank(s) && Trim(s) == s
  {
    TrimUnchanged(s);
  }

  /** Two sample inputs: one accepted, one refused for its second `@`. */
  lemma EmailExamples()
    ensures EmailValid("ann@mail.co")
    ensures !EmailValid("a@b@mail.co")
  {
    var s := "ann@mail.co";
    assert s[3] == '@' && s[8] == '.';
    assert OnlyAt(s, 3);
    var t := "a@b@mail.co";
    assert t[1] == '@' && t[3] == '@';
  }

  // ---------------------------------------------------------------- phone

  /** `^\+254(7\d{8}|1\d{8})$`: `+254`, then 7 or 1, then eight digits. */
  predicate KenyanPhone(s: string)
  {
    |s| == 13 && s[..4] == "+254" && (s[4] == '7' || s[4] == '1') && AllDigits(s[5..])
  }

  /** Every accepted number is `+` followed by twelve digits. */
  lemma KenyanPhoneDigits(s: string)
    requires KenyanPhone(s)
    ensures s[0] == '+' && AllDigits(s[1..]) && |s[1..]| == 12 && StartsWith(s[1..], "254")
  {
    assert s[1..][..3] == s[1..4];
    forall k | 0 <= k < 12
      ensures IsDigit(s[1..][k])
    {
      if k >= 4 {
        assert s[1..][k] == s[5..][k - 4];
      }
    }
  }

  /** The digits with the country code in front, as the normalisers of the summary and payout pages build them. */
  function WithCountryCode(d: string): (p: string)
    requires AllDigits(d)
    ensures AllDigits(p) && StartsWith(p, "254")
    ensures StartsWith(d, "254") ==> p == d
  {
    assert StartsWith(d, "254") ==> d[..2] == "25" && d[..1] == "2";
    if StartsWith(d, "07") || StartsWith(d, "01") then "254" + d[1..]
    else if StartsWith(d, "7") || StartsWith(d, "1") then "254" + d
    else if !StartsWith(d, "254") then "254" + d
    else d
  }

  /** A local number's leading 0 gives way to the country code. */
  lemma LocalPrefixReplaced(d: string)
    requires AllDigits(d) && |d| >= 2 && d[0] == '0' && (d[1] == '7' || d[1] == '1')
    ensures WithCountryCode(d) == "254" + d[1..]
  {
    assert d[..2] == [d[0], d[1]];
    assert StartsWith(d, "07") || StartsWith(d, "01");
  }

  /** A leading `+` is dropped when the digits are collected. */
  lemma DigitsAfterPlus(q: string)
    requires AllDigits(q)
    ensures DigitsOf("+" + q) == q
  {
    assert ("+" + q)[1..] == q;
  }

  // ---------------------------------------------------------------- password

  /** The rule flags `validatePassword` returns. */
  datatype PasswordChecks = PasswordChecks(length: bool, upperLower: bool, numSpecial: bool, valid: bool)

  /** An entry of the password pages' error object: a message, or the rule flags shown under the password box. */
  datatype ErrorValue = Message(text: string) | Rules(checks: PasswordChecks)

  /** `[0-9!@#$%^&*]`. */
  predicate NumSpecial(c: char)
  {
    IsDigit(c) || c == '!' || c == '@' || c == '#' || c == '$' || c == '%' || c == '^' || c == '&' || c == '*'
  }

  predicate HasLower(s: string) { exists i :: 0 <= i < |s| && IsLower(s[i]) }
  predicate HasUpper(s: string) { exists i :: 0 <= i < |s| && IsUpper(s[i]) }
  predicate HasNumSpecial(s: string) { exists i :: 0 <= i < |s| && NumSpecial(s[i]) }

  /** `validatePassword`: three independent rules, and their conjunction. */
  function ValidatePassword(p: string): (r: PasswordChecks)
    ensures r.valid <==> (r.length && r.upperLower && r.numSpecial)
  {
    var length := |p| >= 8;
    var upperLower := HasLower(p) && HasUpper(p);
    var numSpecial := HasNumSpecial(p);
    PasswordChecks(length, upperLower, numSpecial, length && upperLower && numSpecial)
  }

  /** A valid password stays valid whatever is typed after it. */
  lemma {:induction false} PasswordValidExtends(p: string, q: string)
    requires ValidatePassword(p).valid
    ensures ValidatePassword(p + q).valid
  {
    var i :| 0 <= i < |p| && IsLower(p[i]);
    var j :| 0 <= j < |p| && IsUpper(p[j]);
    var k :| 0 <= k < |p| && NumSpecial(p[k]);
    assert (p + q)[i] == p[i] && (p + q)[j] == p[j] && (p + q)[k] == p[k];
  }

  /** A valid password holds at least three distinct characters. */
  lemma PasswordValidHasThreeKinds(p: string)
    requires ValidatePassword(p).valid
    ensures exists i, j, k :: 0 <= i < |p| && 0 <= j < |p| && 0 <= k < |p| && p[i] != p[j] && p[j] != p[k] && p[i] != p[k]
  {
    var i :| 0 <= i < |p| && IsLower(p[i]);
    var j :| 0 <= j < |p| && IsUpper(p[j]);
    var k :| 0 <= k < |p| && NumSpecial(p[k]);
    assert p[i] != p[j] && p[j] != p[k] && p[i] != p[k];
  }

  /** One password meets every rule; each of the others misses exactly one. */
  lemma PasswordExamples()
    ensures ValidatePassword("Passw0rd").valid
    ensures ValidatePassword("password1") == PasswordChecks(true, false, true, false)
    ensures ValidatePassword("Pa1") == PasswordChecks(false, true, true, false)
    ensures ValidatePassword("Password") == PasswordChecks(true, true, false, false)
  {
    var a := "Passw0rd";
    assert IsLower(a[1]) && IsUpper(a[0]) && NumSpecial(a[5]);
    var b := "password1";
    assert IsLower(b[0]) && NumSpecial(b[8]);
    assert forall i :: 0 <= i < |b| ==> !IsUpper(b[i]);
    var c := "Pa1";
    assert IsLower(c[1]) && IsUpper(c[0]) && NumSpecial(c[2]);
    var d := "Password";
    assert IsLower(d[1]) && IsUpper(d[0]);
    assert forall i :: 0 <= i < |d| ==> !NumSpecial(d[i]);
  }
}
