/**
 * The deal form shared by the create pages: field handlers over
 * `formData` and the keystroke filter on the price.
 */
module DealForm {
  import opened Common

  /** `^\d*\.?\d{0,2}$`, as the regular expression reads: digits, an optional dot, at most two digits. */
  ghost predicate PriceShape(s: string)
  {
    exists i, j :: 0 <= i <= j <= |s| && AllDigits(s[..i]) && (j == i || (j == i + 1 && s[i] == '.'))
      && AllDigits(s[j..]) && |s| - j <= 2
  }

  /** The keystroke filter: a run of digits, or digits, one dot and at most two more digits. */
  predicate PriceKeystrokeOk(s: string)
  {
    if exists k :: 0 <= k < |s| && s[k] == '.' then
      var i := FirstIndex(s, '.');
      AllDigits(s[..i]) && AllDigits(s[i + 1..]) && |s| - (i + 1) <= 2
    else AllDigits(s)
  }

  lemma DigitRunHasNoDot(s: string, a: nat)
    requires a <= |s| && AllDigits(s[..a])
    ensures forall k :: 0 <= k < a ==> s[k] != '.'
  {
    forall k | 0 <= k < a
      ensures s[k] != '.'
    {
      assert s[..a][k] == s[k];
    }
  }

  lemma DigitRunsJoin(s: string, a: nat)
    requires a <= |s| && AllDigits(s[..a]) && AllDigits(s[a..])
    ensures AllDigits(s)
  {
    forall k | 0 <= k < |s|
      ensures IsDigit(s[k])
    {
      if k < a {
        assert s[..a][k] == s[k];
      } else {
        assert s[a..][k - a] == s[k];
      }
    }
  }

  /** A string the filter admits splits as the regular expression needs. */
  lemma FilterImpliesShape(s: string)
    requires PriceKeystrokeOk(s)
    ensures PriceShape(s)
  {
    if exists k :: 0 <= k < |s| && s[k] == '.' {
      var i := FirstIndex(s, '.');
      assert 0 <= i <= i + 1 <= |s| && AllDigits(s[..i]) && s[i] == '.' && AllDigits(s[i + 1..]);
    } else {
      assert s[..|s|] == s && s[|s|..] == [];
    }
  }

  /** A split the regular expression accepts passes the filter. */
  lemma SplitPassesFilter(s: string, a: nat, b: nat)
    requires a <= b <= |s| && AllDigits(s[..a]) && (b == a || (b == a + 1 && s[a] == '.'))
    requires AllDigits(s[b..]) && |s| - b <= 2
    ensures PriceKeystrokeOk(s)
  {
    DigitRunHasNoDot(s, a);
    if b == a {
      DigitRunsJoin(s, a);
      assert forall k :: 0 <= k < |s| ==> s[k] != '.';
    } else {
      assert FirstIndex(s, '.') == a;
    }
  }

  /** The filter admits exactly the strings the regular expression matches. */
  lemma PriceFilterMatchesPattern(s: string)
    ensures PriceKeystrokeOk(s) <==> PriceShape(s)
  {
    if PriceKeystrokeOk(s) {
      FilterImpliesShape(s);
    }
    if PriceShape(s) {
      var a, b :| 0 <= a <= b <= |s| && AllDigits(s[..a]) && (b == a || (b == a + 1 && s[a] == '.'))
        && AllDigits(s[b..]) && |s| - b <= 2;
      SplitPassesFilter(s, a, b);
    }
  }

  /** Two decimals are accepted, a third is refused. */
  lemma PriceFilterExamples()
    ensures PriceKeystrokeOk("12.50") && !PriceKeystrokeOk("12.505")
  {
    assert "12.50"[2] == '.';
    assert "12.505"[2] == '.';
  }

  /** The form's state: the `formData` object the handlers replace. */
  class Form {
    var formData: map<string, Field>

    constructor (initial: map<string, Field>)
      ensures formData == initial
    {
      formData := initial;
    }

    /** `handleChange`: the named field takes the event's value; the others are kept. */
    method HandleChange(e: InputEvent)
      modifies this
      ensures formData == old(formData)[e.name := EventValue(e)]
    {
      formData := formData[e.name := EventValue(e)];
    }

    /** `handlePriceChange`: an accepted keystroke changes only `price`; a refused one changes nothing. */
    method HandlePriceChange(value: string)
      modifies this
      ensures PriceKeystrokeOk(value) ==> formData == old(formData)["price" := Str(value)]
      ensures !PriceKeystrokeOk(value) ==> formData == old(formData)
    {
      if PriceKeystrokeOk(value) {
        formData := formData["price" := Str(value)];
      }
    }

    /** The role select. */
    method SelectRole(value: string)
      modifies this
      ensures formData == old(formData)["role" := Str(value)]
    {
      formData := formData["role" := Str(value)];
    }

    /** The asset-type select. */
    method SelectAssetType(value: string)
      modifies this
      ensures formData == old(formData)["assetType" := Str(value)]
    {
      formData := formData["assetType" := Str(value)];
    }

    /** The terms select. */
    method SelectTerms(value: string)
      modifies this
      ensures formData == old(formData)["terms" := Str(value)]
    {
      formData := formData["terms" := Str(value)];
    }
  }

  /** Whatever keystrokes arrive, the price field only ever holds text the filter admits (or its initial value). */
  lemma FilteredPriceStaysInShape(f: map<string, Field>, value: string)
    requires "price" in f ==> f["price"].Str? && PriceKeystrokeOk(f["price"].text)
    ensures var g := if PriceKeystrokeOk(value) then f["price" := Str(value)] else f;
      "price" in g ==> g["price"].Str? && PriceShape(g["price"].text)
  {
    if PriceKeystrokeOk(value) {
      PriceFilterMatchesPattern(value);
    } else if "price" in f {
      PriceFilterMatchesPattern(f["price"].text);
    }
  }
}
