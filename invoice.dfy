/**
 * The named sequence counters (one record per `name`, `seq` defaulting to 0)
 * and the six-digit invoice number format derived from them.
 */
module Invoice {
  import opened Common

  /** The counter name the transaction routes use. */
  const InvoiceCounter: string := "invoice"

  /** The counters collection: `name` is the unique key, `seq` the value. */
  class InvoiceCounters {
    var seqs: map<string, nat>

    constructor ()
      ensures seqs == map[]
    {
      seqs := map[];
    }

    /** The current value of a counter; a missing record reads as the default 0. */
    function Current(name: string): nat
      reads this
    {
      if name in seqs then seqs[name] else 0
    }

    /**
     * `findOneAndUpdate({name}, {$inc: {seq: 1}}, {new: true, upsert: true})`:
     * the record is created when missing, bumped by one, and its new value returned.
     */
    method IncrementAndGet(name: string) returns (value: nat)
      modifies this
      ensures value == old(Current(name)) + 1
      ensures seqs == old(seqs)[name := value]
    {
      value := Current(name) + 1;
      seqs := seqs[name := value];
    }
  }

  /** `seq.toString().padStart(6, "0")`. */
  function FormatInvoice(n: nat): (r: string)
    ensures AllDigits(r)
    ensures |r| >= 6
  {
    PadZeros(NatToString(n), 6)
  }

  lemma {:induction false} NatToStringValue(n: nat)
    ensures DigitsValue(NatToString(n)) == n
    decreases n
  {
    if n >= 10 {
      NatToStringValue(n / 10);
      var s := NatToString(n);
      assert s[..|s| - 1] == NatToString(n / 10);
      assert s[|s| - 1] == DigitChar(n % 10);
    }
  }

  lemma {:induction false} LeadingZerosValue(z: string, s: string)
    requires AllDigits(s) && forall i :: 0 <= i < |z| ==> z[i] == '0'
    ensures AllDigits(z + s) && DigitsValue(z + s) == DigitsValue(s)
    decreases |s|
  {
    if s == [] {
      assert z + s == z;
      ZerosValue(z);
    } else {
      var w := z + s;
      assert w[..|w| - 1] == z + s[..|s| - 1];
      LeadingZerosValue(z, s[..|s| - 1]);
    }
  }

  lemma {:induction false} ZerosValue(z: string)
    requires forall i :: 0 <= i < |z| ==> z[i] == '0'
    ensures AllDigits(z) && DigitsValue(z) == 0
    decreases |z|
  {
    if z != [] {
      ZerosValue(z[..|z| - 1]);
    }
  }

  /** Reading an invoice number back as a decimal gives the counter value it came from. */
  lemma InvoiceValue(n: nat)
    ensures DigitsValue(FormatInvoice(n)) == n
  {
    var s := NatToString(n);
    var r := PadZeros(s, 6);
    var z := r[..|r| - |s|];
    forall i | 0 <= i < |z|
      ensures z[i] == '0'
    {
      assert z[i] == r[i];
    }
    assert r == z + s by {
      assert r[|r| - |s|..] == s;
    }
    NatToStringValue(n);
    LeadingZerosValue(z, s);
  }

  /** Distinct counter values give distinct invoice numbers, so none is ever reused. */
  lemma InvoiceInjective(a: nat, b: nat)
    requires a != b
    ensures FormatInvoice(a) != FormatInvoice(b)
  {
    InvoiceValue(a);
    InvoiceValue(b);
  }

  lemma {:induction false} NatToStringWidth(n: nat, k: nat)
    requires k >= 1
    ensures n < Pow10(k) <==> |NatToString(n)| <= k
    decreases n
  {
    if n >= 10 {
      if k == 1 {
        assert |NatToString(n)| >= 2;
      } else {
        NatToStringWidth(n / 10, k - 1);
      }
    }
  }

  /**
   * Up to 999999 an invoice number has exactly six characters; from 1000000 on
   * the padding no longer bounds the width and the number grows.
   */
  lemma InvoiceWidth(n: nat)
    ensures n <= 999999 ==> |FormatInvoice(n)| == 6
    ensures n > 999999 ==> |FormatInvoice(n)| > 6
  {
    assert Pow10(6) == 1000000;
    NatToStringWidth(n, 6);
  }

  /** Counter values ordered by issue time give invoice numbers ordered by decimal value. */
  lemma InvoiceMonotone(a: nat, b: nat)
    requires a < b
    ensures DigitsValue(FormatInvoice(a)) < DigitsValue(FormatInvoice(b))
  {
    InvoiceValue(a);
    InvoiceValue(b);
  }

  /**
   * The first number issued by an empty collection is "000001", and each
   * later one comes from a value exactly one higher.
   */
  method FirstTwoInvoices() returns (first: string, second: string)
    ensures first == "000001" && second == "000002"
  {
    var counters := new InvoiceCounters();
    var a := counters.IncrementAndGet(InvoiceCounter);
    var b := counters.IncrementAndGet(InvoiceCounter);
    first := FormatInvoice(a);
    second := FormatInvoice(b);
  }
}
