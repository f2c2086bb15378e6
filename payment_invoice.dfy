/**
 * The invoice page's M-Pesa payment: the Safaricom number check and
 * formatter, the amount charged, and the client state machine around the
 * STK push (`idle`, `pending`, `failed`, `success`).
 */
module PaymentInvoice {
  import opened Common
  import opened FormChecks

  // ---------------------------------------------------------------- phone

  /** `7` or `1` followed by eight digits: the part after the prefix. */
  predicate Subscriber(s: string)
  {
    |s| == 9 && (s[0] == '7' || s[0] == '1') && AllDigits(s[1..])
  }

  /** `^(254|0)(7[0-9]{8}|1[0-9]{8})$`. */
  predicate MpesaPattern(s: string)
  {
    (StartsWith(s, "254") && Subscriber(s[3..])) || (StartsWith(s, "0") && Subscriber(s[1..]))
  }

  /** `validateMpesaPhone`: the pattern, once white space is removed. */
  predicate ValidMpesaPhone(phone: string)
  {
    MpesaPattern(StripSpaces(phone))
  }

  /** `formatPhoneNumber`: white space removed, and a leading `0` replaced by `254`. */
  function FormatPhone(phone: string): (r: string)
    ensures var c := StripSpaces(phone); (StartsWith(c, "0") ==> r == "254" + c[1..]) && (!StartsWith(c, "0") ==> r == c)
  {
    var cleaned := StripSpaces(phone);
    if StartsWith(cleaned, "0") then "254" + cleaned[1..] else cleaned
  }

  /**
   * A number that passes the check is sent as `254`, then 7 or 1, then
   * eight digits: with a `+` in front it is the international form the
   * other pages accept.
   */
  lemma ValidNumbersFormatInternational(phone: string)
    requires ValidMpesaPhone(phone)
    ensures |FormatPhone(phone)| == 12 && StartsWith(FormatPhone(phone), "254") && Subscriber(FormatPhone(phone)[3..])
    ensures KenyanPhone("+" + FormatPhone(phone))
  {
    var c := StripSpaces(phone);
    var r := FormatPhone(phone);
    assert StartsWith(c, "254") ==> c[0] == c[..3][0] == '2';
    assert StartsWith(c, "0") ==> c[0] == c[..1][0] == '0';
    if StartsWith(c, "0") {
      assert r == "254" + c[1..];
      assert r[..3] == "254" && r[3..] == c[1..];
    } else {
      assert r == c;
    }
    var k := "+" + r;
    assert k[..4] == "+" + r[..3];
    assert k[5..] == r[3..][1..];
  }

  /** Formatting a formatted valid number changes nothing. */
  lemma FormatIdempotentOnValid(phone: string)
    requires ValidMpesaPhone(phone)
    ensures FormatPhone(FormatPhone(phone)) == FormatPhone(phone)
  {
    ValidNumbersFormatInternational(phone);
    var r := FormatPhone(phone);
    assert NoSpace(r) by {
      forall i | 0 <= i < |r|
        ensures !IsSpace(r[i])
      {
        if i >= 4 {
          assert r[i] == r[3..][1..][i - 4];
        }
      }
    }
    assert r[..1] == "2";
  }

  /** A number typed as `254…` without spaces, like the page's initial one, is accepted and sent as typed. */
  lemma InternationalNumberSentAsTyped(s: string)
    requires StartsWith(s, "254") && Subscriber(s[3..])
    ensures ValidMpesaPhone(s) && FormatPhone(s) == s
  {
    assert NoSpace(s) by {
      forall i | 0 <= i < |s|
        ensures !IsSpace(s[i])
      {
        if i < 3 {
          assert s[i] == s[..3][i];
        } else if i > 3 {
          assert s[i] == s[3..][1..][i - 4];
        }
      }
    }
    assert s[..1] == s[..3][..1];
  }

  // ---------------------------------------------------------------- amounts

  /** `amount + escrowFee + amount * 0.00`: the invoice total, which is also the amount pushed. */
  function Total(amount: int, escrowFee: int): (t: int)
    ensures t - escrowFee == amount
  {
    amount + escrowFee + amount * 0
  }

  /** `amount + escrowFee + amount * 0.16`: the "Balance" line, with 16% on top. */
  function Balance(amount: int, escrowFee: int): real
  {
    (amount + escrowFee) as real + amount as real * 0.16
  }

  /** The Balance line exceeds the charged total by 16% of the amount whenever the amount is positive. */
  lemma BalanceDiffersFromTotal(amount: int, escrowFee: int)
    ensures Balance(amount, escrowFee) - Total(amount, escrowFee) as real == amount as real * 0.16
    ensures amount > 0 ==> Balance(amount, escrowFee) > Total(amount, escrowFee) as real
  {
  }

  // ---------------------------------------------------------------- STK push

  datatype StkStatus = Idle | Pending | Failed | Success

  /** A checkout id the page can query with: present and not empty. */
  predicate HasCheckout(id: Option<string>)
  {
    id.Some? && id.value != ""
  }

  /** The reply to the push request: accepted with a checkout id, declined, or a network error. */
  datatype PushReply = PushAccepted(checkoutRequestId: string) | PushDeclined | PushError

  /** The reply to the status query: its `success` and `status` fields, or a network error. */
  datatype QueryReply = QueryAnswer(success: bool, status: string) | QueryError

  /** The request the push sends. */
  datatype StkRequest = StkRequest(phone: string, amount: int, transactionId: string)

  /** The buttons on show in each state. */
  datatype Control = SendPush | CompletePayment | ResendPrompt | TryAgain

  function Controls(s: StkStatus): (c: set<Control>)
    ensures CompletePayment in c <==> s == Pending
    ensures s == Success ==> c == {}
  {
    match s
    case Idle => {SendPush}
    case Pending => {CompletePayment, ResendPrompt}
    case Failed => {TryAgain}
    case Success => {}
  }

  const ChangeMessage := "Please enter a valid Kenyan Safaricom phone number (e.g., 254712345678 or 0712345678)"
  const SendMessage := "Please enter a valid Kenyan Safaricom phone number"

  /** The payment part of the page, for one loaded transaction. */
  class Payment {
    const amount: int
    const escrowFee: int
    const transactionId: string
    var mpesaPhone: string
    var phoneError: string
    var stkStatus: StkStatus
    var checkoutRequestId: Option<string>
    var isVerifying: bool

    /** Only a push that went through leaves an id; a paid invoice always has one, an idle page never. */
    ghost predicate Valid()
      reads this
    {
      && (stkStatus == Idle ==> checkoutRequestId == None)
      && (stkStatus == Success ==> checkoutRequestId.Some?)
      && !isVerifying
    }

    constructor (amount: int, escrowFee: int, transactionId: string)
      ensures Valid()
      ensures this.amount == amount && this.escrowFee == escrowFee && this.transactionId == transactionId
      ensures mpesaPhone == "254723881433" && phoneError == "" && stkStatus == Idle
    {
      this.amount := amount;
      this.escrowFee := escrowFee;
      this.transactionId := transactionId;
      mpesaPhone := "254723881433";
      phoneError := "";
      stkStatus := Idle;
      checkoutRequestId := None;
      isVerifying := false;
    }

    /** `handlePhoneChange`: the number is stored and a message shown for a non-empty invalid one. */
    method PhoneChange(value: string)
      requires Valid()
      modifies this
      ensures Valid()
      ensures mpesaPhone == value
      ensures phoneError == if value != "" && !ValidMpesaPhone(value) then ChangeMessage else ""
      ensures stkStatus == old(stkStatus) && checkoutRequestId == old(checkoutRequestId)
    {
      mpesaPhone := value;
      if value != "" && !ValidMpesaPhone(value) {
        phoneError := ChangeMessage;
      } else {
        phoneError := "";
      }
    }

    /**
     * `handleSendStkPush`: an invalid number only sets the message;
     * otherwise the page waits (`pending`) with the formatted number and
     * the invoice total sent, and a declined push or an error fails it.
     */
    method SendStkPush(reply: PushReply) returns (sent: Option<StkRequest>)
      requires Valid()
      modifies this
      ensures Valid()
      ensures !ValidMpesaPhone(mpesaPhone) ==>
        (&& sent == None && phoneError == SendMessage
         && stkStatus == old(stkStatus) && checkoutRequestId == old(checkoutRequestId))
      ensures ValidMpesaPhone(mpesaPhone) ==>
        (&& sent == Some(StkRequest(FormatPhone(mpesaPhone), Total(amount, escrowFee), transactionId))
         && phoneError == ""
         && (reply.PushAccepted? ==> stkStatus == Pending && checkoutRequestId == Some(reply.checkoutRequestId))
         && (!reply.PushAccepted? ==> stkStatus == Failed && checkoutRequestId == old(checkoutRequestId)))
      ensures mpesaPhone == old(mpesaPhone)
    {
      if !ValidMpesaPhone(mpesaPhone) {
        phoneError := SendMessage;
        return None;
      }
      stkStatus := Pending;
      phoneError := "";
      sent := Some(StkRequest(FormatPhone(mpesaPhone), Total(amount, escrowFee), transactionId));
      if reply.PushAccepted? {
        checkoutRequestId := Some(reply.checkoutRequestId);
      } else {
        stkStatus := Failed;
      }
    }

    /**
     * `handleCompleteTransaction`: without a checkout id, or with an empty
     * one (`!checkoutRequestId` holds for `""`), nothing happens;
     * otherwise the payment is marked paid only on a successful query whose
     * status is `success`, and any other answer leaves the state as it was.
     */
    method CompleteTransaction(reply: QueryReply)
      requires Valid()
      modifies this
      ensures Valid()
      ensures checkoutRequestId == old(checkoutRequestId) && mpesaPhone == old(mpesaPhone) && phoneError == old(phoneError)
      ensures HasCheckout(old(checkoutRequestId)) && reply == QueryAnswer(true, "success") ==> stkStatus == Success
      ensures !(HasCheckout(old(checkoutRequestId)) && reply == QueryAnswer(true, "success")) ==> stkStatus == old(stkStatus)
    {
      if !HasCheckout(checkoutRequestId) {
        return;
      }
      isVerifying := true;
      if reply.QueryAnswer? && reply.success && reply.status == "success" {
        stkStatus := Success;
      }
      isVerifying := false;
    }

    /** "Try Again": back to `idle`, with the checkout id forgotten. */
    method TryAgain()
      requires Valid()
      modifies this
      ensures Valid()
      ensures stkStatus == Idle && checkoutRequestId == None
      ensures mpesaPhone == old(mpesaPhone) && phoneError == old(phoneError)
    {
      stkStatus := Idle;
      checkoutRequestId := None;
    }
  }
}
