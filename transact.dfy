/**
 * The transaction page with its countdown, progress bar, fee lines and
 * role-dependent action buttons. Its actions are simulated: each one sets
 * the deal's status on the page, and a pending deal whose deadline has
 * passed is expired by the page's timer.
 */
module Transact {
  import opened Common
  import TransactionSummary
  import TransactionRoutes

  // ---------------------------------------------------------------- countdown

  /** `{ total, days, hours, minutes, seconds }`, all in whole units. */
  datatype TimeLeft = TimeLeft(total: int, days: int, hours: int, minutes: int, seconds: int)

  const Second := 1000
  const Minute := 60000
  const Hour := 3600000
  const Day := 86400000

  /** JavaScript's `%` on integers: the remainder takes the sign of the dividend. */
  function TruncRem(a: int, b: int): (r: int)
    requires b > 0
    ensures a >= 0 ==> 0 <= r < b && r == a % b
    ensures a < 0 ==> -b < r <= 0
  {
    if a >= 0 then a % b else -((-a) % b)
  }

  /**
   * `getTimeLeft`: the milliseconds until the deadline (`None` is a date
   * that does not parse, for which everything is 0) and their split into
   * days and the hours, minutes and seconds that remain. Each part is
   * `Math.floor` of the JavaScript remainder, so before the deadline the
   * parts are the usual clock readings.
   */
  function GetTimeLeft(deadline: Option<int>, now: int): (left: TimeLeft)
    ensures deadline.None? ==> left == TimeLeft(0, 0, 0, 0, 0)
    ensures deadline.Some? ==> left.total == deadline.value - now
    ensures left.total >= 0 ==>
      (&& left.days >= 0 && 0 <= left.hours < 24 && 0 <= left.minutes < 60 && 0 <= left.seconds < 60)
    ensures left.total < 0 ==>
      (&& left.days < 0 && -24 <= left.hours <= 0 && -60 <= left.minutes <= 0 && -60 <= left.seconds <= 0)
  {
    if deadline.None? then TimeLeft(0, 0, 0, 0, 0)
    else
      var t := deadline.value - now;
      TimeLeft(t, FloorDiv(t, Day), FloorDiv(TruncRem(t, Day), Hour),
               FloorDiv(TruncRem(t, Hour), Minute), FloorDiv(TruncRem(t, Minute), Second))
  }

  /**
   * Before the deadline the four parts add up to the time left, to within
   * the milliseconds below a second.
   */
  lemma TimeLeftAddsUp(deadline: int, now: int)
    requires deadline >= now
    ensures var left := GetTimeLeft(Some(deadline), now);
      var sum := left.days * Day + left.hours * Hour + left.minutes * Minute + left.seconds * Second;
      sum <= left.total < sum + Second
  {
    var t := deadline - now;
    var left := GetTimeLeft(Some(deadline), now);
    ModOfMod(t, 24, Hour);
    ModOfMod(t, 60, Minute);
    var r1, r2, r3 := t % Day, t % Hour, t % Minute;
    assert t == left.days * Day + r1;
    assert r1 == left.hours * Hour + r2;
    assert r2 == left.minutes * Minute + r3;
    assert left.seconds * Second <= r3 < left.seconds * Second + Second;
  }

  // ---------------------------------------------------------------- status and actions

  const PendingPayment := "PENDING_PAYMENT"
  const Funded := "FUNDED"
  const Delivered := "DELIVERED"
  const Completed := "COMPLETED"
  const Cancelled := "CANCELLED"
  const Expired := "EXPIRED"

  /** The way a deal goes when nothing goes wrong. */
  const Lifecycle: seq<string> := [PendingPayment, Funded, Delivered, Completed]

  /** The statuses for which the page says that no actions are available. */
  predicate Closed(status: string)
  {
    status == Completed || status == Cancelled || status == Expired
  }

  /**
   * `percentMap[status] ?? 0`: the progress bar's width. It grows along
   * the lifecycle, and a closed deal other than a completed one shows none.
   */
  function Percent(status: string): (p: nat)
    ensures p <= 100 && (p == 100 <==> status == Completed)
    ensures status !in Lifecycle ==> p == 0
  {
    if status == PendingPayment then 10
    else if status == Funded then 45
    else if status == Delivered then 75
    else if status == Completed then 100
    else 0
  }

  /** Along the lifecycle the bar only grows. */
  lemma PercentGrowsAlongLifecycle(i: int, j: int)
    requires 0 <= i < j < |Lifecycle|
    ensures Percent(Lifecycle[i]) < Percent(Lifecycle[j])
  {
  }

  /** The four confirmations the modal can ask for. */
  datatype Action = Fund | Cancel | Deliver | Confirm

  /** The status each action sets. */
  function ActionStatus(a: Action): (status: string)
    ensures status != PendingPayment
    ensures a != Cancel ==> status in Lifecycle[1..]
  {
    match a
    case Fund => Funded
    case Deliver => Delivered
    case Confirm => Completed
    case Cancel => Cancelled
  }

  /**
   * The buttons on show: the buyer funds or cancels a pending deal and
   * confirms a delivered one, the seller marks a funded deal delivered.
   * An administrator, and anybody on a closed deal, sees none.
   */
  function Visible(status: string, role: string): (v: set<Action>)
    ensures role != "buyer" && role != "seller" ==> v == {}
    ensures Closed(status) ==> v == {}
    ensures v != {} ==> status == PendingPayment || status == Funded || status == Delivered
    ensures role == "buyer" ==> Deliver !in v
    ensures role == "seller" ==> v <= {Deliver}
  {
    if status == PendingPayment && role == "buyer" then {Fund, Cancel}
    else if status == Funded && role == "seller" then {Deliver}
    else if status == Delivered && role == "buyer" then {Confirm}
    else {}
  }

  /**
   * An action taken from a button on show moves the deal one step along
   * the lifecycle, and the progress bar with it; a cancel ends a pending
   * deal and empties the bar.
   */
  lemma VisibleActionsAdvance(status: string, role: string, a: Action)
    requires a in Visible(status, role)
    ensures a == Cancel ==> status == PendingPayment && Percent(ActionStatus(a)) == 0
    ensures a != Cancel ==>
      exists i :: 0 <= i < 3 && status == Lifecycle[i] && ActionStatus(a) == Lifecycle[i + 1]
    ensures a != Cancel ==> Percent(ActionStatus(a)) > Percent(status)
  {
    if a == Fund {
      assert status == Lifecycle[0] && ActionStatus(a) == Lifecycle[1];
    } else if a == Deliver {
      assert status == Lifecycle[1] && ActionStatus(a) == Lifecycle[2];
    } else if a == Confirm {
      assert status == Lifecycle[2] && ActionStatus(a) == Lifecycle[3];
    }
  }

  // ---------------------------------------------------------------- fees

  /** `Math.round(x)`: the nearest integer, halves rounded up. */
  function Round(x: real): (n: int)
    ensures x - 0.5 < n as real <= x + 0.5
  {
    (x + 0.5).Floor
  }

  /** `escrowFeePct || 0.025`: a missing or zero rate means 2.5%. */
  function EffectiveRate(escrowFeePct: Option<real>): (pct: real)
    ensures pct != 0.0
    ensures escrowFeePct.Some? && escrowFeePct.value != 0.0 ==> pct == escrowFeePct.value
  {
    if escrowFeePct.None? || escrowFeePct.value == 0.0 then 0.025 else escrowFeePct.value
  }

  /** `calcEscrowFee`: the price times the rate, rounded. */
  function CalcEscrowFee(price: int, pct: real): (fee: int)
    ensures price as real * pct - 0.5 < fee as real <= price as real * pct + 0.5
  {
    Round(price as real * pct)
  }

  /** `totalAmount`: the price and the fee. */
  function TotalAmount(price: int, pct: real): (total: int)
    ensures total - price == CalcEscrowFee(price, pct)
    ensures pct >= 0.0 && price >= 0 ==> total >= price
  {
    price + CalcEscrowFee(price, pct)
  }

  /** The floor of an integer quotient taken as a real is the integer quotient. */
  lemma RealQuotientFloor(a: int, b: int)
    requires b > 0
    ensures (a as real / b as real).Floor == a / b
  {
    var q, r := a / b, a % b;
    assert a as real / b as real == q as real + r as real / b as real;
    assert 0.0 <= r as real / b as real < 1.0;
  }

  /** At the default rate the fee is a fortieth of the price, rounded as the other pages round. */
  lemma DefaultFeeIsOneFortieth(price: int)
    ensures CalcEscrowFee(price, EffectiveRate(None)) == RoundDiv(price, 40)
  {
    assert price as real * 0.025 + 0.5 == (2 * price + 40) as real / 80.0;
    RealQuotientFloor(2 * price + 40, 80);
  }

  /**
   * The three pages charge three different rates: 2.5% here, 0.5% on the
   * deal summary, 0.25% on the server, and the fees come out in that
   * order for every price.
   */
  lemma FeesOfThePagesOrdered(price: nat)
    ensures CalcEscrowFee(price, EffectiveRate(None)) >= TransactionSummary.EscrowFee(price)
    ensures TransactionSummary.EscrowFee(price) >= TransactionRoutes.ServerEscrowFee(price)
    ensures price >= 200 ==> CalcEscrowFee(price, EffectiveRate(None)) > TransactionSummary.EscrowFee(price)
  {
    DefaultFeeIsOneFortieth(price);
  }

  // ---------------------------------------------------------------- the page

  /** The page's state once a transaction is loaded; the deadline and the rate are the loaded deal's. */
  class Page {
    const deadline: Option<int>
    var status: string
    var role: string
    var modal: Option<Action>
    var timeLeft: Option<TimeLeft>

    constructor (deadline: Option<int>, status: string)
      ensures this.deadline == deadline && this.status == status
      ensures role == "buyer" && modal == None && timeLeft == None
    {
      this.deadline := deadline;
      this.status := status;
      role := "buyer";
      modal := None;
      timeLeft := None;
    }

    /** The "View as" select. */
    method SelectRole(r: string)
      modifies this
      ensures role == r && status == old(status) && modal == old(modal) && timeLeft == old(timeLeft)
    {
      role := r;
    }

    /**
     * `updateTimer`, run each second: the countdown is refreshed, and a
     * pending deal whose time is up, or whose deadline does not parse,
     * expires. No other status is ever changed by the timer.
     */
    method Tick(now: int)
      modifies this
      ensures timeLeft == Some(GetTimeLeft(deadline, now))
      ensures old(status) == PendingPayment && (deadline.None? || deadline.value <= now) ==> status == Expired
      ensures !(old(status) == PendingPayment && (deadline.None? || deadline.value <= now)) ==> status == old(status)
      ensures role == old(role) && modal == old(modal)
    {
      var left := GetTimeLeft(deadline, now);
      timeLeft := Some(left);
      if left.total <= 0 && status == PendingPayment {
        status := Expired;
      }
    }

    /** A button on show opens its confirmation. */
    method Open(a: Action)
      requires a in Visible(status, role)
      modifies this
      ensures modal == Some(a) && status == old(status) && role == old(role) && timeLeft == old(timeLeft)
    {
      modal := Some(a);
    }

    /** "Close", or a click beside the dialog. */
    method Close()
      modifies this
      ensures modal == None && status == old(status) && role == old(role) && timeLeft == old(timeLeft)
    {
      modal := None;
    }

    /**
     * The dialog's confirm button (`performAction`): the action's status is
     * set whatever the status is by then. A deal that expired while its
     * dialog was open is therefore funded, delivered or cancelled all the
     * same.
     */
    method ConfirmAction()
      requires modal.Some?
      modifies this
      ensures status == ActionStatus(old(modal).value)
      ensures modal == None && role == old(role) && timeLeft == old(timeLeft)
    {
      status := ActionStatus(modal.value);
      modal := None;
    }
  }
}
