/**
 * The buyer's inspection page: the time left until the inspection period
 * ends, counted down once a minute, and the accept / dispute buttons meant
 * to appear when it reaches zero.
 */
module InspectionPeriod {
  import opened Common

  const MinuteMs: nat := 60000
  const HourMs: nat := 3600000
  const DayMs: nat := 86400000

  /** The default period when the transaction has no end date: three days. */
  const DefaultPeriodMs: nat := 3 * DayMs

  /** `inspectionPeriodEnd` as read from the transaction. */
  datatype EndField = Missing | At(time: int) | Unparsable

  /** The `timeRemaining` state: `null` before loading, a millisecond count, or NaN from an unparsable date. */
  datatype Remaining = Unset | Ms(ms: nat) | NotANumber

  /** `Math.max(0, end - now)`, the end defaulting to three days from now. */
  function RemainingAt(end: EndField, now: int): (r: Remaining)
    ensures end.Missing? ==> r == Ms(DefaultPeriodMs)
    ensures end.At? ==> r.Ms? && (r.ms == 0 <==> end.time <= now) && (end.time > now ==> r.ms == end.time - now)
    ensures end.Unparsable? <==> r.NotANumber?
  {
    match end
    case Missing => Ms(DefaultPeriodMs)
    case At(t) => Ms(if t - now > 0 then t - now else 0)
    case Unparsable => NotANumber
  }

  /** One minute tick: `Math.max(0, prev - 60000)`, where `null - 60000` is negative. */
  function Tick(prev: Remaining): (r: Remaining)
    ensures prev.Ms? ==> r.Ms? && r.ms <= prev.ms && (prev.ms >= MinuteMs ==> r.ms == prev.ms - MinuteMs)
    ensures prev.Ms? && prev.ms < MinuteMs ==> r == Ms(0)
    ensures prev.Unset? ==> r == Ms(0)
    ensures prev.NotANumber? ==> r.NotANumber?
  {
    match prev
    case Unset => Ms(0)
    case Ms(m) => Ms(if m >= MinuteMs then m - MinuteMs else 0)
    case NotANumber => NotANumber
  }

  /** `remaining <= 0`: false for NaN. */
  predicate Expired(r: Remaining)
  {
    r.Ms? && r.ms == 0
  }

  /** An axios reply: the body and the HTTP status, among other fields; no `ok` and no `json`. */
  datatype AxiosReply = AxiosReply(data: JVal, status: int)

  /** A property of an axios reply; a name it does not have reads as `undefined`. */
  function Property(r: AxiosReply, name: string): (v: JVal)
    ensures name != "data" && name != "status" ==> v == Undefined
  {
    if name == "data" then r.data else if name == "status" then JNum(r.status) else Undefined
  }

  /**
   * The page state; `loaded` is `transaction !== null`. The fetch reads
   * `response.ok` from an axios reply, which has no such property, so the
   * transaction is never set and the page stays on "Loading...": the
   * invariant records that, and the accept and dispute buttons never show.
   */
  class Page {
    var loaded: bool
    var timeRemaining: Remaining
    var canAccept: bool

    ghost predicate Valid()
      reads this
    {
      canAccept == Expired(timeRemaining) && !loaded
    }

    constructor ()
      ensures Valid() && !loaded && timeRemaining == Unset && !canAccept
      ensures !ActionsShown()
    {
      loaded := false;
      timeRemaining := Unset;
      canAccept := false;
    }

    /**
     * The fetch effect. `None` is a request that threw, which is only
     * logged. A reply's `ok` is `undefined`, so the branch that would call
     * `response.json()` (which an axios reply lacks too) and set the
     * transaction and the countdown from `RemainingAt` is never taken.
     */
    method Load(reply: Option<AxiosReply>)
      requires Valid()
      ensures Valid() && !ActionsShown()
      ensures reply.Some? ==> !Truthy(Property(reply.value, "ok"))
    {
      if reply.Some? && Truthy(Property(reply.value, "ok")) {
        assert false;
      }
    }

    /** The interval callback, run once a minute. */
    method MinuteTick()
      requires Valid()
      modifies this
      ensures Valid() && !ActionsShown()
      ensures timeRemaining == Tick(old(timeRemaining)) && canAccept == Expired(timeRemaining) && loaded == old(loaded)
    {
      var newTime := Tick(timeRemaining);
      canAccept := Expired(newTime);
      timeRemaining := newTime;
    }

    /** The accept and dispute buttons are rendered only for a loaded transaction whose period is over. */
    predicate ActionsShown()
      reads this
    {
      loaded && canAccept
    }
  }

  /** `n` ticks in a row. */
  function TickN(r: Remaining, n: nat): Remaining
  {
    if n == 0 then r else Tick(TickN(r, n - 1))
  }

  /** The countdown never goes up, and once at zero it stays there. */
  lemma {:induction false} TicksNeverIncrease(r: Remaining, n: nat)
    requires r.Ms?
    ensures TickN(r, n).Ms? && TickN(r, n).ms <= r.ms
    ensures Expired(r) ==> Expired(TickN(r, n))
  {
    if n > 0 {
      TicksNeverIncrease(r, n - 1);
    }
  }

  /**
   * Enough ticks always end the period: after `ceil(ms / 60000)` minutes
   * `canAccept` holds, though the unloaded page still shows no buttons.
   */
  lemma {:induction false} TicksReachZero(r: Remaining, n: nat)
    requires r.Ms? && n * MinuteMs >= r.ms
    ensures Expired(TickN(r, n))
    decreases n
  {
    if n > 0 {
      TicksReachZero(Tick(r), n - 1);
      TickNShift(r, n);
    } else {
      assert r.ms == 0;
    }
  }

  lemma {:induction false} TickNShift(r: Remaining, n: nat)
    requires n > 0
    ensures TickN(r, n) == TickN(Tick(r), n - 1)
  {
    if n > 1 {
      TickNShift(r, n - 1);
    }
  }

  /** An unparsable end date leaves the period open forever. */
  lemma {:induction false} UnparsableNeverExpires(n: nat)
    ensures !Expired(TickN(RemainingAt(Unparsable, 0), n))
    ensures TickN(NotANumber, n) == NotANumber
  {
    if n > 0 {
      UnparsableNeverExpires(n - 1);
    }
  }

  /** `formatTime`: whole days, then hours and minutes of the rest, by floor division. */
  function FormatTime(ms: nat): (r: (nat, nat, nat))
    ensures r.1 < 24 && r.2 < 60
    ensures r.0 * DayMs + r.1 * HourMs + r.2 * MinuteMs <= ms < r.0 * DayMs + r.1 * HourMs + r.2 * MinuteMs + MinuteMs
  {
    FormatTimeAddsUp(ms);
    (ms / DayMs, (ms % DayMs) / HourMs, (ms % HourMs) / MinuteMs)
  }

  /** Days, hours of the rest and minutes of the rest add up to the time, to within a minute. */
  lemma FormatTimeAddsUp(ms: nat)
    ensures (ms % DayMs) / HourMs < 24 && (ms % HourMs) / MinuteMs < 60
    ensures var low := ms / DayMs * DayMs + (ms % DayMs) / HourMs * HourMs + (ms % HourMs) / MinuteMs * MinuteMs;
      low <= ms < low + MinuteMs
  {
    ModOfMod(ms, 24, HourMs);
    ModOfMod(ms, 60, MinuteMs);
    var d, r1 := ms / DayMs, ms % DayMs;
    var h, r2 := r1 / HourMs, ms % HourMs;
    var m, r3 := r2 / MinuteMs, ms % MinuteMs;
    assert ms == d * DayMs + r1;
    assert r1 == h * HourMs + r2;
    assert r2 == m * MinuteMs + r3;
  }

  /** The notices the accept button can show. */
  datatype AcceptNotice = Accepted | AcceptFailed | AcceptError

  /**
   * `handleAcceptAsset`: `None` is a request that threw, `Some(v)` a reply
   * whose `ok` property is `v`. Only a truthy `ok` accepts, and leads on
   * to the completion page. An axios reply has no `ok` property, so a
   * request that succeeds still shows the failure notice.
   */
  function AcceptAsset(reply: Option<JVal>): (n: AcceptNotice)
    ensures n == Accepted <==> reply.Some? && Truthy(reply.value)
    ensures n == AcceptError <==> reply.None?
    ensures reply == Some(Undefined) ==> n == AcceptFailed
  {
    match reply
    case None => AcceptError
    case Some(ok) => if Truthy(ok) then Accepted else AcceptFailed
  }
}
