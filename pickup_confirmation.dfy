// Rules of the pickup-confirmation sheet: the waiting-time countdown, its
// "mm:ss" text, and the swipe that reports a no-show or a pickup.

module PickupConfirmation {
  import opened RideModel

  /** Seconds on the waiting clock when the sheet is first composed. */
  const WaitingStart: nat := 285

  // ---------------------------------------------------------------------------
  // Countdown

  /**
   * The countdown effect: while the sheet is visible, one tick per second takes one second off until
   * none is left. `shown` is every value the clock displays, the starting one first.
   */
  method RunWaitingCountdown(isVisible: bool, start: int) returns (timeRemaining: int, shown: seq<int>)
    ensures !isVisible ==> timeRemaining == start && shown == [start]
    ensures isVisible ==> timeRemaining == (if start > 0 then 0 else start)
    ensures isVisible ==> |shown| == (if start > 0 then start else 0) + 1
    ensures forall k :: 0 <= k < |shown| ==> shown[k] == start - k
    ensures start >= 0 ==> forall k :: 0 <= k < |shown| ==> shown[k] >= 0
    ensures shown[|shown| - 1] == timeRemaining
  {
    timeRemaining := start;
    shown := [start];
    if isVisible {
      while timeRemaining > 0
        invariant start > 0 ==> 0 <= timeRemaining <= start
        invariant start <= 0 ==> timeRemaining == start
        invariant |shown| == start - timeRemaining + 1
        invariant forall k :: 0 <= k < |shown| ==> shown[k] == start - k
      {
        timeRemaining := timeRemaining - 1;
        shown := shown + [timeRemaining];
      }
    }
  }

  // ---------------------------------------------------------------------------
  // "%02d:%02d" formatting

  function Digit(n: nat): char
    requires n < 10
  {
    "0123456789"[n]
  }

  function DigitValue(c: char): nat {
    if '0' <= c <= '9' then (c as int - '0' as int) as nat else 0
  }

  predicate IsDigit(c: char) {
    '0' <= c <= '9'
  }

  /** Decimal digits of `n`, most significant first, no leading zero. */
  function DecimalString(n: nat): string
    decreases n
  {
    if n < 10 then [Digit(n)] else DecimalString(n / 10) + [Digit(n % 10)]
  }

  /** `%02d`: at least two digits, zero-padded on the left. */
  function PadTwo(n: nat): string {
    if n < 10 then ['0', Digit(n)] else DecimalString(n)
  }

  /** Minutes and seconds of a number of seconds. */
  function SplitClock(timeRemaining: nat): (r: (nat, nat))
    ensures r.0 * 60 + r.1 == timeRemaining
    ensures r.1 < 60
  {
    (timeRemaining / 60, timeRemaining % 60)
  }

  function FormatWaitingTime(timeRemaining: nat): string {
    var (minutes, seconds) := SplitClock(timeRemaining);
    PadTwo(minutes) + ":" + PadTwo(seconds)
  }

  /** Reads back a five-character "mm:ss" text. */
  function ParseClock(s: string): Option<nat> {
    if |s| == 5 && IsDigit(s[0]) && IsDigit(s[1]) && s[2] == ':' && IsDigit(s[3]) && IsDigit(s[4]) then
      Some((10 * DigitValue(s[0]) + DigitValue(s[1])) * 60 + 10 * DigitValue(s[3]) + DigitValue(s[4]))
    else
      None
  }

  lemma {:induction false} PadTwoOfTwoDigits(n: nat)
    requires n < 100
    ensures |PadTwo(n)| == 2 && IsDigit(PadTwo(n)[0]) && IsDigit(PadTwo(n)[1])
    ensures 10 * DigitValue(PadTwo(n)[0]) + DigitValue(PadTwo(n)[1]) == n
  {
    if n >= 10 {
      assert DecimalString(n / 10) == [Digit(n / 10)];
      assert PadTwo(n) == [Digit(n / 10), Digit(n % 10)];
    }
  }

  /** Below 100 minutes the text is two digits, a colon and two digits, and it reads back as the same time. */
  lemma FormatRoundTrip(timeRemaining: nat)
    requires timeRemaining < 6000
    ensures |FormatWaitingTime(timeRemaining)| == 5 && FormatWaitingTime(timeRemaining)[2] == ':'
    ensures ParseClock(FormatWaitingTime(timeRemaining)) == Some(timeRemaining)
  {
    var (minutes, seconds) := SplitClock(timeRemaining);
    PadTwoOfTwoDigits(minutes);
    PadTwoOfTwoDigits(seconds);
    var s := FormatWaitingTime(timeRemaining);
    assert s == PadTwo(minutes) + ":" + PadTwo(seconds);
    assert s[0] == PadTwo(minutes)[0] && s[1] == PadTwo(minutes)[1];
    assert s[3] == PadTwo(seconds)[0] && s[4] == PadTwo(seconds)[1];
  }

  lemma FormatExamples()
    ensures FormatWaitingTime(WaitingStart) == "04:45"
    ensures FormatWaitingTime(0) == "00:00"
  {
    assert SplitClock(285) == (4, 45);
    assert DecimalString(4) == "4";
    assert PadTwo(45) == "45";
  }

  // ---------------------------------------------------------------------------
  // Swipe to report

  datatype SwipeOutcome = DidntShow | PickedUp | NoAction

  /** At drag end: past the threshold to the left reports a no-show, to the right a pickup; otherwise nothing. */
  function DragEndOutcome(dragOffset: real, swipeThreshold: real): SwipeOutcome {
    if (if dragOffset < 0.0 then -dragOffset else dragOffset) > swipeThreshold then
      (if dragOffset < 0.0 then DidntShow else PickedUp)
    else
      NoAction
  }

  /** With a non-negative threshold the three outcomes split the line of offsets into three intervals. */
  lemma DragEndDecision(dragOffset: real, swipeThreshold: real)
    requires swipeThreshold >= 0.0
    ensures DragEndOutcome(dragOffset, swipeThreshold) == DidntShow <==> dragOffset < -swipeThreshold
    ensures DragEndOutcome(dragOffset, swipeThreshold) == PickedUp <==> dragOffset > swipeThreshold
    ensures DragEndOutcome(dragOffset, swipeThreshold) == NoAction <==>
              -swipeThreshold <= dragOffset <= swipeThreshold
  {
  }

  class SwipeableActionArea {
    var dragOffset: real
    const swipeThreshold: real

    constructor (swipeThreshold: real)
      ensures dragOffset == 0.0 && this.swipeThreshold == swipeThreshold
    {
      dragOffset := 0.0;
      this.swipeThreshold := swipeThreshold;
    }

    /** Each drag event adds its horizontal amount to the offset. */
    method OnDrag(dragAmountX: real)
      modifies this
      ensures dragOffset == old(dragOffset) + dragAmountX
    {
      dragOffset := dragOffset + dragAmountX;
    }

    /** Decides on the accumulated offset, then starts the next gesture from zero. */
    method OnDragEnd() returns (outcome: SwipeOutcome)
      modifies this
      ensures outcome == DragEndOutcome(old(dragOffset), swipeThreshold)
      ensures dragOffset == 0.0
    {
      outcome := DragEndOutcome(dragOffset, swipeThreshold);
      dragOffset := 0.0;
    }
  }
}
