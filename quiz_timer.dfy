/**
 * The quiz countdown of the student dashboard: the HH:MM:SS text the timer element shows, and the
 * once-a-second tick that decrements the remaining time and submits the quiz when it runs out.
 */
module QuizTimer {
  import opened Records
  import opened Text

  /** JavaScript's `%` for a positive divisor: the remainder takes the sign of the dividend. */
  function JsRem(a: int, b: int): (r: int)
    requires b > 0
    ensures a >= 0 ==> r == a % b
    ensures a < 0 ==> -b < r <= 0
  {
    if a >= 0 then a % b else -((-a) % b)
  }

  /** One clock field: `n.toString().padStart(2, '0')`. */
  function Field(n: int): string {
    PadStart2(IntToString(n))
  }

  /** The timer text for `t` seconds left: hours, minutes and seconds, each padded to two places. */
  function FormatClock(t: int): string {
    var hours := t / 3600;            // Math.floor: Dafny's `/` floors for a positive divisor
    var minutes := JsRem(t, 3600) / 60;
    var seconds := JsRem(t, 60);
    Field(hours) + ":" + Field(minutes) + ":" + Field(seconds)
  }

  /** The three fields recombine to `t`, and minutes and seconds are below 60. */
  lemma ClockFields(t: nat)
    ensures var h, m, s := t / 3600, JsRem(t, 3600) / 60, JsRem(t, 60);
      && 3600 * h + 60 * m + s == t
      && 0 <= m < 60 && 0 <= s < 60 && h >= 0
  {
    var h, r := t / 3600, t % 3600;
    var m, s := r / 60, r % 60;
    assert JsRem(t, 3600) == r && JsRem(t, 60) == t % 60;
    assert t == 60 * (60 * h + m) + s;
    assert t % 60 == s;
  }

  /** Reads back a timer text: three colon-separated decimal fields. */
  function ParseClock(s: string): Option<nat> {
    ClockValue(Split(s, ':'))
  }

  /** Hours, minutes and seconds fields to seconds. */
  function ClockValue(parts: seq<string>): Option<nat> {
    if |parts| == 3 && AllDigits(parts[0]) && AllDigits(parts[1]) && AllDigits(parts[2]) then
      Some(3600 * DigitsValue(parts[0]) + 60 * DigitsValue(parts[1]) + DigitsValue(parts[2]))
    else None
  }

  lemma FieldValue(n: nat)
    ensures AllDigits(Field(n)) && DigitsValue(Field(n)) == n
  {
    var d := NatToString(n);
    NatToStringRoundTrip(n);
    if |d| == 1 {
      LeadingZero(d);
    }
  }

  /** Three digit fields joined by colons split back into those fields. */
  lemma SplitFields(a: string, b: string, c: string)
    requires AllDigits(a) && AllDigits(b) && AllDigits(c)
    ensures Split(a + ":" + b + ":" + c, ':') == [a, b, c]
  {
    assert a + ":" + b + ":" + c == a + [':'] + (b + [':'] + c);
    SplitAfter(a, ':', b + [':'] + c);
    SplitAfter(b, ':', c);
    SplitNone(c, ':');
  }

  /** A text that splits into three digit fields reads back as hours, minutes and seconds. */
  lemma ParseFields(s: string, a: string, b: string, c: string)
    requires AllDigits(a) && AllDigits(b) && AllDigits(c) && Split(s, ':') == [a, b, c]
    ensures ParseClock(s) == Some(3600 * DigitsValue(a) + 60 * DigitsValue(b) + DigitsValue(c))
  {
    var parts := [a, b, c];
    assert parts[0] == a && parts[1] == b && parts[2] == c;
    assert ClockValue(parts) == Some(3600 * DigitsValue(a) + 60 * DigitsValue(b) + DigitsValue(c));
  }

  /** Three digit fields joined by colons read back as hours, minutes and seconds. */
  lemma ParseJoined(a: string, b: string, c: string)
    requires AllDigits(a) && AllDigits(b) && AllDigits(c)
    ensures ParseClock(a + ":" + b + ":" + c) == Some(3600 * DigitsValue(a) + 60 * DigitsValue(b) + DigitsValue(c))
  {
    SplitFields(a, b, c);
    ParseFields(a + ":" + b + ":" + c, a, b, c);
  }

  /** Fields recombining to `t` read back as `t`. */
  lemma FieldsRoundTrip(t: nat, h: nat, m: nat, s: nat)
    requires 3600 * h + 60 * m + s == t
    ensures ParseClock(Field(h) + ":" + Field(m) + ":" + Field(s)) == Some(t)
  {
    FieldValue(h);
    FieldValue(m);
    FieldValue(s);
    ParseJoined(Field(h), Field(m), Field(s));
  }

  /** The text shown for any non-negative time reads back as that time. */
  lemma ClockRoundTrip(t: nat)
    ensures ParseClock(FormatClock(t)) == Some(t)
  {
    ClockFields(t);
    FieldsRoundTrip(t, t / 3600, JsRem(t, 3600) / 60, JsRem(t, 60));
  }

  /** The seconds-left values the timer shows from `t` until it submits: `t`, `t - 1`, ..., `0`. */
  function Countdown(t: int): (shown: seq<int>)
    ensures |shown| >= 1 && shown[0] == t
    decreases if t > 0 then t else 0
  {
    if t <= 0 then [t] else [t] + Countdown(t - 1)
  }

  /** From `d` seconds the timer shows `d + 1` values, one per second left, ending at zero. */
  lemma {:induction false} CountdownShape(d: nat)
    ensures |Countdown(d)| == d + 1
    ensures forall i :: 0 <= i <= d ==> Countdown(d)[i] == d - i
  {
    if d > 0 {
      CountdownShape(d - 1);
      assert forall i :: 1 <= i <= d ==> Countdown(d)[i] == Countdown(d - 1)[i - 1];
    }
  }

  /** The last text of every full countdown. */
  lemma ZeroClock()
    ensures FormatClock(0) == "00:00:00"
  {
    assert NatToString(0) == "0";
    assert Field(0) == "00";
    assert JsRem(0, 3600) / 60 == 0 && JsRem(0, 60) == 0 && 0 / 3600 == 0;
  }

  /** One started quiz: the remaining seconds, what the timer element showed, and the submissions made. */
  class Timer {
    var timeLeft: int
    /** Whether the interval is still scheduled. */
    var running: bool
    /** The seconds-left value of every display so far; the element's text for a value `v` is `FormatClock(v)`. */
    var shown: seq<int>
    var submissions: nat

    /** `startQuizTimer`: the countdown starts at the quiz duration in seconds. */
    constructor Start(durationMinutes: int)
      ensures timeLeft == durationMinutes * 60 && running && shown == [] && submissions == 0
    {
      timeLeft := durationMinutes * 60;
      running := true;
      shown := [];
      submissions := 0;
    }

    /** The element's text after every display so far. */
    function Texts(): (ts: seq<string>)
      reads this
      ensures |ts| == |shown| && forall i :: 0 <= i < |shown| ==> ts[i] == FormatClock(shown[i])
    {
      seq(|shown|, i requires 0 <= i < |shown| reads this => FormatClock(shown[i]))
    }

    /** `submitQuiz`: clears the interval and sends the answers. */
    method Submit()
      modifies this
      ensures !running && submissions == old(submissions) + 1
      ensures timeLeft == old(timeLeft) && shown == old(shown)
    {
      running := false;
      submissions := submissions + 1;
    }

    /** One firing of the interval: show the time, submit when it is up, then count down. */
    method Tick()
      requires running
      modifies this
      ensures shown == old(shown) + [old(timeLeft)]
      ensures timeLeft == old(timeLeft) - 1
      ensures running <==> old(timeLeft) > 0
      ensures submissions == old(submissions) + (if old(timeLeft) <= 0 then 1 else 0)
    {
      shown := shown + [timeLeft];
      if timeLeft <= 0 {
        Submit();
      }
      timeLeft := timeLeft - 1;
    }

    /** The interval firing until it clears itself: the whole countdown shown and exactly one submission. */
    method RunOut()
      requires running
      modifies this
      ensures !running
      ensures shown == old(shown) + Countdown(old(timeLeft))
      ensures submissions == old(submissions) + 1
    {
      while running
        invariant running ==> old(shown) + Countdown(old(timeLeft)) == shown + Countdown(timeLeft)
        invariant !running ==> shown == old(shown) + Countdown(old(timeLeft))
        invariant submissions == old(submissions) + (if running then 0 else 1)
        decreases (if running then 1 else 0) + (if timeLeft > 0 then timeLeft else 0)
      {
        ghost var before := shown;
        ghost var t := timeLeft;
        Tick();
        if t > 0 {
          assert Countdown(t) == [t] + Countdown(t - 1);
          assert before + Countdown(t) == shown + Countdown(timeLeft);
        }
      }
    }
  }
}
