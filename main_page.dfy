/**
 * The logic of app/page.tsx: the meditation timer and its clock display, the
 * overall score badge and the branch selection of the detailed recommendations.
 */
module MainPage {
  import opened Common
  import opened Biorhythm
  import PersonCard

  /** The timer's full length, ten minutes in seconds. */
  const Duration: int := 600

  // ---------------------------------------------------------------------------
  // `formatTime`

  function Digit(n: int): (c: char)
    requires 0 <= n < 10
    ensures '0' <= c <= '9' && DigitValue(c) == n
  {
    ('0' as int + n) as char
  }

  function DigitValue(c: char): int
  {
    c as int - '0' as int
  }

  /** `n.toString()` for a non-negative integer. */
  function NatToString(n: nat): (s: string)
    ensures |s| >= 1
    ensures n < 10 ==> s == [Digit(n)]
    ensures 10 <= n < 100 ==> s == [Digit(n / 10), Digit(n % 10)]
  {
    if n < 10 then [Digit(n)] else NatToString(n / 10) + [Digit(n % 10)]
  }

  /** `n.toString()` for any integer. */
  function IntToString(n: int): string
  {
    if n < 0 then "-" + NatToString(-n) else NatToString(n)
  }

  /** `s.padStart(2, "0")`. */
  function PadStart2(s: string): (r: string)
    ensures |r| == if |s| >= 2 then |s| else 2
    ensures r[|r| - |s|..] == s
    ensures forall i | 0 <= i < |r| - |s| :: r[i] == '0'
  {
    if |s| >= 2 then s else if |s| == 1 then "0" + s else "00"
  }

  /** JavaScript's `%`: the remainder takes the sign of the dividend. */
  function JsRemainder(a: int, b: int): (r: int)
    requires b > 0
    ensures a >= 0 ==> r == a % b
  {
    if a >= 0 then a % b else -((-a) % b)
  }

  /** `formatTime(seconds)`: floor of minutes, JavaScript remainder of seconds, each padded to two characters. */
  function FormatTime(seconds: int): (r: string)
    ensures 0 <= seconds < 6000 ==> r == Pad2Digits(seconds / 60) + ":" + Pad2Digits(seconds % 60)
    ensures 0 <= seconds < 6000 ==> |r| == 5 && r[2] == ':'
  {
    var mins := seconds / 60;
    var secs := JsRemainder(seconds, 60);
    PadSmall(mins);
    PadSmall(secs);
    PadStart2(IntToString(mins)) + ":" + PadStart2(IntToString(secs))
  }

  function Pad2Digits(n: int): string
    requires 0 <= n < 100
  {
    [Digit(n / 10), Digit(n % 10)]
  }

  lemma {:induction false} PadTwoDigits(n: int)
    requires 0 <= n < 100
    ensures PadStart2(IntToString(n)) == Pad2Digits(n)
  {
    if n < 10 {
      assert IntToString(n) == [Digit(n)];
      assert PadStart2([Digit(n)]) == ['0', Digit(n)];
    }
  }

  /** The same, for any integer, so that `FormatTime` can call it unconditionally. */
  lemma {:induction false} PadSmall(n: int)
    ensures 0 <= n < 100 ==> PadStart2(IntToString(n)) == Pad2Digits(n)
  {
    if 0 <= n < 100 {
      PadTwoDigits(n);
    }
  }

  /** Below 100 minutes the display is five characters "MM:SS" with MM = s div 60 and SS = s mod 60. */
  lemma {:induction false} FormatTimeShape(s: int)
    requires 0 <= s < 6000
    ensures FormatTime(s) == Pad2Digits(s / 60) + ":" + Pad2Digits(s % 60)
    ensures |FormatTime(s)| == 5 && FormatTime(s)[2] == ':'
  {
  }

  /** Reading "MM:SS" back as a number of seconds. */
  function ParseClock(t: string): int
    requires |t| == 5
  {
    (DigitValue(t[0]) * 10 + DigitValue(t[1])) * 60 + DigitValue(t[3]) * 10 + DigitValue(t[4])
  }

  /** The display round-trips: parsing what `formatTime` shows gives back the seconds. */
  lemma {:induction false} FormatTimeRoundTrip(s: int)
    requires 0 <= s < 6000
    ensures |FormatTime(s)| == 5 && ParseClock(FormatTime(s)) == s
  {
    FormatTimeShape(s);
    var m, r := s / 60, s % 60;
    var t := FormatTime(s);
    assert t[0] == Digit(m / 10) && t[1] == Digit(m % 10);
    assert t[3] == Digit(r / 10) && t[4] == Digit(r % 10);
    assert ParseClock(t) == (m / 10 * 10 + m % 10) * 60 + r / 10 * 10 + r % 10;
  }

  /** The timer's start and end displays. */
  lemma {:induction false} FormatTimeExamples()
    ensures FormatTime(600) == "10:00" && FormatTime(0) == "00:00"
  {
    var a := 600;
    assert a / 60 == 10 && JsRemainder(a, 60) == 0;
    assert IntToString(10) == "10" && IntToString(0) == "0";
    assert PadStart2("10") == "10" && PadStart2("0") == "00";
    FormatTimeShape(a);
    assert Pad2Digits(a / 60) == "10" && Pad2Digits(a % 60) == "00";
    var b := 0;
    assert b / 60 == 0 && JsRemainder(b, 60) == 0;
    FormatTimeShape(b);
    assert Pad2Digits(b / 60) == "00" && Pad2Digits(b % 60) == "00";
  }

  // ---------------------------------------------------------------------------
  // `MeditationTimer`

  /** The timer component's state; each method is one handler followed by the effect settling. */
  class MeditationTimer {
    var isActive: bool
    var timeLeft: int

    /** The settled state: the count lies in 0..600 and a timer at zero is not running. */
    ghost predicate Valid()
      reads this
    {
      0 <= timeLeft <= Duration && (timeLeft == 0 ==> !isActive)
    }

    /** The text shown on the clock. */
    function Display(): string
      reads this
    {
      FormatTime(timeLeft)
    }

    constructor ()
      ensures Valid() && !isActive && timeLeft == Duration
    {
      isActive := false;
      timeLeft := Duration;
    }

    /** The effect's `else if (timeLeft === 0) setIsActive(false)` branch. */
    method Settle()
      modifies this
      ensures timeLeft == old(timeLeft)
      ensures isActive == (old(isActive) && timeLeft != 0)
    {
      if !(isActive && timeLeft > 0) && timeLeft == 0 {
        isActive := false;
      }
    }

    /** One firing of the one-second interval, which exists only while active with time left. */
    method Tick()
      requires Valid()
      modifies this
      ensures Valid()
      ensures old(isActive) ==> timeLeft == old(timeLeft) - 1 && isActive == (timeLeft > 0)
      ensures !old(isActive) ==> timeLeft == old(timeLeft) && !isActive
    {
      if isActive && timeLeft > 0 {
        timeLeft := timeLeft - 1;
      }
      Settle();
    }

    /** `handleStart`: toggles running; starting at zero is undone at once by the effect. */
    method Start()
      requires Valid()
      modifies this
      ensures Valid()
      ensures timeLeft == old(timeLeft)
      ensures isActive == (!old(isActive) && timeLeft > 0)
    {
      isActive := !isActive;
      Settle();
    }

    /** `handleReset`: stopped with the full ten minutes, from any state. */
    method Reset()
      modifies this
      ensures Valid() && !isActive && timeLeft == Duration
    {
      isActive := false;
      timeLeft := Duration;
      Settle();
    }
  }

  /** A running timer stops after exactly as many ticks as it had seconds left, showing "00:00". */
  method RunDown(t: MeditationTimer) returns (ticks: int)
    requires t.Valid() && t.isActive
    modifies t
    ensures t.Valid() && !t.isActive && t.timeLeft == 0
    ensures ticks == old(t.timeLeft)
    ensures t.Display() == "00:00"
  {
    ticks := 0;
    while t.isActive
      invariant t.Valid()
      invariant ticks + t.timeLeft == old(t.timeLeft)
      invariant !t.isActive ==> t.timeLeft == 0
      decreases t.timeLeft
    {
      t.Tick();
      ticks := ticks + 1;
    }
    FormatTimeExamples();
  }

  // ---------------------------------------------------------------------------
  // Score and detailed recommendations

  /** The state the page passes to its panels: today's values, each band's wording, and trends against yesterday's. */
  function PageState(data: BiorhythmData): (s: BiorhythmState)
    ensures forall c: Cycle :: StateOf(s, c).value == ValueOf(data.today, c)
    ensures forall c: Cycle :: StateOf(s, c).description == Wording(c, BandOf(ValueOf(data.today, c)))
    ensures forall c: Cycle :: StateOf(s, c).trend == TrendOf(ValueOf(data.today, c), Some(ValueOf(data.yesterday, c)))
  {
    var s := GetBiorhythmState(data.today, Some(data.yesterday));
    assert forall c: Cycle :: StateOf(s, c).trend == TrendOf(ValueOf(data.today, c), Some(ValueOf(data.yesterday, c))) by {
      forall c: Cycle
        ensures StateOf(s, c).trend == TrendOf(ValueOf(data.today, c), Some(ValueOf(data.yesterday, c)))
      {
        var t := TrendOf(ValueOf(data.today, c), Some(ValueOf(data.yesterday, c)));
        assert StateOf(s, c).trend == Down <==> t == Down;
      }
    }
    s
  }

  /**
   * On the page the calculator always receives a selected date, so a trend compares now's value with the value on
   * the day before the selected date, not the day before now.
   */
  lemma {:induction false} PageTrendAgainstDayBeforeSelection(wave: Wave, birth: int, now: int, selected: int, offset: int, c: Cycle)
    ensures StateOf(PageState(Biorhythms(wave, birth, now, Some(selected), offset)), c).value
         == ValueOf(CycleValues(wave, DaysBetween(birth, now)), c)
    ensures StateOf(PageState(Biorhythms(wave, birth, now, Some(selected), offset)), c).trend
         == TrendOf(ValueOf(CycleValues(wave, DaysBetween(birth, now)), c),
                    Some(ValueOf(CycleValues(wave, DaysBetween(birth, selected - MsPerDay)), c)))
  {
    TodayIgnoresSelection(wave, birth, now, Some(selected), None, offset);
    YesterdayIsBeforeReference(wave, birth, now, Some(selected), offset);
  }

  /** The "Estado General" badge: the rounded mean of today's values, within [-100, 100] for in-range values. */
  function PageScore(data: BiorhythmData): (r: int)
    ensures 6 * r - 3 <= 2 * (data.today.physical + data.today.emotional + data.today.intellectual) < 6 * r + 3
    ensures InRange(data.today) ==> -100 <= r <= 100
  {
    PersonCard.OverallScore(data.today)
  }

  /** Which variant of the three detailed tabs is rendered: the high-intensity one iff the value exceeds 50. */
  datatype DetailVariants = DetailVariants(intenseExercise: bool, complexCreativity: bool, socialWellness: bool)

  function DetailedPlan(s: BiorhythmState): (d: DetailVariants)
    ensures d.intenseExercise <==> s.physical.value > 50
    ensures d.complexCreativity <==> s.intellectual.value > 50
    ensures d.socialWellness <==> s.emotional.value > 50
  {
    DetailVariants(s.physical.value > 50, s.intellectual.value > 50, s.emotional.value > 50)
  }

  /** The page's detailed tabs follow today's values, whatever yesterday's were. */
  lemma {:induction false} DetailedPlanUsesToday(data: BiorhythmData)
    ensures DetailedPlan(PageState(data)).intenseExercise <==> data.today.physical > 50
    ensures DetailedPlan(PageState(data)).complexCreativity <==> data.today.intellectual > 50
    ensures DetailedPlan(PageState(data)).socialWellness <==> data.today.emotional > 50
  {
    var s := PageState(data);
    assert StateOf(s, Physical).value == data.today.physical;
    assert StateOf(s, Intellectual).value == data.today.intellectual;
    assert StateOf(s, Emotional).value == data.today.emotional;
  }
}
