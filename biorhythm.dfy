/**
 * The biorhythm engine and state classifier of lib/biorhythm-calculator.ts.
 *
 * Instants are integer milliseconds since the epoch. The sinusoid
 * round(sin(2*pi*d/p) * 100) is not modelled: it enters every operation as a
 * parameter `wave` whose only known property is its range [-100, 100].
 * The local calendar day of an instant is floor((ms + offset) / MsPerDay) for
 * one fixed time-zone offset, so moving a date by `i` days with `setDate` is
 * adding `i * MsPerDay` milliseconds.
 */
module Biorhythm {
  import opened Common

  const MsPerDay: int := 86_400_000  // 1000 * 60 * 60 * 24
  const PhysicalPeriod: int := 23
  const EmotionalPeriod: int := 28
  const IntellectualPeriod: int := 33
  /** The chart spans this many days on each side of the reference date. */
  const WindowRadius: int := 15
  const WindowSize: int := 2 * WindowRadius + 1

  /** The rounded sine wave: day count and period to a whole percentage. */
  type Wave = f: (int, int) -> int | forall d: int, p: int :: -100 <= f(d, p) <= 100
    witness (d: int, p: int) => 0

  /** A user's profile; only the birth date feeds the computation, the ethnicity keys the cultural text. */
  datatype UserProfile = UserProfile(
    name: string,
    birthDate: string,
    birthTime: Option<string>,
    birthPlace: string,
    ethnicity: Option<string>)

  datatype Cycle = Physical | Emotional | Intellectual

  /** One day's values of the three cycles (`BiorhythmValues`). */
  datatype Values = Values(physical: int, emotional: int, intellectual: int)

  function ValueOf(v: Values, c: Cycle): int
  {
    match c
    case Physical => v.physical
    case Emotional => v.emotional
    case Intellectual => v.intellectual
  }

  predicate InRange(v: Values)
  {
    && -100 <= v.physical <= 100
    && -100 <= v.emotional <= 100
    && -100 <= v.intellectual <= 100
  }

  /** One point of the chart window; the locale label is derived from `fullDate` and not modelled. */
  datatype ChartPoint = ChartPoint(values: Values, isToday: bool, isSelected: bool, fullDate: int)

  /** The result of `calculateBiorhythms`. */
  datatype BiorhythmData = BiorhythmData(
    today: Values,
    yesterday: Values,
    selectedDate: Option<Values>,
    chartData: seq<ChartPoint>)

  /** Whole days from `from` to `to`: the floor of the millisecond difference over a day. */
  function DaysBetween(from: int, to: int): (d: int)
    ensures d * MsPerDay <= to - from < (d + 1) * MsPerDay
  {
    (to - from) / MsPerDay
  }

  /** The local calendar day of an instant (the part `toDateString` compares). */
  function LocalDay(ms: int, offset: int): (day: int)
    ensures day * MsPerDay <= ms + offset < (day + 1) * MsPerDay
  {
    (ms + offset) / MsPerDay
  }

  /** Moving an instant by `i` whole days moves its day counts by exactly `i`. */
  lemma {:induction false} ShiftByDays(x: int, i: int)
    ensures (x + i * MsPerDay) / MsPerDay == x / MsPerDay + i
  {
  }

  /** The three cycle values for day count `d`. */
  function CycleValues(wave: Wave, d: int): (v: Values)
    ensures InRange(v)
    ensures v.physical == wave(d, PhysicalPeriod)
    ensures v.emotional == wave(d, EmotionalPeriod)
    ensures v.intellectual == wave(d, IntellectualPeriod)
  {
    Values(wave(d, PhysicalPeriod), wave(d, EmotionalPeriod), wave(d, IntellectualPeriod))
  }

  /** `selectedDate || today`: a Date object is always truthy. */
  function Reference(now: int, selected: Option<int>): int
  {
    selected.GetOr(now)
  }

  /** The chart point for day offset `i` around the reference date. */
  function PointAt(wave: Wave, birth: int, now: int, selected: Option<int>, offset: int, i: int): ChartPoint
  {
    var reference := Reference(now, selected);
    var date := reference + i * MsPerDay;
    ChartPoint(
      CycleValues(wave, DaysBetween(birth, reference) + i),
      LocalDay(date, offset) == LocalDay(now, offset),
      selected.Some? && LocalDay(date, offset) == LocalDay(selected.value, offset),
      date)
  }

  /** The 31-point window, offsets -15 .. 15 in order. */
  function Window(wave: Wave, birth: int, now: int, selected: Option<int>, offset: int): seq<ChartPoint>
  {
    seq(WindowSize, k => PointAt(wave, birth, now, selected, offset, k - WindowRadius))
  }

  /** The selected-date values: present iff a date was passed whose millisecond timestamp differs from now. */
  function SelectedValues(wave: Wave, birth: int, now: int, selected: Option<int>): Option<Values>
  {
    if selected.Some? && selected.value != now then Some(CycleValues(wave, DaysBetween(birth, selected.value)))
    else None
  }

  /** `calculateBiorhythms(birthDate, selectedDate)` with the clock reading `now` and time-zone offset `offset`. */
  method CalculateBiorhythms(wave: Wave, birth: int, now: int, selected: Option<int>, offset: int)
    returns (data: BiorhythmData)
    ensures data.today == CycleValues(wave, DaysBetween(birth, now))
    ensures data.yesterday == CycleValues(wave, DaysBetween(birth, Reference(now, selected)) - 1)
    ensures data.selectedDate == SelectedValues(wave, birth, now, selected)
    ensures data.chartData == Window(wave, birth, now, selected, offset)
  {
    var reference := if selected.Some? then selected.value else now;
    var daysSinceBirth := (now - birth) / MsPerDay;
    var daysSinceBirthReference := (reference - birth) / MsPerDay;
    var daysSinceBirthYesterday := daysSinceBirthReference - 1;

    var todayValues := Values(
      wave(daysSinceBirth, PhysicalPeriod),
      wave(daysSinceBirth, EmotionalPeriod),
      wave(daysSinceBirth, IntellectualPeriod));
    var yesterdayValues := Values(
      wave(daysSinceBirthYesterday, PhysicalPeriod),
      wave(daysSinceBirthYesterday, EmotionalPeriod),
      wave(daysSinceBirthYesterday, IntellectualPeriod));

    var selectedDateValues: Option<Values> := None;
    if selected.Some? && selected.value != now {
      selectedDateValues := Some(Values(
        wave(daysSinceBirthReference, PhysicalPeriod),
        wave(daysSinceBirthReference, EmotionalPeriod),
        wave(daysSinceBirthReference, IntellectualPeriod)));
    }

    var chartData: seq<ChartPoint> := [];
    var i := -WindowRadius;
    while i <= WindowRadius
      invariant -WindowRadius <= i <= WindowRadius + 1
      invariant |chartData| == i + WindowRadius
      invariant forall k | 0 <= k < |chartData| ::
        chartData[k] == PointAt(wave, birth, now, selected, offset, k - WindowRadius)
    {
      var date := reference + i * MsPerDay;
      var daysFromBirth := daysSinceBirthReference + i;
      var isToday := (date + offset) / MsPerDay == (now + offset) / MsPerDay;
      var isSelected := selected.Some? && (date + offset) / MsPerDay == (selected.value + offset) / MsPerDay;
      chartData := chartData + [ChartPoint(
        Values(
          wave(daysFromBirth, PhysicalPeriod),
          wave(daysFromBirth, EmotionalPeriod),
          wave(daysFromBirth, IntellectualPeriod)),
        isToday, isSelected, date)];
      i := i + 1;
    }

    data := BiorhythmData(todayValues, yesterdayValues, selectedDateValues, chartData);
  }

  /** The whole result as a function, for the lemmas and the callers that are functions. */
  function Biorhythms(wave: Wave, birth: int, now: int, selected: Option<int>, offset: int): (r: BiorhythmData)
    ensures r.today == CycleValues(wave, DaysBetween(birth, now))
    ensures r.yesterday == CycleValues(wave, DaysBetween(birth, Reference(now, selected) - MsPerDay))
    ensures r.selectedDate.Some? <==> selected.Some? && selected.value != now
    ensures |r.chartData| == WindowSize
  {
    ShiftByDays(Reference(now, selected) - birth, -1);
    BiorhythmData(
      CycleValues(wave, DaysBetween(birth, now)),
      CycleValues(wave, DaysBetween(birth, Reference(now, selected)) - 1),
      SelectedValues(wave, birth, now, selected),
      Window(wave, birth, now, selected, offset))
  }

  // ---------------------------------------------------------------------------
  // Properties of the engine

  /** Entry k of the window is the point for offset k - 15. */
  lemma WindowAt(wave: Wave, birth: int, now: int, selected: Option<int>, offset: int, k: int)
    requires 0 <= k < WindowSize
    ensures |Window(wave, birth, now, selected, offset)| == WindowSize
    ensures Window(wave, birth, now, selected, offset)[k] == PointAt(wave, birth, now, selected, offset, k - WindowRadius)
  {
  }

  /** The window has 31 entries for offsets -15..15 in order; entry k is one day after entry k-1. */
  lemma {:induction false} WindowShape(wave: Wave, birth: int, now: int, selected: Option<int>, offset: int)
    ensures var w := Window(wave, birth, now, selected, offset);
      && |w| == 31
      && (forall k | 0 <= k < |w| ::
            && w[k].fullDate == Reference(now, selected) + (k - 15) * MsPerDay
            && w[k].values == CycleValues(wave, DaysBetween(birth, Reference(now, selected)) + k - 15))
      && (forall k | 0 < k < |w| ::
            && w[k].fullDate == w[k - 1].fullDate + MsPerDay
            && LocalDay(w[k].fullDate, offset) == LocalDay(w[k - 1].fullDate, offset) + 1)
  {
    var w := Window(wave, birth, now, selected, offset);
    var reference := Reference(now, selected);
    forall k | 0 <= k < |w|
      ensures w[k].fullDate == reference + (k - 15) * MsPerDay
      ensures w[k].values == CycleValues(wave, DaysBetween(birth, reference) + k - 15)
    {
      WindowAt(wave, birth, now, selected, offset, k);
    }
    forall k | 0 < k < |w|
      ensures w[k].fullDate == w[k - 1].fullDate + MsPerDay
      ensures LocalDay(w[k].fullDate, offset) == LocalDay(w[k - 1].fullDate, offset) + 1
    {
      ShiftByDays(w[k - 1].fullDate + offset, 1);
    }
  }

  /** The local day of entry k is the reference's local day plus k - 15. */
  lemma {:induction false} WindowDays(wave: Wave, birth: int, now: int, selected: Option<int>, offset: int, k: int)
    requires 0 <= k < WindowSize
    ensures LocalDay(Window(wave, birth, now, selected, offset)[k].fullDate, offset)
         == LocalDay(Reference(now, selected), offset) + k - WindowRadius
  {
    WindowAt(wave, birth, now, selected, offset, k);
    ShiftByDays(Reference(now, selected) + offset, k - WindowRadius);
  }

  /** Each chart value is the value of that point's own day: the window's day counts agree with the dates' day counts. */
  lemma {:induction false} WindowValuesAreDayValues(wave: Wave, birth: int, now: int, selected: Option<int>, offset: int, k: int)
    requires 0 <= k < WindowSize
    ensures var p := Window(wave, birth, now, selected, offset)[k];
      p.values == CycleValues(wave, DaysBetween(birth, p.fullDate))
  {
    WindowAt(wave, birth, now, selected, offset, k);
    ShiftByDays(Reference(now, selected) - birth, k - WindowRadius);
  }

  /** An entry is marked as today exactly when its offset is the day distance from the reference to now. */
  lemma {:induction false} TodayFlagPosition(wave: Wave, birth: int, now: int, selected: Option<int>, offset: int, k: int)
    requires 0 <= k < WindowSize
    ensures Window(wave, birth, now, selected, offset)[k].isToday
        <==> k - WindowRadius == LocalDay(now, offset) - LocalDay(Reference(now, selected), offset)
  {
    WindowAt(wave, birth, now, selected, offset, k);
    WindowDays(wave, birth, now, selected, offset, k);
  }

  /** At most one entry is marked as today, and one is iff now's day lies within 15 days of the reference day. */
  lemma {:induction false} AtMostOneToday(wave: Wave, birth: int, now: int, selected: Option<int>, offset: int)
    ensures var w := Window(wave, birth, now, selected, offset);
      forall j, k | 0 <= j < |w| && 0 <= k < |w| && w[j].isToday && w[k].isToday :: j == k
    ensures var w := Window(wave, birth, now, selected, offset);
      var distance := LocalDay(now, offset) - LocalDay(Reference(now, selected), offset);
      (exists k | 0 <= k < |w| :: w[k].isToday) <==> -WindowRadius <= distance <= WindowRadius
  {
    var w := Window(wave, birth, now, selected, offset);
    var distance := LocalDay(now, offset) - LocalDay(Reference(now, selected), offset);
    forall k | 0 <= k < |w|
      ensures w[k].isToday <==> k - WindowRadius == distance
    {
      TodayFlagPosition(wave, birth, now, selected, offset, k);
    }
    if -WindowRadius <= distance <= WindowRadius {
      assert w[distance + WindowRadius].isToday;
    }
  }

  /** With a selected date, exactly the middle entry is marked as selected; without one, none is. */
  lemma {:induction false} SelectedFlagIsMiddle(wave: Wave, birth: int, now: int, selected: Option<int>, offset: int, k: int)
    requires 0 <= k < WindowSize
    ensures Window(wave, birth, now, selected, offset)[k].isSelected <==> selected.Some? && k == WindowRadius
  {
    WindowAt(wave, birth, now, selected, offset, k);
    WindowDays(wave, birth, now, selected, offset, k);
  }

  /** When the selected date is today's instant, the middle entry carries both flags. */
  lemma {:induction false} MiddleIsTodayWhenReferenceIsToday(wave: Wave, birth: int, now: int, selected: Option<int>, offset: int)
    requires selected.None? || LocalDay(selected.value, offset) == LocalDay(now, offset)
    ensures Window(wave, birth, now, selected, offset)[WindowRadius].isToday
  {
    WindowAt(wave, birth, now, selected, offset, WindowRadius);
    WindowDays(wave, birth, now, selected, offset, WindowRadius);
  }

  /** Today's values depend only on the clock: whatever date is selected, they are the same. */
  lemma {:induction false} TodayIgnoresSelection(wave: Wave, birth: int, now: int, s1: Option<int>, s2: Option<int>, offset: int)
    ensures Biorhythms(wave, birth, now, s1, offset).today == Biorhythms(wave, birth, now, s2, offset).today
    ensures Biorhythms(wave, birth, now, s1, offset).today == CycleValues(wave, DaysBetween(birth, now))
  {
  }

  /** Yesterday's values are one day before the reference date, which is not yesterday of now when a date is selected. */
  lemma {:induction false} YesterdayIsBeforeReference(wave: Wave, birth: int, now: int, selected: Option<int>, offset: int)
    ensures Biorhythms(wave, birth, now, selected, offset).yesterday
         == CycleValues(wave, DaysBetween(birth, Reference(now, selected) - MsPerDay))
  {
    ShiftByDays(Reference(now, selected) - birth, -1);
  }

  /** Selected-date values are present iff a date was passed with a millisecond timestamp other than now's. */
  lemma {:induction false} SelectedPresence(wave: Wave, birth: int, now: int, selected: Option<int>, offset: int)
    ensures Biorhythms(wave, birth, now, selected, offset).selectedDate.Some?
        <==> selected.Some? && selected.value != now
    ensures Biorhythms(wave, birth, now, selected, offset).selectedDate.Some? ==>
      Biorhythms(wave, birth, now, selected, offset).selectedDate.value
        == Window(wave, birth, now, selected, offset)[WindowRadius].values
  {
    WindowAt(wave, birth, now, selected, offset, WindowRadius);
  }

  /** The presence test compares milliseconds while the flags compare days: a date one millisecond away from now,
      on today's calendar day, still gets selected-date values. */
  lemma {:induction false} SameDayStillSelected(wave: Wave, birth: int, offset: int)
    ensures var now := 1000 * MsPerDay - offset;
      var selected := Some(now + 1);
      && LocalDay(now + 1, offset) == LocalDay(now, offset)
      && Biorhythms(wave, birth, now, selected, offset).selectedDate.Some?
      && Window(wave, birth, now, selected, offset)[WindowRadius].isToday
  {
    var now := 1000 * MsPerDay - offset;
    MiddleIsTodayWhenReferenceIsToday(wave, birth, now, Some(now + 1), offset);
  }

  /** Day counts are zero before a full day has passed and negative before birth: no special case. */
  lemma {:induction false} DayCountSign(birth: int, target: int)
    ensures DaysBetween(birth, target) < 0 <==> target < birth
    ensures DaysBetween(birth, target) == 0 <==> birth <= target < birth + MsPerDay
  {
  }

  // ---------------------------------------------------------------------------
  // State classifier (`getBiorhythmState`)

  /** The five ordered bands, from best to worst. */
  datatype Band = Exceptional | Good | Moderate | Low | NeedsCare

  function Rank(b: Band): int
  {
    match b
    case NeedsCare => 0
    case Low => 1
    case Moderate => 2
    case Good => 3
    case Exceptional => 4
  }

  /** The band of a value: above 70, above 30, above -30, above -70, or the rest. */
  function BandOf(v: int): (b: Band)
    ensures b == Exceptional <==> 70 < v
    ensures b == Good <==> 30 < v <= 70
    ensures b == Moderate <==> -30 < v <= 30
    ensures b == Low <==> -70 < v <= -30
    ensures b == NeedsCare <==> v <= -70
  {
    if v > 70 then Exceptional
    else if v > 30 then Good
    else if v > -30 then Moderate
    else if v > -70 then Low
    else NeedsCare
  }

  /** Classification is monotone: a larger value never falls in a lower band. */
  lemma {:induction false} BandMonotone(v: int, w: int)
    requires v <= w
    ensures Rank(BandOf(v)) <= Rank(BandOf(w))
  {
  }

  /** The boundary values fall as the thresholds say. */
  lemma {:induction false} BandBoundaries()
    ensures BandOf(71) == Exceptional && BandOf(70) == Good
    ensures BandOf(31) == Good && BandOf(30) == Moderate && BandOf(29) == Moderate
    ensures BandOf(-29) == Moderate && BandOf(-30) == Low
    ensures BandOf(-69) == Low && BandOf(-70) == NeedsCare && BandOf(-71) == NeedsCare
  {
  }

  /** The calculator's wording of each band for each cycle. */
  function Wording(c: Cycle, b: Band): string
  {
    match c
    case Physical => (
      match b
      case Exceptional => "Energía física excepcional"
      case Good => "Buena energía física"
      case Moderate => "Energía física moderada"
      case Low => "Energía física baja"
      case NeedsCare => "Necesitas descanso físico")
    case Emotional => (
      match b
      case Exceptional => "Estado emocional excelente"
      case Good => "Buen estado emocional"
      case Moderate => "Estado emocional estable"
      case Low => "Estado emocional sensible"
      case NeedsCare => "Necesitas cuidado emocional")
    case Intellectual => (
      match b
      case Exceptional => "Capacidad mental excepcional"
      case Good => "Buena capacidad mental"
      case Moderate => "Capacidad mental moderada"
      case Low => "Capacidad mental baja"
      case NeedsCare => "Necesitas descanso mental")
  }

  /** `getDescription(value, type)`, one threshold chain per cycle type as in the source. */
  function Description(v: int, c: Cycle): (r: string)
    ensures r == Wording(c, BandOf(v))
  {
    match c
    case Physical =>
      if v > 70 then "Energía física excepcional"
      else if v > 30 then "Buena energía física"
      else if v > -30 then "Energía física moderada"
      else if v > -70 then "Energía física baja"
      else "Necesitas descanso físico"
    case Emotional =>
      if v > 70 then "Estado emocional excelente"
      else if v > 30 then "Buen estado emocional"
      else if v > -30 then "Estado emocional estable"
      else if v > -70 then "Estado emocional sensible"
      else "Necesitas cuidado emocional"
    case Intellectual =>
      if v > 70 then "Capacidad mental excepcional"
      else if v > 30 then "Buena capacidad mental"
      else if v > -30 then "Capacidad mental moderada"
      else if v > -70 then "Capacidad mental baja"
      else "Necesitas descanso mental"
  }

  /** The three threshold chains are one classification: the description is the wording of the value's band. */
  lemma {:induction false} DescriptionIsBandWording(v: int, c: Cycle)
    ensures Description(v, c) == Wording(c, BandOf(v))
  {
  }

  /** Within a cycle the five wordings are distinct, so a description determines its band. */
  lemma {:induction false} WordingDeterminesBand(c: Cycle, b1: Band, b2: Band)
    requires Wording(c, b1) == Wording(c, b2)
    ensures b1 == b2
  {
    match c
    case Physical =>
      assert Wording(c, b1)[0] == Wording(c, b2)[0];
      assert |Wording(c, b1)| == |Wording(c, b2)|;
      assert Wording(c, b1)[17] == Wording(c, b2)[17];
    case Emotional =>
      assert Wording(c, b1)[0] == Wording(c, b2)[0];
      assert Wording(c, b1)[18] == Wording(c, b2)[18];
    case Intellectual =>
      assert Wording(c, b1)[0] == Wording(c, b2)[0];
      assert |Wording(c, b1)| == |Wording(c, b2)|;
    }

  datatype Trend = Up | Down

  /** `getTrend(today, yesterday)`: an absent or zero yesterday value is falsy and yields "up". */
  function TrendOf(today: int, yesterday: Option<int>): (t: Trend)
    ensures t == Down <==> yesterday.Some? && yesterday.value != 0 && today < yesterday.value
  {
    if yesterday.None? || yesterday.value == 0 then Up
    else if today >= yesterday.value then Up
    else Down
  }

  /** The falsy test: a fall from 0 to -5 is reported as "up". */
  lemma {:induction false} ZeroYesterdayCountsAsAbsent(today: int)
    ensures TrendOf(today, Some(0)) == TrendOf(today, None) == Up
  {
  }

  datatype CycleState = CycleState(value: int, description: string, trend: Trend)

  datatype BiorhythmState = BiorhythmState(physical: CycleState, emotional: CycleState, intellectual: CycleState)

  function StateOf(s: BiorhythmState, c: Cycle): CycleState
  {
    match c
    case Physical => s.physical
    case Emotional => s.emotional
    case Intellectual => s.intellectual
  }

  function YesterdayOf(yesterday: Option<Values>, c: Cycle): Option<int>
  {
    if yesterday.Some? then Some(ValueOf(yesterday.value, c)) else None
  }

  /** `getBiorhythmState(today, yesterday?)`. */
  function GetBiorhythmState(today: Values, yesterday: Option<Values>): (s: BiorhythmState)
    ensures forall c: Cycle :: StateOf(s, c).value == ValueOf(today, c)
    ensures forall c: Cycle :: StateOf(s, c).description == Wording(c, BandOf(ValueOf(today, c)))
    ensures forall c: Cycle :: StateOf(s, c).trend == Down <==>
      yesterday.Some? && ValueOf(yesterday.value, c) != 0 && ValueOf(today, c) < ValueOf(yesterday.value, c)
  {
    BiorhythmState(
      CycleState(today.physical, Description(today.physical, Physical), TrendOf(today.physical, YesterdayOf(yesterday, Physical))),
      CycleState(today.emotional, Description(today.emotional, Emotional), TrendOf(today.emotional, YesterdayOf(yesterday, Emotional))),
      CycleState(today.intellectual, Description(today.intellectual, Intellectual),
        TrendOf(today.intellectual, YesterdayOf(yesterday, Intellectual))))
  }

  /** The end-to-end scenario of a birth-day reference: with a wave that is 0 on day 0, every band is moderate and every trend up. */
  lemma {:induction false} BirthDayScenario(wave: Wave, birth: int, offset: int)
    requires forall p: int :: wave(0, p) == 0
    ensures var data := Biorhythms(wave, birth, birth, None, offset);
      var s := GetBiorhythmState(data.today, None);
      forall c: Cycle :: BandOf(StateOf(s, c).value) == Moderate && StateOf(s, c).trend == Up
  {
    assert DaysBetween(birth, birth) == 0;
  }
}
