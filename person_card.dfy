/**
 * The display logic of pro-version/components/person-details-card.tsx: which
 * values the card shows, its copy of the band descriptions, the overall score
 * and the trend icon.
 */
module PersonCard {
  import opened Common
  import opened Biorhythm

  /** The part of a person's computed data the card reads (`PersonBiorhythmData`). */
  datatype PersonData = PersonData(name: string, color: string, today: Values, selectedDate: Option<Values>)

  /** `isToday`: no selected date, or one on the current calendar day. */
  predicate ShowsToday(selected: Option<int>, now: int, offset: int)
  {
    selected.None? || LocalDay(selected.value, offset) == LocalDay(now, offset)
  }

  /** `currentData`: today's values on today's view, otherwise the selected-date values, or today's when those are absent. */
  function CurrentData(pd: PersonData, selected: Option<int>, now: int, offset: int): (v: Values)
    ensures ShowsToday(selected, now, offset) ==> v == pd.today
    ensures !ShowsToday(selected, now, offset) && pd.selectedDate.Some? ==> v == pd.selectedDate.value
    ensures pd.selectedDate.None? ==> v == pd.today
  {
    if ShowsToday(selected, now, offset) then pd.today else pd.selectedDate.GetOr(pd.today)
  }

  /** The card's wording of each band; it differs from the calculator's only in "Necesita" for the last band. */
  function CardWording(c: Cycle, b: Band): string
  {
    match c
    case Physical => (
      match b
      case Exceptional => "Energía física excepcional"
      case Good => "Buena energía física"
      case Moderate => "Energía física moderada"
      case Low => "Energía física baja"
      case NeedsCare => "Necesita descanso físico")
    case Emotional => (
      match b
      case Exceptional => "Estado emocional excelente"
      case Good => "Buen estado emocional"
      case Moderate => "Estado emocional estable"
      case Low => "Estado emocional sensible"
      case NeedsCare => "Necesita cuidado emocional")
    case Intellectual => (
      match b
      case Exceptional => "Capacidad mental excepcional"
      case Good => "Buena capacidad mental"
      case Moderate => "Capacidad mental moderada"
      case Low => "Capacidad mental baja"
      case NeedsCare => "Necesita descanso mental")
  }

  /** The card's own `getDescription(value, type)`, with its own threshold chains. */
  function CardDescription(v: int, c: Cycle): (r: string)
    ensures r == CardWording(c, BandOf(v))
  {
    match c
    case Physical =>
      if v > 70 then "Energía física excepcional"
      else if v > 30 then "Buena energía física"
      else if v > -30 then "Energía física moderada"
      else if v > -70 then "Energía física baja"
      else "Necesita descanso físico"
    case Emotional =>
      if v > 70 then "Estado emocional excelente"
      else if v > 30 then "Buen estado emocional"
      else if v > -30 then "Estado emocional estable"
      else if v > -70 then "Estado emocional sensible"
      else "Necesita cuidado emocional"
    case Intellectual =>
      if v > 70 then "Capacidad mental excepcional"
      else if v > 30 then "Buena capacidad mental"
      else if v > -30 then "Capacidad mental moderada"
      else if v > -70 then "Capacidad mental baja"
      else "Necesita descanso mental"
  }

  /** The duplicate thresholds classify exactly as the calculator's; the wording agrees on every band but the last. */
  lemma {:induction false} CardAgreesWithCalculator(v: int, c: Cycle)
    ensures CardDescription(v, c) == CardWording(c, BandOf(v))
    ensures BandOf(v) != NeedsCare <==> CardDescription(v, c) == Description(v, c)
  {
    DescriptionIsBandWording(v, c);
    if BandOf(v) == NeedsCare {
      match c
      case Physical => assert CardDescription(v, c)[9] != Description(v, c)[9];
      case Emotional => assert CardDescription(v, c)[9] != Description(v, c)[9];
      case Intellectual => assert CardDescription(v, c)[9] != Description(v, c)[9];
    }
  }

  /** One row of the card's cycle list. */
  datatype CardCycle = CardCycle(name: string, cycle: Cycle, value: int, description: string)

  /** The `cycles` array: physical, emotional, intellectual, each with the shown value and its card description. */
  function Cycles(v: Values): (rows: seq<CardCycle>)
    ensures |rows| == 3
    ensures rows[0].cycle == Physical && rows[1].cycle == Emotional && rows[2].cycle == Intellectual
    ensures forall k | 0 <= k < 3 ::
      rows[k].value == ValueOf(v, rows[k].cycle) && rows[k].description == CardWording(rows[k].cycle, BandOf(rows[k].value))
  {
    CardAgreesWithCalculator(v.physical, Physical);
    CardAgreesWithCalculator(v.emotional, Emotional);
    CardAgreesWithCalculator(v.intellectual, Intellectual);
    [ CardCycle("Físico", Physical, v.physical, CardDescription(v.physical, Physical)),
      CardCycle("Emocional", Emotional, v.emotional, CardDescription(v.emotional, Emotional)),
      CardCycle("Intelectual", Intellectual, v.intellectual, CardDescription(v.intellectual, Intellectual)) ]
  }

  /** `Math.round(s / 3)` for an integer sum `s`: the integer nearest to s/3, halves rounding up (none occur). */
  function RoundThird(s: int): (r: int)
    ensures 6 * r - 3 <= 2 * s < 6 * r + 3
  {
    (s + 1) / 3
  }

  /** `overallScore`: the rounded mean of the three values, within [-100, 100] when they are. */
  function OverallScore(v: Values): (r: int)
    ensures 6 * r - 3 <= 2 * (v.physical + v.emotional + v.intellectual) < 6 * r + 3
    ensures InRange(v) ==> -100 <= r <= 100
  {
    RoundThird(v.physical + v.emotional + v.intellectual)
  }

  /** The trend icon is a sign test on the shown value, not a comparison with yesterday. */
  function TrendIcon(value: int): (t: Trend)
    ensures t == Up <==> value >= 0
  {
    if value >= 0 then Up else Down
  }

  /** A falling value above zero shows the "up" icon while the calculator's trend says "down". */
  lemma {:induction false} IconIgnoresYesterday()
    ensures TrendIcon(10) == Up && TrendOf(10, Some(20)) == Down
    ensures TrendIcon(-10) == Down && TrendOf(-10, Some(-20)) == Up
  {
  }
}
