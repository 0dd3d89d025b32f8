/**
 * The selectors of components/recommendations-panel.tsx. The recommendation
 * texts are fixed prose; the model keeps only which text is chosen: a kind and
 * its high or low variant, and for the cultural card an ethnicity and a variant.
 */
module Recommendations {
  import opened Common
  import opened Biorhythm

  datatype RecKind = Nutrition | Exercise | Creativity | EmotionalCare

  /** One card: its kind, and whether the first ("high") title and description were chosen. */
  datatype Recommendation = Recommendation(kind: RecKind, high: bool)

  /** The cycle each kind of recommendation looks at. */
  function Driver(k: RecKind): Cycle
  {
    match k
    case Nutrition => Physical
    case Exercise => Physical
    case Creativity => Intellectual
    case EmotionalCare => Emotional
  }

  /** `getRecommendations()`: four cards in a fixed order, each high iff its cycle's value is positive. */
  method GetRecommendations(s: BiorhythmState) returns (recs: seq<Recommendation>)
    ensures |recs| == 4
    ensures recs[0].kind == Nutrition && recs[1].kind == Exercise
    ensures recs[2].kind == Creativity && recs[3].kind == EmotionalCare
    ensures forall j | 0 <= j < |recs| :: recs[j].high <==> StateOf(s, Driver(recs[j].kind)).value > 0
  {
    recs := [];
    recs := recs + [Recommendation(Nutrition, s.physical.value > 0)];
    recs := recs + [Recommendation(Exercise, s.physical.value > 0)];
    recs := recs + [Recommendation(Creativity, s.intellectual.value > 0)];
    recs := recs + [Recommendation(EmotionalCare, s.emotional.value > 0)];
  }

  /** The keys of the cultural table. */
  datatype Ethnicity = Latino | Europeo | Asiatico | Africano | Indigena | Otro

  function Key(e: Ethnicity): string
  {
    match e
    case Latino => "latino"
    case Europeo => "europeo"
    case Asiatico => "asiatico"
    case Africano => "africano"
    case Indigena => "indigena"
    case Otro => "otro"
  }

  function LowerChar(c: char): char
  {
    if 'A' <= c <= 'Z' then (c as int + 32) as char else c
  }

  /** `toLowerCase()` on ASCII letters; no other character can turn a string into one of the table's keys. */
  function ToLower(s: string): (r: string)
    ensures |r| == |s|
    ensures forall i | 0 <= i < |s| :: r[i] == LowerChar(s[i])
  {
    if s == [] then [] else [LowerChar(s[0])] + ToLower(s[1..])
  }

  /** `recommendations[ethnicity.toLowerCase()] || recommendations.otro`. */
  function LookupEthnicity(name: string): (e: Ethnicity)
    ensures e == Otro || ToLower(name) == Key(e)
    ensures forall e' :: ToLower(name) == Key(e') ==> e == e'
  {
    var k := ToLower(name);
    if k == "latino" then Latino
    else if k == "europeo" then Europeo
    else if k == "asiatico" then Asiatico
    else if k == "africano" then Africano
    else if k == "indigena" then Indigena
    else Otro
  }

  /** An unknown name falls back to the "otro" entry. */
  lemma {:induction false} UnknownFallsBackToOtro(name: string)
    requires forall e :: ToLower(name) != Key(e)
    ensures LookupEthnicity(name) == Otro
  {
  }

  /** Case does not matter: "LATINO" and "Latino" select the "latino" texts. */
  lemma {:induction false} LookupIgnoresCase()
    ensures LookupEthnicity("LATINO") == Latino && LookupEthnicity("Latino") == Latino
    ensures LookupEthnicity("peruano") == Otro
  {
    assert ToLower("LATINO") == "latino";
    assert ToLower("Latino") == "latino";
  }

  datatype CulturalText = CulturalText(ethnicity: Ethnicity, high: bool)

  /** `getCulturalRecommendation`: the "high" text iff the mean of the three values, hence their sum, is positive. */
  function CulturalRecommendation(ethnicity: string, s: BiorhythmState): (t: CulturalText)
    ensures t.ethnicity == LookupEthnicity(ethnicity)
    ensures t.high <==> s.physical.value + s.emotional.value + s.intellectual.value > 0
  {
    CulturalText(LookupEthnicity(ethnicity), s.physical.value + s.emotional.value + s.intellectual.value > 0)
  }

  /** The cultural card is rendered only for a profile whose ethnicity is present and non-empty. */
  function CulturalCard(profile: UserProfile, s: BiorhythmState): (card: Option<CulturalText>)
    ensures card.Some? <==> profile.ethnicity.Some? && profile.ethnicity.value != ""
    ensures card.Some? ==> card.value == CulturalRecommendation(profile.ethnicity.value, s)
  {
    if profile.ethnicity.Some? && profile.ethnicity.value != "" then
      Some(CulturalRecommendation(profile.ethnicity.value, s))
    else None
  }
}
