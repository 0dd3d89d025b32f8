# RitmoVital biorhythms: a Dafny model of the calculation and the UI logic

RitmoVital is a biorhythm web application. From a birth date it computes three
sine cycles: physical (23 days), emotional (28 days) and intellectual (33 days).
It shows today's values, yesterday's values, the values of a selected date and a
31-day chart. Each value falls into one of five bands, and the bands drive a set
of recommendations.

The "pro" dashboard handles up to three people. A date picker chooses the
reference day. Three translation layers localise the interface:

- a dotted-key JSON provider;
- a stand-alone hook;
- a flat dictionary with `{placeholder}` templates.

A text filter decides which page texts go to an automatic translator.

This project models the logic behind those screens, one Dafny module per source file:

| module | source file | form |
|---|---|---|
| `Common` | shared | `Option`, `startsWith`, `includes` |
| `Biorhythm` | lib/biorhythm-calculator.ts | `CalculateBiorhythms` is a method whose loop builds the chart window; bands, descriptions and trends are functions |
| `PersonCard` | pro-version/components/person-details-card.tsx | functions |
| `Recommendations` | components/recommendations-panel.tsx | `GetRecommendations` is a method that builds the four cards; the cultural lookup is a function |
| `MainPage` | app/page.tsx | `MeditationTimer` is a class; `FormatTime`, the score and the branch choice are functions |
| `PeopleManager` | pro-version/components/people-manager.tsx | `Manager` is a class over the component state and the two lists; the list updates are functions |
| `ProDashboard` | pro-version/pro-dashboard.tsx | functions (load merge, active filter, guards) |
| `Onboarding` | components/onboarding-flow.tsx | `Wizard` is a class (step and draft profile) |
| `DateSelector` | components/ui/date-selector.tsx | functions over a proleptic Gregorian calendar with JavaScript `Date` normalisation |
| `TranslationsProvider` | lib/translations-provider.tsx | `Provider` is a class; `WalkTable` and `Provider.T` are loops proved against `Translate`/`ResolveOr` |
| `UseTranslations` | lib/use-translations.ts | `Hook` is a class whose `T` loop is proved against `ResolveOr` |
| `SimpleTranslations` | lib/simple-translations.tsx | `SimpleProvider` is a class whose `T` loop (with its early return) is proved against `Translate` |
| `GlobalTranslator` | lib/global-translator.tsx | functions (`ShouldTranslate`, trimming, the per-node rule) and a method for the node loop |

Modelling conventions:

- **Time.** Instants are integers (milliseconds). The local calendar day of an
  instant is `floor((ms + offset) / 86_400_000)` for one fixed time-zone offset.
  `setDate(getDate() + i)` on an instant is `ms + i * 86_400_000`. Dafny's `/`
  is floor division for a positive divisor, as `Math.floor` is.
- **The sine cycle.** The rounded sine enters as a parameter `wave: Wave`. Its
  only assumed property is the range [-100, 100].
- **Calendar dates** are triples (year, month 0..11, day). `NormalizeDay` and
  `Normalize` carry an out-of-range day or month over as `MakeDay` does.
  `NewDate` adds the constructor's mapping of a year argument in 0..99 to
  1900 + y.
- **JSON tables** are `JString | JObject(map) | JOther`. `fallback || key` treats
  an absent fallback and the empty string alike.
- **Lengths.** `length` counts UTF-16 code units: a character above U+FFFF
  counts 2.

The oddities of the source are modelled as written, and a lemma shows each:

- The trend test is a falsy check, so a value of 0 yesterday reads as "no
  yesterday" (`ZeroYesterdayCountsAsAbsent`).
- Selected-date values depend on a millisecond inequality, but the chart flags
  compare calendar days (`SameDayStillSelected`).
- Submitting an edit leaves the form open, so the add path can exceed the cap of
  three people (`AddAfterEditPassesCap`).
- Active ids that match nobody pass the calculation guard (`StaleActiveIds`).
- The provider answers with the key while loading, but the hook answers from its
  table (`LoadingDiffers`).
- A template match returns its value with the placeholder unsubstituted
  (`GreetingExample`).
- The page always passes its selected date to the calculator, so once a date is
  chosen the trend compares now's value with the value on the day before the
  selected date (`PageTrendAgainstDayBeforeSelection`).

## Model

| member | source | states |
|---|---|---|
| Biorhythm.DaysBetween | lib/biorhythm-calculator.ts:55-56 | the day count d is the floor of the millisecond difference over a day: d·86400000 ≤ to − from < (d+1)·86400000 |
| Biorhythm.LocalDay | lib/biorhythm-calculator.ts:95-96 | the calendar day compared by `toDateString` is the floor of the shifted instant over a day |
| Biorhythm.ShiftByDays | lib/biorhythm-calculator.ts:91-93 | moving an instant by i days moves its day count by exactly i |
| Biorhythm.CycleValues | lib/biorhythm-calculator.ts:60-69 | the three values are the wave at periods 23, 28 and 33, each within [-100, 100] |
| Biorhythm.CalculateBiorhythms | lib/biorhythm-calculator.ts:48-115 | the loop builds exactly the 31-point window; today, yesterday and selected values are those of the reference definitions |
| Biorhythm.Biorhythms | lib/biorhythm-calculator.ts:48-115 | the function form of the result: today's values at now, yesterday's at the day before the reference date, selected values present iff a date other than now is passed, and 31 chart points |
| Biorhythm.WindowAt | lib/biorhythm-calculator.ts:89-107 | the window has 31 entries and entry k is the point of offset k − 15 |
| Biorhythm.WindowShape | lib/biorhythm-calculator.ts:89-102 | entry k is at reference + (k−15) days with day count daysSinceBirthReference + k − 15; consecutive entries are one calendar day apart |
| Biorhythm.WindowDays | lib/biorhythm-calculator.ts:91-92 | the calendar day of entry k is the reference's day plus k − 15 |
| Biorhythm.WindowValuesAreDayValues | lib/biorhythm-calculator.ts:93-102 | each chart value is the cycle value of that entry's own day count from birth |
| Biorhythm.TodayFlagPosition | lib/biorhythm-calculator.ts:95 | entry k is flagged today iff k − 15 equals the day distance from the reference to now |
| Biorhythm.AtMostOneToday | lib/biorhythm-calculator.ts:90-96 | at most one entry is flagged today, and one is iff now lies within 15 days of the reference day |
| Biorhythm.SelectedFlagIsMiddle | lib/biorhythm-calculator.ts:96 | an entry is flagged selected iff a date was selected and it is the middle entry |
| Biorhythm.MiddleIsTodayWhenReferenceIsToday | lib/biorhythm-calculator.ts:90-96 | with no selection, or one on today's day, the middle entry is flagged today |
| Biorhythm.TodayIgnoresSelection | lib/biorhythm-calculator.ts:49-69 | today's values are the same for every selected date and use the current instant |
| Biorhythm.YesterdayIsBeforeReference | lib/biorhythm-calculator.ts:72-76 | yesterday's values use the reference day count minus one, not today's |
| Biorhythm.SelectedPresence | lib/biorhythm-calculator.ts:79-86 | selected values are present iff a date was passed whose millisecond timestamp differs from now, and then they are the reference day's values |
| Biorhythm.SameDayStillSelected | lib/biorhythm-calculator.ts:80-96 | a date one millisecond from now yields selected values while the middle entry is still flagged today |
| Biorhythm.DayCountSign | lib/biorhythm-calculator.ts:55-56 | the day count is negative iff the target precedes birth, and zero iff less than a day has passed |
| Biorhythm.BandOf | lib/biorhythm-calculator.ts:118-141 | the five bands are exactly v > 70, 30 < v ≤ 70, −30 < v ≤ 30, −70 < v ≤ −30, v ≤ −70 |
| Biorhythm.BandMonotone | lib/biorhythm-calculator.ts:118-141 | a larger value never falls in a lower band |
| Biorhythm.BandBoundaries | lib/biorhythm-calculator.ts:120-141 | the thresholds are strict: 70 is good, −70 needs care, and so on at each boundary |
| Biorhythm.DescriptionIsBandWording | lib/biorhythm-calculator.ts:118-144 | each cycle's if-chain gives the wording of the value's band: one classification for all three types |
| Biorhythm.Description | lib/biorhythm-calculator.ts:118-144 | the description is the wording of the value's band for its cycle |
| Biorhythm.WordingDeterminesBand | lib/biorhythm-calculator.ts:118-144 | within a cycle the five wordings are distinct |
| Biorhythm.TrendOf | lib/biorhythm-calculator.ts:146-149 | the trend is down iff yesterday is present, non-zero and greater than today |
| Biorhythm.ZeroYesterdayCountsAsAbsent | lib/biorhythm-calculator.ts:147 | a yesterday value of 0 gives "up" exactly as an absent one does |
| Biorhythm.GetBiorhythmState | lib/biorhythm-calculator.ts:151-167 | each cycle carries today's value unchanged, the description of its band and the trend against yesterday's value |
| Biorhythm.BirthDayScenario | lib/biorhythm-calculator.ts:48-168 | on the birth instant, with a wave that is 0 on day 0, every band is moderate and every trend up |
| PersonCard.CurrentData | pro-version/components/person-details-card.tsx:16-17 | today's view shows today's values; otherwise the selected-date values, or today's when those are absent |
| PersonCard.CardAgreesWithCalculator | pro-version/components/person-details-card.tsx:48-74 | the card's thresholds classify as the calculator's; the texts agree on every band but the last |
| PersonCard.CardDescription | pro-version/components/person-details-card.tsx:48-74 | the card's description is the card's wording of the value's band |
| PersonCard.Cycles | pro-version/components/person-details-card.tsx:19-44 | three rows in the order physical, emotional, intellectual, each with the shown value and the card's description |
| PersonCard.RoundThird | pro-version/components/person-details-card.tsx:46 | `Math.round(s/3)` is the nearest integer: 6r − 3 ≤ 2s < 6r + 3 |
| PersonCard.OverallScore | pro-version/components/person-details-card.tsx:46 | the rounded mean of the three values, within [-100, 100] when they are |
| PersonCard.TrendIcon | pro-version/components/person-details-card.tsx:108 | the icon is up iff the value is ≥ 0 |
| PersonCard.IconIgnoresYesterday | pro-version/components/person-details-card.tsx:108 | a falling positive value shows "up" where the calculator says "down", and the reverse below zero |
| Recommendations.GetRecommendations | components/recommendations-panel.tsx:14-58 | four cards in the order nutrition, exercise, creativity, emotional, each high iff its cycle's value is > 0 |
| Recommendations.ToLower | components/recommendations-panel.tsx:88 | lower-casing keeps the length and lowers each character |
| Recommendations.LookupEthnicity | components/recommendations-panel.tsx:88 | the entry whose key equals the lower-cased name, otherwise "otro" |
| Recommendations.UnknownFallsBackToOtro | components/recommendations-panel.tsx:88 | a name matching no key selects "otro" |
| Recommendations.LookupIgnoresCase | components/recommendations-panel.tsx:88 | "LATINO" and "Latino" select "latino"; "peruano" selects "otro" |
| Recommendations.CulturalRecommendation | components/recommendations-panel.tsx:88-90 | the looked-up entry, high variant iff the mean, hence the sum, of the three values is > 0 |
| Recommendations.CulturalCard | components/recommendations-panel.tsx:157 | the card is shown iff the ethnicity is present and non-empty, and then with the cultural text |
| MainPage.NatToString | app/page.tsx:85 | one digit below 10, two digits below 100 |
| MainPage.PadStart2 | app/page.tsx:85 | the result is at least two long, ends with the input, and every character before the input is '0' |
| MainPage.JsRemainder | app/page.tsx:84 | for a non-negative dividend the JavaScript remainder is the modulus |
| MainPage.FormatTimeShape | app/page.tsx:82-86 | below 6000 s the display is "MM:SS" with MM = s div 60 and SS = s mod 60, two digits each |
| MainPage.FormatTime | app/page.tsx:82-86 | below 6000 s the display is "MM:SS" with two-digit minutes s div 60 and seconds s mod 60; parsing it back gives s (FormatTimeRoundTrip) |
| MainPage.FormatTimeRoundTrip | app/page.tsx:82-86 | reading the display back as minutes and seconds gives the seconds |
| MainPage.FormatTimeExamples | app/page.tsx:82-86 | 600 s shows "10:00" and 0 s shows "00:00" |
| MainPage.MeditationTimer.constructor | app/page.tsx:65-66 | stopped with 600 seconds |
| MainPage.MeditationTimer.Settle | app/page.tsx:74-76 | a timer at zero stops; nothing else changes |
| MainPage.MeditationTimer.Tick | app/page.tsx:70-73 | while running, the count drops by exactly 1 and the timer stops on reaching 0; when stopped nothing changes |
| MainPage.MeditationTimer.Start | app/page.tsx:88-90 | toggles running and keeps the count; starting at zero is undone by the effect |
| MainPage.MeditationTimer.Reset | app/page.tsx:92-95 | from any state: stopped with 600 seconds |
| MainPage.RunDown | app/page.tsx:68-80 | a running timer stops after exactly as many ticks as it had seconds, showing "00:00" |
| MainPage.PageState | app/page.tsx:144 | each cycle carries today's value, the wording of that value's band, and the trend of today's value against yesterday's |
| MainPage.PageTrendAgainstDayBeforeSelection | app/page.tsx:144 | with the page's selected date, each cycle shows now's value and its trend compares it with the value on the day before the selected date |
| MainPage.PageScore | app/page.tsx:145-147 | the rounded mean of today's values, within [-100, 100] |
| MainPage.DetailedPlan | app/page.tsx:425-532 | each detailed tab takes its high-intensity variant iff its value is > 50 |
| MainPage.DetailedPlanUsesToday | app/page.tsx:144 | the tabs follow today's physical, intellectual and emotional values |
| PeopleManager.FirstUnused | pro-version/components/people-manager.tsx:33 | the index of the first palette colour missing from the used list, or none when all are used |
| PeopleManager.NextColor | pro-version/components/people-manager.tsx:31-34 | a palette colour: the first one used by nobody unless it is the empty string, otherwise palette[0]; with no empty colours, a used colour comes back exactly when all are used |
| PeopleManager.EditPeople | pro-version/components/people-manager.tsx:41-47 | the person with the edited id takes the form's three fields; ids, colours, positions and all other people stay |
| PeopleManager.RemovePerson | pro-version/components/people-manager.tsx:76-78 | a person remains iff it was there and has another id |
| PeopleManager.RemovePersonAppend | pro-version/components/people-manager.tsx:77 | deletion distributes over concatenation, so relative order is kept |
| PeopleManager.RemoveAbsentPerson | pro-version/components/people-manager.tsx:77 | deleting an id nobody has changes nothing |
| PeopleManager.RemoveId | pro-version/components/people-manager.tsx:122 | an id remains iff it was there and differs from the removed one |
| PeopleManager.RemoveIdAppend | pro-version/components/people-manager.tsx:122 | removal distributes over concatenation |
| PeopleManager.RemoveAbsentId | pro-version/components/people-manager.tsx:122 | removing an id that is not there changes nothing |
| PeopleManager.SetActive | pro-version/components/people-manager.tsx:118-123 | checking appends the id; unchecking removes every occurrence |
| PeopleManager.ToggleOnOff | pro-version/components/people-manager.tsx:118-123 | checking then unchecking an inactive person restores the list |
| PeopleManager.AgeYears | pro-version/components/people-manager.tsx:156 | the badge is the floor of the elapsed time over 365-day years |
| PeopleManager.Manager.constructor | pro-version/components/people-manager.tsx:22-29 | closed, empty form, not editing |
| PeopleManager.Manager.OpenAddForm | pro-version/components/people-manager.tsx:94-96 | only while the button is shown (form closed, below the cap); opens the form |
| PeopleManager.Manager.SetName | pro-version/components/people-manager.tsx:192 | only the form's name changes |
| PeopleManager.Manager.SetBirthDate | pro-version/components/people-manager.tsx:204 | only the form's birth date changes |
| PeopleManager.Manager.SetBirthPlace | pro-version/components/people-manager.tsx:215 | only the form's birth place changes |
| PeopleManager.Manager.Submit | pro-version/components/people-manager.tsx:36-64 | nothing changes without a name and birth date; an edit rewrites that person and leaves the form open; an add appends one person with the next colour and closes the form; the cap is not checked |
| PeopleManager.Manager.Edit | pro-version/components/people-manager.tsx:66-74 | the form is filled from the person and opened in edit mode |
| PeopleManager.Manager.Delete | pro-version/components/people-manager.tsx:76-78 | the people list becomes the filter; the active ids are untouched |
| PeopleManager.Manager.Cancel | pro-version/components/people-manager.tsx:80-84 | the form closes, empty, out of edit mode |
| PeopleManager.Manager.Toggle | pro-version/components/people-manager.tsx:118-123 | the active list becomes `SetActive` of the old one |
| PeopleManager.AddAfterEditPassesCap | pro-version/components/people-manager.tsx:41-60 | after an edit on a full list of three, the still-open form adds a fourth person |
| ProDashboard.InitialProfile | pro-version/pro-dashboard.tsx:60-66 | id "initial-user", colour "#fb7185", with the initial user's name, birth date and place |
| ProDashboard.Load | pro-version/pro-dashboard.tsx:44-73 | with no match on name and birth date the initial profile and id are prepended; otherwise the stored lists are used unchanged; afterwards the initial user always matches |
| ProDashboard.LoadIsIdempotent | pro-version/pro-dashboard.tsx:59-69 | loading the loaded lists again changes nothing |
| ProDashboard.MatchIgnoresIds | pro-version/pro-dashboard.tsx:59 | a stored person with another id but the same name and birth date blocks the insertion |
| ProDashboard.ActivePeople | pro-version/pro-dashboard.tsx:90 | a person is passed on iff stored and its id is active |
| ProDashboard.ActivePeopleAppend | pro-version/pro-dashboard.tsx:90 | the filter distributes over concatenation: stored order is kept |
| ProDashboard.AllActive | pro-version/pro-dashboard.tsx:90 | when every id is active the list is passed on unchanged |
| ProDashboard.CalculatorInput | pro-version/pro-dashboard.tsx:89-99 | no calculation iff either list is empty; otherwise the active filter |
| ProDashboard.StaleActiveIds | pro-version/pro-dashboard.tsx:89-90 | an active id that matches nobody passes the guard with an empty list |
| ProDashboard.ComparisonTab | pro-version/pro-dashboard.tsx:267-291 | the empty state iff 0 people, "need more" iff 1, the chart iff ≥ 2 |
| Onboarding.WithField | components/onboarding-flow.tsx:46-48 | the input's field is set and every other field is kept |
| Onboarding.ToProfile | components/onboarding-flow.tsx:32-33 | the completed profile carries the draft's fields, all required ones non-empty |
| Onboarding.Progress | components/onboarding-flow.tsx:44 | 25·(step+1): 25, 50, 75 or 100 |
| Onboarding.Wizard.constructor | components/onboarding-flow.tsx:18-19 | step 0 with an empty draft |
| Onboarding.Wizard.HandleNext | components/onboarding-flow.tsx:28-38 | below the last step it advances by one and never completes; at the last step it completes iff name, birth date, birth place and ethnicity are non-empty, without moving |
| Onboarding.Wizard.HandlePrevious | components/onboarding-flow.tsx:40-42 | a no-op at step 0, otherwise one step back |
| Onboarding.Wizard.InputChange | components/onboarding-flow.tsx:46-48 | the draft changes in the one field named by the input's id |
| Onboarding.Wizard.SelectChange | components/onboarding-flow.tsx:50-52 | only the ethnicity changes |
| Onboarding.WalkThrough | components/onboarding-flow.tsx:28-52 | filling the steps and pressing next four times yields exactly the entered profile |
| Onboarding.MissingEthnicityBlocks | components/onboarding-flow.tsx:31-36 | without an ethnicity the last step completes nothing and stays |
| DateSelector.DaysInMonth | components/ui/date-selector.tsx:24-26 | month lengths 28..31, February 29 days iff leap |
| DateSelector.NormalizeDay | components/ui/date-selector.tsx:42-44 | carrying the day yields a valid date with the same day number, and keeps a valid date unchanged |
| DateSelector.Normalize | components/ui/date-selector.tsx:29 | the month is carried into the year first; a valid date is kept |
| DateSelector.NewDate | components/ui/date-selector.tsx:29 | a valid date; years outside 0..99 are taken as given, and a year y in 0..99 is read as 1900 + y |
| DateSelector.Years | components/ui/date-selector.tsx:17-18 | ten consecutive years from currentYear − 5 to currentYear + 4 |
| DateSelector.DayZeroIsLastDay | components/ui/date-selector.tsx:25 | day 0 of the next month is the last day of this month |
| DateSelector.GetDaysInMonth | components/ui/date-selector.tsx:24-26 | the Gregorian length of the month |
| DateSelector.HandleDateChange | components/ui/date-selector.tsx:28-32 | a valid date, equal to the arguments when they form one |
| DateSelector.Next | components/ui/date-selector.tsx:39-47 | a valid date exactly one day number later |
| DateSelector.Prev | components/ui/date-selector.tsx:39-47 | a valid date exactly one day number earlier |
| DateSelector.NextCrossesBoundaries | components/ui/date-selector.tsx:43-44 | inside a month the day increments; at a month end the next month starts on day 1; December 31 goes to January 1 |
| DateSelector.DayNumberInjective | components/ui/date-selector.tsx:39-47 | on valid dates the day number determines the date |
| DateSelector.PrevNextInverse | components/ui/date-selector.tsx:39-47 | previous undoes next and next undoes previous |
| DateSelector.YearChange | components/ui/date-selector.tsx:104-107 | no clamping: the date is kept whenever the day exists in the new year |
| DateSelector.LeapDayYearChange | components/ui/date-selector.tsx:104-107 | February 29 moved to a common year becomes March 1 |
| DateSelector.MonthChange | components/ui/date-selector.tsx:126-131 | the same year and the new month, with the day clamped to the new month's length |
| DateSelector.DayGrid | components/ui/date-selector.tsx:150-160 | buttons 1..daysInMonth in order, exactly the current day highlighted |
| TranslationsProvider.Split | lib/translations-provider.tsx:124 | at least one piece, no piece holds the separator, and joining the pieces gives the key back |
| TranslationsProvider.SplitJoin | lib/translations-provider.tsx:124 | splitting undoes joining separator-free pieces |
| TranslationsProvider.SplitNoSeparator | lib/translations-provider.tsx:124 | a key without dots is a single segment |
| TranslationsProvider.FallbackOrKey | lib/translations-provider.tsx:136 | the non-empty fallback, otherwise the key |
| TranslationsProvider.GuardGivesFallbackOrKey | lib/translations-provider.tsx:119-122 | while loading or with an empty table the result is the non-empty fallback or the key |
| TranslationsProvider.FoundPathGivesLeaf | lib/translations-provider.tsx:124-136 | a path that exists to a string yields that string |
| TranslationsProvider.MissingPathGivesFallbackOrKey | lib/translations-provider.tsx:128-136 | a missing segment or a non-string final value yields `fallback || key` |
| TranslationsProvider.ResultIsLeafFallbackOrKey | lib/translations-provider.tsx:117-139 | the result is a string of the table, the fallback or the key |
| TranslationsProvider.EmptyTableResolvesNothing | lib/translations-provider.tsx:119 | a table with no keys holds nothing at any path |
| TranslationsProvider.GuardInvisibleWhenLoaded | lib/translations-provider.tsx:119-136 | once loaded the guard changes nothing |
| TranslationsProvider.WalkTable | lib/translations-provider.tsx:124-136 | the loop with its early exit computes the walk of the reference definition |
| TranslationsProvider.ParseLanguage | lib/translations-provider.tsx:7-14 | a string is a language code iff it names one of the six languages |
| TranslationsProvider.ParseCode | lib/translations-provider.tsx:7-14 | every language's code parses back to it |
| TranslationsProvider.AdoptSaved | lib/translations-provider.tsx:55-58 | a saved language is adopted iff it is one of the six codes and not "es" |
| TranslationsProvider.Provider.constructor | lib/translations-provider.tsx:33-35 | Spanish, an empty table, not loading |
| TranslationsProvider.Provider.BeginInitialLoad | lib/translations-provider.tsx:40 | loading starts; nothing else changes |
| TranslationsProvider.Provider.FinishInitialLoad | lib/translations-provider.tsx:41-69 | the loaded table, or the fallback table on failure; the saved language only after a success; loading ends |
| TranslationsProvider.Provider.ChangeLanguage | lib/translations-provider.tsx:109-114 | the language switches at once; table and loading flag stay |
| TranslationsProvider.Provider.T | lib/translations-provider.tsx:117-139 | the guard and the loop compute `Translate` of the current state |
| TranslationsProvider.Translate | lib/translations-provider.tsx:117-139 | while loading the result is `fallback \|\| key`; with an empty table it is the key or the fallback; loaded with a non-empty table it is the walk's result |
| TranslationsProvider.ResolveOr | lib/translations-provider.tsx:124-138 | a path that ends at a string gives that string; otherwise the non-empty fallback or the key |
| TranslationsProvider.Resolve | lib/translations-provider.tsx:127-134 | the walk finds nothing in a non-object, in an empty object, or past a string |
| TranslationsProvider.FallbackTableTranslates | lib/translations-provider.tsx:60-66 | after a failed load "welcome.title" still gives "¡Bienvenido a RitmoVital!" |
| TranslationsProvider.FallbackTableLacks | lib/translations-provider.tsx:60-66 | after a failed load a missing key gives the key itself |
| UseTranslations.InitialLanguage | lib/use-translations.ts:28-39 | a valid saved code is taken; a missing or invalid one gives "es" |
| UseTranslations.SameSavedLanguage | lib/use-translations.ts:29-37 | from the same saved value the hook and the provider settle on the same language |
| UseTranslations.Hook.constructor | lib/use-translations.ts:23-25 | Spanish, an empty table, loading |
| UseTranslations.Hook.Mount | lib/use-translations.ts:28-39 | the language becomes the initial language; table and flag stay |
| UseTranslations.Hook.T | lib/use-translations.ts:93-106 | the loop computes the walk without any loading guard |
| UseTranslations.EmptyHookTable | lib/use-translations.ts:93-106 | with an empty table every key yields `fallback || key` |
| UseTranslations.AgreesWithProvider | lib/use-translations.ts:93-106 | once loaded, the hook's walk and the provider's `t` agree |
| UseTranslations.LoadingDiffers | lib/use-translations.ts:93-106 | while flagged as loading the provider gives the key where the hook already gives the entry |
| SimpleTranslations.Get | lib/simple-translations.tsx:145 | a value is found iff some entry has the text as its key, and then it is that entry's value |
| SimpleTranslations.TemplatePrefix | lib/simple-translations.tsx:151 | the part before the first '{': brace-free and a prefix of the key |
| SimpleTranslations.FirstTemplate | lib/simple-translations.tsx:150-154 | the first entry, in insertion order, whose key matches as a template |
| SimpleTranslations.SpanishIsIdentity | lib/simple-translations.tsx:139 | in Spanish the text comes back unchanged |
| SimpleTranslations.ExactMatchWins | lib/simple-translations.tsx:145-147 | a key with a non-empty value translates to it |
| SimpleTranslations.FirstTemplateWins | lib/simple-translations.tsx:150-154 | otherwise the first template match gives its value verbatim |
| SimpleTranslations.NoMatchIsIdentity | lib/simple-translations.tsx:156 | with no exact or template match the text is returned |
| SimpleTranslations.GreetingExample | lib/simple-translations.tsx:150-154 | in English a text starting "¡Hola, " becomes "Hello, {name}!" with the placeholder kept |
| SimpleTranslations.AdoptSaved | lib/simple-translations.tsx:122-129 | a saved language is adopted iff it is "es", "en" or "ru" |
| SimpleTranslations.SimpleProvider.constructor | lib/simple-translations.tsx:120 | starts in Spanish |
| SimpleTranslations.SimpleProvider.Mount | lib/simple-translations.tsx:122-129 | an accepted saved language is taken; otherwise the language stays |
| SimpleTranslations.SimpleProvider.ChangeLanguage | lib/simple-translations.tsx:131-136 | the language switches |
| SimpleTranslations.SimpleProvider.T | lib/simple-translations.tsx:138-157 | the early returns and the template loop compute `Translate` |
| SimpleTranslations.Translate | lib/simple-translations.tsx:138-157 | Spanish returns the text; a non-empty exact entry wins; otherwise the result is the text or the value of some entry |
| GlobalTranslator.Utf16Length | lib/global-translator.tsx:105 | the length in code units lies between the number of characters and twice that |
| GlobalTranslator.Trim | lib/global-translator.tsx:27 | the part between the leading and trailing white space; it neither starts nor ends with white space |
| GlobalTranslator.TrimIdempotent | lib/global-translator.tsx:27 | trimming twice equals trimming once |
| GlobalTranslator.ShouldTranslateIff | lib/global-translator.tsx:94-115 | a text is translated iff it is not a number or percentage, not a d/m/yyyy date, not starting with "http", at least 3 long, not only symbols, and free of the proper nouns |
| GlobalTranslator.ShouldTranslate | lib/global-translator.tsx:94-115 | the if-chain of rejections; its meaning is stated by ShouldTranslateIff, AcceptedTextHasWords and RejectionExamples |
| GlobalTranslator.AcceptedTextHasWords | lib/global-translator.tsx:105-108 | an accepted text is at least three code units long and holds a word or space character |
| GlobalTranslator.RejectionExamples | lib/global-translator.tsx:96-112 | "75%", "12/05/2024", "https://…", "¡¿?" and "RitmoVital Pro" are rejected |
| GlobalTranslator.AstralSymbolsByLength | lib/global-translator.tsx:105-108 | two emoji are four code units long and are rejected as symbols |
| GlobalTranslator.LowerCaseTextIsTranslated | lib/global-translator.tsx:94-115 | a text of three or more characters, starting with a lower-case letter other than 'h' and without capitals, is translated |
| GlobalTranslator.NewContent | lib/global-translator.tsx:27-36 | a node is replaced only when its trimmed text should be translated and the translation differs, and then by that translation |
| GlobalTranslator.CallerGuardIsSubsumed | lib/global-translator.tsx:28 | the caller's length guard never rejects a text that the predicate accepts |
| GlobalTranslator.TranslateNodes | lib/global-translator.tsx:16-41 | nothing changes in Spanish; otherwise each node gets its new content or keeps its old one |

## Left out

- The sine itself (`Math.sin`, `Math.PI`, `Math.round` on reals): it is the parameter `wave`, assumed only to lie in [-100, 100].
- Locale formatting (`toLocaleDateString`) and daylight-saving time: a calendar day is the floor of the instant shifted by one fixed offset.
- The clock (`new Date()`, `Date.now()`) and new person ids: they are parameters.
- `localStorage`: it is read as parameters, and its writes are not modelled. This includes the hook writing "es" back and `changeLanguage` storing the choice.
- `fetch` of locale files: the initial load's outcome is a parameter of `FinishInitialLoad`.
- The provider's and the hook's effects that load other languages on a change, and their module-level caches: these are network I/O.
- lib/auto-translator.ts: the translator is a function parameter that answers `None` on failure.
- MainPage.MeditationTimer: one mounted instance. The source declares the timer component inside the page component, so every re-render of the page, such as the one a date change causes, mounts a fresh timer, stopped at 600 seconds. That reset is not modelled.
- Timers and the DOM: `setInterval`/`setTimeout`, the TreeWalker and `getTextNodes`, `alert`. Ticks and handler calls are explicit method calls, and the text nodes are a sequence of strings.
- JSON arrays in translation tables, and prototype keys such as "toString": on the walk those keys reach a function value, which behaves like a missing entry. In the flat dictionary `translations["toString"]` would return a function, and that is not modelled.
- The order `Object.entries` gives to integer-like keys: a dictionary is its list of entries in insertion order.
- The time of day of the selected date in the date selector, and `goToToday` (`onDateChange(new Date())`), which only passes on the clock.
- DayZeroIsLastDay, GetDaysInMonth, MonthChange and DayGrid: they are stated for years outside 0..99. `new Date(y, m, d)` maps those years to 1900 + y, which `NewDate` models.
- Text tables and recommendation prose: strings are opaque, and only which one is chosen is modelled. The English and Russian dictionaries are parameters, except their first three entries.
- The multi-person calculator, `generateCombinedRecommendations` and `PERSON_COLORS`: they live in files that are not part of this model. The palette is a parameter.
- Rendering-only components: the charts, layouts, skeleton, language selectors, checkbox and wrappers.
- Recommendations.LookupEthnicity: the cultural table is a plain object, so a name such as "constructor" or "__proto__" finds an inherited value whose texts are undefined. The model gives "otro", and the profile form offers only the table's own keys.
- Recommendations.ToLower: `toLowerCase` is modelled on ASCII letters only, because every key of the cultural table is plain ASCII.
