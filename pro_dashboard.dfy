/**
 * pro-version/pro-dashboard.tsx: the load effect that merges the initial user
 * into the stored lists, the selection of the people handed to the
 * multi-person calculator, and the comparison tab's case split.
 */
module ProDashboard {
  import opened Common
  import opened PeopleManager

  /** The `initialUser` prop. */
  datatype InitialUser = InitialUser(name: string, birthDate: string, birthPlace: string)

  /** The initial user's fixed colour. */
  const InitialColor: string := "#fb7185"

  /** The two lists the load effect hands to the state setters. */
  datatype Loaded = Loaded(people: seq<Person>, active: seq<string>)

  /** The `find` test: same name and same birth date; ids are not compared. */
  predicate Matches(p: Person, u: InitialUser)
  {
    p.name == u.name && p.birthDate == u.birthDate
  }

  predicate HasMatch(people: seq<Person>, u: InitialUser)
  {
    exists k | 0 <= k < |people| :: Matches(people[k], u)
  }

  function InitialProfile(u: InitialUser): (p: Person)
    ensures p.id == InitialId && p.color == InitialColor && Matches(p, u) && p.birthPlace == u.birthPlace
  {
    Person(InitialId, u.name, u.birthDate, u.birthPlace, InitialColor)
  }

  /**
   * The load effect on the stored lists: an initial user nobody stored matches goes in front of both lists;
   * otherwise both lists are kept as stored.
   */
  function Load(stored: seq<Person>, storedActive: seq<string>, initial: Option<InitialUser>): (r: Loaded)
    ensures initial.Some? && !HasMatch(stored, initial.value) ==>
      r.people == [InitialProfile(initial.value)] + stored && r.active == [InitialId] + storedActive
    ensures initial.None? || HasMatch(stored, initial.value) ==> r.people == stored && r.active == storedActive
    ensures initial.Some? ==> HasMatch(r.people, initial.value)
  {
    if initial.Some? && !HasMatch(stored, initial.value) then
      var people := [InitialProfile(initial.value)] + stored;
      assert Matches(people[0], initial.value);
      Loaded(people, [InitialId] + storedActive)
    else Loaded(stored, storedActive)
  }

  /** Loading again what a load produced (the effect re-running on saved data) changes nothing. */
  lemma {:induction false} LoadIsIdempotent(stored: seq<Person>, storedActive: seq<string>, initial: Option<InitialUser>)
    ensures Load(Load(stored, storedActive, initial).people, Load(stored, storedActive, initial).active, initial)
         == Load(stored, storedActive, initial)
  {
  }

  /** A stored person with another id but the same name and birth date blocks the insertion. */
  lemma {:induction false} MatchIgnoresIds(u: InitialUser)
    ensures Load([Person("42", u.name, u.birthDate, "", "#000")], [], Some(u)).active == []
  {
    var stored := [Person("42", u.name, u.birthDate, "", "#000")];
    assert Matches(stored[0], u);
  }

  /** `people.filter(person => activePeople.includes(person.id))`. */
  function ActivePeople(people: seq<Person>, active: seq<string>): (r: seq<Person>)
    ensures |r| <= |people|
    ensures forall p :: p in r <==> p in people && p.id in active
  {
    if people == [] then []
    else if people[0].id in active then [people[0]] + ActivePeople(people[1..], active)
    else ActivePeople(people[1..], active)
  }

  /** The filter keeps the stored order: it distributes over concatenation. */
  lemma {:induction false} ActivePeopleAppend(a: seq<Person>, b: seq<Person>, active: seq<string>)
    ensures ActivePeople(a + b, active) == ActivePeople(a, active) + ActivePeople(b, active)
    decreases |a|
  {
    if a == [] {
      assert a + b == b;
    } else {
      assert (a + b)[1..] == a[1..] + b;
      ActivePeopleAppend(a[1..], b, active);
    }
  }

  /** When every stored person is active the calculator sees the whole list, unchanged. */
  lemma {:induction false} AllActive(people: seq<Person>, active: seq<string>)
    requires forall k | 0 <= k < |people| :: people[k].id in active
    ensures ActivePeople(people, active) == people
    decreases |people|
  {
    if people != [] {
      AllActive(people[1..], active);
    }
  }

  /** The calculation effect's guard: no calculation (no data, no recommendations) unless both lists are non-empty. */
  function CalculatorInput(people: seq<Person>, active: seq<string>): (r: Option<seq<Person>>)
    ensures r.None? <==> |people| == 0 || |active| == 0
    ensures r.Some? ==> r.value == ActivePeople(people, active)
  {
    if |people| > 0 && |active| > 0 then Some(ActivePeople(people, active)) else None
  }

  /** Active ids that match nobody still pass the guard, and the calculator receives an empty list. */
  lemma {:induction false} StaleActiveIds(p: Person)
    requires p.id != "gone"
    ensures CalculatorInput([p], ["gone"]) == Some([])
  {
  }

  /** What the comparison tab renders. */
  datatype ComparisonView = NoPeople | NeedMorePeople | Chart

  function ComparisonTab(count: nat): (v: ComparisonView)
    ensures v == NoPeople <==> count == 0
    ensures v == NeedMorePeople <==> count == 1
    ensures v == Chart <==> count >= 2
  {
    if count == 0 then NoPeople else if count == 1 then NeedMorePeople else Chart
  }
}
