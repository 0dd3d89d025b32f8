/**
 * pro-version/components/people-manager.tsx: the list of compared people, the
 * add/edit form and the active-id toggles. The list updates are pure functions;
 * the component's state and its handlers are the class `Manager`.
 */
module PeopleManager {
  import opened Common
  import Biorhythm

  /** A stored person (`ProUserProfile`); dates are kept as the form's strings. */
  datatype Person = Person(id: string, name: string, birthDate: string, birthPlace: string, color: string)

  /** The add/edit form's three fields. */
  datatype Form = Form(name: string, birthDate: string, birthPlace: string)

  const EmptyForm: Form := Form("", "", "")

  /** The default and the pro dashboard's value of `maxPeople`. */
  const MaxPeople: int := 3

  /** The id of the dashboard's initial user, whose delete button is disabled. */
  const InitialId: string := "initial-user"

  /** `PERSON_COLORS`, defined outside this model; only its being non-empty is relied on. */
  type Palette = s: seq<string> | |s| > 0 witness ["#000000"]

  /** `people.map(p => p.color)`. */
  function Colors(people: seq<Person>): seq<string>
  {
    seq(|people|, k requires 0 <= k < |people| => people[k].color)
  }

  /** The position of the first colour of `palette` missing from `used`, if there is one. */
  function FirstUnused(palette: seq<string>, used: seq<string>): (r: Option<nat>)
    ensures r.Some? ==> r.value < |palette| && palette[r.value] !in used
    ensures r.Some? ==> forall j | 0 <= j < r.value :: palette[j] in used
    ensures r.None? ==> forall j | 0 <= j < |palette| :: palette[j] in used
  {
    if palette == [] then None
    else if palette[0] !in used then Some(0)
    else match FirstUnused(palette[1..], used)
      case None => None
      case Some(k) => Some(k + 1)
  }

  /**
   * `getNextColor`: the first palette colour no current person uses, or the first colour when all are used. The
   * `|| PERSON_COLORS[0]` also replaces a found colour that is the empty string.
   */
  function NextColor(people: seq<Person>, palette: Palette): (c: string)
    ensures c in palette
    ensures forall i | 0 <= i < |palette| ::
      (palette[i] !in Colors(people) && (forall j | 0 <= j < i :: palette[j] in Colors(people)))
      ==> c == (if palette[i] != "" then palette[i] else palette[0])
    ensures (forall j | 0 <= j < |palette| :: palette[j] in Colors(people)) ==> c == palette[0]
    ensures c != palette[0] ==> c != "" && c !in Colors(people)
    ensures (forall j | 0 <= j < |palette| :: palette[j] != "") ==>
      (c in Colors(people) <==> forall j | 0 <= j < |palette| :: palette[j] in Colors(people))
  {
    var used := Colors(people);
    match FirstUnused(palette, used)
    case Some(i) =>
      assert forall k | 0 <= k < |palette| && palette[k] !in used
        && (forall j | 0 <= j < k :: palette[j] in used) :: k == i;
      if palette[i] != "" then palette[i] else palette[0]
    case None => palette[0]
  }

  /** The edit branch's `map`: the person with the edited id takes the form's fields; ids, colours and positions stay. */
  function EditPeople(people: seq<Person>, id: string, form: Form): (r: seq<Person>)
    ensures |r| == |people|
    ensures forall k | 0 <= k < |r| :: r[k].id == people[k].id && r[k].color == people[k].color
    ensures forall k | 0 <= k < |r| :: people[k].id == id ==>
      r[k].name == form.name && r[k].birthDate == form.birthDate && r[k].birthPlace == form.birthPlace
    ensures forall k | 0 <= k < |r| :: people[k].id != id ==> r[k] == people[k]
  {
    if people == [] then []
    else
      var p := people[0];
      var head := if p.id == id then p.(name := form.name, birthDate := form.birthDate, birthPlace := form.birthPlace) else p;
      [head] + EditPeople(people[1..], id, form)
  }

  /** `handleDelete`'s `filter`: every person with the id goes, the others keep their order. */
  function RemovePerson(people: seq<Person>, id: string): (r: seq<Person>)
    ensures |r| <= |people|
    ensures forall p :: p in r <==> p in people && p.id != id
  {
    if people == [] then []
    else if people[0].id == id then RemovePerson(people[1..], id)
    else [people[0]] + RemovePerson(people[1..], id)
  }

  /** Deleting keeps the relative order: it distributes over concatenation. */
  lemma {:induction false} RemovePersonAppend(a: seq<Person>, b: seq<Person>, id: string)
    ensures RemovePerson(a + b, id) == RemovePerson(a, id) + RemovePerson(b, id)
    decreases |a|
  {
    if a == [] {
      assert a + b == b;
    } else {
      assert (a + b)[1..] == a[1..] + b;
      RemovePersonAppend(a[1..], b, id);
    }
  }

  /** Deleting an id nobody has leaves the list exactly as it was. */
  lemma {:induction false} RemoveAbsentPerson(people: seq<Person>, id: string)
    requires forall k | 0 <= k < |people| :: people[k].id != id
    ensures RemovePerson(people, id) == people
    decreases |people|
  {
    if people != [] {
      RemoveAbsentPerson(people[1..], id);
    }
  }

  /** `activePeople.filter(x => x !== id)`. */
  function RemoveId(ids: seq<string>, id: string): (r: seq<string>)
    ensures |r| <= |ids|
    ensures forall x :: x in r <==> x in ids && x != id
  {
    if ids == [] then []
    else if ids[0] == id then RemoveId(ids[1..], id)
    else [ids[0]] + RemoveId(ids[1..], id)
  }

  lemma {:induction false} RemoveIdAppend(a: seq<string>, b: seq<string>, id: string)
    ensures RemoveId(a + b, id) == RemoveId(a, id) + RemoveId(b, id)
    decreases |a|
  {
    if a == [] {
      assert a + b == b;
    } else {
      assert (a + b)[1..] == a[1..] + b;
      RemoveIdAppend(a[1..], b, id);
    }
  }

  lemma {:induction false} RemoveAbsentId(ids: seq<string>, id: string)
    requires id !in ids
    ensures RemoveId(ids, id) == ids
    decreases |ids|
  {
    if ids != [] {
      RemoveAbsentId(ids[1..], id);
    }
  }

  /** The checkbox handler: checking appends the id, unchecking removes every occurrence of it. */
  function SetActive(active: seq<string>, id: string, checked: bool): (r: seq<string>)
    ensures checked ==> r == active + [id]
    ensures !checked ==> forall x :: x in r <==> x in active && x != id
  {
    if checked then active + [id] else RemoveId(active, id)
  }

  /** Checking and then unchecking a person who was not active restores the active list exactly. */
  lemma {:induction false} ToggleOnOff(active: seq<string>, id: string)
    requires id !in active
    ensures SetActive(SetActive(active, id, true), id, false) == active
  {
    RemoveIdAppend(active, [id], id);
    RemoveAbsentId(active, id);
    assert RemoveId([id], id) == [];
  }

  /** The "Agregar" button is rendered only while the form is closed and the list is below the cap. */
  predicate AddButtonShown(isAdding: bool, count: int, maxPeople: int)
  {
    !isAdding && count < maxPeople
  }

  /** The delete button is disabled for the initial user only. */
  predicate DeleteEnabled(p: Person)
  {
    p.id != InitialId
  }

  /** The age badge: whole 365-day years between birth and now, by floor division. */
  function AgeYears(nowMs: int, birthMs: int): (years: int)
    ensures years * 365 * Biorhythm.MsPerDay <= nowMs - birthMs < (years + 1) * 365 * Biorhythm.MsPerDay
  {
    (nowMs - birthMs) / 31_536_000_000
  }

  /** `if (editingId)`: a present, non-empty id selects the edit branch. */
  predicate Truthy(editingId: Option<string>)
  {
    editingId.Some? && editingId.value != ""
  }

  /** The component state together with the two lists it edits through its callbacks. */
  class Manager {
    var people: seq<Person>
    var active: seq<string>
    var isAdding: bool
    var editingId: Option<string>
    var form: Form

    constructor (people0: seq<Person>, active0: seq<string>)
      ensures people == people0 && active == active0
      ensures !isAdding && editingId == None && form == EmptyForm
    {
      people := people0;
      active := active0;
      isAdding := false;
      editingId := None;
      form := EmptyForm;
    }

    /** The "Agregar" button's click, possible only while it is shown. */
    method OpenAddForm()
      requires AddButtonShown(isAdding, |people|, MaxPeople)
      modifies this
      ensures isAdding
      ensures people == old(people) && active == old(active) && editingId == old(editingId) && form == old(form)
    {
      isAdding := true;
    }

    method SetName(v: string)
      modifies this
      ensures form == old(form).(name := v)
      ensures people == old(people) && active == old(active) && isAdding == old(isAdding) && editingId == old(editingId)
    {
      form := form.(name := v);
    }

    method SetBirthDate(v: string)
      modifies this
      ensures form == old(form).(birthDate := v)
      ensures people == old(people) && active == old(active) && isAdding == old(isAdding) && editingId == old(editingId)
    {
      form := form.(birthDate := v);
    }

    method SetBirthPlace(v: string)
      modifies this
      ensures form == old(form).(birthPlace := v)
      ensures people == old(people) && active == old(active) && isAdding == old(isAdding) && editingId == old(editingId)
    {
      form := form.(birthPlace := v);
    }

    /**
     * `handleSubmit` with `newId` standing for `Date.now().toString()`: nothing happens without a name and a
     * birth date; the edit branch rewrites the edited person and leaves the form open; the add branch appends
     * one person with the next colour and closes the form. The cap is not checked here.
     */
    method Submit(newId: string, palette: Palette)
      modifies this
      ensures active == old(active)
      ensures old(form.name) == "" || old(form.birthDate) == "" ==>
        people == old(people) && isAdding == old(isAdding) && editingId == old(editingId) && form == old(form)
      ensures old(form.name) != "" && old(form.birthDate) != "" && Truthy(old(editingId)) ==>
        people == EditPeople(old(people), old(editingId).value, old(form)) && isAdding == old(isAdding)
        && editingId == None && form == EmptyForm
      ensures old(form.name) != "" && old(form.birthDate) != "" && !Truthy(old(editingId)) ==>
        people == old(people) + [Person(newId, old(form.name), old(form.birthDate), old(form.birthPlace), NextColor(old(people), palette))]
        && !isAdding && editingId == old(editingId) && form == EmptyForm
    {
      if form.name == "" || form.birthDate == "" {
        return;
      }
      if Truthy(editingId) {
        people := EditPeople(people, editingId.value, form);
        editingId := None;
      } else {
        var newPerson := Person(newId, form.name, form.birthDate, form.birthPlace, NextColor(people, palette));
        people := people + [newPerson];
        isAdding := false;
      }
      form := EmptyForm;
    }

    /** `handleEdit`: the form is filled from the person and opened in edit mode. */
    method Edit(p: Person)
      modifies this
      ensures form == Form(p.name, p.birthDate, p.birthPlace) && editingId == Some(p.id) && isAdding
      ensures people == old(people) && active == old(active)
    {
      form := Form(p.name, p.birthDate, p.birthPlace);
      editingId := Some(p.id);
      isAdding := true;
    }

    /** `handleDelete`: the person goes from the list; the active ids are not touched. */
    method Delete(id: string)
      modifies this
      ensures people == RemovePerson(old(people), id)
      ensures active == old(active) && isAdding == old(isAdding) && editingId == old(editingId) && form == old(form)
    {
      people := RemovePerson(people, id);
    }

    /** `handleCancel`: the form closes, empty and out of edit mode. */
    method Cancel()
      modifies this
      ensures !isAdding && editingId == None && form == EmptyForm
      ensures people == old(people) && active == old(active)
    {
      isAdding := false;
      editingId := None;
      form := EmptyForm;
    }

    /** A checkbox change on the row of the person with `id`. */
    method Toggle(id: string, checked: bool)
      modifies this
      ensures active == SetActive(old(active), id, checked)
      ensures people == old(people) && isAdding == old(isAdding) && editingId == old(editingId) && form == old(form)
    {
      active := SetActive(active, id, checked);
    }
  }

  /**
   * The cap is kept only by hiding the add button: after an edit the form stays open in add mode, so a
   * fourth person can be added to a full list of three.
   */
  method AddAfterEditPassesCap(palette: Palette) returns (count: int)
    ensures count == MaxPeople + 1
  {
    var a := Person("1", "Ana", "1990-01-01", "", palette[0]);
    var b := Person("2", "Luis", "1985-05-05", "", palette[0]);
    var c := Person("3", "Eva", "2000-10-10", "", palette[0]);
    var m := new Manager([a, b, c], ["1", "2", "3"]);
    assert !AddButtonShown(m.isAdding, |m.people|, MaxPeople);
    m.Edit(a);
    m.Submit("4", palette);
    assert |m.people| == 3 && m.isAdding && m.editingId == None;
    m.SetName("Sara");
    m.SetBirthDate("1995-03-03");
    m.Submit("5", palette);
    count := |m.people|;
  }
}
