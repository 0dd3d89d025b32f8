/**
 * components/onboarding-flow.tsx: the four-step wizard that collects the user
 * profile. `step` and the partial profile are the fields of `Wizard`; the
 * `alert` on an incomplete profile is an output that is not modelled.
 */
module Onboarding {
  import opened Common
  import opened Biorhythm

  /** The number of entries of `steps`. */
  const StepCount: int := 4

  /** `Partial<UserProfile>`: every field may be missing. */
  datatype Draft = Draft(
    name: Option<string>,
    birthDate: Option<string>,
    birthTime: Option<string>,
    birthPlace: Option<string>,
    ethnicity: Option<string>)

  const EmptyDraft: Draft := Draft(None, None, None, None, None)

  /** The ids of the inputs that `handleInputChange` writes through `e.target.id`. */
  datatype Field = NameField | BirthDateField | BirthTimeField | BirthPlaceField

  function FieldOf(d: Draft, f: Field): Option<string>
  {
    match f
    case NameField => d.name
    case BirthDateField => d.birthDate
    case BirthTimeField => d.birthTime
    case BirthPlaceField => d.birthPlace
  }

  /** `{ ...profile, [id]: value }`: the one field is set and every other field is kept. */
  function WithField(d: Draft, f: Field, v: string): (r: Draft)
    ensures FieldOf(r, f) == Some(v)
    ensures forall g: Field :: g != f ==> FieldOf(r, g) == FieldOf(d, g)
    ensures r.ethnicity == d.ethnicity
  {
    match f
    case NameField => d.(name := Some(v))
    case BirthDateField => d.(birthDate := Some(v))
    case BirthTimeField => d.(birthTime := Some(v))
    case BirthPlaceField => d.(birthPlace := Some(v))
  }

  predicate Filled(o: Option<string>)
  {
    o.Some? && o.value != ""
  }

  /** The completion test: name, birth date, birth place and ethnicity are all present and non-empty. */
  predicate Complete(d: Draft)
  {
    Filled(d.name) && Filled(d.birthDate) && Filled(d.birthPlace) && Filled(d.ethnicity)
  }

  /** `profile as UserProfile` on a complete draft; the birth time stays optional. */
  function ToProfile(d: Draft): (p: UserProfile)
    requires Complete(d)
    ensures p.name == d.name.value && p.birthDate == d.birthDate.value && p.birthPlace == d.birthPlace.value
    ensures p.birthTime == d.birthTime && p.ethnicity == d.ethnicity
    ensures p.name != "" && p.birthDate != "" && p.birthPlace != "" && p.ethnicity.Some? && p.ethnicity.value != ""
  {
    UserProfile(d.name.value, d.birthDate.value, d.birthTime, d.birthPlace.value, d.ethnicity)
  }

  /** `progress`: ((step + 1) / 4) * 100, exactly 25, 50, 75 or 100 on the four steps. */
  function Progress(step: int): (pct: int)
    requires 0 <= step < StepCount
    ensures pct == 25 * (step + 1)
    ensures pct in {25, 50, 75, 100}
  {
    (step + 1) * 100 / StepCount
  }

  class Wizard {
    var step: int
    var draft: Draft

    /** The step indexes an entry of `steps`. */
    ghost predicate Valid()
      reads this
    {
      0 <= step < StepCount
    }

    constructor ()
      ensures Valid() && step == 0 && draft == EmptyDraft
    {
      step := 0;
      draft := EmptyDraft;
    }

    /**
     * `handleNext`: before the last step it advances by one and never completes; on the last step it hands
     * over the profile when it is complete and otherwise stays where it is.
     */
    method HandleNext() returns (completed: Option<UserProfile>)
      requires Valid()
      modifies this
      ensures Valid() && draft == old(draft)
      ensures old(step) < StepCount - 1 ==> step == old(step) + 1 && completed.None?
      ensures old(step) == StepCount - 1 ==> step == old(step)
      ensures completed.Some? <==> old(step) == StepCount - 1 && Complete(draft)
      ensures completed.Some? ==> Complete(draft) && completed.value == ToProfile(draft)
    {
      if step < StepCount - 1 {
        step := step + 1;
        completed := None;
      } else if Complete(draft) {
        completed := Some(ToProfile(draft));
      } else {
        completed := None;
      }
    }

    /** `handlePrevious`: a no-op on the first step, one step back otherwise. */
    method HandlePrevious()
      requires Valid()
      modifies this
      ensures Valid() && draft == old(draft)
      ensures step == if old(step) > 0 then old(step) - 1 else 0
    {
      if step > 0 {
        step := step - 1;
      }
    }

    /** `handleInputChange` for the input whose id is `f`. */
    method InputChange(f: Field, v: string)
      modifies this
      ensures step == old(step)
      ensures draft == WithField(old(draft), f, v)
    {
      draft := WithField(draft, f, v);
    }

    /** `handleSelectChange`: only the ethnicity changes. */
    method SelectChange(v: string)
      modifies this
      ensures step == old(step)
      ensures draft == old(draft).(ethnicity := Some(v))
    {
      draft := draft.(ethnicity := Some(v));
    }
  }

  /** Filling every step and pressing "Siguiente" three times and "Comenzar" once yields exactly the entered profile. */
  method WalkThrough(name: string, birthDate: string, birthPlace: string, ethnicity: string)
    returns (profile: Option<UserProfile>)
    requires name != "" && birthDate != "" && birthPlace != "" && ethnicity != ""
    ensures profile == Some(UserProfile(name, birthDate, None, birthPlace, Some(ethnicity)))
  {
    var w := new Wizard();
    var done := w.HandleNext();
    w.InputChange(NameField, name);
    done := w.HandleNext();
    w.InputChange(BirthDateField, birthDate);
    done := w.HandleNext();
    w.InputChange(BirthPlaceField, birthPlace);
    w.SelectChange(ethnicity);
    assert w.step == StepCount - 1;
    assert w.draft == Draft(Some(name), Some(birthDate), None, Some(birthPlace), Some(ethnicity));
    profile := w.HandleNext();
  }

  /** Pressing "Comenzar" without an ethnicity completes nothing and stays on the last step. */
  method MissingEthnicityBlocks(name: string, birthDate: string, birthPlace: string)
    returns (profile: Option<UserProfile>, step: int)
    ensures profile.None? && step == StepCount - 1
  {
    var w := new Wizard();
    var done := w.HandleNext();
    w.InputChange(NameField, name);
    done := w.HandleNext();
    w.InputChange(BirthDateField, birthDate);
    done := w.HandleNext();
    w.InputChange(BirthPlaceField, birthPlace);
    profile := w.HandleNext();
    step := w.step;
  }
}
