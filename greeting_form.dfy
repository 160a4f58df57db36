/**
 * The greeting form: a record of four text fields, filled one at a time,
 * and a submit that goes through only when every field is filled in.
 */
module GreetingForm {
  import opened Wrappers

  datatype GreetingData = GreetingData(name: string, timeOfDay: string, mood: string, favoriteColor: string)

  /** `keyof GreetingData`. */
  datatype Field = Name | TimeOfDay | Mood | FavoriteColor

  function FieldValue(d: GreetingData, f: Field): string
  {
    match f
    case Name => d.name
    case TimeOfDay => d.timeOfDay
    case Mood => d.mood
    case FavoriteColor => d.favoriteColor
  }

  /** Lines 22-27: the form starts with every field empty. */
  const Initial: GreetingData := GreetingData("", "", "", "")

  /** `handleInputChange`: the named field takes the new value and the other three keep theirs. */
  function Update(d: GreetingData, f: Field, value: string): (r: GreetingData)
    ensures FieldValue(r, f) == value
    ensures forall g :: g != f ==> FieldValue(r, g) == FieldValue(d, g)
  {
    match f
    case Name => d.(name := value)
    case TimeOfDay => d.(timeOfDay := value)
    case Mood => d.(mood := value)
    case FavoriteColor => d.(favoriteColor := value)
  }

  /** Line 31: every field is a non-empty string, so truthy. */
  predicate Complete(d: GreetingData)
  {
    d.name != "" && d.timeOfDay != "" && d.mood != "" && d.favoriteColor != ""
  }

  /** `handleSubmit`: the record passed to `onSubmit`, if the guard lets it through. */
  function HandleSubmit(d: GreetingData): (r: Option<GreetingData>)
    ensures r.Some? <==> forall f :: FieldValue(d, f) != ""
    ensures r.Some? ==> r.value == d
  {
    assert FieldValue(d, Name) == d.name && FieldValue(d, TimeOfDay) == d.timeOfDay;
    assert FieldValue(d, Mood) == d.mood && FieldValue(d, FavoriteColor) == d.favoriteColor;
    if Complete(d) then Some(d) else None
  }

  /** Line 129: the submit button's `disabled` condition. */
  predicate SubmitDisabled(d: GreetingData)
  {
    d.name == "" || d.timeOfDay == "" || d.mood == "" || d.favoriteColor == ""
  }

  /** The button is disabled exactly when submitting would do nothing. */
  lemma DisabledIffNotForwarded(d: GreetingData)
    ensures SubmitDisabled(d) <==> HandleSubmit(d).None?
  {
  }

  /** A freshly mounted form cannot submit. */
  lemma InitialCannotSubmit()
    ensures HandleSubmit(Initial).None? && SubmitDisabled(Initial)
  {
  }

  /** Filling in all four fields, in any order, makes the form submit exactly what was entered. */
  lemma FillingEveryFieldSubmits(d: GreetingData, f1: Field, f2: Field, f3: Field, f4: Field, v1: string, v2: string, v3: string, v4: string)
    requires {f1, f2, f3, f4} == {Name, TimeOfDay, Mood, FavoriteColor}
    requires v1 != "" && v2 != "" && v3 != "" && v4 != ""
    ensures var r := Update(Update(Update(Update(d, f1, v1), f2, v2), f3, v3), f4, v4);
      forall g :: FieldValue(r, g) == (if g == f4 then v4 else if g == f3 then v3 else if g == f2 then v2 else v1)
    ensures var r := Update(Update(Update(Update(d, f1, v1), f2, v2), f3, v3), f4, v4);
      HandleSubmit(r) == Some(r)
  {
    var r := Update(Update(Update(Update(d, f1, v1), f2, v2), f3, v3), f4, v4);
    forall g ensures FieldValue(r, g) != "" {
      assert g == Name || g == TimeOfDay || g == Mood || g == FavoriteColor;
      assert g in {Name, TimeOfDay, Mood, FavoriteColor};
      assert g in {f1, f2, f3, f4};
    }
  }

  /** Updates of different fields commute, and a second update of a field overrides the first. */
  lemma UpdatesCommute(d: GreetingData, f: Field, g: Field, v: string, w: string)
    ensures f != g ==> Update(Update(d, f, v), g, w) == Update(Update(d, g, w), f, v)
    ensures Update(Update(d, f, v), f, w) == Update(d, f, w)
  {
  }
}
