/**
 * Single-field edits of an account record, as the profile forms make them: each input writes
 * its value under its own key and leaves every other key as it was.
 */
module FieldEdits {
  import opened Types

  /**
   * The editable text inputs of the profile forms, by their `name` attribute. The email is shown
   * read-only on the profile page and not at all in the doctor's modal, so no edit writes it.
   */
  datatype TextField = NameField | PhoneField | PasswordField
                     | SpecializationField | StartField | EndField

  /** An edit of one input: a text input's value, or the number the experience input holds. */
  datatype Edit = TextEdit(field: TextField, value: string) | ExperienceEdit(years: int)

  /** The value a record holds under a text key; `name` is always present. */
  function TextOf(a: Account, f: TextField): Option<string> {
    match f
    case NameField => Some(a.name)
    case PhoneField => a.phone
    case PasswordField => a.password
    case SpecializationField => a.specialization
    case StartField => a.availableTimeStart
    case EndField => a.availableTimeEnd
  }

  /** `{ ...record, [field]: value }`. */
  function ApplyEdit(a: Account, e: Edit): Account {
    match e
    case ExperienceEdit(n) => a.(experience := Some(n))
    case TextEdit(f, v) =>
      match f
      case NameField => a.(name := v)
      case PhoneField => a.(phone := Some(v))
      case PasswordField => a.(password := Some(v))
      case SpecializationField => a.(specialization := Some(v))
      case StartField => a.(availableTimeStart := Some(v))
      case EndField => a.(availableTimeEnd := Some(v))
  }

  /** Applies the edits in order. */
  function ApplyEdits(a: Account, edits: seq<Edit>): Account
    decreases |edits|
  {
    if edits == [] then a else ApplyEdits(ApplyEdit(a, edits[0]), edits[1..])
  }

  /** A text edit sets its own key to the value and no other key. */
  lemma TextEditSetsOnlyItsField(a: Account, f: TextField, v: string)
    ensures TextOf(ApplyEdit(a, TextEdit(f, v)), f) == Some(v)
    ensures forall g :: g != f ==> TextOf(ApplyEdit(a, TextEdit(f, v)), g) == TextOf(a, g)
    ensures var r := ApplyEdit(a, TextEdit(f, v));
      r.id == a.id && r.email == a.email && r.role == a.role && r.createdAt == a.createdAt
      && r.experience == a.experience && r.availableDays == a.availableDays
  {
  }

  /** The experience edit sets the experience and no text key. */
  lemma ExperienceEditSetsOnlyExperience(a: Account, n: int)
    ensures ApplyEdit(a, ExperienceEdit(n)) == a.(experience := Some(n))
    ensures ApplyEdit(a, ExperienceEdit(n)).email == a.email
    ensures forall g :: TextOf(ApplyEdit(a, ExperienceEdit(n)), g) == TextOf(a, g)
  {
  }

  /** Whether some edit in `edits` writes the text key `f`. */
  predicate EditsText(edits: seq<Edit>, f: TextField) {
    exists k :: 0 <= k < |edits| && edits[k].TextEdit? && edits[k].field == f
  }

  /** After a run of edits, a text key that no edit touched keeps its value, and so do the keys no form edits. */
  lemma {:induction false} UneditedFieldsKept(a: Account, edits: seq<Edit>, f: TextField)
    requires !EditsText(edits, f)
    ensures TextOf(ApplyEdits(a, edits), f) == TextOf(a, f)
    ensures var r := ApplyEdits(a, edits);
      r.id == a.id && r.email == a.email && r.role == a.role && r.createdAt == a.createdAt
      && r.availableDays == a.availableDays
    decreases |edits|
  {
    if edits != [] {
      assert forall k :: 0 <= k < |edits[1..]| ==> edits[1..][k] == edits[k + 1];
      if edits[0].TextEdit? {
        TextEditSetsOnlyItsField(a, edits[0].field, edits[0].value);
      }
      UneditedFieldsKept(ApplyEdit(a, edits[0]), edits[1..], f);
    }
  }

  /** No run of form edits changes the email: the forms never write it. */
  lemma {:induction false} EditsKeepEmail(a: Account, edits: seq<Edit>)
    ensures ApplyEdits(a, edits).email == a.email
    decreases |edits|
  {
    if edits != [] {
      EditsKeepEmail(ApplyEdit(a, edits[0]), edits[1..]);
    }
  }
}
