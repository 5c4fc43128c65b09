/** The page that creates a problem: its form, the per-field validation that gates the
    `create` call, and the tag list. */
module NewProblem {
  import opened Common
  import TagList
  import ProblemRouter

  datatype FormValues = FormValues(
    title: string,
    slug: string,
    statement: string,
    inputDescription: string,
    outputDescription: string,
    difficulty: int,
    tags: seq<string>)

  /** The fields typed in text boxes. */
  datatype TextField = Title | Slug | Statement | InputDescription | OutputDescription

  function TextOf(v: FormValues, f: TextField): string {
    match f
    case Title => v.title
    case Slug => v.slug
    case Statement => v.statement
    case InputDescription => v.inputDescription
    case OutputDescription => v.outputDescription
  }

  /** `{ ...prev, [field]: value }` on a text field. */
  function WithText(v: FormValues, f: TextField, s: string): (r: FormValues)
    ensures TextOf(r, f) == s
    ensures forall g :: g != f ==> TextOf(r, g) == TextOf(v, g)
    ensures r.difficulty == v.difficulty && r.tags == v.tags
  {
    match f
    case Title => v.(title := s)
    case Slug => v.(slug := s)
    case Statement => v.(statement := s)
    case InputDescription => v.(inputDescription := s)
    case OutputDescription => v.(outputDescription := s)
  }

  /** The form as the page first shows it. */
  const Initial := FormValues("", "", "", "", "", 5, [])

  /** The form passes `validateForm`: a title of 1 to 100 characters and the other four
      texts non-empty. */
  predicate FormValid(v: FormValues) {
    && v.title != "" && |v.title| <= 100
    && v.slug != "" && v.statement != ""
    && v.inputDescription != "" && v.outputDescription != ""
  }

  /** The input the `create` call receives. */
  function CreateInput(v: FormValues): ProblemRouter.ProblemInput {
    ProblemRouter.ProblemInput(v.title, v.slug, v.statement, v.inputDescription,
      v.outputDescription, v.difficulty, v.tags)
  }

  /** With the difficulty the range input allows (1 to 10), the page's validation and the
      server's schema accept the same forms. */
  lemma ValidationMatchesServer(v: FormValues)
    requires 1 <= v.difficulty <= 10
    ensures FormValid(v) <==> ProblemRouter.ProblemFieldsOk(CreateInput(v))
  {
  }

  /** The initial form is not valid, and its difficulty is in the slider's range. */
  lemma InitialIsIncomplete()
    ensures !FormValid(Initial) && 1 <= Initial.difficulty <= 10 && Initial.tags == []
  {
  }

  /** `word` appears somewhere in `message`. */
  ghost predicate Mentions(message: string, word: string) {
    exists i: nat :: OccursAt(message, word, i)
  }

  /** `word` appears in `message` starting at position i. */
  predicate OccursAt(message: string, word: string, i: nat) {
    i + |word| <= |message| && message[i..i + |word|] == word
  }

  /** The messages `validateForm` records, field by field; a title that is too long gets
      the length message. */
  function ValidationErrors(v: FormValues): (m: map<TextField, string>)
    ensures Title in m <==> v.title == "" || |v.title| > 100
    ensures Title in m ==> m[Title] == if |v.title| > 100 then TitleTooLong else TitleRequired
    ensures (Slug in m <==> v.slug == "") && (Slug in m ==> m[Slug] == SlugRequired)
    ensures (Statement in m <==> v.statement == "") && (Statement in m ==> m[Statement] == StatementRequired)
    ensures InputDescription in m <==> v.inputDescription == ""
    ensures InputDescription in m ==> m[InputDescription] == InputDescriptionRequired
    ensures OutputDescription in m <==> v.outputDescription == ""
    ensures OutputDescription in m ==> m[OutputDescription] == OutputDescriptionRequired
  {
    var m1 := if v.title == "" then map[Title := TitleRequired] else map[];
    var m2 := if |v.title| > 100 then m1[Title := TitleTooLong] else m1;
    var m3 := if v.slug == "" then m2[Slug := SlugRequired] else m2;
    var m4 := if v.statement == "" then m3[Statement := StatementRequired] else m3;
    var m5 := if v.inputDescription == "" then m4[InputDescription := InputDescriptionRequired] else m4;
    if v.outputDescription == "" then m5[OutputDescription := OutputDescriptionRequired] else m5
  }

  /** There is no message at all exactly when the form is valid. */
  lemma ValidationErrorsMeaning(v: FormValues)
    ensures var m := ValidationErrors(v);
      && (|m| == 0 <==> FormValid(v))
      && (|m| == 0 <==> m == map[])
  {
    var m := ValidationErrors(v);
    if m != map[] {
      var k :| k in m;
      assert |m| > 0;
    }
    if FormValid(v) {
      forall k: TextField ensures k !in m {
        match k
        case Title =>
        case Slug =>
        case Statement =>
        case InputDescription =>
        case OutputDescription =>
      }
      assert m == map[];
    }
  }

  /** The messages of `validateForm`. */
  const TitleRequired := "Title is required"
  const TitleTooLong := "Title must be 100 characters or less"
  const SlugRequired := "Slug is required"
  const StatementRequired := "Problem statement is required"
  const InputDescriptionRequired := "Input description is required"
  const OutputDescriptionRequired := "Output description is required"

  class CreateForm {
    var values: FormValues
    var newTag: string
    var errors: map<TextField, string>
    /** The inputs passed to `create`, oldest first. */
    var calls: seq<ProblemRouter.ProblemInput>
    /** The paths navigated to, oldest first. */
    var navigations: seq<string>

    constructor ()
      ensures values == Initial && newTag == "" && errors == map[] && calls == [] && navigations == []
    {
      values := Initial;
      newTag := "";
      errors := map[];
      calls := [];
      navigations := [];
    }

    /** `validateForm`: records one message per failing field, replacing the previous
        messages, and answers whether there were none. */
    method ValidateForm() returns (ok: bool)
      modifies this
      ensures errors == ValidationErrors(values)
      ensures ok <==> FormValid(values)
      ensures ok <==> errors == map[]
      ensures values == old(values) && newTag == old(newTag) && calls == old(calls) && navigations == old(navigations)
    {
      var newErrors: map<TextField, string> := map[];
      if values.title == "" {
        newErrors := newErrors[Title := TitleRequired];
      }
      if |values.title| > 100 {
        newErrors := newErrors[Title := TitleTooLong];
      }
      if values.slug == "" {
        newErrors := newErrors[Slug := SlugRequired];
      }
      if values.statement == "" {
        newErrors := newErrors[Statement := StatementRequired];
      }
      if values.inputDescription == "" {
        newErrors := newErrors[InputDescription := InputDescriptionRequired];
      }
      if values.outputDescription == "" {
        newErrors := newErrors[OutputDescription := OutputDescriptionRequired];
      }
      errors := newErrors;
      ok := |newErrors| == 0;
      ValidationErrorsMeaning(values);
    }

    /** `handleSubmit`: `create` is called with the form only when validation passes. */
    method HandleSubmit()
      modifies this
      ensures FormValid(values) ==> calls == old(calls) + [CreateInput(values)]
      ensures !FormValid(values) ==> calls == old(calls)
      ensures FormValid(values) <==> errors == map[]
      ensures values == old(values) && newTag == old(newTag) && navigations == old(navigations)
    {
      var ok := ValidateForm();
      if ok {
        calls := calls + [CreateInput(values)];
      }
    }

    /** `handleInputChange(e, field)`: only that field changes. */
    method HandleInputChange(f: TextField, s: string)
      modifies this
      ensures values == WithText(old(values), f, s)
      ensures newTag == old(newTag) && errors == old(errors) && calls == old(calls) && navigations == old(navigations)
    {
      values := WithText(values, f, s);
    }

    /** `handleDifficultyChange`: only the difficulty changes. */
    method HandleDifficultyChange(d: int)
      modifies this
      ensures values == old(values).(difficulty := d)
      ensures newTag == old(newTag) && errors == old(errors) && calls == old(calls) && navigations == old(navigations)
    {
      values := values.(difficulty := d);
    }

    /** Typing in the new-tag box. */
    method SetNewTag(s: string)
      modifies this
      ensures newTag == s
      ensures values == old(values) && errors == old(errors) && calls == old(calls) && navigations == old(navigations)
    {
      newTag := s;
    }

    /** `addTag`, with the same rule as the edit form. */
    method AddTag()
      modifies this
      ensures values == old(values).(tags := TagList.AddedTag(old(values.tags), old(newTag)))
      ensures newTag == if TagList.Adds(old(values.tags), old(newTag)) then "" else old(newTag)
      ensures errors == old(errors) && calls == old(calls) && navigations == old(navigations)
    {
      if newTag != "" && newTag !in values.tags {
        values := values.(tags := values.tags + [newTag]);
        newTag := "";
      }
    }

    /** `removeTag(t)`. */
    method RemoveTag(t: string)
      modifies this
      ensures values == old(values).(tags := TagList.WithoutTag(old(values.tags), t))
      ensures newTag == old(newTag) && errors == old(errors) && calls == old(calls) && navigations == old(navigations)
    {
      values := values.(tags := Filter(values.tags, TagList.IsNot(t)));
    }

    /** The `create` call's success callback: go to the new problem's page. */
    method OnCreateSuccess(created: ProblemRouter.ProblemInput)
      modifies this
      ensures navigations == old(navigations) + ["/problems/" + created.slug]
      ensures values == old(values) && newTag == old(newTag) && errors == old(errors) && calls == old(calls)
    {
      navigations := navigations + ["/problems/" + created.slug];
    }

    /** The `create` call's error callback: a refusal that mentions administrators leaves
        for the problem list. */
    method OnCreateError(message: string)
      modifies this
      ensures Mentions(message, "administrators") ==> navigations == old(navigations) + ["/problems"]
      ensures !Mentions(message, "administrators") ==> navigations == old(navigations)
      ensures values == old(values) && newTag == old(newTag) && errors == old(errors) && calls == old(calls)
    {
      var found := Contains(message, "administrators");
      if found {
        navigations := navigations + ["/problems"];
      }
    }
  }

  /** `message.includes(word)`, scanning start positions from the left. */
  method Contains(message: string, word: string) returns (found: bool)
    ensures found <==> Mentions(message, word)
  {
    if |word| > |message| {
      return false;
    }
    var i := 0;
    while i <= |message| - |word|
      invariant 0 <= i <= |message| - |word| + 1
      invariant forall j: nat :: j < i ==> !OccursAt(message, word, j)
    {
      if message[i..i + |word|] == word {
        assert OccursAt(message, word, i);
        return true;
      }
      i := i + 1;
    }
    return false;
  }

  /** The refusal `create` gives a non-administrator sends the page back to the list. */
  lemma ForbiddenLeavesPage()
    ensures Mentions("Only administrators can create problems", "administrators")
  {
    var m := "Only administrators can create problems";
    var w := "administrators";
    assert m == "Only " + w + " can create problems";
    assert m[5..19] == w;
    assert OccursAt(m, w, 5);
  }
}
