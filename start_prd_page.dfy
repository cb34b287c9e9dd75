/**
 * The "Start New PRD" page: a four-field form (title, hypothesis, signals and
 * an optional persona), its validation, and the submission that seeds the
 * document store and opens a new workspace.
 */
module StartPRDPage {
  import opened Common
  import opened PRDContext

  datatype Field = TitleField | HypothesisField | SignalsField | PersonaField

  /** The form's `name` attribute of each field. */
  function FieldName(f: Field): string
  {
    match f
    case TitleField => "title"
    case HypothesisField => "hypothesis"
    case SignalsField => "signals"
    case PersonaField => "persona"
  }

  datatype FormData = FormData(title: string, hypothesis: string, signals: string, persona: string)
  {
    function Get(f: Field): string
    {
      match f
      case TitleField => title
      case HypothesisField => hypothesis
      case SignalsField => signals
      case PersonaField => persona
    }

    /** `{ ...prev, [name]: value }`: the one field changes, the others stay. */
    function With(f: Field, value: string): (r: FormData)
      ensures r.Get(f) == value
      ensures forall g :: g != f ==> r.Get(g) == Get(g)
    {
      match f
      case TitleField => this.(title := value)
      case HypothesisField => this.(hypothesis := value)
      case SignalsField => this.(signals := value)
      case PersonaField => this.(persona := value)
    }
  }

  const EmptyForm := FormData("", "", "", "")

  // ---------------------------------------------------------------------------
  // Personas

  datatype PersonaOption = PersonaOption(value: string, caption: string)

  /** `PERSONAS`: the select's options, the empty value first. */
  const Personas: seq<PersonaOption> := [
    PersonaOption("", "Select a persona (optional)"),
    PersonaOption("startup-founder", "Startup Founder"),
    PersonaOption("product-manager", "Product Manager"),
    PersonaOption("designer", "UX/UI Designer"),
    PersonaOption("developer", "Software Developer"),
    PersonaOption("business-analyst", "Business Analyst"),
    PersonaOption("marketing-manager", "Marketing Manager"),
    PersonaOption("customer-success", "Customer Success Manager"),
    PersonaOption("other", "Other")
  ]

  /** `options.find(p => p.value === value)?.label`: the first match's label. */
  function FindLabel(options: seq<PersonaOption>, value: string): (r: Option<string>)
    ensures r.None? <==> forall i :: 0 <= i < |options| ==> options[i].value != value
    decreases |options|
  {
    if options == [] then None
    else if options[0].value == value then Some(options[0].caption)
    else FindLabel(options[1..], value)
  }

  /** An option whose value no earlier option shares is the one found. */
  lemma {:induction false} FindFirst(options: seq<PersonaOption>, i: nat)
    requires i < |options|
    requires forall j :: 0 <= j < i ==> options[j].value != options[i].value
    ensures FindLabel(options, options[i].value) == Some(options[i].caption)
    decreases i
  {
    if i > 0 {
      FindFirst(options[1..], i - 1);
    }
  }

  /** The option values are pairwise distinct. */
  lemma PersonaValuesDistinct()
    ensures forall i, j :: 0 <= j < i < |Personas| ==> Personas[j].value != Personas[i].value
  {
    assert Personas[1].value[0] != Personas[2].value[0];
    assert Personas[5].value[0] != Personas[7].value[0];
  }

  /** Every option's value finds its own label. */
  lemma PersonaLabelsFound(i: nat)
    requires i < |Personas|
    ensures FindLabel(Personas, Personas[i].value) == Some(Personas[i].caption)
  {
    PersonaValuesDistinct();
    FindFirst(Personas, i);
  }

  /** A template literal renders a missing label as 'undefined'. */
  function LabelText(found: Option<string>): string
  {
    if found.Some? then found.value else "undefined"
  }

  const SignalsHeading := "Customer Insights & Signals:\n"
  const PersonaHeading := "\n\nTarget Persona: "

  /** The learnings the page writes: the signals under their heading, then the
      persona's label when a persona was chosen. */
  function LearningsContent(signals: string, persona: string): (s: string)
  {
    var base := SignalsHeading + signals;
    if persona != "" then base + PersonaHeading + LabelText(FindLabel(Personas, persona)) else base
  }

  /** The learnings always begin with the signals under their heading; without
      a persona that is all, and with a listed persona the rest names its label. */
  lemma LearningsContentShape(signals: string, i: nat)
    requires i < |Personas|
    ensures var s := LearningsContent(signals, Personas[i].value);
      var base := SignalsHeading + signals;
      |s| >= |base| && s[..|base|] == base &&
      (i == 0 <==> s == base) &&
      (i > 0 ==> s == base + PersonaHeading + Personas[i].caption)
  {
    PersonaLabelsFound(i);
    var base := SignalsHeading + signals;
    if i > 0 {
      var s := LearningsContent(signals, Personas[i].value);
      assert s == base + (PersonaHeading + Personas[i].caption);
      assert |s| > |base|;
    }
  }

  // ---------------------------------------------------------------------------
  // Validation

  /** The three fields that must not be blank. */
  predicate Required(f: Field)
  {
    f != PersonaField
  }

  function RequiredMessage(f: Field): string
  {
    match f
    case TitleField => "PRD Title is required"
    case HypothesisField => "Hypothesis is required"
    case SignalsField => "Signals or customer insights are required"
    case PersonaField => ""
  }

  /** `validateForm`'s error object: one message for each required field that
      is blank once trimmed (`Trim(s) == ""` exactly when `IsBlank(s)`). */
  function ValidationErrors(form: FormData): (errors: map<Field, string>)
    ensures forall f :: f in errors <==> Required(f) && IsBlank(form.Get(f))
    ensures forall f :: f in errors ==> errors[f] != ""
  {
    map f | f in {TitleField, HypothesisField, SignalsField} && IsBlank(form.Get(f)) :: RequiredMessage(f)
  }

  /** The form is accepted exactly when none of the three required fields is blank. */
  lemma AcceptedIffFilled(form: FormData)
    ensures |ValidationErrors(form)| == 0 <==>
      !IsBlank(form.title) && !IsBlank(form.hypothesis) && !IsBlank(form.signals)
  {
    var e := ValidationErrors(form);
    if IsBlank(form.title) {
      assert TitleField in e;
    } else if IsBlank(form.hypothesis) {
      assert HypothesisField in e;
    } else if IsBlank(form.signals) {
      assert SignalsField in e;
    } else {
      assert e == map[];
    }
  }

  /** `/workspace/${Date.now()}`. */
  function WorkspaceRoute(now: int): (r: string)
    ensures |r| > 11 && r[..11] == "/workspace/"
  {
    "/workspace/" + IntToString(now)
  }

  class StartForm {
    var form: FormData
    var errors: map<Field, string>
    var isSubmitting: bool

    constructor ()
      ensures form == EmptyForm && errors == map[] && !isSubmitting
    {
      form := EmptyForm;
      errors := map[];
      isSubmitting := false;
    }

    /** `handleInputChange`: sets the field, and empties its error message when
        one is showing. */
    method HandleInputChange(f: Field, value: string)
      modifies this`form, this`errors
      ensures form == old(form).With(f, value)
      ensures f in old(errors) && old(errors)[f] != "" ==> errors == old(errors)[f := ""]
      ensures !(f in old(errors) && old(errors)[f] != "") ==> errors == old(errors)
    {
      form := form.With(f, value);
      if f in errors && errors[f] != "" {
        errors := errors[f := ""];
      }
    }

    /** `validateForm`: rebuilds the error object field by field and reports
        whether it came out empty. */
    method ValidateForm() returns (ok: bool)
      modifies this`errors
      ensures errors == ValidationErrors(form)
      ensures ok <==> !IsBlank(form.title) && !IsBlank(form.hypothesis) && !IsBlank(form.signals)
      ensures ok <==> |errors| == 0
    {
      var newErrors: map<Field, string> := map[];
      if IsBlank(form.title) {
        newErrors := newErrors[TitleField := RequiredMessage(TitleField)];
      }
      if IsBlank(form.hypothesis) {
        newErrors := newErrors[HypothesisField := RequiredMessage(HypothesisField)];
      }
      if IsBlank(form.signals) {
        newErrors := newErrors[SignalsField := RequiredMessage(SignalsField)];
      }
      assert newErrors == ValidationErrors(form);
      errors := newErrors;
      AcceptedIffFilled(form);
      ok := |newErrors| == 0;
    }

    /** `handleSubmit`, with the two clock readings and random suffixes of the
        snapshots and the clock reading of the workspace id as parameters. A
        rejected form changes only the error messages. An accepted one sets the
        title (untrimmed), writes the hypothesis as the problem statement and the
        signals (and persona) as the learnings, each with its snapshot, and
        returns the workspace route. */
    method HandleSubmit(store: PRDStore, now1: int, suffix1: string, now2: int, suffix2: string, nowId: int)
      returns (route: Option<string>)
      requires store.Valid() && store.WellTyped()
      modifies this`errors, this`isSubmitting, store`title, store`sections, store`versions
      ensures store.Valid() && store.WellTyped()
      ensures errors == ValidationErrors(form)
      ensures |errors| > 0 ==>
        route.None? && isSubmitting == old(isSubmitting) && store.title == old(store.title) &&
        store.sections == old(store.sections) && store.versions == old(store.versions)
      ensures |errors| == 0 ==>
        route == Some(WorkspaceRoute(nowId)) && !isSubmitting && store.title == form.title &&
        store.sections == SeededSections(old(store.sections), form) &&
        store.versions == SeededVersions(old(store.versions), form, now1, suffix1, now2, suffix2)
    {
      var ok := ValidateForm();
      if !ok {
        return None;
      }
      isSubmitting := true;
      SeedDocument(store, form, now1, suffix1, now2, suffix2);
      route := Some(WorkspaceRoute(nowId));
      isSubmitting := false;
    }
  }

  /** The sections after an accepted form: the hypothesis as the problem
      statement and the signals (and persona) as the learnings. */
  function SeededSections(sections: map<SectionKey, Content>, form: FormData): (r: map<SectionKey, Content>)
    ensures r.Keys == sections.Keys + {ProblemStatement, Learnings}
    ensures forall k :: k in sections && k != ProblemStatement && k != Learnings ==> r[k] == sections[k]
  {
    sections[ProblemStatement := Text(form.hypothesis)][Learnings := Text(LearningsContent(form.signals, form.persona))]
  }

  /** The histories after an accepted form: one snapshot of each written section. */
  function SeededVersions(versions: map<SectionKey, seq<SectionVersion>>, form: FormData,
                          now1: int, suffix1: string, now2: int, suffix2: string): map<SectionKey, seq<SectionVersion>>
    requires ProblemStatement in versions && Learnings in versions
  {
    versions[ProblemStatement := PushVersion(NewVersion(ProblemStatement, Text(form.hypothesis), now1, suffix1),
                                             versions[ProblemStatement])]
            [Learnings := PushVersion(NewVersion(Learnings, Text(LearningsContent(form.signals, form.persona)), now2, suffix2),
                                      versions[Learnings])]
  }

  /** The store writes of an accepted form, in the order the page makes them. */
  method SeedDocument(store: PRDStore, form: FormData, now1: int, suffix1: string, now2: int, suffix2: string)
    requires store.Valid() && store.WellTyped()
    modifies store`title, store`sections, store`versions
    ensures store.Valid() && store.WellTyped()
    ensures store.title == form.title
    ensures store.sections == SeededSections(old(store.sections), form)
    ensures store.versions == SeededVersions(old(store.versions), form, now1, suffix1, now2, suffix2)
  {
    store.SetTitle(form.title);
    store.UpdateSection(ProblemStatement, Text(form.hypothesis), now1, suffix1);
    var learningsContent := BuildLearnings(form.signals, form.persona);
    store.UpdateSection(Learnings, Text(learningsContent), now2, suffix2);
  }

  /** The learnings text, built the way the page builds it. */
  method BuildLearnings(signals: string, persona: string) returns (learningsContent: string)
    ensures learningsContent == LearningsContent(signals, persona)
  {
    learningsContent := SignalsHeading + signals;
    if persona != "" {
      learningsContent := learningsContent + PersonaHeading + LabelText(FindLabel(Personas, persona));
    }
  }
}
