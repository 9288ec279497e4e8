/** The profile questionnaire and its validation rules (`profileSchema`).
    Numbers are integers here; the schema's numeric bounds are inclusive. */
module ProfileSchema {
  import opened Wrappers

  /** The "Other" support-system entry: a checkbox plus free text. */
  datatype OtherEntry = OtherEntry(enabled: bool, value: string)

  /** Every field of the questionnaire. Optional fields are `Option`s;
      `None` is an absent (`undefined`) field. */
  datatype ProfileForm = ProfileForm(
    // Section 1
    name: string,
    middleName: Option<string>,
    surname: Option<string>,
    age: Option<int>,
    gender: string,
    city: Option<string>,
    state: Option<string>,
    country: Option<string>,
    // Section 2
    occupation: Option<string>,
    income: Option<string>,
    lifeSituation: Option<string>,
    supportSystem: Option<seq<string>>,
    supportSystemOther: Option<OtherEntry>,
    // Section 3
    counsellingReason: seq<string>,
    counsellingReasonOther: Option<string>,
    symptoms: Option<seq<string>>,
    symptomsOther: Option<string>,
    symptomsDuration: Option<string>,
    symptomsSeverity: Option<string>,
    knownTriggers: Option<string>,
    copingTechniques: Option<string>,
    copingTechniquesDescription: Option<string>,
    previousTherapy: Option<string>,
    previousTherapyDescription: Option<string>,
    mentalHealthDiagnosis: Option<seq<string>>,
    mentalHealthDiagnosisOther: Option<string>,
    familyHistory: Option<string>,
    medication: Option<string>,
    medicationDescription: Option<string>,
    // Section 4
    dailyRoutine: Option<string>,
    substanceUse: Option<string>,
    substanceUseDescription: Option<string>,
    majorStressors: Option<seq<string>>,
    majorStressorsOther: Option<string>,
    willingness: Option<string>,
    moodRating: Option<seq<int>>,
    // Section 5
    counsellingGoals: Option<seq<string>>,
    counsellingGoalsOther: Option<string>,
    selfHarmThoughts: string,
    therapyConcerns: Option<string>,
    // Consent
    consent: bool,
    createdAt: Option<string>,
    updatedAt: Option<string>
  )

  /** One validation failure, reported against the field it concerns. */
  datatype ProfileIssue =
    | NameRequired
    | AgeRequired
    | AgeTooYoung
    | GenderRequired
    | ReasonRequired
    | GoalsMissing
    | GoalsRequired
    | SelfHarmRequired
    | ConsentRequired

  const MinimumAge: int := 12

  /** The text shown under the field for each issue. A required field that
      is absent altogether gets zod's own "Required" rather than the
      schema's message; `age` has its own text for that case. */
  function IssueMessage(i: ProfileIssue): string {
    match i
    case NameRequired => "Name is required."
    case AgeRequired => "Age is required."
    case AgeTooYoung => "You must be at least 12 years old."
    case GenderRequired => "Gender is required."
    case ReasonRequired => "Please select at least one reason."
    case GoalsMissing => "Required"
    case GoalsRequired => "Please select at least one goal."
    case SelfHarmRequired => "This field is required."
    case ConsentRequired => "You must agree to the terms and disclaimer to continue."
  }

  /** The rule each issue stands for: the field condition under which the
      schema reports it. */
  predicate Fails(f: ProfileForm, i: ProfileIssue) {
    match i
    case NameRequired => |f.name| < 1
    case AgeRequired => f.age.None?
    case AgeTooYoung => f.age.Some? && f.age.value < MinimumAge
    case GenderRequired => |f.gender| < 1
    case ReasonRequired => |f.counsellingReason| < 1
    case GoalsMissing => f.counsellingGoals.None?
    case GoalsRequired => f.counsellingGoals.Some? && |f.counsellingGoals.value| < 1
    case SelfHarmRequired => |f.selfHarmThoughts| < 1
    case ConsentRequired => !f.consent
  }

  /** A single check: `[issue]` when `failed`, nothing otherwise. */
  function Report(failed: bool, issue: ProfileIssue): (r: seq<ProfileIssue>)
    ensures forall j :: j in r <==> failed && j == issue
  {
    if failed then [issue] else []
  }

  /** The checks of the schema, one per rule, concatenated in field order. */
  function AllReports(f: ProfileForm): seq<ProfileIssue> {
    Report(Fails(f, NameRequired), NameRequired)
    + Report(Fails(f, AgeRequired), AgeRequired)
    + Report(Fails(f, AgeTooYoung), AgeTooYoung)
    + Report(Fails(f, GenderRequired), GenderRequired)
    + Report(Fails(f, ReasonRequired), ReasonRequired)
    + Report(Fails(f, GoalsMissing), GoalsMissing)
    + Report(Fails(f, GoalsRequired), GoalsRequired)
    + Report(Fails(f, SelfHarmRequired), SelfHarmRequired)
    + Report(Fails(f, ConsentRequired), ConsentRequired)
  }

  lemma AllReportsComplete(f: ProfileForm)
    ensures forall j :: j in AllReports(f) <==> Fails(f, j)
  {
    forall j ensures j in AllReports(f) <==> Fails(f, j) {
      var r := AllReports(f);
      assert r == Report(Fails(f, NameRequired), NameRequired)
        + Report(Fails(f, AgeRequired), AgeRequired)
        + Report(Fails(f, AgeTooYoung), AgeTooYoung)
        + Report(Fails(f, GenderRequired), GenderRequired)
        + Report(Fails(f, ReasonRequired), ReasonRequired)
        + Report(Fails(f, GoalsMissing), GoalsMissing)
        + Report(Fails(f, GoalsRequired), GoalsRequired)
        + Report(Fails(f, SelfHarmRequired), SelfHarmRequired)
        + Report(Fails(f, ConsentRequired), ConsentRequired);
    }
  }

  /** The issues the schema reports, in field order: every field is checked
      and every failing rule is reported. */
  function ProfileIssues(f: ProfileForm): (r: seq<ProfileIssue>)
    ensures forall j :: j in r <==> Fails(f, j)
  {
    AllReportsComplete(f);
    AllReports(f)
  }

  /** The form passes validation. */
  predicate ProfileAccepts(f: ProfileForm) {
    ProfileIssues(f) == []
  }

  /** Acceptance, stated field by field: non-empty name, gender and
      self-harm answer, an age of at least 12, at least one reason and one
      goal, and consent given. */
  lemma ProfileAcceptsIff(f: ProfileForm)
    ensures ProfileAccepts(f) <==>
      && |f.name| >= 1
      && f.age.Some? && f.age.value >= MinimumAge
      && |f.gender| >= 1
      && |f.counsellingReason| >= 1
      && f.counsellingGoals.Some? && |f.counsellingGoals.value| >= 1
      && |f.selfHarmThoughts| >= 1
      && f.consent
  {
    var r := ProfileIssues(f);
    if r != [] {
      assert r[0] in r;
    }
  }

  /** The form with every optional field absent. */
  function WithoutOptionalFields(f: ProfileForm): (g: ProfileForm)
    ensures g.name == f.name && g.age == f.age && g.gender == f.gender
    ensures g.counsellingReason == f.counsellingReason
    ensures g.counsellingGoals == f.counsellingGoals
    ensures g.selfHarmThoughts == f.selfHarmThoughts && g.consent == f.consent
  {
    ProfileForm(
      f.name, None, None, f.age, f.gender, None, None, None,
      None, None, None, None, None,
      f.counsellingReason, None, None, None, None, None, None, None, None, None, None, None, None, None, None, None,
      None, None, None, None, None, None, None,
      f.counsellingGoals, None, f.selfHarmThoughts, None,
      f.consent, None, None)
  }

  /** Optional fields never decide acceptance: dropping all of them changes nothing. */
  lemma OptionalFieldsIrrelevant(f: ProfileForm)
    ensures ProfileAccepts(f) <==> ProfileAccepts(WithoutOptionalFields(f))
  {
    ProfileAcceptsIff(f);
    ProfileAcceptsIff(WithoutOptionalFields(f));
  }
}
