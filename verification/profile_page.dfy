/** The questionnaire page: its default values, the "Other" support-system
    toggle, the support-system checkbox list and the fields shown only for
    certain answers. */
module ProfilePage {
  import opened Wrappers
  import PS = ProfileSchema
  import CheckboxGroup

  /** The support-system options. */
  const SupportOptions: seq<string> := ["Family", "Friends", "Partner", "No one"]

  /** The `supportSystem` checkboxes: the same append / filter-out rule as
      every other checkbox list of the questionnaires. */
  function ToggleSupportSystem(f: PS.ProfileForm, item: string, checked: bool): (g: PS.ProfileForm)
    ensures g.supportSystem.Some?
    ensures checked <==> item in g.supportSystem.value
    ensures forall x :: x != item ==> (x in g.supportSystem.value <==> x in CheckboxGroup.Current(f.supportSystem))
    ensures g == f.(supportSystem := g.supportSystem)
  {
    f.(supportSystem := Some(CheckboxGroup.OnCheckedChange(f.supportSystem, item, checked)))
  }

  /** The "Other" support-system checkbox: records the box's state and
      always clears the text, whichever way the box went. */
  function ToggleSupportOther(f: PS.ProfileForm, checked: bool): (g: PS.ProfileForm)
    ensures g.supportSystemOther.Some?
    ensures g.supportSystemOther.value.enabled == checked
    ensures g.supportSystemOther.value.value == ""
    ensures g == f.(supportSystemOther := g.supportSystemOther)
  {
    f.(supportSystemOther := Some(PS.OtherEntry(checked, "")))
  }

  /** Unticking and re-ticking "Other" loses whatever had been typed. */
  lemma RetickingOtherClearsText(f: PS.ProfileForm, typed: string)
    requires f.supportSystemOther == Some(PS.OtherEntry(true, typed))
    ensures ToggleSupportOther(ToggleSupportOther(f, false), true).supportSystemOther == Some(PS.OtherEntry(true, ""))
  {
  }

  /** The substance-use description is asked for when an answer other than
      "No" has been chosen. */
  predicate ShowSubstanceDescription(f: PS.ProfileForm) {
    f.substanceUse.Some? && f.substanceUse.value != "" && f.substanceUse.value != "No"
  }

  /** The crisis notice appears for the answer "Yes currently" only. */
  predicate ShowCrisisWarning(f: PS.ProfileForm) {
    f.selfHarmThoughts == "Yes currently"
  }

  /** Among the radio answers offered, the description is asked for exactly
      for "Occasionally" and "Regularly", and the crisis notice exactly for
      "Yes currently". */
  lemma ConditionalFieldsOnOfferedAnswers(f: PS.ProfileForm)
    ensures f.substanceUse == Some("No") ==> !ShowSubstanceDescription(f)
    ensures f.substanceUse == Some("Occasionally") ==> ShowSubstanceDescription(f)
    ensures f.substanceUse == Some("Regularly") ==> ShowSubstanceDescription(f)
    ensures f.substanceUse == Some("") || f.substanceUse.None? ==> !ShowSubstanceDescription(f)
    ensures f.selfHarmThoughts in ["No", "Yes in the past"] ==> !ShowCrisisWarning(f)
    ensures f.selfHarmThoughts == "Yes currently" ==> ShowCrisisWarning(f)
  {
  }

  /** The values the form starts from. The goals list and its "Other"
      text are not given defaults, so both start absent. */
  const DefaultProfile: PS.ProfileForm := PS.ProfileForm(
    "", Some(""), Some(""), None, "", Some(""), Some(""), Some("India"),
    Some(""), Some(""), Some(""), Some([]), Some(PS.OtherEntry(false, "")),
    [], Some(""), Some([]), Some(""), Some(""), Some(""), Some(""), Some(""), Some(""), Some(""), Some(""),
    Some([]), Some(""), Some(""), Some(""), Some(""),
    Some(""), Some(""), Some(""), Some([]), Some(""), Some(""), Some([5]),
    None, None, "", Some(""),
    false, None, None)

  /** The untouched form cannot be submitted: the schema rejects it, with
      consent in particular still missing. */
  lemma DefaultProfileRejected()
    ensures DefaultProfile.country == Some("India") && DefaultProfile.moodRating == Some([5])
    ensures !DefaultProfile.consent
    ensures PS.Fails(DefaultProfile, PS.ConsentRequired) && PS.Fails(DefaultProfile, PS.NameRequired)
    ensures PS.Fails(DefaultProfile, PS.GoalsMissing) && !PS.Fails(DefaultProfile, PS.GoalsRequired)
    ensures !PS.ProfileAccepts(DefaultProfile)
  {
    PS.ProfileAcceptsIff(DefaultProfile);
  }
}
