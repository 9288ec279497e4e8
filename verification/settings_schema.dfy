/** The account settings form and its validation rules (`settingsSchema`). */
module SettingsSchema {
  import opened Wrappers
  import ProfileSchema

  datatype SettingsForm = SettingsForm(
    name: string,
    middleName: Option<string>,
    surname: Option<string>,
    age: Option<int>,
    gender: string,
    city: Option<string>,
    state: Option<string>,
    country: Option<string>
  )

  datatype SettingsIssue = NameRequired | AgeRequired | AgeTooYoung | GenderRequired

  function SettingsIssues(f: SettingsForm): (r: seq<SettingsIssue>)
    ensures NameRequired in r <==> |f.name| < 1
    ensures AgeRequired in r <==> f.age.None?
    ensures AgeTooYoung in r <==> f.age.Some? && f.age.value < 12
    ensures GenderRequired in r <==> |f.gender| < 1
  {
    (if |f.name| < 1 then [NameRequired] else [])
    + (match f.age
       case None => [AgeRequired]
       case Some(a) => if a < 12 then [AgeTooYoung] else [])
    + (if |f.gender| < 1 then [GenderRequired] else [])
  }

  predicate SettingsAccepts(f: SettingsForm) {
    SettingsIssues(f) == []
  }

  /** The settings fields as they appear in a profile. */
  function FromProfile(p: ProfileSchema.ProfileForm): SettingsForm {
    SettingsForm(p.name, p.middleName, p.surname, p.age, p.gender, p.city, p.state, p.country)
  }

  /** The settings form checks name, age and gender exactly as the profile
      questionnaire does: for any profile, the settings view of it fails on
      those fields precisely when the profile does. */
  lemma SettingsAgreesWithProfile(p: ProfileSchema.ProfileForm)
    ensures NameRequired in SettingsIssues(FromProfile(p)) <==> ProfileSchema.NameRequired in ProfileSchema.ProfileIssues(p)
    ensures AgeRequired in SettingsIssues(FromProfile(p)) <==> ProfileSchema.AgeRequired in ProfileSchema.ProfileIssues(p)
    ensures AgeTooYoung in SettingsIssues(FromProfile(p)) <==> ProfileSchema.AgeTooYoung in ProfileSchema.ProfileIssues(p)
    ensures GenderRequired in SettingsIssues(FromProfile(p)) <==> ProfileSchema.GenderRequired in ProfileSchema.ProfileIssues(p)
    ensures ProfileSchema.ProfileAccepts(p) ==> SettingsAccepts(FromProfile(p))
  {
    var s := SettingsIssues(FromProfile(p));
    if s != [] {
      assert s[0] in s;
    }
  }
}
