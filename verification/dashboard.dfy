/** The signed-in home page: whom it greets, and whether it asks the user to
    complete the questionnaire. */
module Dashboard {
  import opened Wrappers
  import Strings
  import PS = ProfileSchema

  /** The text has a non-empty part before the first `sep`: it is non-empty
      and does not start with `sep`. */
  predicate HasLeadingPart(s: Option<string>, sep: char) {
    s.Some? && |s.value| > 0 && s.value[0] != sep
  }

  /** `s` is the whole of `text` up to the first `sep`. */
  predicate IsLeadingPart(r: string, text: string, sep: char) {
    Strings.StartsWith(text, r) && sep !in r && (|r| == |text| || text[|r|] == sep)
  }

  /** The leading part of an optional text, empty when absent. */
  function LeadingPart(s: Option<string>, sep: char): (r: string)
    ensures r != "" <==> HasLeadingPart(s, sep)
    ensures s.Some? ==> IsLeadingPart(r, s.value, sep)
  {
    if s.None? then "" else Strings.BeforeFirst(s.value, sep)
  }

  /** `userName`: the first word of the profile's name; failing that, the
      e-mail address up to the `@`; failing that, "friend". */
  function GreetingName(profileName: Option<string>, email: Option<string>): (r: string)
    ensures r != ""
    ensures HasLeadingPart(profileName, ' ') ==> IsLeadingPart(r, profileName.value, ' ')
    ensures !HasLeadingPart(profileName, ' ') && HasLeadingPart(email, '@') ==> IsLeadingPart(r, email.value, '@')
    ensures !HasLeadingPart(profileName, ' ') && !HasLeadingPart(email, '@') ==> r == "friend"
  {
    var first := LeadingPart(profileName, ' ');
    if first != "" then first
    else
      var local := LeadingPart(email, '@');
      if local != "" then local else "friend"
  }

  /** A full name greets by its first word. */
  lemma GreetsByFirstName()
    ensures GreetingName(Some("Asha Rao"), Some("asha@example.com")) == "Asha"
  {
    var r := GreetingName(Some("Asha Rao"), Some("asha@example.com"));
    assert HasLeadingPart(Some("Asha Rao"), ' ');
    assert |r| == 4 by {
      assert "Asha Rao"[4] == ' ';
    }
    assert r == "Asha Rao"[..4];
  }

  /** An empty name, or one starting with a space, falls back to the
      e-mail address. */
  lemma GreetsByEmail(name: string)
    requires name == "" || name == " Asha"
    ensures GreetingName(Some(name), Some("asha@example.com")) == "asha"
  {
    var r := GreetingName(Some(name), Some("asha@example.com"));
    assert HasLeadingPart(Some("asha@example.com"), '@');
    assert |r| == 4 by {
      assert "asha@example.com"[4] == '@';
    }
    assert r == "asha@example.com"[..4];
  }

  /** With neither a usable name nor an address part, the greeting is "friend". */
  lemma GreetsAsFriend()
    ensures GreetingName(None, Some("@example.com")) == "friend"
    ensures GreetingName(None, None) == "friend"
  {
  }

  /** `isProfileComplete`: a loaded profile with a non-empty name and a
      truthy age (present and not zero). */
  predicate IsProfileComplete(profile: Option<PS.ProfileForm>) {
    profile.Some? && profile.value.name != "" && profile.value.age.Some? && profile.value.age.value != 0
  }

  /** The prompt card shows once loading is over and the profile is not
      complete. */
  predicate ShowPromptCard(isLoadingProfile: bool, profile: Option<PS.ProfileForm>) {
    !isLoadingProfile && !IsProfileComplete(profile)
  }

  /** Completeness is weaker than the questionnaire's own acceptance: a
      profile the questionnaire accepted never brings the prompt back, but a
      named profile with an age under 12 also counts as complete. */
  lemma CompletenessVersusAcceptance(f: PS.ProfileForm)
    ensures PS.ProfileAccepts(f) ==> IsProfileComplete(Some(f)) && !ShowPromptCard(false, Some(f))
    ensures var young := f.(name := "Asha", age := Some(5));
      IsProfileComplete(Some(young)) && !PS.ProfileAccepts(young)
  {
    PS.ProfileAcceptsIff(f);
    PS.ProfileAcceptsIff(f.(name := "Asha", age := Some(5)));
  }

  /** With no profile stored the prompt shows as soon as loading is over. */
  lemma MissingProfilePrompts()
    ensures ShowPromptCard(false, None) && !ShowPromptCard(true, None)
  {
  }
}
