/** The daily mood check-in form and its validation rules (`innerWeatherSchema`). */
module InnerWeatherSchema {
  import opened Wrappers

  datatype InnerWeatherForm = InnerWeatherForm(
    moodRating: Option<int>,
    emotions: Option<seq<string>>,
    emotionsOther: Option<string>,
    influences: Option<seq<string>>,
    influencesOther: Option<string>,
    stressLevel: Option<int>,
    selfCareToday: Option<string>,
    personalNote: Option<string>
  )

  datatype InnerWeatherIssue =
    | MoodRequired
    | MoodOutOfRange
    | StressRequired
    | StressOutOfRange

  const MoodMin: int := 1
  const MoodMax: int := 5
  const StressMin: int := 1
  const StressMax: int := 10

  /** The issues the schema reports, in field order. */
  function InnerWeatherIssues(f: InnerWeatherForm): (r: seq<InnerWeatherIssue>)
    ensures MoodRequired in r <==> f.moodRating.None?
    ensures MoodOutOfRange in r <==> f.moodRating.Some? && !(MoodMin <= f.moodRating.value <= MoodMax)
    ensures StressRequired in r <==> f.stressLevel.None?
    ensures StressOutOfRange in r <==> f.stressLevel.Some? && !(StressMin <= f.stressLevel.value <= StressMax)
  {
    (match f.moodRating
     case None => [MoodRequired]
     case Some(m) => if m < MoodMin || m > MoodMax then [MoodOutOfRange] else [])
    + (match f.stressLevel
       case None => [StressRequired]
       case Some(s) => if s < StressMin || s > StressMax then [StressOutOfRange] else [])
  }

  predicate InnerWeatherAccepts(f: InnerWeatherForm) {
    InnerWeatherIssues(f) == []
  }

  /** Acceptance is exactly: a mood rating in 1..5 and a stress level in
      1..10, both inclusive and both present. */
  lemma InnerWeatherAcceptsIff(f: InnerWeatherForm)
    ensures InnerWeatherAccepts(f) <==>
      && f.moodRating.Some? && 1 <= f.moodRating.value <= 5
      && f.stressLevel.Some? && 1 <= f.stressLevel.value <= 10
  {
    var r := InnerWeatherIssues(f);
    if r != [] {
      assert r[0] in r;
    }
  }

  /** The boundary values: 1 and 5 (mood) and 1 and 10 (stress) pass, 0, 6 and 11 fail. */
  lemma InnerWeatherBoundaries(f: InnerWeatherForm)
    ensures InnerWeatherAccepts(f.(moodRating := Some(1), stressLevel := Some(1)))
    ensures InnerWeatherAccepts(f.(moodRating := Some(5), stressLevel := Some(10)))
    ensures !InnerWeatherAccepts(f.(moodRating := Some(0)))
    ensures !InnerWeatherAccepts(f.(moodRating := Some(6)))
    ensures !InnerWeatherAccepts(f.(stressLevel := Some(0)))
    ensures !InnerWeatherAccepts(f.(stressLevel := Some(11)))
  {
    InnerWeatherAcceptsIff(f.(moodRating := Some(1), stressLevel := Some(1)));
    InnerWeatherAcceptsIff(f.(moodRating := Some(5), stressLevel := Some(10)));
    InnerWeatherAcceptsIff(f.(moodRating := Some(0)));
    InnerWeatherAcceptsIff(f.(moodRating := Some(6)));
    InnerWeatherAcceptsIff(f.(stressLevel := Some(0)));
    InnerWeatherAcceptsIff(f.(stressLevel := Some(11)));
  }

  /** The optional fields never decide acceptance. */
  lemma InnerWeatherOptionalIrrelevant(f: InnerWeatherForm)
    ensures InnerWeatherAccepts(f) <==>
      InnerWeatherAccepts(InnerWeatherForm(f.moodRating, None, None, None, None, f.stressLevel, None, None))
  {
  }
}
