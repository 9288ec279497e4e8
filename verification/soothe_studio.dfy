/** The self-care studio: guided breathing as a discrete step cycle, the
    affirmation carousel, and the goal form. Timers are replaced by explicit
    ticks; the affirmation generator and the goal store are inputs. */
module SootheStudio {
  import opened Wrappers
  import Strings
  import Seqs

  // ----- Breathing -----

  datatype BreathingType = Box | Ocean | FourSevenEight

  /** One phase of a breathing pattern, with its length in seconds. */
  datatype Step = Step(text: string, duration: nat)

  /** The phases of each exercise. */
  function Pattern(t: BreathingType): (p: seq<Step>)
    ensures |p| >= 1
  {
    match t
    case Box => [Step("Inhale", 4), Step("Hold", 4), Step("Exhale", 4), Step("Hold", 4)]
    case Ocean => [Step("Inhale", 5), Step("Exhale", 5)]
    case FourSevenEight => [Step("Inhale", 4), Step("Hold", 7), Step("Exhale", 8)]
  }

  function ExerciseName(t: BreathingType): string {
    match t
    case Box => "Box Breathing"
    case Ocean => "Ocean Breath"
    case FourSevenEight => "4-7-8 Relaxation Breath"
  }

  /** The length of one full cycle: the phases' durations added up. */
  function TotalDuration(p: seq<Step>): (total: nat)
    ensures forall i :: 0 <= i < |p| ==> p[i].duration <= total
  {
    if |p| == 0 then 0
    else
      assert forall i :: 0 <= i < |p| - 1 ==> p[i] == p[..|p| - 1][i];
      TotalDuration(p[..|p| - 1]) + p[|p| - 1].duration
  }

  /** The length of two patterns played back to back is the sum of their
      lengths, however the phases are split between them. */
  lemma {:induction false} TotalDurationAppend(p: seq<Step>, q: seq<Step>)
    ensures TotalDuration(p + q) == TotalDuration(p) + TotalDuration(q)
    decreases |q|
  {
    if |q| == 0 {
      assert p + q == p;
    } else {
      var q' := q[..|q| - 1];
      assert (p + q)[..|p + q| - 1] == p + q';
      assert (p + q)[|p + q| - 1] == q[|q| - 1];
      TotalDurationAppend(p, q');
    }
  }

  /** The cycle lengths of the three exercises. */
  lemma CycleLengths()
    ensures TotalDuration(Pattern(Box)) == 16
    ensures TotalDuration(Pattern(Ocean)) == 10
    ensures TotalDuration(Pattern(FourSevenEight)) == 19
  {
    var b := Pattern(Box);
    assert b[..1][..0] == [] && b[..2][..1] == b[..1] && b[..3][..2] == b[..2] && b[..4] == b;
    assert TotalDuration(b[..1]) == 4;
    assert TotalDuration(b[..2]) == 8;
    assert TotalDuration(b[..3]) == 12;
    var o := Pattern(Ocean);
    assert o[..1][..0] == [] && o[..2] == o;
    assert TotalDuration(o[..1]) == 5;
    var f := Pattern(FourSevenEight);
    assert f[..1][..0] == [] && f[..2][..1] == f[..1] && f[..3] == f;
    assert TotalDuration(f[..1]) == 4;
    assert TotalDuration(f[..2]) == 11;
  }

  /** The breathing circle: running or not, and the phase on show. */
  datatype Breathing = Breathing(kind: BreathingType, isActive: bool, currentStep: nat)

  /** The phase index always names a phase of the exercise. */
  predicate BreathingValid(b: Breathing) {
    b.currentStep < |Pattern(b.kind)|
  }

  /** "Start Session" (enabled only while stopped): the cycle begins at the
      first phase. */
  function StartSession(b: Breathing): (r: Breathing)
    ensures !b.isActive ==> r.isActive && r.currentStep == 0 && r.kind == b.kind
    ensures b.isActive ==> r == b
    ensures BreathingValid(r) <==> BreathingValid(b) || !b.isActive
  {
    if b.isActive then b else b.(isActive := true, currentStep := 0)
  }

  /** The phase timer firing: the next phase, wrapping to the first after
      the last. */
  function Tick(b: Breathing): (r: Breathing)
    requires BreathingValid(b)
    ensures BreathingValid(r)
    ensures b.isActive ==> r.currentStep == (b.currentStep + 1) % |Pattern(b.kind)|
    ensures !b.isActive ==> r == b
    ensures r.kind == b.kind && r.isActive == b.isActive
  {
    if b.isActive then b.(currentStep := (b.currentStep + 1) % |Pattern(b.kind)|) else b
  }

  /** `k` timer firings in a row. */
  function Ticks(b: Breathing, k: nat): (r: Breathing)
    requires BreathingValid(b)
    ensures BreathingValid(r)
    decreases k
  {
    if k == 0 then b else Ticks(Tick(b), k - 1)
  }

  /** Before the end of the pattern, each firing moves one phase on. */
  lemma {:induction false} TicksClimb(b: Breathing, k: nat)
    requires BreathingValid(b) && b.isActive
    requires b.currentStep + k < |Pattern(b.kind)|
    ensures Ticks(b, k) == b.(currentStep := b.currentStep + k)
    decreases k
  {
    if k > 0 {
      assert Tick(b) == b.(currentStep := b.currentStep + 1);
      TicksClimb(Tick(b), k - 1);
    }
  }

  /** Firings compose: `j` then `k` is `j + k`. */
  lemma {:induction false} TicksCompose(b: Breathing, j: nat, k: nat)
    requires BreathingValid(b)
    ensures Ticks(b, j + k) == Ticks(Ticks(b, j), k)
    decreases j
  {
    if j > 0 {
      TicksCompose(Tick(b), j - 1, k);
    }
  }

  /** A full cycle of firings comes back to the phase it started from: the
      last phase is followed by the first. */
  lemma FullCycleReturns(b: Breathing)
    requires BreathingValid(b) && b.isActive
    ensures Ticks(b, |Pattern(b.kind)|) == b
  {
    var n := |Pattern(b.kind)|;
    var s := b.currentStep;
    TicksClimb(b, n - 1 - s);
    var last := Ticks(b, n - 1 - s);
    var first := b.(currentStep := 0);
    assert n % n == 0;
    assert Tick(last) == first;
    TicksClimb(first, s);
    assert Ticks(first, s) == b;
    TicksCompose(b, n - 1 - s, 1 + s);
    assert Ticks(last, 1 + s) == Ticks(first, s);
  }

  /** Picking another exercise on the radio group. The circle stays mounted
      and keeps running or stopped; its effect re-runs for the new pattern
      and shows that pattern's first phase. Re-picking the same exercise
      changes nothing, since no dependency of the effect changes. */
  function ChangeKind(b: Breathing, t: BreathingType): (r: Breathing)
    requires BreathingValid(b)
    ensures BreathingValid(r)
    ensures r.kind == t && r.isActive == b.isActive
    ensures t != b.kind ==> r.currentStep == 0
    ensures t == b.kind ==> r == b
  {
    if t == b.kind then b else b.(kind := t, currentStep := 0)
  }

  /** "Stop Session": the circle goes back to the first phase. */
  function StopSession(b: Breathing): (r: Breathing)
    ensures !r.isActive && r.currentStep == 0 && r.kind == b.kind
    ensures BreathingValid(r)
  {
    b.(isActive := false, currentStep := 0)
  }

  // ----- Affirmations -----

  /** The carousel: the generated affirmations, the one on show, and the
      generator's spinner. */
  datatype Carousel = Carousel(affirmations: seq<string>, index: nat, isGenerating: bool)

  /** The index names an affirmation, or is 0 when there are none. */
  predicate CarouselValid(c: Carousel) {
    if |c.affirmations| == 0 then c.index == 0 else c.index < |c.affirmations|
  }

  /** The "Next" button: disabled for zero or one affirmation; otherwise the
      following one, wrapping around. */
  function NextAffirmation(c: Carousel): (r: Carousel)
    requires CarouselValid(c)
    ensures CarouselValid(r)
    ensures r.affirmations == c.affirmations && r.isGenerating == c.isGenerating
    ensures |c.affirmations| <= 1 ==> r == c
    ensures |c.affirmations| > 1 ==> r.index == (c.index + 1) % |c.affirmations| && r.index != c.index
  {
    if |c.affirmations| <= 1 then c
    else c.(index := (c.index + 1) % |c.affirmations|)
  }

  /** Asking for a new set: the list is emptied and the index reset before
      the generator answers. */
  function StartFetch(c: Carousel): (r: Carousel)
    ensures r.affirmations == [] && r.index == 0 && r.isGenerating
    ensures CarouselValid(r)
  {
    Carousel([], 0, true)
  }

  /** The generator always answers with exactly this many affirmations. */
  const AffirmationCount := 5

  /** The generator's answer arriving: its list on success, the list as it
      stands on failure; the spinner stops either way and the index is left
      alone. The category picker stays enabled while a fetch is out, so an
      earlier fetch may already have installed a list and the index moved on
      by the time this answer lands; since every generated list has the same
      length, the index still names an affirmation. */
  function FinishFetch(c: Carousel, generated: Option<seq<string>>): (r: Carousel)
    ensures !r.isGenerating && r.index == c.index
    ensures generated.Some? ==> r.affirmations == generated.value
    ensures generated.None? ==> r.affirmations == c.affirmations
    ensures generated.None? ==> (CarouselValid(r) <==> CarouselValid(c))
    ensures CarouselValid(c) && generated.Some? && |c.affirmations| <= |generated.value| ==> CarouselValid(r)
  {
    match generated
    case Some(list) => c.(affirmations := list, isGenerating := false)
    case None => c.(isGenerating := false)
  }

  /** A fetch that runs alone starts the carousel over at the first
      affirmation of the new list, whatever was on show before. */
  lemma FetchStartsOver(c: Carousel, generated: Option<seq<string>>)
    ensures var r := FinishFetch(StartFetch(c), generated);
      CarouselValid(r) && r.index == 0
      && r.affirmations == (if generated.Some? then generated.value else [])
  {
  }

  /** Two fetches overlap: the category is changed twice, the first answer
      lands, "Next" is pressed twice, then the second answer lands. The
      second list is shown from the third affirmation, not the first, and
      the carousel is still valid. */
  lemma OverlappingFetches(a: seq<string>, b: seq<string>)
    requires |a| == AffirmationCount && |b| == AffirmationCount
    ensures var c := StartFetch(StartFetch(Carousel([], 0, false)));
      var r := FinishFetch(NextAffirmation(NextAffirmation(FinishFetch(c, Some(a)))), Some(b));
      r == Carousel(b, 2, false) && CarouselValid(r)
  {
  }

  // ----- Goals -----

  /** The goal form. */
  datatype GoalForm = GoalForm(mainGoal: string, subGoals: seq<string>, goalTime: string, goalMood: string, isSaving: bool)

  const EmptySubGoals: seq<string> := ["", "", ""]

  const InitialGoalForm: GoalForm := GoalForm("", EmptySubGoals, "Daily", "Anxious", false)

  /** Typing into one sub-goal box: only that entry changes. */
  function SubGoalChange(f: GoalForm, index: nat, value: string): (r: GoalForm)
    requires index < |f.subGoals|
    ensures |r.subGoals| == |f.subGoals| && r.subGoals[index] == value
    ensures forall i :: 0 <= i < |f.subGoals| && i != index ==> r.subGoals[i] == f.subGoals[i]
    ensures r == f.(subGoals := r.subGoals)
  {
    f.(subGoals := f.subGoals[index := value])
  }

  /** The goal handed to the store. */
  datatype GoalRecord = GoalRecord(uid: string, mainGoal: string, subGoals: seq<string>,
                                   timeFocus: string, moodFocus: string, completed: bool)

  /** The notice after an attempt. */
  datatype GoalToast = MustLogIn | MainGoalEmpty | GoalSaved | GoalSaveFailed

  /** The sub-goals that are kept: those with something other than
      whitespace in them, in their order. */
  function KeptSubGoals(subGoals: seq<string>): (r: seq<string>)
    ensures forall x :: x in r <==> x in subGoals && Strings.Trim(x) != ""
  {
    Seqs.Filter(subGoals, (g: string) => Strings.Trim(g) != "")
  }

  /** The kept sub-goals are exactly the non-blank ones, and their order is
      the form's order. */
  lemma KeptSubGoalsNonBlank(a: seq<string>, b: seq<string>)
    ensures forall x :: x in KeptSubGoals(a) <==> x in a && !Strings.IsBlank(x)
    ensures KeptSubGoals(a + b) == KeptSubGoals(a) + KeptSubGoals(b)
  {
    forall x ensures Strings.Trim(x) == "" <==> Strings.IsBlank(x) {
      Strings.TrimEmptyIffBlank(x);
    }
    Seqs.FilterAppend(a, b, (g: string) => Strings.Trim(g) != "");
  }

  /** `handleSaveGoal`: rejected with no user or a blank main goal;
      otherwise the goal is sent to the store (main goal as typed, kept
      sub-goals, not completed) and, once stored, the form is cleared. */
  function SaveGoal(f: GoalForm, user: Option<string>, storeOk: bool): (r: (GoalForm, Option<GoalRecord>, GoalToast))
    ensures r.1.Some? <==> user.Some? && Strings.Trim(f.mainGoal) != ""
    ensures user.None? ==> r == (f, None, MustLogIn)
    ensures user.Some? && Strings.Trim(f.mainGoal) == "" ==> r == (f, None, MainGoalEmpty)
    ensures r.1.Some? ==>
      && r.1.value.uid == user.value && r.1.value.mainGoal == f.mainGoal && !r.1.value.completed
      && r.1.value.subGoals == KeptSubGoals(f.subGoals)
      && r.1.value.timeFocus == f.goalTime && r.1.value.moodFocus == f.goalMood
    ensures r.1.Some? && storeOk ==> r.0 == f.(mainGoal := "", subGoals := EmptySubGoals, isSaving := false) && r.2 == GoalSaved
    ensures r.1.Some? && !storeOk ==> r.0 == f.(isSaving := false) && r.2 == GoalSaveFailed
  {
    if user.None? then (f, None, MustLogIn)
    else if Strings.Trim(f.mainGoal) == "" then (f, None, MainGoalEmpty)
    else
      var record := GoalRecord(user.value, f.mainGoal, KeptSubGoals(f.subGoals), f.goalTime, f.goalMood, false);
      if storeOk then (f.(mainGoal := "", subGoals := EmptySubGoals, isSaving := false), Some(record), GoalSaved)
      else (f.(isSaving := false), Some(record), GoalSaveFailed)
  }

  /** A whitespace-only main goal is refused like an empty one. */
  lemma BlankMainGoalRefused(f: GoalForm, uid: string, storeOk: bool)
    requires Strings.IsBlank(f.mainGoal)
    ensures SaveGoal(f, Some(uid), storeOk).1.None?
  {
    Strings.TrimEmptyIffBlank(f.mainGoal);
  }
}
