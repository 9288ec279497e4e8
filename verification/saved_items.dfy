/** The saved-items page: goals ticked off and affirmations removed
    optimistically, with the list restored when the store refuses. */
module SavedItems {
  import Seqs

  /** A saved goal; only its id and completion flag matter here. */
  datatype SavedGoal = SavedGoal(id: string, mainGoal: string, completed: bool)

  /** A saved affirmation. */
  datatype SavedAffirmation = SavedAffirmation(id: string, text: string)

  /** The notice after an attempt. */
  datatype Toast = Success(message: string) | Failure(message: string)

  /** The local toggle: every goal with the id gets `completed` set to the
      negation of the status the button showed; the others are untouched. */
  function ToggleGoal(goals: seq<SavedGoal>, goalId: string, currentStatus: bool): (r: seq<SavedGoal>)
    ensures |r| == |goals|
    ensures forall i :: 0 <= i < |r| ==> r[i].id == goals[i].id && r[i].mainGoal == goals[i].mainGoal
    ensures forall i :: 0 <= i < |r| && goals[i].id != goalId ==> r[i] == goals[i]
    ensures forall i :: 0 <= i < |r| && goals[i].id == goalId ==> r[i].completed == !currentStatus
  {
    seq(|goals|, i requires 0 <= i < |goals| =>
      if goals[i].id == goalId then goals[i].(completed := !currentStatus) else goals[i])
  }

  /** Every goal with the id shows `status`. */
  predicate ShowsStatus(goals: seq<SavedGoal>, goalId: string, status: bool) {
    forall i :: 0 <= i < |goals| && goals[i].id == goalId ==> goals[i].completed == status
  }

  /** Clicking twice, each time with the status then shown, gives back the
      original list. */
  lemma ToggleTwiceRestores(goals: seq<SavedGoal>, goalId: string, currentStatus: bool)
    requires ShowsStatus(goals, goalId, currentStatus)
    ensures ShowsStatus(ToggleGoal(goals, goalId, currentStatus), goalId, !currentStatus)
    ensures ToggleGoal(ToggleGoal(goals, goalId, currentStatus), goalId, !currentStatus) == goals
  {
    var once := ToggleGoal(goals, goalId, currentStatus);
    var twice := ToggleGoal(once, goalId, !currentStatus);
    assert forall i :: 0 <= i < |goals| ==> twice[i] == goals[i];
  }

  /** The toggle sets rather than flips: repeating it with the same shown
      status changes nothing further. */
  lemma ToggleSameStatusIdempotent(goals: seq<SavedGoal>, goalId: string, currentStatus: bool)
    ensures ToggleGoal(ToggleGoal(goals, goalId, currentStatus), goalId, currentStatus)
      == ToggleGoal(goals, goalId, currentStatus)
  {
  }

  /** `handleToggleGoal`: the toggled list when the store accepts the
      change, the list as it was before the click when it does not. */
  function HandleToggleGoal(goals: seq<SavedGoal>, goalId: string, currentStatus: bool, storeOk: bool)
    : (r: (seq<SavedGoal>, Toast))
    ensures !storeOk ==> r.0 == goals && r.1 == Failure("Could not update goal.")
    ensures storeOk ==> r.0 == ToggleGoal(goals, goalId, currentStatus) && r.1.Success?
    ensures |r.0| == |goals|
  {
    var updated := ToggleGoal(goals, goalId, currentStatus);
    if storeOk then
      (updated, Success("Goal marked as " + (if !currentStatus then "complete" else "incomplete") + "."))
    else
      (goals, Failure("Could not update goal."))
  }

  /** The local delete: every affirmation with the id is dropped. */
  function DeleteAffirmation(affirmations: seq<SavedAffirmation>, affirmationId: string): (r: seq<SavedAffirmation>)
    ensures |r| <= |affirmations|
    ensures forall a :: a in r <==> a in affirmations && a.id != affirmationId
  {
    Seqs.Filter(affirmations, (a: SavedAffirmation) => a.id != affirmationId)
  }

  /** Deleting an id no affirmation carries leaves the list as it was. */
  lemma DeleteAbsentUnchanged(affirmations: seq<SavedAffirmation>, affirmationId: string)
    requires forall i :: 0 <= i < |affirmations| ==> affirmations[i].id != affirmationId
    ensures DeleteAffirmation(affirmations, affirmationId) == affirmations
  {
    Seqs.FilterKeepAll(affirmations, (a: SavedAffirmation) => a.id != affirmationId);
  }

  /** Deleting keeps the remaining affirmations in their order: it commutes
      with splitting the list anywhere. */
  lemma DeleteKeepsOrder(a: seq<SavedAffirmation>, b: seq<SavedAffirmation>, affirmationId: string)
    ensures DeleteAffirmation(a + b, affirmationId) == DeleteAffirmation(a, affirmationId) + DeleteAffirmation(b, affirmationId)
  {
    Seqs.FilterAppend(a, b, (x: SavedAffirmation) => x.id != affirmationId);
  }

  /** `handleDeleteAffirmation`: the shortened list when the store deletes,
      the original list when it does not. */
  function HandleDeleteAffirmation(affirmations: seq<SavedAffirmation>, affirmationId: string, storeOk: bool)
    : (r: (seq<SavedAffirmation>, Toast))
    ensures !storeOk ==> r.0 == affirmations && r.1 == Failure("Could not remove affirmation.")
    ensures storeOk ==> r.0 == DeleteAffirmation(affirmations, affirmationId) && r.1 == Success("Affirmation removed.")
    ensures storeOk ==> forall a :: a in r.0 ==> a.id != affirmationId
  {
    var updated := DeleteAffirmation(affirmations, affirmationId);
    if storeOk then (updated, Success("Affirmation removed."))
    else (affirmations, Failure("Could not remove affirmation."))
  }
}
