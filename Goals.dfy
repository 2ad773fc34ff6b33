/** Funding goals of a stream. setGoalProgress maps over the goal list,
    giving each goal with the requested id the new progress and recomputing
    whether it is achieved. */
module Goals {
  import opened Records

  /** The goal list after setGoalProgress(goalId, amount). */
  function SetProgress(goals: seq<Goal>, goalId: GoalId, amount: int): (r: seq<Goal>)
    ensures |r| == |goals|
    ensures forall i :: 0 <= i < |goals| && goals[i].id == goalId ==>
      && r[i].progress == amount
      && r[i].achieved == (amount >= goals[i].target)
      && r[i].(progress := goals[i].progress, achieved := goals[i].achieved) == goals[i]
    ensures forall i :: 0 <= i < |goals| && goals[i].id != goalId ==> r[i] == goals[i]
  {
    if goals == [] then []
    else
      var g := goals[0];
      [if g.id == goalId then g.(progress := amount, achieved := amount >= g.target) else g]
      + SetProgress(goals[1..], goalId, amount)
  }

  function GoalIds(goals: seq<Goal>): seq<GoalId>
  {
    seq(|goals|, i requires 0 <= i < |goals| => goals[i].id)
  }

  /** Every goal is marked achieved exactly when its progress reaches its
      target. */
  predicate Coherent(goals: seq<Goal>)
  {
    forall i :: 0 <= i < |goals| ==> goals[i].achieved == (goals[i].progress >= goals[i].target)
  }

  /** An id no goal carries leaves the goal list as it was. */
  lemma UnknownGoalUnchanged(goals: seq<Goal>, goalId: GoalId, amount: int)
    requires forall i :: 0 <= i < |goals| ==> goals[i].id != goalId
    ensures SetProgress(goals, goalId, amount) == goals
  {
  }

  /** The goal ids and their order are unchanged, so unique ids stay unique. */
  lemma SetProgressKeepsIds(goals: seq<Goal>, goalId: GoalId, amount: int)
    ensures GoalIds(SetProgress(goals, goalId, amount)) == GoalIds(goals)
  {
  }

  /** Setting progress keeps `achieved` in step with progress and target. */
  lemma SetProgressKeepsCoherent(goals: seq<Goal>, goalId: GoalId, amount: int)
    requires Coherent(goals)
    ensures Coherent(SetProgress(goals, goalId, amount))
  {
  }

  /** The later of two settings of the same goal wins; setting it twice to
      the same amount is the same as setting it once. */
  lemma LastSettingWins(goals: seq<Goal>, goalId: GoalId, first: int, second: int)
    ensures SetProgress(SetProgress(goals, goalId, first), goalId, second) == SetProgress(goals, goalId, second)
  {
  }
}
