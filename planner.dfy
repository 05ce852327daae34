/** The daily planner: a fixed list of objectives whose completion the user toggles. */
module Planner {
  import opened Types

  const InitialGoals: seq<DailyObjective> := [
    DailyObjective("1", "Review Ghana-China Trade Compliance", High, false, "10:00 AM"),
    DailyObjective("2", "Audit BigCapital Q2 Projections", High, true, "11:30 AM"),
    DailyObjective("3", "AI Language Partner Call (Spanish)", Medium, false, "02:00 PM"),
    DailyObjective("4", "Capital Allocation Strategy Update", Low, false, "04:30 PM")
  ]

  /** The list update of `toggleGoal`. */
  function Toggled(goals: seq<DailyObjective>, id: string): seq<DailyObjective> {
    seq(|goals|, i requires 0 <= i < |goals| =>
      if goals[i].id == id then goals[i].(completed := !goals[i].completed) else goals[i])
  }

  /**
   * Toggling flips `completed` on the goals with that id and changes nothing
   * else: length, order and every other goal stay as they were.
   */
  lemma ToggledSpec(goals: seq<DailyObjective>, id: string)
    ensures |Toggled(goals, id)| == |goals|
    ensures forall i :: 0 <= i < |goals| ==>
      if goals[i].id == id
      then Toggled(goals, id)[i].completed == !goals[i].completed
           && Toggled(goals, id)[i].(completed := goals[i].completed) == goals[i]
      else Toggled(goals, id)[i] == goals[i]
  {
  }

  /** Toggling the same id twice gives back the original list. */
  lemma ToggleTwice(goals: seq<DailyObjective>, id: string)
    ensures Toggled(Toggled(goals, id), id) == goals
  {
  }

  /** Toggling an id that no goal has is a no-op. */
  lemma ToggleAbsent(goals: seq<DailyObjective>, id: string)
    requires forall i :: 0 <= i < |goals| ==> goals[i].id != id
    ensures Toggled(goals, id) == goals
  {
  }

  /** Toggling two ids in either order gives the same list. */
  lemma ToggleCommutes(goals: seq<DailyObjective>, a: string, b: string)
    ensures Toggled(Toggled(goals, a), b) == Toggled(Toggled(goals, b), a)
  {
  }

  class Planner {
    var goals: seq<DailyObjective>

    constructor ()
      ensures goals == InitialGoals
    {
      goals := InitialGoals;
    }

    /** `toggleGoal`. */
    method ToggleGoal(id: string)
      modifies this
      ensures goals == Toggled(old(goals), id)
    {
      goals := Toggled(goals, id);
    }
  }
}
