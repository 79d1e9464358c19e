/** The local goal-list updates of the dashboard page
    (frontend/src/app/page.tsx). Each handler awaits a database call, rethrows
    its error before touching the list, and otherwise hands a new list to
    `setGoals`. The database reply is an input. */
module GoalList {
  import opened Js
  import opened Strings

  /** A `learning_goals` row; the timestamps are not modelled. */
  datatype Goal = Goal(id: string, title: string, description: Option<string>)

  /** What a `.single()` query returned: an error, or the row. */
  datatype RowReply = RowError | Row(row: Goal)

  /** The list after the handler, and whether the handler threw. */
  datatype ListUpdate = ListUpdate(goals: seq<Goal>, raised: bool)

  /** `goals.map(goal => goal.id === id ? data : goal)` */
  function ReplaceById(goals: seq<Goal>, id: string, row: Goal): (r: seq<Goal>)
    ensures |r| == |goals|
    ensures forall i :: 0 <= i < |goals| ==> r[i] == if goals[i].id == id then row else goals[i]
  {
    if goals == [] then []
    else [if goals[0].id == id then row else goals[0]] + ReplaceById(goals[1..], id, row)
  }

  /** `goals.filter(goal => goal.id !== id)` */
  function RemoveById(goals: seq<Goal>, id: string): (r: seq<Goal>)
    ensures |r| <= |goals|
  {
    if goals == [] then []
    else (if goals[0].id != id then [goals[0]] else []) + RemoveById(goals[1..], id)
  }

  /** `handleAddGoal`: the inserted row goes first. */
  function AddGoal(goals: seq<Goal>, reply: RowReply): (r: ListUpdate)
    ensures reply.RowError? ==> r == ListUpdate(goals, true)
    ensures reply.Row? ==> !r.raised && |r.goals| == |goals| + 1 && r.goals[0] == reply.row && r.goals[1..] == goals
  {
    match reply
    case RowError => ListUpdate(goals, true)
    case Row(data) => ListUpdate([data] + goals, false)
  }

  /** `handleUpdateGoal` */
  function UpdateGoal(goals: seq<Goal>, id: string, reply: RowReply): (r: ListUpdate)
    ensures reply.RowError? ==> r == ListUpdate(goals, true)
    ensures reply.Row? ==> !r.raised && r.goals == ReplaceById(goals, id, reply.row)
  {
    match reply
    case RowError => ListUpdate(goals, true)
    case Row(data) => ListUpdate(ReplaceById(goals, id, data), false)
  }

  /** `handleDeleteGoal`; the delete query returns no row, only whether it failed. */
  function DeleteGoal(goals: seq<Goal>, id: string, failed: bool): (r: ListUpdate)
    ensures failed ==> r == ListUpdate(goals, true)
    ensures !failed ==> !r.raised && r.goals == RemoveById(goals, id)
  {
    if failed then ListUpdate(goals, true) else ListUpdate(RemoveById(goals, id), false)
  }

  // ---------------------------------------------------------------- properties

  /** A delete removes every entry with that id and keeps the rest, in order
      and with every copy. */
  lemma {:induction false} RemoveByIdKeepsOthers(goals: seq<Goal>, id: string, g: Goal)
    ensures g in RemoveById(goals, id) <==> g in goals && g.id != id
    ensures IsSubsequence(RemoveById(goals, id), goals)
    ensures multiset(RemoveById(goals, id))[g] == if g.id != id then multiset(goals)[g] else 0
  {
    if goals != [] {
      RemoveByIdKeepsOthers(goals[1..], id, g);
      var rest := RemoveById(goals[1..], id);
      assert goals == [goals[0]] + goals[1..];
      assert multiset(goals) == multiset([goals[0]]) + multiset(goals[1..]);
      if goals[0].id != id {
        var r := RemoveById(goals, id);
        assert r[0] == goals[0] && r[1..] == rest;
      } else {
        assert RemoveById(goals, id) == rest;
        SubsequenceConsRight(rest, goals[0], goals[1..]);
      }
    }
  }

  /** Deleting an id that is not in the list changes nothing. */
  lemma {:induction false} RemoveAbsentId(goals: seq<Goal>, id: string)
    requires forall i :: 0 <= i < |goals| ==> goals[i].id != id
    ensures RemoveById(goals, id) == goals
  {
    if goals != [] {
      RemoveAbsentId(goals[1..], id);
      assert goals == [goals[0]] + goals[1..];
    }
  }

  /** Updating an id replaces its entries with the returned row; when the row
      keeps that id, deleting afterwards gives the same list as deleting before. */
  lemma {:induction false} UpdateThenDelete(goals: seq<Goal>, id: string, row: Goal)
    requires row.id == id
    ensures RemoveById(ReplaceById(goals, id, row), id) == RemoveById(goals, id)
  {
    if goals != [] {
      UpdateThenDelete(goals[1..], id, row);
      var r := ReplaceById(goals, id, row);
      assert r[1..] == ReplaceById(goals[1..], id, row);
    }
  }

  /** A failed database call leaves the list as it was, whichever handler ran. */
  lemma ErrorLeavesListUnchanged(goals: seq<Goal>, id: string)
    ensures AddGoal(goals, RowError).goals == goals
    ensures UpdateGoal(goals, id, RowError).goals == goals
    ensures DeleteGoal(goals, id, true).goals == goals
  {
  }
}
