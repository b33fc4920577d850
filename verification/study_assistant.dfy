/**
 * The study planner: a task list (add, toggle done, delete), a goal list (add), the
 * priority colour lookup and the completion rate shown as a whole percentage.
 */
module StudyAssistant {
  import Seqs
  import Text
  import Numbers

  datatype Priority = Low | Medium | High

  datatype Task = Task(id: string, title: string, completed: bool, priority: Priority)

  datatype StudyGoal = StudyGoal(id: string, title: string, description: string, deadline: string, progress: int)

  /** The fields of the new-goal form. */
  datatype GoalForm = GoalForm(title: string, description: string, deadline: string)

  const EmptyGoalForm := GoalForm("", "", "")

  /** The priority as the source spells it. */
  function PriorityName(p: Priority): string
  {
    match p
    case Low => "low"
    case Medium => "medium"
    case High => "high"
  }

  /** The colour classes of `getPriorityColor`, by the colour they use. */
  datatype PriorityColor = Red | Yellow | Green | Gray

  /** `getPriorityColor`: a switch on the priority string with a gray default. */
  function PriorityColorOf(priority: string): (c: PriorityColor)
    ensures c == Gray <==> priority != "high" && priority != "medium" && priority != "low"
  {
    if priority == "high" then Red
    else if priority == "medium" then Yellow
    else if priority == "low" then Green
    else Gray
  }

  /** Each priority a task can carry has its own colour; only unknown strings fall back to gray. */
  lemma PriorityColorsDistinct(p: Priority, q: Priority, other: string)
    requires other != "high" && other != "medium" && other != "low"
    ensures PriorityColorOf(PriorityName(p)) != Gray
    ensures p != q ==> PriorityColorOf(PriorityName(p)) != PriorityColorOf(PriorityName(q))
    ensures PriorityColorOf(other) == Gray
  {
  }

  // ---------------------------------------------------------------------------------------
  // Task list operations

  /** `tasks.map(t => t.id === id ? { ...t, completed: !t.completed } : t)`. */
  function ToggledById(tasks: seq<Task>, id: string): (r: seq<Task>)
    ensures |r| == |tasks|
    ensures forall i :: 0 <= i < |r| ==>
      && r[i].id == tasks[i].id && r[i].title == tasks[i].title && r[i].priority == tasks[i].priority
      && (r[i].completed == if tasks[i].id == id then !tasks[i].completed else tasks[i].completed)
  {
    if tasks == [] then []
    else
      var t := tasks[0];
      [if t.id == id then t.(completed := !t.completed) else t] + ToggledById(tasks[1..], id)
  }

  /** Toggling the same id twice gives back the list. */
  lemma ToggleTwiceIsIdentity(tasks: seq<Task>, id: string)
    ensures ToggledById(ToggledById(tasks, id), id) == tasks
  {
    var r := ToggledById(ToggledById(tasks, id), id);
    assert forall i :: 0 <= i < |tasks| ==> r[i] == tasks[i];
  }

  /** `tasks.filter(t => t.id !== id)`. */
  function WithoutId(tasks: seq<Task>, id: string): (r: seq<Task>)
    ensures |r| <= |tasks|
    ensures forall t :: t in r ==> t.id != id
    ensures forall t :: multiset(r)[t] == if t.id != id then multiset(tasks)[t] else 0
  {
    Seqs.Filter((t: Task) => t.id != id, tasks)
  }

  /** Deleting removes every task of that id and keeps the others, in their order. */
  lemma DeleteRemovesOnlyThatId(tasks: seq<Task>, id: string)
    ensures forall t :: t in WithoutId(tasks, id) <==> t in tasks && t.id != id
    ensures Seqs.IsSubsequence(WithoutId(tasks, id), tasks)
  {
    Seqs.FilterIsSubsequence((t: Task) => t.id != id, tasks);
  }

  predicate IsDone(t: Task)
  {
    t.completed
  }

  /** The number of completed tasks, `tasks.filter(t => t.completed).length`. */
  function CompletedCount(tasks: seq<Task>): (n: nat)
    ensures n <= |tasks|
    ensures n == 0 <==> forall i :: 0 <= i < |tasks| ==> !tasks[i].completed
    ensures n == |tasks| <==> forall i :: 0 <= i < |tasks| ==> tasks[i].completed
  {
    if tasks == [] then 0
    else (if tasks[0].completed then 1 else 0) + CompletedCount(tasks[1..])
  }

  /** The count is the length of the list of completed tasks that `filter` builds. */
  lemma {:induction false} CompletedCountIsFilterLength(tasks: seq<Task>)
    ensures CompletedCount(tasks) == |Seqs.Filter(IsDone, tasks)|
  {
    if tasks != [] {
      CompletedCountIsFilterLength(tasks[1..]);
    }
  }

  /** The share `done / total` as a percentage, as an exact real. */
  function Share(done: nat, total: nat): real
    requires total > 0
  {
    done as real / total as real * 100.0
  }

  lemma ShareBounds(done: nat, total: nat)
    requires 0 < total && done <= total
    ensures 0.0 <= Share(done, total) <= 100.0
    ensures done == 0 ==> Share(done, total) == 0.0
    ensures done == total ==> Share(done, total) == 100.0
  {
    assert done as real / total as real <= 1.0;
  }

  lemma ShareMonotone(a: nat, b: nat, total: nat)
    requires 0 < total && a <= b
    ensures Share(a, total) <= Share(b, total)
  {
    assert a as real / total as real <= b as real / total as real;
  }

  /** `completionRate`: 0 for no tasks, else the rounded percentage of completed tasks. */
  function CompletionRate(tasks: seq<Task>): (rate: int)
    ensures 0 <= rate <= 100
    ensures CompletedCount(tasks) == 0 ==> rate == 0
    ensures tasks != [] && CompletedCount(tasks) == |tasks| ==> rate == 100
    ensures tasks != [] ==>
      (rate as real) - 0.5 <= Share(CompletedCount(tasks), |tasks|) < (rate as real) + 0.5
  {
    if |tasks| > 0 then
      var share := Share(CompletedCount(tasks), |tasks|);
      ShareBounds(CompletedCount(tasks), |tasks|);
      Numbers.RoundBetween(share, 0, 100);
      Numbers.Round(share)
    else 0
  }

  /** Completing more tasks of a list of the same length never lowers the rate. */
  lemma CompletionRateMonotone(tasks: seq<Task>, more: seq<Task>)
    requires |tasks| == |more| && CompletedCount(tasks) <= CompletedCount(more)
    ensures CompletionRate(tasks) <= CompletionRate(more)
  {
    if |tasks| > 0 {
      ShareMonotone(CompletedCount(tasks), CompletedCount(more), |tasks|);
      Numbers.RoundMonotone(Share(CompletedCount(tasks), |tasks|), Share(CompletedCount(more), |tasks|));
    }
  }

  /**
   * Toggling tasks that are not done raises the completed count by the number of tasks
   * with that id, and never lowers the rate.
   */
  lemma {:induction false} ToggleUndoneRaisesCount(tasks: seq<Task>, id: string)
    requires forall i :: 0 <= i < |tasks| && tasks[i].id == id ==> !tasks[i].completed
    ensures CompletedCount(ToggledById(tasks, id)) == CompletedCount(tasks) + (|tasks| - |WithoutId(tasks, id)|)
    ensures CompletionRate(ToggledById(tasks, id)) >= CompletionRate(tasks)
  {
    if tasks != [] {
      ToggleUndoneRaisesCount(tasks[1..], id);
      assert ToggledById(tasks, id)[1..] == ToggledById(tasks[1..], id);
    }
    CompletionRateMonotone(tasks, ToggledById(tasks, id));
  }

  // ---------------------------------------------------------------------------------------
  // The panel's state

  class StudyPlanner {
    var tasks: seq<Task>
    var goals: seq<StudyGoal>
    var newTask: string
    var newGoal: GoalForm

    /** The three sample tasks and two sample goals the panel starts with, and empty forms. */
    constructor ()
      ensures |tasks| == 3 && |goals| == 2 && newTask == "" && newGoal == EmptyGoalForm
      ensures CompletedCount(tasks) == 1
    {
      tasks := [
        Task("1", "Review math chapter 5", false, High),
        Task("2", "Complete history essay", true, Medium),
        Task("3", "Practice Spanish vocabulary", false, Low)];
      goals := [
        StudyGoal("1", "Master Calculus", "Complete all calculus assignments and prepare for final exam", "2025-12-15", 65),
        StudyGoal("2", "Improve Writing Skills", "Write 3 essays per week and get feedback", "2025-11-30", 40)];
      newTask := "";
      newGoal := EmptyGoalForm;
    }

    /** The new-task box. */
    method SetNewTask(text: string)
      modifies this
      ensures newTask == text && tasks == old(tasks) && goals == old(goals) && newGoal == old(newGoal)
    {
      newTask := text;
    }

    /** The three fields of the new-goal form. */
    method SetGoalForm(form: GoalForm)
      modifies this
      ensures newGoal == form && tasks == old(tasks) && goals == old(goals) && newTask == old(newTask)
    {
      newGoal := form;
    }

    /**
     * `addTask`: a blank title changes nothing; otherwise one incomplete medium-priority task
     * is appended and the input is cleared. `freshId` stands for the clock-derived id.
     */
    method AddTask(freshId: string)
      modifies this
      ensures goals == old(goals) && newGoal == old(newGoal)
      ensures Text.IsBlank(old(newTask)) ==> tasks == old(tasks) && newTask == old(newTask)
      ensures !Text.IsBlank(old(newTask)) ==>
        tasks == old(tasks) + [Task(freshId, old(newTask), false, Medium)] && newTask == ""
    {
      if !Text.IsBlank(newTask) {
        tasks := tasks + [Task(freshId, newTask, false, Medium)];
        newTask := "";
      }
    }

    /** `toggleTask`. */
    method ToggleTask(id: string)
      modifies this
      ensures tasks == ToggledById(old(tasks), id)
      ensures goals == old(goals) && newTask == old(newTask) && newGoal == old(newGoal)
    {
      tasks := ToggledById(tasks, id);
    }

    /** `deleteTask`. */
    method DeleteTask(id: string)
      modifies this
      ensures tasks == WithoutId(old(tasks), id)
      ensures goals == old(goals) && newTask == old(newTask) && newGoal == old(newGoal)
    {
      tasks := WithoutId(tasks, id);
    }

    /**
     * `addGoal`: a blank title changes nothing; otherwise one goal with progress 0 is
     * appended and the form is cleared.
     */
    method AddGoal(freshId: string)
      modifies this
      ensures tasks == old(tasks) && newTask == old(newTask)
      ensures Text.IsBlank(old(newGoal).title) ==> goals == old(goals) && newGoal == old(newGoal)
      ensures !Text.IsBlank(old(newGoal).title) ==>
        && goals == old(goals) + [StudyGoal(freshId, old(newGoal).title, old(newGoal).description, old(newGoal).deadline, 0)]
        && newGoal == EmptyGoalForm
    {
      if !Text.IsBlank(newGoal.title) {
        goals := goals + [StudyGoal(freshId, newGoal.title, newGoal.description, newGoal.deadline, 0)];
        newGoal := EmptyGoalForm;
      }
    }
  }
}
