/** The savings-goal tracker (src/pages/GoalsPage.tsx): a list of goals that the
    page appends to, deletes from and adds contributions to, and the figures it
    derives from each goal and from the whole list. */
module Goals {
  import opened Options
  import opened Sums

  /** A savings goal. The deadline is kept as the text the user entered. */
  datatype SavingsGoal = SavingsGoal(
    id: string,
    title: string,
    targetAmount: real,
    currentAmount: real,
    deadline: string,
    category: string)

  /** The add-goal form as typed: every field is text, and an empty text counts as missing. */
  datatype GoalDraft = GoalDraft(title: string, targetAmount: string, deadline: string, category: string)

  const EmptyDraft: GoalDraft := GoalDraft("", "", "", "")

  /** A goal's saved amount lies between 0 and its target. */
  predicate Clamped(g: SavingsGoal)
  {
    0.0 <= g.currentAmount <= g.targetAmount
  }

  predicate AllClamped(goals: seq<SavingsGoal>)
  {
    forall i :: 0 <= i < |goals| ==> Clamped(goals[i])
  }

  /** `Math.max(0, Math.min(target, x))`. */
  function ClampAmount(target: real, x: real): (r: real)
    ensures target >= 0.0 ==> 0.0 <= r <= target
    ensures 0.0 <= x <= target ==> r == x
    ensures target >= 0.0 && x >= target ==> r == target
    ensures x <= 0.0 ==> r == 0.0
  {
    var capped := if target < x then target else x;
    if 0.0 < capped then capped else 0.0
  }

  /** A goal after a contribution of `amount` (which may be negative): only the saved
      amount changes, and it is clamped to [0, target]. */
  function Contribute(g: SavingsGoal, amount: real): (g': SavingsGoal)
    ensures g'.id == g.id && g'.title == g.title && g'.targetAmount == g.targetAmount
    ensures g'.deadline == g.deadline && g'.category == g.category
    ensures g.targetAmount >= 0.0 ==> Clamped(g')
    ensures 0.0 <= g.currentAmount + amount <= g.targetAmount ==> g'.currentAmount == g.currentAmount + amount
  {
    g.(currentAmount := ClampAmount(g.targetAmount, g.currentAmount + amount))
  }

  /** A contribution does not undo itself: contributing a non-negative amount to a
      clamped goal never lowers its saved amount. */
  lemma ContributeMonotone(g: SavingsGoal, amount: real)
    requires Clamped(g) && amount >= 0.0
    ensures g.currentAmount <= Contribute(g, amount).currentAmount
  {
  }

  /** The goals with an id other than `id`, in their original order. */
  function RemoveById(goals: seq<SavingsGoal>, id: string): (r: seq<SavingsGoal>)
    ensures |r| <= |goals|
    ensures forall g :: g in r <==> g in goals && g.id != id
  {
    if goals == [] then []
    else if goals[0].id != id then [goals[0]] + RemoveById(goals[1..], id)
    else RemoveById(goals[1..], id)
  }

  /** Deleting keeps every other goal as often as it occurred. */
  lemma {:induction false} RemoveByIdCounts(goals: seq<SavingsGoal>, id: string, g: SavingsGoal)
    ensures multiset(RemoveById(goals, id))[g] == if g.id == id then 0 else multiset(goals)[g]
  {
    if goals != [] {
      RemoveByIdCounts(goals[1..], id, g);
      assert goals == [goals[0]] + goals[1..];
    }
  }

  /** Deleting keeps the order: it distributes over concatenation. */
  lemma {:induction false} RemoveByIdAppend(a: seq<SavingsGoal>, b: seq<SavingsGoal>, id: string)
    ensures RemoveById(a + b, id) == RemoveById(a, id) + RemoveById(b, id)
  {
    if a == [] {
      assert a + b == b;
    } else {
      assert (a + b)[1..] == a[1..] + b;
      RemoveByIdAppend(a[1..], b, id);
    }
  }

  /** Deleting an id no goal has changes nothing. */
  lemma {:induction false} RemoveAbsentId(goals: seq<SavingsGoal>, id: string)
    requires forall i :: 0 <= i < |goals| ==> goals[i].id != id
    ensures RemoveById(goals, id) == goals
  {
    if goals != [] {
      RemoveAbsentId(goals[1..], id);
      assert goals == [goals[0]] + goals[1..];
    }
  }

  /** `Math.min(100, current / target * 100)`. A zero target divides by zero: a
      positive saved amount then gives infinity, capped to 100, while 0 or a negative
      saved amount gives `NaN` or negative infinity, neither a number (`None`). */
  function ProgressPercentage(current: real, target: real): (p: Option<real>)
    ensures target != 0.0 ==> p.Some? && p.value <= 100.0
    ensures target == 0.0 ==> (p.Some? <==> current > 0.0) && (p.Some? ==> p.value == 100.0)
    ensures target > 0.0 && current >= target ==> p == Some(100.0)
    ensures target > 0.0 && 0.0 <= current ==> 0.0 <= p.value
    ensures target > 0.0 && current < target ==> p.value * target == current * 100.0
  {
    if target == 0.0 then (if current > 0.0 then Some(100.0) else None)
    else
      var ratio := current / target * 100.0;
      Some(if ratio < 100.0 then ratio else 100.0)
  }

  /** For a positive target the percentage never decreases as the saved amount grows. */
  lemma ProgressMonotone(c1: real, c2: real, target: real)
    requires target > 0.0 && c1 <= c2
    ensures ProgressPercentage(c1, target).value <= ProgressPercentage(c2, target).value
  {
    assert c1 / target <= c2 / target by {
      assert (c2 - c1) / target >= 0.0;
      assert c2 / target - c1 / target == (c2 - c1) / target;
    }
  }

  /** Milliseconds in a day. */
  const DayMs: int := 1000 * 60 * 60 * 24

  /** `Math.ceil((deadline - today) / DayMs)` for times given in milliseconds. */
  function DaysRemaining(deadlineMs: int, todayMs: int): (d: int)
    ensures (d - 1) * DayMs < deadlineMs - todayMs <= d * DayMs
  {
    var diff := deadlineMs - todayMs;
    -((-diff) / DayMs)
  }

  /** A goal is overdue (a negative day count) exactly when the deadline lies at
      least one full day before today, and it is then overdue by `-d` days. */
  lemma OverdueIff(deadlineMs: int, todayMs: int)
    ensures DaysRemaining(deadlineMs, todayMs) < 0 <==> todayMs - deadlineMs >= DayMs
  {
  }

  /** Remaining amount shown for a goal. */
  function Remaining(g: SavingsGoal): (r: real)
    ensures Clamped(g) ==> 0.0 <= r <= g.targetAmount
    ensures Clamped(g) ==> (r == 0.0 <==> g.currentAmount == g.targetAmount)
  {
    g.targetAmount - g.currentAmount
  }

  /** The "Total Saved" card: the sum of the saved amounts. */
  function TotalSaved(goals: seq<SavingsGoal>): (t: real)
    ensures (forall i :: 0 <= i < |goals| ==> goals[i].currentAmount >= 0.0) ==> t >= 0.0
  {
    Sum(goals, SavedOf)
  }

  function SavedOf(g: SavingsGoal): real
  {
    g.currentAmount
  }

  /** The "Target Total" card: the sum of the targets. */
  function TotalTarget(goals: seq<SavingsGoal>): (t: real)
    ensures (forall i :: 0 <= i < |goals| ==> goals[i].targetAmount >= 0.0) ==> t >= 0.0
  {
    Sum(goals, TargetOf)
  }

  function TargetOf(g: SavingsGoal): real
  {
    g.targetAmount
  }

  /** When every goal is clamped, nothing is saved below 0 and the total saved does
      not exceed the total target. */
  lemma {:induction false} TotalsOrdered(goals: seq<SavingsGoal>)
    requires AllClamped(goals)
    ensures 0.0 <= TotalSaved(goals) <= TotalTarget(goals)
  {
    if goals != [] {
      assert Clamped(goals[0]);
      TotalsOrdered(goals[1..]);
    }
  }

  /** The goal from the example scenario: 320 of 1200 saved, then 1000 more. */
  lemma ContributionClampsAtTarget()
    ensures Contribute(SavingsGoal("3", "New Laptop", 1200.0, 320.0, "2024-08-30", "Tech"), 1000.0).currentAmount == 1200.0
    ensures Remaining(Contribute(SavingsGoal("3", "New Laptop", 1200.0, 320.0, "2024-08-30", "Tech"), 1000.0)) == 0.0
  {
  }

  /** The page's state: the list of goals, the add-goal form and whether it is open. */
  class GoalsPage {
    var goals: seq<SavingsGoal>
    var newGoal: GoalDraft
    var showAddForm: bool

    /** The page opens with the given goals, an empty form and the form closed. */
    constructor (initial: seq<SavingsGoal>)
      ensures goals == initial && newGoal == EmptyDraft && !showAddForm
    {
      goals := initial;
      newGoal := EmptyDraft;
      showAddForm := false;
    }

    /** Replaces the add-goal form's contents with what the user typed. */
    method SetNewGoal(draft: GoalDraft)
      modifies this
      ensures newGoal == draft && goals == old(goals) && showAddForm == old(showAddForm)
    {
      newGoal := draft;
    }

    /** Adds a goal from the form when title, target and deadline are filled in.
        `id` is the timestamp text the page uses as id, and `parsedTarget` the number
        read from the target field; both come from outside the model. */
    method HandleAddGoal(id: string, parsedTarget: real)
      modifies this
      ensures old(newGoal.title != "" && newGoal.targetAmount != "" && newGoal.deadline != "") ==>
        && goals == old(goals) + [SavingsGoal(id, old(newGoal.title), parsedTarget, 0.0, old(newGoal.deadline),
                                               if old(newGoal.category) == "" then "Other" else old(newGoal.category))]
        && newGoal == EmptyDraft && !showAddForm
      ensures !old(newGoal.title != "" && newGoal.targetAmount != "" && newGoal.deadline != "") ==>
        goals == old(goals) && newGoal == old(newGoal) && showAddForm == old(showAddForm)
      ensures AllClamped(old(goals)) && parsedTarget >= 0.0 ==> AllClamped(goals)
    {
      if newGoal.title != "" && newGoal.targetAmount != "" && newGoal.deadline != "" {
        var goal := SavingsGoal(id, newGoal.title, parsedTarget, 0.0, newGoal.deadline,
                                if newGoal.category == "" then "Other" else newGoal.category);
        goals := goals + [goal];
        newGoal := EmptyDraft;
        showAddForm := false;
      }
    }

    /** Removes every goal with the given id; the others keep their order. */
    method HandleDeleteGoal(id: string)
      modifies this
      ensures goals == RemoveById(old(goals), id)
      ensures forall i :: 0 <= i < |goals| ==> goals[i].id != id
      ensures newGoal == old(newGoal) && showAddForm == old(showAddForm)
      ensures AllClamped(old(goals)) ==> AllClamped(goals)
    {
      goals := RemoveById(goals, id);
    }

    /** Adds `amount` to every goal with the given id, clamped to [0, target];
        every other goal, the length and the order are unchanged. */
    method UpdateGoalProgress(id: string, amount: real)
      modifies this
      ensures |goals| == |old(goals)|
      ensures forall i :: 0 <= i < |goals| ==>
        goals[i] == if old(goals)[i].id == id then Contribute(old(goals)[i], amount) else old(goals)[i]
      ensures newGoal == old(newGoal) && showAddForm == old(showAddForm)
      ensures AllClamped(old(goals)) ==> AllClamped(goals)
    {
      goals := seq(|goals|, i requires 0 <= i < |goals| reads this =>
        if goals[i].id == id then Contribute(goals[i], amount) else goals[i]);
    }
  }
}
