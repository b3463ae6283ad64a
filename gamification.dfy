/** The gamification page (src/pages/GamificationPage.tsx): badges and challenges
    are fixed lists the page never updates; it derives the earned-badge count, the
    user level, the completion rate, the progress toward the next level and each
    challenge's progress bar from them. */
module Gamification {
  import opened Options

  datatype Badge = Badge(id: string, name: string, description: string, earned: bool, earnedDate: Option<string>)

  datatype Challenge = Challenge(
    id: string, title: string, description: string,
    target: int, progress: int,
    reward: string, category: string, timeLeft: string)

  /** The number of earned badges. */
  function EarnedBadges(badges: seq<Badge>): (n: nat)
    ensures n <= |badges|
    ensures n == 0 <==> forall i :: 0 <= i < |badges| ==> !badges[i].earned
    ensures n == |badges| <==> forall i :: 0 <= i < |badges| ==> badges[i].earned
  {
    if badges == [] then 0
    else
      var rest := EarnedBadges(badges[1..]);
      assert forall i :: 1 <= i < |badges| ==> badges[i] == badges[1..][i - 1];
      (if badges[0].earned then 1 else 0) + rest
  }

  /** The count is additive over concatenation and a single badge counts 1 exactly
      when it is earned; together these fix the count as the length of the
      earned-badge filter. */
  lemma {:induction false} EarnedBadgesAppend(s: seq<Badge>, t: seq<Badge>)
    ensures EarnedBadges(s + t) == EarnedBadges(s) + EarnedBadges(t)
    ensures |s| == 1 ==> EarnedBadges(s) == (if s[0].earned then 1 else 0)
  {
    if s == [] {
      assert s + t == t;
    } else {
      assert (s + t)[1..] == s[1..] + t;
      EarnedBadgesAppend(s[1..], t);
    }
  }

  /** `Math.floor(earned * 1.5) + 1`. */
  function UserLevel(earned: nat): (level: int)
    ensures level >= 1
    ensures level == 3 * earned / 2 + 1
  {
    ((earned as real) * 1.5).Floor + 1
  }

  /** Each further badge raises the level by one or two, so the level never decreases. */
  lemma LevelStep(earned: nat)
    ensures 1 <= UserLevel(earned + 1) - UserLevel(earned) <= 2
  {
  }

  lemma LevelMonotone(a: nat, b: nat)
    requires a <= b
    ensures UserLevel(a) <= UserLevel(b)
  {
  }

  lemma LevelExamples()
    ensures UserLevel(0) == 1 && UserLevel(2) == 4 && UserLevel(10) == 16
  {
  }

  /** `earned / total * 100`; with no badges at all the division is `0 / 0`, not a number. */
  function CompletionRate(earned: nat, total: nat): (rate: Option<real>)
    ensures rate.None? <==> total == 0
    ensures earned <= total && total > 0 ==> 0.0 <= rate.value <= 100.0
    ensures earned <= total && total > 0 ==> (rate.value == 100.0 <==> earned == total)
  {
    if total == 0 then None else Some((earned as real) / (total as real) * 100.0)
  }

  /** `(earned % 3) / 3 * 100`: the bar toward the next level. */
  function LevelProgress(earned: nat): (p: real)
    ensures 0.0 <= p < 100.0
    ensures p == 0.0 <==> earned % 3 == 0
  {
    ((earned % 3) as real) / 3.0 * 100.0
  }

  /** `3 - earned % 3`: the badges the page says are still needed. */
  function BadgesToNextLevel(earned: nat): (k: int)
    ensures 1 <= k <= 3
    ensures (earned + k) % 3 == 0
  {
    3 - earned % 3
  }

  /** `progress / target * 100`: a challenge's bar. A zero target divides by zero. */
  function ChallengeProgress(c: Challenge): (p: Option<real>)
    ensures p.None? <==> c.target == 0
    ensures 0 <= c.progress <= c.target && c.target > 0 ==> 0.0 <= p.value <= 100.0
    ensures 0 <= c.progress <= c.target && c.target > 0 ==> (p.value == 100.0 <==> c.progress == c.target)
  {
    if c.target == 0 then None
    else
      var ratio := (c.progress as real) / (c.target as real);
      assert ratio * (c.target as real) == c.progress as real;
      assert 0 <= c.progress <= c.target && c.target > 0 ==> 0.0 <= ratio <= 1.0 && (ratio == 1.0 <==> c.progress == c.target);
      Some(ratio * 100.0)
  }

  /** The page's badges: the first three are earned. */
  const PageBadges: seq<Badge> := [
    Badge("1", "First Steps", "Created your first expense entry", true, Some("2024-01-15")),
    Badge("2", "Budget Tracker", "Tracked expenses for 7 consecutive days", true, Some("2024-01-22")),
    Badge("3", "Savings Hero", "Saved $100 in a single month", true, Some("2024-02-01")),
    Badge("4", "Prediction Master", "Generated 10 AI receipt predictions", false, None),
    Badge("5", "Goal Achiever", "Completed your first savings goal", false, None),
    Badge("6", "Consistent Saver", "Saved money for 3 months straight", false, None)
  ]

  /** What the page shows for its own badges: 3 of 6 earned, level 5, 50% complete,
      an empty level bar and 3 badges still to earn. */
  lemma PageFigures()
    ensures EarnedBadges(PageBadges) == 3
    ensures UserLevel(3) == 5
    ensures CompletionRate(3, |PageBadges|) == Some(50.0)
    ensures LevelProgress(3) == 0.0 && BadgesToNextLevel(3) == 3
  {
  }
}
