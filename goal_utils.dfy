/**
 * Savings goals: progress as a clamped percentage, the number of monthly
 * contributions still needed, the status color from progress and days to the
 * deadline, and the suggested goals for a user profile.
 */
module GoalUtils {
  import opened Common

  /** `calculateGoalProgress`. */
  function GoalProgress(current: real, target: real): (r: real)
    ensures target <= 0.0 ==> r == 0.0
    ensures 0.0 <= r <= 100.0
    ensures target > 0.0 && current >= target ==> r == 100.0
    ensures target > 0.0 && current <= 0.0 ==> r == 0.0
    ensures target > 0.0 && 0.0 <= current <= target ==> r * target == current * 100.0
  {
    if target <= 0.0 then 0.0
    else
      var percentage := Percent(current, target);
      assert current >= target ==> percentage >= 100.0 by {
        if current >= target { PercentAtLeastHundred(current, target); }
      }
      assert current <= 0.0 ==> percentage <= 0.0 by {
        if current <= 0.0 { PercentNonPositive(current, target); }
      }
      assert percentage * target == current * 100.0;
      Clamp(percentage, 0.0, 100.0)
  }

  /** The outcome of `getEstimatedCompletionDate`, counted in months from today. */
  datatype Estimate = AlreadyReached | NoEstimate | InMonths(months: int)

  /** `getEstimatedCompletionDate` without the calendar: how many months ahead. */
  function EstimatedMonths(current: real, target: real, monthly: real): (e: Estimate)
    ensures e == AlreadyReached <==> current >= target
    ensures e == NoEstimate <==> current < target && monthly <= 0.0
    ensures e.InMonths? ==>
      && e.months >= 1
      && e.months as real * monthly >= target - current
      && (e.months - 1) as real * monthly < target - current
  {
    if current >= target then AlreadyReached
    else if monthly <= 0.0 then NoEstimate
    else
      var left := target - current;
      var m := Ceil(left / monthly);
      assert (left / monthly) * monthly == left;
      MonthsBounds(left, monthly, m);
      InMonths(m)
  }

  /** `m = ceil(left / monthly)` is the least number of contributions that cover `left`. */
  lemma MonthsBounds(left: real, monthly: real, m: int)
    requires left > 0.0 && monthly > 0.0
    requires left / monthly <= m as real < left / monthly + 1.0
    ensures m >= 1
    ensures m as real * monthly >= left
    ensures (m - 1) as real * monthly < left
  {
    var q := left / monthly;
    assert q * monthly == left;
    assert q > 0.0;
    assert m as real * monthly >= q * monthly;
    var d := q - (m - 1) as real;
    assert d > 0.0;
    assert d * monthly > 0.0;
    assert q * monthly - (m - 1) as real * monthly == d * monthly;
    assert (m - 1) as real * monthly == left - d * monthly;
  }

  datatype StatusColor = Success | Error | Warning | Primary | Info | Secondary

  /** The thresholds, as their position in the list success, primary, info, secondary. */
  function ProgressBand(progress: real): nat {
    if progress >= 75.0 then 0 else if progress >= 50.0 then 1 else if progress >= 25.0 then 2 else 3
  }

  function BandColor(band: nat): StatusColor {
    if band == 0 then Success else if band == 1 then Primary else if band == 2 then Info else Secondary
  }

  /** `getGoalStatusColor`, with `daysLeft` the whole days until the deadline, rounded up. */
  function GoalStatusColor(progress: real, daysLeft: int, current: real, target: real): (c: StatusColor)
    ensures current >= target ==> c == Success
    ensures c == Error <==> current < target && (daysLeft < 0 || (daysLeft < 30 && progress < 75.0))
    ensures c == Warning <==>
      current < target && 0 <= daysLeft < 60 && progress < 50.0 && !(daysLeft < 30 && progress < 75.0)
    ensures current < target && c != Error && c != Warning ==> c == BandColor(ProgressBand(progress))
  {
    if current >= target then Success
    else if daysLeft < 0 then Error
    else if daysLeft < 30 && progress < 75.0 then Error
    else if daysLeft < 60 && progress < 50.0 then Warning
    else if progress >= 75.0 then Success
    else if progress >= 50.0 then Primary
    else if progress >= 25.0 then Info
    else Secondary
  }

  /**
   * Far from the deadline the color depends on progress alone, and more
   * progress never moves it down the list success, primary, info, secondary.
   */
  lemma StatusByProgress(p1: real, p2: real, daysLeft: int, current: real, target: real)
    requires current < target && daysLeft >= 60
    ensures GoalStatusColor(p1, daysLeft, current, target) == BandColor(ProgressBand(p1))
    ensures p1 <= p2 ==> ProgressBand(p2) <= ProgressBand(p1)
  {
  }

  /** Before the deadline, progress of 75 or more is never shown as an error. */
  lemma HighProgressNotError(progress: real, daysLeft: int, current: real, target: real)
    requires progress >= 75.0 && daysLeft >= 0
    ensures GoalStatusColor(progress, daysLeft, current, target) == Success
  {
  }

  // ---------------------------------------------------------------------
  // Suggestions
  // ---------------------------------------------------------------------

  datatype Priority = High | Medium | Low

  datatype Suggestion = Suggestion(
    name: string,
    category: string,
    description: string,
    priority: Priority,
    icon: string,
    color: string)

  const EmergencyFund := Suggestion("Emergency Fund", "emergency",
    "Build a safety net of 3-6 months of expenses", High, "🛡️", "warning")
  const DebtFreedom := Suggestion("Debt Freedom Plan", "debt",
    "Pay off high-interest debt", High, "💳", "error")
  const TravelAdventure := Suggestion("Travel Adventure", "travel",
    "Save for your dream trip", Medium, "✈️", "secondary")
  const TechUpgrade := Suggestion("Tech Upgrade Fund", "tech",
    "Save for new devices or gadgets", Low, "📱", "info")

  function RetirementBooster(age: int): Suggestion {
    Suggestion("Retirement Booster", "retirement", "Increase your retirement contributions",
      if age > 40 then High else Medium, "🏖️", "success")
  }

  /** The suggestion list described as the concatenation of its optional parts. */
  function Suggestions(age: int, hasDebt: bool, hasEmergencyFund: bool): seq<Suggestion> {
    (if !hasEmergencyFund then [EmergencyFund] else [])
    + (if hasDebt then [DebtFreedom] else [])
    + (if age < 30 then [TravelAdventure, TechUpgrade] else [])
    + [RetirementBooster(age)]
  }

  /** `getSuggestedGoals`: builds the list with successive appends. */
  method SuggestedGoals(age: int, hasDebt: bool, hasEmergencyFund: bool) returns (suggestions: seq<Suggestion>)
    ensures suggestions == Suggestions(age, hasDebt, hasEmergencyFund)
    ensures |suggestions| == (if hasEmergencyFund then 0 else 1) + (if hasDebt then 1 else 0)
                             + (if age < 30 then 2 else 0) + 1
    ensures suggestions[|suggestions| - 1].category == "retirement"
    ensures suggestions[|suggestions| - 1].priority == High <==> age > 40
  {
    suggestions := [];
    if !hasEmergencyFund {
      suggestions := suggestions + [EmergencyFund];
    }
    if hasDebt {
      suggestions := suggestions + [DebtFreedom];
    }
    if age < 30 {
      suggestions := suggestions + [TravelAdventure];
      suggestions := suggestions + [TechUpgrade];
    }
    suggestions := suggestions + [RetirementBooster(age)];
  }

  /**
   * The emergency fund is suggested exactly to those without one, the debt
   * plan exactly to those with debt, and the retirement booster to everyone,
   * once; no two suggestions share a category.
   */
  lemma SuggestionsCoverProfile(age: int, hasDebt: bool, hasEmergencyFund: bool)
    ensures var s := Suggestions(age, hasDebt, hasEmergencyFund);
      && (EmergencyFund in s <==> !hasEmergencyFund)
      && (DebtFreedom in s <==> hasDebt)
      && (TravelAdventure in s <==> age < 30)
      && RetirementBooster(age) in s
      && forall i, j :: 0 <= i < j < |s| ==> s[i].category != s[j].category
  {
  }
}
