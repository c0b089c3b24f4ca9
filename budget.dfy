/** The budget advisor (src/utils/aiPlanner.ts, `checkBudgetAlert`): flags an
    option that costs more than the stated budget and picks one substitution
    suggestion by a fixed priority. */
module BudgetAdvisor {
  import opened Types

  /** The three suggestions, in priority order. */
  datatype Suggestion = MetroInsteadOfCab | BusInsteadOfMetro | WalkOrCycle
  {
    function Text(): string
    {
      match this
      case MetroInsteadOfCab => "Consider using Metro instead of Cab to reduce cost"
      case BusInsteadOfMetro => "Consider using Bus instead of Metro to reduce cost"
      case WalkOrCycle => "Consider walking or cycling for shorter distances"
    }
  }

  datatype BudgetAlert = BudgetAlert(exceeds: bool, amount: int, suggestion: Suggestion)

  /** The first rule that matches the option's modes: any cab leg, else any
      metro leg, else the fallback. */
  function Suggest(sequence: seq<ModeType>): (s: Suggestion)
    ensures s == MetroInsteadOfCab <==> Cab in sequence
    ensures s == BusInsteadOfMetro <==> Cab !in sequence && Metro in sequence
    ensures s == WalkOrCycle <==> Cab !in sequence && Metro !in sequence
  {
    if exists i :: 0 <= i < |sequence| && sequence[i] == Cab then MetroInsteadOfCab
    else if exists i :: 0 <= i < |sequence| && sequence[i] == Metro then BusInsteadOfMetro
    else WalkOrCycle
  }

  /** The source's `!budget` test: true for an absent budget and for 0. */
  predicate NoBudget(budget: Option<int>)
  {
    budget.None? || budget.value == 0
  }

  /** No alert when there is no budget (absent or 0) or the option fits in
      it; otherwise an alert carrying the strictly positive excess and the
      suggestion for the option's modes. */
  function CheckBudgetAlert(option: JourneyOption, budget: Option<int>): (alert: Option<BudgetAlert>)
    ensures alert.None? <==> NoBudget(budget) || option.totalCost <= budget.value
    ensures alert.Some? ==>
      && alert.value.exceeds
      && alert.value.amount > 0
      && budget.value + alert.value.amount == option.totalCost
      && alert.value.suggestion == Suggest(option.sequence)
  {
    if NoBudget(budget) || option.totalCost <= budget.value then None
    else
      var excess := option.totalCost - budget.value;
      Some(BudgetAlert(true, excess, Suggest(option.sequence)))
  }

  /** Raising the budget never creates an alert that was not there, as long
      as it stays a real budget (not 0). */
  lemma {:induction false} AlertMonotoneInBudget(option: JourneyOption, b1: int, b2: int)
    requires b1 != 0 && b2 != 0 && b1 <= b2
    requires CheckBudgetAlert(option, Some(b1)).None?
    ensures CheckBudgetAlert(option, Some(b2)).None?
  {
  }
}
