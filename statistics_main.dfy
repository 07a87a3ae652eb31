/** statsitics_tools/main.py: `construct_budgets`, the budgets of an analysis run. */
module StatisticsMain {
  import opened Common

  /**
   * `min, min + step, ...` while at most `max`. The loop only ends when
   * `step` is positive or nothing is listed at all.
   */
  function Budgets(min: int, max: int, step: int): seq<int>
    requires step > 0 || min > max
    decreases if min <= max then max - min + 1 else 0
  {
    if min > max then [] else [min] + Budgets(min + step, max, step)
  }

  /** `construct_budgets`. */
  method ConstructBudgets(min: int, max: int, step: int) returns (budgets: seq<int>)
    requires step > 0 || min > max
    ensures budgets == Budgets(min, max, step)
  {
    var value := min;
    budgets := [];
    while value <= max
      invariant step > 0 || value > max
      invariant budgets + Budgets(value, max, step) == Budgets(min, max, step)
      decreases if value <= max then max - value + 1 else 0
    {
      budgets := budgets + [value];
      value := value + step;
    }
  }

  /**
   * The budgets start at `min`, grow by `step` each, all stay at most
   * `max`, and the next one would exceed it; `min > max` gives none.
   */
  lemma {:induction false} BudgetsMeaning(min: int, max: int, step: int)
    requires step > 0 || min > max
    ensures var b := Budgets(min, max, step);
      (min > max <==> b == []) &&
      (forall i :: 0 <= i < |b| ==> b[i] == min + i * step && b[i] <= max) &&
      (|b| > 0 ==> b[|b| - 1] + step > max)
    decreases if min <= max then max - min + 1 else 0
  {
    if min <= max {
      var b := Budgets(min, max, step);
      var rest := Budgets(min + step, max, step);
      BudgetsMeaning(min + step, max, step);
      assert b == [min] + rest;
      forall i | 0 < i < |b| ensures b[i] == min + i * step {
        assert b[i] == rest[i - 1] == min + step + (i - 1) * step;
      }
    }
  }

  /**
   * The loop of `construct_budgets` run for at most `fuel` iterations:
   * `None` when it has not ended by then.
   */
  function BudgetsWithin(min: int, max: int, step: int, fuel: nat): Option<seq<int>>
    decreases fuel
  {
    if min > max then Some([])
    else if fuel == 0 then None
    else
      var rest := BudgetsWithin(min + step, max, step, fuel - 1);
      if rest.None? then None else Some([min] + rest.value)
  }

  /**
   * As written, with `min <= max` and a step that is not positive (for
   * instance `construct_budgets(0, 10, 0)`) the loop never ends: no number
   * of iterations completes it.
   */
  lemma {:induction false} BudgetsNeverEnd(min: int, max: int, step: int, fuel: nat)
    requires min <= max && step <= 0
    ensures BudgetsWithin(min, max, step, fuel).None?
    decreases fuel
  {
    if fuel > 0 {
      BudgetsNeverEnd(min + step, max, step, fuel - 1);
    }
  }

  /** Otherwise one iteration per budget completes the loop, with `Budgets` as its list. */
  lemma {:induction false} BudgetsEnd(min: int, max: int, step: int, fuel: nat)
    requires step > 0 || min > max
    requires fuel >= |Budgets(min, max, step)|
    ensures BudgetsWithin(min, max, step, fuel) == Some(Budgets(min, max, step))
    decreases if min <= max then max - min + 1 else 0
  {
    if min <= max {
      BudgetsEnd(min + step, max, step, fuel - 1);
    }
  }

  /**
   * `construct_budgets` as evidently intended for every input: a step that
   * is not positive with `min <= max` is rejected, the way `range` rejects
   * a zero step, instead of looping forever.
   */
  function CheckedBudgets(min: int, max: int, step: int): (r: Result<seq<int>>)
    ensures r.Err? <==> min <= max && step <= 0
    ensures r.Err? ==> r.error == "ValueError"
    ensures r.Ok? ==> forall fuel: nat :: fuel >= |r.value| ==> BudgetsWithin(min, max, step, fuel) == Some(r.value)
  {
    if min <= max && step <= 0 then Err("ValueError")
    else
      var b := Budgets(min, max, step);
      assert forall fuel: nat :: fuel >= |b| ==> BudgetsWithin(min, max, step, fuel) == Some(b) by {
        forall fuel: nat | fuel >= |b| ensures BudgetsWithin(min, max, step, fuel) == Some(b) {
          BudgetsEnd(min, max, step, fuel);
        }
      }
      Ok(b)
  }
}
