/**
 * The milestone rows of the campaign launch form (web/app/launch/page.tsx):
 * a deliverable text and a percentage typed into a number field, and the
 * sum-to-100 test the form applies before submitting.
 */
module Milestones {
  import opened Wrappers

  /**
   * One form row. `amount` is the result of `parseInt` on the percentage
   * field: `None` stands for NaN (an empty or unparsable field).
   */
  datatype Milestone = Milestone(desc: string, amount: Option<int>)

  /** The list the form starts with: one phase at 50%. */
  const InitialMilestones: seq<Milestone> := [Milestone("Initial Release", Some(50))]

  /** The row that "Add Phase" appends. */
  const BlankMilestone := Milestone("", Some(0))

  const RequiredTotal := 100

  /** A row's contribution to the total: NaN counts as 0. */
  function PercentOrZero(m: Milestone): int {
    m.amount.GetOr(0)
  }

  /** The `reduce` of the form: a left fold adding each row's percentage. */
  function TotalPercent(ms: seq<Milestone>): int {
    if ms == [] then 0 else TotalPercent(ms[..|ms| - 1]) + PercentOrZero(ms[|ms| - 1])
  }

  /** The only check made on the percentages: their total is exactly 100. */
  predicate SumsToHundred(ms: seq<Milestone>) {
    TotalPercent(ms) == RequiredTotal
  }

  /** The total of a concatenation is the sum of the totals, so row order never matters to the check. */
  lemma {:induction false} TotalPercentAppend(a: seq<Milestone>, b: seq<Milestone>)
    ensures TotalPercent(a + b) == TotalPercent(a) + TotalPercent(b)
    decreases |b|
  {
    if b == [] {
      assert a + b == a;
    } else {
      var b' := b[..|b| - 1];
      assert (a + b)[..|a + b| - 1] == a + b';
      TotalPercentAppend(a, b');
    }
  }

  /** Editing one row moves the total by the change in that row's percentage. */
  lemma {:induction false} TotalPercentUpdate(ms: seq<Milestone>, i: nat, m: Milestone)
    requires i < |ms|
    ensures TotalPercent(ms[i := m]) == TotalPercent(ms) - PercentOrZero(ms[i]) + PercentOrZero(m)
    decreases |ms|
  {
    var last := |ms| - 1;
    if i < last {
      assert ms[i := m][..last] == ms[..last][i := m];
      TotalPercentUpdate(ms[..last], i, m);
    } else {
      assert ms[i := m][..last] == ms[..last];
    }
  }

  /** Adding blank rows never changes the total. */
  lemma {:induction false} BlankRowsKeepTotal(ms: seq<Milestone>, n: nat)
    ensures TotalPercent(ms + seq(n, _ => BlankMilestone)) == TotalPercent(ms)
  {
    var blanks := seq(n, _ => BlankMilestone);
    if n == 0 {
      assert ms + blanks == ms;
    } else {
      var fewer := seq(n - 1, _ => BlankMilestone);
      assert ms + blanks == (ms + fewer) + [BlankMilestone];
      TotalPercentAppend(ms + fewer, [BlankMilestone]);
      BlankRowsKeepTotal(ms, n - 1);
    }
  }

  /** The form as first shown, with any number of phases added but none edited, fails the check. */
  lemma UneditedFormFails(n: nat)
    ensures !SumsToHundred(InitialMilestones + seq(n, _ => BlankMilestone))
  {
    BlankRowsKeepTotal(InitialMilestones, n);
  }

  /** Percentages are not range-checked: 150% and -50% pass because only the total is tested. */
  lemma OutOfRangeRowsPass()
    ensures SumsToHundred([Milestone("", Some(150)), Milestone("", Some(-50))])
  {
  }

  /** A row whose percentage is NaN counts as 0. */
  lemma NaNRowCountsAsZero(ms: seq<Milestone>, desc: string)
    ensures TotalPercent(ms + [Milestone(desc, None)]) == TotalPercent(ms)
  {
    assert (ms + [Milestone(desc, None)])[..|ms|] == ms;
  }
}
