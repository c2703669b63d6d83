/**
 * Budget allocation by linear programming (utils/optimizer.py).
 *
 * `optimize_budget` solves "maximise the sum of roi[i] * x[i] subject to
 * sum x[i] == total_budget and every x[i] >= 0" with an external LP solver, then
 * builds one result row per platform and sorts the rows by expected return,
 * highest first. The solver is foreign code: its answer is a parameter, and
 * `ReferenceSolve` is a solver that is proved to give an optimum.
 */
module Optimizer {
  import opened Wrappers
  import DataProcessor

  type Error = DataProcessor.Error

  /** One platform of the input table and its (mean) ROI. */
  datatype PlatformRoi = PlatformRoi(platform: string, roi: real)

  /** One row of the result table. */
  datatype AllocationRow = AllocationRow(
    platform: string,
    roi: real,
    budgetAllocation: real,
    expectedReturn: real,
    allocationPercentage: real)

  /** What the LP solver reports: `result.success` with `result.x`, or its failure message. */
  datatype LpOutcome = Solved(x: seq<real>) | SolverFailed(message: string)

  // ---------------------------------------------------------------------------
  // The linear program
  // ---------------------------------------------------------------------------

  function Rois(data: seq<PlatformRoi>): (rois: seq<real>)
    ensures |rois| == |data| && forall i :: 0 <= i < |data| ==> rois[i] == data[i].roi
  {
    seq(|data|, i requires 0 <= i < |data| => data[i].roi)
  }

  /**
   * The LP objective `-c . x`: the total expected return of the split `x`. Spending
   * nothing returns nothing.
   */
  function Objective(rois: seq<real>, x: seq<real>): (v: real)
    requires |x| == |rois|
    ensures (forall i :: 0 <= i < |x| ==> x[i] == 0.0) ==> v == 0.0
  {
    if x == [] then 0.0
    else Objective(rois[..|x| - 1], x[..|x| - 1]) + x[|x| - 1] * rois[|x| - 1]
  }

  /**
   * `x` meets `A_eq x == b_eq` and the bounds `x[i] >= 0`; only a non-negative budget
   * can be split this way.
   */
  predicate Feasible(rois: seq<real>, budget: real, x: seq<real>)
    ensures Feasible(rois, budget, x) ==> budget >= 0.0
  {
    && |x| == |rois|
    && (forall i :: 0 <= i < |x| ==> x[i] >= 0.0)
    && (SumNonNegative(x); DataProcessor.Sum(x) == budget)
  }

  function MaxRoi(rois: seq<real>): (m: real)
    requires |rois| > 0
    ensures forall i :: 0 <= i < |rois| ==> rois[i] <= m
    ensures m in rois
  {
    if |rois| == 1 then rois[0]
    else
      var init, last := rois[..|rois| - 1], rois[|rois| - 1];
      assert rois == init + [last];
      var m := MaxRoi(init);
      if last > m then last else m
  }

  /** The first index holding `v`. */
  function FirstIndexOf(s: seq<real>, v: real): (k: nat)
    requires v in s
    ensures k < |s| && s[k] == v && forall j :: 0 <= j < k ==> s[j] != v
  {
    if s[0] == v then 0
    else
      var k := FirstIndexOf(s[1..], v);
      assert forall j :: 1 <= j < k + 1 ==> s[j] == s[1..][j - 1];
      1 + k
  }

  /** The first platform with the largest ROI. */
  function ArgMax(rois: seq<real>): (k: nat)
    requires |rois| > 0
    ensures k < |rois| && rois[k] == MaxRoi(rois)
    ensures forall j :: 0 <= j < k ==> rois[j] < rois[k]
  {
    FirstIndexOf(rois, MaxRoi(rois))
  }

  /**
   * What a successful solve promises: a feasible split that loses nothing against
   * putting every unit at the largest ROI (SolvedValue: it returns budget * max ROI).
   */
  predicate SolvedOptimally(rois: seq<real>, budget: real, x: seq<real>)
  {
    |rois| > 0 && Feasible(rois, budget, x) && Gap(rois, x, MaxRoi(rois)) == 0.0
  }

  /** The LP optimum: the whole budget at the largest ROI. */
  function OptimalReturn(rois: seq<real>, budget: real): real
    requires |rois| > 0
  {
    budget * MaxRoi(rois)
  }

  lemma {:induction false} SumNonNegative(x: seq<real>)
    requires forall i :: 0 <= i < |x| ==> x[i] >= 0.0
    ensures DataProcessor.Sum(x) >= 0.0
  {
    if x != [] {
      SumNonNegative(x[..|x| - 1]);
    }
  }

  /** What the split `x` loses against putting every unit at ROI `m`. */
  function Gap(rois: seq<real>, x: seq<real>, m: real): real
    requires |x| == |rois|
  {
    if x == [] then 0.0
    else Gap(rois[..|x| - 1], x[..|x| - 1], m) + x[|x| - 1] * (m - rois[|x| - 1])
  }

  lemma {:induction false} GapIdentity(rois: seq<real>, x: seq<real>, m: real)
    requires |x| == |rois|
    ensures Gap(rois, x, m) == DataProcessor.Sum(x) * m - Objective(rois, x)
  {
    if x != [] {
      var n := |x|;
      GapIdentity(rois[..n - 1], x[..n - 1], m);
      Distribute(DataProcessor.Sum(x[..n - 1]), x[n - 1], m);
      SplitProduct(x[n - 1], m, rois[n - 1]);
    }
  }

  lemma {:induction false} GapNonNegative(rois: seq<real>, x: seq<real>, m: real)
    requires |x| == |rois|
    requires forall i :: 0 <= i < |x| ==> x[i] >= 0.0 && rois[i] <= m
    ensures Gap(rois, x, m) >= 0.0
  {
    if x != [] {
      var n := |x|;
      GapNonNegative(rois[..n - 1], x[..n - 1], m);
      LossNonNegative(x[n - 1], rois[n - 1], m);
    }
  }

  /** A non-negative allocation at an ROI of at most m loses a non-negative amount. */
  lemma LossNonNegative(a: real, r: real, m: real)
    requires a >= 0.0 && r <= m
    ensures a * (m - r) >= 0.0
  {
    ProductSign(a, m - r);
  }

  lemma {:induction false} GapZero(rois: seq<real>, x: seq<real>, m: real)
    requires |x| == |rois|
    requires forall i :: 0 <= i < |x| ==> x[i] >= 0.0 && rois[i] <= m
    requires Gap(rois, x, m) == 0.0
    ensures forall i :: 0 <= i < |x| && rois[i] < m ==> x[i] == 0.0
  {
    if x != [] {
      var n := |x|;
      var ri, xi := rois[..n - 1], x[..n - 1];
      GapNonNegative(ri, xi, m);
      ProductSign(x[n - 1], m - rois[n - 1]);
      GapZero(ri, xi, m);
      forall i | 0 <= i < n && rois[i] < m ensures x[i] == 0.0 {
        if i < n - 1 {
          assert x[i] == xi[i] && rois[i] == ri[i];
        }
      }
    }
  }

  lemma Distribute(a: real, b: real, m: real)
    ensures (a + b) * m == a * m + b * m
  {
  }

  lemma SplitProduct(a: real, m: real, r: real)
    ensures a * (m - r) == a * m - a * r
  {
  }

  lemma ProductSign(a: real, d: real)
    requires a >= 0.0 && d >= 0.0
    ensures a * d >= 0.0
    ensures d > 0.0 && a * d == 0.0 ==> a == 0.0
  {
  }

  /** With non-negative allocations and every ROI at most `m`, the return is at most sum x * m. */
  lemma ObjectiveBound(rois: seq<real>, x: seq<real>, m: real)
    requires |x| == |rois|
    requires forall i :: 0 <= i < |x| ==> x[i] >= 0.0 && rois[i] <= m
    ensures Objective(rois, x) <= DataProcessor.Sum(x) * m
  {
    GapIdentity(rois, x, m);
    GapNonNegative(rois, x, m);
  }

  /** Every feasible split returns at most total_budget * max ROI. */
  lemma FeasibleBound(rois: seq<real>, budget: real, x: seq<real>)
    requires |rois| > 0 && Feasible(rois, budget, x)
    ensures Objective(rois, x) <= OptimalReturn(rois, budget)
  {
    var m := MaxRoi(rois);
    ObjectiveBound(rois, x, m);
    SameProduct(DataProcessor.Sum(x), m, budget, m);
  }

  /** A solved split returns exactly total_budget * max ROI. */
  lemma SolvedValue(rois: seq<real>, budget: real, x: seq<real>)
    requires SolvedOptimally(rois, budget, x)
    ensures Objective(rois, x) == OptimalReturn(rois, budget)
  {
    var m := MaxRoi(rois);
    GapIdentity(rois, x, m);
    SameProduct(DataProcessor.Sum(x), m, budget, m);
  }

  /** A split that is zero except at index k sums to x[k]. */
  lemma {:induction false} OneHotSum(x: seq<real>, k: nat)
    requires forall i :: 0 <= i < |x| && i != k ==> x[i] == 0.0
    ensures DataProcessor.Sum(x) == if k < |x| then x[k] else 0.0
  {
    if x != [] {
      OneHotSum(x[..|x| - 1], k);
    }
  }

  /** A split that is zero except at an index k of ROI m loses nothing against ROI m. */
  lemma {:induction false} OneHotGap(rois: seq<real>, x: seq<real>, k: nat, m: real)
    requires |x| == |rois|
    requires forall i :: 0 <= i < |x| && i != k ==> x[i] == 0.0
    requires k < |x| ==> rois[k] == m
    ensures Gap(rois, x, m) == 0.0
  {
    if x != [] {
      var n := |x|;
      OneHotGap(rois[..n - 1], x[..n - 1], k, m);
      if n - 1 == k {
        ZeroFactor(x[n - 1], m - rois[n - 1]);
      }
    }
  }

  /** The reference solver: the whole budget on the first platform of maximal ROI. */
  function ReferenceSolve(rois: seq<real>, budget: real): (x: seq<real>)
    requires |rois| > 0 && budget >= 0.0
    ensures SolvedOptimally(rois, budget, x)
    ensures |x| == |rois| && x[ArgMax(rois)] == budget
    ensures forall i :: 0 <= i < |x| && i != ArgMax(rois) ==> x[i] == 0.0
  {
    var k := ArgMax(rois);
    var x := seq(|rois|, i requires 0 <= i < |rois| => if i == k then budget else 0.0);
    OneHotOptimal(rois, budget, x, k);
    x
  }

  /** All of a non-negative budget on a platform of maximal ROI is an optimum. */
  lemma OneHotOptimal(rois: seq<real>, budget: real, x: seq<real>, k: nat)
    requires |x| == |rois| && k < |x| && budget >= 0.0
    requires rois[k] == MaxRoi(rois) && x[k] == budget
    requires forall i :: 0 <= i < |x| && i != k ==> x[i] == 0.0
    ensures SolvedOptimally(rois, budget, x)
  {
    OneHotSum(x, k);
    assert Feasible(rois, budget, x);
    OneHotGap(rois, x, k, MaxRoi(rois));
  }

  lemma SameProduct(a: real, b: real, c: real, d: real)
    requires a == c && b == d
    ensures a * b == c * d
  {
  }

  lemma ZeroFactor(a: real, d: real)
    requires d == 0.0
    ensures a * d == 0.0
  {
  }

  /** No feasible split beats one that is SolvedOptimally. */
  lemma SolvedIsOptimal(rois: seq<real>, budget: real, x: seq<real>, y: seq<real>)
    requires SolvedOptimally(rois, budget, x) && Feasible(rois, budget, y)
    ensures Objective(rois, y) <= Objective(rois, x)
  {
    FeasibleBound(rois, budget, y);
    SolvedValue(rois, budget, x);
  }

  /** A feasible split that no feasible split beats is SolvedOptimally. */
  lemma OptimalIsSolved(rois: seq<real>, budget: real, x: seq<real>)
    requires |rois| > 0 && Feasible(rois, budget, x)
    requires forall y :: Feasible(rois, budget, y) ==> Objective(rois, y) <= Objective(rois, x)
    ensures SolvedOptimally(rois, budget, x)
  {
    ReachesOptimum(rois, budget, x);
    FeasibleBound(rois, budget, x);
    OptimalValueSolved(rois, budget, x);
  }

  /** A split that no feasible split beats returns at least total_budget * max ROI. */
  lemma ReachesOptimum(rois: seq<real>, budget: real, x: seq<real>)
    requires |rois| > 0 && Feasible(rois, budget, x)
    requires forall y :: Feasible(rois, budget, y) ==> Objective(rois, y) <= Objective(rois, x)
    ensures Objective(rois, x) >= OptimalReturn(rois, budget)
  {
    SumNonNegative(x);
    var best := ReferenceSolve(rois, budget);
    assert Feasible(rois, budget, best);
    SolvedValue(rois, budget, best);
  }

  /** A feasible split that returns total_budget * max ROI is SolvedOptimally. */
  lemma OptimalValueSolved(rois: seq<real>, budget: real, x: seq<real>)
    requires |rois| > 0 && Feasible(rois, budget, x)
    requires Objective(rois, x) == OptimalReturn(rois, budget)
    ensures SolvedOptimally(rois, budget, x)
  {
    var m := MaxRoi(rois);
    GapIdentity(rois, x, m);
    SameProduct(DataProcessor.Sum(x), m, budget, m);
  }

  /**
   * SolvedOptimally is exactly LP optimality: a feasible split that no feasible
   * split beats.
   */
  lemma OptimalIffSolved(rois: seq<real>, budget: real, x: seq<real>)
    requires |rois| > 0
    ensures (Feasible(rois, budget, x) &&
             forall y :: Feasible(rois, budget, y) ==> Objective(rois, y) <= Objective(rois, x))
        <==> SolvedOptimally(rois, budget, x)
  {
    if SolvedOptimally(rois, budget, x) {
      forall y | Feasible(rois, budget, y) ensures Objective(rois, y) <= Objective(rois, x) {
        SolvedIsOptimal(rois, budget, x, y);
      }
    }
    if Feasible(rois, budget, x) &&
       forall y :: Feasible(rois, budget, y) ==> Objective(rois, y) <= Objective(rois, x)
    {
      OptimalIsSolved(rois, budget, x);
    }
  }

  /** With a positive budget the LP has a feasible split exactly when there is a platform. */
  lemma FeasibleIffPlatforms(rois: seq<real>, budget: real)
    requires budget > 0.0
    ensures (exists x :: Feasible(rois, budget, x)) <==> |rois| > 0
  {
    if |rois| > 0 {
      var x := ReferenceSolve(rois, budget);
      assert Feasible(rois, budget, x);
    }
    forall x | Feasible(rois, budget, x) ensures |rois| > 0 {
      assert DataProcessor.Sum(x) != 0.0;
    }
  }

  /** Any optimum funds only platforms of maximal ROI (ties may share the budget in any way). */
  lemma OptimumFundsOnlyMaximisers(rois: seq<real>, budget: real, x: seq<real>)
    requires SolvedOptimally(rois, budget, x)
    ensures forall i :: 0 <= i < |x| && rois[i] < MaxRoi(rois) ==> x[i] == 0.0
  {
    GapZero(rois, x, MaxRoi(rois));
  }

  // ---------------------------------------------------------------------------
  // The result table
  // ---------------------------------------------------------------------------

  /**
   * The result rows before sorting, one per platform in input order, each carrying
   * its platform, its ROI and the solver's allocation for it.
   */
  function Shape(data: seq<PlatformRoi>, x: seq<real>, budget: real): (rows: seq<AllocationRow>)
    requires |x| == |data| && budget != 0.0
    ensures |rows| == |data|
    ensures forall i {:trigger rows[i]} :: 0 <= i < |data| ==>
      && PlatformRoi(rows[i].platform, rows[i].roi) == data[i]
      && rows[i].budgetAllocation == x[i]
  {
    seq(|data|, i requires 0 <= i < |data| =>
      AllocationRow(data[i].platform, data[i].roi, x[i], x[i] * data[i].roi, x[i] / budget * 100.0))
  }

  /** Rows in non-increasing order of expected return. */
  predicate SortedByReturn(rows: seq<AllocationRow>)
  {
    forall i, j :: 0 <= i < j < |rows| ==> rows[i].expectedReturn >= rows[j].expectedReturn
  }

  /** Inserts `r` in front of the first row whose expected return is not above its own. */
  function InsertByReturn(r: AllocationRow, rows: seq<AllocationRow>): (res: seq<AllocationRow>)
    ensures |res| == |rows| + 1
    ensures res[0] == r || (rows != [] && res[0] == rows[0])
    ensures multiset(res) == multiset(rows) + multiset{r}
    ensures SortedByReturn(rows) ==> SortedByReturn(res)
  {
    if rows == [] then [r]
    else if r.expectedReturn >= rows[0].expectedReturn then
      InsertInFront(r, rows);
      [r] + rows
    else
      var rest := InsertByReturn(r, rows[1..]);
      assert rows == [rows[0]] + rows[1..];
      InsertBehind(r, rows, rest);
      [rows[0]] + rest
  }

  lemma InsertInFront(r: AllocationRow, rows: seq<AllocationRow>)
    requires rows != [] && r.expectedReturn >= rows[0].expectedReturn
    ensures SortedByReturn(rows) ==> SortedByReturn([r] + rows)
  {
    if SortedByReturn(rows) {
      var res := [r] + rows;
      forall i, j | 0 <= i < j < |res| ensures res[i].expectedReturn >= res[j].expectedReturn {
        if i == 0 {
          assert res[j] == rows[j - 1];
          assert rows[0].expectedReturn >= rows[j - 1].expectedReturn;
        } else {
          assert res[i] == rows[i - 1] && res[j] == rows[j - 1];
        }
      }
    }
  }

  lemma InsertBehind(r: AllocationRow, rows: seq<AllocationRow>, rest: seq<AllocationRow>)
    requires rows != [] && r.expectedReturn < rows[0].expectedReturn
    requires |rest| == |rows| && (rest[0] == r || (|rows| > 1 && rest[0] == rows[1]))
    requires SortedByReturn(rows[1..]) ==> SortedByReturn(rest)
    ensures SortedByReturn(rows) ==> SortedByReturn([rows[0]] + rest)
  {
    if SortedByReturn(rows) {
      assert SortedByReturn(rows[1..]) by {
        forall i, j | 0 <= i < j < |rows[1..]| ensures rows[1..][i].expectedReturn >= rows[1..][j].expectedReturn {
          assert rows[1..][i] == rows[i + 1] && rows[1..][j] == rows[j + 1];
        }
      }
      var res := [rows[0]] + rest;
      assert rows[0].expectedReturn >= rest[0].expectedReturn;
      forall i, j | 0 <= i < j < |res| ensures res[i].expectedReturn >= res[j].expectedReturn {
        if i == 0 {
          assert res[j] == rest[j - 1];
          if j > 1 {
            assert rest[0].expectedReturn >= rest[j - 1].expectedReturn;
          }
        } else {
          assert res[i] == rest[i - 1] && res[j] == rest[j - 1];
        }
      }
    }
  }

  /** `sort_values('Expected_Return', ascending=False)`, as an insertion sort. */
  function SortByReturn(rows: seq<AllocationRow>): (res: seq<AllocationRow>)
    ensures SortedByReturn(res)
    ensures multiset(res) == multiset(rows)
  {
    if rows == [] then []
    else
      assert rows == [rows[0]] + rows[1..];
      InsertByReturn(rows[0], SortByReturn(rows[1..]))
  }

  /** The three numeric result columns that add up over the table. */
  datatype Field = Allocation | Expected | Percentage

  function FieldOf(row: AllocationRow, f: Field): real
  {
    match f
    case Allocation => row.budgetAllocation
    case Expected => row.expectedReturn
    case Percentage => row.allocationPercentage
  }

  /** The column total `rows[f].sum()`. */
  function Total(rows: seq<AllocationRow>, f: Field): real
  {
    if rows == [] then 0.0 else Total(rows[..|rows| - 1], f) + FieldOf(rows[|rows| - 1], f)
  }

  lemma {:induction false} TotalCons(r: AllocationRow, rows: seq<AllocationRow>, f: Field)
    ensures Total([r] + rows, f) == FieldOf(r, f) + Total(rows, f)
  {
    if rows != [] {
      var n := |rows|;
      assert ([r] + rows)[..n] == [r] + rows[..n - 1];
      TotalCons(r, rows[..n - 1], f);
    }
  }

  lemma {:induction false} TotalInsert(r: AllocationRow, rows: seq<AllocationRow>, f: Field)
    ensures Total(InsertByReturn(r, rows), f) == Total(rows, f) + FieldOf(r, f)
  {
    if rows == [] {
      assert InsertByReturn(r, rows) == [r];
      TotalCons(r, [], f);
    } else if r.expectedReturn >= rows[0].expectedReturn {
      TotalCons(r, rows, f);
    } else {
      TotalInsert(r, rows[1..], f);
      TotalCons(rows[0], InsertByReturn(r, rows[1..]), f);
      TotalCons(rows[0], rows[1..], f);
      assert rows == [rows[0]] + rows[1..];
    }
  }

  /** Sorting does not change a column total. */
  lemma {:induction false} TotalSort(rows: seq<AllocationRow>, f: Field)
    ensures Total(SortByReturn(rows), f) == Total(rows, f)
  {
    if rows != [] {
      TotalSort(rows[1..], f);
      TotalInsert(rows[0], SortByReturn(rows[1..]), f);
      TotalCons(rows[0], rows[1..], f);
      assert rows == [rows[0]] + rows[1..];
    }
  }

  lemma PercentageStep(a: real, b: real, budget: real)
    requires budget != 0.0
    ensures a / budget * 100.0 + b / budget * 100.0 == (a + b) / budget * 100.0
  {
  }

  lemma ShapePrefix(data: seq<PlatformRoi>, x: seq<real>, budget: real)
    requires |x| == |data| && |data| > 0 && budget != 0.0
    ensures Shape(data, x, budget)[..|data| - 1] == Shape(data[..|data| - 1], x[..|data| - 1], budget)
    ensures Rois(data)[..|data| - 1] == Rois(data[..|data| - 1])
  {
    var n := |data|;
    var rows, init := Shape(data, x, budget), Shape(data[..n - 1], x[..n - 1], budget);
    assert forall i :: 0 <= i < n - 1 ==> rows[i] == init[i];
  }

  /** The allocations of the unsorted table add up to sum x. */
  lemma {:induction false} ShapeAllocationTotal(data: seq<PlatformRoi>, x: seq<real>, budget: real)
    requires |x| == |data| && budget != 0.0
    ensures Total(Shape(data, x, budget), Allocation) == DataProcessor.Sum(x)
  {
    if data != [] {
      var n := |data|;
      ShapePrefix(data, x, budget);
      ShapeAllocationTotal(data[..n - 1], x[..n - 1], budget);
    }
  }

  /** The expected returns of the unsorted table add up to the LP objective. */
  lemma {:induction false} ShapeExpectedTotal(data: seq<PlatformRoi>, x: seq<real>, budget: real)
    requires |x| == |data| && budget != 0.0
    ensures Total(Shape(data, x, budget), Expected) == Objective(Rois(data), x)
  {
    if data != [] {
      var n := |data|;
      ShapePrefix(data, x, budget);
      ShapeExpectedTotal(data[..n - 1], x[..n - 1], budget);
    }
  }

  /** The percentages of the unsorted table add up to the share of the budget that x spends. */
  lemma {:induction false} ShapePercentageTotal(data: seq<PlatformRoi>, x: seq<real>, budget: real)
    requires |x| == |data| && budget != 0.0
    ensures Total(Shape(data, x, budget), Percentage) == DataProcessor.Sum(x) / budget * 100.0
  {
    if data != [] {
      var n := |data|;
      ShapePrefix(data, x, budget);
      ShapePercentageTotal(data[..n - 1], x[..n - 1], budget);
      PercentageStep(DataProcessor.Sum(x[..n - 1]), x[n - 1], budget);
    }
  }

  /**
   * The new table returned by optimize_budget, once the solver has answered: the
   * solver's failure as a ValueError, or the shaped rows reordered by expected return.
   */
  function AllocateBudget(data: seq<PlatformRoi>, totalBudget: real, outcome: LpOutcome): (r: Result<seq<AllocationRow>, Error>)
    requires |data| > 0 && totalBudget > 0.0
    requires outcome.Solved? ==> SolvedOptimally(Rois(data), totalBudget, outcome.x)
    ensures r.Failure? <==> outcome.SolverFailed?
    ensures r.Failure? ==> r.error == DataProcessor.ValueError("Optimization failed: " + outcome.message)
    ensures r.Success? ==>
      && SortedByReturn(r.value)
      && multiset(r.value) == multiset(Shape(data, outcome.x, totalBudget))
  {
    match outcome
    case SolverFailed(message) => Failure(DataProcessor.ValueError("Optimization failed: " + message))
    case Solved(x) => Success(SortByReturn(Shape(data, x, totalBudget)))
  }

  /** A result row is internally consistent: a non-negative allocation, its return and its share. */
  predicate RowConsistent(row: AllocationRow, budget: real)
    requires budget != 0.0
  {
    && row.budgetAllocation >= 0.0
    && row.expectedReturn == row.budgetAllocation * row.roi
    && row.allocationPercentage == row.budgetAllocation / budget * 100.0
  }

  lemma ShapeRows(data: seq<PlatformRoi>, budget: real, x: seq<real>, row: AllocationRow)
    requires budget > 0.0 && SolvedOptimally(Rois(data), budget, x) && |x| == |data|
    requires row in Shape(data, x, budget)
    ensures RowConsistent(row, budget)
    ensures PlatformRoi(row.platform, row.roi) in data
    ensures row.roi < MaxRoi(Rois(data)) ==> row.budgetAllocation == 0.0
  {
    var rois := Rois(data);
    var j :| 0 <= j < |data| && Shape(data, x, budget)[j] == row;
    OptimumFundsOnlyMaximisers(rois, budget, x);
    assert row == AllocationRow(data[j].platform, data[j].roi, x[j], x[j] * data[j].roi, x[j] / budget * 100.0);
    assert x[j] >= 0.0;
    assert row.roi == rois[j];
  }

  /**
   * The sorted table holds one consistent row per platform: a reordering of the shaped
   * rows, so every platform's own row is in it and every row comes from `data`.
   */
  lemma SortedTableRows(data: seq<PlatformRoi>, totalBudget: real, x: seq<real>)
    requires totalBudget > 0.0 && SolvedOptimally(Rois(data), totalBudget, x)
    ensures |x| == |data|
    ensures var rows := SortByReturn(Shape(data, x, totalBudget));
      && |rows| == |data|
      && multiset(rows) == multiset(Shape(data, x, totalBudget))
      && (forall i :: 0 <= i < |data| ==> Shape(data, x, totalBudget)[i] in rows)
      && forall i :: 0 <= i < |rows| ==>
           && RowConsistent(rows[i], totalBudget)
           && PlatformRoi(rows[i].platform, rows[i].roi) in data
           && (rows[i].roi < MaxRoi(Rois(data)) ==> rows[i].budgetAllocation == 0.0)
  {
    var shaped := Shape(data, x, totalBudget);
    var rows := SortByReturn(shaped);
    assert |multiset(rows)| == |multiset(shaped)|;
    forall i | 0 <= i < |data| ensures shaped[i] in rows {
      assert shaped[i] in multiset(shaped);
    }
    forall i | 0 <= i < |rows|
      ensures RowConsistent(rows[i], totalBudget)
      ensures PlatformRoi(rows[i].platform, rows[i].roi) in data
      ensures rows[i].roi < MaxRoi(Rois(data)) ==> rows[i].budgetAllocation == 0.0
    {
      assert rows[i] in multiset(rows);
      ShapeRows(data, totalBudget, x, rows[i]);
    }
  }

  /** The sorted table spends the whole budget, 100 percent of it, for budget * max ROI. */
  lemma SortedTableTotals(data: seq<PlatformRoi>, totalBudget: real, x: seq<real>)
    requires totalBudget > 0.0 && SolvedOptimally(Rois(data), totalBudget, x)
    ensures |x| == |data|
    ensures var rows := SortByReturn(Shape(data, x, totalBudget));
      && Total(rows, Allocation) == totalBudget
      && Total(rows, Percentage) == 100.0
      && Total(rows, Expected) == OptimalReturn(Rois(data), totalBudget)
  {
    SortedAllocationTotal(data, x, totalBudget);
    SortedPercentageTotal(data, x, totalBudget);
    SortedExpectedTotal(data, x, totalBudget);
    SolvedValue(Rois(data), totalBudget, x);
  }

  lemma SortedAllocationTotal(data: seq<PlatformRoi>, x: seq<real>, totalBudget: real)
    requires totalBudget > 0.0 && SolvedOptimally(Rois(data), totalBudget, x) && |x| == |data|
    ensures Total(SortByReturn(Shape(data, x, totalBudget)), Allocation) == totalBudget
  {
    TotalSort(Shape(data, x, totalBudget), Allocation);
    ShapeAllocationTotal(data, x, totalBudget);
  }

  lemma SortedPercentageTotal(data: seq<PlatformRoi>, x: seq<real>, totalBudget: real)
    requires totalBudget > 0.0 && SolvedOptimally(Rois(data), totalBudget, x) && |x| == |data|
    ensures Total(SortByReturn(Shape(data, x, totalBudget)), Percentage) == 100.0
  {
    TotalSort(Shape(data, x, totalBudget), Percentage);
    ShapePercentageTotal(data, x, totalBudget);
    WholeShare(DataProcessor.Sum(x), totalBudget);
  }

  lemma SortedExpectedTotal(data: seq<PlatformRoi>, x: seq<real>, totalBudget: real)
    requires totalBudget > 0.0 && |x| == |data|
    ensures Total(SortByReturn(Shape(data, x, totalBudget)), Expected) == Objective(Rois(data), x)
  {
    TotalSort(Shape(data, x, totalBudget), Expected);
    ShapeExpectedTotal(data, x, totalBudget);
  }

  lemma WholeShare(spent: real, budget: real)
    requires budget != 0.0 && spent == budget
    ensures spent / budget * 100.0 == 100.0
  {
  }

  /**
   * optimize_budget after the solver has answered: a failure becomes the ValueError;
   * a success becomes one consistent row per platform, sorted by expected return,
   * spending exactly the budget (100 percent) and returning budget * max ROI.
   */
  lemma AllocateBudgetContract(data: seq<PlatformRoi>, totalBudget: real, outcome: LpOutcome)
    requires |data| > 0 && totalBudget > 0.0
    requires outcome.Solved? ==> SolvedOptimally(Rois(data), totalBudget, outcome.x)
    ensures outcome.SolverFailed? ==>
      AllocateBudget(data, totalBudget, outcome) == Failure(DataProcessor.ValueError("Optimization failed: " + outcome.message))
    ensures outcome.Solved? ==>
      var r := AllocateBudget(data, totalBudget, outcome);
      && r.Success?
      && |r.value| == |data|
      && SortedByReturn(r.value)
      && multiset(r.value) == multiset(Shape(data, outcome.x, totalBudget))
      && (forall i :: 0 <= i < |data| ==> Shape(data, outcome.x, totalBudget)[i] in r.value)
      && (forall i :: 0 <= i < |r.value| ==>
            && RowConsistent(r.value[i], totalBudget)
            && PlatformRoi(r.value[i].platform, r.value[i].roi) in data
            && (r.value[i].roi < MaxRoi(Rois(data)) ==> r.value[i].budgetAllocation == 0.0))
      && Total(r.value, Allocation) == totalBudget
      && Total(r.value, Percentage) == 100.0
      && Total(r.value, Expected) == OptimalReturn(Rois(data), totalBudget)
  {
    if outcome.Solved? {
      SortedTableRows(data, totalBudget, outcome.x);
      SortedTableTotals(data, totalBudget, outcome.x);
    }
  }

  // ---------------------------------------------------------------------------
  // optimize_budget on the table that process_data returns
  // ---------------------------------------------------------------------------

  /** `platform_data['Channel_Used']` and `platform_data['ROI']`, row by row. */
  function PlatformInputs(s: DataProcessor.Summary): (r: Result<seq<PlatformRoi>, Error>)
    requires DataProcessor.WellFormed(s)
    ensures r.Failure? <==> DataProcessor.Roi !in s.columns
    ensures r.Failure? ==> r.error == DataProcessor.KeyError("ROI")
    ensures r.Success? ==> |r.value| == |s.rows| && forall i :: 0 <= i < |s.rows| ==>
      r.value[i].platform == s.rows[i].platform && s.rows[i].values[DataProcessor.Roi] == Some(r.value[i].roi)
  {
    if DataProcessor.Roi !in s.columns then Failure(DataProcessor.KeyError("ROI"))
    else
      Success(seq(|s.rows|, i requires 0 <= i < |s.rows| =>
        PlatformRoi(s.rows[i].platform, s.rows[i].values[DataProcessor.Roi].value)))
  }

  /** What the solver must satisfy for the table `s`: only a true optimum counts as a success. */
  predicate AdmissibleOutcome(s: DataProcessor.Summary, totalBudget: real, outcome: LpOutcome)
    requires DataProcessor.WellFormed(s)
  {
    PlatformInputs(s).Success? && outcome.Solved? ==>
      SolvedOptimally(Rois(PlatformInputs(s).value), totalBudget, outcome.x)
  }

  /** optimize_budget(platform_data, total_budget), given the solver's answer. */
  function OptimizeBudget(platformData: DataProcessor.Summary, totalBudget: real, outcome: LpOutcome): (r: Result<seq<AllocationRow>, Error>)
    requires |platformData.rows| > 0 && totalBudget > 0.0 && DataProcessor.WellFormed(platformData)
    requires AdmissibleOutcome(platformData, totalBudget, outcome)
    ensures DataProcessor.Roi !in platformData.columns ==> r == Failure(DataProcessor.KeyError("ROI"))
    ensures DataProcessor.Roi in platformData.columns ==>
      r == AllocateBudget(PlatformInputs(platformData).value, totalBudget, outcome)
  {
    match PlatformInputs(platformData)
    case Failure(e) => Failure(e)
    case Success(data) => AllocateBudget(data, totalBudget, outcome)
  }

  /** process_data's ROI column: kept exactly when every platform has an ROI, holding their means. */
  lemma ProcessRoiColumn(rows: seq<DataProcessor.Record>, columns: set<string>)
    requires DataProcessor.ProcessOutcome(rows, columns).Success?
    ensures
      var s := DataProcessor.ProcessOutcome(rows, columns).value;
      && DataProcessor.WellFormed(s)
      && (forall p :: p in DataProcessor.PlatformSet(rows) <==> exists i :: 0 <= i < |s.rows| && s.rows[i].platform == p)
      && (forall i, j :: 0 <= i < j < |s.rows| ==> s.rows[i].platform != s.rows[j].platform)
      && (DataProcessor.Roi in s.columns <==>
            forall p :: p in DataProcessor.PlatformSet(rows) ==> DataProcessor.ColumnValues(DataProcessor.Group(rows, p), DataProcessor.Roi) != [])
      && (DataProcessor.Roi in s.columns ==> forall i :: 0 <= i < |s.rows| ==>
            DataProcessor.Roi in s.rows[i].values &&
            s.rows[i].values[DataProcessor.Roi] == DataProcessor.Mean(DataProcessor.ColumnValues(DataProcessor.Group(rows, s.rows[i].platform), DataProcessor.Roi)))
  {
    var coerced := DataProcessor.CoerceTable(rows, columns);
    var s := DataProcessor.ProcessOutcome(rows, columns).value;
    assert s == DataProcessor.Summarise(coerced, columns);
    DataProcessor.SummariseWellFormed(coerced, columns);
    DataProcessor.CoercedPlatforms(rows, columns);
    RoiSurvival(rows, columns);
    RoiValues(rows, columns);
  }

  /** ROI is an averaged column, so it survives exactly when every platform has an ROI value. */
  lemma RoiSurvival(rows: seq<DataProcessor.Record>, columns: set<string>)
    requires DataProcessor.Roi in columns
    ensures DataProcessor.Roi in DataProcessor.Summarise(DataProcessor.CoerceTable(rows, columns), columns).columns <==>
      forall p :: p in DataProcessor.PlatformSet(rows) ==> DataProcessor.ColumnValues(DataProcessor.Group(rows, p), DataProcessor.Roi) != []
  {
    DataProcessor.CoercedColumns(rows, columns);
    assert DataProcessor.Roi in DataProcessor.NumericColumns && DataProcessor.Roi !in DataProcessor.SumColumns;
  }

  /** Each surviving ROI cell is the mean of its platform's ROI values. */
  lemma RoiValues(rows: seq<DataProcessor.Record>, columns: set<string>)
    ensures var s := DataProcessor.Summarise(DataProcessor.CoerceTable(rows, columns), columns);
      DataProcessor.Roi in s.columns ==> forall i :: 0 <= i < |s.rows| ==>
        DataProcessor.Roi in s.rows[i].values &&
        s.rows[i].values[DataProcessor.Roi] == DataProcessor.Mean(DataProcessor.ColumnValues(DataProcessor.Group(rows, s.rows[i].platform), DataProcessor.Roi))
  {
    DataProcessor.CoercedValues(rows, columns);
    assert DataProcessor.Roi !in DataProcessor.SumColumns;
  }

  /**
   * The optimizer's inputs for process_data's table: one entry per distinct platform,
   * whose ROI is the mean ROI of that platform's rows; or the KeyError when the ROI
   * column was dropped because some platform has no ROI.
   */
  lemma OptimizerInputsFromProcess(rows: seq<DataProcessor.Record>, columns: set<string>)
    requires DataProcessor.ProcessOutcome(rows, columns).Success?
    ensures DataProcessor.WellFormed(DataProcessor.ProcessOutcome(rows, columns).value)
    ensures
      var s := DataProcessor.ProcessOutcome(rows, columns).value;
      var d := PlatformInputs(s);
      && (d.Failure? <==>
            exists p :: p in DataProcessor.PlatformSet(rows) && DataProcessor.ColumnValues(DataProcessor.Group(rows, p), DataProcessor.Roi) == [])
      && (d.Failure? ==> d.error == DataProcessor.KeyError("ROI"))
      && (d.Success? ==>
            && (forall p :: p in DataProcessor.PlatformSet(rows) <==> exists i :: 0 <= i < |d.value| && d.value[i].platform == p)
            && (forall i, j :: 0 <= i < j < |d.value| ==> d.value[i].platform != d.value[j].platform)
            && (forall i :: 0 <= i < |d.value| ==>
                  Some(d.value[i].roi) == DataProcessor.Mean(DataProcessor.ColumnValues(DataProcessor.Group(rows, d.value[i].platform), DataProcessor.Roi))))
  {
    ProcessRoiColumn(rows, columns);
    var s := DataProcessor.ProcessOutcome(rows, columns).value;
    if DataProcessor.Roi in s.columns {
      InputsOfSummary(s, DataProcessor.PlatformSet(rows));
    }
  }

  /** PlatformInputs keeps a summary's platforms, in order, each with its ROI cell's value. */
  lemma InputsOfSummary(s: DataProcessor.Summary, platforms: set<string>)
    requires DataProcessor.WellFormed(s) && DataProcessor.Roi in s.columns
    requires forall p :: p in platforms <==> exists i :: 0 <= i < |s.rows| && s.rows[i].platform == p
    requires forall i, j :: 0 <= i < j < |s.rows| ==> s.rows[i].platform != s.rows[j].platform
    ensures var d := PlatformInputs(s).value;
      && |d| == |s.rows|
      && (forall p :: p in platforms <==> exists i :: 0 <= i < |d| && d[i].platform == p)
      && (forall i, j :: 0 <= i < j < |d| ==> d[i].platform != d[j].platform)
      && (forall i :: 0 <= i < |d| ==> Some(d[i].roi) == s.rows[i].values[DataProcessor.Roi])
  {
    var d := PlatformInputs(s).value;
    forall p ensures p in platforms <==> exists i :: 0 <= i < |d| && d[i].platform == p {
      if p in platforms {
        var i :| 0 <= i < |s.rows| && s.rows[i].platform == p;
        assert d[i].platform == p;
      }
      if exists i :: 0 <= i < |d| && d[i].platform == p {
        var i :| 0 <= i < |d| && d[i].platform == p;
        assert s.rows[i].platform == p;
      }
    }
  }

  function ExampleData(): seq<PlatformRoi>
  {
    [PlatformRoi("Facebook", 1.2), PlatformRoi("Instagram", 0.8), PlatformRoi("Google", 1.5)]
  }

  /** ROIs 1.2, 0.8 and 1.5: the reference solver puts a budget of 10000 on the third. */
  lemma ExampleSolve()
    ensures ReferenceSolve(Rois(ExampleData()), 10000.0) == [0.0, 0.0, 10000.0]
  {
    var rois := Rois(ExampleData());
    assert rois == [1.2, 0.8, 1.5];
    assert rois[..2] == [1.2, 0.8] && rois[..2][..1] == [1.2];
    assert MaxRoi(rois) == 1.5;
    assert rois[1..] == [0.8, 1.5] && rois[1..][1..] == [1.5];
    assert ArgMax(rois) == 2;
  }

  /** The reference answer for the example is optimal. */
  lemma ExampleOptimal()
    ensures SolvedOptimally(Rois(ExampleData()), 10000.0, [0.0, 0.0, 10000.0])
  {
    ExampleSolve();
  }

  /** The example's rows as shaped from the optimal answer, in input order. */
  lemma ExampleShape()
    ensures Shape(ExampleData(), [0.0, 0.0, 10000.0], 10000.0) == [
      AllocationRow("Facebook", 1.2, 0.0, 0.0, 0.0),
      AllocationRow("Instagram", 0.8, 0.0, 0.0, 0.0),
      AllocationRow("Google", 1.5, 10000.0, 15000.0, 100.0)]
  {
  }

  /** The example's rows sorted by expected return. */
  lemma ExampleSorted()
    ensures SortByReturn(Shape(ExampleData(), [0.0, 0.0, 10000.0], 10000.0)) == [
      AllocationRow("Google", 1.5, 10000.0, 15000.0, 100.0),
      AllocationRow("Facebook", 1.2, 0.0, 0.0, 0.0),
      AllocationRow("Instagram", 0.8, 0.0, 0.0, 0.0)]
  {
    var facebook := AllocationRow("Facebook", 1.2, 0.0, 0.0, 0.0);
    var instagram := AllocationRow("Instagram", 0.8, 0.0, 0.0, 0.0);
    var google := AllocationRow("Google", 1.5, 10000.0, 15000.0, 100.0);
    ExampleShape();
    ExampleSortSteps(facebook, instagram, google);
  }

  lemma ExampleSortSteps(facebook: AllocationRow, instagram: AllocationRow, google: AllocationRow)
    requires facebook.expectedReturn == 0.0 && instagram.expectedReturn == 0.0
    requires google.expectedReturn == 15000.0
    ensures SortByReturn([facebook, instagram, google]) == [google, facebook, instagram]
  {
    assert [facebook, instagram, google][1..] == [instagram, google];
    SortPair(instagram, google);
    InsertSecond(facebook, google, instagram);
  }

  /** Two rows whose second has the larger return are swapped. */
  lemma SortPair(a: AllocationRow, b: AllocationRow)
    requires a.expectedReturn < b.expectedReturn
    ensures SortByReturn([a, b]) == [b, a]
  {
    assert [a, b][1..] == [b] && [b][1..] == [];
    assert SortByReturn([b]) == [b];
    assert InsertByReturn(a, [b]) == [b] + InsertByReturn(a, []);
  }

  /** A row that ties with the second row and is below the first goes between them. */
  lemma InsertSecond(r: AllocationRow, first: AllocationRow, second: AllocationRow)
    requires second.expectedReturn <= r.expectedReturn < first.expectedReturn
    ensures InsertByReturn(r, [first, second]) == [first, r, second]
  {
    var rows := [first, second];
    calc {
      InsertByReturn(r, rows);
      [first] + InsertByReturn(r, rows[1..]);
      { assert rows[1..] == [second]; }
      [first] + InsertByReturn(r, [second]);
      [first, r, second];
    }
  }

  /**
   * The same instance after the solver: the third platform's row comes first with
   * return 15000 and 100 percent; the others keep their input order.
   */
  lemma ExampleTable()
    ensures SolvedOptimally(Rois(ExampleData()), 10000.0, [0.0, 0.0, 10000.0])
    ensures AllocateBudget(ExampleData(), 10000.0, Solved([0.0, 0.0, 10000.0])) == Success([
      AllocationRow("Google", 1.5, 10000.0, 15000.0, 100.0),
      AllocationRow("Facebook", 1.2, 0.0, 0.0, 0.0),
      AllocationRow("Instagram", 0.8, 0.0, 0.0, 0.0)])
  {
    ExampleOptimal();
    ExampleSorted();
  }
}
