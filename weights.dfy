/** `MarginalWeightInfo::item`: the weight charged for one agenda item,
    chosen from the benchmark that matches the item's kind. */
module Weights {
  import opened Types

  /** The value of a benchmarked weight function at `n`. */
  function Eval(f: Affine, n: nat): nat {
    f.base + f.slope * n
  }

  /** What a benchmark measured: named items, periodic items, items whose
      preimage was resolved, and items aborted for a missing preimage. */
  predicate MeasuresNamed(b: Benchmark) {
    b in {OnInitializeNamed, OnInitializePeriodicNamed, OnInitializeNamedResolved,
          OnInitializePeriodicNamedResolved, OnInitializeNamedAborted}
  }
  predicate MeasuresPeriodic(b: Benchmark) {
    b in {OnInitializePeriodic, OnInitializePeriodicNamed, OnInitializePeriodicResolved,
          OnInitializePeriodicNamedResolved}
  }
  predicate MeasuresResolved(b: Benchmark) {
    b in {OnInitializeResolved, OnInitializeNamedResolved, OnInitializePeriodicResolved,
          OnInitializePeriodicNamedResolved}
  }
  predicate MeasuresAborted(b: Benchmark) {
    b in {OnInitializeAborted, OnInitializeNamedAborted}
  }

  /** The case split of `item`: an aborted item (`resolved == None`) is
      charged by the aborted benchmark whatever its periodicity; any other
      item by the benchmark whose three flags equal the item's. */
  function ItemBenchmark(periodic: bool, named: bool, resolved: Option<bool>): (b: Benchmark)
    ensures MeasuresNamed(b) == named
    ensures MeasuresAborted(b) <==> resolved.None?
    ensures resolved.Some? ==> MeasuresPeriodic(b) == periodic && MeasuresResolved(b) == resolved.value
    ensures resolved.None? ==> !MeasuresPeriodic(b) && !MeasuresResolved(b)
  {
    if resolved.None? then
      (if named then OnInitializeNamedAborted else OnInitializeAborted)
    else if !resolved.value then
      (if periodic then (if named then OnInitializePeriodicNamed else OnInitializePeriodic)
       else (if named then OnInitializeNamed else OnInitialize))
    else
      (if periodic then (if named then OnInitializePeriodicNamedResolved else OnInitializePeriodicResolved)
       else (if named then OnInitializeNamedResolved else OnInitializeResolved))
  }

  /** `item`: the marginal weight of one more item, `f(2) - f(1)` of the
      chosen benchmark, which is that benchmark's per-item slope. */
  function Item(w: Benchmark -> Affine, periodic: bool, named: bool, resolved: Option<bool>): (r: Weight)
    ensures r == w(ItemBenchmark(periodic, named, resolved)).slope
  {
    var f := w(ItemBenchmark(periodic, named, resolved));
    Eval(f, 2) - Eval(f, 1)
  }
}
