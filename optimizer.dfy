/**
 * The glue around the CMA-ES library in the optimizer package (optimizer.py).
 *
 * The library's two objects, the evolution strategy `es` and the
 * augmented-Lagrangian constraint handler `cfun`, are modelled as classes
 * that record the calls made to them. What the library computes in a call
 * (the drawn population, the new `G` and `best_feas`) enters as a
 * parameter, because the numerics belong to the library. What this package
 * owns is modelled
 * exactly: the option dictionary, the stored-value callbacks, the order of
 * the calls in one tell step, the feasibility test over the handler's
 * constraint history and the extraction of the best feasible point.
 */
module Optimizer {
  import opened Wrappers

  type Vector = seq<real>

  /** Default arguments of `initialize_optimizer`. */
  const DefaultSigma: real := 0.5
  const DefaultMaxIter: int := 100
  const DefaultPopSize: int := 10
  const DefaultTolFun: real := 0.000001

  /** The option dictionary handed to `cma.CMAEvolutionStrategy`. */
  datatype CmaOptions = CmaOptions(
    bounds: seq<Vector>,
    verbDisp: int,
    verbLog: int,
    maxiter: int,
    popsize: int,
    tolfun: real)

  /**
   * The options built by `initialize_optimizer`: bounds as the two-element
   * list [bounds_min, bounds_max], progress display every iteration, no log
   * files, and the three budget settings passed through unchanged.
   */
  function BuildOptions(boundsMin: Vector, boundsMax: Vector, maxiter: int, popsize: int, tolfun: real): (o: CmaOptions)
    ensures |o.bounds| == 2 && o.bounds[0] == boundsMin && o.bounds[1] == boundsMax
    ensures o.verbDisp == 1 && o.verbLog == 0
    ensures o.maxiter == maxiter && o.popsize == popsize && o.tolfun == tolfun
  {
    CmaOptions([boundsMin, boundsMax], 1, 0, maxiter, popsize, tolfun)
  }

  /**
   * Options built from different arguments differ: nothing passed to
   * `initialize_optimizer` (besides the initial point and step size) is dropped.
   */
  lemma BuildOptionsInjective(
    min1: Vector, max1: Vector, it1: int, pop1: int, tol1: real,
    min2: Vector, max2: Vector, it2: int, pop2: int, tol2: real)
    requires BuildOptions(min1, max1, it1, pop1, tol1) == BuildOptions(min2, max2, it2, pop2, tol2)
    ensures min1 == min2 && max1 == max2 && it1 == it2 && pop1 == pop2 && tol1 == tol2
  {
    var o := BuildOptions(min1, max1, it1, pop1, tol1);
    assert o.bounds[0] == min1 && o.bounds[0] == min2;
  }

  /**
   * The module-level storage `_current_objective` / `_current_constraints`
   * that the external (JavaScript) side writes before each evaluation, and
   * the two callbacks that read it.
   */
  class StoredValues {
    var currentObjective: Option<real>
    var currentConstraints: seq<real>

    /** Module load: no objective yet (Python `None`), no constraints. */
    constructor ()
      ensures currentObjective == None && currentConstraints == []
    {
      currentObjective := None;
      currentConstraints := [];
    }

    /** Stands in for the external writer of `_current_objective`. */
    method SetObjective(value: real)
      modifies this`currentObjective
      ensures currentObjective == Some(value)
      ensures forall x :: ObjectiveWrapper(x) == Some(value)
    {
      currentObjective := Some(value);
    }

    /** Stands in for the external writer of `_current_constraints`. */
    method SetConstraints(values: seq<real>)
      modifies this`currentConstraints
      ensures currentConstraints == values
      ensures forall x :: ConstraintsWrapper(x) == values
    {
      currentConstraints := values;
    }

    /** `objective_wrapper(x)`: the stored objective; `x` is not looked at. */
    function ObjectiveWrapper(x: Vector): (r: Option<real>)
      reads this
      ensures r == currentObjective
    {
      currentObjective
    }

    /** `constraints_wrapper(x)`: the stored constraint list; `x` is not looked at. */
    function ConstraintsWrapper(x: Vector): (r: seq<real>)
      reads this
      ensures r == currentConstraints
    {
      currentConstraints
    }
  }

  /** Between two writes the callbacks return the same values for any two arguments. */
  lemma WrappersIgnoreArgument(store: StoredValues, x: Vector, y: Vector)
    ensures store.ObjectiveWrapper(x) == store.ObjectiveWrapper(y) == store.currentObjective
    ensures store.ConstraintsWrapper(x) == store.ConstraintsWrapper(y) == store.currentConstraints
  {
  }

  /** One `es.tell(solutions, fitnesses)` call as the strategy received it. */
  datatype Told = Told(solutions: seq<Vector>, fitnesses: seq<real>)

  /**
   * `cma.CMAEvolutionStrategy`, seen from outside: its construction
   * arguments and the calls it received. Sampling and the distribution
   * update are the library's and are not modelled.
   */
  class Strategy {
    const x0: Vector
    const sigma0: real
    const opts: CmaOptions
    var asks: nat
    var told: seq<Told>

    constructor (x0: Vector, sigma0: real, opts: CmaOptions)
      ensures this.x0 == x0 && this.sigma0 == sigma0 && this.opts == opts
      ensures asks == 0 && told == []
    {
      this.x0 := x0;
      this.sigma0 := sigma0;
      this.opts := opts;
      asks := 0;
      told := [];
    }

    /**
     * `es.ask()`. The population is drawn at random inside the library, so
     * the model receives it as `drawn`.
     */
    method Ask(drawn: seq<Vector>) returns (population: seq<Vector>)
      modifies this`asks
      ensures population == drawn
      ensures asks == old(asks) + 1
    {
      population := drawn;
      asks := asks + 1;
    }

    /** `es.tell(solutions, fitnesses)`. */
    method Tell(solutions: seq<Vector>, fitnesses: seq<real>)
      modifies this`told
      ensures told == old(told) + [Told(solutions, fitnesses)]
    {
      told := told + [Told(solutions, fitnesses)];
    }
  }

  /** The handler's `best_feas` record: a point (possibly `None`) and its objective. */
  datatype BestSolution = BestSolution(x: Option<Vector>, f: real)

  /**
   * `cma.ConstrainedFitnessAL`, seen from outside. `G` is its constraint
   * history (`None` when the attribute does not exist), `bestFeas` its
   * `best_feas` attribute; both are maintained by the library. `updates`
   * records, for every `cfun.update(es)` call, how many tells `es` had
   * received at that moment.
   */
  class ConstrainedFitness {
    const store: StoredValues
    const findFeasibleFirst: bool
    var G: Option<seq<Vector>>
    var bestFeas: Option<BestSolution>
    var updates: seq<nat>

    constructor (store: StoredValues, findFeasibleFirst: bool)
      ensures this.store == store && this.findFeasibleFirst == findFeasibleFirst
      ensures updates == []
    {
      this.store := store;
      this.findFeasibleFirst := findFeasibleFirst;
      G := None;
      bestFeas := None;
      updates := [];
    }

    /**
     * `cfun.update(es)`: the multiplier and penalty adaptation is the
     * library's. What it leaves in `G` and `best_feas` is not visible here,
     * so it enters as the parameters `newG` and `newBest`.
     */
    method Update(es: Strategy, newG: Option<seq<Vector>>, newBest: Option<BestSolution>)
      modifies this`updates, this`G, this`bestFeas
      ensures updates == old(updates) + [|es.told|]
      ensures G == newG && bestFeas == newBest
    {
      updates := updates + [|es.told|];
      G := newG;
      bestFeas := newBest;
    }
  }

  /**
   * `initialize_optimizer`: the strategy is built from the initial guess,
   * the step size and the options; the handler is built over the two
   * stored-value callbacks and always with `find_feasible_first=True`.
   */
  method InitializeOptimizer(
    store: StoredValues,
    initialGuess: Vector, boundsMin: Vector, boundsMax: Vector,
    sigma: real := DefaultSigma, maxiter: int := DefaultMaxIter,
    popsize: int := DefaultPopSize, tolfun: real := DefaultTolFun)
    returns (es: Strategy, cfun: ConstrainedFitness)
    ensures fresh(es) && fresh(cfun)
    ensures es.x0 == initialGuess && es.sigma0 == sigma
    ensures es.opts == BuildOptions(boundsMin, boundsMax, maxiter, popsize, tolfun)
    ensures es.asks == 0 && es.told == []
    ensures cfun.store == store && cfun.findFeasibleFirst && cfun.updates == []
  {
    var opts := BuildOptions(boundsMin, boundsMax, maxiter, popsize, tolfun);
    es := new Strategy(initialGuess, sigma, opts);
    cfun := new ConstrainedFitness(store, true);
  }

  /**
   * `ask_solutions`: one `es.ask()`, each solution turned into a plain list,
   * count and order kept.
   */
  method AskSolutions(es: Strategy, drawn: seq<Vector>) returns (solutions: seq<Vector>)
    modifies es
    ensures |solutions| == |drawn|
    ensures forall i :: 0 <= i < |drawn| ==> solutions[i] == drawn[i]
    ensures es.asks == old(es.asks) + 1 && es.told == old(es.told)
  {
    var population := es.Ask(drawn);
    solutions := seq(|population|, i requires 0 <= i < |population| => population[i]);
  }

  /**
   * `tell_results`: the strategy is told first, then the handler is updated,
   * and it saw the strategy with that tell already recorded; the answer is "ok".
   * `newG` and `newBest` are what the library's update leaves in the handler.
   */
  method TellResults(
    es: Strategy, solutions: seq<Vector>, fitnesses: seq<real>, cfun: ConstrainedFitness,
    newG: Option<seq<Vector>>, newBest: Option<BestSolution>)
    returns (reply: string)
    modifies es, cfun
    ensures es.told == old(es.told) + [Told(solutions, fitnesses)]
    ensures cfun.updates == old(cfun.updates) + [|es.told|]
    ensures cfun.updates[|cfun.updates| - 1] == |es.told| && es.told[|es.told| - 1] == Told(solutions, fitnesses)
    ensures es.asks == old(es.asks)
    ensures cfun.G == newG && cfun.bestFeas == newBest
    ensures reply == "ok"
  {
    es.Tell(solutions, fitnesses);
    cfun.Update(es, newG, newBest);
    reply := "ok";
  }

  /** `all(g <= 0 for g in v)`, evaluated front to back. */
  function AllNonPositive(v: seq<real>): (r: bool)
    ensures r <==> forall j :: 0 <= j < |v| ==> v[j] <= 0.0
  {
    if |v| == 0 then true
    else v[0] <= 0.0 && AllNonPositive(v[1..])
  }

  /**
   * `is_feasible(cfun)` applied to the handler's history `G`: false without
   * a history or with an empty one; otherwise decided by the last recorded
   * constraint vector alone, feasible when none of its entries is positive.
   */
  function IsFeasible(history: Option<seq<Vector>>): (r: bool)
    ensures history == None ==> !r
    ensures history.Some? && |history.value| == 0 ==> !r
    ensures r <==> history.Some? && |history.value| > 0 &&
                   forall j :: 0 <= j < |LastRow(history.value)| ==> LastRow(history.value)[j] <= 0.0
  {
    if history.None? || |history.value| == 0 then false
    else AllNonPositive(LastRow(history.value))
  }

  /** `G[-1]`, the most recently recorded constraint vector. */
  function LastRow(history: seq<Vector>): Vector
    requires |history| > 0
  {
    history[|history| - 1]
  }

  /** Rows before the last never matter. */
  lemma OnlyLastRowDecides(earlier: seq<Vector>, earlier': seq<Vector>, last: Vector)
    ensures IsFeasible(Some(earlier + [last])) == IsFeasible(Some(earlier' + [last]))
    ensures IsFeasible(Some(earlier + [last])) == AllNonPositive(last)
  {
    assert (earlier + [last])[|earlier + [last]| - 1] == last;
    assert (earlier' + [last])[|earlier' + [last]| - 1] == last;
  }

  /** One strictly positive entry in the last vector makes the history infeasible. */
  lemma PositiveEntryInfeasible(history: seq<Vector>, j: nat)
    requires |history| > 0 && j < |history[|history| - 1]|
    requires history[|history| - 1][j] > 0.0
    ensures !IsFeasible(Some(history))
  {
  }

  /** An empty last vector counts as feasible. */
  lemma EmptyLastVectorFeasible(earlier: seq<Vector>)
    ensures IsFeasible(Some(earlier + [[]]))
  {
    OnlyLastRowDecides(earlier, [], []);
  }

  /** The JSON object returned by `get_best_feasible` when there is one. */
  datatype FeasibleReport = FeasibleReport(solution: Vector, objective: real, feasible: bool)

  /**
   * `get_best_feasible`: JSON null (`None`) when there is no `best_feas` or
   * it has no point; otherwise its point and objective, flagged feasible.
   */
  function GetBestFeasible(bestFeas: Option<BestSolution>): (r: Option<FeasibleReport>)
    ensures r.None? <==> bestFeas.None? || bestFeas.value.x.None?
    ensures r.Some? ==> r.value.feasible
    ensures r.Some? ==> |r.value.solution| == |bestFeas.value.x.value| &&
                        (forall i :: 0 <= i < |r.value.solution| ==> r.value.solution[i] == bestFeas.value.x.value[i])
    ensures r.Some? ==> r.value.objective == bestFeas.value.f
  {
    match bestFeas
    case None => None
    case Some(best) =>
      match best.x
      case None => None
      case Some(x) => Some(FeasibleReport(x, best.f, true))
  }
}
