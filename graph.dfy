/**
 * A run of a compiled state graph, as both workflows use it: starting from a
 * stage, execute its node on the shared state, let the edge table choose the
 * next stage from the new state, and stop at END, when an exception escapes,
 * or when the step budget is spent.
 */
module Graph {
  import opened Wrappers
  import opened Environment
  import opened ReportStates

  /** Where the graph goes after a node: a stage, or an exception raised by a router. */
  datatype Next<S> = Go(stage: S) | Fault(message: string)

  /**
   * How a run ends: at END with the final state, the world and the number
   * of nodes executed; with an exception escaping a node or a router; or by
   * exceeding the step budget.
   */
  datatype Ending = Ended(state: Snapshot, world: World, steps: nat) | Crashed(message: string, steps: nat) | OverBudget

  /** The world after a node's calls and commits. */
  function Advance(w: World, fx: Effects): World {
    w.(pos := w.pos + fx.calls, dbPos := w.dbPos + fx.commits)
  }

  /** One more node executed before `e`. */
  function Counted(e: Ending): Ending {
    match e
    case Ended(s, w, n) => Ended(s, w, n + 1)
    case Crashed(m, n) => Crashed(m, n + 1)
    case OverBudget => OverBudget
  }

  /** Running the graph from `st`, executing at most `budget` nodes. */
  function Run<S(==,!new)>(node: (S, Snapshot, World) -> NodeOut, next: (S, Snapshot) -> Next<S>, final: S,
                      st: S, s: Snapshot, w: World, budget: nat): Ending
    decreases budget
  {
    if st == final then Ended(s, w, 0)
    else if budget == 0 then OverBudget
    else
      var o := node(st, s, w);
      if o.raised.Some? then Crashed(o.raised.value, 1)
      else match next(st, o.state)
        case Fault(m) => Crashed(m, 1)
        case Go(t) => Counted(Run(node, next, final, t, o.state, Advance(w, o.fx), budget - 1))
  }

  /**
   * `pot` is positive away from END, and every step the graph can take
   * lowers it.
   */
  ghost predicate Lowers<S(!new)>(node: (S, Snapshot, World) -> NodeOut, next: (S, Snapshot) -> Next<S>, final: S,
                                pot: (S, Snapshot) -> nat)
  {
    (forall st: S, s: Snapshot :: st != final ==> pot(st, s) > 0) &&
    forall st: S, s: Snapshot, w: World ::
      st != final && node(st, s, w).raised.None? && next(st, node(st, s, w).state).Go? ==>
        pot(next(st, node(st, s, w).state).stage, node(st, s, w).state) < pot(st, s)
  }

  /**
   * When every step lowers a potential, a run whose budget covers the
   * potential never runs out of budget, and executes at most that many nodes.
   */
  lemma {:induction false} RunWithinPotential<S(!new)>(node: (S, Snapshot, World) -> NodeOut, next: (S, Snapshot) -> Next<S>,
                                                     final: S, pot: (S, Snapshot) -> nat,
                                                     st: S, s: Snapshot, w: World, budget: nat)
    requires Lowers(node, next, final, pot) && budget >= pot(st, s)
    ensures var e := Run(node, next, final, st, s, w, budget);
      e != OverBudget && (e.Ended? ==> e.steps <= pot(st, s)) && (e.Crashed? ==> e.steps <= pot(st, s))
    decreases budget
  {
    if st != final {
      var o := node(st, s, w);
      if o.raised.None? && next(st, o.state).Go? {
        var t := next(st, o.state).stage;
        assert pot(t, o.state) < pot(st, s);
        RunWithinPotential(node, next, final, pot, t, o.state, Advance(w, o.fx), budget - 1);
      }
    }
  }

  /**
   * From every stage other than END where `inv` holds, the node does not
   * raise, the router does not fail, and `inv` holds again at the next stage.
   */
  ghost predicate Closed<S(!new)>(node: (S, Snapshot, World) -> NodeOut, next: (S, Snapshot) -> Next<S>, final: S,
                                  inv: (S, Snapshot) -> bool)
  {
    forall st: S, s: Snapshot, w: World ::
      inv(st, s) && st != final ==>
        node(st, s, w).raised.None? && next(st, node(st, s, w).state).Go?
        && inv(next(st, node(st, s, w).state).stage, node(st, s, w).state)
  }

  /**
   * A run that starts where a closed invariant holds never raises, and when
   * it reaches END the invariant holds of the final state.
   */
  lemma {:induction false} RunStaysIn<S(!new)>(node: (S, Snapshot, World) -> NodeOut, next: (S, Snapshot) -> Next<S>,
                                               final: S, inv: (S, Snapshot) -> bool,
                                               st: S, s: Snapshot, w: World, budget: nat)
    requires Closed(node, next, final, inv) && inv(st, s)
    ensures var e := Run(node, next, final, st, s, w, budget);
      !e.Crashed? && (e.Ended? ==> inv(final, e.state))
    decreases budget
  {
    if st != final && budget > 0 {
      var o := node(st, s, w);
      RunStaysIn(node, next, final, inv, next(st, o.state).stage, o.state, Advance(w, o.fx), budget - 1);
    }
  }
}
