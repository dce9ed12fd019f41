/**
 * The agent metrics (composables/useAgentMetrics.ts): three counters, each
 * incremented on its own, all reset together.
 */
module AgentMetrics {

  datatype Metrics = Metrics(total: nat, successes: nat, totalReflections: nat)

  const ZeroMetrics: Metrics := Metrics(0, 0, 0)

  /** The four operations on the counters. */
  datatype MetricsOp = IncrementTotal | IncrementSuccesses | IncrementReflections | ResetMetrics

  /** One operation: an increment raises its own counter by one and leaves the other two; a reset zeroes all. */
  function Step(m: Metrics, op: MetricsOp): (r: Metrics)
    ensures op == ResetMetrics ==> r == ZeroMetrics
    ensures op == IncrementTotal ==>
              r.total == m.total + 1 && r.successes == m.successes && r.totalReflections == m.totalReflections
    ensures op == IncrementSuccesses ==>
              r.total == m.total && r.successes == m.successes + 1 && r.totalReflections == m.totalReflections
    ensures op == IncrementReflections ==>
              r.total == m.total && r.successes == m.successes && r.totalReflections == m.totalReflections + 1
  {
    match op
    case IncrementTotal => m.(total := m.total + 1)
    case IncrementSuccesses => m.(successes := m.successes + 1)
    case IncrementReflections => m.(totalReflections := m.totalReflections + 1)
    case ResetMetrics => ZeroMetrics
  }

  /** The counters after the operations `ops`, applied in order from `m`. */
  function Run(m: Metrics, ops: seq<MetricsOp>): Metrics
    decreases |ops|
  {
    if ops == [] then m else Run(Step(m, ops[0]), ops[1..])
  }

  /** How many times `op` occurs in `ops`. */
  function Occurrences(ops: seq<MetricsOp>, op: MetricsOp): nat
  {
    if ops == [] then 0 else (if ops[0] == op then 1 else 0) + Occurrences(ops[1..], op)
  }

  /** Without a reset, each counter grows by exactly the number of its increments. */
  lemma {:induction false} RunCounts(m: Metrics, ops: seq<MetricsOp>)
    requires ResetMetrics !in ops
    decreases |ops|
    ensures Run(m, ops) == Metrics(m.total + Occurrences(ops, IncrementTotal),
                                   m.successes + Occurrences(ops, IncrementSuccesses),
                                   m.totalReflections + Occurrences(ops, IncrementReflections))
  {
    if ops != [] {
      assert ops[0] in ops;
      RunCounts(Step(m, ops[0]), ops[1..]);
    }
  }

  /** Between resets no counter decreases. */
  lemma RunMonotone(m: Metrics, ops: seq<MetricsOp>)
    requires ResetMetrics !in ops
    ensures var r := Run(m, ops);
            r.total >= m.total && r.successes >= m.successes && r.totalReflections >= m.totalReflections
  {
    RunCounts(m, ops);
  }

  /** Only the operations after the last reset matter: they run from zero. */
  lemma {:induction false} RunFromLastReset(m: Metrics, ops: seq<MetricsOp>, k: nat)
    requires k < |ops| && ops[k] == ResetMetrics && ResetMetrics !in ops[k + 1..]
    ensures Run(m, ops) == Run(ZeroMetrics, ops[k + 1..])
    decreases k
  {
    if k == 0 {
      assert Step(m, ops[0]) == ZeroMetrics;
    } else {
      assert ops[1..][k - 1..] == ops[k..];
      assert ops[1..][k..] == ops[k + 1..];
      RunFromLastReset(Step(m, ops[0]), ops[1..], k - 1);
    }
  }

  class AgentMetrics {
    var metrics: Metrics

    constructor()
      ensures metrics == ZeroMetrics
    {
      metrics := ZeroMetrics;
    }

    method IncrementTotal()
      modifies this
      ensures metrics == Step(old(metrics), MetricsOp.IncrementTotal)
    {
      metrics := metrics.(total := metrics.total + 1);
    }

    method IncrementSuccesses()
      modifies this
      ensures metrics == Step(old(metrics), MetricsOp.IncrementSuccesses)
    {
      metrics := metrics.(successes := metrics.successes + 1);
    }

    method IncrementReflections()
      modifies this
      ensures metrics == Step(old(metrics), MetricsOp.IncrementReflections)
    {
      metrics := metrics.(totalReflections := metrics.totalReflections + 1);
    }

    method ResetMetrics()
      modifies this
      ensures metrics == Step(old(metrics), MetricsOp.ResetMetrics)
    {
      metrics := ZeroMetrics;
    }
  }
}
