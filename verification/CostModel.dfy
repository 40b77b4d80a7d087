/** The pressure half of `agentfork/bench/cost_model.py`. */
module CostModel {

  datatype Pattern = Sustained | Burst

  /** P, N, S, U, C of the source, in that order. */
  datatype PressureScenario = PressureScenario(
    prefixTokens: int, nChildren: int, suffixTokens: int, interleavedTokens: int, capacityTokens: int, pattern: Pattern)
  {
    /** `__post_init__` accepts the scenario. */
    predicate Valid() {
      && nChildren >= 1
      && prefixTokens >= 0 && suffixTokens >= 0
      && interleavedTokens >= 0
      && capacityTokens > 0
      && prefixTokens + suffixTokens != 0
      && prefixTokens + suffixTokens <= capacityTokens
    }

    /** Is unrelated traffic injected before child `i`? */
    predicate Gap(i: int) {
      interleavedTokens > 0 && (pattern == Sustained || i == 0)
    }
  }

  /** Accepted is exactly what has a child and whose parent and requests, not all empty, fit
      the capacity one at a time. */
  lemma ValidExactly(ps: PressureScenario)
    ensures ps.Valid() <==>
              && ps.nChildren > 0 && ps.interleavedTokens >= 0
              && 0 <= ps.prefixTokens <= ps.prefixTokens + ps.suffixTokens <= ps.capacityTokens
              && 0 < ps.prefixTokens + ps.suffixTokens
  {
  }

  function BreakEvenU(prefixTokens: int, capacityTokens: int): int {
    if capacityTokens - prefixTokens < 0 then 0 else capacityTokens - prefixTokens
  }

  function StockParentHits(ps: PressureScenario): int {
    var evicts := ps.interleavedTokens > BreakEvenU(ps.prefixTokens, ps.capacityTokens);
    if !evicts then ps.nChildren
    else if ps.pattern == Burst then ps.nChildren - 1
    else 0
  }

  datatype Prediction = Prediction(stockHits: int, misses: int, stockPrefill: int, pinnedHits: int, pinnedPrefill: int)

  function PressureModel(ps: PressureScenario): Prediction {
    var p, n, s := ps.prefixTokens, ps.nChildren, ps.suffixTokens;
    var hits := StockParentHits(ps);
    Prediction(hits, n - hits, p + n * s + (n - hits) * p, n, p + n * s)
  }
}
