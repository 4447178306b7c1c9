/** The two outcome rules of the trading planner: the per-trade rule with a
    fixed margin, and the zero-threshold rule used for a day's net result. */
module Outcome {

  /** The result label shown for a trade plan or for a whole day. */
  datatype Outcome = Win | Loss | Breakeven

  /** Minimum take-profit/stop-loss edge for a single plan to count as a Win or a Loss. */
  const Margin: real := 10.0

  /** Per-trade rule: a Win when the take-profit exceeds the stop-loss by more
      than the margin, a Loss in the mirror case, Breakeven within the margin. */
  function Classify(tp: real, sl: real): (r: Outcome)
    ensures r == Win <==> tp - sl > Margin
    ensures r == Loss <==> sl - tp > Margin
    ensures r == Breakeven <==> -Margin <= tp - sl <= Margin
  {
    if tp - sl > Margin then Win
    else if sl - tp > Margin then Loss
    else Breakeven
  }

  /** Day-level rule: the sign of the net result, with no margin. */
  function SignStatus(net: real): (r: Outcome)
    ensures r == Win <==> net > 0.0
    ensures r == Loss <==> net < 0.0
    ensures r == Breakeven <==> net == 0.0
  {
    if net > 0.0 then Win else if net < 0.0 then Loss else Breakeven
  }

  /** The two rules disagree: any non-zero difference inside the margin is a
      Breakeven plan, yet the same difference alone makes a winning or losing day. */
  lemma RulesDiffer(d: real)
    requires 0.0 < d <= Margin
    ensures Classify(d, 0.0) == Breakeven && SignStatus(d) == Win
    ensures Classify(0.0, d) == Breakeven && SignStatus(-d) == Loss
  {
  }
}
