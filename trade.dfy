/** A single trade plan as stored in the journal file, and the two places
    where its outcome is computed: when it is saved and when it is shown. */
module Trade {
  import opened Outcome

  datatype Option<T> = None | Some(value: T)

  /** The direction chosen in the form; the empty choice is kept as Unset. */
  datatype Direction = Unset | Buy | Sell

  /** One stored plan. The numeric fields are optional because a record read
      back from the file may lack them; a missing value counts as 0. */
  datatype TradeRecord = TradeRecord(
    name: string,
    direction: Direction,
    tp: Option<real>,
    sl: Option<real>,
    result: Outcome,
    note: string)

  function OrZero(x: Option<real>): real {
    match x
    case Some(v) => v
    case None => 0.0
  }

  /** The take-profit as read at display and history time. */
  function TakeProfit(t: TradeRecord): real {
    OrZero(t.tp)
  }

  /** The stop-loss as read at display and history time. */
  function StopLoss(t: TradeRecord): real {
    OrZero(t.sl)
  }

  /** What one plan contributes to its day's net result. */
  function Delta(t: TradeRecord): real {
    TakeProfit(t) - StopLoss(t)
  }

  /** The outcome shown on a plan's card: recomputed from the stored
      take-profit and stop-loss, ignoring the stored result. */
  function DisplayedOutcome(t: TradeRecord): (r: Outcome)
    ensures r == Win <==> Delta(t) > Margin
    ensures r == Loss <==> -Delta(t) > Margin
    ensures t.tp == None && t.sl == None ==> r == Breakeven
  {
    Classify(TakeProfit(t), StopLoss(t))
  }

  /** The record built by the save action: the form's values plus the result
      computed with the same rule the card display uses. */
  function NewTrade(name: string, direction: Direction, tp: real, sl: real, note: string): (r: TradeRecord)
    ensures r.name == name && r.direction == direction && r.note == note
    ensures r.tp == Some(tp) && r.sl == Some(sl)
    ensures r.result == Classify(tp, sl)
    ensures r.result == DisplayedOutcome(r)
  {
    TradeRecord(name, direction, Some(tp), Some(sl), Classify(tp, sl), note)
  }
}
