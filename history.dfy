/** The "last 5 days" history: one row per day, newest first, summarising the
    day's plans by their net result under the zero-threshold rule. */
module History {
  import opened Outcome
  import opened Trade
  import opened Ledger

  /** Number of days shown, today included. */
  const WindowSize: nat := 5

  /** A day's summary: No Data when it has no plans, otherwise its net result and status. */
  datatype DaySummary = NoData | Traded(net: real, status: Outcome)

  datatype HistoryRow = HistoryRow(day: Day, summary: DaySummary)

  /** The days shown: today, then each day before it, down to four days ago. */
  function Window(today: Day): (r: seq<Day>)
    ensures |r| == WindowSize && r[0] == today
    ensures forall i :: 0 < i < |r| ==> r[i] == r[i - 1] - 1
    ensures forall i, j :: 0 <= i < j < |r| ==> r[i] > r[j]
  {
    seq(WindowSize, i requires 0 <= i => today - i)
  }

  /** The window holds exactly the days from four days ago to today. */
  lemma WindowCoversLastDays(today: Day, d: Day)
    ensures d in Window(today) <==> today - (WindowSize - 1) <= d <= today
  {
    if today - (WindowSize - 1) <= d <= today {
      assert Window(today)[today - d] == d;
    }
  }

  /** Sum of take-profit minus stop-loss over a day's plans, a missing value counting as 0. */
  function NetResult(trades: seq<TradeRecord>): (r: real)
    ensures trades == [] ==> r == 0.0
    ensures (forall k :: 0 <= k < |trades| ==> Delta(trades[k]) >= 0.0) ==> r >= 0.0
    ensures (forall k :: 0 <= k < |trades| ==> Delta(trades[k]) <= 0.0) ==> r <= 0.0
  {
    if trades == [] then 0.0 else Delta(trades[0]) + NetResult(trades[1..])
  }

  /** The history row content for one day's plans. */
  function Summarize(trades: seq<TradeRecord>): (r: DaySummary)
    ensures r.NoData? <==> trades == []
    ensures r.Traded? ==> r.net == NetResult(trades)
    ensures r.Traded? ==> (r.status == Win <==> r.net > 0.0)
    ensures r.Traded? ==> (r.status == Loss <==> r.net < 0.0)
    ensures r.Traded? ==> (r.status == Breakeven <==> r.net == 0.0)
  {
    if trades == [] then NoData
    else
      var net := NetResult(trades);
      Traded(net, SignStatus(net))
  }

  /** The whole history section for `today`. */
  function History(ledger: Ledger, today: Day): (r: seq<HistoryRow>)
    ensures |r| == WindowSize
    ensures forall i :: 0 <= i < |r| ==> r[i].day == today - i
    ensures forall i :: 0 <= i < |r| ==> r[i].summary == Summarize(Plans(ledger, r[i].day))
  {
    var days := Window(today);
    seq(WindowSize, i requires 0 <= i < WindowSize => HistoryRow(days[i], Summarize(Plans(ledger, days[i]))))
  }

  /** A day shows No Data exactly when it is missing from the ledger or has no plans listed. */
  lemma NoDataIffNoPlans(ledger: Ledger, today: Day, i: nat)
    requires i < WindowSize
    ensures History(ledger, today)[i].summary == NoData
        <==> (today - i !in ledger || ledger[today - i].trades in {None, Some([])})
  {
  }

  /** Saving a plan adds exactly the plan's take-profit minus stop-loss to its day's net result. */
  lemma {:induction false} NetResultAppend(trades: seq<TradeRecord>, t: TradeRecord)
    ensures NetResult(trades + [t]) == NetResult(trades) + Delta(t)
  {
    if trades == [] {
      assert [] + [t] == [t];
    } else {
      assert (trades + [t])[1..] == trades[1..] + [t];
      NetResultAppend(trades[1..], t);
    }
  }

  /** After a successful save the saved day's history row reports the new plan
      (net grown by its delta) and every other row of the window is unchanged. */
  lemma SaveUpdatesHistory(ledger: Ledger, day: Day, t: TradeRecord, today: Day, i: nat)
    requires i < WindowSize
    requires WithTrade(ledger, day, t).Some?
    ensures var before := History(ledger, today)[i];
      var after := History(WithTrade(ledger, day, t).value, today)[i];
      && (today - i != day ==> after == before)
      && (today - i == day ==>
            after.summary.Traded? && after.summary.net == NetResult(Plans(ledger, day)) + Delta(t))
  {
    NetResultAppend(Plans(ledger, day), t);
  }

  /** A day whose plans are all individual Wins is a winning day: its net
      result exceeds the margin once per plan. */
  lemma {:induction false} AllWinsMakeWinningDay(trades: seq<TradeRecord>)
    requires forall k :: 0 <= k < |trades| ==> DisplayedOutcome(trades[k]) == Win
    ensures NetResult(trades) >= Margin * |trades| as real
    ensures trades != [] ==> Summarize(trades).status == Win
  {
    if trades != [] {
      AllWinsMakeWinningDay(trades[1..]);
    }
  }

  /** A day whose plans are all individual Losses is a losing day. */
  lemma {:induction false} AllLossesMakeLosingDay(trades: seq<TradeRecord>)
    requires forall k :: 0 <= k < |trades| ==> DisplayedOutcome(trades[k]) == Loss
    ensures NetResult(trades) <= -Margin * |trades| as real
    ensures trades != [] ==> Summarize(trades).status == Loss
  {
    if trades != [] {
      AllLossesMakeLosingDay(trades[1..]);
    }
  }

  /** A day of individual Breakevens has a net result within the margin per plan,
      though its status can still be a Win or a Loss. */
  lemma {:induction false} AllBreakevensStayNearZero(trades: seq<TradeRecord>)
    requires forall k :: 0 <= k < |trades| ==> DisplayedOutcome(trades[k]) == Breakeven
    ensures -Margin * |trades| as real <= NetResult(trades) <= Margin * |trades| as real
  {
    if trades != [] {
      AllBreakevensStayNearZero(trades[1..]);
    }
  }

  /** One Win (20 against 5) and one Loss (5 against 20) on the same day net to
      zero: the day is Breakeven although neither plan is. */
  lemma WinAndLossNetToBreakeven()
    ensures var win := NewTrade("", Buy, 20.0, 5.0, "");
      var loss := NewTrade("", Sell, 5.0, 20.0, "");
      && win.result == Win && loss.result == Loss
      && Summarize([win, loss]) == Traded(0.0, Breakeven)
  {
  }
}
