# Forex trading planner — verified model of the journal logic

The planner is a one-page Streamlit script (`app.py`). A user saves trade plans for
the current day: a name, a direction, a take-profit (TP), a stop-loss (SL) and a note.
The script keeps them in a JSON journal that maps each date to that day's `trades`
list. It shows each plan with an outcome and ends with a five-day history of daily net
results. This project models the business logic that sits inline in that script:

- `outcome.dfy`, module `Outcome`. It has the per-trade classifier. A plan is a Win when
  `tp - sl > 10`, a Loss when `sl - tp > 10`, and Breakeven otherwise. It also has the
  zero-threshold day status: the sign of the net result.
- `trade.dfy`, module `Trade`. It has the stored trade record. A missing `tp` or `sl`
  reads as 0. Its two users of the classifier are the card display, which recomputes the
  outcome from the stored TP/SL, and the save action, which stores the outcome in the
  record. Both call one function, and `NewTrade` proves that they agree.
- `ledger.dfy`, module `Ledger`. It has the date-to-entry map and the lookup that
  defaults to no plans. `WithTrade` is the append-only save. The class `Journal` holds
  the in-memory dictionary and the backing file's content. `AddPlan` updates both in
  place, as the save button does.
- `history.dfy`, module `History`. It has the five-day window (today first, then one day
  earlier each step), the net result `Σ(tp − sl)`, the No Data / net-and-status summary
  of each day, and lemmas that relate the history to saving and to the per-trade rule.

A date is an integer day number, so "one day earlier" is `d - 1`. TP and SL are exact
`real` numbers.

A day's entry in the journal file is an object holding a `trades` list. The code reads
`data.get(date, {}).get('trades', [])`, so a hand-edited entry can lack the list. Saving
on such an entry raises `KeyError` at line 175 before anything is written. `DayEntry.trades`
is therefore an `Option`, and `WithTrade`/`AddPlan` return None and leave the ledger and
the file unchanged in that case.

## Model

| member | source | states |
|---|---|---|
| Outcome.Classify | app.py:104-112 | Win iff tp − sl > 10, Loss iff sl − tp > 10, Breakeven iff the difference is within ±10. The three cases are exclusive. |
| Outcome.SignStatus | app.py:194 | Day status is Win iff net > 0, Loss iff net < 0, Breakeven iff net = 0. |
| Outcome.RulesDiffer | app.py:193-194 | For every difference d with 0 < d ≤ 10, a plan with tp − sl = d (or sl − tp = d) is Breakeven, while a day netting d (or −d) is a Win (or a Loss): the two rules are distinct. |
| Trade.DisplayedOutcome | app.py:99-112 | The card's outcome is Win iff the stored tp − sl exceeds 10, Loss iff sl − tp does. A missing field reads as 0 (the helpers `Trade.TakeProfit`, `Trade.StopLoss` and `Trade.Delta` model `trade.get('tp', 0)` and `trade.get('sl', 0)`), so a record with neither field shows Breakeven. |
| Trade.NewTrade | app.py:156-170 | The saved record carries the form's name, direction and note, and always both the `tp` and `sl` fields with the form's values. Its stored result is the per-trade classification of those values and equals the outcome the card recomputes from the record. |
| Ledger.Plans | app.py:83 | A day's plans are its stored list. The lookup is empty exactly when the day is absent, has no list, or has an empty list. |
| Ledger.WithTrade | app.py:172-175 | Saving fails exactly on a present entry with no list. Otherwise the day's plans become the old plans followed by the new one, the day becomes a key, and every other entry is unchanged. |
| Ledger.SaveAppendsAtEnd | app.py:175 | After a save the day's list is one longer, its last element is the new plan, and the earlier plans are unchanged and in order. |
| Ledger.SaveOnNewDay | app.py:172-175 | Saving on an absent day creates an entry whose list is exactly the new plan. |
| Ledger.SaveLeavesOtherDays | app.py:172-175 | Saving leaves the plans of every other day unchanged. |
| Ledger.AbsentAndEmptyReadAlike | app.py:188-189 | An absent day and a day with an empty list both read as no plans. |
| Ledger.Journal.Open | app.py:7-13 | A missing file loads as the empty ledger. Otherwise the file's ledger is loaded. |
| Ledger.Journal.AddPlan | app.py:154-176 | The save action. It builds the classified record, appends it to the day, and writes the whole ledger to the file. On the failing entry it changes nothing. |
| History.Window | app.py:185 | Exactly 5 days. The first is today, each next one is one day earlier, and they are strictly descending, hence distinct. |
| History.WindowCoversLastDays | app.py:185 | The window holds exactly the days from today − 4 to today. |
| History.Summarize | app.py:191-194 | No Data iff the day has no plans. Otherwise the net is Σ(tp − sl) and the status is Win/Loss/Breakeven iff net >, <, = 0. |
| History.History | app.py:185-194 | One row per window day, newest first. Each row is the summary of that day's plans read with the empty default. |
| History.NoDataIffNoPlans | app.py:187-191 | A history row shows No Data exactly when its day is absent, has no list, or has an empty list. |
| History.NetResult | app.py:193 | The net result of a day is Σ(tp − sl) with missing fields as 0: an empty list sums to 0, a day where no plan has sl above tp nets ≥ 0, and a day where no plan has tp above sl nets ≤ 0. |
| History.NetResultAppend | app.py:193 | Appending a plan adds exactly its tp − sl to the net result. |
| History.SaveUpdatesHistory | app.py:172-194 | After a save, the saved day's row shows data with its net grown by the new plan's tp − sl. Every other row is unchanged. |
| History.AllWinsMakeWinningDay | app.py:193-194 | If every plan of a day is a Win, the net is at least 10 per plan and a non-empty day is a Win. |
| History.AllLossesMakeLosingDay | app.py:193-194 | If every plan of a day is a Loss, the net is at most −10 per plan and a non-empty day is a Loss. |
| History.AllBreakevensStayNearZero | app.py:193-194 | If every plan is Breakeven, the net lies within ±10 per plan. |
| History.WinAndLossNetToBreakeven | app.py:193-194 | Plans (20, 5) and (5, 20) are a Win and a Loss, yet the day nets 0 and is Breakeven. |

## Left out

- Page rendering: Streamlit widgets, CSS, HTML cards, the colours, the "Unnamed Plan" and "No notes provided" labels, and the Buy/Sell icon. These are presentation only.
- JSON encoding and decoding in `load_data`/`save_data`. The file is modelled as an optional ledger value (None = missing file). A malformed file, a parse error and the pretty-printed format are not modelled.
- Calendar arithmetic and `strftime`. Days are integer day numbers, and ISO date strings are not modelled.
- Floating point. TP and SL come from float inputs and the history prints `:.2f`. The model uses exact reals, so rounding in comparisons, sums and display is not captured.
- Record fields other than TP and SL are always present in the model. A hand-edited record that lacks `name`, `direction`, `note` or `result`, or that has a non-numeric TP/SL or an unknown direction string, is not modelled.
- The "today only" card list (lines 72, 81) has a single date. The model exposes the lookup for any day rather than the loop.
- Concurrent page runs writing the same file (last writer wins) are not modelled.
