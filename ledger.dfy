/** The daily ledger: a map from a day to that day's entry, whose "trades"
    list holds the plans saved for the day in the order they were saved. */
module Ledger {
  import opened Trade

  /** A calendar day, as a day number: the day before `d` is `d - 1`. */
  type Day = int

  /** A day's entry in the file. `trades` is None when the entry has no
      "trades" list at all, which only a hand-edited file can produce. */
  datatype DayEntry = DayEntry(trades: Option<seq<TradeRecord>>)

  type Ledger = map<Day, DayEntry>

  /** The plans of a day, as the card and the history read them: a missing
      day and a missing "trades" list both read as no plans. */
  function Plans(ledger: Ledger, day: Day): (r: seq<TradeRecord>)
    ensures day in ledger && ledger[day].trades.Some? ==> r == ledger[day].trades.value
    ensures r == [] <==> day !in ledger || ledger[day].trades in {None, Some([])}
  {
    if day in ledger then
      match ledger[day].trades
      case Some(ts) => ts
      case None => []
    else []
  }

  /** The ledger after saving plan `t` on `day`: the day's entry is created
      with an empty list when it is missing, and `t` is appended to its list.
      None when the day's entry exists without a "trades" list, where the save
      fails and nothing is written. */
  function WithTrade(ledger: Ledger, day: Day, t: TradeRecord): (r: Option<Ledger>)
    ensures r.None? <==> day in ledger && ledger[day].trades.None?
    ensures r.Some? ==> r.value.Keys == ledger.Keys + {day}
    ensures r.Some? ==> Plans(r.value, day) == Plans(ledger, day) + [t]
    ensures r.Some? ==> forall d :: d in ledger && d != day ==> r.value[d] == ledger[d]
  {
    var entry := if day in ledger then ledger[day] else DayEntry(Some([]));
    match entry.trades
    case None => None
    case Some(ts) => Some(ledger[day := DayEntry(Some(ts + [t]))])
  }

  /** Saving on a day that already has plans puts the new plan last and keeps
      the earlier plans, in order. */
  lemma SaveAppendsAtEnd(ledger: Ledger, day: Day, t: TradeRecord)
    requires WithTrade(ledger, day, t).Some?
    ensures var after := Plans(WithTrade(ledger, day, t).value, day);
      && |after| == |Plans(ledger, day)| + 1
      && after[|after| - 1] == t
      && after[..|after| - 1] == Plans(ledger, day)
  {
  }

  /** Saving on a day absent from the ledger creates an entry holding exactly the new plan. */
  lemma SaveOnNewDay(ledger: Ledger, day: Day, t: TradeRecord)
    requires day !in ledger
    ensures WithTrade(ledger, day, t) == Some(ledger[day := DayEntry(Some([t]))])
  {
    assert [] + [t] == [t];
  }

  /** Saving never changes what any other day reads as. */
  lemma SaveLeavesOtherDays(ledger: Ledger, day: Day, t: TradeRecord, other: Day)
    requires WithTrade(ledger, day, t).Some? && other != day
    ensures Plans(WithTrade(ledger, day, t).value, other) == Plans(ledger, other)
  {
  }

  /** A missing day and a day whose list is empty read the same. */
  lemma AbsentAndEmptyReadAlike(ledger: Ledger, day: Day)
    ensures Plans(ledger - {day}, day) == Plans(ledger[day := DayEntry(Some([]))], day) == []
  {
  }

  /** The journal as one run of the page holds it: the in-memory dictionary
      and the content of the backing file (None while the file does not exist). */
  class Journal {
    var data: Ledger
    var file: Option<Ledger>

    /** Loading: a missing file yields an empty ledger. */
    constructor Open(stored: Option<Ledger>)
      ensures file == stored
      ensures stored.None? ==> data == map[]
      ensures stored.Some? ==> data == stored.value
    {
      file := stored;
      data := match stored case Some(l) => l case None => map[];
    }

    /** The save action: build the record, append it to the day's list and
      overwrite the file with the whole ledger. On a day entry without a
      "trades" list the save fails before anything changes. */
    method AddPlan(day: Day, name: string, direction: Direction, tp: real, sl: real, note: string)
      returns (saved: Option<TradeRecord>)
      modifies this
      ensures var t := NewTrade(name, direction, tp, sl, note);
        match WithTrade(old(data), day, t)
        case Some(l) => saved == Some(t) && data == l && file == Some(l)
        case None => saved == None && data == old(data) && file == old(file)
      ensures saved.Some? ==> Plans(data, day) == old(Plans(data, day)) + [saved.value]
      ensures saved.Some? ==> saved.value.result == DisplayedOutcome(saved.value)
    {
      var t := NewTrade(name, direction, tp, sl, note);
      if day !in data {
        data := data[day := DayEntry(Some([]))];
      }
      match data[day].trades {
        case None =>
          saved := None;
        case Some(ts) =>
          data := data[day := DayEntry(Some(ts + [t]))];
          file := Some(data);
          saved := Some(t);
      }
    }
  }
}
