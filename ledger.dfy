/** The trade ledger file: absent until the first save, then a table that every save
    rewrites with one more row at the end. */
module Ledger {
  import opened Trades
  import Dashboard

  class TradeLedger {
    /** Whether the ledger file exists yet. */
    var present: bool
    /** The rows of the ledger file, oldest first. */
    var rows: seq<TradeRow>

    ghost predicate Valid()
      reads this
    {
      !present ==> rows == []
    }

    /** Before the first save there is no ledger file. */
    constructor ()
      ensures Valid() && !present && rows == []
    {
      present := false;
      rows := [];
    }

    /** Saves one analysed trade: the ledger becomes the old rows followed by one row
        stamped with `date` (or that row alone when there was no ledger yet). */
    method Save(data: Detection, date: string)
      requires Valid()
      modifies this
      ensures Valid() && present
      ensures |rows| == |old(rows)| + 1
      ensures rows[..|old(rows)|] == old(rows)
      ensures rows[|rows| - 1] == StampedRow(date, data)
      ensures !old(present) ==> rows == [StampedRow(date, data)]
    {
      var row := StampedRow(date, data);
      if present {
        rows := rows + [row];
      } else {
        rows := [row];
      }
      present := true;
    }

    /** Reads the whole ledger; a missing ledger reads as an empty table. */
    method Load() returns (table: seq<TradeRow>)
      requires Valid()
      ensures table == rows
      ensures !present ==> table == []
    {
      if present {
        table := rows;
      } else {
        table := [];
      }
    }

    /** Loads the ledger and computes the dashboard's statistics, if there are any. */
    method ShowDashboard() returns (stats: Dashboard.Option<Dashboard.Stats>)
      requires Valid()
      ensures stats.None? <==> !present || rows == []
      ensures stats.Some? ==> stats.value.total == Dashboard.Total(rows)
      ensures stats.Some? ==> stats.value.wins == Dashboard.Wins(rows)
      ensures stats.Some? ==> stats.value.losses == Dashboard.Losses(rows)
      ensures stats.Some? ==> stats.value.equity == Dashboard.EquityCurve(rows)
    {
      var table := Load();
      stats := Dashboard.Summarize(table);
    }
  }

  /** Saving a trade leaves the earlier statistics extended by exactly that trade. */
  method SaveThenShow(ledger: TradeLedger, data: Detection, date: string)
    returns (before: Dashboard.Option<Dashboard.Stats>, after: Dashboard.Option<Dashboard.Stats>)
    requires ledger.Valid()
    modifies ledger
    ensures after.Some?
    ensures after.value.total == data.todayPl + (if before.Some? then before.value.total else 0)
    ensures after.value.wins == (if data.todayPl > 0 then 1 else 0) + (if before.Some? then before.value.wins else 0)
    ensures after.value.losses == (if data.todayPl <= 0 then 1 else 0) + (if before.Some? then before.value.losses else 0)
    ensures before.Some? ==> after.value.equity == before.value.equity + [after.value.total]
    ensures before.None? ==> after.value.equity == [data.todayPl]
  {
    before := ledger.ShowDashboard();
    ghost var old_rows := ledger.rows;
    ledger.Save(data, date);
    assert ledger.rows == old_rows + [StampedRow(date, data)];
    Dashboard.SummarizeSnoc(old_rows, StampedRow(date, data));
    after := ledger.ShowDashboard();
  }
}
