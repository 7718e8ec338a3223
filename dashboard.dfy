/** The performance dashboard: statistics recomputed from the whole ledger each time
    it is shown. */
module Dashboard {
  import opened Trades

  datatype Option<T> = None | Some(value: T)

  /** What the dashboard shows for a non-empty ledger. */
  datatype Stats = Stats(total: int, wins: nat, losses: nat, equity: seq<int>)

  predicate IsWin(row: TradeRow) { row.todayPl > 0 }

  /** A trade that made nothing is counted with the losing ones. */
  predicate IsLoss(row: TradeRow) { row.todayPl <= 0 }

  /** Sum of the P/L column. */
  function Total(rows: seq<TradeRow>): int
  {
    if rows == [] then 0 else Total(rows[..|rows| - 1]) + rows[|rows| - 1].todayPl
  }

  /** Number of rows with a positive P/L. */
  function Wins(rows: seq<TradeRow>): nat
  {
    if rows == [] then 0
    else Wins(rows[..|rows| - 1]) + (if IsWin(rows[|rows| - 1]) then 1 else 0)
  }

  /** Number of rows with a P/L of zero or less. */
  function Losses(rows: seq<TradeRow>): nat
  {
    if rows == [] then 0
    else Losses(rows[..|rows| - 1]) + (if IsLoss(rows[|rows| - 1]) then 1 else 0)
  }

  /** Running sum of the P/L column, front to back, starting from `start`. */
  function CumSum(rows: seq<TradeRow>, start: int): (curve: seq<int>)
    ensures |curve| == |rows|
  {
    if rows == [] then []
    else [start + rows[0].todayPl] + CumSum(rows[1..], start + rows[0].todayPl)
  }

  /** The equity curve: the cumulative P/L after each trade, in ledger order. */
  function EquityCurve(rows: seq<TradeRow>): (curve: seq<int>)
    ensures |curve| == |rows|
  {
    CumSum(rows, 0)
  }

  /** The dashboard's statistics; an empty ledger has none. */
  function Summarize(rows: seq<TradeRow>): (s: Option<Stats>)
    ensures s.None? <==> rows == []
    ensures s.Some? ==> s.value.total == Total(rows)
    ensures s.Some? ==> s.value.wins + s.value.losses == |rows|
    ensures s.Some? ==> |s.value.equity| == |rows| && s.value.equity[|rows| - 1] == s.value.total
  {
    if rows == [] then None
    else
      WinsPlusLosses(rows);
      EquityLast(rows);
      Some(Stats(Total(rows), Wins(rows), Losses(rows), EquityCurve(rows)))
  }

  /** Indices of the winning rows. */
  function WinIndices(rows: seq<TradeRow>): set<nat>
  {
    set i: nat | i < |rows| && IsWin(rows[i])
  }

  /** Indices of the losing rows. */
  function LossIndices(rows: seq<TradeRow>): set<nat>
  {
    set i: nat | i < |rows| && IsLoss(rows[i])
  }

  lemma {:induction false} TotalCons(row: TradeRow, rows: seq<TradeRow>)
    ensures Total([row] + rows) == row.todayPl + Total(rows)
    decreases |rows|
  {
    if rows != [] {
      var n := |rows| - 1;
      assert ([row] + rows)[..n + 1] == [row] + rows[..n];
      TotalCons(row, rows[..n]);
    } else {
      assert [row] + rows == [row];
      assert [row][..0] == [];
    }
  }

  /** Appending one row adds its P/L to the total. */
  lemma TotalSnoc(rows: seq<TradeRow>, row: TradeRow)
    ensures Total(rows + [row]) == Total(rows) + row.todayPl
  {
    assert (rows + [row])[..|rows|] == rows;
  }

  /** Each row is counted exactly once, either as a win or as a loss. */
  lemma {:induction false} WinsPlusLosses(rows: seq<TradeRow>)
    ensures Wins(rows) + Losses(rows) == |rows|
  {
    if rows != [] {
      WinsPlusLosses(rows[..|rows| - 1]);
    }
  }

  /** The win count is the number of rows whose P/L is positive. */
  lemma {:induction false} WinsCountsWinningRows(rows: seq<TradeRow>)
    ensures Wins(rows) == |WinIndices(rows)|
  {
    if rows == [] {
      assert WinIndices(rows) == {};
    } else {
      var n := |rows| - 1;
      var init := rows[..n];
      WinsCountsWinningRows(init);
      assert n !in WinIndices(init);
      assert WinIndices(rows) == WinIndices(init) + (if IsWin(rows[n]) then {n} else {});
    }
  }

  /** The loss count is the number of rows whose P/L is zero or negative. */
  lemma {:induction false} LossesCountsLosingRows(rows: seq<TradeRow>)
    ensures Losses(rows) == |LossIndices(rows)|
  {
    if rows == [] {
      assert LossIndices(rows) == {};
    } else {
      var n := |rows| - 1;
      var init := rows[..n];
      LossesCountsLosingRows(init);
      assert n !in LossIndices(init);
      assert LossIndices(rows) == LossIndices(init) + (if IsLoss(rows[n]) then {n} else {});
    }
  }

  /** Point `i` of a running sum from `start` is `start` plus the P/L of rows 0..i. */
  lemma {:induction false} CumSumAt(rows: seq<TradeRow>, start: int, i: nat)
    requires i < |rows|
    ensures CumSum(rows, start)[i] == start + Total(rows[..i + 1])
  {
    if i == 0 {
      TotalCons(rows[0], []);
      assert rows[..1] == [rows[0]] + [];
    } else {
      CumSumAt(rows[1..], start + rows[0].todayPl, i - 1);
      assert rows[..i + 1] == [rows[0]] + rows[1..][..i];
      TotalCons(rows[0], rows[1..][..i]);
    }
  }

  /** Point `i` of the equity curve is the total P/L of rows 0..i. */
  lemma EquityAt(rows: seq<TradeRow>, i: nat)
    requires i < |rows|
    ensures EquityCurve(rows)[i] == Total(rows[..i + 1])
  {
    CumSumAt(rows, 0, i);
  }

  /** The equity curve ends at the total P/L. */
  lemma EquityLast(rows: seq<TradeRow>)
    requires rows != []
    ensures EquityCurve(rows)[|rows| - 1] == Total(rows)
  {
    EquityAt(rows, |rows| - 1);
    assert rows[..|rows|] == rows;
  }

  /** Each point of the equity curve adds that trade's P/L to the point before it. */
  lemma EquityStep(rows: seq<TradeRow>, i: nat)
    requires 0 < i < |rows|
    ensures EquityCurve(rows)[i] == EquityCurve(rows)[i - 1] + rows[i].todayPl
  {
    EquityAt(rows, i);
    EquityAt(rows, i - 1);
    assert rows[..i + 1] == rows[..i] + [rows[i]];
    TotalSnoc(rows[..i], rows[i]);
  }

  /** Saving one more trade extends the equity curve by one point, the new total. */
  lemma EquitySnoc(rows: seq<TradeRow>, row: TradeRow)
    ensures EquityCurve(rows + [row]) == EquityCurve(rows) + [Total(rows) + row.todayPl]
  {
    var ext := rows + [row];
    forall i | 0 <= i < |ext|
      ensures EquityCurve(ext)[i] == (EquityCurve(rows) + [Total(rows) + row.todayPl])[i]
    {
      EquityAt(ext, i);
      if i < |rows| {
        EquityAt(rows, i);
        assert ext[..i + 1] == rows[..i + 1];
      } else {
        assert ext[..i + 1] == ext;
        TotalSnoc(rows, row);
      }
    }
  }

  predicate NonDecreasing(curve: seq<int>)
  {
    forall i :: 0 < i < |curve| ==> curve[i - 1] <= curve[i]
  }

  /** The equity curve never falls exactly when no trade after the first lost money
      (its first point is the first trade's own P/L, whatever its sign). */
  lemma EquityNonDecreasingIff(rows: seq<TradeRow>)
    ensures NonDecreasing(EquityCurve(rows)) <==> forall i :: 0 < i < |rows| ==> rows[i].todayPl >= 0
  {
    var curve := EquityCurve(rows);
    if NonDecreasing(curve) {
      forall i | 0 < i < |rows| ensures rows[i].todayPl >= 0 {
        EquityStep(rows, i);
        assert curve[i - 1] <= curve[i];
      }
    }
    if forall i :: 0 < i < |rows| ==> rows[i].todayPl >= 0 {
      forall i | 0 < i < |curve| ensures curve[i - 1] <= curve[i] {
        EquityStep(rows, i);
      }
    }
  }

  /** Statistics after one more trade is saved, in terms of those before it. */
  lemma SummarizeSnoc(rows: seq<TradeRow>, row: TradeRow)
    ensures Summarize(rows + [row]) == Some(Stats(
      Total(rows) + row.todayPl,
      Wins(rows) + (if IsWin(row) then 1 else 0),
      Losses(rows) + (if IsLoss(row) then 1 else 0),
      EquityCurve(rows) + [Total(rows) + row.todayPl]))
  {
    var ext := rows + [row];
    assert ext[..|rows|] == rows;
    EquitySnoc(rows, row);
  }

  /** A trade that broke even is shown as a losing trade. */
  lemma BreakEvenIsLoss(rows: seq<TradeRow>, row: TradeRow)
    requires row.todayPl == 0
    ensures Summarize(rows + [row]).value.losses == Losses(rows) + 1
    ensures Summarize(rows + [row]).value.wins == Wins(rows)
  {
    SummarizeSnoc(rows, row);
  }
}
