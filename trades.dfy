/** The values one screenshot analysis produces and the rows the trade ledger holds.
    Money amounts are integer cents and lot sizes integer hundredths of a lot: the
    dashboard only ever sees values rounded to two decimals when they were created. */
module Trades {

  /** What the screenshot analysis reports for one uploaded image. */
  datatype Detection = Detection(
    platform: string,
    symbol: string,
    lot: int,       // hundredths of a lot
    order: string,
    todayPl: int)   // cents

  /** One row of the trade ledger: a detection stamped with the day it was saved. */
  datatype TradeRow = TradeRow(
    date: string,   // day-month-year, as formatted when the trade was saved
    platform: string,
    symbol: string,
    lot: int,
    order: string,
    todayPl: int)

  const DarkLabel: string := "MT5 / Dark Trading App"
  const LightLabel: string := "Light Theme App"

  /** Mean pixel brightness below which a screenshot is taken for a dark-themed trading app. */
  const DarkThreshold: real := 100.0

  /** The platform guess from the screenshot's mean brightness. */
  function PlatformLabel(brightness: real): (name: string)
    ensures name == DarkLabel <==> brightness < DarkThreshold
    ensures name == LightLabel <==> brightness >= DarkThreshold
  {
    if brightness < DarkThreshold then DarkLabel else LightLabel
  }

  /** A screenshot at least as dark as one read as a dark-theme app is read the same way. */
  lemma DarkerStaysDark(darker: real, brighter: real)
    requires darker <= brighter
    requires PlatformLabel(brighter) == DarkLabel
    ensures PlatformLabel(darker) == DarkLabel
  {
  }

  /** The analysis of one screenshot. The image itself is reduced to its mean brightness,
      and the profit, lot, symbol and order it draws at random are passed in. */
  function SmartDetect(brightness: real, profit: int, lot: int, symbol: string, order: string): (d: Detection)
    ensures d.platform == DarkLabel <==> brightness < DarkThreshold
    ensures d.platform == LightLabel <==> brightness >= DarkThreshold
    ensures d.symbol == symbol && d.lot == lot && d.order == order && d.todayPl == profit
  {
    Detection(PlatformLabel(brightness), symbol, lot, order, profit)
  }

  /** The ledger row that saving `d` on day `date` creates. */
  function StampedRow(date: string, d: Detection): (row: TradeRow)
    ensures row.date == date
    ensures row.platform == d.platform && row.symbol == d.symbol && row.lot == d.lot
    ensures row.order == d.order && row.todayPl == d.todayPl
  {
    TradeRow(date, d.platform, d.symbol, d.lot, d.order, d.todayPl)
  }
}
