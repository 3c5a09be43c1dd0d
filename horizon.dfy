/**
 * The two bounds the dashboard puts on hour indices: the hour slider stops at
 * min(8, rows - 1), and the risk trend plots the first min(rows, 9) rows.
 */
module Horizon {

  /** `min(len(patient_data), 9)`: how many rows the trend plots. */
  function TrendRows(rows: nat): (k: nat)
    ensures k <= rows && k <= 9
    ensures k == rows || k == 9
  {
    if rows < 9 then rows else 9
  }

  /** `min(8, len(patient_data) - 1)`: the largest hour the slider offers. */
  function MaxHour(rows: nat): (m: int)
    ensures m < rows && m <= 8
    ensures rows >= 1 ==> 0 <= m
  {
    if 8 < rows - 1 then 8 else rows - 1
  }

  /**
   * The slider offers exactly the hours 0 .. min(rows, 9) - 1: every choice
   * indexes an existing row and a plotted point, and every plotted point can
   * be chosen.
   */
  lemma SelectableHoursArePlottedRows(rows: nat, hour: int)
    ensures 0 <= hour <= MaxHour(rows) <==> 0 <= hour < TrendRows(rows)
  {
  }
}
