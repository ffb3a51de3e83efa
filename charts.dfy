/**
  The data series behind the two charts: monthly savings against the software
  cost, and the cumulative net saving over the first twelve months.
*/
module Charts {
  import opened Text
  import opened Types
  import opened Calculator

  /** The single bar-chart row. */
  datatype ComparisonRow = ComparisonRow(name: string, monthlySavings: real, softwareCost: real)

  function SavingsData(r: RoiResult): (rows: seq<ComparisonRow>)
    ensures |rows| == 1
    ensures rows[0].monthlySavings == r.monthlySavings && rows[0].softwareCost == MonthlyCost
  {
    [ComparisonRow("Comparison", r.monthlySavings, MonthlyCost)]
  }

  /** One point of the area chart. */
  datatype ChartPoint = ChartPoint(name: string, cumulativeNetSavings: real)

  /** The saving after `month` months: zero unless the reported saving beats the software cost. */
  function CumulativeNetSavings(r: RoiResult, month: nat): real {
    var net := r.monthlySavings - MonthlyCost;
    if net > 0.0 then net * month as real else 0.0
  }

  /** Twelve points, `M1` to `M12`, one per month. */
  function PaybackData(r: RoiResult): (points: seq<ChartPoint>)
    ensures |points| == 12
    ensures forall k :: 0 <= k < 12 ==>
      points[k] == ChartPoint("M" + NatToString(k + 1), CumulativeNetSavings(r, k + 1))
  {
    seq(12, k requires 0 <= k < 12 => ChartPoint("M" + NatToString(k + 1), CumulativeNetSavings(r, k + 1)))
  }

  /** The points carry twelve distinct month names. */
  lemma MonthNamesDistinct(r: RoiResult, j: nat, k: nat)
    requires j < k < 12
    ensures PaybackData(r)[j].name != PaybackData(r)[k].name
  {
    var points := PaybackData(r);
    if points[j].name == points[k].name {
      assert NatToString(j + 1) == points[j].name[1..];
      assert NatToString(k + 1) == points[k].name[1..];
      NatToStringInjective(j + 1, k + 1);
    }
  }

  /** The cumulative series is non-negative and never decreases. */
  lemma SeriesNonNegativeAndNonDecreasing(r: RoiResult, j: nat, k: nat)
    requires j <= k < 12
    ensures 0.0 <= PaybackData(r)[j].cumulativeNetSavings <= PaybackData(r)[k].cumulativeNetSavings
  {
    CumulativeNonDecreasing(r, j + 1, k + 1);
  }

  lemma CumulativeNonDecreasing(r: RoiResult, m: nat, n: nat)
    requires m <= n
    ensures 0.0 <= CumulativeNetSavings(r, m) <= CumulativeNetSavings(r, n)
  {
    var net := r.monthlySavings - MonthlyCost;
    if net > 0.0 {
      assert net * n as real - net * m as real == net * (n - m) as real;
    }
  }

  /**
    For a calculator result the twelfth point equals the reported annual
    saving, whichever side of the software cost the gross saving falls.
  */
  lemma TwelfthMonthIsAnnualSavings(inputs: Inputs)
    ensures var r := CalculateRoi(IndustryOf(inputs), inputs);
      PaybackData(r)[11].cumulativeNetSavings == r.annualSavings
  {
    var r := CalculateRoi(IndustryOf(inputs), inputs);
    var gross := GrossMonthlySavings(inputs);
    if gross < 0.0 {
      assert r.monthlySavings == 0.0;
    }
  }
}
