/**
  The payback-period bar of the results panel: the months shown are capped
  at twelve, the bar is that fraction of a year, and an infinite payback
  shows an empty bar labelled N/A.
*/
module Results {
  import opened Types
  import opened Calculator

  /** The text under the bar: the months (their one-decimal rendering is not modelled), or N/A. */
  datatype PaybackLabel = MonthsLabel(months: real) | NotAvailable

  datatype PaybackBar = PaybackBar(displayMonths: real, percentage: real, width: real, caption: PaybackLabel)

  function Min(a: real, b: real): real {
    if a <= b then a else b
  }

  function PaybackVisual(months: Payback): (bar: PaybackBar)
    ensures bar.percentage <= 100.0 && bar.width <= 100.0
    ensures months.Finite? ==>
      && bar.displayMonths == Min(months.months, 12.0)
      && bar.width == bar.percentage == bar.displayMonths * 100.0 / 12.0
      && bar.caption == MonthsLabel(months.months)
    ensures months.Finite? && months.months >= 0.0 ==> bar.percentage >= 0.0
    ensures months.Finite? && months.months >= 12.0 ==> bar.width == 100.0
    ensures months.Infinite? ==> bar.width == 0.0 && bar.percentage == 0.0 && bar.caption == NotAvailable
  {
    var displayMonths := if months.Finite? then Min(months.months, 12.0) else 12.0;
    var percentage := if months.Finite? then (displayMonths / 12.0) * 100.0 else 0.0;
    var isInfinite := !months.Finite?;
    PaybackBar(
      displayMonths,
      percentage,
      if isInfinite then 0.0 else percentage,
      if isInfinite then NotAvailable else MonthsLabel(months.months))
  }

  /**
    For every calculator result the bar is between empty and full, and it is
    empty and labelled N/A exactly when the saving never pays back.
  */
  lemma CalculatedBarInRange(inputs: Inputs)
    ensures var r := CalculateRoi(IndustryOf(inputs), inputs);
      var bar := PaybackVisual(r.paybackMonths);
      && 0.0 <= bar.width <= 100.0
      && (bar.caption == NotAvailable <==> GrossMonthlySavings(inputs) <= MonthlyCost)
  {
    var gross := GrossMonthlySavings(inputs);
    if gross > MonthlyCost {
      assert MonthlyCost / (gross - MonthlyCost) > 0.0;
    }
  }
}
