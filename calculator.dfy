/**
  The ROI calculator: a closed-form gross monthly saving per industry, then a
  post-processing step shared by all industries that subtracts the monthly
  cost of the automation software and derives payback and annual ROI.
*/
module Calculator {
  import opened Wrappers
  import opened Types

  /** Assumed monthly price of the automation software. */
  const MonthlyCost: real := 499.0

  // Business assumptions of the per-industry formulas.
  const ConstructionTimeReduction: real := 0.8
  const LogisticsTimeReduction: real := 0.85
  const DsoImprovementDays: real := 5.0
  const DaysPerMonth: real := 30.0
  const CashflowValueShare: real := 0.01
  const WeeksPerMonth: real := 4.0
  const MissedCallCaptureRate: real := 0.5
  const FieldNoShowRecoveryRate: real := 0.75
  const VerificationTimeReduction: real := 0.9
  const DentalNoShowRecoveryRate: real := 0.8
  const ReconciliationTimeReduction: real := 0.7
  const BillableConversionRate: real := 0.5

  function Max(a: real, b: real): real {
    if a >= b then a else b
  }

  /** The wage per minute of work. */
  function MinuteRate(inputs: Inputs): real {
    inputs.base.avgHourlyWage / 60.0
  }

  /** The gross monthly saving of each industry, before the software cost. */
  function GrossMonthlySavings(inputs: Inputs): real {
    var minuteRate := MinuteRate(inputs);
    match inputs
    case ConstructionInputs(_, invoices, minutes) =>
      invoices * minutes * ConstructionTimeReduction * minuteRate
    case LogisticsInputs(_, invoices, minutes, invoiceValue) =>
      var timeSavedMinutes := invoices * minutes * LogisticsTimeReduction;
      var cashflowImprovement := (invoices * invoiceValue) / DaysPerMonth * DsoImprovementDays;
      timeSavedMinutes * minuteRate + cashflowImprovement * CashflowValueShare
    case FieldServicesInputs(_, missedCalls, jobValue, noShowRate, jobs) =>
      missedCalls * WeeksPerMonth * MissedCallCaptureRate * jobValue
      + jobs * (noShowRate / 100.0) * FieldNoShowRecoveryRate * jobValue
    case DentalInputs(_, patients, minutes, noShowRate, appointmentValue) =>
      patients * minutes * VerificationTimeReduction * minuteRate
      + patients * (noShowRate / 100.0) * DentalNoShowRecoveryRate * appointmentValue
    case AccountingInputs(_, clients, hours, billableRate) =>
      clients * hours * ReconciliationTimeReduction * BillableConversionRate * billableRate
  }

  /** The quantities of the industry's one-line key metric. */
  function KeyMetricOf(inputs: Inputs): KeyMetric {
    var minuteRate := MinuteRate(inputs);
    match inputs
    case ConstructionInputs(_, invoices, minutes) =>
      InvoicingHoursSaved(invoices * minutes * ConstructionTimeReduction / 60.0)
    case LogisticsInputs(_, invoices, minutes, invoiceValue) =>
      CashflowAndHours((invoices * invoiceValue) / DaysPerMonth * DsoImprovementDays,
                       invoices * minutes * LogisticsTimeReduction / 60.0)
    case FieldServicesInputs(_, _, _, _, _) =>
      CapturedAndRecoveredRevenue(GrossMonthlySavings(inputs))
    case DentalInputs(_, patients, minutes, noShowRate, appointmentValue) =>
      var verificationTimeSaved := patients * minutes * VerificationTimeReduction * minuteRate;
      RecoveredRevenueAndAdminHours(
        patients * (noShowRate / 100.0) * DentalNoShowRecoveryRate * appointmentValue,
        if minuteRate == 0.0 then None else Some(verificationTimeSaved / minuteRate / 60.0))
    case AccountingInputs(_, clients, hours, _) =>
      BillableHoursConverted(clients * hours * ReconciliationTimeReduction * BillableConversionRate)
  }

  /**
    The post-processing shared by all industries. Payback and ROI come from the
    net saving (gross minus the software cost); the reported monthly saving is
    the gross figure and both reported savings are clamped at zero.
  */
  function Summarise(gross: real, metric: KeyMetric): (r: RoiResult)
    ensures r.monthlySavings == Max(0.0, gross) && r.monthlySavings >= 0.0
    ensures r.annualSavings == Max(0.0, (gross - MonthlyCost) * 12.0) && r.annualSavings >= 0.0
    ensures r.paybackMonths.Infinite? <==> gross <= MonthlyCost
    ensures r.paybackMonths.Finite? ==> r.paybackMonths.months == MonthlyCost / (gross - MonthlyCost)
    ensures r.annualROI == (if gross > MonthlyCost then (gross - MonthlyCost) * 100.0 / MonthlyCost else 0.0)
    ensures r.keyMetric == metric
  {
    var net := gross - MonthlyCost;
    var annualSavings := net * 12.0;
    var paybackMonths := if net > 0.0 then Finite(MonthlyCost / net) else Infinite;
    var annualROI := if net > 0.0 then (annualSavings / (MonthlyCost * 12.0)) * 100.0 else 0.0;
    RoiResult(Max(0.0, gross), Max(0.0, annualSavings), paybackMonths, annualROI, metric)
  }

  /**
    `calculateRoi` for an industry and the record of that industry; the caller
    keeps the two in step.
  */
  function CalculateRoi(industry: Industry, inputs: Inputs): (r: RoiResult)
    requires IndustryOf(inputs) == industry
    ensures r.monthlySavings == Max(0.0, GrossMonthlySavings(inputs))
    ensures r.paybackMonths.Infinite? <==> GrossMonthlySavings(inputs) <= MonthlyCost
    ensures r.keyMetric.NoMetric? == false
  {
    Summarise(GrossMonthlySavings(inputs), KeyMetricOf(inputs))
  }

  /** The fallback result of the `default` arm: every number zero, payback zero (not infinite), no metric. */
  const FallbackResult: RoiResult := RoiResult(0.0, 0.0, Finite(0.0), 0.0, NoMetric)

  /**
    `calculateRoi` called with the industry as its runtime label: an unknown
    label reaches the `default` arm.
  */
  function CalculateRoiForLabel(tag: string, inputs: Inputs): (r: RoiResult)
    requires FromLabel(tag).Some? ==> IndustryOf(inputs) == FromLabel(tag).value
    ensures FromLabel(tag).None? <==> r == FallbackResult
  {
    match FromLabel(tag)
    case None => FallbackResult
    case Some(industry) => CalculateRoi(industry, inputs)
  }

  /** The fallback arm is unreachable for the five industries. */
  lemma FallbackUnreachable(inputs: Inputs)
    ensures CalculateRoiForLabel(Label(IndustryOf(inputs)), inputs) == CalculateRoi(IndustryOf(inputs), inputs)
    ensures CalculateRoiForLabel(Label(IndustryOf(inputs)), inputs) != FallbackResult
  {
    FromLabelOfLabel(IndustryOf(inputs));
  }

  /** The reported savings are never negative. */
  lemma ReportedSavingsNonNegative(inputs: Inputs)
    ensures var r := CalculateRoi(IndustryOf(inputs), inputs);
      r.monthlySavings >= 0.0 && r.annualSavings >= 0.0
  {
  }

  /** Payback and ROI are reciprocal: ROI is positive exactly when payback is finite, and then their product is 100. */
  lemma PaybackTimesRoi(gross: real, metric: KeyMetric)
    ensures var r := Summarise(gross, metric);
      && (r.annualROI > 0.0 <==> r.paybackMonths.Finite?)
      && (r.annualROI == 0.0 <==> r.paybackMonths.Infinite?)
      && (r.paybackMonths.Finite? ==> r.paybackMonths.months > 0.0 && r.paybackMonths.months * r.annualROI == 100.0)
  {
    var r := Summarise(gross, metric);
    if gross > MonthlyCost {
      var net := gross - MonthlyCost;
      assert r.annualROI == net * 100.0 / MonthlyCost;
      assert r.paybackMonths.months == MonthlyCost / net;
      calc {
        r.paybackMonths.months * r.annualROI;
        (MonthlyCost / net) * (net * 100.0 / MonthlyCost);
        { assert (MonthlyCost / net) * net == MonthlyCost; }
        100.0;
      }
    }
  }

  /** Every field the formulas read is non-negative. */
  predicate NonNegative(inputs: Inputs) {
    && inputs.base.avgHourlyWage >= 0.0
    && match inputs
       case ConstructionInputs(_, invoices, minutes) => invoices >= 0.0 && minutes >= 0.0
       case LogisticsInputs(_, invoices, minutes, invoiceValue) =>
         invoices >= 0.0 && minutes >= 0.0 && invoiceValue >= 0.0
       case FieldServicesInputs(_, missedCalls, jobValue, noShowRate, jobs) =>
         missedCalls >= 0.0 && jobValue >= 0.0 && noShowRate >= 0.0 && jobs >= 0.0
       case DentalInputs(_, patients, minutes, noShowRate, appointmentValue) =>
         patients >= 0.0 && minutes >= 0.0 && noShowRate >= 0.0 && appointmentValue >= 0.0
       case AccountingInputs(_, clients, hours, billableRate) =>
         clients >= 0.0 && hours >= 0.0 && billableRate >= 0.0
  }

  /** With non-negative inputs every formula term is non-negative, so the reported monthly saving is the gross saving. */
  lemma GrossNonNegative(inputs: Inputs)
    requires NonNegative(inputs)
    ensures GrossMonthlySavings(inputs) >= 0.0
    ensures CalculateRoi(IndustryOf(inputs), inputs).monthlySavings == GrossMonthlySavings(inputs)
  {
  }

  /** Field Services and Accounting results do not depend on the hourly wage. */
  lemma WageIndependent(inputs: Inputs, wage: real)
    requires IndustryOf(inputs) == FieldServices || IndustryOf(inputs) == Accounting
    ensures CalculateRoi(IndustryOf(inputs), UpdateField(inputs, AvgHourlyWage, wage))
         == CalculateRoi(IndustryOf(inputs), inputs)
  {
    var changed := UpdateField(inputs, AvgHourlyWage, wage);
    match inputs
    case FieldServicesInputs(b, missedCalls, jobValue, noShowRate, jobs) =>
      ValuesDetermineInputs(changed, FieldServicesInputs(b.(avgHourlyWage := wage), missedCalls, jobValue, noShowRate, jobs));
    case AccountingInputs(b, clients, hours, billableRate) =>
      ValuesDetermineInputs(changed, AccountingInputs(b.(avgHourlyWage := wage), clients, hours, billableRate));
  }

  /** The Dental admin hours, where defined, are the verification minutes saved in hours, whatever the wage. */
  lemma DentalAdminHours(inputs: Inputs)
    requires inputs.DentalInputs? && inputs.base.avgHourlyWage != 0.0
    ensures KeyMetricOf(inputs).adminHours
         == Some(inputs.patientsPerMonth * inputs.minutesPerVerification * VerificationTimeReduction / 60.0)
  {
    var DentalInputs(_, patients, minutes, _, _) := inputs;
    var minuteRate := MinuteRate(inputs);
    var verificationTimeSaved := patients * minutes * VerificationTimeReduction * minuteRate;
    assert KeyMetricOf(inputs).RecoveredRevenueAndAdminHours?;
    assert KeyMetricOf(inputs).adminHours.Some?;
    assert KeyMetricOf(inputs).adminHours.value == verificationTimeSaved / minuteRate / 60.0;
    var minutesSaved := patients * minutes * VerificationTimeReduction;
    assert verificationTimeSaved / minuteRate == minutesSaved;
    assert KeyMetricOf(inputs).adminHours.value == minutesSaved / 60.0;
    assert minutesSaved == inputs.patientsPerMonth * inputs.minutesPerVerification * VerificationTimeReduction;
  }
}
