/**
  The application shell: the list of industries offered, the default record
  of each industry, the report file name, and the two state cells (selected
  industry, current inputs) with the industry-switch transition.
*/
module App {
  import opened Wrappers
  import opened Text
  import opened Types

  /** The industries in the enum's declaration order, as offered by the selector. */
  function Industries(): (r: seq<Industry>)
    ensures |r| == 5 && r[0] == Construction
    ensures forall j, k :: 0 <= j < k < |r| ==> r[j] != r[k]
  {
    [Construction, Logistics, FieldServices, Dental, Accounting]
  }

  /** Every industry is offered. */
  lemma IndustriesComplete(i: Industry)
    ensures i in Industries()
  {
    var r := Industries();
    match i
    case Construction => assert r[0] == i;
    case Logistics => assert r[1] == i;
    case FieldServices => assert r[2] == i;
    case Dental => assert r[3] == i;
    case Accounting => assert r[4] == i;
  }

  /** The initial record of each industry: its own fields and a wage, no `employees`. */
  function DefaultInputs(i: Industry): (r: Inputs)
    ensures IndustryOf(r) == i
    ensures r.base.employees == None
  {
    match i
    case Construction => ConstructionInputs(BaseInputs(None, 35.0), 300.0, 18.0)
    case Logistics => LogisticsInputs(BaseInputs(None, 28.0), 500.0, 15.0, 1500.0)
    case FieldServices => FieldServicesInputs(BaseInputs(None, 40.0), 15.0, 450.0, 10.0, 150.0)
    case Dental => DentalInputs(BaseInputs(None, 25.0), 200.0, 15.0, 18.0, 300.0)
    case Accounting => AccountingInputs(BaseInputs(None, 50.0), 50.0, 4.0, 150.0)
  }

  /** The keys of each default record in the order its object literal lists them. */
  function EntryOrder(i: Industry): (r: seq<FieldName>)
    ensures forall f :: f in r <==> f in Fields(i) && f != Employees
    ensures forall j, k :: 0 <= j < k < |r| ==> r[j] != r[k]
    ensures |r| >= 1 && r[|r| - 1] == AvgHourlyWage
  {
    match i
    case Construction => [InvoicesPerMonth, MinutesPerInvoice, AvgHourlyWage]
    case Logistics => [InvoicesPerMonth, MinutesPerInvoice, AvgInvoiceValue, AvgHourlyWage]
    case FieldServices => [MissedCallsPerWeek, AvgJobValue, JobsPerMonth, NoShowRate, AvgHourlyWage]
    case Dental => [PatientsPerMonth, MinutesPerVerification, NoShowRate, AvgAppointmentValue, AvgHourlyWage]
    case Accounting => [Clients, HoursPerClientReconciliation, BillableRate, AvgHourlyWage]
  }

  /** Each default record holds exactly the keys of its literal and nothing else. */
  lemma DefaultsHoldTheirKeys(i: Industry)
    ensures forall f :: Value(DefaultInputs(i), f).Some? <==> f in EntryOrder(i)
  {
  }

  predicate IsFileNameSeparator(c: char) {
    IsWhitespace(c) || c == '&'
  }

  /** `s.replace(/[\s&]/g, '_')`. */
  function ReplaceSeparators(s: string): (r: string)
    ensures |r| == |s|
    ensures forall k :: 0 <= k < |s| ==> r[k] == if IsFileNameSeparator(s[k]) then '_' else s[k]
  {
    seq(|s|, k requires 0 <= k < |s| => if IsFileNameSeparator(s[k]) then '_' else s[k])
  }

  const ReportPrefix: string := "ROI_Report_"
  const ReportSuffix: string := ".pdf"

  /** The name of the exported report for an industry. */
  function FileName(i: Industry): (r: string)
    ensures StartsWith(r, ReportPrefix)
    ensures |r| == |ReportPrefix| + |Label(i)| + |ReportSuffix| && r[|r| - |ReportSuffix|..] == ReportSuffix
    ensures forall k :: 0 <= k < |Label(i)| ==>
      r[|ReportPrefix| + k] == if IsFileNameSeparator(Label(i)[k]) then '_' else Label(i)[k]
    ensures forall k :: |ReportPrefix| <= k < |r| - |ReportSuffix| ==> !IsFileNameSeparator(r[k])
  {
    var r := ReportPrefix + ReplaceSeparators(Label(i)) + ReportSuffix;
    assert r[..|ReportPrefix|] == ReportPrefix;
    assert r[|r| - |ReportSuffix|..] == ReportSuffix;
    r
  }

  /** The two state cells of the application. */
  class AppState {
    var selectedIndustry: Industry
    var inputs: Inputs

    /** The inputs always belong to the selected industry. */
    predicate Valid()
      reads this
    {
      IndustryOf(inputs) == selectedIndustry
    }

    /** The application starts on Construction with the Construction defaults. */
    constructor ()
      ensures Valid()
      ensures selectedIndustry == Construction && inputs == DefaultInputs(Construction)
    {
      selectedIndustry := Construction;
      inputs := DefaultInputs(Construction);
    }

    /** Selecting an industry replaces the inputs wholesale by that industry's defaults. */
    method HandleIndustryChange(industry: Industry)
      modifies this
      ensures Valid()
      ensures selectedIndustry == industry && inputs == DefaultInputs(industry)
      ensures forall f :: Value(inputs, f).Some? <==> f in EntryOrder(industry)
    {
      selectedIndustry := industry;
      inputs := DefaultInputs(industry);
      DefaultsHoldTheirKeys(industry);
    }
  }
}

/** The application's default records run through the calculator. */
module AppScenarios {
  import opened Types
  import opened Calculator
  import opened App

  /** The Construction default record (300 invoices of 18 minutes at $35 an hour) as the calculator sees it. */
  lemma ConstructionScenario()
    ensures GrossMonthlySavings(DefaultInputs(Construction)) == 2520.0
    ensures CalculateRoi(Construction, DefaultInputs(Construction))
         == RoiResult(2520.0, 24252.0, Finite(499.0 / 2021.0), 2021.0 * 100.0 / 499.0, InvoicingHoursSaved(72.0))
  {
  }

  /** The Accounting default record (50 clients, 4 hours each, $150 billable); its $50 wage plays no part. */
  lemma AccountingScenario()
    ensures GrossMonthlySavings(DefaultInputs(Accounting)) == 10500.0
    ensures CalculateRoi(Accounting, DefaultInputs(Accounting))
         == RoiResult(10500.0, 120012.0, Finite(499.0 / 10001.0), 10001.0 * 100.0 / 499.0, BillableHoursConverted(70.0))
  {
  }
}
