/**
  The domain model: the five industries, the per-industry input records
  (all sharing the base fields `employees` and `avgHourlyWage`), and the
  result record of the ROI calculator.
*/
module Types {
  import opened Wrappers

  /** The closed set of industries; each value's runtime representation is its display label. */
  datatype Industry = Construction | Logistics | FieldServices | Dental | Accounting

  function Label(i: Industry): string {
    match i
    case Construction => "Construction & Subcontracting"
    case Logistics => "Logistics & Freight"
    case FieldServices => "Field Services"
    case Dental => "Dental Practices"
    case Accounting => "Accounting Firms"
  }

  /** The industry whose label is `s`, if any: how a runtime string is recognised as an enum value. */
  function FromLabel(s: string): (r: Option<Industry>)
    ensures r.Some? ==> Label(r.value) == s
    ensures r.None? ==> forall i :: Label(i) != s
  {
    if s == Label(Construction) then Some(Construction)
    else if s == Label(Logistics) then Some(Logistics)
    else if s == Label(FieldServices) then Some(FieldServices)
    else if s == Label(Dental) then Some(Dental)
    else if s == Label(Accounting) then Some(Accounting)
    else None
  }

  /** The labels are pairwise distinct, so every label is recognised as its own industry. */
  lemma FromLabelOfLabel(i: Industry)
    ensures FromLabel(Label(i)) == Some(i)
  {
    assert Label(i)[0] == Label(FromLabel(Label(i)).value)[0];
    assert Label(i)[1] == Label(FromLabel(Label(i)).value)[1];
  }

  lemma LabelInjective(i: Industry, j: Industry)
    requires Label(i) == Label(j)
    ensures i == j
  {
    FromLabelOfLabel(i);
    FromLabelOfLabel(j);
  }

  /** The field names of all input records, as they appear as object keys. */
  datatype FieldName =
    | Employees | AvgHourlyWage
    | InvoicesPerMonth | MinutesPerInvoice | AvgInvoiceValue
    | MissedCallsPerWeek | AvgJobValue | NoShowRate | JobsPerMonth
    | PatientsPerMonth | MinutesPerVerification | AvgAppointmentValue
    | Clients | HoursPerClientReconciliation | BillableRate

  function Key(f: FieldName): string {
    match f
    case Employees => "employees"
    case AvgHourlyWage => "avgHourlyWage"
    case InvoicesPerMonth => "invoicesPerMonth"
    case MinutesPerInvoice => "minutesPerInvoice"
    case AvgInvoiceValue => "avgInvoiceValue"
    case MissedCallsPerWeek => "missedCallsPerWeek"
    case AvgJobValue => "avgJobValue"
    case NoShowRate => "noShowRate"
    case JobsPerMonth => "jobsPerMonth"
    case PatientsPerMonth => "patientsPerMonth"
    case MinutesPerVerification => "minutesPerVerification"
    case AvgAppointmentValue => "avgAppointmentValue"
    case Clients => "clients"
    case HoursPerClientReconciliation => "hoursPerClientReconciliation"
    case BillableRate => "billableRate"
  }

  /**
    The base fields every input record extends. A record built from an object
    literal that leaves out `employees` has no value for it.
  */
  datatype BaseInputs = BaseInputs(employees: Option<real>, avgHourlyWage: real)

  /** The input record of each industry, tagged by the industry it belongs to. */
  datatype Inputs =
    | ConstructionInputs(base: BaseInputs, invoicesPerMonth: real, minutesPerInvoice: real)
    | LogisticsInputs(base: BaseInputs, invoicesPerMonth: real, minutesPerInvoice: real, avgInvoiceValue: real)
    | FieldServicesInputs(base: BaseInputs, missedCallsPerWeek: real, avgJobValue: real, noShowRate: real, jobsPerMonth: real)
    | DentalInputs(base: BaseInputs, patientsPerMonth: real, minutesPerVerification: real, noShowRate: real, avgAppointmentValue: real)
    | AccountingInputs(base: BaseInputs, clients: real, hoursPerClientReconciliation: real, billableRate: real)

  function IndustryOf(inputs: Inputs): Industry {
    match inputs
    case ConstructionInputs(_, _, _) => Construction
    case LogisticsInputs(_, _, _, _) => Logistics
    case FieldServicesInputs(_, _, _, _, _) => FieldServices
    case DentalInputs(_, _, _, _, _) => Dental
    case AccountingInputs(_, _, _, _) => Accounting
  }

  /** The declared fields of each industry's record: the base fields, then its own. */
  function Fields(i: Industry): seq<FieldName> {
    [Employees, AvgHourlyWage] +
    match i
    case Construction => [InvoicesPerMonth, MinutesPerInvoice]
    case Logistics => [InvoicesPerMonth, MinutesPerInvoice, AvgInvoiceValue]
    case FieldServices => [MissedCallsPerWeek, AvgJobValue, NoShowRate, JobsPerMonth]
    case Dental => [PatientsPerMonth, MinutesPerVerification, NoShowRate, AvgAppointmentValue]
    case Accounting => [Clients, HoursPerClientReconciliation, BillableRate]
  }

  /** `inputs[f]`: the value stored under key `f`, `None` when the record has no such key. */
  function Value(inputs: Inputs, f: FieldName): (r: Option<real>)
    ensures r.Some? ==> f in Fields(IndustryOf(inputs))
    ensures f in Fields(IndustryOf(inputs)) && f != Employees ==> r.Some?
  {
    match f
    case Employees => inputs.base.employees
    case AvgHourlyWage => Some(inputs.base.avgHourlyWage)
    case InvoicesPerMonth => if inputs.ConstructionInputs? || inputs.LogisticsInputs? then Some(inputs.invoicesPerMonth) else None
    case MinutesPerInvoice => if inputs.ConstructionInputs? || inputs.LogisticsInputs? then Some(inputs.minutesPerInvoice) else None
    case AvgInvoiceValue => if inputs.LogisticsInputs? then Some(inputs.avgInvoiceValue) else None
    case MissedCallsPerWeek => if inputs.FieldServicesInputs? then Some(inputs.missedCallsPerWeek) else None
    case AvgJobValue => if inputs.FieldServicesInputs? then Some(inputs.avgJobValue) else None
    case NoShowRate => if inputs.FieldServicesInputs? || inputs.DentalInputs? then Some(inputs.noShowRate) else None
    case JobsPerMonth => if inputs.FieldServicesInputs? then Some(inputs.jobsPerMonth) else None
    case PatientsPerMonth => if inputs.DentalInputs? then Some(inputs.patientsPerMonth) else None
    case MinutesPerVerification => if inputs.DentalInputs? then Some(inputs.minutesPerVerification) else None
    case AvgAppointmentValue => if inputs.DentalInputs? then Some(inputs.avgAppointmentValue) else None
    case Clients => if inputs.AccountingInputs? then Some(inputs.clients) else None
    case HoursPerClientReconciliation => if inputs.AccountingInputs? then Some(inputs.hoursPerClientReconciliation) else None
    case BillableRate => if inputs.AccountingInputs? then Some(inputs.billableRate) else None
  }

  /**
    `{ ...inputs, [f]: v }` for a key the record already has: `f` now holds `v`
    and every other key keeps its value.
  */
  function UpdateField(inputs: Inputs, f: FieldName, v: real): (r: Inputs)
    requires f in Fields(IndustryOf(inputs))
    ensures IndustryOf(r) == IndustryOf(inputs)
    ensures Value(r, f) == Some(v)
    ensures forall g :: g != f ==> Value(r, g) == Value(inputs, g)
  {
    match f
    case Employees => inputs.(base := inputs.base.(employees := Some(v)))
    case AvgHourlyWage => inputs.(base := inputs.base.(avgHourlyWage := v))
    case InvoicesPerMonth => inputs.(invoicesPerMonth := v)
    case MinutesPerInvoice => inputs.(minutesPerInvoice := v)
    case AvgInvoiceValue => inputs.(avgInvoiceValue := v)
    case MissedCallsPerWeek => inputs.(missedCallsPerWeek := v)
    case AvgJobValue => inputs.(avgJobValue := v)
    case NoShowRate => inputs.(noShowRate := v)
    case JobsPerMonth => inputs.(jobsPerMonth := v)
    case PatientsPerMonth => inputs.(patientsPerMonth := v)
    case MinutesPerVerification => inputs.(minutesPerVerification := v)
    case AvgAppointmentValue => inputs.(avgAppointmentValue := v)
    case Clients => inputs.(clients := v)
    case HoursPerClientReconciliation => inputs.(hoursPerClientReconciliation := v)
    case BillableRate => inputs.(billableRate := v)
  }

  /** A record is determined by its industry and the values of its keys. */
  lemma ValuesDetermineInputs(a: Inputs, b: Inputs)
    requires IndustryOf(a) == IndustryOf(b)
    requires forall f :: Value(a, f) == Value(b, f)
    ensures a == b
  {
    assert a.base == b.base by {
      assert Value(a, Employees) == Value(b, Employees);
      assert Value(a, AvgHourlyWage) == Value(b, AvgHourlyWage);
    }
    match a
    case ConstructionInputs(_, _, _) =>
      assert Value(a, InvoicesPerMonth) == Value(b, InvoicesPerMonth);
      assert Value(a, MinutesPerInvoice) == Value(b, MinutesPerInvoice);
    case LogisticsInputs(_, _, _, _) =>
      assert Value(a, InvoicesPerMonth) == Value(b, InvoicesPerMonth);
      assert Value(a, MinutesPerInvoice) == Value(b, MinutesPerInvoice);
      assert Value(a, AvgInvoiceValue) == Value(b, AvgInvoiceValue);
    case FieldServicesInputs(_, _, _, _, _) =>
      assert Value(a, MissedCallsPerWeek) == Value(b, MissedCallsPerWeek);
      assert Value(a, AvgJobValue) == Value(b, AvgJobValue);
      assert Value(a, NoShowRate) == Value(b, NoShowRate);
      assert Value(a, JobsPerMonth) == Value(b, JobsPerMonth);
    case DentalInputs(_, _, _, _, _) =>
      assert Value(a, PatientsPerMonth) == Value(b, PatientsPerMonth);
      assert Value(a, MinutesPerVerification) == Value(b, MinutesPerVerification);
      assert Value(a, NoShowRate) == Value(b, NoShowRate);
      assert Value(a, AvgAppointmentValue) == Value(b, AvgAppointmentValue);
    case AccountingInputs(_, _, _, _) =>
      assert Value(a, Clients) == Value(b, Clients);
      assert Value(a, HoursPerClientReconciliation) == Value(b, HoursPerClientReconciliation);
      assert Value(a, BillableRate) == Value(b, BillableRate);
  }

  /** Every record carries the base fields, and every record has a wage. */
  lemma BaseFieldsEverywhere(inputs: Inputs)
    ensures Employees in Fields(IndustryOf(inputs)) && AvgHourlyWage in Fields(IndustryOf(inputs))
    ensures Value(inputs, AvgHourlyWage) == Some(inputs.base.avgHourlyWage)
  {
  }

  /** The Logistics record is the Construction record extended by `avgInvoiceValue`. */
  lemma LogisticsExtendsConstruction()
    ensures Fields(Logistics) == Fields(Construction) + [AvgInvoiceValue]
  {
  }

  /**
    `noShowRate` belongs to two different records, so the key sets alone do not
    say which industry's record a value is: for every Field Services record
    there is a Dental record holding the same value under every key the two
    records share, and yet the two are different inputs. The model carries the tag.
  */
  lemma NoShowRateShared(a: Inputs)
    requires IndustryOf(a) == FieldServices
    ensures exists b :: SameSharedValues(a, b) && a != b
  {
    var b := DentalInputs(a.base, 0.0, 0.0, a.noShowRate, 0.0);
    forall f | f in Fields(FieldServices) && f in Fields(Dental)
      ensures Value(b, f) == Value(a, f)
    {
      assert f == Employees || f == AvgHourlyWage || f == NoShowRate;
    }
    assert SameSharedValues(a, b) && a != b;
  }

  /** `b` is a Dental record holding the same value as `a` under every key Field Services and Dental share. */
  predicate SameSharedValues(a: Inputs, b: Inputs) {
    && IndustryOf(b) == Dental
    && forall f :: f in Fields(FieldServices) && f in Fields(Dental) ==> Value(b, f) == Value(a, f)
  }

  /** How the savings are paid back: after a finite number of months, or never (`Infinity`). */
  datatype Payback = Finite(months: real) | Infinite

  /**
    The quantities the one-line key metric reports for each industry; the
    number formatting of the sentence is not part of the model. `adminHours`
    is `None` where the source divides zero by a zero minute rate.
  */
  datatype KeyMetric =
    | NoMetric
    | InvoicingHoursSaved(hours: real)
    | CashflowAndHours(cashflowImprovement: real, hours: real)
    | CapturedAndRecoveredRevenue(revenue: real)
    | RecoveredRevenueAndAdminHours(recoveredRevenue: real, adminHours: Option<real>)
    | BillableHoursConverted(hours: real)

  /** Four numbers and a key metric, derived from one industry's inputs. */
  datatype RoiResult = RoiResult(
    monthlySavings: real,
    annualSavings: real,
    paybackMonths: Payback,
    annualROI: real,
    keyMetric: KeyMetric)
}
