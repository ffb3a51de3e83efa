/**
  The calculator form: the sliders each industry's form renders, with their
  ranges, and the single-field update a slider change performs on the
  application's inputs.
*/
module Form {
  import opened Wrappers
  import opened Types
  import opened Calculator
  import opened App

  /** A range input bound to one key of the record. */
  datatype Slider = Slider(name: FieldName, min: real, max: real, step: real)

  const WageSlider: Slider := Slider(AvgHourlyWage, 15.0, 150.0, 1.0)
  const InvoicesSlider: Slider := Slider(InvoicesPerMonth, 50.0, 5000.0, 10.0)
  const MinutesPerInvoiceSlider: Slider := Slider(MinutesPerInvoice, 5.0, 60.0, 1.0)

  /** The sliders of each industry's form, in the order they are rendered; the wage slider comes last. */
  function Sliders(i: Industry): (r: seq<Slider>)
    ensures |r| >= 1 && r[|r| - 1] == WageSlider
    ensures DistinctNames(r)
  {
    match i
    case Construction => [InvoicesSlider, MinutesPerInvoiceSlider, WageSlider]
    case Logistics => [InvoicesSlider, MinutesPerInvoiceSlider, Slider(AvgInvoiceValue, 100.0, 10000.0, 50.0), WageSlider]
    case FieldServices =>
      [ Slider(MissedCallsPerWeek, 1.0, 100.0, 1.0), Slider(AvgJobValue, 100.0, 5000.0, 25.0),
        Slider(JobsPerMonth, 20.0, 1000.0, 10.0), Slider(NoShowRate, 1.0, 30.0, 1.0), WageSlider ]
    case Dental =>
      [ Slider(PatientsPerMonth, 50.0, 2000.0, 10.0), Slider(MinutesPerVerification, 5.0, 45.0, 1.0),
        Slider(AvgAppointmentValue, 50.0, 2000.0, 25.0), Slider(NoShowRate, 1.0, 25.0, 1.0), WageSlider ]
    case Accounting =>
      [ Slider(Clients, 5.0, 500.0, 1.0), Slider(HoursPerClientReconciliation, 1.0, 20.0, 1.0),
        Slider(BillableRate, 50.0, 500.0, 5.0), WageSlider ]
  }

  /**
    Every slider has a non-negative minimum below its maximum and a positive
    step, and is bound to a key other than `employees` that the industry's
    record holds.
  */
  lemma SliderRanges(i: Industry)
    ensures var r := Sliders(i);
      forall k :: 0 <= k < |r| ==>
        0.0 <= r[k].min < r[k].max && r[k].step > 0.0 && r[k].name in Fields(i) && r[k].name != Employees
  {
  }

  /** The form for an industry given by its runtime label; an unknown label renders nothing. */
  function SlidersForLabel(tag: string): (r: seq<Slider>)
    ensures FromLabel(tag).None? ==> r == []
    ensures FromLabel(tag).Some? ==> r == Sliders(FromLabel(tag).value)
  {
    match FromLabel(tag)
    case None => []
    case Some(i) => Sliders(i)
  }

  function SliderNames(r: seq<Slider>): (names: seq<FieldName>)
    ensures |names| == |r| && forall k :: 0 <= k < |r| ==> names[k] == r[k].name
  {
    seq(|r|, k requires 0 <= k < |r| => r[k].name)
  }

  /** The slider bound to key `f` on industry `i`'s form, if there is one. */
  function SliderFor(i: Industry, f: FieldName): (r: Option<Slider>)
    ensures r.Some? ==> r.value in Sliders(i) && r.value.name == f
    ensures r.Some? ==> f in Fields(i) && f != Employees
    ensures r.None? ==> forall s :: s in Sliders(i) ==> s.name != f
    ensures forall k :: 0 <= k < |Sliders(i)| && Sliders(i)[k].name == f ==> r == Some(Sliders(i)[k])
  {
    SliderRanges(i);
    Find(Sliders(i), f)
  }

  predicate DistinctNames(r: seq<Slider>) {
    forall j, k :: 0 <= j < k < |r| ==> r[j].name != r[k].name
  }

  function Find(r: seq<Slider>, f: FieldName): (found: Option<Slider>)
    ensures found.Some? ==> found.value in r && found.value.name == f
    ensures found.None? ==> forall s :: s in r ==> s.name != f
    ensures DistinctNames(r) ==> forall k :: 0 <= k < |r| && r[k].name == f ==> found == Some(r[k])
  {
    if r == [] then None
    else if r[0].name == f then Some(r[0])
    else Find(r[1..], f)
  }

  /** Every key the calculator reads for an industry, and no other, has a slider on that industry's form. */
  predicate SlidersCover(i: Industry) {
    forall f :: f in SliderNames(Sliders(i)) <==> f in Fields(i) && f != Employees
  }

  lemma SlidersCoverFields(i: Industry)
    ensures SlidersCover(i)
  {
    match i {
      case Construction => SlidersCoverConstruction();
      case Logistics => SlidersCoverLogistics();
      case FieldServices => SlidersCoverFieldServices();
      case Dental => SlidersCoverDental();
      case Accounting => SlidersCoverAccounting();
    }
  }

  lemma SlidersCoverConstruction() ensures SlidersCover(Construction) {
    assert SliderNames(Sliders(Construction)) == [InvoicesPerMonth, MinutesPerInvoice, AvgHourlyWage];
  }

  lemma SlidersCoverLogistics() ensures SlidersCover(Logistics) {
    assert SliderNames(Sliders(Logistics)) == [InvoicesPerMonth, MinutesPerInvoice, AvgInvoiceValue, AvgHourlyWage];
  }

  lemma SlidersCoverFieldServices() ensures SlidersCover(FieldServices) {
    assert SliderNames(Sliders(FieldServices)) == [MissedCallsPerWeek, AvgJobValue, JobsPerMonth, NoShowRate, AvgHourlyWage];
  }

  lemma SlidersCoverDental() ensures SlidersCover(Dental) {
    assert SliderNames(Sliders(Dental)) == [PatientsPerMonth, MinutesPerVerification, AvgAppointmentValue, NoShowRate, AvgHourlyWage];
  }

  lemma SlidersCoverAccounting() ensures SlidersCover(Accounting) {
    assert SliderNames(Sliders(Accounting)) == [Clients, HoursPerClientReconciliation, BillableRate, AvgHourlyWage];
  }

  /** The wage slider, [15, 150] in steps of 1, is on every form. */
  lemma WageSliderOnEveryForm(i: Industry)
    ensures SliderFor(i, AvgHourlyWage) == Some(WageSlider)
  {
    var r := Sliders(i);
    assert r[|r| - 1] in r;
  }

  /**
    Construction and Logistics share the invoice sliders; the invoice-value
    slider is on the Logistics form only.
  */
  lemma InvoiceSliders(i: Industry)
    ensures i == Construction || i == Logistics ==>
      SliderFor(i, InvoicesPerMonth) == Some(InvoicesSlider) && SliderFor(i, MinutesPerInvoice) == Some(MinutesPerInvoiceSlider)
    ensures SliderFor(i, AvgInvoiceValue).Some? <==> i == Logistics
  {
    var r := Sliders(i);
    if i == Construction || i == Logistics {
      assert r[0] == InvoicesSlider && r[1] == MinutesPerInvoiceSlider;
    }
    if i == Logistics {
      assert r[2].name == AvgInvoiceValue;
    }
  }

  /** The no-show rate goes up to 30% for Field Services and to 25% for Dental. */
  lemma NoShowRateLimits()
    ensures SliderFor(FieldServices, NoShowRate) == Some(Slider(NoShowRate, 1.0, 30.0, 1.0))
    ensures SliderFor(Dental, NoShowRate) == Some(Slider(NoShowRate, 1.0, 25.0, 1.0))
  {
    assert Sliders(FieldServices)[3] == Slider(NoShowRate, 1.0, 30.0, 1.0);
    assert Sliders(Dental)[3] == Slider(NoShowRate, 1.0, 25.0, 1.0);
  }

  /** A value the browser lets a range input take: inside the range and on the step grid from `min`. */
  predicate Admissible(s: Slider, v: real) {
    && s.step > 0.0
    && s.min <= v <= s.max
    && ((v - s.min) / s.step).Floor as real == (v - s.min) / s.step
  }

  /** Every slider of the record's form shows an admissible value. */
  predicate WithinSliders(inputs: Inputs) {
    var sliders := Sliders(IndustryOf(inputs));
    forall k :: 0 <= k < |sliders| ==>
      Value(inputs, sliders[k].name).Some? && Admissible(sliders[k], Value(inputs, sliders[k].name).value)
  }

  /** Every default value lies inside its slider's range and on its step grid. */
  lemma DefaultsWithinSliders(i: Industry)
    ensures WithinSliders(DefaultInputs(i))
  {
    match i {
      case Construction => ConstructionDefaultsWithinSliders();
      case Logistics => LogisticsDefaultsWithinSliders();
      case FieldServices => FieldServicesDefaultsWithinSliders();
      case Dental => DentalDefaultsWithinSliders();
      case Accounting => AccountingDefaultsWithinSliders();
    }
  }

  lemma ConstructionDefaultsWithinSliders() ensures WithinSliders(DefaultInputs(Construction)) {
    assert Admissible(WageSlider, 35.0);
    assert Admissible(InvoicesSlider, 300.0) && Admissible(MinutesPerInvoiceSlider, 18.0);
  }

  lemma LogisticsDefaultsWithinSliders() ensures WithinSliders(DefaultInputs(Logistics)) {
    assert Admissible(WageSlider, 28.0);
    assert Admissible(InvoicesSlider, 500.0) && Admissible(MinutesPerInvoiceSlider, 15.0);
    assert Admissible(Slider(AvgInvoiceValue, 100.0, 10000.0, 50.0), 1500.0);
  }

  lemma FieldServicesDefaultsWithinSliders() ensures WithinSliders(DefaultInputs(FieldServices)) {
    assert Admissible(WageSlider, 40.0);
    assert Admissible(Slider(MissedCallsPerWeek, 1.0, 100.0, 1.0), 15.0);
    assert Admissible(Slider(AvgJobValue, 100.0, 5000.0, 25.0), 450.0);
    assert Admissible(Slider(JobsPerMonth, 20.0, 1000.0, 10.0), 150.0);
    assert Admissible(Slider(NoShowRate, 1.0, 30.0, 1.0), 10.0);
  }

  lemma DentalDefaultsWithinSliders() ensures WithinSliders(DefaultInputs(Dental)) {
    assert Admissible(WageSlider, 25.0);
    assert Admissible(Slider(PatientsPerMonth, 50.0, 2000.0, 10.0), 200.0);
    assert Admissible(Slider(MinutesPerVerification, 5.0, 45.0, 1.0), 15.0);
    assert Admissible(Slider(AvgAppointmentValue, 50.0, 2000.0, 25.0), 300.0);
    assert Admissible(Slider(NoShowRate, 1.0, 25.0, 1.0), 18.0);
  }

  lemma AccountingDefaultsWithinSliders() ensures WithinSliders(DefaultInputs(Accounting)) {
    assert Admissible(WageSlider, 50.0);
    assert Admissible(Slider(Clients, 5.0, 500.0, 1.0), 50.0);
    assert Admissible(Slider(HoursPerClientReconciliation, 1.0, 20.0, 1.0), 4.0);
    assert Admissible(Slider(BillableRate, 50.0, 500.0, 5.0), 150.0);
  }

  /**
    Inputs the sliders can produce have non-negative gross savings, which are
    then reported unclamped, and a positive wage, so the Dental admin hours are defined.
  */
  lemma WithinSlidersIsWellDefined(inputs: Inputs)
    requires WithinSliders(inputs)
    ensures GrossMonthlySavings(inputs) >= 0.0
    ensures CalculateRoi(IndustryOf(inputs), inputs).monthlySavings == GrossMonthlySavings(inputs)
    ensures inputs.DentalInputs? ==> KeyMetricOf(inputs).adminHours.Some?
  {
    WageSliderOnEveryForm(IndustryOf(inputs));
    assert inputs.base.avgHourlyWage >= 15.0;
    WithinSlidersNonNegative(inputs);
    GrossNonNegative(inputs);
  }

  /** Every slider's minimum is non-negative, so the values the sliders show are too. */
  lemma WithinSlidersNonNegative(inputs: Inputs)
    requires WithinSliders(inputs)
    ensures NonNegative(inputs)
  {
    assert SlidersNonNegative(inputs);
    match inputs
    case ConstructionInputs(_, _, _) => ConstructionSlidersNonNegative(inputs);
    case LogisticsInputs(_, _, _, _) => LogisticsSlidersNonNegative(inputs);
    case FieldServicesInputs(_, _, _, _, _) => FieldServicesSlidersNonNegative(inputs);
    case DentalInputs(_, _, _, _, _) => DentalSlidersNonNegative(inputs);
    case AccountingInputs(_, _, _, _) => AccountingSlidersNonNegative(inputs);
  }

  /** Every slider of the record's form shows a non-negative value. */
  predicate SlidersNonNegative(inputs: Inputs) {
    var sliders := Sliders(IndustryOf(inputs));
    forall k :: 0 <= k < |sliders| ==> Value(inputs, sliders[k].name).Some? && Value(inputs, sliders[k].name).value >= 0.0
  }

  lemma ConstructionSlidersNonNegative(inputs: Inputs)
    requires inputs.ConstructionInputs? && SlidersNonNegative(inputs)
    ensures NonNegative(inputs)
  {
    var sliders := Sliders(Construction);
    assert sliders[0].name == InvoicesPerMonth && sliders[1].name == MinutesPerInvoice;
    assert sliders[2].name == AvgHourlyWage;
  }

  lemma LogisticsSlidersNonNegative(inputs: Inputs)
    requires inputs.LogisticsInputs? && SlidersNonNegative(inputs)
    ensures NonNegative(inputs)
  {
    var sliders := Sliders(Logistics);
    assert sliders[0].name == InvoicesPerMonth && sliders[1].name == MinutesPerInvoice;
    assert sliders[2].name == AvgInvoiceValue && sliders[3].name == AvgHourlyWage;
  }

  lemma FieldServicesSlidersNonNegative(inputs: Inputs)
    requires inputs.FieldServicesInputs? && SlidersNonNegative(inputs)
    ensures NonNegative(inputs)
  {
    var sliders := Sliders(FieldServices);
    assert sliders[0].name == MissedCallsPerWeek && sliders[1].name == AvgJobValue;
    assert sliders[2].name == JobsPerMonth && sliders[3].name == NoShowRate;
    assert sliders[4].name == AvgHourlyWage;
  }

  lemma DentalSlidersNonNegative(inputs: Inputs)
    requires inputs.DentalInputs? && SlidersNonNegative(inputs)
    ensures NonNegative(inputs)
  {
    var sliders := Sliders(Dental);
    assert sliders[0].name == PatientsPerMonth && sliders[1].name == MinutesPerVerification;
    assert sliders[2].name == AvgAppointmentValue && sliders[3].name == NoShowRate;
    assert sliders[4].name == AvgHourlyWage;
  }

  lemma AccountingSlidersNonNegative(inputs: Inputs)
    requires inputs.AccountingInputs? && SlidersNonNegative(inputs)
    ensures NonNegative(inputs)
  {
    var sliders := Sliders(Accounting);
    assert sliders[0].name == Clients && sliders[1].name == HoursPerClientReconciliation;
    assert sliders[2].name == BillableRate && sliders[3].name == AvgHourlyWage;
  }

  /** Two records of one industry whose form's sliders show the same values. */
  predicate SameOnSliders(a: Inputs, b: Inputs) {
    var sliders := Sliders(IndustryOf(a));
    && IndustryOf(a) == IndustryOf(b)
    && forall k :: 0 <= k < |sliders| ==> Value(a, sliders[k].name) == Value(b, sliders[k].name)
  }

  /** The result depends only on the values the form's sliders show. */
  lemma ResultDependsOnlyOnSliders(a: Inputs, b: Inputs)
    requires SameOnSliders(a, b)
    ensures CalculateRoi(IndustryOf(a), a) == CalculateRoi(IndustryOf(b), b)
  {
    match a
    case ConstructionInputs(_, _, _) => ConstructionSlidersDetermine(a, b);
    case LogisticsInputs(_, _, _, _) => LogisticsSlidersDetermine(a, b);
    case FieldServicesInputs(_, _, _, _, _) => FieldServicesSlidersDetermine(a, b);
    case DentalInputs(_, _, _, _, _) => DentalSlidersDetermine(a, b);
    case AccountingInputs(_, _, _, _) => AccountingSlidersDetermine(a, b);
  }

  lemma ConstructionSlidersDetermine(a: Inputs, b: Inputs)
    requires a.ConstructionInputs? && SameOnSliders(a, b)
    ensures CalculateRoi(IndustryOf(a), a) == CalculateRoi(IndustryOf(b), b)
  {
    var sliders := Sliders(Construction);
    assert sliders[0].name == InvoicesPerMonth && sliders[1].name == MinutesPerInvoice;
    assert sliders[2].name == AvgHourlyWage;
    SameFormulaFields(a, b);
  }

  lemma LogisticsSlidersDetermine(a: Inputs, b: Inputs)
    requires a.LogisticsInputs? && SameOnSliders(a, b)
    ensures CalculateRoi(IndustryOf(a), a) == CalculateRoi(IndustryOf(b), b)
  {
    var sliders := Sliders(Logistics);
    assert sliders[0].name == InvoicesPerMonth && sliders[1].name == MinutesPerInvoice;
    assert sliders[2].name == AvgInvoiceValue && sliders[3].name == AvgHourlyWage;
    SameFormulaFields(a, b);
  }

  lemma FieldServicesSlidersDetermine(a: Inputs, b: Inputs)
    requires a.FieldServicesInputs? && SameOnSliders(a, b)
    ensures CalculateRoi(IndustryOf(a), a) == CalculateRoi(IndustryOf(b), b)
  {
    var sliders := Sliders(FieldServices);
    assert sliders[0].name == MissedCallsPerWeek && sliders[1].name == AvgJobValue;
    assert sliders[2].name == JobsPerMonth && sliders[3].name == NoShowRate;
    assert sliders[4].name == AvgHourlyWage;
    SameFormulaFields(a, b);
  }

  lemma DentalSlidersDetermine(a: Inputs, b: Inputs)
    requires a.DentalInputs? && SameOnSliders(a, b)
    ensures CalculateRoi(IndustryOf(a), a) == CalculateRoi(IndustryOf(b), b)
  {
    var sliders := Sliders(Dental);
    assert sliders[0].name == PatientsPerMonth && sliders[1].name == MinutesPerVerification;
    assert sliders[2].name == AvgAppointmentValue && sliders[3].name == NoShowRate;
    assert sliders[4].name == AvgHourlyWage;
    SameFormulaFields(a, b);
  }

  lemma AccountingSlidersDetermine(a: Inputs, b: Inputs)
    requires a.AccountingInputs? && SameOnSliders(a, b)
    ensures CalculateRoi(IndustryOf(a), a) == CalculateRoi(IndustryOf(b), b)
  {
    var sliders := Sliders(Accounting);
    assert sliders[0].name == Clients && sliders[1].name == HoursPerClientReconciliation;
    assert sliders[2].name == BillableRate && sliders[3].name == AvgHourlyWage;
    SameFormulaFields(a, b);
  }

  /** Records that differ at most in `employees` give the same result. */
  lemma SameFormulaFields(a: Inputs, b: Inputs)
    requires a.base.avgHourlyWage == b.base.avgHourlyWage && a.(base := b.base) == b
    ensures IndustryOf(a) == IndustryOf(b)
    ensures CalculateRoi(IndustryOf(a), a) == CalculateRoi(IndustryOf(b), b)
  {
    assert GrossMonthlySavings(a) == GrossMonthlySavings(b);
    assert KeyMetricOf(a) == KeyMetricOf(b);
  }

  /**
    `handleInputChange`: the slider named `name` reports `value`, and exactly
    that key of the inputs changes.
  */
  method HandleInputChange(app: AppState, name: FieldName, value: real)
    requires app.Valid()
    requires SliderFor(app.selectedIndustry, name).Some?
    modifies app
    ensures app.Valid() && app.selectedIndustry == old(app.selectedIndustry)
    ensures app.inputs == UpdateField(old(app.inputs), name, value)
    ensures Value(app.inputs, name) == Some(value)
    ensures forall g :: g != name ==> Value(app.inputs, g) == Value(old(app.inputs), g)
    ensures old(WithinSliders(app.inputs)) && Admissible(SliderFor(app.selectedIndustry, name).value, value)
      ==> WithinSliders(app.inputs)
  {
    if WithinSliders(app.inputs) && Admissible(SliderFor(app.selectedIndustry, name).value, value) {
      UpdateKeepsWithinSliders(app.inputs, name, value);
    }
    app.inputs := UpdateField(app.inputs, name, value);
  }

  /** Setting one slider's key to a value that slider admits keeps every slider admissible. */
  lemma UpdateKeepsWithinSliders(inputs: Inputs, name: FieldName, value: real)
    requires name in Fields(IndustryOf(inputs))
    requires SliderFor(IndustryOf(inputs), name).Some?
    requires WithinSliders(inputs) && Admissible(SliderFor(IndustryOf(inputs), name).value, value)
    ensures WithinSliders(UpdateField(inputs, name, value))
  {
    var updated := UpdateField(inputs, name, value);
    var sliders := Sliders(IndustryOf(inputs));
    forall k | 0 <= k < |sliders|
      ensures Value(updated, sliders[k].name).Some? && Admissible(sliders[k], Value(updated, sliders[k].name).value)
    {
      if sliders[k].name == name {
        assert SliderFor(IndustryOf(inputs), name) == Some(sliders[k]);
      }
    }
  }
}
