# Automation ROI calculator — a Dafny model

The application is a single-page ROI calculator for business automation. The visitor picks one of five industries and moves the sliders of that industry's form. They then see:

- the monthly and annual savings;
- the payback period, as a number of months and as a bar;
- the annual ROI;
- two charts;
- an AI-generated analysis, sales email or video pitch;
- a PDF export of the page.

This project models the logic behind those screens:

- **Calculator** (`Calculator`). Each industry has a closed-form gross monthly saving. A shared post-processing step subtracts the $499 monthly software cost, derives payback and ROI, and clamps the reported savings at zero.
- **Domain model** (`Types`). The five industries and their display labels. Each industry has its own input record: the base fields `employees` and `avgHourlyWage`, then its own fields. There is also the result record.
- **Application shell** (`App`).
  - the list of industries and each industry's default record;
  - the key order of those records;
  - the report file name;
  - the two state cells (selected industry, current inputs) with the industry switch.
- **Calculator form** (`Form`). The sliders of each form, with their min/max/step, and the single-field update a slider performs.
- **Charts** (`Charts`). The comparison row and the twelve-month cumulative net-saving series.
- **Payback bar** (`Results`).
- **PDF export** (`PdfExport`). The header derived back from the file name, the page count, and the pagination loop that places the page image once per page with a "Page k of n" footer.
- **AI insights panel** (`Insights`).
  - how generated text is split into paragraphs, bullets and bold runs;
  - the button caption and disabled rule;
  - the panel's state transitions around a generation.
- **Metric block of the analysis prompt** (`Prompt`, with `KeyLabels` for the camelCase-to-label conversion). There is one line `- <label>: <value>` per key of the record.
- **JavaScript string operations** (`Text`). This holds what the above rely on: `\s`, `trim`, `startsWith`, `includes`, `split`, `join`, and decimal rendering of naturals.

How the model represents the source:

- Numbers are `real`. Payback is `Finite(months)` or `Infinite`, standing in for JavaScript's `Infinity`.
- The input union is a tagged datatype. `Types.Value` gives keyed access to it, and `Types.UpdateField` models the object spread `{ ...prev, [name]: value }`.
- Two modules have no source file of their own, and both exist to keep proofs small. `KeyLabels` holds the label conversion of services/geminiService.ts:17, apart from `Prompt`. `AppScenarios` runs App.tsx's default records through the calculator, so that `App` does not import `Calculator`.
- State that the source updates step by step is a class: `App.AppState` and `Insights.Panel`. The PDF loop is a method with loop invariants that returns the sequence of page placements it makes.

## Model

| member | source | states |
|---|---|---|
| Types.FromLabel | types.ts:2-8 | a runtime string is recognised as an industry exactly when it is that industry's label; otherwise no industry has it as label |
| Types.FromLabelOfLabel | types.ts:2-8 | every industry's label is recognised as that industry (the five labels are pairwise distinct) |
| Types.LabelInjective | types.ts:2-8 | two industries with the same label are the same industry |
| Types.Value | types.ts:10-44 | a key holds a value only if the record's variant declares it; every declared key except `employees` always holds one |
| Types.UpdateField | components/CalculatorForm.tsx:44 | the spread update stores the new value under the key, keeps the industry, and leaves every other key's value unchanged |
| Types.ValuesDetermineInputs | types.ts:46-51 | two records of the same industry that agree on every key are the same record |
| Types.BaseFieldsEverywhere | types.ts:10-13 | every variant declares `employees` and `avgHourlyWage`, and the wage read by key is the base wage |
| Types.LogisticsExtendsConstruction | types.ts:15-24 | the Logistics fields are exactly the Construction fields plus `avgInvoiceValue` |
| Types.NoShowRateShared | types.ts:26-38 | for every Field Services record there is a different Dental record holding the same value under every shared key (`employees`, `avgHourlyWage`, `noShowRate`), so the shared keys cannot tell the two variants apart |
| Calculator.Summarise | hooks/useRoiCalculator.ts:59-70 | reported monthly saving is max(0, gross); annual saving is max(0, 12·(gross−499)); payback is infinite iff gross ≤ 499 and is 499/(gross−499) otherwise; ROI is (gross−499)·100/499 when positive, else 0 |
| Calculator.MinuteRate | hooks/useRoiCalculator.ts:10-11 | the wage per minute, `avgHourlyWage / 60`; the Dental admin-hour division by it is defined exactly when the wage is non-zero (`DentalAdminHours`, `Form.WithinSlidersIsWellDefined`) |
| Calculator.GrossMonthlySavings | hooks/useRoiCalculator.ts:14-54 | the five gross formulas, with the source's constants; specified by `GrossNonNegative`, `WageIndependent`, `Form.ResultDependsOnlyOnSliders`, `Form.SameFormulaFields` and the `AppScenarios` figures |
| Calculator.KeyMetricOf | hooks/useRoiCalculator.ts:14-54 | the quantities each arm's key-metric template prints (hours saved, cash-flow gain, captured or recovered revenue, converted hours); specified by `DentalAdminHours` and the `AppScenarios` figures |
| Calculator.CalculateRoi | hooks/useRoiCalculator.ts:6-71 | for any industry's record, the reported monthly saving is the clamped gross; payback is infinite exactly when gross ≤ 499; a key metric is always produced |
| Calculator.CalculateRoiForLabel | hooks/useRoiCalculator.ts:55-56 | the all-zero fallback result, with payback 0 rather than infinite, is returned exactly when the industry string is not one of the five labels |
| Calculator.FallbackUnreachable | hooks/useRoiCalculator.ts:55-56 | for each of the five industries, the calculation takes the industry's own arm and never returns the fallback |
| Calculator.ReportedSavingsNonNegative | hooks/useRoiCalculator.ts:64-66 | the reported monthly and annual savings are never negative, for every record |
| Calculator.PaybackTimesRoi | hooks/useRoiCalculator.ts:59-62 | ROI > 0 iff payback is finite; ROI = 0 iff payback is infinite; when finite, payback is positive and payback × ROI = 100 |
| Calculator.GrossNonNegative | hooks/useRoiCalculator.ts:14-54 | with non-negative fields, every arm's gross saving is ≥ 0, so the reported monthly saving equals the gross |
| Calculator.WageIndependent | hooks/useRoiCalculator.ts:31-53 | changing the hourly wage of a Field Services or Accounting record leaves its whole result unchanged |
| Calculator.DentalAdminHours | hooks/useRoiCalculator.ts:41-44 | the Dental admin hours in the key metric are patients × minutes × 0.9 / 60, whatever the (non-zero) wage |
| AppScenarios.ConstructionScenario | hooks/useRoiCalculator.ts:14-20 | `DefaultInputs(Construction)` (300 invoices, 18 min, $35/h) gives gross 2520, annual 24252, payback 499/2021, ROI 202100/499 and 72 hours saved |
| AppScenarios.AccountingScenario | hooks/useRoiCalculator.ts:47-53 | `DefaultInputs(Accounting)` (50 clients, 4 h, $150) gives gross 10500, annual 120012, payback 499/10001 and 70 converted hours |
| App.Industries | App.tsx:11 | five industries, pairwise distinct, Construction first |
| App.IndustriesComplete | App.tsx:11 | every industry is in the list |
| App.DefaultInputs | App.tsx:13-19 | each industry's default record belongs to that industry and has no `employees` |
| App.EntryOrder | App.tsx:13-19 | each default literal lists every declared key except `employees` exactly once, with `avgHourlyWage` last |
| App.DefaultsHoldTheirKeys | App.tsx:13-19 | a default record holds a value under a key exactly when its literal lists that key |
| App.ReplaceSeparators | App.tsx:57 | `replace(/[\s&]/g, '_')`: same length, and each character is `_` where it is whitespace or `&` and unchanged otherwise |
| App.FileName | App.tsx:57 | the name is "ROI_Report_", then the label with each whitespace and '&' turned into '_', then ".pdf"; its middle holds no separator |
| App.AppState.constructor | App.tsx:22-24 | the application starts on Construction with the Construction defaults |
| App.AppState.HandleIndustryChange | App.tsx:26-29 | the selected industry becomes the new one and the inputs are replaced wholesale by its defaults, so exactly the default keys hold values |
| Form.Sliders | components/CalculatorForm.tsx:54-96 | every form's sliders have distinct keys, and the wage slider [15,150]/1 is rendered last |
| Form.SliderRanges | components/CalculatorForm.tsx:50-90 | every slider has 0 ≤ min < max and step > 0, and is bound to a declared key of the industry other than `employees` |
| Form.SlidersForLabel | components/CalculatorForm.tsx:94-95 | an unrecognised industry string renders no sliders; a label renders its industry's form |
| Form.SliderFor | components/CalculatorForm.tsx:54-96 | the slider found for a key is on the form and bound to that key; none is found only when no slider of the form has that key |
| Form.Find | components/CalculatorForm.tsx:43-44 | the slider an event names: the one found lies on the form and has that key; none is found only when no slider has it; with distinct keys it is the slider bound to that key |
| Form.Admissible | components/CalculatorForm.tsx:27-37 | a value a range input can take: within [min, max] and a whole number of steps above `min`; used by `DefaultsWithinSliders`, `HandleInputChange` and `UpdateKeepsWithinSliders` |
| Form.WithinSliders | components/CalculatorForm.tsx:54-93 | every slider of the record's form has a value under its key that it admits; established by `DefaultsWithinSliders`, kept by `HandleInputChange`, and sufficient for `WithinSlidersIsWellDefined` |
| Form.SlidersCoverFields | components/CalculatorForm.tsx:54-93 | a key has a slider on an industry's form exactly when the industry's record declares it and it is not `employees` |
| Form.WageSliderOnEveryForm | components/CalculatorForm.tsx:48-52 | every form has the wage slider with range [15,150] and step 1 |
| Form.InvoiceSliders | components/CalculatorForm.tsx:55-61 | Construction and Logistics share the invoice sliders [50,5000]/10 and [5,60]/1; an `avgInvoiceValue` slider exists iff the industry is Logistics |
| Form.NoShowRateLimits | components/CalculatorForm.tsx:71-81 | the no-show-rate slider is [1,30]/1 on Field Services and [1,25]/1 on Dental |
| Form.DefaultsWithinSliders | App.tsx:13-19 | every default value lies inside its slider's range and on its step grid |
| Form.WithinSlidersNonNegative | components/CalculatorForm.tsx:50-90 | values the sliders can show make every formula field non-negative |
| Form.WithinSlidersIsWellDefined | hooks/useRoiCalculator.ts:44 | inputs the sliders can produce give a non-negative gross that is reported unclamped, and a wage ≥ 15, so the Dental admin hours are defined (no 0/0) |
| Form.ResultDependsOnlyOnSliders | components/CalculatorForm.tsx:54-93 | two records of one industry that agree on every slider's key get the same result |
| Form.SameFormulaFields | hooks/useRoiCalculator.ts:6-71 | the result does not depend on `employees`: records that differ only there get the same result |
| Form.HandleInputChange | components/CalculatorForm.tsx:43-45 | a slider change stores the value under the slider's key, keeps the industry and every other key; if the old inputs and the new value are admissible, so are the new inputs |
| Form.UpdateKeepsWithinSliders | components/CalculatorForm.tsx:43-45 | setting one slider's key to a value it admits keeps every slider of the form admissible |
| Charts.SavingsData | components/RoiCharts.tsx:26-28 | one comparison row pairing the reported monthly saving with the $499 cost |
| Charts.PaybackData | components/RoiCharts.tsx:32-39 | twelve points; point k is named "M(k+1)" and holds the cumulative net saving after k+1 months (net × months when net > 0, else 0) |
| Charts.CumulativeNetSavings | components/RoiCharts.tsx:30-34 | net × month when the net saving (reported monthly saving − 499) is positive, else 0; specified by `CumulativeNonDecreasing` and `TwelfthMonthIsAnnualSavings` |
| Charts.MonthNamesDistinct | components/RoiCharts.tsx:36 | the twelve point names are pairwise distinct |
| Charts.SeriesNonNegativeAndNonDecreasing | components/RoiCharts.tsx:34 | the series is non-negative and never decreases |
| Charts.CumulativeNonDecreasing | components/RoiCharts.tsx:30-34 | the cumulative net saving is non-negative and monotone in the month |
| Charts.TwelfthMonthIsAnnualSavings | components/RoiCharts.tsx:34 | for every calculator result the twelfth point equals the reported annual saving, on either side of the cost (even for a negative gross) |
| Results.PaybackVisual | components/ResultsDisplay.tsx:16-35 | shown months = min(months, 12); bar = percentage = shown/12·100 ≤ 100, ≥ 0 for non-negative months, full at ≥ 12 months; infinite payback gives an empty bar labelled N/A |
| Results.CalculatedBarInRange | components/ResultsDisplay.tsx:17-31 | for every calculator result the bar width lies in [0,100], and N/A is shown exactly when the gross saving does not exceed the cost |
| PdfExport.StripMarkers | components/PdfExportButton.tsx:74 | removing the "ROI_Report_" and ".pdf" markers only shortens the text and introduces no new characters |
| PdfExport.StripMarkerFreeText | components/PdfExportButton.tsx:74 | a marker-free text followed by ".pdf" is stripped back to itself |
| PdfExport.IndustryName | components/PdfExportButton.tsx:74 | the two replaces: markers stripped, then underscores turned into spaces; specified by `RecoveredFromFileName`, `IndustryNameOfFileName`, `PlainLabelsRecovered` and `AmpersandLabelWidened` |
| PdfExport.HeaderText | components/PdfExportButton.tsx:75 | the header is "Automation ROI Report: " followed by the industry name recovered from the file name |
| PdfExport.RecoveredFromFileName | components/PdfExportButton.tsx:74 | for a marker-free label, the recovered name is the label with every separator and underscore turned into a space |
| PdfExport.IndustryNameOfFileName | components/PdfExportButton.tsx:74 | applied to each industry's file name, the header name is that label with separators turned into spaces |
| PdfExport.PlainLabelsRecovered | components/PdfExportButton.tsx:74 | the labels without '&' (Field Services, Dental Practices, Accounting Firms) come back exactly |
| PdfExport.AmpersandLabelWidened | components/PdfExportButton.tsx:74 | a label "a & b" of letters and spaces comes back as "a   b", with three spaces |
| PdfExport.AmpersandLabelsWidened | components/PdfExportButton.tsx:74 | "Logistics & Freight" and "Construction & Subcontracting" come back with the '&' widened to three spaces |
| PdfExport.Ceil | components/PdfExportButton.tsx:68 | `Math.ceil`: the least integer not below x |
| PdfExport.ImageHeight | components/PdfExportButton.tsx:61-62 | imgHeight = canvasHeight × pdfWidth / canvasWidth, and is non-negative |
| PdfExport.TotalPages | components/PdfExportButton.tsx:68 | ⌈imgHeight/pdfHeight⌉ pages cover the image, and one page fewer does not |
| PdfExport.PageCountIsTotalPages | components/PdfExportButton.tsx:68 | whenever the image has height, the number of pages placed equals the total shown in the footers |
| PdfExport.PageCount | components/PdfExportButton.tsx:82-93 | the number of pages the loop places, max(1, totalPages); `CoveringCount` shows it is the least n ≥ 1 covering the image and `Paginate` returns exactly that many |
| PdfExport.CoveringCount | components/PdfExportButton.tsx:82-93 | the least n ≥ 1 pages covering the image is max(1, ⌈imgHeight/pdfHeight⌉) |
| PdfExport.FootersDistinct | components/PdfExportButton.tsx:78 | "Page j of n" and "Page k of n" differ whenever j ≠ k |
| PdfExport.FooterText | components/PdfExportButton.tsx:78 | `Page ${currentPage} of ${totalPages}`; no two page numbers give the same text (`FootersDistinct`) |
| PdfExport.Placement | components/PdfExportButton.tsx:82-91 | page k+1: the image at y = −k·pdfHeight, full paper width and image height, the header, and the footer numbers k+1 of total; `Paginate` returns exactly these, page by page |
| PdfExport.NextPageStep | components/PdfExportButton.tsx:86-93 | a further loop pass happens only while fewer than the total pages are placed, and each pass moves the image one page height further up |
| PdfExport.Paginate | components/PdfExportButton.tsx:55-93 | the loop ends having placed max(1, ⌈imgHeight/pdfHeight⌉) pages, the least number ≥ 1 that cover the image; page k+1 shows the image at y = −k·pdfHeight, with the header and footer k+1 of totalPages |
| PdfExport.PaginateFootersDistinct | components/PdfExportButton.tsx:78-91 | the pages the loop places all carry different footers |
| Insights.FilterNonBlank | components/GeminiInsights.tsx:32 | the filter never adds lines |
| Insights.FilterNonBlankMembers | components/GeminiInsights.tsx:32 | a line is kept exactly when it is a line of the input whose trimmed form is non-empty |
| Insights.FilterNonBlankAppend | components/GeminiInsights.tsx:32 | the filter keeps order: filtering a concatenation filters each part in turn |
| Insights.Paragraphs | components/GeminiInsights.tsx:32 | `content.split('\n').filter(p => p.trim() !== '')`; specified by `ParagraphsOfLines` and `RenderedParagraphsNonBlank` |
| Insights.ParagraphsOfLines | components/GeminiInsights.tsx:32 | a text built from newline-free lines joined by '\n' is shown as exactly its non-blank lines, in order |
| Insights.RenderedParagraphsNonBlank | components/GeminiInsights.tsx:32 | every shown paragraph is a line of the content and not blank |
| Insights.Segments | components/GeminiInsights.tsx:39-41 | one run per part of `split('**')`; run k is bold exactly when k is odd |
| Insights.SegmentsRoundTrip | components/GeminiInsights.tsx:50-52 | no run contains "**", and joining the runs with "**" gives the text back |
| Insights.RenderBlock | components/GeminiInsights.tsx:37-38 | a paragraph is a bullet exactly when its trimmed form starts with "* "; a bullet's runs come from the trimmed line after those two characters, and a plain paragraph's runs from the whole line |
| Insights.RenderBlockRecovers | components/GeminiInsights.tsx:36-53 | a bullet block shows "* " plus its runs = the trimmed line; a plain block's runs rejoin to the paragraph |
| Insights.Render | components/GeminiInsights.tsx:31-57 | one block per non-blank line, in order |
| Insights.WithSlot | components/GeminiInsights.tsx:92 | storing a result fills the tab's slot and leaves the other two slots alone |
| Insights.HasContentForTab | components/GeminiInsights.tsx:199-206 | `!!slot`: the tab's slot is non-empty; `ButtonTextRegenerates` states the caption in terms of it |
| Insights.ButtonText | components/GeminiInsights.tsx:208-217 | the verb for the tab's content state, a space and the tab's noun; specified by `ButtonTextRegenerates` |
| Insights.ButtonDisabled | components/GeminiInsights.tsx:245 | disabled while loading, or on the video tab without a key; after a generation `Panel.HandleGenerate` leaves it true exactly on the video tab without a key |
| Insights.ButtonTextRegenerates | components/GeminiInsights.tsx:208-217 | the button reads "Regenerate …" iff the tab's slot is non-empty, else "Generate …", and always ends with the tab's noun |
| Insights.ButtonCaption | components/GeminiInsights.tsx:248 | "Generating..." while loading, otherwise the button text |
| Insights.FailureError | components/GeminiInsights.tsx:105-112 | a message containing "Requested entity was not found" gives the key-invalid error; any other gives the tab's generic error |
| Insights.GenericErrorsDistinct | components/GeminiInsights.tsx:107 | generic errors identify their tab, and none equals the key errors |
| Insights.Panel.constructor | components/GeminiInsights.tsx:61-70 | the panel starts on the insights tab, not loading, with no error, empty content and no key |
| Insights.Panel.SelectTab | components/GeminiInsights.tsx:224-227 | a tab button changes only the active tab |
| Insights.Panel.RefreshKeyStatus | components/GeminiInsights.tsx:72-76 | on the video tab the key status the host reports is adopted; nothing else changes |
| Insights.Panel.SelectApiKey | components/GeminiInsights.tsx:78-83 | when the host offers the key dialog, a key is marked selected; nothing else changes |
| Insights.Panel.BeginGenerate | components/GeminiInsights.tsx:85-101 | loading starts and the error is cleared; on the video tab without a key it stops at once with the select-key error and loading off |
| Insights.Panel.CompleteGenerate | components/GeminiInsights.tsx:89-115 | a result fills only the requested tab's slot; a failure sets the matching error and, for a key-not-found message, forgets the key; loading ends either way |
| Insights.Panel.HandleGenerate | components/GeminiInsights.tsx:85-116 | the whole handler: a blocked video request sets the select-key error with content unchanged; otherwise success clears the error and fills the slot, failure sets the error; loading is off at the end, and the button is disabled afterwards iff on the video tab without a key |
| Text.TrimBounds | components/GeminiInsights.tsx:37 | `trim` removes exactly a leading and a trailing run of whitespace |
| Text.TrimIsEmpty | components/GeminiInsights.tsx:32 | a line trims to "" exactly when every character is whitespace |
| Text.Trim | components/GeminiInsights.tsx:32 | the result is a slice of the input that neither starts nor ends with whitespace; `TrimBounds` adds that only whitespace was cut |
| Text.JoinSplitOn | components/GeminiInsights.tsx:39 | joining the parts of `split(sep)` with `sep` gives the text back |
| Text.SplitOnPartsSepFree | components/GeminiInsights.tsx:39 | no part of `split(sep)` contains `sep` |
| Text.SplitOn | components/GeminiInsights.tsx:39 | `split(sep)` for a non-empty separator yields at least one part; specified by `JoinSplitOn`, `SplitOnPartsSepFree` and `SplitJoinChar` |
| Text.JoinWith | services/geminiService.ts:18 | `join(sep)`; the inverse of `SplitOn` (`JoinSplitOn`, `SplitJoinChar`) |
| Text.SplitJoinChar | services/geminiService.ts:18 | splitting newline-free lines joined by one character on that character gives the lines back |
| Text.NatToStringInjective | components/RoiCharts.tsx:36 | distinct naturals print differently |
| Text.NatToString | components/RoiCharts.tsx:36 | the decimal rendering of a natural: at least one digit, digits only |
| Text.DigitsValueOfNatToString | components/RoiCharts.tsx:36 | reading the rendering back as a decimal number gives the number |
| KeyLabels.SpaceBeforeCapitals | services/geminiService.ts:17 | inserting spaces before capitals adds only spaces |
| KeyLabels.KeyLabel | services/geminiService.ts:17 | `key.replace(/([A-Z])/g, ' $1').trim()`; specified by `KeyLabelRemoveSpaces`, `WageLabel` and `KeyLabelOneLine` |
| KeyLabels.KeyLabelRemoveSpaces | services/geminiService.ts:17 | for any key made of ASCII letters, deleting the spaces from its label gives the key back |
| KeyLabels.LabelSpellsKey | services/geminiService.ts:17 | the same holds for every key of every record |
| KeyLabels.KeyLetters | types.ts:10-44 | every record key consists of ASCII letters only |
| KeyLabels.WageLabel | services/geminiService.ts:17 | "avgHourlyWage" is labelled "avg Hourly Wage" |
| KeyLabels.KeyLabelOneLine | services/geminiService.ts:17 | a letter key's label contains no newline |
| Prompt.EntriesShape | services/geminiService.ts:16 | `Object.entries` lists the literal's keys in order with their values, then `employees` when present |
| Prompt.EntriesAreTheKeys | services/geminiService.ts:16 | a key has an entry exactly when the record holds a value under it |
| Prompt.EntriesCarryValues | services/geminiService.ts:16 | every entry carries the value stored under its key |
| Prompt.EntriesDistinct | services/geminiService.ts:16 | no key has two entries |
| Prompt.EntriesNonEmpty | services/geminiService.ts:16 | every record has at least one entry (its wage) |
| Prompt.Entries | services/geminiService.ts:16 | `Object.entries(inputs)`; specified by `EntriesShape`, `EntriesAreTheKeys`, `EntriesCarryValues`, `EntriesDistinct` and `EntriesNonEmpty` |
| Prompt.Lines | services/geminiService.ts:17 | one line `- <label>: <value>` per entry, in entry order |
| Prompt.FormatLineOneLine | services/geminiService.ts:17 | a letter key's line contains a newline only where its printed value does |
| Prompt.FormatLine | services/geminiService.ts:17 | `- ${label}: ${value}`; `FormatLineOneLine` shows it stays on one line |
| Prompt.FormatInputs | services/geminiService.ts:15-19 | `formatInputs`: the lines joined by `\n`; `FormatInputsLines` shows it splits back into exactly one line per entry |
| Prompt.FormatInputsLines | services/geminiService.ts:15-19 | when no printed number contains a newline, splitting the block on '\n' gives exactly the lines, one per entry; so there is no trailing newline and no line is lost |

## Left out

- The generative-AI calls are not modelled: insight, email and video generation, the video polling loop, `fetch`, blobs and object URLs. They are network I/O. In `Insights.Panel.HandleGenerate`, each call's eventual result is an `Outcome` parameter.
- The window between the start and the end of a generation is not modelled as a separate state. `Insights.Panel.HandleGenerate` runs `BeginGenerate` and then `CompleteGenerate`; other events that arrive in between, such as a second click or a tab change, are not modelled. This is concurrency.
- html2canvas capture, the SVG fix-up, jsPDF drawing and `pdf.save` are foreign libraries. The canvas size and the paper size are parameters of `PdfExport.Paginate`, and each page becomes one `PagePlacement`.
- The footer is kept as its two page numbers. `PdfExport.Footer` renders them with `NatToString`. Font size, colour and text positions are not modelled.
- PdfExport.Paginate: requires `canvasWidth > 0`. On a zero-width canvas the source itself misbehaves. With a positive height, the ratio is 0 and `imgHeight` is `Infinity`, so `heightLeft` stays `Infinity` and the `while (heightLeft > 0)` loop never exits. With a zero height, `imgHeight` is NaN and a single page reads "Page 1 of NaN". `real` has no value for either case, and the loop's termination measure `totalPages - page` relies on this requirement.
- With an image of zero height, the source places one page whose footer says "Page 1 of 0". The model keeps the same footer (`TotalPages` is 0; `PageCount` is 1).
- Number rendering is not modelled: `toFixed`, `toLocaleString`, the template's rendering of numbers, and `Number(e.target.value)` parsing. These are locale- and IEEE-754 formatting details.
  - The key metric is the datatype `KeyMetric`, holding the quantities the template prints, instead of the printed string.
  - In the prompt block, the rendering of a number is a parameter `render`.
  - A slider's new value arrives already as a number.
- IEEE-754 arithmetic is not modelled: every quantity is an exact `real`, and `Infinity` is the `Infinite` case of `Payback`. Where JavaScript would divide 0 by 0 (Dental admin hours at a zero wage), the model gives `None`.
- Calculator.CalculateRoi: requires the record to belong to the industry. With a mismatched pair the source does one of two things. It may read undefined fields and compute NaN, for example a Construction record given to the Dental arm. Or it may apply another industry's formula to the fields the two records share, for example a Logistics record given to the Construction arm. `AppState.Valid` rules out both.
- `useRoiCalculator`'s memoisation is not modelled. A Dafny function gives the same result for the same arguments, which is all the hook promises.
- Logging is not modelled: the `console.error` calls in the catch of `handleGenerate` (components/GeminiInsights.tsx:106) and in the PDF export (components/PdfExportButton.tsx:17, 98). They write to the console only and change no state.
- React mechanics, JSX and CSS, and recharts rendering are not modelled; neither is the clipboard button. `window.aistudio` becomes the parameters of `RefreshKeyStatus` and `SelectApiKey`.
- components/Header.tsx (static markup) and components/IndustrySelector.tsx (a click passed to `handleIndustryChange`) are not part of this model.
- The input union is a tagged datatype in place of TypeScript's structural typing. Field Services and Dental records share `noShowRate`, so the shared keys cannot tell them apart (`Types.NoShowRateShared`); the model relies on the tag instead.
- Prompt.EntriesShape: `employees` is placed after the literal's keys. The defaults never set it and no slider writes it, so the source never creates such a key at run time.
- Form.Admissible: states the browser's range-input constraint (inside [min, max] and on the step grid from `min`) as a property of values. It does not model how a browser snaps a dragged value to the grid.
- Text.SplitOn: requires a non-empty separator. The application splits only on "\n" and "**", and JavaScript's `split('')` splits into characters instead.
