# Sales-report builder, modelled in Dafny

The repository shows the builder pattern on a sales-report descriptor.
`SalesReport` is a mutable object with 21 properties: title, format, a date
range, header and footer texts with their flags, a chart flag and type, a
summary flag, column and filter lists, sort and group columns, a totals
flag, orientation, page size, a page-numbers flag, a company logo and a
watermark. `SalesReportBuilder` owns one such object. It has one fluent
setter per property or pair of properties, and each setter returns the
builder itself. `Build()` throws when the title is null or empty. Otherwise
it hands back the builder's own report object.

The builder appears twice in the source, with the same behaviour:
`src/Builders/SalesReportBuilder.cs`, behind the `ISalesReportBuilder`
interface, and `src/Challenge.cs:14-115`, returning the concrete class. The
model has one class for both.

## Files

- `Wrappers.dfy`: `Option` (a `None` is a C# null) and `Result` (an `Err` is an exception).
- `Models.dfy`: `Text` (a nullable C# string), `Date` (an opaque `DateTime`),
  `ReportValue` (the contents of a report as a value), `Defaults()`,
  `IsNullOrEmpty` (.NET's `string.IsNullOrEmpty`, the test `Build()` uses),
  and the class `SalesReport` with its 21 fields, its two
  constructors and `Snapshot()`.
- `ReportCalls.dfy`: the 17 setter calls as a datatype `Call`. `Step` gives
  what one call does to a report value. `Run` and `Replay` give what a chain
  of calls does. The lemmas cover frames, repeated calls, last-title-wins,
  list accumulation and when `Build()` succeeds.
- `Builders.dfy`: the class `SalesReportBuilder`. It holds a `const report`,
  because the C# field `_report` is never reassigned. Its 17 setters each
  `modifies report` and state the whole new `Snapshot()`. `Build()` changes
  nothing.
- `Scenarios.dfy`: client code verified against the contracts alone.
  - `Perform` proves that each setter does what `Step` says, and
    `PerformAll` that a whole chain of setter calls does what `Run` says.
  - `BuildAfter` runs a chain of calls on a fresh builder and then `Build()`:
    it succeeds exactly when the last `SetTitle` passed a title neither null
    nor empty, and the report carries that title.
  - `MonthlySales` replays the first call chain of the demo program.
  - The other methods cover: a short chain with defaults everywhere else,
    `Build()` failing without a title, the default argument values,
    accumulating columns, two independent builders, and a built report that
    shows later setter calls.

Modelling choices:

- The builder in `src/Builders/SalesReportBuilder.cs` uses a `SalesReport`
  class from a `Models` namespace whose file is not part of this model. The
  model assumes it has the shape of the `SalesReport` in
  `src/Challenge.cs:117-193`, including the parameterless constructor that
  allocates the two empty lists.
- Every C# `string` is a `Text = Option<string>`. This includes setter
  arguments and list elements, because any of them may be null. The
  parameterless constructor leaves every string property null.
- `DateTime` is `Date(ticks)`. `default(DateTime)` is zero ticks. No
  ordering or arithmetic on dates is used.
- The C# lists are `seq<Text>` fields. `AddRange` becomes reassignment with
  the arguments appended.
- Default argument values are Dafny default parameters: `true` for the
  header, footer, summary, totals and page-numbers flags, and `"Bar"` for
  the chart type. They match `src/Interfaces/ISalesReportBuilder.cs:11-22`.

Two facts about the code that a reader might not expect:

- `Build()` returns the builder's own `_report` object, not a copy. Repeated
  builds therefore share it, and later setter calls show through a report
  that was already built (`Scenarios.BuildSharesReport`). So `Build()`
  ensures `r.value == report`.
- An unset string property is null (`None`), not empty.

## Model

| member | source | states |
|---|---|---|
| Models.SalesReport.constructor | src/Challenge.cs:189-193 | a new report has empty column and filter lists, null strings, false flags and MinValue dates, so its title fails the `Build()` guard |
| Models.SalesReport.WithAll | src/Challenge.cs:142-186 | the telescoping constructor stores each of its 21 arguments in the property of the same name, the lists as the values given |
| Builders.SalesReportBuilder.constructor | src/Builders/SalesReportBuilder.cs:9 | each builder allocates a fresh report of its own, in the default state, so two builders never share a report |
| Builders.SalesReportBuilder.SetTitle | src/Builders/SalesReportBuilder.cs:11-15 | returns the same builder; the title becomes the argument and every other report property is unchanged |
| Builders.SalesReportBuilder.SetFormat | src/Builders/SalesReportBuilder.cs:17-21 | returns the same builder; only the format changes, to the argument |
| Builders.SalesReportBuilder.SetDateRange | src/Builders/SalesReportBuilder.cs:23-28 | returns the same builder; start and end dates become the arguments with no ordering check; nothing else changes |
| Builders.SalesReportBuilder.SetHeader | src/Builders/SalesReportBuilder.cs:30-35 | returns the same builder; header text and flag become the arguments, and the flag is true when omitted; nothing else changes |
| Builders.SalesReportBuilder.SetFooter | src/Builders/SalesReportBuilder.cs:37-42 | returns the same builder; footer text and flag become the arguments, and the flag is true when omitted; nothing else changes |
| Builders.SalesReportBuilder.SetChart | src/Builders/SalesReportBuilder.cs:44-49 | returns the same builder; chart flag and type become the arguments, and the type is "Bar" when omitted; nothing else changes |
| Builders.SalesReportBuilder.SetColumns | src/Builders/SalesReportBuilder.cs:51-55 | returns the same builder; the columns become the old columns followed by the arguments in order; nothing else changes |
| Builders.SalesReportBuilder.SetFilters | src/Builders/SalesReportBuilder.cs:57-61 | returns the same builder; the filters become the old filters followed by the arguments in order; nothing else changes |
| Builders.SalesReportBuilder.SetSummary | src/Builders/SalesReportBuilder.cs:63-67 | returns the same builder; only the summary flag changes, to the argument, which is true when omitted |
| Builders.SalesReportBuilder.SetSortBy | src/Builders/SalesReportBuilder.cs:69-73 | returns the same builder; only the sort column changes, to the argument |
| Builders.SalesReportBuilder.SetGroupBy | src/Builders/SalesReportBuilder.cs:75-79 | returns the same builder; only the group column changes, to the argument |
| Builders.SalesReportBuilder.SetTotals | src/Builders/SalesReportBuilder.cs:81-85 | returns the same builder; only the totals flag changes, to the argument, which is true when omitted |
| Builders.SalesReportBuilder.SetOrientation | src/Builders/SalesReportBuilder.cs:87-91 | returns the same builder; only the orientation changes, to the argument |
| Builders.SalesReportBuilder.SetPageSize | src/Builders/SalesReportBuilder.cs:93-97 | returns the same builder; only the page size changes, to the argument |
| Builders.SalesReportBuilder.SetPageNumbers | src/Builders/SalesReportBuilder.cs:99-103 | returns the same builder; only the page-numbers flag changes, to the argument, which is true when omitted |
| Builders.SalesReportBuilder.SetCompanyLogo | src/Builders/SalesReportBuilder.cs:105-109 | returns the same builder; only the logo path changes, to the argument |
| Builders.SalesReportBuilder.SetWaterMark | src/Builders/SalesReportBuilder.cs:111-115 | returns the same builder; only the watermark changes, to the argument |
| Builders.SalesReportBuilder.Build | src/Builders/SalesReportBuilder.cs:117-123 | fails, with the title-required error, exactly when the title is null or empty; otherwise returns the builder's own report object, not a copy; changes no state |
| ReportCalls.StepFrame | src/Challenge.cs:18-107 | a setter leaves every property outside the one, or the pair, it names unchanged (checked against an independent list of the properties each setter writes) |
| ReportCalls.StepTwice | src/Builders/SalesReportBuilder.cs:51-61 | repeating a setter call with the same arguments changes nothing, except for the list setters, where the repeat changes the report exactly when it appends something |
| ReportCalls.StepTitle | src/Builders/SalesReportBuilder.cs:11-15 | only `SetTitle` changes the title |
| ReportCalls.StepList | src/Challenge.cs:53-62 | only a list's own setter changes that list, and it appends its arguments |
| ReportCalls.RunTitle | src/Builders/SalesReportBuilder.cs:11-15 | after any chain of calls, the title is the argument of the last `SetTitle` call |
| ReportCalls.RunKeepsTitle | src/Builders/SalesReportBuilder.cs:11-15 | a chain of calls without `SetTitle` leaves the title as it was |
| ReportCalls.RunAppends | src/Challenge.cs:53-62 | after any chain of calls, each list is its old contents followed by every argument passed to its setter, in call order, so the calls accumulate |
| ReportCalls.ReplayBuildable | src/Builders/SalesReportBuilder.cs:117-122 | the `Build()` guard holds on the report `Replay` gives for a chain of calls exactly when the last `SetTitle` call passed a title that is neither null nor empty; with no `SetTitle` it fails |
| Scenarios.Perform | src/Builders/SalesReportBuilder.cs:11-115 | each of the 17 setters changes the report exactly as `Step` says its call does |
| Scenarios.PerformAll | src/Builders/SalesReportBuilder.cs:11-115 | a chain of setter calls on a builder leaves the report that `Run` gives for those calls |
| Scenarios.BuildAfter | src/Builders/SalesReportBuilder.cs:117-122 | on a fresh builder, `Build()` after a chain of setter calls succeeds exactly when the last `SetTitle` call passed a title neither null nor empty, and the returned report has that title |

## Left out

- `SalesReport.Generate()` (`src/Challenge.cs:195-219`) is left out. It only writes formatted text to the console.
- Both `Program.Main` entry points are left out. They are demo wiring plus console output. Their first call chain is replayed as `Scenarios.MonthlySales`.
- The exception type and its message text are not modelled. The failure is the single error value `BuildError.TitleRequired`.
- `ISalesReportBuilder` is not modelled as a separate type. It adds static typing and the default argument values. The defaults are the same in the class and the interface, and the model uses them.
- The `params` array mechanics are not modelled. The arguments are a `seq`. A null array, for which `AddRange` would throw, cannot be passed.
- Models.SalesReport.WithAll: null list arguments cannot be passed, and the lists are stored as values, not as the caller's `List` references. In C# a later change to such a list would show in the report; the model does not capture that aliasing.
- `DateTime` semantics are not modelled. Dates are opaque tick counts.
- The report's fields are public, as the C# properties are, but the model does not exercise assignments to them by code other than the builder. Such code can still change a built report.
