/**
 * The builder's setters as values, what each one does to a report, and
 * what a whole chain of setter calls leaves behind.
 */
module ReportCalls {
  import opened Wrappers
  import opened Models

  /** One call of a builder setter, with the arguments it receives. */
  datatype Call =
    | SetTitle(title: Text)
    | SetFormat(format: Text)
    | SetDateRange(start: Date, end: Date)
    | SetHeader(text: Text, show: bool)
    | SetFooter(text: Text, show: bool)
    | SetChart(show: bool, chartType: Text)
    | SetColumns(columns: seq<Text>)
    | SetFilters(filters: seq<Text>)
    | SetSummary(show: bool)
    | SetSortBy(column: Text)
    | SetGroupBy(column: Text)
    | SetTotals(show: bool)
    | SetOrientation(orientation: Text)
    | SetPageSize(size: Text)
    | SetPageNumbers(show: bool)
    | SetCompanyLogo(logoPath: Text)
    | SetWaterMark(text: Text)
  {
    /** The setters that assign a single string property. */
    predicate AssignsText() {
      SetTitle? || SetFormat? || SetSortBy? || SetGroupBy? ||
      SetOrientation? || SetPageSize? || SetCompanyLogo? || SetWaterMark?
    }

    /** The setters that assign a single flag, or a pair of properties. */
    predicate AssignsFlagOrPair() {
      SetSummary? || SetTotals? || SetPageNumbers? ||
      SetDateRange? || SetHeader? || SetFooter? || SetChart?
    }
  }

  /** The report after one setter call: the call's own fields change, nothing else. */
  function Step(v: ReportValue, c: Call): ReportValue {
    match c
    case SetTitle(t) => v.(title := t)
    case SetFormat(f) => v.(format := f)
    case SetDateRange(s, e) => v.(startDate := s, endDate := e)
    case SetHeader(t, show) => v.(headerText := t, includeHeader := show)
    case SetFooter(t, show) => v.(footerText := t, includeFooter := show)
    case SetChart(show, t) => v.(includeCharts := show, chartType := t)
    case SetColumns(xs) => v.(columns := v.columns + xs)
    case SetFilters(xs) => v.(filters := v.filters + xs)
    case SetSummary(show) => v.(includeSummary := show)
    case SetSortBy(col) => v.(sortBy := col)
    case SetGroupBy(col) => v.(groupBy := col)
    case SetTotals(show) => v.(includeTotals := show)
    case SetOrientation(o) => v.(orientation := o)
    case SetPageSize(size) => v.(pageSize := size)
    case SetPageNumbers(show) => v.(includePageNumbers := show)
    case SetCompanyLogo(path) => v.(companyLogo := path)
    case SetWaterMark(t) => v.(waterMark := t)
  }

  /** The report after the calls, made in order, starting from `v`. */
  function Run(v: ReportValue, calls: seq<Call>): ReportValue
    decreases |calls|
  {
    if calls == [] then v
    else Step(Run(v, calls[..|calls| - 1]), calls[|calls| - 1])
  }

  /** The report of a fresh builder after the calls. */
  function Replay(calls: seq<Call>): ReportValue {
    Run(Defaults(), calls)
  }

  /** The guard of `Build()`: a title that is neither null nor empty. */
  predicate Buildable(v: ReportValue) {
    !IsNullOrEmpty(v.title)
  }

  // ---------------------------------------------------------------------
  // Frames: an independent list of the fields each setter writes.

  /** The properties of a report, by name. */
  datatype Field =
    | Title | Format | StartDate | EndDate | IncludeHeader | IncludeFooter
    | HeaderText | FooterText | IncludeCharts | ChartType | IncludeSummary
    | Columns | Filters | SortBy | GroupBy | IncludeTotals | Orientation
    | PageSize | IncludePageNumbers | CompanyLogo | WaterMark

  /** The value held by one property. */
  datatype FieldValue =
    | TextValue(text: Text)
    | BoolValue(flag: bool)
    | DateValue(date: Date)
    | ListValue(items: seq<Text>)

  function Get(v: ReportValue, f: Field): FieldValue {
    match f
    case Title => TextValue(v.title)
    case Format => TextValue(v.format)
    case StartDate => DateValue(v.startDate)
    case EndDate => DateValue(v.endDate)
    case IncludeHeader => BoolValue(v.includeHeader)
    case IncludeFooter => BoolValue(v.includeFooter)
    case HeaderText => TextValue(v.headerText)
    case FooterText => TextValue(v.footerText)
    case IncludeCharts => BoolValue(v.includeCharts)
    case ChartType => TextValue(v.chartType)
    case IncludeSummary => BoolValue(v.includeSummary)
    case Columns => ListValue(v.columns)
    case Filters => ListValue(v.filters)
    case SortBy => TextValue(v.sortBy)
    case GroupBy => TextValue(v.groupBy)
    case IncludeTotals => BoolValue(v.includeTotals)
    case Orientation => TextValue(v.orientation)
    case PageSize => TextValue(v.pageSize)
    case IncludePageNumbers => BoolValue(v.includePageNumbers)
    case CompanyLogo => TextValue(v.companyLogo)
    case WaterMark => TextValue(v.waterMark)
  }

  /** Whether a setter assigns property `f`: each assigns one, or a text+flag or start+end pair. */
  predicate Writes(c: Call, f: Field) {
    match c
    case SetTitle(_) => f == Title
    case SetFormat(_) => f == Format
    case SetDateRange(_, _) => f == StartDate || f == EndDate
    case SetHeader(_, _) => f == HeaderText || f == IncludeHeader
    case SetFooter(_, _) => f == FooterText || f == IncludeFooter
    case SetChart(_, _) => f == IncludeCharts || f == ChartType
    case SetColumns(_) => f == Columns
    case SetFilters(_) => f == Filters
    case SetSummary(_) => f == IncludeSummary
    case SetSortBy(_) => f == SortBy
    case SetGroupBy(_) => f == GroupBy
    case SetTotals(_) => f == IncludeTotals
    case SetOrientation(_) => f == Orientation
    case SetPageSize(_) => f == PageSize
    case SetPageNumbers(_) => f == IncludePageNumbers
    case SetCompanyLogo(_) => f == CompanyLogo
    case SetWaterMark(_) => f == WaterMark
  }

  /** Which of the two list properties. */
  datatype ListKind = ColumnList | FilterList

  function ListOf(v: ReportValue, k: ListKind): seq<Text> {
    match k
    case ColumnList => v.columns
    case FilterList => v.filters
  }

  /** What one call passes to the list `k`'s setter (nothing for other setters). */
  function Added(c: Call, k: ListKind): seq<Text> {
    match (c, k)
    case (SetColumns(xs), ColumnList) => xs
    case (SetFilters(xs), FilterList) => xs
    case _ => []
  }

  /** A setter leaves every property outside its own ones as it was. */
  lemma StepFrame(v: ReportValue, c: Call, f: Field)
    requires !Writes(c, f)
    ensures Get(Step(v, c), f) == Get(v, f)
  {
    if c.AssignsText() {
      TextStepFrame(v, c, f);
    } else if c.AssignsFlagOrPair() {
      FlagOrPairStepFrame(v, c, f);
    }
  }

  lemma TextStepFrame(v: ReportValue, c: Call, f: Field)
    requires c.AssignsText() && !Writes(c, f)
    ensures Get(Step(v, c), f) == Get(v, f)
  {
  }

  lemma FlagOrPairStepFrame(v: ReportValue, c: Call, f: Field)
    requires c.AssignsFlagOrPair() && !Writes(c, f)
    ensures Get(Step(v, c), f) == Get(v, f)
  {
  }

  /**
   * Calling a setter twice with the same arguments is the same as calling it
   * once, except for the list setters, which append again: for these the
   * second call changes the report exactly when it appends something.
   */
  lemma StepTwice(v: ReportValue, c: Call)
    ensures Step(Step(v, c), c) == Step(v, c) <==>
            !((c.SetColumns? && c.columns != []) || (c.SetFilters? && c.filters != []))
  {
    if c.SetColumns? || c.SetFilters? {
      var k := if c.SetColumns? then ColumnList else FilterList;
      var once := Step(v, c);
      StepList(v, c, k);
      StepList(once, c, k);
      assert |ListOf(Step(once, c), k)| == |ListOf(once, k)| + |Added(c, k)|;
      if Added(c, k) == [] {
        assert ListOf(once, k) + Added(c, k) == ListOf(once, k);
      }
    }
  }

  // ---------------------------------------------------------------------
  // Chains of calls.

  /** Only `SetTitle` writes the title. */
  lemma StepTitle(v: ReportValue, c: Call)
    ensures Step(v, c).title == if c.SetTitle? then c.title else v.title
  {
  }

  /** The title after a non-empty chain, in terms of its last call. */
  lemma RunLastTitle(v: ReportValue, calls: seq<Call>)
    requires calls != []
    ensures Run(v, calls).title ==
            if calls[|calls| - 1].SetTitle? then calls[|calls| - 1].title
            else Run(v, calls[..|calls| - 1]).title
  {
    StepTitle(Run(v, calls[..|calls| - 1]), calls[|calls| - 1]);
  }

  /** Only the list's own setter writes a list, and it appends its arguments. */
  lemma StepList(v: ReportValue, c: Call, k: ListKind)
    ensures ListOf(Step(v, c), k) == ListOf(v, k) + Added(c, k)
  {
    match c
    case SetColumns(_) =>
    case SetFilters(_) =>
    case _ => assert Added(c, k) == [];
  }

  /** `i` is the position of the last `SetTitle` call in `calls`. */
  predicate IsLastTitleCall(calls: seq<Call>, i: int) {
    0 <= i < |calls| && calls[i].SetTitle? &&
    forall j :: i < j < |calls| ==> !calls[j].SetTitle?
  }

  /**
   * The last `SetTitle` wins: after a chain of calls the title is the
   * argument of the last `SetTitle` call.
   */
  lemma {:induction false} RunTitle(v: ReportValue, calls: seq<Call>, i: int)
    requires IsLastTitleCall(calls, i)
    ensures Run(v, calls).title == calls[i].title
    decreases |calls|
  {
    var n := |calls| - 1;
    RunLastTitle(v, calls);
    if i < n {
      assert calls[..n][i] == calls[i];
      assert IsLastTitleCall(calls[..n], i);
      RunTitle(v, calls[..n], i);
    }
  }

  /** A chain without `SetTitle` keeps the title it started with. */
  lemma {:induction false} RunKeepsTitle(v: ReportValue, calls: seq<Call>)
    requires forall i :: 0 <= i < |calls| ==> !calls[i].SetTitle?
    ensures Run(v, calls).title == v.title
    decreases |calls|
  {
    if calls != [] {
      var n := |calls| - 1;
      RunLastTitle(v, calls);
      assert forall i :: 0 <= i < n ==> calls[..n][i] == calls[i];
      RunKeepsTitle(v, calls[..n]);
    }
  }

  /** Everything the calls pass to list `k`'s setter, concatenated in call order. */
  function AllAdded(calls: seq<Call>, k: ListKind): seq<Text>
    decreases |calls|
  {
    if calls == [] then [] else Added(calls[0], k) + AllAdded(calls[1..], k)
  }

  lemma {:induction false} AllAddedSnoc(calls: seq<Call>, c: Call, k: ListKind)
    ensures AllAdded(calls + [c], k) == AllAdded(calls, k) + Added(c, k)
    decreases |calls|
  {
    if calls == [] {
      assert [c][1..] == [];
    } else {
      assert (calls + [c])[1..] == calls[1..] + [c];
      AllAddedSnoc(calls[1..], c, k);
    }
  }

  /**
   * The list setters accumulate: after a chain of calls each list is what it
   * was followed by every argument passed to its setter, in call order.
   */
  lemma {:induction false} RunAppends(v: ReportValue, calls: seq<Call>, k: ListKind)
    ensures ListOf(Run(v, calls), k) == ListOf(v, k) + AllAdded(calls, k)
    decreases |calls|
  {
    if calls != [] {
      var n := |calls| - 1;
      RunAppends(v, calls[..n], k);
      StepList(Run(v, calls[..n]), calls[n], k);
      assert calls == calls[..n] + [calls[n]];
      AllAddedSnoc(calls[..n], calls[n], k);
    }
  }

  /**
   * A fresh builder's `Build()` succeeds after a chain of calls exactly when
   * the chain contains a `SetTitle` call and the last one passed a title that
   * is neither null nor empty; without any `SetTitle` it fails.
   */
  lemma ReplayBuildable(calls: seq<Call>)
    ensures Buildable(Replay(calls)) <==>
            exists i :: IsLastTitleCall(calls, i) && !IsNullOrEmpty(calls[i].title)
    ensures (forall i :: 0 <= i < |calls| ==> !calls[i].SetTitle?) ==> !Buildable(Replay(calls))
  {
    if forall i :: 0 <= i < |calls| ==> !calls[i].SetTitle? {
      RunKeepsTitle(Defaults(), calls);
    } else {
      LastTitleCallExists(calls);
      var i :| IsLastTitleCall(calls, i);
      RunTitle(Defaults(), calls, i);
      forall j | IsLastTitleCall(calls, j) ensures j == i {
        LastTitleCallUnique(calls, i, j);
      }
    }
  }

  /** There is at most one last `SetTitle` call. */
  lemma LastTitleCallUnique(calls: seq<Call>, i: int, j: int)
    requires IsLastTitleCall(calls, i) && IsLastTitleCall(calls, j)
    ensures i == j
  {
  }

  /** A chain with some `SetTitle` call has a last one. */
  lemma {:induction false} LastTitleCallExists(calls: seq<Call>)
    requires exists i :: 0 <= i < |calls| && calls[i].SetTitle?
    ensures exists i :: IsLastTitleCall(calls, i)
    decreases |calls|
  {
    var n := |calls| - 1;
    if !calls[n].SetTitle? {
      var i :| 0 <= i < |calls| && calls[i].SetTitle?;
      assert i < n && calls[..n][i] == calls[i];
      LastTitleCallExists(calls[..n]);
      var k :| IsLastTitleCall(calls[..n], k);
      assert calls[..n][k] == calls[k];
      assert IsLastTitleCall(calls, k);
    } else {
      assert IsLastTitleCall(calls, n);
    }
  }
}
