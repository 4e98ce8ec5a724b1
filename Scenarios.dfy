/**
 * Client code written against the builder's contracts alone: the call
 * chains of the demo program and the behaviours a caller can rely on.
 */
module Scenarios {
  import opened Wrappers
  import opened Models
  import opened ReportCalls
  import opened Builders

  /** The first chain of the demo program: every setter, then `Build()`. */
  method MonthlySales(jan1: Date, jan31: Date) returns (report: SalesReport)
  {
    var b := new SalesReportBuilder();
    b := b.SetTitle(Some("Vendas Mensais"));
    b := b.SetFormat(Some("PDF"));
    b := b.SetDateRange(jan1, jan31);
    b := b.SetHeader(Some("Relatório de Vendas"));
    b := b.SetFooter(Some("Confidencial"));
    b := b.SetChart(true, Some("Bar"));
    b := b.SetColumns([Some("Produto"), Some("Quantidade"), Some("Valor")]);
    b := b.SetFilters([Some("Status=Ativo")]);
    b := b.SetSummary(true);
    b := b.SetSortBy(Some("Valor"));
    b := b.SetGroupBy(Some("Categoria"));
    b := b.SetTotals(true);
    b := b.SetOrientation(Some("Portrait"));
    b := b.SetPageSize(Some("A4"));
    b := b.SetPageNumbers(true);
    b := b.SetCompanyLogo(Some("logo.png"));
    b := b.SetWaterMark(Some("Confidencial"));
    var r := b.Build();
    assert r.Ok?;
    report := r.value;
    assert report.title == Some("Vendas Mensais") && report.format == Some("PDF");
    assert report.startDate == jan1 && report.endDate == jan31;
    assert report.includeHeader && report.headerText == Some("Relatório de Vendas");
    assert report.includeFooter && report.footerText == Some("Confidencial");
    assert report.includeCharts && report.chartType == Some("Bar");
    assert report.columns == [Some("Produto"), Some("Quantidade"), Some("Valor")];
    assert report.filters == [Some("Status=Ativo")];
    assert report.includeSummary && report.includeTotals && report.includePageNumbers;
    assert report.sortBy == Some("Valor") && report.groupBy == Some("Categoria");
    assert report.orientation == Some("Portrait") && report.pageSize == Some("A4");
    assert report.companyLogo == Some("logo.png") && report.waterMark == Some("Confidencial");
  }

  /**
   * Each setter does to the report exactly what `Step` says its call does,
   * so a chain of setter calls leaves the report `Run` describes.
   */
  method Perform(b: SalesReportBuilder, c: Call)
    modifies b.report
    ensures b.report.Snapshot() == Step(old(b.report.Snapshot()), c)
  {
    if c.AssignsText() {
      PerformText(b, c);
    } else if c.AssignsFlagOrPair() {
      PerformFlagOrPair(b, c);
    } else {
      match c
      case SetColumns(xs) => var _ := b.SetColumns(xs);
      case SetFilters(xs) => var _ := b.SetFilters(xs);
    }
  }

  method PerformText(b: SalesReportBuilder, c: Call)
    requires c.AssignsText()
    modifies b.report
    ensures b.report.Snapshot() == Step(old(b.report.Snapshot()), c)
  {
    match c
    case SetTitle(t) => var _ := b.SetTitle(t);
    case SetFormat(f) => var _ := b.SetFormat(f);
    case SetSortBy(col) => var _ := b.SetSortBy(col);
    case SetGroupBy(col) => var _ := b.SetGroupBy(col);
    case SetOrientation(o) => var _ := b.SetOrientation(o);
    case SetPageSize(size) => var _ := b.SetPageSize(size);
    case SetCompanyLogo(path) => var _ := b.SetCompanyLogo(path);
    case SetWaterMark(t) => var _ := b.SetWaterMark(t);
  }

  method PerformFlagOrPair(b: SalesReportBuilder, c: Call)
    requires c.AssignsFlagOrPair()
    modifies b.report
    ensures b.report.Snapshot() == Step(old(b.report.Snapshot()), c)
  {
    match c
    case SetSummary(show) => var _ := b.SetSummary(show);
    case SetTotals(show) => var _ := b.SetTotals(show);
    case SetPageNumbers(show) => var _ := b.SetPageNumbers(show);
    case SetDateRange(s, e) => var _ := b.SetDateRange(s, e);
    case SetHeader(t, show) => var _ := b.SetHeader(t, show);
    case SetFooter(t, show) => var _ := b.SetFooter(t, show);
    case SetChart(show, t) => var _ := b.SetChart(show, t);
  }

  /** A whole chain of setter calls leaves the report that `Run` gives. */
  method PerformAll(b: SalesReportBuilder, calls: seq<Call>)
    modifies b.report
    ensures b.report.Snapshot() == Run(old(b.report.Snapshot()), calls)
  {
    ghost var start := b.report.Snapshot();
    for i := 0 to |calls|
      invariant b.report.Snapshot() == Run(start, calls[..i])
    {
      Perform(b, calls[i]);
      assert calls[..i + 1][..i] == calls[..i];
    }
    assert calls[..|calls|] == calls;
  }

  /**
   * A fresh builder that makes the calls and then `Build()`s succeeds exactly
   * when the last `SetTitle` call passed a title neither null nor empty, and
   * the report it returns carries that title.
   */
  method BuildAfter(calls: seq<Call>) returns (r: Result<SalesReport, BuildError>)
    ensures r.Ok? <==> exists i :: IsLastTitleCall(calls, i) && !IsNullOrEmpty(calls[i].title)
    ensures forall i :: IsLastTitleCall(calls, i) && r.Ok? ==> r.value.title == calls[i].title
  {
    var b := new SalesReportBuilder();
    PerformAll(b, calls);
    assert b.report.Snapshot() == Replay(calls);
    ReplayBuildable(calls);
    forall i | IsLastTitleCall(calls, i)
      ensures b.report.title == calls[i].title
    {
      RunTitle(Defaults(), calls, i);
    }
    r := b.Build();
  }

  /** A short chain: the fields it sets, and the defaults everywhere else. */
  method ShortChain() returns (report: SalesReport)
  {
    var b := new SalesReportBuilder();
    b := b.SetTitle(Some("Vendas Mensais"));
    b := b.SetFormat(Some("PDF"));
    b := b.SetColumns([Some("Produto"), Some("Valor")]);
    var r := b.Build();
    assert r.Ok?;
    report := r.value;
    assert report.Snapshot() == Defaults().(
      title := Some("Vendas Mensais"), format := Some("PDF"),
      columns := [Some("Produto"), Some("Valor")]);
  }

  /** Without a title, or with an empty one, `Build()` fails. */
  method TitleIsRequired()
  {
    var b := new SalesReportBuilder();
    b := b.SetFormat(Some("PDF"));
    var r := b.Build();
    assert r == Err(BuildError.TitleRequired);
    b := b.SetTitle(Some(""));
    r := b.Build();
    assert r.Err?;
    b := b.SetTitle(Some("Vendas"));
    r := b.Build();
    assert r.Ok?;
  }

  /** Omitted flags default to true and an omitted chart type to "Bar". */
  method OptionalArguments()
  {
    var b := new SalesReportBuilder();
    b := b.SetHeader(Some("X"));
    assert b.report.includeHeader && b.report.headerText == Some("X");
    b := b.SetHeader(Some("X"), false);
    assert !b.report.includeHeader && b.report.headerText == Some("X");
    b := b.SetFooter(Some("Y"));
    assert b.report.includeFooter;
    b := b.SetChart(true);
    assert b.report.includeCharts && b.report.chartType == Some("Bar");
    b := b.SetSummary();
    b := b.SetTotals();
    b := b.SetPageNumbers();
    assert b.report.includeSummary && b.report.includeTotals && b.report.includePageNumbers;
  }

  /** Two calls of a list setter accumulate. */
  method ColumnsAccumulate()
  {
    var b := new SalesReportBuilder();
    b := b.SetColumns([Some("A"), Some("B")]);
    b := b.SetColumns([Some("C")]);
    assert b.report.columns == [Some("A"), Some("B"), Some("C")];
    assert b.report.filters == [];
  }

  /** Two builders own two reports: changing one leaves the other alone. */
  method IndependentBuilders()
  {
    var first := new SalesReportBuilder();
    var second := new SalesReportBuilder();
    assert first.report != second.report;
    first := first.SetTitle(Some("Vendas"));
    first := first.SetColumns([Some("Produto")]);
    assert second.report.Snapshot() == Defaults();
  }

  /**
   * `Build()` hands out the builder's own report, so repeated calls return
   * the same object and later setter calls show through an earlier result.
   */
  method BuildSharesReport()
  {
    var b := new SalesReportBuilder();
    b := b.SetTitle(Some("Vendas"));
    var r1 := b.Build();
    var r2 := b.Build();
    assert r1.Ok? && r2.Ok? && r1.value == r2.value;
    b := b.SetTitle(Some(""));
    assert r1.value.title == Some("");
    var r3 := b.Build();
    assert r3.Err?;
  }
}
