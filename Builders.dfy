/**
 * The fluent builder. It owns one report object, which every setter updates
 * in place before returning the builder itself, and which `Build()` hands
 * out, after checking the title, without copying it.
 */
module Builders {
  import opened Wrappers
  import opened Models
  import opened ReportCalls

  /** The only failure: `Build()` on a report whose title is null or empty. */
  datatype BuildError = TitleRequired

  class SalesReportBuilder {
    /** The report under construction; the builder never replaces it. */
    const report: SalesReport

    /** Each builder allocates a report of its own, in its default state. */
    constructor ()
      ensures fresh(report)
      ensures report.Snapshot() == Defaults()
    {
      report := new SalesReport();
    }

    // Each setter assigns its own properties of the report and returns the builder.

    method SetTitle(title: Text) returns (builder: SalesReportBuilder)
      modifies report
      ensures builder == this
      ensures report.title == title
      ensures report.Snapshot() == old(report.Snapshot()).(title := title)
    {
      report.title := title;
      builder := this;
    }

    method SetFormat(format: Text) returns (builder: SalesReportBuilder)
      modifies report
      ensures builder == this
      ensures report.format == format
      ensures report.Snapshot() == old(report.Snapshot()).(format := format)
    {
      report.format := format;
      builder := this;
    }

    /** Stores both dates as given; their order is not checked. */
    method SetDateRange(start: Date, end: Date) returns (builder: SalesReportBuilder)
      modifies report
      ensures builder == this
      ensures report.startDate == start && report.endDate == end
      ensures report.Snapshot() == old(report.Snapshot()).(startDate := start, endDate := end)
    {
      report.startDate := start;
      report.endDate := end;
      builder := this;
    }

    /** Text and flag together; the flag defaults to true. */
    method SetHeader(text: Text, show: bool := true) returns (builder: SalesReportBuilder)
      modifies report
      ensures builder == this
      ensures report.headerText == text && report.includeHeader == show
      ensures report.Snapshot() == old(report.Snapshot()).(headerText := text, includeHeader := show)
    {
      report.headerText := text;
      report.includeHeader := show;
      builder := this;
    }

    /** Text and flag together; the flag defaults to true. */
    method SetFooter(text: Text, show: bool := true) returns (builder: SalesReportBuilder)
      modifies report
      ensures builder == this
      ensures report.footerText == text && report.includeFooter == show
      ensures report.Snapshot() == old(report.Snapshot()).(footerText := text, includeFooter := show)
    {
      report.footerText := text;
      report.includeFooter := show;
      builder := this;
    }

    /** Flag and chart type together; the type defaults to "Bar". */
    method SetChart(show: bool, chartType: Text := Some("Bar")) returns (builder: SalesReportBuilder)
      modifies report
      ensures builder == this
      ensures report.includeCharts == show && report.chartType == chartType
      ensures report.Snapshot() == old(report.Snapshot()).(includeCharts := show, chartType := chartType)
    {
      report.includeCharts := show;
      report.chartType := chartType;
      builder := this;
    }

    /** Appends the arguments, in order, to the columns already there. */
    method SetColumns(columns: seq<Text>) returns (builder: SalesReportBuilder)
      modifies report
      ensures builder == this
      ensures report.columns == old(report.columns) + columns
      ensures report.Snapshot() == old(report.Snapshot()).(columns := old(report.columns) + columns)
    {
      report.columns := report.columns + columns;
      builder := this;
    }

    /** Appends the arguments, in order, to the filters already there. */
    method SetFilters(filters: seq<Text>) returns (builder: SalesReportBuilder)
      modifies report
      ensures builder == this
      ensures report.filters == old(report.filters) + filters
      ensures report.Snapshot() == old(report.Snapshot()).(filters := old(report.filters) + filters)
    {
      report.filters := report.filters + filters;
      builder := this;
    }

    method SetSummary(show: bool := true) returns (builder: SalesReportBuilder)
      modifies report
      ensures builder == this
      ensures report.includeSummary == show
      ensures report.Snapshot() == old(report.Snapshot()).(includeSummary := show)
    {
      report.includeSummary := show;
      builder := this;
    }

    method SetSortBy(column: Text) returns (builder: SalesReportBuilder)
      modifies report
      ensures builder == this
      ensures report.sortBy == column
      ensures report.Snapshot() == old(report.Snapshot()).(sortBy := column)
    {
      report.sortBy := column;
      builder := this;
    }

    method SetGroupBy(column: Text) returns (builder: SalesReportBuilder)
      modifies report
      ensures builder == this
      ensures report.groupBy == column
      ensures report.Snapshot() == old(report.Snapshot()).(groupBy := column)
    {
      report.groupBy := column;
      builder := this;
    }

    method SetTotals(show: bool := true) returns (builder: SalesReportBuilder)
      modifies report
      ensures builder == this
      ensures report.includeTotals == show
      ensures report.Snapshot() == old(report.Snapshot()).(includeTotals := show)
    {
      report.includeTotals := show;
      builder := this;
    }

    method SetOrientation(orientation: Text) returns (builder: SalesReportBuilder)
      modifies report
      ensures builder == this
      ensures report.orientation == orientation
      ensures report.Snapshot() == old(report.Snapshot()).(orientation := orientation)
    {
      report.orientation := orientation;
      builder := this;
    }

    method SetPageSize(size: Text) returns (builder: SalesReportBuilder)
      modifies report
      ensures builder == this
      ensures report.pageSize == size
      ensures report.Snapshot() == old(report.Snapshot()).(pageSize := size)
    {
      report.pageSize := size;
      builder := this;
    }

    method SetPageNumbers(show: bool := true) returns (builder: SalesReportBuilder)
      modifies report
      ensures builder == this
      ensures report.includePageNumbers == show
      ensures report.Snapshot() == old(report.Snapshot()).(includePageNumbers := show)
    {
      report.includePageNumbers := show;
      builder := this;
    }

    method SetCompanyLogo(logoPath: Text) returns (builder: SalesReportBuilder)
      modifies report
      ensures builder == this
      ensures report.companyLogo == logoPath
      ensures report.Snapshot() == old(report.Snapshot()).(companyLogo := logoPath)
    {
      report.companyLogo := logoPath;
      builder := this;
    }

    method SetWaterMark(text: Text) returns (builder: SalesReportBuilder)
      modifies report
      ensures builder == this
      ensures report.waterMark == text
      ensures report.Snapshot() == old(report.Snapshot()).(waterMark := text)
    {
      report.waterMark := text;
      builder := this;
    }

    /**
     * Fails exactly when the title is null or empty; otherwise returns the
     * builder's own report object, not a copy. Changes nothing.
     */
    method Build() returns (r: Result<SalesReport, BuildError>)
      ensures r.Ok? <==> Buildable(report.Snapshot())
      ensures r.Err? ==> r.error == TitleRequired
      ensures r.Ok? ==> r.value == report
    {
      if IsNullOrEmpty(report.title) {
        return Err(TitleRequired);
      }
      return Ok(report);
    }
  }
}
