/**
 * The report descriptor that the builder fills in: a mutable object with
 * one property per configuration option, and its value-level snapshot.
 */
module Models {
  import opened Wrappers

  /** A C# `string`: a reference that may be null (`None`). */
  type Text = Option<string>

  /**
   * A C# `DateTime`, treated as an opaque instant measured in ticks.
   * `default(DateTime)` (DateTime.MinValue) is zero ticks.
   */
  datatype Date = Date(ticks: nat)

  const MIN_DATE: Date := Date(0)

  /** `string.IsNullOrEmpty`. */
  predicate IsNullOrEmpty(s: Text) {
    match s
    case None => true
    case Some(chars) => |chars| == 0
  }

  /** The contents of a `SalesReport` object at one moment, field by field. */
  datatype ReportValue = ReportValue(
    title: Text,
    format: Text,
    startDate: Date,
    endDate: Date,
    includeHeader: bool,
    includeFooter: bool,
    headerText: Text,
    footerText: Text,
    includeCharts: bool,
    chartType: Text,
    includeSummary: bool,
    columns: seq<Text>,
    filters: seq<Text>,
    sortBy: Text,
    groupBy: Text,
    includeTotals: bool,
    orientation: Text,
    pageSize: Text,
    includePageNumbers: bool,
    companyLogo: Text,
    waterMark: Text)

  /**
   * What the parameterless constructor leaves behind: two new empty lists,
   * every string property null, every flag false, both dates at MinValue.
   */
  function Defaults(): ReportValue {
    ReportValue(
      title := None, format := None,
      startDate := MIN_DATE, endDate := MIN_DATE,
      includeHeader := false, includeFooter := false,
      headerText := None, footerText := None,
      includeCharts := false, chartType := None,
      includeSummary := false,
      columns := [], filters := [],
      sortBy := None, groupBy := None,
      includeTotals := false,
      orientation := None, pageSize := None,
      includePageNumbers := false,
      companyLogo := None, waterMark := None)
  }

  /** The mutable report object; every property has a public getter and setter. */
  class SalesReport {
    var title: Text
    var format: Text
    var startDate: Date
    var endDate: Date
    var includeHeader: bool
    var includeFooter: bool
    var headerText: Text
    var footerText: Text
    var includeCharts: bool
    var chartType: Text
    var includeSummary: bool
    var columns: seq<Text>
    var filters: seq<Text>
    var sortBy: Text
    var groupBy: Text
    var includeTotals: bool
    var orientation: Text
    var pageSize: Text
    var includePageNumbers: bool
    var companyLogo: Text
    var waterMark: Text

    /** The object's current contents as a value. */
    function Snapshot(): ReportValue
      reads this
    {
      ReportValue(title, format, startDate, endDate, includeHeader, includeFooter,
                  headerText, footerText, includeCharts, chartType, includeSummary,
                  columns, filters, sortBy, groupBy, includeTotals, orientation,
                  pageSize, includePageNumbers, companyLogo, waterMark)
    }

    /** The parameterless constructor: empty lists and default values everywhere else. */
    constructor ()
      ensures Snapshot() == Defaults()
      ensures columns == [] && filters == []
      ensures IsNullOrEmpty(title)
    {
      title, format := None, None;
      startDate, endDate := MIN_DATE, MIN_DATE;
      includeHeader, includeFooter := false, false;
      headerText, footerText := None, None;
      includeCharts, chartType := false, None;
      includeSummary := false;
      columns, filters := [], [];
      sortBy, groupBy := None, None;
      includeTotals := false;
      orientation, pageSize := None, None;
      includePageNumbers := false;
      companyLogo, waterMark := None, None;
    }

    /** The telescoping constructor: each parameter goes to the property of the same name. */
    constructor WithAll(
      title: Text,
      format: Text,
      startDate: Date,
      endDate: Date,
      includeHeader: bool,
      includeFooter: bool,
      headerText: Text,
      footerText: Text,
      includeCharts: bool,
      chartType: Text,
      includeSummary: bool,
      columns: seq<Text>,
      filters: seq<Text>,
      sortBy: Text,
      groupBy: Text,
      includeTotals: bool,
      orientation: Text,
      pageSize: Text,
      includePageNumbers: bool,
      companyLogo: Text,
      waterMark: Text)
      ensures Snapshot() == ReportValue(
        title, format, startDate, endDate, includeHeader, includeFooter,
        headerText, footerText, includeCharts, chartType, includeSummary,
        columns, filters, sortBy, groupBy, includeTotals, orientation,
        pageSize, includePageNumbers, companyLogo, waterMark)
    {
      this.title := title;
      this.format := format;
      this.startDate := startDate;
      this.endDate := endDate;
      this.includeHeader := includeHeader;
      this.includeFooter := includeFooter;
      this.headerText := headerText;
      this.footerText := footerText;
      this.includeCharts := includeCharts;
      this.chartType := chartType;
      this.includeSummary := includeSummary;
      this.columns := columns;
      this.filters := filters;
      this.sortBy := sortBy;
      this.groupBy := groupBy;
      this.includeTotals := includeTotals;
      this.orientation := orientation;
      this.pageSize := pageSize;
      this.includePageNumbers := includePageNumbers;
      this.companyLogo := companyLogo;
      this.waterMark := waterMark;
    }
  }
}
