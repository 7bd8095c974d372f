/** The filter panel: its own copy of the filter state and what it reports to
    the dashboard through `onFilterChange`. */
module ComplaintFilter {
  import opened Filters
  import opened AdminDashboard

  class Panel {
    var filters: FilterOptions

    constructor ()
      ensures filters == EmptyFilters
    {
      filters := EmptyFilters;
    }

    /** One input changed: set that field and report only that key. */
    method HandleChange(field: FilterField, value: string) returns (report: PartialFilter)
      modifies this
      ensures filters == SetField(old(filters), field, value)
      ensures Get(filters, field) == value
      ensures forall g :: g != field ==> Get(filters, g) == Get(old(filters), g)
      ensures report == Single(field, value)
    {
      filters := SetField(filters, field, value);
      report := Single(field, value);
    }

    /** Reset: clear all five fields and report all five empty fields. */
    method HandleReset() returns (report: PartialFilter)
      modifies this
      ensures filters == EmptyFilters
      ensures report == Whole(EmptyFilters)
    {
      filters := EmptyFilters;
      report := Whole(EmptyFilters);
    }
  }

  /** The panel and the dashboard hold the same filters as long as the
      dashboard merges every report: after a change both set the same single
      field, and after a reset both are empty. */
  lemma ReportsKeepDashboardInSync(f: FilterOptions, field: FilterField, value: string)
    ensures Merge(f, Single(field, value)) == SetField(f, field, value)
    ensures Merge(f, Whole(EmptyFilters)) == EmptyFilters
  {
    MergeSingle(f, field, value);
    MergeWhole(f, EmptyFilters);
  }

  /** Resetting twice is resetting once, and after a reset the dashboard shows
      every complaint. */
  lemma ResetIdempotent(f: FilterOptions, complaints: seq<Records.Complaint>, clock: Clock)
    ensures Merge(Merge(f, Whole(EmptyFilters)), Whole(EmptyFilters)) == Merge(f, Whole(EmptyFilters))
    ensures Pipeline(complaints, Merge(f, Whole(EmptyFilters)), clock) == complaints
  {
    MergeWhole(f, EmptyFilters);
    MergeWhole(EmptyFilters, EmptyFilters);
    PipelineIdentity(complaints, EmptyFilters, clock);
  }

  /** A client of both components: one change in the panel, reported to the
      dashboard, leaves the two filter states equal. */
  method ChangeThroughPanel(panel: Panel, dashboard: Dashboard, field: FilterField, value: string)
    requires panel.filters == dashboard.filters
    modifies panel, dashboard
    ensures panel.filters == dashboard.filters
    ensures Get(dashboard.filters, field) == value
  {
    var report := panel.HandleChange(field, value);
    dashboard.HandleFilterChange(report);
    MergeSingle(old(dashboard.filters), field, value);
  }
}
