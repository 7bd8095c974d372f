/** The admin dashboard component: the filter effect that narrows the fetched
    complaints, the merge of partial filter updates, and the replace-by-id
    update after a successful status change. */
module AdminDashboard {
  import opened Wrappers
  import opened Sequences
  import opened Text
  import opened Records
  import opened Filters

  /** The instants the date filter needs. The calendar arithmetic
      (`setHours`, `setDate`, `setMonth`, `setFullYear`) is done by the host;
      the model receives its results. */
  datatype Clock = Clock(now: int, startOfToday: int, weekAgo: int, monthAgo: int, yearAgo: int)

  /** What the calendar guarantees about those instants: a year back is no
      later than a month back, which is no later than seven days back, which
      is before midnight today, which is no later than now. */
  predicate WellFormed(clock: Clock)
  {
    clock.yearAgo <= clock.monthAgo <= clock.weekAgo <= clock.startOfToday <= clock.now
  }

  /** The cutoff of the date-range filter. A key outside the four leaves
      `startDate` at the moment the effect ran. */
  function StartDate(clock: Clock, range: string): (start: int)
    ensures WellFormed(clock) ==> start <= clock.now
    ensures range != "today" && range != "week" && range != "month" && range != "year" ==> start == clock.now
  {
    match range
    case "today" => clock.startOfToday
    case "week" => clock.weekAgo
    case "month" => clock.monthAgo
    case "year" => clock.yearAgo
    case _ => clock.now
  }

  /** Every cutoff is at or before now, any key outside the four gives now,
      and the ranges nest: a shorter range
      never reaches further back than a longer one. */
  lemma StartDateBounds(clock: Clock)
    requires WellFormed(clock)
    ensures forall range :: StartDate(clock, range) <= clock.now
    ensures forall range :: range != "today" && range != "week" && range != "month" && range != "year" ==>
              StartDate(clock, range) == clock.now
    ensures StartDate(clock, "year") <= StartDate(clock, "month") <= StartDate(clock, "week") <= StartDate(clock, "today")
  {
  }

  /** The search predicate: the lower-cased query occurs in one of the four
      lower-cased text fields. */
  predicate SearchHit(c: Complaint, query: string)
    ensures query == "" ==> SearchHit(c, query)
  {
    var q := Lower(query);
    Contains(Lower(c.title), q) || Contains(Lower(c.description), q)
    || Contains(Lower(c.trackingId), q) || Contains(Lower(c.location), q)
  }

  function StatusIs(v: string): Complaint -> bool { (c: Complaint) => c.status == v }
  function CategoryIs(v: string): Complaint -> bool { (c: Complaint) => c.category == v }
  function AgencyIs(v: string): Complaint -> bool { (c: Complaint) => c.agency == v }
  function CreatedSince(start: int): Complaint -> bool { (c: Complaint) => c.createdAt >= start }
  function Searched(query: string): Complaint -> bool { (c: Complaint) => SearchHit(c, query) }

  /** One `if (value) result = result.filter(p)` step: an empty filter value
      is falsy and skips the step. */
  function Step(s: seq<Complaint>, value: string, p: Complaint -> bool): (r: seq<Complaint>)
    ensures |r| <= |s|
    ensures forall c :: c in r <==> c in s && (value == "" || p(c))
  {
    if value != "" then FilterSeq(s, p) else s
  }

  /** The filter effect as written: status, category, agency, date range and
      search applied one after another to a copy of `complaints`. */
  function Pipeline(complaints: seq<Complaint>, f: FilterOptions, clock: Clock): (r: seq<Complaint>)
    ensures |r| <= |complaints|
    ensures forall c :: c in r <==> c in complaints && Matches(c, f, clock)
  {
    var byStatus := Step(complaints, f.status, StatusIs(f.status));
    var byCategory := Step(byStatus, f.category, CategoryIs(f.category));
    var byAgency := Step(byCategory, f.agency, AgencyIs(f.agency));
    var byDate := Step(byAgency, f.dateRange, CreatedSince(StartDate(clock, f.dateRange)));
    Step(byDate, f.searchQuery, Searched(f.searchQuery))
  }

  /** The reference definition: a complaint passes when it passes every active
      filter. */
  predicate Matches(c: Complaint, f: FilterOptions, clock: Clock)
  {
    && (f.status == "" || c.status == f.status)
    && (f.category == "" || c.category == f.category)
    && (f.agency == "" || c.agency == f.agency)
    && (f.dateRange == "" || c.createdAt >= StartDate(clock, f.dateRange))
    && (f.searchQuery == "" || SearchHit(c, f.searchQuery))
  }

  function Guarded(value: string, p: Complaint -> bool): Complaint -> bool
  {
    (c: Complaint) => value == "" || p(c)
  }

  function Everything(): Complaint -> bool { (c: Complaint) => true }

  lemma {:induction false} FilterEverything(s: seq<Complaint>)
    ensures FilterSeq(s, Everything()) == s
  {
    if s != [] {
      FilterEverything(s[1..]);
    }
  }

  /** A skipped or applied step is one filter by the guarded predicate. */
  lemma StepIsFilter(s: seq<Complaint>, value: string, p: Complaint -> bool)
    ensures Step(s, value, p) == FilterSeq(s, Guarded(value, p))
  {
    if value == "" {
      FilterEverything(s);
      FilterAgrees(s, Everything(), Guarded(value, p));
    } else {
      FilterAgrees(s, p, Guarded(value, p));
    }
  }

  /** Two guarded steps in a row are one filter by their conjunction. */
  lemma TwoSteps(s: seq<Complaint>, p: Complaint -> bool, v: string, q: Complaint -> bool)
    ensures Step(FilterSeq(s, p), v, q) == FilterSeq(s, Both(p, Guarded(v, q)))
  {
    StepIsFilter(FilterSeq(s, p), v, q);
    FilterThenFilter(s, p, Guarded(v, q));
  }

  /** The filters combine as a conjunction: the sequential pipeline equals one
      filter by `Matches`, whatever the order of the steps in the source. */
  lemma PipelineIsConjunction(complaints: seq<Complaint>, f: FilterOptions, clock: Clock)
    ensures Pipeline(complaints, f, clock) == FilterSeq(complaints, (c: Complaint) => Matches(c, f, clock))
  {
    var p1 := Guarded(f.status, StatusIs(f.status));
    var p2 := Guarded(f.category, CategoryIs(f.category));
    var p3 := Guarded(f.agency, AgencyIs(f.agency));
    var p4 := Guarded(f.dateRange, CreatedSince(StartDate(clock, f.dateRange)));
    var p5 := Guarded(f.searchQuery, Searched(f.searchQuery));
    StepIsFilter(complaints, f.status, StatusIs(f.status));
    TwoSteps(complaints, p1, f.category, CategoryIs(f.category));
    var q2 := Both(p1, p2);
    TwoSteps(complaints, q2, f.agency, AgencyIs(f.agency));
    var q3 := Both(q2, p3);
    TwoSteps(complaints, q3, f.dateRange, CreatedSince(StartDate(clock, f.dateRange)));
    var q4 := Both(q3, p4);
    TwoSteps(complaints, q4, f.searchQuery, Searched(f.searchQuery));
    var q5 := Both(q4, p5);
    FilterAgrees(complaints, q5, (c: Complaint) => Matches(c, f, clock));
  }

  /** What the filter effect keeps: exactly the complaints of the input that
      pass every active filter, as a subsequence in the original order. */
  lemma PipelineKeeps(complaints: seq<Complaint>, f: FilterOptions, clock: Clock)
    ensures IsSubsequence(Pipeline(complaints, f, clock), complaints)
    ensures forall c :: c in Pipeline(complaints, f, clock) <==> c in complaints && Matches(c, f, clock)
  {
    PipelineIsConjunction(complaints, f, clock);
    FilterIsSubsequence(complaints, (c: Complaint) => Matches(c, f, clock));
  }

  /** With every filter field empty the effect returns `complaints` unchanged;
      more generally, the list is unchanged exactly when every complaint passes. */
  lemma PipelineIdentity(complaints: seq<Complaint>, f: FilterOptions, clock: Clock)
    ensures Pipeline(complaints, f, clock) == complaints <==> forall c :: c in complaints ==> Matches(c, f, clock)
    ensures Pipeline(complaints, EmptyFilters, clock) == complaints
  {
    PipelineIsConjunction(complaints, f, clock);
    FilterIdentityIff(complaints, (c: Complaint) => Matches(c, f, clock));
  }

  /** A single active equality filter keeps exactly the complaints whose field
      equals the filter value. */
  lemma SingleFieldFilters(complaints: seq<Complaint>, v: string, clock: Clock)
    requires v != ""
    ensures forall c :: c in Pipeline(complaints, EmptyFilters.(status := v), clock) <==> c in complaints && c.status == v
    ensures forall c :: c in Pipeline(complaints, EmptyFilters.(category := v), clock) <==> c in complaints && c.category == v
    ensures forall c :: c in Pipeline(complaints, EmptyFilters.(agency := v), clock) <==> c in complaints && c.agency == v
  {
    PipelineKeeps(complaints, EmptyFilters.(status := v), clock);
    PipelineKeeps(complaints, EmptyFilters.(category := v), clock);
    PipelineKeeps(complaints, EmptyFilters.(agency := v), clock);
  }

  /** The date filter alone keeps exactly the complaints created at or after
      the cutoff, and for the four menu keys the cutoff is not after now. */
  lemma DateFilterKeeps(complaints: seq<Complaint>, range: string, clock: Clock)
    requires range != ""
    ensures forall c :: c in Pipeline(complaints, EmptyFilters.(dateRange := range), clock)
                        <==> c in complaints && c.createdAt >= StartDate(clock, range)
    ensures WellFormed(clock) ==> StartDate(clock, range) <= clock.now
  {
    PipelineKeeps(complaints, EmptyFilters.(dateRange := range), clock);
  }

  /** The search filter alone keeps exactly the complaints in whose lower-cased
      title, description, tracking id or location the lower-cased query occurs. */
  lemma SearchFilterKeeps(complaints: seq<Complaint>, query: string, clock: Clock, c: Complaint)
    requires query != ""
    ensures c in Pipeline(complaints, EmptyFilters.(searchQuery := query), clock)
            <==> c in complaints &&
                 (|| (exists i :: OccursAt(Lower(c.title), Lower(query), i))
                  || (exists i :: OccursAt(Lower(c.description), Lower(query), i))
                  || (exists i :: OccursAt(Lower(c.trackingId), Lower(query), i))
                  || (exists i :: OccursAt(Lower(c.location), Lower(query), i)))
  {
    PipelineKeeps(complaints, EmptyFilters.(searchQuery := query), clock);
    ContainsIffOccurs(Lower(c.title), Lower(query));
    ContainsIffOccurs(Lower(c.description), Lower(query));
    ContainsIffOccurs(Lower(c.trackingId), Lower(query));
    ContainsIffOccurs(Lower(c.location), Lower(query));
  }

  /** A shorter date range keeps a subset of what a longer one keeps. */
  lemma DateRangesNest(complaints: seq<Complaint>, f: FilterOptions, clock: Clock, c: Complaint)
    requires WellFormed(clock)
    ensures c in Pipeline(complaints, f.(dateRange := "today"), clock) ==> c in Pipeline(complaints, f.(dateRange := "week"), clock)
    ensures c in Pipeline(complaints, f.(dateRange := "week"), clock) ==> c in Pipeline(complaints, f.(dateRange := "month"), clock)
    ensures c in Pipeline(complaints, f.(dateRange := "month"), clock) ==> c in Pipeline(complaints, f.(dateRange := "year"), clock)
  {
    PipelineKeeps(complaints, f.(dateRange := "today"), clock);
    PipelineKeeps(complaints, f.(dateRange := "week"), clock);
    PipelineKeeps(complaints, f.(dateRange := "month"), clock);
    PipelineKeeps(complaints, f.(dateRange := "year"), clock);
  }

  /** `prev.map(c => c.id === id ? updated : c)` */
  function ReplaceById(s: seq<Complaint>, id: string, updated: Complaint): (r: seq<Complaint>)
    ensures |r| == |s|
    ensures forall i :: 0 <= i < |s| ==> r[i] == if s[i].id == id then updated else s[i]
  {
    if s == [] then []
    else [if s[0].id == id then updated else s[0]] + ReplaceById(s[1..], id, updated)
  }

  /** With unique ids, replacing the complaint at `k` changes that entry only;
      an id that is not in the list changes nothing. */
  lemma ReplaceByIdChangesOne(s: seq<Complaint>, id: string, updated: Complaint)
    requires forall i, j :: 0 <= i < j < |s| ==> s[i].id != s[j].id
    ensures forall k :: 0 <= k < |s| && s[k].id == id ==>
              ReplaceById(s, id, updated) == s[k := updated]
    ensures (forall i :: 0 <= i < |s| ==> s[i].id != id) ==> ReplaceById(s, id, updated) == s
  {
  }

  /** The body of the PATCH request a status update sends; `response || undefined`
      drops an empty response. */
  datatype PatchBody = PatchBody(status: string, response: Option<string>, responseDate: int)

  function MakePatch(newStatus: string, response: Option<string>, now: int): (b: PatchBody)
    ensures b.status == newStatus && b.responseDate == now
    ensures b.response.Some? <==> response.Some? && response.value != ""
    ensures b.response.Some? ==> b.response == response
  {
    PatchBody(newStatus, if response.Some? && response.value != "" then response else None, now)
  }

  /** The dashboard's state: the fetched list, the filtered view, the filter
      state and the load flags. */
  class Dashboard {
    var complaints: seq<Complaint>
    var filteredComplaints: seq<Complaint>
    var filters: FilterOptions
    var loading: bool
    var error: Option<string>

    constructor ()
      ensures complaints == [] && filteredComplaints == [] && filters == EmptyFilters
      ensures loading && error == None
    {
      complaints, filteredComplaints, filters := [], [], EmptyFilters;
      loading, error := true, None;
    }

    /** The mount effect: store the fetched list (also as the filtered view)
        or the error message; stop loading either way. */
    method FetchData(result: Response<seq<Complaint>>)
      modifies this
      ensures result.Ok? ==> complaints == result.body && filteredComplaints == result.body && error == old(error)
      ensures result.NotOk? ==> complaints == old(complaints) && filteredComplaints == old(filteredComplaints)
                                && error == Some("Failed to fetch data")
      ensures result.Thrown? ==> complaints == old(complaints) && filteredComplaints == old(filteredComplaints)
                                 && error == Some(CaughtMessage(result.message))
      ensures !loading && filters == old(filters)
    {
      match result {
        case Ok(data) =>
          complaints := data;
          filteredComplaints := data;
        case NotOk =>
          error := Some("Failed to fetch data");
        case Thrown(message) =>
          error := Some(CaughtMessage(message));
      }
      loading := false;
    }

    /** The filter effect, run whenever `filters` or `complaints` change. */
    method ApplyFilters(clock: Clock)
      modifies this
      ensures filteredComplaints == Pipeline(complaints, filters, clock)
      ensures IsSubsequence(filteredComplaints, complaints)
      ensures filters == EmptyFilters ==> filteredComplaints == complaints
      ensures complaints == old(complaints) && filters == old(filters)
      ensures loading == old(loading) && error == old(error)
    {
      filteredComplaints := Pipeline(complaints, filters, clock);
      PipelineKeeps(complaints, filters, clock);
      PipelineIdentity(complaints, filters, clock);
    }

    /** `setFilters(prev => ({ ...prev, ...newFilters }))` */
    method HandleFilterChange(update: PartialFilter)
      modifies this
      ensures filters == Merge(old(filters), update)
      ensures forall g :: GetPartial(update, g).None? ==> Get(filters, g) == Get(old(filters), g)
      ensures complaints == old(complaints) && filteredComplaints == old(filteredComplaints)
      ensures loading == old(loading) && error == old(error)
    {
      filters := Merge(filters, update);
    }

    /** Send the PATCH; when it succeeds, replace the complaint with that id by
        the server's copy, then refresh the statistics. `statsThrew` says
        whether that refresh threw (its fetch rejected or its body did not
        parse); the catch then reports false although the list was already
        replaced. A refresh answered not-ok is skipped and still reports true. */
    method HandleStatusUpdate(complaintId: string, newStatus: string, response: Option<string>,
                              now: int, result: Response<Complaint>, statsThrew: bool)
      returns (request: PatchBody, success: bool)
      modifies this
      ensures request == MakePatch(newStatus, response, now)
      ensures success <==> result.Ok? && !statsThrew
      ensures result.Ok? ==> complaints == ReplaceById(old(complaints), complaintId, result.body)
      ensures !result.Ok? ==> complaints == old(complaints)
      ensures |complaints| == |old(complaints)|
      ensures filteredComplaints == old(filteredComplaints) && filters == old(filters)
      ensures loading == old(loading) && error == old(error)
    {
      request := MakePatch(newStatus, response, now);
      if result.Ok? {
        complaints := ReplaceById(complaints, complaintId, result.body);
        success := !statsThrew;
      } else {
        success := false;
      }
    }
  }
}
