/** The standalone admin page: the session and role gate, the query string
    built from its four-field filter, and its own status colour function. */
module AdminPage {
  import opened Wrappers
  import opened Sequences
  import opened Text
  import opened Records
  import ComplaintDetails
  import SubmitComplaintForm

  /** The session as the page sees it; `role` is None when the session user
      carries no role. */
  datatype Session = Loading | Unauthenticated | Authenticated(role: Option<string>)

  /** What the gate effect does. */
  datatype Gate = Wait | RedirectToSignIn | RedirectHome | FetchData

  const SIGN_IN_URL := "/api/auth/signin?callbackUrl=/admin"
  const HOME_URL := "/"

  predicate IsAdmin(s: Session)
  {
    s == Authenticated(Some("ADMIN"))
  }

  /** The mount effect's decision. */
  function GateDecision(s: Session): (g: Gate)
    ensures g == FetchData <==> IsAdmin(s)
    ensures g == RedirectToSignIn <==> s == Unauthenticated
    ensures g == RedirectHome <==> s.Authenticated? && !IsAdmin(s)
    ensures g == Wait <==> s == Loading
  {
    match s
    case Unauthenticated => RedirectToSignIn
    case Authenticated(role) => if role == Some("ADMIN") then FetchData else RedirectHome
    case Loading => Wait
  }

  /** Where a redirecting decision sends the browser. */
  function RedirectTarget(g: Gate): (url: Option<string>)
    ensures url.Some? <==> g == RedirectToSignIn || g == RedirectHome
  {
    match g
    case RedirectToSignIn => Some(SIGN_IN_URL)
    case RedirectHome => Some(HOME_URL)
    case _ => None
  }

  /** The Access Denied panel is rendered for an authenticated non-admin. */
  predicate ShowsAccessDenied(s: Session)
    ensures ShowsAccessDenied(s) <==> s.Authenticated? && !IsAdmin(s)
  {
    s.Authenticated? && s.role != Some("ADMIN")
  }

  /** Data is fetched only for an admin; whoever sees Access Denied is also
      sent home, and never fetches. */
  lemma GateIsSound(s: Session)
    ensures GateDecision(s) == FetchData ==> s.Authenticated? && s.role == Some("ADMIN")
    ensures ShowsAccessDenied(s) <==> GateDecision(s) == RedirectHome
    ensures ShowsAccessDenied(s) ==> RedirectTarget(GateDecision(s)) == Some(HOME_URL)
    ensures s == Unauthenticated ==> RedirectTarget(GateDecision(s)) == Some(SIGN_IN_URL)
  {
  }

  datatype AdminField = Status | Category | Agency | SearchQuery

  datatype AdminFilter = AdminFilter(status: string, category: string, agency: string, searchQuery: string)

  const EmptyAdminFilter := AdminFilter("", "", "", "")

  function SetFilterField(f: AdminFilter, field: AdminField, value: string): (r: AdminFilter)
    ensures field == Status ==> r == f.(status := value)
    ensures field == Category ==> r == f.(category := value)
    ensures field == Agency ==> r == f.(agency := value)
    ensures field == SearchQuery ==> r == f.(searchQuery := value)
  {
    match field
    case Status => f.(status := value)
    case Category => f.(category := value)
    case Agency => f.(agency := value)
    case SearchQuery => f.(searchQuery := value)
  }

  type Param = (string, string)

  function NonEmptyValue(): Param -> bool { (p: Param) => p.1 != "" }

  /** The reference for the query: the four (key, value) pairs in a fixed
      order, keeping those with a non-empty value. */
  function QueryParams(f: AdminFilter): seq<Param>
  {
    FilterSeq([("status", f.status), ("category", f.category), ("agency", f.agency), ("search", f.searchQuery)],
              NonEmptyValue())
  }

  /** What the query holds: only non-empty values, never more than four
      parameters, the search text under the key "search", and nothing at all
      for an empty filter. */
  lemma QueryParamsFacts(f: AdminFilter)
    ensures forall p :: p in QueryParams(f) ==> p.1 != ""
    ensures |QueryParams(f)| <= 4
    ensures ("search", f.searchQuery) in QueryParams(f) <==> f.searchQuery != ""
    ensures ("status", f.status) in QueryParams(f) <==> f.status != ""
    ensures QueryParams(EmptyAdminFilter) == []
  {
    assert QueryParams(EmptyAdminFilter) == [] by {
      var all := [("status", ""), ("category", ""), ("agency", ""), ("search", "")];
      assert forall p :: p in all ==> !NonEmptyValue()(p);
    }
  }

  function When(value: string, p: Param): seq<Param>
  {
    if value != "" then [p] else []
  }

  lemma QueryParamsStepwise(f: AdminFilter)
    ensures QueryParams(f) == When(f.status, ("status", f.status)) + (When(f.category, ("category", f.category))
                              + (When(f.agency, ("agency", f.agency)) + When(f.searchQuery, ("search", f.searchQuery))))
  {
    var p := NonEmptyValue();
    var a, b, c, d := ("status", f.status), ("category", f.category), ("agency", f.agency), ("search", f.searchQuery);
    var s3 := [d];
    var s2 := [c] + s3;
    var s1 := [b] + s2;
    var s0 := [a] + s1;
    assert s0 == [a, b, c, d];
    FilterCons(d, [], p);
    assert [d] + [] == s3;
    assert FilterSeq(s3, p) == When(f.searchQuery, d);
    FilterCons(c, s3, p);
    assert FilterSeq(s2, p) == When(f.agency, c) + When(f.searchQuery, d);
    FilterCons(b, s2, p);
    assert FilterSeq(s1, p) == When(f.category, b) + (When(f.agency, c) + When(f.searchQuery, d));
    FilterCons(a, s1, p);
    assert QueryParams(f) == FilterSeq(s0, p);
  }

  /** `fetchComplaints`' URLSearchParams, appended one `if` at a time. */
  method BuildQueryParams(f: AdminFilter) returns (params: seq<Param>)
    ensures params == QueryParams(f)
  {
    params := [];
    if f.status != "" { params := params + [("status", f.status)]; }
    if f.category != "" { params := params + [("category", f.category)]; }
    if f.agency != "" { params := params + [("agency", f.agency)]; }
    if f.searchQuery != "" { params := params + [("search", f.searchQuery)]; }
    QueryParamsStepwise(f);
  }

  const COMPLAINTS_ERROR := "Error loading complaints. Please try again."

  /** `getStatusColor` as written: the status is lower-cased and matched
      against "pending", "in progress", "resolved" and "rejected". */
  function AdminStatusColor(status: string): (r: string)
    ensures Lower(status) == "pending" ==> r == ComplaintDetails.YELLOW
    ensures Lower(status) == "in progress" ==> r == ComplaintDetails.BLUE
    ensures Lower(status) == "resolved" ==> r == ComplaintDetails.GREEN
    ensures Lower(status) == "rejected" ==> r == ComplaintDetails.RED
    ensures Lower(status) !in {"pending", "in progress", "resolved", "rejected"} ==> r == ComplaintDetails.GRAY
  {
    match Lower(status)
    case "pending" => ComplaintDetails.YELLOW
    case "in progress" => ComplaintDetails.BLUE
    case "resolved" => ComplaintDetails.GREEN
    case "rejected" => ComplaintDetails.RED
    case _ => ComplaintDetails.GRAY
  }

  /** IN_PROGRESS lower-cases to "in_progress", which no case matches, so an
      in-progress complaint gets the gray default on this page. */
  lemma AdminStatusColorInProgressIsGray()
    ensures AdminStatusColor(IN_PROGRESS) == ComplaintDetails.GRAY
    ensures ComplaintDetails.StatusColor(IN_PROGRESS) == ComplaintDetails.BLUE
  {
    var l := Lower(IN_PROGRESS);
    assert l[2] == '_';
    assert l != "in progress" by { assert "in progress"[2] == ' '; }
    assert |l| == 11;
  }

  /** The colour function as evidently intended: the stored upper-case status
      values, matched without regard to case. */
  function AdminStatusColorIntended(status: string): (r: string)
    ensures Lower(status) == "in_progress" ==> r == ComplaintDetails.BLUE
  {
    match Lower(status)
    case "pending" => ComplaintDetails.YELLOW
    case "in_progress" => ComplaintDetails.BLUE
    case "resolved" => ComplaintDetails.GREEN
    case "rejected" => ComplaintDetails.RED
    case _ => ComplaintDetails.GRAY
  }

  /** The intended colours agree with the detail card's on all four statuses. */
  lemma IntendedColorAgrees(status: string)
    requires IsKnownStatus(status)
    ensures AdminStatusColorIntended(status) == ComplaintDetails.StatusColor(status)
  {
    StatusesDistinct();
    var l := Lower(status);
    if status == PENDING {
      assert l == "pending";
    } else if status == IN_PROGRESS {
      assert l == "in_progress";
    } else if status == RESOLVED {
      assert l == "resolved";
    } else {
      assert l == "rejected";
    }
  }

  /** The category codes of this page's filter menu. */
  const AdminCategoryCodes: seq<string> := ["ROADS", "WATER", "ELECTRICITY", "SANITATION", "PUBLIC_SAFETY", "OTHER"]

  /** The page filters by codes that the submission form never stores: no code
      of its category menu is one of the form's category names. */
  lemma CategoryVocabulariesDisjoint()
    ensures forall c :: c in AdminCategoryCodes ==> c !in SubmitComplaintForm.Categories
  {
  }

  /** The page's state. */
  class Page {
    var filter: AdminFilter
    var complaints: seq<Complaint>
    var loading: bool
    var error: Option<string>

    constructor ()
      ensures filter == EmptyAdminFilter && complaints == [] && loading && error == None
    {
      filter, complaints, loading, error := EmptyAdminFilter, [], true, None;
    }

    /** `fetchComplaints` for the filter `f` it closes over: request with the
        query built from `f`; store the list or the error message; stop
        loading. A success does not clear an earlier error. */
    method FetchComplaints(f: AdminFilter, result: Response<seq<Complaint>>) returns (params: seq<Param>)
      modifies this
      ensures params == QueryParams(f)
      ensures result.Ok? ==> complaints == result.body && error == old(error)
      ensures !result.Ok? ==> complaints == old(complaints) && error == Some(COMPLAINTS_ERROR)
      ensures !loading && filter == old(filter)
    {
      loading := true;
      params := BuildQueryParams(f);
      if result.Ok? {
        complaints := result.body;
      } else {
        error := Some(COMPLAINTS_ERROR);
      }
      loading := false;
    }

    /** An input changed: only the named field is updated. */
    method HandleFilterChange(field: AdminField, value: string)
      modifies this
      ensures filter == SetFilterField(old(filter), field, value)
      ensures complaints == old(complaints) && loading == old(loading) && error == old(error)
    {
      filter := SetFilterField(filter, field, value);
    }

    /** Reset: all four fields become empty, then `fetchComplaints` runs. The
        call reads the filter of the render that created the handler, so the
        request still carries the filter as it was before the reset. */
    method ResetFilters(result: Response<seq<Complaint>>) returns (params: seq<Param>)
      modifies this
      ensures filter == EmptyAdminFilter
      ensures params == QueryParams(old(filter))
      ensures result.Ok? ==> complaints == result.body && error == old(error)
      ensures !result.Ok? ==> complaints == old(complaints) && error == Some(COMPLAINTS_ERROR)
      ensures !loading
    {
      var rendered := filter;
      filter := EmptyAdminFilter;
      params := FetchComplaints(rendered, result);
    }
  }
}
