# Citizen engagement portal — client decision logic in Dafny

This project models the client-side logic of a complaint portal. Citizens
file complaints that are routed to a government agency. Administrators
filter the complaints, move them through the lifecycle
PENDING → IN_PROGRESS → RESOLVED / REJECTED and attach an official
response. The model covers:

- the admin dashboard's five-stage filter pipeline, its partial-filter
  merge and the replace-by-id update after a status change
  (`AdminDashboard`, `Filters`);
- the complaint table's offered actions, the status each action requests
  and the modal's state (`ComplaintList`);
- the submission form: category→agency routing through two parallel
  tables, the posted body, the reset after success and the
  `isSubmitting` flag (`SubmitComplaintForm`);
- the detail card: status colour and label, description truncation, the
  "Show More" toggle and the timeline (`ComplaintDetails`);
- the filter panel's change and reset reports (`ComplaintFilter`);
- the admin page: session/role gate, query-string construction, filter
  change and reset, and its own status colour function (`AdminPage`);
- the authentication error page's code→message table (`AuthError`).

Shared modules: `Wrappers` (Option and the three outcomes of a fetch),
`Sequences` (`Array.filter`, `indexOf`, subsequences), `Text` (ASCII
`toLowerCase`, `includes`, first-occurrence `replace`) and `Records`
(the complaint record and the four status strings).

Stateful components are classes whose fields are the component's state
hooks. Each handler is a method whose `ensures` gives the whole new
state. A fetch result is a `Response` parameter: `Ok(body)`, `NotOk`
(the response was not ok) or `Thrown(message)` (the fetch or JSON
parsing threw). The clock is a `Clock` parameter carrying the instants
the date filter uses.

## Model

| member | source | states |
|---|---|---|
| Sequences.FilterSeq | src/components/AdminDashboard.tsx:74-129 | `Array.filter`: no longer than its input, and keeps exactly the elements of the input that pass the predicate |
| Sequences.FilterIsSubsequence | src/components/AdminDashboard.tsx:74-129 | filtering keeps the original order: the result is a subsequence of the input |
| Sequences.FilterThenFilter | src/components/AdminDashboard.tsx:74-129 | two filters in sequence equal one filter by the conjunction |
| Sequences.FilterCommutes | src/components/AdminDashboard.tsx:74-129 | the order of two filter stages does not change the result |
| Sequences.FilterIdentityIff | src/components/AdminDashboard.tsx:74-129 | a filter returns its input unchanged if and only if every element passes |
| AdminDashboard.Step | src/components/AdminDashboard.tsx:74-129 | one `if (value) result = result.filter(p)` stage: never longer than its input, and keeps exactly the elements that pass `p`, or all of them when the value is empty |
| AdminDashboard.Pipeline | src/components/AdminDashboard.tsx:70-132 | the filter effect as written: never longer than `complaints`, and keeps a complaint if and only if it is in `complaints` and meets every active criterion |
| AdminDashboard.StartDate | src/components/AdminDashboard.tsx:95-112 | the range's cutoff is never later than now on a consistent clock, and a key outside the four gives now |
| AdminDashboard.SearchHit | src/components/AdminDashboard.tsx:120-128 | an empty query hits every complaint; `SearchFilterKeeps` characterises a non-empty one by substring occurrence |
| AdminDashboard.StepIsFilter | src/components/AdminDashboard.tsx:74-92 | a stage guarded by an empty value is the identity; otherwise it is the filter |
| AdminDashboard.PipelineIsConjunction | src/components/AdminDashboard.tsx:70-132 | the five sequential stages equal one filter by the conjunction of the active criteria |
| AdminDashboard.PipelineKeeps | src/components/AdminDashboard.tsx:70-132 | the filtered list is an order-preserving subsequence of the complaints, and a complaint is kept if and only if it meets every active criterion |
| AdminDashboard.PipelineIdentity | src/components/AdminDashboard.tsx:70-132 | the list is unchanged if and only if every complaint matches; the empty filters leave it unchanged |
| AdminDashboard.SingleFieldFilters | src/components/AdminDashboard.tsx:74-92 | with only the status, category or agency filter set, exactly the complaints whose field equals the value are kept |
| AdminDashboard.StartDateBounds | src/components/AdminDashboard.tsx:95-112 | the start instant of "today", "week", "month" and "year" is never later than now; any other range gives now |
| AdminDashboard.DateFilterKeeps | src/components/AdminDashboard.tsx:95-117 | the date stage keeps exactly the complaints created at or after the range's start |
| AdminDashboard.DateRangesNest | src/components/AdminDashboard.tsx:95-117 | the ranges nest: what "today" keeps, "week" keeps; what "week" keeps, "month" keeps; what "month" keeps, "year" keeps |
| AdminDashboard.SearchFilterKeeps | src/components/AdminDashboard.tsx:120-129 | a search keeps a complaint if and only if the lower-cased query occurs in its lower-cased title, description, tracking id or location |
| Text.Lower | src/components/AdminDashboard.tsx:121-127 | `toLowerCase`: same length, each character lower-cased, no upper-case ASCII letter left |
| Text.Contains | src/components/AdminDashboard.tsx:124-127 | `includes`: the empty pattern is always found, and a found pattern is no longer than the text |
| Text.ContainsIffOccurs | src/components/AdminDashboard.tsx:124-127 | `includes` holds if and only if the pattern occurs at some position |
| Text.LowerIdempotent | src/components/AdminDashboard.tsx:121-127 | lower-casing twice is the same as lower-casing once |
| Filters.SetField | src/components/ComplaintFilter.tsx:56-63 | `{ ...prev, [name]: value }`: the named field is set and the other four are unchanged |
| Filters.Single | src/components/ComplaintFilter.tsx:62 | the report of one change carries that field only |
| Filters.Whole | src/components/ComplaintFilter.tsx:74 | the reset report carries all five fields |
| Filters.Merge | src/components/AdminDashboard.tsx:134-136 | `{ ...prev, ...newFilters }`: present keys overwrite, absent keys keep the previous value |
| Filters.FieldsDetermine | src/components/ComplaintFilter.tsx:33-39 | two filter records with equal fields are equal |
| Filters.MergeSingle | src/components/AdminDashboard.tsx:134-136 | merging a one-field report equals setting that field |
| Filters.MergeWhole | src/components/AdminDashboard.tsx:134-136 | merging a full report replaces the filters with it |
| Filters.MergeIdempotent | src/components/AdminDashboard.tsx:134-136 | merging the same report twice equals merging it once |
| AdminDashboard.ReplaceById | src/components/AdminDashboard.tsx:162-166 | same length; entries with the id become the updated complaint, all others are unchanged |
| AdminDashboard.ReplaceByIdChangesOne | src/components/AdminDashboard.tsx:162-166 | with distinct ids, exactly the entry at the id's index is replaced; an absent id changes nothing |
| AdminDashboard.MakePatch | src/components/AdminDashboard.tsx:149-153 | the PATCH body carries the new status and time; an empty response becomes absent |
| AdminDashboard.Dashboard.constructor | src/components/AdminDashboard.tsx:19-36 | empty lists, empty filters, loading, no error |
| AdminDashboard.Dashboard.FetchData | src/components/AdminDashboard.tsx:39-67 | on success both lists become the fetched complaints; otherwise the error message is set; loading ends in every case |
| AdminDashboard.Dashboard.ApplyFilters | src/components/AdminDashboard.tsx:70-132 | the filtered list becomes the pipeline applied to the complaints and current filters |
| AdminDashboard.Dashboard.HandleFilterChange | src/components/AdminDashboard.tsx:134-136 | the filters become the merge of the old filters and the report |
| AdminDashboard.Dashboard.HandleStatusUpdate | src/components/AdminDashboard.tsx:138-180 | sends the PATCH body; a successful PATCH replaces the complaint by id; true is returned only if the PATCH succeeded and the statistics refresh did not throw; a failed PATCH leaves the list unchanged |
| ComplaintList.OfferedButtons | src/components/ComplaintList.tsx:182-220 | View is always offered; Start only for PENDING; Resolve and Reject for PENDING or IN_PROGRESS |
| ComplaintList.ActionTarget | src/components/ComplaintList.tsx:63 | "resolve" requests RESOLVED and "reject" requests REJECTED |
| ComplaintList.ButtonTarget | src/components/ComplaintList.tsx:191-220 | View is the only button that requests no status |
| ComplaintList.OfferedTransitions | src/components/ComplaintList.tsx:182-220 | PENDING can request IN_PROGRESS, RESOLVED or REJECTED; IN_PROGRESS can request RESOLVED or REJECTED; any other status requests nothing; a row never requests its own status |
| ComplaintList.Table.constructor | src/components/ComplaintList.tsx:20-27 | no complaint selected, modal closed, not loading |
| ComplaintList.Table.HandleActionClick | src/components/ComplaintList.tsx:29-36 | selects the complaint, records the action and opens the modal |
| ComplaintList.Table.HandleModalClose | src/components/ComplaintList.tsx:38-42 | closes the modal and clears the selection and action |
| ComplaintList.Table.HandleStatusChange | src/components/ComplaintList.tsx:44-56 | requests the new status without a response; success clears the modal state, failure keeps it; loading ends |
| ComplaintList.Table.HandleResponseSubmit | src/components/ComplaintList.tsx:58-77 | with a selection and action, requests the action's status with the response, and closes the modal on success; otherwise does nothing |
| SubmitComplaintForm.CategoriesDistinct | src/components/SubmitComplaintForm.tsx:7-32 | the two tables have ten entries each and no category is listed twice |
| SubmitComplaintForm.RouteAgency | src/components/SubmitComplaintForm.tsx:86-90 | an unlisted category (the empty one included) is routed to "General Administration" |
| SubmitComplaintForm.RouteAgencyTotal | src/components/SubmitComplaintForm.tsx:86-90 | routing always yields a listed agency; an unlisted category gives "General Administration" |
| SubmitComplaintForm.RouteAgencyByIndex | src/components/SubmitComplaintForm.tsx:86-90 | the i-th category is routed to the i-th agency |
| Sequences.IndexOf | src/components/SubmitComplaintForm.tsx:86 | `indexOf`: -1 if and only if absent; otherwise the first index holding the value |
| Sequences.IndexOfDistinct | src/components/SubmitComplaintForm.tsx:86-89 | in a list without duplicates, `indexOf` of the i-th entry is i |
| SubmitComplaintForm.SetField | src/components/SubmitComplaintForm.tsx:61-68 | the named text field is set; the others and the attachments are unchanged |
| SubmitComplaintForm.BuildPayload | src/components/SubmitComplaintForm.tsx:108-118 | the body has the seven text fields unchanged and the routed agency |
| SubmitComplaintForm.PayloadIgnoresAttachments | src/components/SubmitComplaintForm.tsx:103-118 | the posted body does not depend on the attachments |
| SubmitComplaintForm.Form.constructor | src/components/SubmitComplaintForm.tsx:47-59 | empty form, not submitting, no error, no success |
| SubmitComplaintForm.Form.HandleChange | src/components/SubmitComplaintForm.tsx:61-68 | the form gets the field update; nothing else changes |
| SubmitComplaintForm.Form.HandleFileChange | src/components/SubmitComplaintForm.tsx:70-77 | a file list replaces the attachments; a null list changes nothing |
| SubmitComplaintForm.Form.HandleSubmit | src/components/SubmitComplaintForm.tsx:79-153 | posts the body built from the form; success stores the tracking id and clears the form; failure keeps the input and sets the message; never left submitting |
| SubmitComplaintForm.Form.ReturnHome | src/components/SubmitComplaintForm.tsx:181-183 | forgets the tracking id and changes nothing else |
| ComplaintDetails.StatusColor | src/components/ComplaintDetails.tsx:25-38 | yellow, blue, green and red for the four statuses; gray otherwise |
| ComplaintDetails.StatusColorDistinct | src/components/ComplaintDetails.tsx:25-38 | distinct statuses get distinct colours |
| Text.ReplaceFirst | src/components/ComplaintDetails.tsx:60 | `replace` with one-character strings keeps the length; `ReplaceFirstSpec` gives it position by position |
| Text.ReplaceFirstSpec | src/components/ComplaintDetails.tsx:60 | `replace` with a one-character pattern changes only its first occurrence; no occurrence leaves the string unchanged |
| ComplaintDetails.StatusLabel | src/components/ComplaintDetails.tsx:60 | the label is the status with its first underscore replaced by a space |
| ComplaintDetails.InProgressLabel | src/components/ComplaintDetails.tsx:60 | IN_PROGRESS is shown as "IN PROGRESS"; the other statuses are shown as stored |
| ComplaintDetails.TruncateDescription | src/components/ComplaintDetails.tsx:40-46 | text within the limit is unchanged; longer text becomes its first maxLength characters plus "..." |
| ComplaintDetails.ShowsToggle | src/components/ComplaintDetails.tsx:94-107 | without the toggle the collapsed text is the whole description; with it the collapsed text has exactly 203 characters |
| ComplaintDetails.DisplayedDescription | src/components/ComplaintDetails.tsx:94-107 | expanded, or without a toggle, the full description is shown; collapsed, at most 203 characters are shown |
| ComplaintDetails.ToggleHidesOnlyWhenShown | src/components/ComplaintDetails.tsx:94-107 | without the toggle (200 characters or fewer) the collapsed view is the whole description; with it, the first 200 characters plus "..."; expanded shows it all |
| ComplaintDetails.Timeline | src/components/ComplaintDetails.tsx:134-233 | submission is always first, dated at creation; the in-progress step appears if and only if the status is not PENDING; the resolved or rejected step if and only if the status is that one |
| ComplaintDetails.TimelineLength | src/components/ComplaintDetails.tsx:134-233 | one step for PENDING, three for RESOLVED or REJECTED, two for any other status |
| ComplaintFilter.Panel.constructor | src/components/ComplaintFilter.tsx:48-54 | all five filter fields start empty |
| ComplaintFilter.Panel.HandleChange | src/components/ComplaintFilter.tsx:56-63 | sets the field locally and reports only that field |
| ComplaintFilter.Panel.HandleReset | src/components/ComplaintFilter.tsx:65-75 | clears every field and reports all five as empty |
| ComplaintFilter.ReportsKeepDashboardInSync | src/components/ComplaintFilter.tsx:56-63 | merging a change report into the dashboard's filters gives the panel's new filters |
| ComplaintFilter.ResetIdempotent | src/components/ComplaintFilter.tsx:65-75 | a second reset changes nothing, and after a reset the dashboard's pipeline returns every complaint |
| ComplaintFilter.ChangeThroughPanel | src/components/ComplaintFilter.tsx:56-63 | a change through the panel leaves panel and dashboard with equal filters |
| AdminPage.GateDecision | src/app/admin/page.tsx:42-58 | redirect to sign-in when unauthenticated, home for a non-admin, fetch only for an admin, wait while loading |
| AdminPage.RedirectTarget | src/app/admin/page.tsx:44-51 | the sign-in URL with the admin callback, or "/" |
| AdminPage.ShowsAccessDenied | src/app/admin/page.tsx:148 | Access Denied is rendered exactly for an authenticated session that is not an admin |
| AdminPage.GateIsSound | src/app/admin/page.tsx:42-58 | a fetch happens only for an ADMIN session; exactly the sessions shown Access Denied are sent home; an unauthenticated session is sent to sign-in |
| AdminPage.SetFilterField | src/app/admin/page.tsx:103-108 | the named field is set and the others are unchanged |
| AdminPage.QueryParamsFacts | src/app/admin/page.tsx:63-68 | every parameter has a non-empty value; at most four; the search text is sent under "search" exactly when non-empty; an empty filter sends none |
| AdminPage.QueryParamsStepwise | src/app/admin/page.tsx:64-68 | the four conditional appends equal the filtered parameter list |
| AdminPage.BuildQueryParams | src/app/admin/page.tsx:63-68 | the four conditional appends build exactly the parameter list |
| AdminPage.Page.constructor | src/app/admin/page.tsx:23-32 | no complaints, loading, no error, empty filter |
| AdminPage.Page.FetchComplaints | src/app/admin/page.tsx:60-86 | requests the filter's parameters; success stores the complaints, failure sets the page's message; loading ends |
| AdminPage.Page.HandleFilterChange | src/app/admin/page.tsx:103-108 | the filter gets the field update; nothing is fetched |
| AdminPage.Page.ResetFilters | src/app/admin/page.tsx:114-123 | the filter is cleared but the fetch uses the filter from before the reset; success stores the list, failure keeps it and sets the page's message; loading ends |
| AdminPage.AdminStatusColor | src/app/admin/page.tsx:125-138 | all five arms after lower-casing: "pending" yellow, "in progress" blue, "resolved" green, "rejected" red, any other status gray |
| AdminPage.AdminStatusColorInProgressIsGray | src/app/admin/page.tsx:125-138 | the stored IN_PROGRESS gets gray on this page but blue on the detail card |
| AdminPage.AdminStatusColorIntended | src/app/admin/page.tsx:125-138 | "in_progress" in any case gets blue |
| AdminPage.IntendedColorAgrees | src/app/admin/page.tsx:125-138 | the corrected function agrees with the detail card on all four statuses |
| AdminPage.CategoryVocabulariesDisjoint | src/app/admin/page.tsx:272-278 | none of the page's category codes is a category the form stores |
| Wrappers.CaughtMessage | src/components/AdminDashboard.tsx:57-60 | a thrown error's message, or "An unknown error occurred" |
| AuthError.CodeMessage | src/app/api/auth/error/page.tsx:15-53 | every code, known or not, replaces the initial message; the five provider codes share one message |
| AuthError.ErrorMessage | src/app/api/auth/error/page.tsx:8-55 | an absent or empty code keeps the initial message |
| AuthError.ErrorMessageTable | src/app/api/auth/error/page.tsx:13-55 | each of the seven codes with its own message gets it; the five provider codes share one; every other non-empty code gets the unexpected-error message; a present code never keeps the initial message |
| AuthError.OwnMessagesDistinct | src/app/api/auth/error/page.tsx:15-48 | the own codes' messages are pairwise different and differ from the shared ones |

## Left out

- HTTP, JSON parsing and the server routes are not modelled. Every fetch is a `Response` parameter, and the endpoints' behaviour is not part of this model.
- Statistics are not modelled: the stats fetches and the dashboard's stat cards are left out. The one effect of the refresh in `HandleStatusUpdate` that reaches the caller is kept: the `statsThrew` parameter says whether the refresh threw, which turns the reported result to false.
- Rendering is not modelled. JSX markup, icons and class names are left out, except the colour strings the status functions return.
- Router navigation is not modelled. A redirect is returned as a URL.
- Date arithmetic is not modelled. `new Date()` and the day/week/month/year arithmetic become the `Clock` parameter. The source reads the current time twice, once for `now` and once for the range start; the model takes both from one clock reading.
- ComplaintDetails.TruncateDescription: lengths are counted in Unicode code points, while `length` and `substring` count UTF-16 code units, so the cut and the `maxLength + 3` bound match the source only for text inside the Basic Multilingual Plane.
- ComplaintDetails.ToggleHidesOnlyWhenShown: the 200-character threshold is counted in code points, not UTF-16 code units, so it matches the source only for text inside the Basic Multilingual Plane; the same holds for `ShowsToggle` and `DisplayedDescription`.
- Text.Lower: lower-cases ASCII letters only. JavaScript's Unicode `toLowerCase` is not modelled.
- AdminDashboard.SearchHit: a null `location` is not modelled. The source would throw on it during search.
- URL encoding of the query string is not modelled: the parameters are kept as (key, value) pairs.
- Browser-side `required` validation of form inputs is not modelled.
- Effect timing and interleaving of asynchronous calls are not modelled. Each handler runs to completion, and the filter effect runs as `ApplyFilters` when called.
- Attachment upload is not modelled. The form collects attachments but the body it posts has none.
- The server route handlers (complaint creation, statistics, tracking, registration) are not part of this model; their database, id-generation, validation and hashing libraries are not visible. Two of their behaviours bear on the client: the statistics route counts no REJECTED complaints (src/app/api/complaints/stats/route.ts:14-24), and the tracking page sends `?id=` while the route reads `trackingId` (src/app/api/complaints/track/route.ts:10).
- Display-only components (statistics cards, recent complaints, the response modal, the tracking form, the login button, the landing and submit pages) are not modelled; they have no decision logic.
- Percentages computed with floating point in the statistics components are not modelled.
- The category vocabularies differ between components: the admin page filters by codes such as "ROADS" while the form and the dashboard filter use display names. `AdminPage.CategoryVocabulariesDisjoint` records this: no code the admin page sends equals a category the form stores.

## Findings

| source | as written | input that shows it | evidently intended | confidence | as-written member | corrected member |
|---|---|---|---|---|---|---|
| src/app/admin/page.tsx:125-138 | the lower-cased status is compared with "in progress" | status "IN_PROGRESS" lower-cases to "in_progress" and falls to the gray default | in-progress complaints shown in blue, as on the detail card | not executed | AdminPage.AdminStatusColorInProgressIsGray | AdminPage.IntendedColorAgrees |
