/** The complaint detail card: status badge colour and label, the truncated
    description with its Show More/Less toggle, and the status timeline. */
module ComplaintDetails {
  import opened Wrappers
  import opened Sequences
  import opened Text
  import opened Records

  const YELLOW := "bg-yellow-100 text-yellow-800"
  const BLUE := "bg-blue-100 text-blue-800"
  const GREEN := "bg-green-100 text-green-800"
  const RED := "bg-red-100 text-red-800"
  const GRAY := "bg-gray-100 text-gray-800"

  /** The badge classes for a status; matching is exact and case-sensitive. */
  function StatusColor(status: string): (r: string)
    ensures r == GRAY <==> !IsKnownStatus(status)
    ensures status == PENDING ==> r == YELLOW
    ensures status == IN_PROGRESS ==> r == BLUE
    ensures status == RESOLVED ==> r == GREEN
    ensures status == REJECTED ==> r == RED
  {
    match status
    case "PENDING" => YELLOW
    case "IN_PROGRESS" => BLUE
    case "RESOLVED" => GREEN
    case "REJECTED" => RED
    case _ => GRAY
  }

  /** The four known statuses get four different colours. */
  lemma StatusColorDistinct(s: string, t: string)
    requires IsKnownStatus(s) && IsKnownStatus(t) && s != t
    ensures StatusColor(s) != StatusColor(t)
  {
  }

  /** The badge text: the first underscore becomes a space. */
  function StatusLabel(status: string): (r: string)
    ensures |r| == |status|
    ensures forall i :: 0 <= i < |status| && i != IndexOf(status, '_') ==> r[i] == status[i]
    ensures '_' in status ==> r[IndexOf(status, '_')] == ' '
    ensures '_' !in status ==> r == status
  {
    ReplaceFirstSpec(status, '_', ' ');
    ReplaceFirst(status, '_', ' ')
  }

  /** Replacing the first underscore of IN_PROGRESS gives "IN PROGRESS". */
  lemma ReplaceInProgress()
    ensures ReplaceFirst("IN_PROGRESS", '_', ' ') == "IN PROGRESS"
  {
    var s := "IN_PROGRESS";
    assert s[..2] == "IN";
    ReplaceFirstAt(s, 2, '_', ' ');
    assert s[3..] == "PROGRESS";
  }

  /** The IN_PROGRESS badge reads "IN PROGRESS"; the other three statuses
      have no underscore and are shown as stored. */
  lemma InProgressLabel()
    ensures StatusLabel(IN_PROGRESS) == "IN PROGRESS"
    ensures StatusLabel(PENDING) == PENDING && StatusLabel(RESOLVED) == RESOLVED && StatusLabel(REJECTED) == REJECTED
  {
    ReplaceInProgress();
    assert '_' !in PENDING;
    assert '_' !in RESOLVED;
    assert '_' !in REJECTED;
  }

  const DEFAULT_MAX_LENGTH: nat := 200

  /** `text.length <= maxLength ? text : text.substring(0, maxLength) + "..."` */
  function TruncateDescription(text: string, maxLength: nat): (r: string)
    ensures |text| <= maxLength ==> r == text
    ensures |text| > maxLength ==> |r| == maxLength + 3 && r[maxLength..] == "..."
    ensures text[..if |text| < maxLength then |text| else maxLength] <= r
    ensures |r| <= maxLength + 3
  {
    if |text| <= maxLength then text else text[..maxLength] + "..."
  }

  /** The Show More/Less toggle is rendered only for descriptions longer than 200. */
  predicate ShowsToggle(description: string)
    ensures !ShowsToggle(description) ==> TruncateDescription(description, DEFAULT_MAX_LENGTH) == description
    ensures ShowsToggle(description) ==> |TruncateDescription(description, DEFAULT_MAX_LENGTH)| == DEFAULT_MAX_LENGTH + 3
  {
    |description| > DEFAULT_MAX_LENGTH
  }

  /** The description text the card shows. */
  function DisplayedDescription(description: string, showFull: bool): (r: string)
    ensures showFull || !ShowsToggle(description) ==> r == description
    ensures !showFull ==> |r| <= DEFAULT_MAX_LENGTH + 3
  {
    if showFull then description else TruncateDescription(description, DEFAULT_MAX_LENGTH)
  }

  /** Nothing is hidden from a reader who cannot press the toggle: without it,
      the collapsed view is the whole description; with it, the collapsed view
      is cut to 200 characters followed by "...", and expanding shows it all. */
  lemma ToggleHidesOnlyWhenShown(description: string)
    ensures !ShowsToggle(description) ==> DisplayedDescription(description, false) == description
    ensures ShowsToggle(description) ==>
              DisplayedDescription(description, false) == description[..DEFAULT_MAX_LENGTH] + "..."
    ensures DisplayedDescription(description, true) == description
  {
  }

  datatype StepKind = Submitted | InProgressStep | ResolvedStep | RejectedStep

  /** A timeline entry and the date it shows (None: "Date not available"). */
  datatype TimelineStep = TimelineStep(kind: StepKind, date: Option<int>)

  /** The timeline shows a step of this kind. */
  predicate HasStep(r: seq<TimelineStep>, k: StepKind)
  {
    exists i :: 0 <= i < |r| && r[i].kind == k
  }

  /** The steps of the status timeline, top to bottom. */
  function Timeline(c: Complaint): (r: seq<TimelineStep>)
    ensures |r| >= 1 && r[0] == TimelineStep(Submitted, Some(c.createdAt))
    ensures HasStep(r, InProgressStep) <==> c.status != PENDING
    ensures HasStep(r, ResolvedStep) <==> c.status == RESOLVED
    ensures HasStep(r, RejectedStep) <==> c.status == REJECTED
    ensures forall i :: 0 <= i < |r| && r[i].kind == InProgressStep ==> r[i].date == c.updatedAt
    ensures forall i :: 0 <= i < |r| && (r[i].kind == ResolvedStep || r[i].kind == RejectedStep) ==>
              r[i].date == c.responseDate
  {
    var submitted := TimelineStep(Submitted, Some(c.createdAt));
    var inProgress := TimelineStep(InProgressStep, c.updatedAt);
    StatusesDistinct();
    if c.status == PENDING then [submitted]
    else if c.status == RESOLVED || c.status == REJECTED then
      var last := TimelineStep(if c.status == RESOLVED then ResolvedStep else RejectedStep, c.responseDate);
      var r := [submitted, inProgress, last];
      assert r[1].kind == InProgressStep && r[2] == last;
      r
    else
      var r := [submitted, inProgress];
      assert r[1].kind == InProgressStep;
      r
  }

  /** The timeline has one step for a pending complaint, three for a resolved
      or rejected one, and two otherwise (including unknown statuses). */
  lemma TimelineLength(c: Complaint)
    ensures c.status == PENDING ==> |Timeline(c)| == 1
    ensures c.status == RESOLVED || c.status == REJECTED ==> |Timeline(c)| == 3
    ensures c.status != PENDING && c.status != RESOLVED && c.status != REJECTED ==> |Timeline(c)| == 2
  {
  }
}
