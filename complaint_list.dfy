/** The admin complaint table: which action buttons each row offers, the
    status each action requests, and the response-modal state. */
module ComplaintList {
  import opened Wrappers
  import opened Records

  /** The buttons of a row's Actions cell. */
  datatype Button = View | Start | ResolveButton | RejectButton

  /** The modal's action type. */
  datatype Action = Resolve | Reject

  /** The buttons offered for a complaint in the given status, in display order. */
  function OfferedButtons(status: string): (r: seq<Button>)
    ensures |r| >= 1 && r[0] == View
    ensures Start in r <==> status == PENDING
    ensures ResolveButton in r <==> status == PENDING || status == IN_PROGRESS
    ensures RejectButton in r <==> status == PENDING || status == IN_PROGRESS
    ensures status != PENDING && status != IN_PROGRESS ==> r == [View]
  {
    [View]
    + (if status == PENDING then [Start] else [])
    + (if status == PENDING || status == IN_PROGRESS then [ResolveButton, RejectButton] else [])
  }

  /** `actionType === "resolve" ? "RESOLVED" : "REJECTED"` */
  function ActionTarget(a: Action): (status: string)
    ensures status == RESOLVED <==> a == Resolve
    ensures status == REJECTED <==> a != Resolve
  {
    if a == Resolve then RESOLVED else REJECTED
  }

  /** The status a button eventually requests: Start directly, Resolve and
      Reject through the modal's action type; View requests none. */
  function ButtonTarget(b: Button): (r: Option<string>)
    ensures r.None? <==> b == View
  {
    match b
    case View => None
    case Start => Some(IN_PROGRESS)
    case ResolveButton => Some(ActionTarget(Resolve))
    case RejectButton => Some(ActionTarget(Reject))
  }

  /** The statuses reachable from a row in one user action. */
  function OfferedTargets(status: string): set<string>
  {
    set b | b in OfferedButtons(status) && ButtonTarget(b).Some? :: ButtonTarget(b).value
  }

  /** The transitions the table offers: PENDING may go to IN_PROGRESS, RESOLVED
      or REJECTED; IN_PROGRESS to RESOLVED or REJECTED; any other status to
      nothing. No offered target is the current status. */
  lemma OfferedTransitions(status: string)
    ensures status == PENDING ==> OfferedTargets(status) == {IN_PROGRESS, RESOLVED, REJECTED}
    ensures status == IN_PROGRESS ==> OfferedTargets(status) == {RESOLVED, REJECTED}
    ensures status != PENDING && status != IN_PROGRESS ==> OfferedTargets(status) == {}
    ensures status !in OfferedTargets(status)
    ensures forall t :: t in OfferedTargets(status) ==> IsKnownStatus(t)
  {
    var r := OfferedButtons(status);
    assert ButtonTarget(Start) == Some(IN_PROGRESS);
    assert ButtonTarget(ResolveButton) == Some(RESOLVED);
    assert ButtonTarget(RejectButton) == Some(REJECTED);
    if status == PENDING {
      assert r == [View, Start, ResolveButton, RejectButton];
    } else if status == IN_PROGRESS {
      assert r == [View, ResolveButton, RejectButton];
    } else {
      assert r == [View];
    }
  }

  /** The call a handler makes to `onStatusUpdate`. */
  datatype StatusRequest = StatusRequest(complaintId: string, newStatus: string, response: Option<string>)

  /** The table's local state. */
  class Table {
    var selectedComplaint: Option<Complaint>
    var isModalOpen: bool
    var actionType: Option<Action>
    var loading: bool

    /** Nothing selected, modal closed, not loading. */
    predicate Idle()
      reads this
    {
      selectedComplaint == None && !isModalOpen && actionType == None
    }

    constructor ()
      ensures Idle() && !loading
    {
      selectedComplaint, isModalOpen, actionType, loading := None, false, None, false;
    }

    /** Resolve or Reject clicked: remember the complaint and action, open the modal. */
    method HandleActionClick(c: Complaint, a: Action)
      modifies this
      ensures selectedComplaint == Some(c) && actionType == Some(a) && isModalOpen
      ensures loading == old(loading)
    {
      selectedComplaint := Some(c);
      actionType := Some(a);
      isModalOpen := true;
    }

    /** Closing the modal always clears the selection and the action. */
    method HandleModalClose()
      modifies this
      ensures Idle()
      ensures loading == old(loading)
    {
      isModalOpen := false;
      selectedComplaint := None;
      actionType := None;
    }

    /** Start clicked: request `newStatus` for the complaint; `success` is what
        `onStatusUpdate` resolved to. Success clears the modal state, failure
        keeps it; loading ends false either way. */
    method HandleStatusChange(complaintId: string, newStatus: string, success: bool)
      returns (request: StatusRequest)
      modifies this
      ensures request == StatusRequest(complaintId, newStatus, None)
      ensures success ==> Idle()
      ensures !success ==> selectedComplaint == old(selectedComplaint) && isModalOpen == old(isModalOpen)
                           && actionType == old(actionType)
      ensures !loading
    {
      loading := true;
      request := StatusRequest(complaintId, newStatus, None);
      if success {
        isModalOpen := false;
        selectedComplaint := None;
        actionType := None;
      }
      loading := false;
    }

    /** The modal's submit: without a selected complaint or an action type it
        does nothing and sends nothing; otherwise it requests the action's
        target status with the response text. */
    method HandleResponseSubmit(response: string, success: bool)
      returns (request: Option<StatusRequest>)
      modifies this
      ensures old(selectedComplaint).None? || old(actionType).None? ==>
                request == None && selectedComplaint == old(selectedComplaint) && isModalOpen == old(isModalOpen)
                && actionType == old(actionType) && loading == old(loading)
      ensures old(selectedComplaint).Some? && old(actionType).Some? ==>
                && request == Some(StatusRequest(old(selectedComplaint).value.id,
                                                 ActionTarget(old(actionType).value), Some(response)))
                && !loading
                && (success ==> Idle())
                && (!success ==> selectedComplaint == old(selectedComplaint) && isModalOpen == old(isModalOpen)
                                 && actionType == old(actionType))
    {
      if selectedComplaint.None? || actionType.None? {
        return None;
      }
      loading := true;
      var newStatus := ActionTarget(actionType.value);
      request := Some(StatusRequest(selectedComplaint.value.id, newStatus, Some(response)));
      if success {
        isModalOpen := false;
        selectedComplaint := None;
        actionType := None;
      }
      loading := false;
    }
  }
}
