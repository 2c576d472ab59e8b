/**
 * The staff/head-of-department leave approval screen
 * (src/Screen/LeaveApproval.js): the fetched requests, the badge colours per
 * status, the guard that offers Approve / Reject / Forward, the calls those
 * buttons make, and the spinner / empty state / card list choice.
 */
module LeaveApproval {
  import opened Common

  /** A leave or OD request as the admin list returns it. */
  datatype LeaveRequest = LeaveRequest(
    id: string, rollNo: string, status: string, reason: string,
    filePath: string, forwarded: bool)

  datatype Badge = Badge(backgroundColor: string, color: string)

  /** The statuses that have a badge style. */
  const BadgeStatuses: set<string> := {"Approved", "Rejected", "pendingHod", "Pending"}

  /** `statusStyles[status]`: defined for the four known statuses only. */
  function StatusStyle(status: string): (badge: Option<Badge>)
    ensures badge.Some? <==> status in BadgeStatuses
  {
    if status == "Approved" then Some(Badge("#d4edda", "#155724"))
    else if status == "Rejected" then Some(Badge("#f8d7da", "#721c24"))
    else if status == "pendingHod" then Some(Badge("#d1c4e9", "#311b92"))
    else if status == "Pending" then Some(Badge("#fff3cd", "#856404"))
    else None
  }

  /** The four badges are pairwise different, so the badge identifies the status. */
  lemma StatusStyleInjective(s: string, t: string)
    requires StatusStyle(s).Some? && StatusStyle(s) == StatusStyle(t)
    ensures s == t
  {
  }

  /** Approve, Reject and Forward are offered for `req` to a viewer with role `userRole`. */
  predicate ActionsOffered(req: LeaveRequest, userRole: string)
  {
    req.status == "Pending" && !req.forwarded && userRole == "staff"
  }

  /**
   * Only a staff viewer is ever offered an action, and only on a request
   * that is still "Pending" and has not been forwarded.
   */
  lemma ActionsOnlyForStaffOnPending(req: LeaveRequest, userRole: string)
    ensures ActionsOffered(req, userRole) <==>
              userRole == "staff" && req.status == "Pending" && !req.forwarded
    ensures userRole == "hod" || userRole == "student" ==> !ActionsOffered(req, userRole)
    ensures req.forwarded ==> !ActionsOffered(req, userRole)
  {
  }

  datatype Decision = Approve | Reject

  /** The status an action button sends. */
  function DecisionStatus(d: Decision): (status: string)
    ensures d == Approve <==> status == "Approved"
    ensures d == Reject <==> status == "Rejected"
    ensures status in BadgeStatuses
  {
    match d
    case Approve => "Approved"
    case Reject => "Rejected"
  }

  lemma DecisionStatusInjective(d: Decision, e: Decision)
    requires DecisionStatus(d) == DecisionStatus(e)
    ensures d == e
  {
  }

  /** A PATCH request to the API: path and body fields. */
  datatype Patch = Patch(path: string, body: map<string, string>)

  /** `handleStatusUpdate(id, status)`: PATCH /api/leaverequest/<id> with `{ status }`. */
  function StatusUpdateCall(requestId: string, d: Decision): (call: Patch)
    ensures call.body.Keys == {"status"}
    ensures call.body["status"] == DecisionStatus(d)
    ensures call.path == "/api/leaverequest/" + requestId
  {
    Patch("/api/leaverequest/" + requestId, map["status" := DecisionStatus(d)])
  }

  /** `handleSendToHod(id)`: PATCH /api/leaverequest/foward/<id> (spelled so) with an empty body. */
  function ForwardCall(requestId: string): (call: Patch)
    ensures call.body == map[]
    ensures call.path == "/api/leaverequest/foward/" + requestId
  {
    Patch("/api/leaverequest/foward/" + requestId, map[])
  }

  /** What one request card shows. */
  datatype Card = Card(
    rollNo: string, status: string, badge: Badge, reason: string,
    documentButton: bool, actionButtons: bool)

  /**
   * The card for one request.  The source reads `statusStyles[req.status]`
   * unguarded, so a status without a style fails to render (`None`).
   */
  function RenderCard(req: LeaveRequest, userRole: string): (card: Option<Card>)
    ensures card.Some? <==> req.status in BadgeStatuses
    ensures card.Some? ==> (card.value.documentButton <==> req.filePath != "")
    ensures card.Some? ==> (card.value.actionButtons <==> ActionsOffered(req, userRole))
    ensures card.Some? ==> card.value.rollNo == req.rollNo && card.value.status == req.status
  {
    match StatusStyle(req.status)
    case None => None
    case Some(badge) =>
      Some(Card(req.rollNo, req.status, badge, req.reason, req.filePath != "", ActionsOffered(req, userRole)))
  }

  datatype View = Spinner | EmptyState | Cards(cards: seq<Option<Card>>)

  /** Spinner while loading, else the empty state, else one card per request in fetched order. */
  function Render(loading: bool, requests: seq<LeaveRequest>, userRole: string): (v: View)
    ensures loading <==> v.Spinner?
    ensures v.EmptyState? <==> !loading && requests == []
    ensures v.Cards? ==> |v.cards| == |requests| > 0
    ensures v.Cards? ==> forall i :: 0 <= i < |requests| ==> v.cards[i] == RenderCard(requests[i], userRole)
  {
    if loading then Spinner
    else if |requests| == 0 then EmptyState
    else Cards(seq(|requests|, i requires 0 <= i < |requests| => RenderCard(requests[i], userRole)))
  }

  /**
   * The list after `fetchRequests` with outcome `res`: a success stores the
   * returned list (the empty list when the body has no `data`); a failure or
   * an exception keeps the current list.
   */
  function FetchedRequests(current: seq<LeaveRequest>, res: Outcome<Option<seq<LeaveRequest>>>): (next: seq<LeaveRequest>)
    ensures !res.Success? ==> next == current
    ensures res.Success? && res.data.Some? ==> next == res.data.value
    ensures res.Success? && res.data.None? ==> next == []
  {
    match res
    case Success(Some(list)) => list
    case Success(None) => []
    case _ => current
  }

  class LeaveApprovalScreen {
    var requests: seq<LeaveRequest>
    var loading: bool
    var userRole: string
    /** The PATCH requests sent, oldest first. */
    var sent: seq<Patch>

    constructor ()
      ensures requests == [] && !loading && userRole == "" && sent == []
    {
      requests := [];
      loading := false;
      userRole := "";
      sent := [];
    }

    /** The mount effect: a decoded token sets the viewer's role; otherwise it stays. */
    method FetchUserRole(token: TokenRead)
      modifies this
      ensures userRole == if token.Decoded? then token.claims.roles else old(userRole)
      ensures requests == old(requests) && loading == old(loading) && sent == old(sent)
    {
      if token.Decoded? {
        userRole := token.claims.roles;
      }
    }

    /**
     * `fetchRequests`: a refusal alerts the server's message, an exception
     * a fixed error; loading is over afterwards whatever the outcome.
     */
    method FetchRequests(res: Outcome<Option<seq<LeaveRequest>>>) returns (alert: Option<Alert>)
      modifies this
      ensures !loading
      ensures requests == FetchedRequests(old(requests), res)
      ensures alert.None? <==> res.Success?
      ensures res.Failure? ==> alert == Some(Alert("Error", res.message))
      ensures res.Threw? ==> alert == Some(Alert("Error", "Failed to fetch requests."))
      ensures userRole == old(userRole) && sent == old(sent)
    {
      loading := true;
      match res {
        case Success(data) =>
          requests := match data case Some(list) => list case None => [];
          alert := None;
        case Failure(message) =>
          alert := Some(Alert("Error", message));
        case Threw(_) =>
          alert := Some(Alert("Error", "Failed to fetch requests."));
      }
      loading := false;
    }

    /**
     * Approve or Reject: sends the status; a success alerts and re-fetches
     * the list with `refetch` (whose own alert, if any, follows).
     */
    method HandleStatusUpdate(requestId: string, d: Decision, res: Outcome<()>,
                              refetch: Outcome<Option<seq<LeaveRequest>>>) returns (alerts: seq<Alert>)
      modifies this
      ensures sent == old(sent) + [StatusUpdateCall(requestId, d)]
      ensures res.Success? ==> !loading && requests == FetchedRequests(old(requests), refetch)
      ensures res.Success? ==> |alerts| >= 1 && alerts[0] == Alert("Success", "Status updated successfully")
      ensures !res.Success? ==> requests == old(requests) && loading == old(loading)
      ensures res.Failure? ==> alerts == [Alert("Error", res.message)]
      ensures res.Threw? ==> alerts == [Alert("Error", "Failed to update status.")]
      ensures userRole == old(userRole)
    {
      sent := sent + [StatusUpdateCall(requestId, d)];
      match res {
        case Success(_) =>
          var fetchAlert := FetchRequests(refetch);
          alerts := [Alert("Success", "Status updated successfully")] +
                    (if fetchAlert.Some? then [fetchAlert.value] else []);
        case Failure(message) =>
          alerts := [Alert("Error", message)];
        case Threw(_) =>
          alerts := [Alert("Error", "Failed to update status.")];
      }
    }

    /**
     * Forward to the head of department: a success alerts and re-fetches
     * the list with `refetch`; a refusal and an exception alert the same
     * error.
     */
    method HandleSendToHod(requestId: string, res: Outcome<()>,
                           refetch: Outcome<Option<seq<LeaveRequest>>>) returns (alerts: seq<Alert>)
      modifies this
      ensures sent == old(sent) + [ForwardCall(requestId)]
      ensures res.Success? ==> !loading && requests == FetchedRequests(old(requests), refetch)
      ensures res.Success? ==> |alerts| >= 1 && alerts[0] == Alert("Success", "Request sent to HOD")
      ensures !res.Success? ==> requests == old(requests) && loading == old(loading)
      ensures !res.Success? ==> alerts == [Alert("Error", "Failed to send request to HOD")]
      ensures userRole == old(userRole)
    {
      sent := sent + [ForwardCall(requestId)];
      if res.Success? {
        var fetchAlert := FetchRequests(refetch);
        alerts := [Alert("Success", "Request sent to HOD")] +
                  (if fetchAlert.Some? then [fetchAlert.value] else []);
      } else {
        alerts := [Alert("Error", "Failed to send request to HOD")];
      }
    }
  }
}
