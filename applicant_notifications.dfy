/**
 * The applicant's notification centre: interview and application updates,
 * filtered by tab, where an interview request can be answered by accepting
 * one of the proposed times or declining them all.
 */
module ApplicantNotifications {
  import opened Wrappers
  import opened Text
  import opened Seqs

  datatype Notification = Notification(
    id: string, kind: string, title: string, message: string, company: string,
    position: string, status: string, proposedDates: seq<string>, selectedDate: Option<string>)

  /** `handleAcceptInterview`: the entries with this id become "accepted" with the chosen time; the rest are kept. */
  function Accept(ns: seq<Notification>, id: string, date: string): (r: seq<Notification>)
    ensures |r| == |ns|
    ensures forall i :: 0 <= i < |ns| && ns[i].id == id ==>
      r[i] == ns[i].(status := "accepted", selectedDate := Some(date))
    ensures forall i :: 0 <= i < |ns| && ns[i].id != id ==> r[i] == ns[i]
  {
    seq(|ns|, i requires 0 <= i < |ns| =>
      if ns[i].id == id then ns[i].(status := "accepted", selectedDate := Some(date)) else ns[i])
  }

  /** `handleDeclineInterview`: the entries with this id become "declined"; the rest are kept. */
  function Decline(ns: seq<Notification>, id: string): (r: seq<Notification>)
    ensures |r| == |ns|
    ensures forall i :: 0 <= i < |ns| && ns[i].id == id ==> r[i] == ns[i].(status := "declined")
    ensures forall i :: 0 <= i < |ns| && ns[i].id != id ==> r[i] == ns[i]
  {
    seq(|ns|, i requires 0 <= i < |ns| => if ns[i].id == id then ns[i].(status := "declined") else ns[i])
  }

  /** Accept and decline are offered for interview requests awaiting a response. */
  predicate ResponseOffered(n: Notification) {
    n.kind == "interview_request" && n.status == "pending_response"
  }

  /** The times an Accept button is shown for: the proposed ones, while a response is awaited. */
  function AcceptChoices(n: Notification): (r: seq<string>)
    ensures ResponseOffered(n) ==> r == n.proposedDates
    ensures !ResponseOffered(n) ==> r == []
  {
    if ResponseOffered(n) then n.proposedDates else []
  }

  /** After either answer the request is no longer offered for an answer; other entries keep their offers. */
  lemma AnsweredNotOffered(ns: seq<Notification>, id: string, date: string)
    ensures forall i :: 0 <= i < |ns| ==>
      (ns[i].id == id ==> !ResponseOffered(Accept(ns, id, date)[i]) && !ResponseOffered(Decline(ns, id)[i]))
    ensures forall i :: 0 <= i < |ns| ==>
      (ns[i].id != id ==> ResponseOffered(Accept(ns, id, date)[i]) == ResponseOffered(ns[i])
                          && ResponseOffered(Decline(ns, id)[i]) == ResponseOffered(ns[i]))
  {
  }

  /** Whether a notification is listed on a tab; any tab other than the two named ones lists all. */
  predicate OnTab(n: Notification, tab: string) {
    if tab == "interviews" then Contains(n.kind, "interview")
    else if tab == "applications" then Contains(n.kind, "application")
    else true
  }

  /** `getFilteredNotifications`: the entries listed on the tab, in order; on an unnamed tab the list itself. */
  function FilteredNotifications(ns: seq<Notification>, tab: string): (r: seq<Notification>)
    ensures Subseq(r, ns)
    ensures forall i :: 0 <= i < |r| ==> OnTab(r[i], tab)
    ensures forall n :: multiset(r)[n] == if OnTab(n, tab) then multiset(ns)[n] else 0
    ensures tab !in {"interviews", "applications"} ==> r == ns
  {
    if tab in {"interviews", "applications"} then
      var p := (n: Notification) => OnTab(n, tab);
      FilterSpec(ns, p);
      Filter(ns, p)
    else
      SubseqRefl(ns);
      ns
  }

  /** Answering a request never moves it between tabs: the tabs look at the kind only. */
  lemma AnswerKeepsTabs(ns: seq<Notification>, id: string, date: string, tab: string)
    ensures forall i :: 0 <= i < |ns| ==> OnTab(Accept(ns, id, date)[i], tab) == OnTab(ns[i], tab)
    ensures forall i :: 0 <= i < |ns| ==> OnTab(Decline(ns, id)[i], tab) == OnTab(ns[i], tab)
  {
  }

  datatype Badge = Badge(caption: string, classes: string)

  /** `getStatusBadge`: the badge of a known status; any other status shows the "pending" badge. */
  function StatusBadge(status: string): Badge {
    if status == "approved" then Badge("Approved", "bg-green-100 text-green-800")
    else if status == "rejected" then Badge("Rejected", "bg-red-100 text-red-800")
    else if status == "accepted" then Badge("Accepted", "bg-blue-100 text-blue-800")
    else if status == "declined" then Badge("Declined", "bg-gray-100 text-gray-800")
    else if status == "pending_response" then Badge("Response Required", "bg-orange-100 text-orange-800")
    else Badge("Pending", "bg-yellow-100 text-yellow-800")
  }

  const KnownStatuses := {"pending", "approved", "rejected", "accepted", "declined", "pending_response"}

  /** Known statuses have badges of their own; an unknown one falls back to the "pending" badge. */
  lemma StatusBadgeTable(a: string, b: string)
    ensures a !in KnownStatuses ==> StatusBadge(a) == StatusBadge("pending")
    ensures a in KnownStatuses && b in KnownStatuses ==> (StatusBadge(a) == StatusBadge(b) <==> a == b)
  {
    if a in KnownStatuses && b in KnownStatuses && a != b {
      assert |StatusBadge(a).caption| != |StatusBadge(b).caption| || |StatusBadge(a).classes| != |StatusBadge(b).classes|
          || StatusBadge(a).caption[0] != StatusBadge(b).caption[0];
    }
  }

  class Page {
    var notifications: seq<Notification>
    var activeTab: string

    constructor (initial: seq<Notification>)
      ensures notifications == initial && activeTab == "all"
    {
      notifications, activeTab := initial, "all";
    }

    method HandleAcceptInterview(id: string, proposedDate: string)
      modifies this`notifications
      ensures notifications == Accept(old(notifications), id, proposedDate)
    {
      notifications := Accept(notifications, id, proposedDate);
    }

    method HandleDeclineInterview(id: string)
      modifies this`notifications
      ensures notifications == Decline(old(notifications), id)
    {
      notifications := Decline(notifications, id);
    }

    method SetActiveTab(tab: string)
      modifies this`activeTab
      ensures activeTab == tab
    {
      activeTab := tab;
    }
  }
}
