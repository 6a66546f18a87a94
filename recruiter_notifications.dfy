/**
 * The recruiter's notification centre: notifications about interviews and
 * applications, filtered by tab, marked as read, and rescheduled through the
 * interview scheduler dialog when an applicant declined the proposed times.
 */
module RecruiterNotifications {
  import opened Wrappers
  import opened Text
  import opened Seqs

  datatype Notification = Notification(
    id: string, kind: string, title: string, message: string,
    applicantName: string, position: string, status: string, timestamp: string)

  /** The status of every entry with this id becomes `status`; every other entry, and the order, is kept. */
  function SetStatus(ns: seq<Notification>, id: string, status: string): (r: seq<Notification>)
    ensures |r| == |ns|
    ensures forall i :: 0 <= i < |ns| && ns[i].id == id ==> r[i] == ns[i].(status := status)
    ensures forall i :: 0 <= i < |ns| && ns[i].id != id ==> r[i] == ns[i]
  {
    seq(|ns|, i requires 0 <= i < |ns| => if ns[i].id == id then ns[i].(status := status) else ns[i])
  }

  /** Setting a status twice is setting it once; the ids, and so which entries match, never change. */
  lemma SetStatusIdempotent(ns: seq<Notification>, id: string, status: string)
    ensures SetStatus(SetStatus(ns, id, status), id, status) == SetStatus(ns, id, status)
    ensures forall i :: 0 <= i < |ns| ==> SetStatus(ns, id, status)[i].id == ns[i].id
  {
  }

  /** Whether a notification is listed on a tab; any tab other than the three named ones lists all. */
  predicate OnTab(n: Notification, tab: string) {
    if tab == "interviews" then Contains(n.kind, "interview")
    else if tab == "applications" then Contains(n.kind, "application")
    else if tab == "urgent" then n.status == "needs_reschedule" || n.status == "new"
    else true
  }

  /**
   * `getFilteredNotifications`: the entries listed on the tab, in order,
   * each as often as in the list; on an unnamed tab the list itself.
   */
  function FilteredNotifications(ns: seq<Notification>, tab: string): (r: seq<Notification>)
    ensures Subseq(r, ns)
    ensures forall i :: 0 <= i < |r| ==> OnTab(r[i], tab)
    ensures forall n :: multiset(r)[n] == if OnTab(n, tab) then multiset(ns)[n] else 0
    ensures tab !in {"interviews", "applications", "urgent"} ==> r == ns
  {
    if tab in {"interviews", "applications", "urgent"} then
      var p := (n: Notification) => OnTab(n, tab);
      FilterSpec(ns, p);
      Filter(ns, p)
    else
      SubseqRefl(ns);
      ns
  }

  /** A notification marked as read is no longer urgent. */
  lemma MarkedReadLeavesUrgent(ns: seq<Notification>, id: string)
    ensures forall n :: n in FilteredNotifications(SetStatus(ns, id, "read"), "urgent") ==> n.id != id
  {
    var m := SetStatus(ns, id, "read");
    var r := FilteredNotifications(m, "urgent");
    forall n | n in r ensures n.id != id {
      assert multiset(r)[n] > 0;
      assert n in m;
      var i :| 0 <= i < |m| && m[i] == n;
    }
  }

  datatype Badge = Badge(caption: string, classes: string)

  /** `getStatusBadge`: the badge of a known status; any other status shows the "new" badge. */
  function StatusBadge(status: string): Badge {
    if status == "needs_reschedule" then Badge("Action Required", "bg-red-100 text-red-800")
    else if status == "confirmed" then Badge("Confirmed", "bg-green-100 text-green-800")
    else if status == "completed" then Badge("Completed", "bg-gray-100 text-gray-800")
    else if status == "rescheduled" then Badge("Rescheduled", "bg-yellow-100 text-yellow-800")
    else if status == "read" then Badge("Read", "bg-gray-50 text-gray-600")
    else Badge("New", "bg-blue-100 text-blue-800")
  }

  /** The statuses the badge table names. */
  const KnownStatuses := {"needs_reschedule", "confirmed", "new", "completed", "rescheduled", "read"}

  /** Known statuses have badges of their own; an unknown one falls back to the "new" badge. */
  lemma StatusBadgeTable(a: string, b: string)
    ensures a !in KnownStatuses ==> StatusBadge(a) == StatusBadge("new")
    ensures a in KnownStatuses && b in KnownStatuses ==> (StatusBadge(a) == StatusBadge(b) <==> a == b)
  {
    if a in KnownStatuses && b in KnownStatuses && a != b {
      assert |StatusBadge(a).caption| != |StatusBadge(b).caption| || |StatusBadge(a).classes| != |StatusBadge(b).classes|;
    }
  }

  /** The Reschedule button is shown for declined interviews that still need rescheduling. */
  predicate RescheduleOffered(n: Notification) {
    n.kind == "interview_declined" && n.status == "needs_reschedule"
  }

  /** "Mark as Read" is shown for notifications not yet read. */
  predicate MarkReadOffered(n: Notification) {
    n.status != "read"
  }

  /** After a reschedule the notification's Reschedule button is gone. */
  lemma RescheduledNotOffered(ns: seq<Notification>, id: string)
    ensures forall i :: 0 <= i < |ns| && ns[i].id == id ==> !RescheduleOffered(SetStatus(ns, id, "rescheduled")[i])
    ensures forall i :: 0 <= i < |ns| && ns[i].id == id ==> !MarkReadOffered(SetStatus(ns, id, "read")[i])
  {
  }

  class Page {
    var notifications: seq<Notification>
    var activeTab: string
    var schedulerOpen: bool
    var selectedNotification: Option<Notification>

    constructor (initial: seq<Notification>)
      ensures notifications == initial && activeTab == "all" && !schedulerOpen && selectedNotification == None
    {
      notifications, activeTab, schedulerOpen, selectedNotification := initial, "all", false, None;
    }

    /** The scheduler dialog is rendered only while it is open and a notification is selected. */
    predicate SchedulerShown()
      reads this
    {
      schedulerOpen && selectedNotification.Some?
    }

    /** `handleReschedule`: selects the notification and opens the scheduler. */
    method HandleReschedule(n: Notification)
      modifies this`selectedNotification, this`schedulerOpen
      ensures selectedNotification == Some(n) && schedulerOpen && SchedulerShown()
    {
      selectedNotification := Some(n);
      schedulerOpen := true;
    }

    /**
     * `handleScheduleInterview` (the scheduler's `onSchedule`): the selected
     * notification's status becomes "rescheduled" and the selection is
     * cleared; with nothing selected nothing changes.
     */
    method HandleScheduleInterview()
      modifies this`notifications, this`selectedNotification
      ensures old(selectedNotification).None? ==> notifications == old(notifications) && selectedNotification == None
      ensures old(selectedNotification).Some? ==>
        notifications == SetStatus(old(notifications), old(selectedNotification).value.id, "rescheduled")
        && selectedNotification == None
    {
      if selectedNotification.Some? {
        notifications := SetStatus(notifications, selectedNotification.value.id, "rescheduled");
        selectedNotification := None;
      }
    }

    /** The scheduler's `onClose`: closes it and clears the selection. */
    method CloseScheduler()
      modifies this`schedulerOpen, this`selectedNotification
      ensures !schedulerOpen && selectedNotification == None && !SchedulerShown()
    {
      schedulerOpen, selectedNotification := false, None;
    }

    /** `handleMarkAsRead`: the entries with that id become "read". */
    method HandleMarkAsRead(id: string)
      modifies this`notifications
      ensures notifications == SetStatus(old(notifications), id, "read")
    {
      notifications := SetStatus(notifications, id, "read");
    }

    /** The tab list. */
    method SetActiveTab(tab: string)
      modifies this`activeTab
      ensures activeTab == tab
    {
      activeTab := tab;
    }
  }
}
