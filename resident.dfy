/**
  The resident dashboard: the notification raised for the latest visitor
  of each snapshot, once per visitor id; the approve action; the status
  icon; the "approved today" count; and the rows of the PDF export.
 */
module Resident {
  import opened Wrappers
  import opened Text
  import opened Seqs
  import opened UserTypes
  import opened VisitorList
  import opened Backend

  datatype Notification = Notification(id: string, title: string, message: string, imageUrl: string, timestamp: Stamp)

  /** The notification raised for a visitor; a visitor without an image shows the placeholder. */
  function NotificationFor(v: Visitor): (n: Notification)
    ensures n.id == v.id && n.title == "Visitor: " + v.name && n.message == v.purpose && n.timestamp == v.timestamp
    ensures n.imageUrl == if Truthy(v.imageUrl) then v.imageUrl.value else "/placeholder.svg"
  {
    Notification(v.id, "Visitor: " + v.name, v.purpose,
                 if Truthy(v.imageUrl) then v.imageUrl.value else "/placeholder.svg", v.timestamp)
  }

  function NotificationIds(ns: seq<Notification>): seq<string> {
    seq(|ns|, i requires 0 <= i < |ns| => ns[i].id)
  }

  /** The `setNotifications` updater: a notification whose id is listed is dropped, any other is prepended. */
  function AddNotification(ns: seq<Notification>, n: Notification): seq<Notification> {
    if n.id in NotificationIds(ns) then ns else [n] + ns
  }

  /** Adding keeps ids unique, always lists `n`'s id, and adding the same notification again changes nothing. */
  lemma AddNotificationSpec(ns: seq<Notification>, n: Notification)
    ensures NoDup(NotificationIds(ns)) ==> NoDup(NotificationIds(AddNotification(ns, n)))
    ensures n.id in NotificationIds(AddNotification(ns, n))
    ensures AddNotification(AddNotification(ns, n), n) == AddNotification(ns, n)
    ensures n.id !in NotificationIds(ns) ==> |AddNotification(ns, n)| == |ns| + 1
  {
    var r := AddNotification(ns, n);
    if n.id !in NotificationIds(ns) {
      assert NotificationIds(r) == [n.id] + NotificationIds(ns);
    }
  }

  /** `getStatusIcon`, on the stored status text. */
  datatype Icon = CheckCircle | XCircle | Clock

  function StatusIcon(status: string): (i: Icon)
    ensures i == CheckCircle <==> status == "approved"
    ensures i == XCircle <==> status == "rejected"
  {
    if status == "approved" then CheckCircle
    else if status == "rejected" then XCircle
    else Clock
  }

  /** Every status of the enumeration gets its own icon; pending gets the clock. */
  lemma StatusIconOnStatuses(st: Status)
    ensures StatusIcon(StatusName(st)) == match st case Approved => CheckCircle case Rejected => XCircle case Pending => Clock
  {
  }

  /** The Approve button is shown only for a pending visitor. */
  predicate ShowsApprove(v: Visitor) {
    v.status == Pending
  }

  /**
    Approving hides the button: after the update no visitor with that id
    shows Approve, and every other visitor shows it exactly as before.
   */
  lemma ApproveHidesButton(vs: seq<Visitor>, id: string)
    ensures forall i :: 0 <= i < |vs| ==>
      (ShowsApprove(SetStatus(vs, id, Approved)[i]) <==> vs[i].id != id && ShowsApprove(vs[i]))
  {
  }

  /** "Approved today", with the calendar comparison given as `isToday`. */
  function ApprovedToday(vs: seq<Visitor>, isToday: Stamp -> bool): nat {
    |Filter(vs, (v: Visitor) => v.status == Approved && isToday(v.timestamp))|
  }

  /** The visitors approved today are among the approved ones. */
  lemma {:induction false} ApprovedTodayBound(vs: seq<Visitor>, isToday: Stamp -> bool)
    ensures ApprovedToday(vs, isToday) <= CountStatus(vs, Approved)
  {
    if vs != [] {
      ApprovedTodayBound(vs[1..], isToday);
    }
  }

  /** A row of the PDF table; the timestamp is printed with the locale's format, which is not modelled. */
  datatype Row = Row(name: string, purpose: string, vehicleNumber: string, status: string, timestamp: Stamp)

  function RowOf(v: Visitor): (r: Row)
    ensures r.vehicleNumber == "N/A" <==> !Truthy(v.vehicleNumber) || v.vehicleNumber.value == "N/A"
    ensures Truthy(v.vehicleNumber) ==> r.vehicleNumber == v.vehicleNumber.value
    ensures r.name == v.name && r.purpose == v.purpose && r.status == StatusName(v.status) && r.timestamp == v.timestamp
  {
    Row(v.name, v.purpose, if Truthy(v.vehicleNumber) then v.vehicleNumber.value else "N/A", StatusName(v.status), v.timestamp)
  }

  datatype Export = NoVisitors | Table(rows: seq<Row>)

  /** `downloadVisitorsPdf`: an empty list is an error; otherwise one row per visitor, in order. */
  method PdfRows(vs: seq<Visitor>) returns (e: Export)
    ensures e.NoVisitors? <==> vs == []
    ensures e.Table? ==> |e.rows| == |vs| && forall i :: 0 <= i < |vs| ==> e.rows[i] == RowOf(vs[i])
  {
    if |vs| == 0 {
      return NoVisitors;
    }
    var rows: seq<Row> := [];
    var i := 0;
    while i < |vs|
      invariant 0 <= i <= |vs|
      invariant |rows| == i
      invariant forall j :: 0 <= j < i ==> rows[j] == RowOf(vs[j])
    {
      var v := vs[i];
      rows := rows + [Row(v.name, v.purpose, if Truthy(v.vehicleNumber) then v.vehicleNumber.value else "N/A",
                          StatusName(v.status), v.timestamp)];
      i := i + 1;
    }
    e := Table(rows);
  }

  class Dashboard {
    const email: string
    var visitors: seq<Visitor>
    var shown: set<string>
    var notifications: seq<Notification>

    constructor (email: string)
      ensures this.email == email && visitors == [] && shown == {} && notifications == []
    {
      this.email := email;
      visitors := [];
      shown := {};
      notifications := [];
    }

    /** The notification list holds no id twice, and every listed id has been shown. */
    predicate Valid()
      reads this
    {
      NoDup(NotificationIds(notifications)) &&
      forall i :: 0 <= i < |notifications| ==> notifications[i].id in shown
    }

    /**
      A snapshot of the resident's visitors, latest first. Only the latest
      visitor can raise a notification, and only if its id was never shown;
      its id is then recorded. `emailed` says whether the notification email
      is requested (the resident has an email address).
     */
    method OnSnapshot(vs: seq<Visitor>) returns (notified: bool, emailed: bool)
      requires Valid()
      modifies this
      ensures Valid()
      ensures visitors == vs
      ensures notified <==> vs != [] && vs[0].id !in old(shown)
      ensures emailed <==> notified && email != ""
      ensures notified ==> shown == old(shown) + {vs[0].id}
                           && notifications == AddNotification(old(notifications), NotificationFor(vs[0]))
                           && notifications == [NotificationFor(vs[0])] + old(notifications)
      ensures !notified ==> shown == old(shown) && notifications == old(notifications)
    {
      visitors := vs;
      notified, emailed := false, false;
      if |vs| > 0 {
        var latest := vs[0];
        if latest.id !in shown {
          emailed := email != "";
          var n := NotificationFor(latest);
          AddNotificationSpec(notifications, n);
          assert n.id !in NotificationIds(notifications);
          notifications := AddNotification(notifications, n);
          shown := shown + {latest.id};
          notified := true;
        }
      }
    }
  }

  /** `handleApproveVisitor`: without a database nothing is written; otherwise the status becomes approved. */
  method ApproveVisitor(store: Store, db: bool, id: string, ok: bool) returns (approved: bool)
    modifies store
    ensures approved <==> db && ok && HasId(old(store.docs), id)
    ensures approved ==> store.docs == SetStatus(old(store.docs), id, Approved)
    ensures !approved ==> store.docs == old(store.docs)
  {
    approved := false;
    if !db {
      return;
    }
    approved := store.UpdateStatus(id, Approved, ok);
  }
}
