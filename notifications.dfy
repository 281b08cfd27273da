/** core/models.py: notification records and the recipient selection of the
    post_save handlers, which notify every active user of one role. */
module Notifications {
  import opened Common
  import opened Users

  datatype NotificationType =
    | LabRequestNote | LabResultNote | PrescriptionNote | PaymentNote
    | SystemNote | PatientAssignmentNote | ConsultationReadyNote

  /** The value stored in `notification_type`. */
  function NotificationTypeCode(t: NotificationType): string
  {
    match t
    case LabRequestNote => "LAB_REQUEST"
    case LabResultNote => "LAB_RESULT"
    case PrescriptionNote => "PRESCRIPTION"
    case PaymentNote => "PAYMENT"
    case SystemNote => "SYSTEM"
    case PatientAssignmentNote => "PATIENT_ASSIGNMENT"
    case ConsultationReadyNote => "CONSULTATION_READY"
  }

  /** The message body is free text built from names and is not modelled. */
  datatype Notification = Notification(
    recipient: UserId,
    kind: NotificationType,
    title: string,
    relatedObjectId: string,
    isRead: bool)

  /** `Notification.objects.create(...)`: a new notification is unread. */
  function NewNotification(recipient: UserId, kind: NotificationType, title: string, related: string): (n: Notification)
    ensures !n.isRead
    ensures n.recipient == recipient && n.kind == kind && n.title == title && n.relatedObjectId == related
  {
    Notification(recipient, kind, title, related, false)
  }

  /** `User.objects.filter(role=role, is_active=True)` over the first n rows of
      the staff table, in table order. */
  function ActiveWithRole(users: seq<User>, role: Role, n: nat): (ids: seq<UserId>)
    requires n <= |users|
    ensures forall k :: 0 <= k < |ids| ==> ids[k] < n
  {
    if n == 0 then []
    else
      ActiveWithRole(users, role, n - 1)
        + (if users[n - 1].role == role && users[n - 1].isActive then [n - 1] else [])
  }

  /** A user is selected exactly when it is active and has the role. */
  lemma {:induction false} ActiveWithRoleMembers(users: seq<User>, role: Role, n: nat)
    requires n <= |users|
    ensures forall id: UserId :: id in ActiveWithRole(users, role, n) <==>
      id < n && users[id].role == role && users[id].isActive
  {
    if n > 0 {
      ActiveWithRoleMembers(users, role, n - 1);
      var prev := ActiveWithRole(users, role, n - 1);
      var last := if users[n - 1].role == role && users[n - 1].isActive then [n - 1] else [];
      assert ActiveWithRole(users, role, n) == prev + last;
      assert forall id :: id in prev + last <==> id in prev || id in last;
    }
  }

  /** The selection lists each user at most once (it is strictly increasing). */
  lemma {:induction false} ActiveWithRoleIncreasing(users: seq<User>, role: Role, n: nat)
    requires n <= |users|
    ensures StrictlyIncreasing(ActiveWithRole(users, role, n))
  {
    if n > 0 {
      ActiveWithRoleIncreasing(users, role, n - 1);
      var prev := ActiveWithRole(users, role, n - 1);
      var last := if users[n - 1].role == role && users[n - 1].isActive then [n - 1] else [];
      var ids := prev + last;
      forall i, j | 0 <= i < j < |ids| ensures ids[i] < ids[j] {
        if j >= |prev| {
          assert |last| <= 1 && i < |prev|;
          assert ids[j] == n - 1;
          assert ids[i] == prev[i] < n - 1;
        } else {
          assert ids[i] == prev[i] && ids[j] == prev[j];
        }
      }
    }
  }

  /** One notification per listed recipient, in order. */
  function Broadcast(ids: seq<UserId>, kind: NotificationType, title: string, related: string): (ns: seq<Notification>)
    ensures |ns| == |ids|
    ensures forall k :: 0 <= k < |ids| ==> ns[k] == NewNotification(ids[k], kind, title, related)
  {
    if ids == [] then [] else [NewNotification(ids[0], kind, title, related)] + Broadcast(ids[1..], kind, title, related)
  }

  /** What a handler that notifies every active user of `role` appends. */
  function NotifyRole(users: seq<User>, role: Role, kind: NotificationType, title: string, related: string): seq<Notification>
  {
    Broadcast(ActiveWithRole(users, role, |users|), kind, title, related)
  }

  /** Number of notifications in `ns` addressed to `u`. */
  function CountFor(ns: seq<Notification>, u: UserId): nat
  {
    if ns == [] then 0 else (if ns[0].recipient == u then 1 else 0) + CountFor(ns[1..], u)
  }

  lemma {:induction false} CountForAppend(a: seq<Notification>, b: seq<Notification>, u: UserId)
    ensures CountFor(a + b, u) == CountFor(a, u) + CountFor(b, u)
  {
    if a == [] {
      assert a + b == b;
    } else {
      assert (a + b)[1..] == a[1..] + b;
      CountForAppend(a[1..], b, u);
    }
  }

  /** Every active user of the role receives exactly one notification and
      nobody else receives any. */
  lemma NotifyRoleExactlyOnce(users: seq<User>, role: Role, kind: NotificationType, title: string, related: string, u: UserId)
    ensures CountFor(NotifyRole(users, role, kind, title, related), u) ==
      if u < |users| && users[u].role == role && users[u].isActive then 1 else 0
  {
    RoleNotesAreBroadcast(users, role, |users|, kind, title, related);
    RoleNotesCount(users, role, |users|, kind, title, related, u);
  }

  lemma {:induction false} RoleNotesCount(users: seq<User>, role: Role, n: nat, kind: NotificationType, title: string, related: string, u: UserId)
    requires n <= |users|
    ensures CountFor(RoleNotes(users, role, n, kind, title, related), u) ==
      if u < n && users[u].role == role && users[u].isActive then 1 else 0
  {
    if n > 0 {
      RoleNotesCount(users, role, n - 1, kind, title, related, u);
      var last := if users[n - 1].role == role && users[n - 1].isActive then [NewNotification(n - 1, kind, title, related)] else [];
      CountForAppend(RoleNotes(users, role, n - 1, kind, title, related), last, u);
      assert CountFor(last, u) == if u == n - 1 && users[n - 1].role == role && users[n - 1].isActive then 1 else 0 by {
        if last != [] {
          assert last[1..] == [];
        }
      }
    }
  }

  lemma {:induction false} BroadcastAppend(a: seq<UserId>, b: seq<UserId>, kind: NotificationType, title: string, related: string)
    ensures Broadcast(a + b, kind, title, related) == Broadcast(a, kind, title, related) + Broadcast(b, kind, title, related)
  {
    var l, r := Broadcast(a + b, kind, title, related), Broadcast(a, kind, title, related) + Broadcast(b, kind, title, related);
    assert |l| == |r|;
    forall k | 0 <= k < |l| ensures l[k] == r[k] {
      if k < |a| {
        assert (a + b)[k] == a[k];
      } else {
        assert (a + b)[k] == b[k - |a|];
      }
    }
  }

  /** Looking at one more user extends the fan-out by that user's
      notification, when the user is active and has the role. */
  lemma BroadcastStep(users: seq<User>, role: Role, i: nat, kind: NotificationType, title: string, related: string)
    requires i < |users|
    ensures Broadcast(ActiveWithRole(users, role, i + 1), kind, title, related)
      == Broadcast(ActiveWithRole(users, role, i), kind, title, related)
        + (if users[i].role == role && users[i].isActive then [NewNotification(i, kind, title, related)] else [])
  {
    BroadcastAppend(ActiveWithRole(users, role, i), if users[i].role == role && users[i].isActive then [i] else [], kind, title, related);
  }

  /** The notifications the handler loop has created once it has looked at
      the first n rows of the staff table. */
  function RoleNotes(users: seq<User>, role: Role, n: nat, kind: NotificationType, title: string, related: string): seq<Notification>
    requires n <= |users|
  {
    if n == 0 then []
    else
      RoleNotes(users, role, n - 1, kind, title, related)
        + (if users[n - 1].role == role && users[n - 1].isActive then [NewNotification(n - 1, kind, title, related)] else [])
  }

  /** The loop's notifications are the fan-out to the selected users. */
  lemma {:induction false} RoleNotesAreBroadcast(users: seq<User>, role: Role, n: nat, kind: NotificationType, title: string, related: string)
    requires n <= |users|
    ensures RoleNotes(users, role, n, kind, title, related) == Broadcast(ActiveWithRole(users, role, n), kind, title, related)
  {
    if n > 0 {
      RoleNotesAreBroadcast(users, role, n - 1, kind, title, related);
      BroadcastStep(users, role, n - 1, kind, title, related);
    }
  }
}
