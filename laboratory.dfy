/** laboratory/models.py and the pure part of laboratory/views.py: lab test
    types, lab requests with their six statuses, test results, and the
    role-based listing of `lab_requests_list`. */
module Laboratory {
  import opened Common
  import opened Users

  datatype LabStatus = Requested | PaymentPending | PaymentCompleted | InProgress | Completed | Cancelled

  /** A lab request saved without an explicit status. */
  const DefaultLabStatus: LabStatus := Requested

  function LabStatusCode(s: LabStatus): string
  {
    match s
    case Requested => "REQUESTED"
    case PaymentPending => "PAYMENT_PENDING"
    case PaymentCompleted => "PAYMENT_COMPLETED"
    case InProgress => "IN_PROGRESS"
    case Completed => "COMPLETED"
    case Cancelled => "CANCELLED"
  }

  function ParseLabStatus(code: string): (r: Option<LabStatus>)
    ensures r.Some? ==> LabStatusCode(r.value) == code
    ensures r.None? ==> forall s :: LabStatusCode(s) != code
  {
    if code == "REQUESTED" then Some(Requested)
    else if code == "PAYMENT_PENDING" then Some(PaymentPending)
    else if code == "PAYMENT_COMPLETED" then Some(PaymentCompleted)
    else if code == "IN_PROGRESS" then Some(InProgress)
    else if code == "COMPLETED" then Some(Completed)
    else if code == "CANCELLED" then Some(Cancelled)
    else None
  }

  /** Prices are integer cents. */
  datatype LabTestType = LabTestType(name: string, price: int, isActive: bool)

  /** `requestedAt` is the `requested_at` timestamp as a tick count. */
  datatype LabRequest = LabRequest(
    requestId: string,
    visit: string,
    testType: nat,
    requestedBy: UserId,
    assignedTo: Option<UserId>,
    status: LabStatus,
    requestedAt: int)

  datatype TestResult = TestResult(performedBy: UserId, resultData: string, findings: string, interpretation: string)

  /** The queryset `lab_requests_list` starts from: a lab technician sees the
      requests assigned to them, a doctor those they made, anyone else all. */
  predicate VisibleTo(viewer: UserId, role: Role, r: LabRequest)
  {
    if role == LabTech then r.assignedTo == Some(viewer)
    else if role == Doctor then r.requestedBy == viewer
    else true
  }

  function VisibleRequests(viewer: UserId, role: Role, rows: seq<LabRequest>): (vs: seq<LabRequest>)
    ensures forall r :: r in vs <==> r in rows && VisibleTo(viewer, role, r)
    ensures |vs| <= |rows|
  {
    if rows == [] then []
    else (if VisibleTo(viewer, role, rows[0]) then [rows[0]] else []) + VisibleRequests(viewer, role, rows[1..])
  }

  /** Ordered by `-requested_at`: newest first. */
  predicate NewestFirst(s: seq<LabRequest>)
  {
    forall i, j :: 0 <= i < j < |s| ==> s[i].requestedAt >= s[j].requestedAt
  }

  /** Places `r` into a newest-first sequence. */
  function InsertByTime(r: LabRequest, s: seq<LabRequest>): (t: seq<LabRequest>)
    requires NewestFirst(s)
    ensures NewestFirst(t)
    ensures multiset(t) == multiset(s) + multiset{r}
    ensures |t| == |s| + 1 && (t[0] == r || (s != [] && t[0] == s[0]))
  {
    if s == [] then [r]
    else if r.requestedAt >= s[0].requestedAt then
      ConsNewestFirst(r, s);
      [r] + s
    else
      var rest := InsertByTime(r, s[1..]);
      ConsNewestFirst(s[0], rest);
      assert s == [s[0]] + s[1..];
      [s[0]] + rest
  }

  /** A request no older than the head of a newest-first sequence can go in front. */
  lemma ConsNewestFirst(x: LabRequest, rest: seq<LabRequest>)
    requires NewestFirst(rest) && (rest != [] ==> x.requestedAt >= rest[0].requestedAt)
    ensures NewestFirst([x] + rest)
  {
    var t := [x] + rest;
    forall i, j | 0 <= i < j < |t| ensures t[i].requestedAt >= t[j].requestedAt {
      if i > 0 {
        assert t[i] == rest[i - 1] && t[j] == rest[j - 1];
      } else {
        assert t[j] == rest[j - 1];
      }
    }
  }

  /** Sorts newest first, keeping exactly the same requests. */
  function SortNewestFirst(s: seq<LabRequest>): (t: seq<LabRequest>)
    ensures NewestFirst(t)
    ensures multiset(t) == multiset(s)
  {
    if s == [] then []
    else
      var t := InsertByTime(s[0], SortNewestFirst(s[1..]));
      assert s == [s[0]] + s[1..];
      t
  }

  /** lab_requests_list: the visible requests, newest first. */
  function LabRequestsList(viewer: UserId, role: Role, rows: seq<LabRequest>): (listed: seq<LabRequest>)
    ensures NewestFirst(listed)
    ensures multiset(listed) == multiset(VisibleRequests(viewer, role, rows))
  {
    SortNewestFirst(VisibleRequests(viewer, role, rows))
  }

  /** What each role sees: technicians their assignments, doctors their own
      requests, everyone else every request. */
  lemma LabRequestsListMembers(viewer: UserId, role: Role, rows: seq<LabRequest>, r: LabRequest)
    ensures r in LabRequestsList(viewer, role, rows) <==>
      r in rows &&
      (role == LabTech ==> r.assignedTo == Some(viewer)) &&
      (role == Doctor ==> r.requestedBy == viewer)
  {
    var listed := LabRequestsList(viewer, role, rows);
    assert r in listed <==> r in multiset(listed);
    assert r in VisibleRequests(viewer, role, rows) <==> r in multiset(VisibleRequests(viewer, role, rows));
  }
}
