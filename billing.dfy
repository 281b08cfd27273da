/** billing/models.py, billing/admin.py and the pure parts of billing/views.py:
    payment records and their enums, the delete-permission rules, the
    filtered totals of `payment_list` and the `pending_medicine_payments`
    listing. Amounts are integer cents. */
module Billing {
  import opened Common
  import opened CoreUtils
  import opened Users
  import opened Pharmacy

  datatype PaymentType = RegistrationFee | LabTestFee | MedicineFee | ConsultationFee | OtherFee

  datatype PaymentMethod = Cash | Card | Mobile | Insurance | MethodPending

  datatype PaymentStatus = Pending | Completed | Failed | Refunded

  /** A payment saved without an explicit status. */
  const DefaultPaymentStatus: PaymentStatus := PaymentStatus.Pending

  /** The registration fee, 50.00 in the clinic's currency. */
  const RegistrationFeeCents: int := 5000

  function PaymentTypeCode(t: PaymentType): string
  {
    match t
    case RegistrationFee => "REGISTRATION"
    case LabTestFee => "LAB_TEST"
    case MedicineFee => "MEDICINE"
    case ConsultationFee => "CONSULTATION"
    case OtherFee => "OTHER"
  }

  function PaymentMethodCode(m: PaymentMethod): string
  {
    match m
    case Cash => "CASH"
    case Card => "CARD"
    case Mobile => "MOBILE"
    case Insurance => "INSURANCE"
    case MethodPending => "PENDING"
  }

  function PaymentStatusCode(s: PaymentStatus): string
  {
    match s
    case Pending => "PENDING"
    case Completed => "COMPLETED"
    case Failed => "FAILED"
    case Refunded => "REFUNDED"
  }

  /** Reads a stored status back; anything outside the four choices is rejected. */
  function ParsePaymentStatus(code: string): (r: Option<PaymentStatus>)
    ensures r.Some? ==> PaymentStatusCode(r.value) == code
    ensures r.None? ==> forall s :: PaymentStatusCode(s) != code
  {
    if code == "PENDING" then Some(PaymentStatus.Pending)
    else if code == "COMPLETED" then Some(PaymentStatus.Completed)
    else if code == "FAILED" then Some(Failed)
    else if code == "REFUNDED" then Some(Refunded)
    else None
  }

  /** `payMethod` is the stored text: the payment views store whatever the
      form posted, without checking it against the choices. `patient` is a
      patient_id, the optional links are a visit_id, a request_id and a
      prescription_id; `createdOn` is the date part of `created_at`. */
  datatype Payment = Payment(
    paymentId: string,
    patient: string,
    visit: Option<string>,
    kind: PaymentType,
    payMethod: string,
    amount: int,
    status: PaymentStatus,
    labRequest: Option<string>,
    prescription: Option<string>,
    processedBy: UserId,
    createdOn: Date,
    receipt: Option<string>)

  /** The roles that may take payments (and see pending medicine payments). */
  predicate CanTakePayments(role: Role)
  {
    role == Cashier || role == Receptionist || role == Admin
  }

  // ------------------------------------------------------------ admin

  /** PaymentAdmin.has_delete_permission: a completed payment is never
      deletable; otherwise (and with no object) the default decides. */
  function HasDeletePermission(obj: Option<Payment>, default: bool): (allowed: bool)
    ensures obj.Some? && obj.value.status == PaymentStatus.Completed ==> !allowed
    ensures !(obj.Some? && obj.value.status == PaymentStatus.Completed) ==> allowed == default
  {
    if obj.Some? && obj.value.status == PaymentStatus.Completed then false else default
  }

  /** InvoiceAdmin.has_delete_permission: never. */
  function InvoiceHasDeletePermission(default: bool): (allowed: bool)
    ensures !allowed
  {
    false
  }

  /** Deletion is allowed only for a payment that is not completed and only
      when the default allows it. */
  lemma DeletablePayments(p: Payment, default: bool)
    ensures HasDeletePermission(Some(p), default) <==> default && p.status != PaymentStatus.Completed
    ensures HasDeletePermission(None, default) == default
  {
  }

  // ------------------------------------------------------------ payment_list

  /** The search form's cleaned data; an empty text field applies no filter. */
  datatype PaymentQuery = PaymentQuery(patientId: string, paymentId: string, dateFrom: Option<Date>, dateTo: Option<Date>)

  predicate Selected(q: PaymentQuery, p: Payment)
  {
    (q.patientId == "" || IContains(p.patient, q.patientId))
    && (q.paymentId == "" || IContains(p.paymentId, q.paymentId))
    && (q.dateFrom.None? || !DateBefore(p.createdOn, q.dateFrom.value))
    && (q.dateTo.None? || !DateBefore(q.dateTo.value, p.createdOn))
  }

  /** The payments listed; `query` is None when the form does not validate,
      and then nothing is filtered out. */
  function FilterPayments(ps: seq<Payment>, query: Option<PaymentQuery>): (r: seq<Payment>)
    ensures forall p :: p in r <==> p in ps && (query.None? || Selected(query.value, p))
    ensures |r| <= |ps|
  {
    if ps == [] then []
    else
      FilterPayments(ps[..|ps| - 1], query)
        + (if query.None? || Selected(query.value, ps[|ps| - 1]) then [ps[|ps| - 1]] else [])
  }

  /** `aggregate(Sum('amount'))` over the payments with one status, or 0. */
  function SumWhere(ps: seq<Payment>, status: PaymentStatus): int
  {
    if ps == [] then 0
    else SumWhere(ps[..|ps| - 1], status) + (if ps[|ps| - 1].status == status then ps[|ps| - 1].amount else 0)
  }

  function SumAll(ps: seq<Payment>): int
  {
    if ps == [] then 0 else SumAll(ps[..|ps| - 1]) + ps[|ps| - 1].amount
  }

  /** The two figures payment_list shows. */
  datatype Totals = Totals(paid: int, pending: int)

  /** Each figure sums the listed payments of its status; when none is listed
      the figure is 0, not missing. */
  function PaymentTotals(ps: seq<Payment>, query: Option<PaymentQuery>): (t: Totals)
    ensures (forall p :: p in FilterPayments(ps, query) ==> p.status != PaymentStatus.Completed) ==> t.paid == 0
    ensures (forall p :: p in FilterPayments(ps, query) ==> p.status != PaymentStatus.Pending) ==> t.pending == 0
  {
    var listed := FilterPayments(ps, query);
    SumWhereZero(listed, PaymentStatus.Completed);
    SumWhereZero(listed, PaymentStatus.Pending);
    Totals(SumWhere(listed, PaymentStatus.Completed), SumWhere(listed, PaymentStatus.Pending))
  }

  lemma SumWhereZero(ps: seq<Payment>, status: PaymentStatus)
    ensures (forall p :: p in ps ==> p.status != status) ==> SumWhere(ps, status) == 0
  {
    if forall p :: p in ps ==> p.status != status {
      SumWhereNone(ps, status);
    }
  }

  /** With no payment of that status the aggregate's None becomes 0. */
  lemma {:induction false} SumWhereNone(ps: seq<Payment>, status: PaymentStatus)
    requires forall k :: 0 <= k < |ps| ==> ps[k].status != status
    ensures SumWhere(ps, status) == 0
  {
    if ps != [] {
      SumWhereNone(ps[..|ps| - 1], status);
    }
  }

  /** The four per-status sums add up to the sum of all amounts. */
  lemma {:induction false} StatusSumsPartition(ps: seq<Payment>)
    ensures SumWhere(ps, PaymentStatus.Pending) + SumWhere(ps, PaymentStatus.Completed)
      + SumWhere(ps, Failed) + SumWhere(ps, Refunded) == SumAll(ps)
  {
    if ps != [] {
      StatusSumsPartition(ps[..|ps| - 1]);
    }
  }

  /** With non-negative amounts, neither total exceeds the listed payments' sum. */
  lemma {:induction false} TotalsBounded(ps: seq<Payment>, query: Option<PaymentQuery>)
    requires forall k :: 0 <= k < |ps| ==> ps[k].amount >= 0
    ensures var t := PaymentTotals(ps, query);
      0 <= t.paid && 0 <= t.pending && t.paid + t.pending <= SumAll(FilterPayments(ps, query))
  {
    var listed := FilterPayments(ps, query);
    assert forall k :: 0 <= k < |listed| ==> listed[k] in ps;
    StatusSumsPartition(listed);
    SumWhereNonNegative(listed, PaymentStatus.Pending);
    SumWhereNonNegative(listed, PaymentStatus.Completed);
    SumWhereNonNegative(listed, Failed);
    SumWhereNonNegative(listed, Refunded);
  }

  lemma {:induction false} SumWhereNonNegative(ps: seq<Payment>, status: PaymentStatus)
    requires forall k :: 0 <= k < |ps| ==> ps[k].amount >= 0
    ensures SumWhere(ps, status) >= 0
  {
    if ps != [] {
      SumWhereNonNegative(ps[..|ps| - 1], status);
    }
  }

  /** The per-status sum does not depend on the listing order. */
  lemma {:induction false} SumWhereOrderFree(a: seq<Payment>, b: seq<Payment>, status: PaymentStatus)
    requires multiset(a) == multiset(b)
    ensures SumWhere(a, status) == SumWhere(b, status)
    decreases |a|
  {
    if a != [] {
      var k := MatchLast(a, b);
      SumWhereOrderFree(a[..|a| - 1], b[..k] + b[k + 1..], status);
      SumWhereRemove(b, k, status);
      SumWhereAppend(a[..|a| - 1], [a[|a| - 1]], status);
      assert a == a[..|a| - 1] + [a[|a| - 1]];
    }
  }

  /** The last payment of `a` sits somewhere in its permutation `b`, and the
      rests are permutations of each other. */
  lemma MatchLast(a: seq<Payment>, b: seq<Payment>) returns (k: nat)
    requires multiset(a) == multiset(b) && a != []
    ensures k < |b| && b[k] == a[|a| - 1]
    ensures multiset(a[..|a| - 1]) == multiset(b[..k] + b[k + 1..])
  {
    var x := a[|a| - 1];
    assert a == a[..|a| - 1] + [x];
    assert x in multiset(b);
    k :| 0 <= k < |b| && b[k] == x;
    var rest := b[..k] + b[k + 1..];
    assert b == b[..k] + [x] + b[k + 1..];
    assert multiset(b) == multiset(rest) + multiset{x};
    assert multiset(a[..|a| - 1]) == multiset(a) - multiset{x};
    assert multiset(rest) == multiset(b) - multiset{x};
  }

  lemma SumWhereRemove(ps: seq<Payment>, k: nat, status: PaymentStatus)
    requires k < |ps|
    ensures SumWhere(ps, status) == SumWhere(ps[..k] + ps[k + 1..], status) + (if ps[k].status == status then ps[k].amount else 0)
  {
    assert ps == ps[..k] + [ps[k]] + ps[k + 1..];
    SumWhereAppend(ps[..k] + [ps[k]], ps[k + 1..], status);
    SumWhereAppend(ps[..k], ps[k + 1..], status);
    assert (ps[..k] + [ps[k]])[..k] == ps[..k];
  }

  lemma {:induction false} SumWhereAppend(a: seq<Payment>, b: seq<Payment>, status: PaymentStatus)
    ensures SumWhere(a + b, status) == SumWhere(a, status) + SumWhere(b, status)
    decreases |b|
  {
    if b == [] {
      assert a + b == a;
    } else {
      assert (a + b)[..|a + b| - 1] == a + b[..|b| - 1];
      SumWhereAppend(a, b[..|b| - 1], status);
    }
  }

  // ------------------------------------------------------------ pending medicine payments

  /** pending_medicine_payments: refused (None) outside the payment roles,
      otherwise the prescriptions in READY status. */
  function PendingMedicinePayments(role: Role, rxs: map<string, Prescription>): (r: Option<set<string>>)
    ensures r.None? <==> !CanTakePayments(role)
    ensures r.Some? ==> forall id :: id in r.value <==> id in rxs && rxs[id].status == Ready
  {
    if !CanTakePayments(role) then None
    else Some(set id | id in rxs && rxs[id].status == Ready)
  }

  /** A completed medicine payment for the prescription already exists. */
  predicate MedicinePaid(payments: map<string, Payment>, pid: string)
  {
    exists k :: k in payments && payments[k].prescription == Some(pid)
      && payments[k].kind == MedicineFee && payments[k].status == PaymentStatus.Completed
  }

  /** Some payment already carries this receipt number. */
  predicate ReceiptTaken(payments: map<string, Payment>, receipt: string)
  {
    exists k :: k in payments && payments[k].receipt == Some(receipt)
  }
}
