/** The clinic's workflow as operations on one store: each POST handler of
    patients/, laboratory/, billing/ and pharmacy/ views becomes a method of
    `Clinic` that checks what the view checks, in the view's order, updates
    the tables and appends the notifications that the view and the post_save
    handlers of core/models.py create. Each method returns the outcome the
    view's redirect or JSON reply stands for. Records are keyed by their
    business id (visit_id, request_id, prescription_id, payment_id,
    patient_id); rows without one (users, test types, medicines, prescription
    items) are identified by their position. */
module Workflow {
  import opened Common
  import opened CoreUtils
  import opened Users
  import opened Notifications
  import opened Patients
  import opened Laboratory
  import opened Pharmacy
  import opened Billing

  datatype Outcome =
    | Ok
    | PermissionDenied
    | NotFound
    | WrongState
    | FormInvalid
    | AlreadyPaid
    | InsufficientStock(item: nat)
    | Error

  /** Every table the workflow touches. Examinations are keyed by their
      (one-to-one) visit, test results by their (one-to-one) lab request and
      carts by their (one-to-one) prescription. */
  datatype Store = Store(
    medicines: seq<Medicine>,
    patients: map<string, Patient>,
    visits: map<string, Visit>,
    examinations: map<string, Examination>,
    labRequests: map<string, LabRequest>,
    testResults: map<string, TestResult>,
    prescriptions: map<string, Prescription>,
    prescriptionItems: seq<PrescriptionItem>,
    carts: map<string, Cart>,
    cartItems: seq<CartItem>,
    nextCartItemId: nat,
    payments: map<string, Payment>,
    notifications: seq<Notification>)

  // ------------------------------------------------------------ schema invariants

  predicate PatientsOk(patients: map<string, Patient>, nUsers: nat)
  {
    forall id :: id in patients ==> patients[id].createdBy < nUsers
  }

  predicate VisitsOk(visits: map<string, Visit>, patients: map<string, Patient>, nUsers: nat)
  {
    forall id :: id in visits ==> visits[id].patient in patients && visits[id].assignedDoctor < nUsers
  }

  predicate ExaminationsOk(exams: map<string, Examination>, visits: map<string, Visit>, nUsers: nat)
  {
    forall id :: id in exams ==> id in visits && exams[id].createdBy < nUsers
  }

  /** A lab request row stored under `id`: request_id is the key, the
      references exist, and assigned_to is empty or a lab technician. */
  predicate LabRequestOk(r: LabRequest, id: string, visits: map<string, Visit>, users: seq<User>, nTypes: nat)
  {
    r.requestId == id && r.visit in visits && r.testType < nTypes && r.requestedBy < |users|
    && (r.assignedTo.Some? ==> r.assignedTo.value < |users| && users[r.assignedTo.value].role == LabTech)
  }

  predicate LabRequestsOk(reqs: map<string, LabRequest>, visits: map<string, Visit>, users: seq<User>, nTypes: nat)
  {
    forall id :: id in reqs ==> LabRequestOk(reqs[id], id, visits, users, nTypes)
  }

  predicate ResultsOk(results: map<string, TestResult>, reqs: map<string, LabRequest>, nUsers: nat)
  {
    forall id :: id in results ==> id in reqs && results[id].performedBy < nUsers
  }

  /** A visit has at most one prescription. */
  predicate PrescriptionsOk(rxs: map<string, Prescription>, visits: map<string, Visit>, nUsers: nat)
  {
    (forall id :: id in rxs ==> rxs[id].visit in visits && rxs[id].prescribedBy < nUsers)
    && (forall a, b :: a in rxs && b in rxs && a != b ==> rxs[a].visit != rxs[b].visit)
  }

  predicate ItemsOk(items: seq<PrescriptionItem>, rxs: map<string, Prescription>, nMeds: nat)
  {
    (forall k :: 0 <= k < |items| ==> items[k].prescription in rxs && items[k].medicine < nMeds)
    && UniqueItems(items)
  }

  predicate CartsOk(carts: map<string, Cart>, rxs: map<string, Prescription>, nUsers: nat)
  {
    forall id :: id in carts ==> id in rxs && carts[id].pharmacist < nUsers
  }

  predicate CartRowsOk(rows: seq<CartItem>, carts: map<string, Cart>, nItems: nat, nextId: nat)
  {
    (forall k :: 0 <= k < |rows| ==> rows[k].cart in carts && rows[k].item < nItems && rows[k].id < nextId)
    && UniqueCartRows(rows)
  }

  /** Every cart's total is the sum of its rows' subtotals. */
  predicate CartTotalsOk(carts: map<string, Cart>, rows: seq<CartItem>)
  {
    forall id :: id in carts ==> carts[id].totalAmount == CartSum(rows, id)
  }

  /** The references of a payment exist: they are PROTECT foreign keys. */
  predicate PaymentRefsOk(p: Payment, patients: map<string, Patient>, visits: map<string, Visit>,
                          reqs: map<string, LabRequest>, rxs: map<string, Prescription>, nUsers: nat)
  {
    p.patient in patients
    && (p.visit.Some? ==> p.visit.value in visits)
    && (p.labRequest.Some? ==> p.labRequest.value in reqs)
    && (p.prescription.Some? ==> p.prescription.value in rxs)
    && p.processedBy < nUsers
  }

  /** payment_id is the key, the references exist, and receipt numbers are
      unique where present. */
  predicate PaymentsOk(payments: map<string, Payment>, patients: map<string, Patient>, visits: map<string, Visit>,
                       reqs: map<string, LabRequest>, rxs: map<string, Prescription>, nUsers: nat)
  {
    (forall id :: id in payments ==>
      payments[id].paymentId == id && PaymentRefsOk(payments[id], patients, visits, reqs, rxs, nUsers))
    && (forall a, b :: a in payments && b in payments && a != b && payments[a].receipt.Some? ==>
      payments[a].receipt != payments[b].receipt)
  }

  /** Notifications go to existing users and are unread (nothing here marks them read). */
  predicate NotificationsOk(ns: seq<Notification>, nUsers: nat)
  {
    forall k :: 0 <= k < |ns| ==> ns[k].recipient < nUsers && !ns[k].isRead
  }

  predicate ValidStore(s: Store, users: seq<User>, testTypes: seq<LabTestType>)
  {
    PatientsOk(s.patients, |users|)
    && VisitsOk(s.visits, s.patients, |users|)
    && ExaminationsOk(s.examinations, s.visits, |users|)
    && LabRequestsOk(s.labRequests, s.visits, users, |testTypes|)
    && ResultsOk(s.testResults, s.labRequests, |users|)
    && PrescriptionsOk(s.prescriptions, s.visits, |users|)
    && ItemsOk(s.prescriptionItems, s.prescriptions, |s.medicines|)
    && CartsOk(s.carts, s.prescriptions, |users|)
    && CartRowsOk(s.cartItems, s.carts, |s.prescriptionItems|, s.nextCartItemId)
    && CartTotalsOk(s.carts, s.cartItems)
    && PaymentsOk(s.payments, s.patients, s.visits, s.labRequests, s.prescriptions, |users|)
    && NotificationsOk(s.notifications, |users|)
  }

  // ------------------------------------------------------------ gates and records

  predicate CanRegister(role: Role)
  {
    role == Receptionist || role == Admin
  }

  predicate CanAssignLab(role: Role)
  {
    role == Cashier || role == Receptionist || role == Admin || role == LabTech
  }

  predicate PhoneTaken(patients: map<string, Patient>, phone: string)
  {
    exists id :: id in patients && patients[id].phone == phone
  }

  predicate VisitHasPrescription(rxs: map<string, Prescription>, visit: string)
  {
    exists id :: id in rxs && rxs[id].visit == visit
  }

  /** An active doctor: the choices of the visit form. */
  predicate ActiveDoctor(users: seq<User>, u: nat)
  {
    u < |users| && users[u].role == Doctor && users[u].isActive
  }

  /** An active test type: the choices of the lab request form. */
  predicate ActiveTestType(testTypes: seq<LabTestType>, t: nat)
  {
    t < |testTypes| && testTypes[t].isActive
  }

  /** The cart `get_or_create(pharmacist=user, prescription=p, is_active=True)`
      finds: the user's active cart for the prescription. */
  predicate OwnActiveCart(carts: map<string, Cart>, user: UserId, pid: string)
  {
    pid in carts && carts[pid].pharmacist == user && carts[pid].isActive
  }

  /** A cart for the prescription exists but is not the user's active one:
      creating another violates the one-to-one field. */
  predicate CartClash(carts: map<string, Cart>, user: UserId, pid: string)
  {
    pid in carts && !OwnActiveCart(carts, user, pid)
  }

  /** A COMPLETED payment as the three payment views build it. */
  function CompletedPayment(paymentId: string, patient: string, visit: Option<string>, kind: PaymentType,
                            payMethod: string, amount: int, labRequest: Option<string>, prescription: Option<string>,
                            actor: UserId, today: Date, receipt: string): (p: Payment)
    ensures p.status == PaymentStatus.Completed && p.receipt == Some(receipt) && p.paymentId == paymentId
    ensures p.kind == kind && p.amount == amount && p.patient == patient && p.processedBy == actor
  {
    Payment(paymentId, patient, visit, kind, payMethod, amount, PaymentStatus.Completed, labRequest, prescription, actor, today, Some(receipt))
  }

  /** dispense_medicines' cart update: the user's active cart for the
      prescription stops being active; nothing else changes. */
  function DeactivateCart(carts: map<string, Cart>, user: UserId, pid: string): (r: map<string, Cart>)
    ensures r.Keys == carts.Keys
    ensures !OwnActiveCart(r, user, pid)
    ensures forall c :: c in r ==> r[c] == carts[c].(isActive := r[c].isActive)
    ensures forall c :: c in r && c != pid ==> r[c] == carts[c]
    ensures forall c :: c in r && r[c].isActive != carts[c].isActive ==> c == pid && carts[c].pharmacist == user
  {
    if OwnActiveCart(carts, user, pid) then carts[pid := carts[pid].(isActive := false)] else carts
  }

  // ------------------------------------------------------------ frame lemmas: one table write at a time

  /** Appending notifications addressed to existing users, unread, keeps the store valid. */
  lemma NotificationsAdded(s: Store, users: seq<User>, testTypes: seq<LabTestType>, ns: seq<Notification>)
    requires ValidStore(s, users, testTypes) && NotificationsOk(ns, |users|)
    ensures ValidStore(s.(notifications := s.notifications + ns), users, testTypes)
  {
  }

  /** A role fan-out addresses existing users only, and every notification starts unread. */
  lemma NotifyRoleOk(users: seq<User>, role: Role, kind: NotificationType, title: string, related: string)
    ensures NotificationsOk(NotifyRole(users, role, kind, title, related), |users|)
  {
  }

  lemma PatientAdded(s: Store, users: seq<User>, testTypes: seq<LabTestType>, id: string, p: Patient)
    requires ValidStore(s, users, testTypes) && p.createdBy < |users|
    ensures ValidStore(s.(patients := s.patients[id := p]), users, testTypes)
  {
  }

  lemma VisitWritten(s: Store, users: seq<User>, testTypes: seq<LabTestType>, id: string, v: Visit)
    requires ValidStore(s, users, testTypes) && v.patient in s.patients && v.assignedDoctor < |users|
    ensures ValidStore(s.(visits := s.visits[id := v]), users, testTypes)
  {
  }

  lemma ExaminationWritten(s: Store, users: seq<User>, testTypes: seq<LabTestType>, id: string, e: Examination)
    requires ValidStore(s, users, testTypes) && id in s.visits && e.createdBy < |users|
    ensures ValidStore(s.(examinations := s.examinations[id := e]), users, testTypes)
  {
  }

  lemma LabRequestWritten(s: Store, users: seq<User>, testTypes: seq<LabTestType>, id: string, r: LabRequest)
    requires ValidStore(s, users, testTypes) && LabRequestOk(r, id, s.visits, users, |testTypes|)
    ensures ValidStore(s.(labRequests := s.labRequests[id := r]), users, testTypes)
  {
  }

  lemma ResultWritten(s: Store, users: seq<User>, testTypes: seq<LabTestType>, id: string, t: TestResult)
    requires ValidStore(s, users, testTypes) && id in s.labRequests && t.performedBy < |users|
    ensures ValidStore(s.(testResults := s.testResults[id := t]), users, testTypes)
  {
  }

  /** A new prescription for a visit that has none keeps one prescription per visit. */
  lemma PrescriptionAdded(s: Store, users: seq<User>, testTypes: seq<LabTestType>, id: string, p: Prescription)
    requires ValidStore(s, users, testTypes)
    requires p.visit in s.visits && p.prescribedBy < |users| && !VisitHasPrescription(s.prescriptions, p.visit)
    ensures ValidStore(s.(prescriptions := s.prescriptions[id := p]), users, testTypes)
  {
  }

  lemma PrescriptionStatusSet(s: Store, users: seq<User>, testTypes: seq<LabTestType>, id: string, status: RxStatus)
    requires ValidStore(s, users, testTypes) && id in s.prescriptions
    ensures ValidStore(s.(prescriptions := s.prescriptions[id := s.prescriptions[id].(status := status)]), users, testTypes)
  {
  }

  /** A new payment with a fresh id and an unused receipt number keeps both unique. */
  lemma PaymentAdded(s: Store, users: seq<User>, testTypes: seq<LabTestType>, p: Payment)
    requires ValidStore(s, users, testTypes)
    requires p.paymentId !in s.payments && PaymentRefsOk(p, s.patients, s.visits, s.labRequests, s.prescriptions, |users|)
    requires p.receipt.Some? && !ReceiptTaken(s.payments, p.receipt.value)
    ensures ValidStore(s.(payments := s.payments[p.paymentId := p]), users, testTypes)
  {
  }

  lemma MedicinesSet(s: Store, users: seq<User>, testTypes: seq<LabTestType>, meds: seq<Medicine>)
    requires ValidStore(s, users, testTypes) && |meds| == |s.medicines|
    ensures ValidStore(s.(medicines := meds), users, testTypes)
  {
  }

  /** A new empty cart for a prescription without one: no row belongs to it yet. */
  lemma CartOpened(s: Store, users: seq<User>, testTypes: seq<LabTestType>, pid: string, c: Cart)
    requires ValidStore(s, users, testTypes)
    requires pid in s.prescriptions && pid !in s.carts && c.pharmacist < |users| && c.totalAmount == 0
    ensures ValidStore(s.(carts := s.carts[pid := c]), users, testTypes)
  {
    CartOpenedCarts(s, |users|, pid, c);
  }

  /** The cart tables alone, when a cart is opened. */
  lemma CartOpenedCarts(s: Store, nUsers: nat, pid: string, c: Cart)
    requires CartsOk(s.carts, s.prescriptions, nUsers)
    requires CartRowsOk(s.cartItems, s.carts, |s.prescriptionItems|, s.nextCartItemId)
    requires CartTotalsOk(s.carts, s.cartItems)
    requires pid in s.prescriptions && pid !in s.carts && c.pharmacist < nUsers && c.totalAmount == 0
    ensures var carts := s.carts[pid := c];
      CartsOk(carts, s.prescriptions, nUsers)
      && CartRowsOk(s.cartItems, carts, |s.prescriptionItems|, s.nextCartItemId)
      && CartTotalsOk(carts, s.cartItems)
  {
    CartSumEmpty(s.cartItems, pid);
  }

  lemma CartDeactivated(s: Store, users: seq<User>, testTypes: seq<LabTestType>, user: UserId, pid: string)
    requires ValidStore(s, users, testTypes)
    ensures ValidStore(s.(carts := DeactivateCart(s.carts, user, pid)), users, testTypes)
  {
  }

  // ------------------------------------------------------------ the cart views' transitions

  /** The store after add_to_cart succeeds: the prescription item for the
      medicine and the cart's row for that item are upserted with `qty`, the
      user's cart (new and empty if there was none) gets the sum of its rows
      as total, and the row counter advances. */
  function CartAdded(s: Store, actor: UserId, pid: string, med: nat, qty: int, now: int): Store
    requires med < |s.medicines|
  {
    CartTotalled(CartRowAdded(ItemAdded(s, pid, med, qty), pid, med, qty), actor, pid, now)
  }

  /** add_to_cart's PrescriptionItem step. */
  function ItemAdded(s: Store, pid: string, med: nat, qty: int): (r: Store)
    requires med < |s.medicines|
    ensures r.medicines == s.medicines && FindItem(r.prescriptionItems, pid, med).Some?
  {
    s.(prescriptionItems := UpsertItem(s.prescriptionItems, pid, med, qty, s.medicines[med].unitPrice))
  }

  /** add_to_cart's CartItem step, for the item of (pid, med). */
  function CartRowAdded(s: Store, pid: string, med: nat, qty: int): Store
    requires med < |s.medicines| && FindItem(s.prescriptionItems, pid, med).Some?
  {
    var k := FindItem(s.prescriptionItems, pid, med).value;
    s.(cartItems := UpsertCartRow(s.cartItems, pid, k, qty, s.medicines[med].unitPrice, s.prescriptionItems[k].unitPrice, s.nextCartItemId),
       nextCartItemId := s.nextCartItemId + 1)
  }

  /** add_to_cart's Cart step: the user's cart, new and empty if there was
      none, gets the sum of its rows as total. */
  function CartTotalled(s: Store, actor: UserId, pid: string, now: int): Store
  {
    var cart := if pid in s.carts then s.carts[pid] else Cart(actor, 0, true, now);
    s.(carts := s.carts[pid := cart.(totalAmount := CartSum(s.cartItems, pid))])
  }

  /** The store after update_cart sets row `j` to `qty` (0 or less deletes
      the row, which is also all remove_from_cart does), with the row repriced
      at its prescription item's unit price and its cart's total recomputed. */
  function CartRowSet(s: Store, j: nat, qty: int): Store
    requires j < |s.cartItems| && s.cartItems[j].cart in s.carts && s.cartItems[j].item < |s.prescriptionItems|
  {
    var row := s.cartItems[j];
    var rows := if qty <= 0 then s.cartItems[..j] + s.cartItems[j + 1..]
                else s.cartItems[j := row.(quantity := qty, subtotal := s.prescriptionItems[row.item].unitPrice * qty)];
    s.(cartItems := rows, carts := s.carts[row.cart := s.carts[row.cart].(totalAmount := CartSum(rows, row.cart))])
  }

  /** add_to_cart's item upsert keeps the item constraints, one row per
      (prescription, medicine) included. */
  lemma ItemUpsertKeepsItems(items: seq<PrescriptionItem>, rxs: map<string, Prescription>, nMeds: nat,
                             pid: string, med: nat, qty: int, price: int)
    requires ItemsOk(items, rxs, nMeds) && pid in rxs && med < nMeds
    ensures ItemsOk(UpsertItem(items, pid, med, qty, price), rxs, nMeds)
    ensures |UpsertItem(items, pid, med, qty, price)| >= |items|
  {
    var r := UpsertItem(items, pid, med, qty, price);
    var k := FindItem(r, pid, med).value;
    forall j | 0 <= j < |r| ensures r[j].prescription in rxs && r[j].medicine < nMeds {
      if j != k {
        assert j < |items|;
        assert r[j] == items[j];
      }
    }
  }

  /** add_to_cart's row upsert keeps the row constraints: every row names an
      existing cart and prescription item, ids stay below the counter, and
      ids and (cart, item) pairs stay distinct. */
  lemma CartUpsertKeepsRows(rows: seq<CartItem>, carts: map<string, Cart>, carts2: map<string, Cart>, nItems: nat, nItems2: nat,
                            nextId: nat, cart: string, item: nat, qty: int, newPrice: int, itemPrice: int)
    requires CartRowsOk(rows, carts, nItems, nextId)
    requires carts.Keys <= carts2.Keys && nItems <= nItems2
    requires cart in carts2 && item < nItems2
    ensures CartRowsOk(UpsertCartRow(rows, cart, item, qty, newPrice, itemPrice, nextId), carts2, nItems2, nextId + 1)
  {
    CartUpsertRowRefs(rows, carts, carts2, nItems, nItems2, nextId, cart, item, qty, newPrice, itemPrice);
    assert forall j :: 0 <= j < |rows| ==> rows[j].id != nextId;
  }

  lemma CartUpsertRowRefs(rows: seq<CartItem>, carts: map<string, Cart>, carts2: map<string, Cart>, nItems: nat, nItems2: nat,
                          nextId: nat, cart: string, item: nat, qty: int, newPrice: int, itemPrice: int)
    requires forall j :: 0 <= j < |rows| ==> rows[j].cart in carts && rows[j].item < nItems && rows[j].id < nextId
    requires carts.Keys <= carts2.Keys && nItems <= nItems2
    requires cart in carts2 && item < nItems2
    ensures var r := UpsertCartRow(rows, cart, item, qty, newPrice, itemPrice, nextId);
      forall j :: 0 <= j < |r| ==> r[j].cart in carts2 && r[j].item < nItems2 && r[j].id < nextId + 1
  {
    var r := UpsertCartRow(rows, cart, item, qty, newPrice, itemPrice, nextId);
    var k := FindCartRow(r, cart, item).value;
    forall j | 0 <= j < |r|
      ensures r[j].cart in carts2 && r[j].item < nItems2 && r[j].id < nextId + 1
    {
      if j != k {
        assert r[j] == rows[j];
      }
    }
  }

  /** add_to_cart keeps every store invariant; in particular every cart's
      total is again the sum of its rows. */
  lemma CartAddedKeepsValid(s: Store, users: seq<User>, testTypes: seq<LabTestType>,
                            actor: UserId, pid: string, med: nat, qty: int, now: int)
    requires ValidStore(s, users, testTypes) && actor < |users|
    requires pid in s.prescriptions && med < |s.medicines|
    ensures ValidStore(CartAdded(s, actor, pid, med, qty, now), users, testTypes)
  {
    CartAddedKeepsItems(s, actor, pid, med, qty, now);
    CartAddedKeepsCartRefs(s, |users|, actor, pid, med, qty, now);
    CartAddedKeepsRows(s, actor, pid, med, qty, now);
    CartAddedKeepsTotals(s, actor, pid, med, qty, now);
  }

  /** The prescription items stay attached after add_to_cart. */
  lemma CartAddedKeepsItems(s: Store, actor: UserId, pid: string, med: nat, qty: int, now: int)
    requires pid in s.prescriptions && med < |s.medicines|
    requires ItemsOk(s.prescriptionItems, s.prescriptions, |s.medicines|)
    ensures var r := CartAdded(s, actor, pid, med, qty, now);
      ItemsOk(r.prescriptionItems, r.prescriptions, |r.medicines|)
  {
    ItemUpsertKeepsItems(s.prescriptionItems, s.prescriptions, |s.medicines|, pid, med, qty, s.medicines[med].unitPrice);
  }

  /** Carts keep their prescription and pharmacist after add_to_cart. */
  lemma CartAddedKeepsCartRefs(s: Store, nUsers: nat, actor: UserId, pid: string, med: nat, qty: int, now: int)
    requires actor < nUsers && pid in s.prescriptions && med < |s.medicines|
    requires CartsOk(s.carts, s.prescriptions, nUsers)
    ensures var r := CartAdded(s, actor, pid, med, qty, now);
      CartsOk(r.carts, r.prescriptions, nUsers)
  {
  }

  /** Cart rows stay attached and unique after add_to_cart. */
  lemma CartAddedKeepsRows(s: Store, actor: UserId, pid: string, med: nat, qty: int, now: int)
    requires med < |s.medicines|
    requires CartRowsOk(s.cartItems, s.carts, |s.prescriptionItems|, s.nextCartItemId)
    ensures var r := CartAdded(s, actor, pid, med, qty, now);
      CartRowsOk(r.cartItems, r.carts, |r.prescriptionItems|, r.nextCartItemId)
  {
    var r := CartAdded(s, actor, pid, med, qty, now);
    var price := s.medicines[med].unitPrice;
    var items := r.prescriptionItems;
    var k := FindItem(items, pid, med).value;
    CartUpsertKeepsRows(s.cartItems, s.carts, r.carts, |s.prescriptionItems|, |items|,
      s.nextCartItemId, pid, k, qty, price, items[k].unitPrice);
  }

  /** Every cart's total is again the sum of its rows after add_to_cart. */
  lemma CartAddedKeepsTotals(s: Store, actor: UserId, pid: string, med: nat, qty: int, now: int)
    requires med < |s.medicines| && CartTotalsOk(s.carts, s.cartItems)
    ensures var r := CartAdded(s, actor, pid, med, qty, now);
      CartTotalsOk(r.carts, r.cartItems)
  {
    var r := CartAdded(s, actor, pid, med, qty, now);
    forall c | c in r.carts ensures r.carts[c].totalAmount == CartSum(r.cartItems, c) {
      if c != pid {
        assert r.carts[c] == s.carts[c];
      }
    }
  }

  /** After add_to_cart the cart's total moved by exactly the change of the
      item's row subtotal; no other cart's total changed. */
  lemma CartAddedTotal(s: Store, users: seq<User>, testTypes: seq<LabTestType>,
                       actor: UserId, pid: string, med: nat, qty: int, now: int)
    requires ValidStore(s, users, testTypes) && med < |s.medicines|
    ensures var r := CartAdded(s, actor, pid, med, qty, now);
      var k := FindItem(r.prescriptionItems, pid, med).value;
      var j := FindCartRow(r.cartItems, pid, k).value;
      var before := if j < |s.cartItems| then s.cartItems[j].subtotal else 0;
      r.carts[pid].totalAmount == (if pid in s.carts then s.carts[pid].totalAmount else 0) - before + r.cartItems[j].subtotal
      && forall c :: c in s.carts && c != pid ==> r.carts[c].totalAmount == s.carts[c].totalAmount
  {
    var r := CartAdded(s, actor, pid, med, qty, now);
    if pid !in s.carts {
      assert forall j :: 0 <= j < |s.cartItems| ==> s.cartItems[j].cart != pid;
      CartSumEmpty(s.cartItems, pid);
    }
  }

  /** update_cart and remove_from_cart keep every store invariant. */
  lemma CartRowSetKeepsValid(s: Store, users: seq<User>, testTypes: seq<LabTestType>, j: nat, qty: int)
    requires ValidStore(s, users, testTypes) && j < |s.cartItems|
    ensures ValidStore(CartRowSet(s, j, qty), users, testTypes)
  {
    CartRowSetKeepsCarts(s, |users|, j, qty);
  }

  /** The cart tables alone: rows stay attached and unique, totals stay sums. */
  lemma CartRowSetKeepsCarts(s: Store, nUsers: nat, j: nat, qty: int)
    requires CartsOk(s.carts, s.prescriptions, nUsers)
    requires CartRowsOk(s.cartItems, s.carts, |s.prescriptionItems|, s.nextCartItemId)
    requires CartTotalsOk(s.carts, s.cartItems) && j < |s.cartItems|
    ensures var r := CartRowSet(s, j, qty);
      CartsOk(r.carts, r.prescriptions, nUsers)
      && CartRowsOk(r.cartItems, r.carts, |r.prescriptionItems|, r.nextCartItemId)
      && CartTotalsOk(r.carts, r.cartItems)
  {
    var r := CartRowSet(s, j, qty);
    var row := s.cartItems[j];
    if qty <= 0 {
      RemovedRowsValid(s.cartItems, j);
      forall c ensures CartSum(r.cartItems, c) == CartSum(s.cartItems, c) - Share(row, c) {
        CartSumRemove(s.cartItems, j, c);
      }
    } else {
      var updated := r.cartItems[j];
      ReplacedRowValid(s.cartItems, j, updated);
      forall c ensures CartSum(r.cartItems, c) == CartSum(s.cartItems, c) - Share(row, c) + Share(updated, c) {
        CartSumReplace(s.cartItems, j, updated, c);
      }
    }
  }

  /** The cart's total moves by the row's change: down by its old subtotal,
      up by the new unit price times quantity unless the row was deleted; a
      deleted row is gone, and other carts keep their totals. */
  lemma CartRowSetTotal(s: Store, users: seq<User>, testTypes: seq<LabTestType>, j: nat, qty: int)
    requires ValidStore(s, users, testTypes) && j < |s.cartItems|
    ensures var r := CartRowSet(s, j, qty);
      var row := s.cartItems[j];
      r.carts[row.cart].totalAmount == s.carts[row.cart].totalAmount - row.subtotal
        + (if qty <= 0 then 0 else s.prescriptionItems[row.item].unitPrice * qty)
      && (forall c :: c in s.carts && c != row.cart ==> r.carts[c] == s.carts[c])
      && (qty <= 0 <==> |r.cartItems| == |s.cartItems| - 1)
      && (qty <= 0 ==> FindCartRowById(r.cartItems, row.id).None?)
  {
    var r := CartRowSet(s, j, qty);
    var row := s.cartItems[j];
    if qty <= 0 {
      CartSumRemove(s.cartItems, j, row.cart);
      RemovedRowGone(s.cartItems, j);
    } else {
      CartSumReplace(s.cartItems, j, r.cartItems[j], row.cart);
    }
  }

  /** Deleting a row keeps the rows' constraints. */
  lemma RemovedRowsValid(rows: seq<CartItem>, j: nat)
    requires j < |rows|
    ensures UniqueCartRows(rows) ==> UniqueCartRows(rows[..j] + rows[j + 1..])
    ensures forall x :: x in rows[..j] + rows[j + 1..] ==> x in rows
  {
    var r := rows[..j] + rows[j + 1..];
    if UniqueCartRows(rows) {
      forall a, b | 0 <= a < b < |r|
        ensures r[a].id != r[b].id && !(r[a].cart == r[b].cart && r[a].item == r[b].item)
      {
        var a' := if a < j then a else a + 1;
        var b' := if b < j then b else b + 1;
        assert r[a] == rows[a'] && r[b] == rows[b'];
      }
    }
  }

  /** Once deleted, a row's id is no longer found. */
  lemma RemovedRowGone(rows: seq<CartItem>, j: nat)
    requires j < |rows| && UniqueCartRows(rows)
    ensures FindCartRowById(rows[..j] + rows[j + 1..], rows[j].id).None?
  {
    var r := rows[..j] + rows[j + 1..];
    forall i | 0 <= i < |r| ensures r[i].id != rows[j].id {
      if i < j {
        assert r[i] == rows[i];
      } else {
        assert r[i] == rows[i + 1];
      }
    }
  }

  /** Rewriting a row's quantity and subtotal keeps the rows' constraints. */
  lemma ReplacedRowValid(rows: seq<CartItem>, j: nat, row: CartItem)
    requires j < |rows| && row.id == rows[j].id && row.cart == rows[j].cart && row.item == rows[j].item
    ensures UniqueCartRows(rows) ==> UniqueCartRows(rows[j := row])
  {
  }

  // ------------------------------------------------------------ the views' checks, in the views' order

  /** register_patient: the role, then the two forms (a phone number already
      in use is refused; `fieldsValid` stands for every other field check of
      the two forms, such as a phone number that does not parse or a missing
      name); a patient id, payment id or receipt number already taken makes
      the save fail. */
  function RegistrationCheck(s: Store, role: Role, fieldsValid: bool, patientId: string, phone: string, paymentId: string, receipt: string): (out: Outcome)
    ensures out == PermissionDenied <==> !CanRegister(role)
    ensures out == FormInvalid <==> CanRegister(role) && (!fieldsValid || PhoneTaken(s.patients, phone))
    ensures out == Ok <==> (CanRegister(role) && fieldsValid && !PhoneTaken(s.patients, phone)
      && patientId !in s.patients && paymentId !in s.payments && !ReceiptTaken(s.payments, receipt))
    ensures out in {Ok, PermissionDenied, FormInvalid, Error}
  {
    if !CanRegister(role) then PermissionDenied
    else if !fieldsValid || PhoneTaken(s.patients, phone) then FormInvalid
    else if patientId in s.patients || paymentId in s.payments || ReceiptTaken(s.payments, receipt) then Error
    else Ok
  }

  /** create_visit: the patient, then the form (the doctor must be an active
      doctor); no role is checked. */
  function VisitCheck(s: Store, users: seq<User>, patientId: string, doctor: UserId, visitId: string): (out: Outcome)
    ensures out == NotFound <==> patientId !in s.patients
    ensures out == FormInvalid <==> patientId in s.patients && !ActiveDoctor(users, doctor)
    ensures out == Ok <==> patientId in s.patients && ActiveDoctor(users, doctor) && visitId !in s.visits
    ensures out in {Ok, NotFound, FormInvalid, Error}
  {
    if patientId !in s.patients then NotFound
    else if !ActiveDoctor(users, doctor) then FormInvalid
    else if visitId in s.visits then Error
    else Ok
  }

  /** request_lab_test: the visit, then the role (DOCTOR only), then the form
      (an active test type); the visit's status is not looked at. */
  function LabRequestCheck(s: Store, role: Role, testTypes: seq<LabTestType>, visitId: string, testType: nat, requestId: string): (out: Outcome)
    ensures out == NotFound <==> visitId !in s.visits
    ensures out == PermissionDenied <==> visitId in s.visits && role != Doctor
    ensures out == FormInvalid <==> visitId in s.visits && role == Doctor && !ActiveTestType(testTypes, testType)
    ensures out == Ok <==> visitId in s.visits && role == Doctor && ActiveTestType(testTypes, testType) && requestId !in s.labRequests
    ensures out in {Ok, NotFound, PermissionDenied, FormInvalid, Error}
  {
    if visitId !in s.visits then NotFound
    else if role != Doctor then PermissionDenied
    else if !ActiveTestType(testTypes, testType) then FormInvalid
    else if requestId in s.labRequests then Error
    else Ok
  }

  /** process_lab_test: the request, then the role (LAB_TECH only). Neither
      the request's status nor its assignee is looked at; a second result
      for the same request breaks the one-to-one field. */
  function LabResultCheck(s: Store, role: Role, requestId: string): (out: Outcome)
    ensures out == NotFound <==> requestId !in s.labRequests
    ensures out == PermissionDenied <==> requestId in s.labRequests && role != LabTech
    ensures out == Ok <==> requestId in s.labRequests && role == LabTech && requestId !in s.testResults
    ensures out in {Ok, NotFound, PermissionDenied, Error}
  {
    if requestId !in s.labRequests then NotFound
    else if role != LabTech then PermissionDenied
    else if requestId in s.testResults then Error
    else Ok
  }

  /** lab_result_detail: the request, then DOCTOR or ADMIN or the requester,
      then an existing result. Asking for a prescription when the visit
      already has one (or the id is taken) fails on the one-to-one field. */
  function ResultViewCheck(s: Store, actor: UserId, role: Role, requestId: string, create: bool, prescriptionId: string): (out: Outcome)
    ensures out == NotFound <==> requestId !in s.labRequests
    ensures out == PermissionDenied <==> (requestId in s.labRequests
      && role != Doctor && role != Admin && actor != s.labRequests[requestId].requestedBy)
    ensures out == WrongState <==> (requestId in s.labRequests
      && (role == Doctor || role == Admin || actor == s.labRequests[requestId].requestedBy)
      && requestId !in s.testResults)
    ensures out == Error <==> (requestId in s.labRequests
      && (role == Doctor || role == Admin || actor == s.labRequests[requestId].requestedBy)
      && requestId in s.testResults && create
      && (VisitHasPrescription(s.prescriptions, s.labRequests[requestId].visit) || prescriptionId in s.prescriptions))
    ensures out in {Ok, NotFound, PermissionDenied, WrongState, Error}
  {
    if requestId !in s.labRequests then NotFound
    else if role != Doctor && role != Admin && actor != s.labRequests[requestId].requestedBy then PermissionDenied
    else if requestId !in s.testResults then WrongState
    else if create && (VisitHasPrescription(s.prescriptions, s.labRequests[requestId].visit) || prescriptionId in s.prescriptions) then Error
    else Ok
  }

  /** process_lab_payment: the request, then the payment roles, then the
      request must be PAYMENT_PENDING; a payment id or receipt number already
      taken makes the save fail. */
  function LabPaymentCheck(s: Store, role: Role, requestId: string, paymentId: string, receipt: string): (out: Outcome)
    ensures out == NotFound <==> requestId !in s.labRequests
    ensures out == PermissionDenied <==> requestId in s.labRequests && !CanTakePayments(role)
    ensures out == WrongState <==> (requestId in s.labRequests && CanTakePayments(role)
      && s.labRequests[requestId].status != PaymentPending)
    ensures out == Ok <==> (requestId in s.labRequests && CanTakePayments(role)
      && s.labRequests[requestId].status == PaymentPending
      && paymentId !in s.payments && !ReceiptTaken(s.payments, receipt))
    ensures out in {Ok, NotFound, PermissionDenied, WrongState, Error}
  {
    if requestId !in s.labRequests then NotFound
    else if !CanTakePayments(role) then PermissionDenied
    else if s.labRequests[requestId].status != PaymentPending then WrongState
    else if paymentId in s.payments || ReceiptTaken(s.payments, receipt) then Error
    else Ok
  }

  /** assign_lab_request: the request, then the roles, then PAYMENT_COMPLETED,
      then a technician must be chosen, and it must be a LAB_TECH user. */
  function AssignCheck(s: Store, users: seq<User>, role: Role, requestId: string, technician: Option<nat>): (out: Outcome)
    ensures out == PermissionDenied <==> requestId in s.labRequests && !CanAssignLab(role)
    ensures out == WrongState <==> (requestId in s.labRequests && CanAssignLab(role)
      && s.labRequests[requestId].status != PaymentCompleted)
    ensures out == FormInvalid <==> (requestId in s.labRequests && CanAssignLab(role)
      && s.labRequests[requestId].status == PaymentCompleted && technician.None?)
    ensures out == Ok <==> (requestId in s.labRequests && CanAssignLab(role)
      && s.labRequests[requestId].status == PaymentCompleted
      && technician.Some? && technician.value < |users| && users[technician.value].role == LabTech)
    ensures out in {Ok, NotFound, PermissionDenied, WrongState, FormInvalid}
  {
    if requestId !in s.labRequests then NotFound
    else if !CanAssignLab(role) then PermissionDenied
    else if s.labRequests[requestId].status != PaymentCompleted then WrongState
    else if technician.None? then FormInvalid
    else if technician.value >= |users| || users[technician.value].role != LabTech then NotFound
    else Ok
  }

  /** process_medicine_payment: the prescription, then the payment roles,
      then no completed MEDICINE payment may exist for it; its status is not
      looked at. */
  function MedicinePaymentCheck(s: Store, role: Role, pid: string, paymentId: string, receipt: string): (out: Outcome)
    ensures out == NotFound <==> pid !in s.prescriptions
    ensures out == PermissionDenied <==> pid in s.prescriptions && !CanTakePayments(role)
    ensures out == AlreadyPaid <==> pid in s.prescriptions && CanTakePayments(role) && MedicinePaid(s.payments, pid)
    ensures out == Ok <==> (pid in s.prescriptions && CanTakePayments(role) && !MedicinePaid(s.payments, pid)
      && paymentId !in s.payments && !ReceiptTaken(s.payments, receipt))
    ensures out in {Ok, NotFound, PermissionDenied, AlreadyPaid, Error}
  {
    if pid !in s.prescriptions then NotFound
    else if !CanTakePayments(role) then PermissionDenied
    else if MedicinePaid(s.payments, pid) then AlreadyPaid
    else if paymentId in s.payments || ReceiptTaken(s.payments, receipt) then Error
    else Ok
  }

  /** The cart lookup of prescription_detail and add_to_cart: the
      prescription, then the user's active cart, or room for a new one. */
  function CartCheck(s: Store, actor: UserId, pid: string): (out: Outcome)
    ensures out == NotFound <==> pid !in s.prescriptions
    ensures out == Error <==> pid in s.prescriptions && CartClash(s.carts, actor, pid)
    ensures out == Ok ==> OwnActiveCart(s.carts, actor, pid) || pid !in s.carts
    ensures out in {Ok, NotFound, Error}
  {
    if pid !in s.prescriptions then NotFound
    else if CartClash(s.carts, actor, pid) then Error
    else Ok
  }

  /** The row lookup of update_cart and remove_from_cart: the row must exist
      and belong to one of the user's carts. */
  function OwnRowCheck(s: Store, actor: UserId, rowId: nat): (out: Outcome)
    requires forall k :: 0 <= k < |s.cartItems| ==> s.cartItems[k].cart in s.carts
    requires UniqueCartRows(s.cartItems)
    ensures out == Ok <==>
      (exists k :: 0 <= k < |s.cartItems| && s.cartItems[k].id == rowId && s.carts[s.cartItems[k].cart].pharmacist == actor)
    ensures out in {Ok, NotFound}
  {
    var found := FindCartRowById(s.cartItems, rowId);
    if found.Some? && s.carts[s.cartItems[found.value].cart].pharmacist == actor then Ok else NotFound
  }

  // ------------------------------------------------------------ what a successful view writes

  /** register_patient: the patient and its completed registration payment. */
  function PatientRegistered(s: Store, actor: UserId, patientId: string, phone: string, dateOfBirth: Date,
                      payMethod: PaymentMethod, paymentId: string, receipt: string, today: Date): Store
  {
    s.(patients := s.patients[patientId := Patient(phone, dateOfBirth, actor)],
       payments := s.payments[paymentId := CompletedPayment(paymentId, patientId, None, RegistrationFee,
         PaymentMethodCode(payMethod), RegistrationFeeCents, None, None, actor, today, receipt)])
  }

  /** create_visit: the visit in WITH_DOCTOR, its doctor's notification, and a blank examination. */
  function VisitCreated(s: Store, actor: UserId, patientId: string, doctor: UserId, symptoms: string, visitId: string): Store
  {
    s.(visits := s.visits[visitId := Visit(patientId, doctor, WithDoctor, symptoms)],
       examinations := s.examinations[visitId := Examination(actor, BlankFindings)],
       notifications := s.notifications + [NewNotification(doctor, SystemNote, "New Patient Assigned", visitId)])
  }

  /** request_lab_test: the request in PAYMENT_PENDING, the lab technicians'
      notifications, and the visit in LAB_REQUESTED. */
  function LabTestRequested(s: Store, users: seq<User>, actor: UserId, visitId: string, testType: nat, requestId: string, now: int): Store
    requires visitId in s.visits
  {
    s.(labRequests := s.labRequests[requestId := LabRequest(requestId, visitId, testType, actor, None, PaymentPending, now)],
       visits := s.visits[visitId := s.visits[visitId].(status := LabRequested)],
       notifications := s.notifications + NotifyRole(users, LabTech, LabRequestNote, "New Lab Test Request", requestId))
  }

  /** process_lab_test: the result, the request COMPLETED, the visit
      LAB_COMPLETED, and the requester told twice. */
  function LabResultRecorded(s: Store, actor: UserId, requestId: string, resultData: string, findings: string, interpretation: string): Store
    requires requestId in s.labRequests && s.labRequests[requestId].visit in s.visits
  {
    var r := s.labRequests[requestId];
    var note := NewNotification(r.requestedBy, LabResultNote, "Lab Test Results Ready", requestId);
    s.(testResults := s.testResults[requestId := TestResult(actor, resultData, findings, interpretation)],
       labRequests := s.labRequests[requestId := r.(status := Laboratory.Completed)],
       visits := s.visits[r.visit := s.visits[r.visit].(status := LabCompleted)],
       notifications := s.notifications + [note, note])
  }

  /** lab_result_detail with a prescription asked for: the prescription, the
      visit PRESCRIPTION_READY, and every active pharmacist told twice. */
  function PrescriptionCreated(s: Store, users: seq<User>, actor: UserId, requestId: string, prescriptionId: string): Store
    requires requestId in s.labRequests && s.labRequests[requestId].visit in s.visits
  {
    var visitId := s.labRequests[requestId].visit;
    var notes := NotifyRole(users, Pharmacist, PrescriptionNote, "New Prescription", prescriptionId);
    s.(prescriptions := s.prescriptions[prescriptionId := NewPrescription(visitId, actor)],
       visits := s.visits[visitId := s.visits[visitId].(status := PrescriptionReady)],
       notifications := s.notifications + notes + notes)
  }

  /** process_lab_payment: a completed LAB_TEST payment of the test type's
      price for the request's visit and patient, and the request PAYMENT_COMPLETED. */
  function LabPaid(s: Store, testTypes: seq<LabTestType>, actor: UserId, requestId: string,
                   payMethod: string, paymentId: string, receipt: string, today: Date): Store
    requires requestId in s.labRequests && s.labRequests[requestId].visit in s.visits
    requires s.labRequests[requestId].testType < |testTypes|
  {
    var r := s.labRequests[requestId];
    s.(payments := s.payments[paymentId := CompletedPayment(paymentId, s.visits[r.visit].patient, Some(r.visit),
         LabTestFee, payMethod, testTypes[r.testType].price, Some(requestId), None, actor, today, receipt)],
       labRequests := s.labRequests[requestId := r.(status := PaymentCompleted)])
  }

  /** assign_lab_request: the technician assigned, the request IN_PROGRESS,
      and the technician told. */
  function LabAssigned(s: Store, requestId: string, technician: UserId): Store
    requires requestId in s.labRequests
  {
    s.(labRequests := s.labRequests[requestId := s.labRequests[requestId].(assignedTo := Some(technician), status := InProgress)],
       notifications := s.notifications + [NewNotification(technician, LabRequestNote, "New Lab Test Assigned", requestId)])
  }

  /** process_medicine_payment: a completed MEDICINE payment of the
      prescription's total_cost, and the visit COMPLETED. */
  function MedicinePaymentTaken(s: Store, actor: UserId, pid: string, payMethod: string, paymentId: string, receipt: string, today: Date): Store
    requires pid in s.prescriptions && s.prescriptions[pid].visit in s.visits
  {
    var rx := s.prescriptions[pid];
    s.(payments := s.payments[paymentId := CompletedPayment(paymentId, s.visits[rx.visit].patient, Some(rx.visit),
         MedicineFee, payMethod, rx.totalCost, None, Some(pid), actor, today, receipt)],
       visits := s.visits[rx.visit := s.visits[rx.visit].(status := Patients.Completed)])
  }

  // ------------------------------------------------------------ the workflow across views

  /** A paid lab request cannot be paid again: the next attempt is refused
      as being in the wrong state, so no second payment is recorded. */
  lemma LabPaidOnce(s: Store, testTypes: seq<LabTestType>, actor: UserId, requestId: string, payMethod: string,
                    paymentId: string, receipt: string, today: Date, role: Role, paymentId2: string, receipt2: string)
    requires requestId in s.labRequests && s.labRequests[requestId].visit in s.visits
    requires s.labRequests[requestId].testType < |testTypes|
    ensures var t := LabPaid(s, testTypes, actor, requestId, payMethod, paymentId, receipt, today);
      LabPaymentCheck(t, role, requestId, paymentId2, receipt2) == (if CanTakePayments(role) then WrongState else PermissionDenied)
  {
  }

  /** A new lab request can be paid at once by a payment role, given a
      fresh payment id and receipt number. */
  lemma RequestedThenPayable(s: Store, users: seq<User>, actor: UserId, visitId: string, testType: nat, requestId: string,
                             now: int, role: Role, paymentId: string, receipt: string)
    requires visitId in s.visits && CanTakePayments(role)
    requires paymentId !in s.payments && !ReceiptTaken(s.payments, receipt)
    ensures LabPaymentCheck(LabTestRequested(s, users, actor, visitId, testType, requestId, now), role, requestId, paymentId, receipt) == Ok
  {
  }

  /** A paid request can be assigned to any lab technician, and an assigned
      one cannot be assigned again. */
  lemma PaidThenAssignable(s: Store, users: seq<User>, testTypes: seq<LabTestType>, actor: UserId, requestId: string, payMethod: string,
                           paymentId: string, receipt: string, today: Date, role: Role, technician: nat)
    requires requestId in s.labRequests && s.labRequests[requestId].visit in s.visits
    requires s.labRequests[requestId].testType < |testTypes|
    requires CanAssignLab(role) && technician < |users| && users[technician].role == LabTech
    ensures var t := LabPaid(s, testTypes, actor, requestId, payMethod, paymentId, receipt, today);
      AssignCheck(t, users, role, requestId, Some(technician)) == Ok
      && AssignCheck(LabAssigned(t, requestId, technician), users, role, requestId, Some(technician)) == WrongState
  {
  }

  /** A request has one result: once recorded, a second submission fails. */
  lemma LabResultOnce(s: Store, actor: UserId, requestId: string, resultData: string, findings: string, interpretation: string)
    requires requestId in s.labRequests && s.labRequests[requestId].visit in s.visits
    ensures LabResultCheck(LabResultRecorded(s, actor, requestId, resultData, findings, interpretation), LabTech, requestId) == Error
  {
  }

  /** A recorded result lets its requester (or any doctor or admin) see it
      and create the prescription, provided the visit has none. */
  lemma ResultThenPrescribable(s: Store, actor: UserId, requestId: string, resultData: string, findings: string,
                               interpretation: string, viewer: UserId, role: Role, prescriptionId: string)
    requires requestId in s.labRequests && s.labRequests[requestId].visit in s.visits
    requires role == Doctor || role == Admin || viewer == s.labRequests[requestId].requestedBy
    requires !VisitHasPrescription(s.prescriptions, s.labRequests[requestId].visit) && prescriptionId !in s.prescriptions
    ensures var t := LabResultRecorded(s, actor, requestId, resultData, findings, interpretation);
      ResultViewCheck(t, viewer, role, requestId, true, prescriptionId) == Ok
  {
    var t := LabResultRecorded(s, actor, requestId, resultData, findings, interpretation);
    assert forall id :: id in t.prescriptions ==> id in s.prescriptions;
  }

  /** A visit gets one prescription: once created, asking again fails. */
  lemma PrescriptionOnce(s: Store, users: seq<User>, actor: UserId, requestId: string, prescriptionId: string,
                         viewer: UserId, role: Role, prescriptionId2: string)
    requires requestId in s.labRequests && s.labRequests[requestId].visit in s.visits && requestId in s.testResults
    requires role == Doctor || role == Admin || viewer == s.labRequests[requestId].requestedBy
    ensures var t := PrescriptionCreated(s, users, actor, requestId, prescriptionId);
      ResultViewCheck(t, viewer, role, requestId, true, prescriptionId2) == Error
  {
    var t := PrescriptionCreated(s, users, actor, requestId, prescriptionId);
    assert t.prescriptions[prescriptionId].visit == s.labRequests[requestId].visit;
  }

  /** A paid prescription cannot be paid again. */
  lemma MedicinePaidOnce(s: Store, actor: UserId, pid: string, payMethod: string, paymentId: string, receipt: string,
                         today: Date, role: Role, paymentId2: string, receipt2: string)
    requires pid in s.prescriptions && s.prescriptions[pid].visit in s.visits && CanTakePayments(role)
    ensures var t := MedicinePaymentTaken(s, actor, pid, payMethod, paymentId, receipt, today);
      MedicinePaid(t.payments, pid) && MedicinePaymentCheck(t, role, pid, paymentId2, receipt2) == AlreadyPaid
  {
    var t := MedicinePaymentTaken(s, actor, pid, payMethod, paymentId, receipt, today);
    assert t.payments[paymentId].prescription == Some(pid);
  }

  /** A registered phone number cannot register a second patient. */
  lemma RegisteredOnce(s: Store, actor: UserId, patientId: string, phone: string, dateOfBirth: Date, payMethod: PaymentMethod,
                       paymentId: string, receipt: string, today: Date, role: Role, fieldsValid: bool, patientId2: string, paymentId2: string, receipt2: string)
    requires CanRegister(role)
    ensures var t := PatientRegistered(s, actor, patientId, phone, dateOfBirth, payMethod, paymentId, receipt, today);
      RegistrationCheck(t, role, fieldsValid, patientId2, phone, paymentId2, receipt2) == FormInvalid
  {
    var t := PatientRegistered(s, actor, patientId, phone, dateOfBirth, payMethod, paymentId, receipt, today);
    assert t.patients[patientId].phone == phone;
  }

  // ------------------------------------------------------------ every successful view keeps the schema

  /** register_patient, once its checks pass, keeps every table invariant. */
  lemma RegisteredKeepsValid(s: Store, users: seq<User>, testTypes: seq<LabTestType>, actor: UserId, patientId: string,
                             phone: string, dateOfBirth: Date, payMethod: PaymentMethod, paymentId: string, receipt: string, today: Date)
    requires ValidStore(s, users, testTypes) && actor < |users|
    requires RegistrationCheck(s, users[actor].role, true, patientId, phone, paymentId, receipt) == Ok
    ensures ValidStore(PatientRegistered(s, actor, patientId, phone, dateOfBirth, payMethod, paymentId, receipt, today), users, testTypes)
  {
    var patient := Patient(phone, dateOfBirth, actor);
    PatientAdded(s, users, testTypes, patientId, patient);
    PaymentAdded(s.(patients := s.patients[patientId := patient]), users, testTypes,
      CompletedPayment(paymentId, patientId, None, RegistrationFee, PaymentMethodCode(payMethod),
        RegistrationFeeCents, None, None, actor, today, receipt));
  }

  /** create_visit, once its checks pass, keeps every table invariant. */
  lemma VisitCreatedKeepsValid(s: Store, users: seq<User>, testTypes: seq<LabTestType>, actor: UserId, patientId: string,
                               doctor: UserId, symptoms: string, visitId: string)
    requires ValidStore(s, users, testTypes) && actor < |users|
    requires VisitCheck(s, users, patientId, doctor, visitId) == Ok
    ensures ValidStore(VisitCreated(s, actor, patientId, doctor, symptoms, visitId), users, testTypes)
  {
    var s1 := s.(visits := s.visits[visitId := Visit(patientId, doctor, WithDoctor, symptoms)]);
    VisitWritten(s, users, testTypes, visitId, Visit(patientId, doctor, WithDoctor, symptoms));
    ExaminationWritten(s1, users, testTypes, visitId, Examination(actor, BlankFindings));
    NotificationsAdded(s1.(examinations := s1.examinations[visitId := Examination(actor, BlankFindings)]), users, testTypes,
      [NewNotification(doctor, SystemNote, "New Patient Assigned", visitId)]);
  }

  /** request_lab_test, once its checks pass, keeps every table invariant. */
  lemma LabTestRequestedKeepsValid(s: Store, users: seq<User>, testTypes: seq<LabTestType>, actor: UserId, role: Role,
                                   visitId: string, testType: nat, requestId: string, now: int)
    requires ValidStore(s, users, testTypes) && actor < |users|
    requires LabRequestCheck(s, role, testTypes, visitId, testType, requestId) == Ok
    ensures ValidStore(LabTestRequested(s, users, actor, visitId, testType, requestId, now), users, testTypes)
  {
    var r := LabRequest(requestId, visitId, testType, actor, None, PaymentPending, now);
    var s1 := s.(labRequests := s.labRequests[requestId := r]);
    LabRequestWritten(s, users, testTypes, requestId, r);
    VisitWritten(s1, users, testTypes, visitId, s.visits[visitId].(status := LabRequested));
    NotifyRoleOk(users, LabTech, LabRequestNote, "New Lab Test Request", requestId);
    NotificationsAdded(s1.(visits := s.visits[visitId := s.visits[visitId].(status := LabRequested)]), users, testTypes,
      NotifyRole(users, LabTech, LabRequestNote, "New Lab Test Request", requestId));
  }

  /** process_lab_test, once its checks pass, keeps every table invariant. */
  lemma LabResultRecordedKeepsValid(s: Store, users: seq<User>, testTypes: seq<LabTestType>, actor: UserId, role: Role,
                                    requestId: string, resultData: string, findings: string, interpretation: string)
    requires ValidStore(s, users, testTypes) && actor < |users|
    requires LabResultCheck(s, role, requestId) == Ok
    ensures ValidStore(LabResultRecorded(s, actor, requestId, resultData, findings, interpretation), users, testTypes)
  {
    var r := s.labRequests[requestId];
    var s1 := s.(testResults := s.testResults[requestId := TestResult(actor, resultData, findings, interpretation)]);
    var s2 := s1.(labRequests := s.labRequests[requestId := r.(status := Laboratory.Completed)]);
    var s3 := s2.(visits := s.visits[r.visit := s.visits[r.visit].(status := LabCompleted)]);
    var note := NewNotification(r.requestedBy, LabResultNote, "Lab Test Results Ready", requestId);
    ResultWritten(s, users, testTypes, requestId, TestResult(actor, resultData, findings, interpretation));
    LabRequestWritten(s1, users, testTypes, requestId, r.(status := Laboratory.Completed));
    VisitWritten(s2, users, testTypes, r.visit, s.visits[r.visit].(status := LabCompleted));
    NotificationsAdded(s3, users, testTypes, [note, note]);
  }

  /** lab_result_detail creating a prescription, once its checks pass, keeps
      every table invariant: in particular one prescription per visit. */
  lemma PrescriptionCreatedKeepsValid(s: Store, users: seq<User>, testTypes: seq<LabTestType>, actor: UserId, role: Role,
                                      requestId: string, prescriptionId: string)
    requires ValidStore(s, users, testTypes) && actor < |users|
    requires ResultViewCheck(s, actor, role, requestId, true, prescriptionId) == Ok
    ensures ValidStore(PrescriptionCreated(s, users, actor, requestId, prescriptionId), users, testTypes)
  {
    var visitId := s.labRequests[requestId].visit;
    var notes := NotifyRole(users, Pharmacist, PrescriptionNote, "New Prescription", prescriptionId);
    var s1 := s.(prescriptions := s.prescriptions[prescriptionId := NewPrescription(visitId, actor)]);
    var s2 := s1.(visits := s.visits[visitId := s.visits[visitId].(status := PrescriptionReady)]);
    PrescriptionAdded(s, users, testTypes, prescriptionId, NewPrescription(visitId, actor));
    VisitWritten(s1, users, testTypes, visitId, s.visits[visitId].(status := PrescriptionReady));
    NotifyRoleOk(users, Pharmacist, PrescriptionNote, "New Prescription", prescriptionId);
    NotificationsAdded(s2, users, testTypes, notes);
    NotificationsAdded(s2.(notifications := s2.notifications + notes), users, testTypes, notes);
    assert s2.notifications + notes + notes == s.notifications + notes + notes;
  }

  /** process_lab_payment, once its checks pass, keeps every table invariant:
      in particular unique payment ids and receipt numbers. */
  lemma LabPaidKeepsValid(s: Store, users: seq<User>, testTypes: seq<LabTestType>, actor: UserId, role: Role, requestId: string,
                          payMethod: string, paymentId: string, receipt: string, today: Date)
    requires ValidStore(s, users, testTypes) && actor < |users|
    requires LabPaymentCheck(s, role, requestId, paymentId, receipt) == Ok
    ensures ValidStore(LabPaid(s, testTypes, actor, requestId, payMethod, paymentId, receipt, today), users, testTypes)
  {
    var r := s.labRequests[requestId];
    var pay := CompletedPayment(paymentId, s.visits[r.visit].patient, Some(r.visit),
      LabTestFee, payMethod, testTypes[r.testType].price, Some(requestId), None, actor, today, receipt);
    PaymentAdded(s, users, testTypes, pay);
    LabRequestWritten(s.(payments := s.payments[paymentId := pay]), users, testTypes, requestId, r.(status := PaymentCompleted));
  }

  /** assign_lab_request, once its checks pass, keeps every table invariant:
      in particular the assignee is a lab technician. */
  lemma LabAssignedKeepsValid(s: Store, users: seq<User>, testTypes: seq<LabTestType>, role: Role, requestId: string, technician: nat)
    requires ValidStore(s, users, testTypes)
    requires AssignCheck(s, users, role, requestId, Some(technician)) == Ok
    ensures ValidStore(LabAssigned(s, requestId, technician), users, testTypes)
  {
    var r := s.labRequests[requestId].(assignedTo := Some(technician), status := InProgress);
    LabRequestWritten(s, users, testTypes, requestId, r);
    NotificationsAdded(s.(labRequests := s.labRequests[requestId := r]), users, testTypes,
      [NewNotification(technician, LabRequestNote, "New Lab Test Assigned", requestId)]);
  }

  /** process_medicine_payment, once its checks pass, keeps every table invariant. */
  lemma MedicinePaymentTakenKeepsValid(s: Store, users: seq<User>, testTypes: seq<LabTestType>, actor: UserId, role: Role,
                                       pid: string, payMethod: string, paymentId: string, receipt: string, today: Date)
    requires ValidStore(s, users, testTypes) && actor < |users|
    requires MedicinePaymentCheck(s, role, pid, paymentId, receipt) == Ok
    ensures ValidStore(MedicinePaymentTaken(s, actor, pid, payMethod, paymentId, receipt, today), users, testTypes)
  {
    var rx := s.prescriptions[pid];
    var pay := CompletedPayment(paymentId, s.visits[rx.visit].patient, Some(rx.visit),
      MedicineFee, payMethod, rx.totalCost, None, Some(pid), actor, today, receipt);
    PaymentAdded(s, users, testTypes, pay);
    VisitWritten(s.(payments := s.payments[paymentId := pay]), users, testTypes, rx.visit,
      s.visits[rx.visit].(status := Patients.Completed));
  }

  /** Every item of a prescription names a medicine of the catalogue. */
  lemma ItemsOfInCatalog(s: Store, users: seq<User>, testTypes: seq<LabTestType>, pid: string)
    requires ValidStore(s, users, testTypes)
    ensures ItemsInCatalog(s.medicines, ItemsOf(s.prescriptionItems, pid))
  {
    var items := ItemsOf(s.prescriptionItems, pid);
    forall k | 0 <= k < |items| ensures items[k].medicine < |s.medicines| {
      assert items[k] in items;
    }
  }

  /** dispense_medicines on an existing prescription: DISPENSED first, then
      the stock run; when the run stops short that is all (the status and the
      earlier decrements stay), otherwise the user's active cart is
      deactivated and every active cashier is told. */
  function MedicinesDispensed(s: Store, users: seq<User>, actor: UserId, pid: string): Store
    requires pid in s.prescriptions && ItemsInCatalog(s.medicines, ItemsOf(s.prescriptionItems, pid))
  {
    var run := DispenseRun(s.medicines, ItemsOf(s.prescriptionItems, pid));
    var t := s.(prescriptions := s.prescriptions[pid := s.prescriptions[pid].(status := Dispensed)], medicines := run.meds);
    if run.shortAt.Some? then t
    else t.(carts := DeactivateCart(s.carts, actor, pid),
            notifications := s.notifications + NotifyRole(users, Cashier, PaymentNote, "Medicine Payment Required", pid))
  }

  lemma MedicinesDispensedKeepsValid(s: Store, users: seq<User>, testTypes: seq<LabTestType>, actor: UserId, pid: string)
    requires ValidStore(s, users, testTypes) && pid in s.prescriptions
    requires ItemsInCatalog(s.medicines, ItemsOf(s.prescriptionItems, pid))
    ensures ValidStore(MedicinesDispensed(s, users, actor, pid), users, testTypes)
  {
    var run := DispenseRun(s.medicines, ItemsOf(s.prescriptionItems, pid));
    PrescriptionStatusSet(s, users, testTypes, pid, Dispensed);
    var t := s.(prescriptions := s.prescriptions[pid := s.prescriptions[pid].(status := Dispensed)]);
    MedicinesSet(t, users, testTypes, run.meds);
    if run.shortAt.None? {
      DispenseClosedKeepsValid(t.(medicines := run.meds), users, testTypes, actor, pid);
    }
  }

  /** The cart deactivation and the cashiers' notifications keep the invariants. */
  lemma DispenseClosedKeepsValid(s: Store, users: seq<User>, testTypes: seq<LabTestType>, actor: UserId, pid: string)
    requires ValidStore(s, users, testTypes)
    ensures ValidStore(s.(carts := DeactivateCart(s.carts, actor, pid),
      notifications := s.notifications + NotifyRole(users, Cashier, PaymentNote, "Medicine Payment Required", pid)), users, testTypes)
  {
    CartDeactivated(s, users, testTypes, actor, pid);
    NotifyRoleOk(users, Cashier, PaymentNote, "Medicine Payment Required", pid);
    NotificationsAdded(s.(carts := DeactivateCart(s.carts, actor, pid)), users, testTypes,
      NotifyRole(users, Cashier, PaymentNote, "Medicine Payment Required", pid));
  }

  // ------------------------------------------------------------ the clinic

  class Clinic {
    /** Staff accounts and lab test types are managed outside the workflow. */
    const users: seq<User>
    const testTypes: seq<LabTestType>
    /** The tables; each view rewrites the ones it saves to, one at a time. */
    var db: Store

    ghost predicate Valid()
      reads this
    {
      ValidStore(db, users, testTypes)
    }

    /** An empty clinic with its staff, test types and medicine catalogue. */
    constructor(users: seq<User>, testTypes: seq<LabTestType>, medicines: seq<Medicine>)
      ensures Valid()
      ensures this.users == users && this.testTypes == testTypes
      ensures db == Store(medicines, map[], map[], map[], map[], map[], map[], [], map[], [], 0, map[], [])
    {
      this.users := users;
      this.testTypes := testTypes;
      db := Store(medicines, map[], map[], map[], map[], map[], map[], [], map[], [], 0, map[], []);
    }

    // ---------------------------------------------------------- notifications and saves

    /** The notifications the post_save handlers' and the views' loops create
        for every active user of `role`, in table order. */
    method Fanout(role: Role, kind: NotificationType, title: string, related: string) returns (sent: seq<Notification>)
      ensures sent == NotifyRole(users, role, kind, title, related)
    {
      sent := [];
      var i := 0;
      while i < |users|
        invariant 0 <= i <= |users|
        invariant sent == RoleNotes(users, role, i, kind, title, related)
      {
        if users[i].role == role && users[i].isActive {
          sent := sent + [NewNotification(i, kind, title, related)];
        }
        i := i + 1;
      }
      RoleNotesAreBroadcast(users, role, |users|, kind, title, related);
    }

    /** Appends one notification per active user of `role`. */
    method NotifyActive(role: Role, kind: NotificationType, title: string, related: string)
      modifies this
      ensures db == old(db).(notifications := old(db).notifications + NotifyRole(users, role, kind, title, related))
    {
      var sent := Fanout(role, kind, title, related);
      Notify(sent);
    }

    /** Appends notifications the caller has already addressed. */
    method Notify(ns: seq<Notification>)
      modifies this
      ensures db == old(db).(notifications := old(db).notifications + ns)
    {
      db := db.(notifications := db.notifications + ns);
    }

    /** Visit.save: writes the row, then appends the notification the save
        decides on (see VisitSaveNotifications). */
    method SaveVisit(visitId: string, v: Visit)
      modifies this
      ensures db == old(db).(
        visits := old(db).visits[visitId := v],
        notifications := old(db).notifications
          + VisitSaveNotifications(if visitId in old(db).visits then Some(old(db).visits[visitId]) else None, v, visitId))
    {
      var before := if visitId in db.visits then Some(db.visits[visitId]) else None;
      db := db.(visits := db.visits[visitId := v]);
      Notify(VisitSaveNotifications(before, v, visitId));
    }

    /** A view assigning `visit.status` and saving: never WITH_DOCTOR here, so
        the save is silent. */
    method SetVisitStatus(visitId: string, status: VisitStatus)
      requires visitId in db.visits && status != WithDoctor
      modifies this
      ensures db == old(db).(visits := old(db).visits[visitId := old(db).visits[visitId].(status := status)])
    {
      StatusWriteIsSilent(db.visits[visitId], status, visitId);
      SaveVisit(visitId, db.visits[visitId].(status := status));
    }

    /** create_lab_notification: on creation of a lab request, every active lab
        technician is told; a later save adds nothing. */
    method CreateLabNotification(requestId: string, created: bool)
      modifies this
      ensures db == old(db).(notifications := old(db).notifications
        + (if created then NotifyRole(users, LabTech, LabRequestNote, "New Lab Test Request", requestId) else []))
    {
      if created {
        NotifyActive(LabTech, LabRequestNote, "New Lab Test Request", requestId);
      } else {
        assert old(db).notifications + [] == old(db).notifications;
      }
    }

    /** create_lab_result_notification: on creation of a test result, the
        doctor who requested the test is told. */
    method CreateLabResultNotification(requestId: string, created: bool)
      requires requestId in db.labRequests
      modifies this
      ensures db == old(db).(notifications := old(db).notifications
        + (if created then [NewNotification(old(db).labRequests[requestId].requestedBy, LabResultNote, "Lab Test Results Ready", requestId)] else []))
    {
      if created {
        Notify([NewNotification(db.labRequests[requestId].requestedBy, LabResultNote, "Lab Test Results Ready", requestId)]);
      } else {
        assert old(db).notifications + [] == old(db).notifications;
      }
    }

    /** create_prescription_notification: on creation of a prescription, every
        active pharmacist is told. */
    method CreatePrescriptionNotification(pid: string, created: bool)
      modifies this
      ensures db == old(db).(notifications := old(db).notifications
        + (if created then NotifyRole(users, Pharmacist, PrescriptionNote, "New Prescription", pid) else []))
    {
      if created {
        NotifyActive(Pharmacist, PrescriptionNote, "New Prescription", pid);
      } else {
        assert old(db).notifications + [] == old(db).notifications;
      }
    }

    // ---------------------------------------------------------- patients/views.py

    /** register_patient (POST): the patient and a completed registration
        payment of 50.00 are written together or not at all. */
    method RegisterPatient(actor: UserId, fieldsValid: bool, patientId: string, phone: string, dateOfBirth: Date,
                           payMethod: PaymentMethod, paymentId: string, receipt: string, today: Date)
      returns (out: Outcome)
      requires Valid() && actor < |users|
      modifies this
      ensures Valid()
      ensures out == RegistrationCheck(old(db), users[actor].role, fieldsValid, patientId, phone, paymentId, receipt)
      ensures out != Ok ==> db == old(db)
      ensures out == Ok ==> db == PatientRegistered(old(db), actor, patientId, phone, dateOfBirth, payMethod, paymentId, receipt, today)
    {
      out := RegistrationCheck(db, users[actor].role, fieldsValid, patientId, phone, paymentId, receipt);
      if out != Ok {
        return;
      }
      RegisteredKeepsValid(db, users, testTypes, actor, patientId, phone, dateOfBirth, payMethod, paymentId, receipt, today);
      db := db.(patients := db.patients[patientId := Patient(phone, dateOfBirth, actor)]);
      db := db.(payments := db.payments[paymentId := CompletedPayment(paymentId, patientId, None, RegistrationFee,
        PaymentMethodCode(payMethod), RegistrationFeeCents, None, None, actor, today, receipt)]);
    }

    /** create_visit (POST): the visit goes straight to WITH_DOCTOR (its doctor
        is told of the new patient) and gets one blank examination. Any
        logged-in user may do this. */
    method CreateVisit(actor: UserId, patientId: string, doctor: UserId, symptoms: string, visitId: string)
      returns (out: Outcome)
      requires Valid() && actor < |users|
      modifies this
      ensures Valid()
      ensures out == VisitCheck(old(db), users, patientId, doctor, visitId)
      ensures out != Ok ==> db == old(db)
      ensures out == Ok ==> db == VisitCreated(old(db), actor, patientId, doctor, symptoms, visitId)
    {
      out := VisitCheck(db, users, patientId, doctor, visitId);
      if out != Ok {
        return;
      }
      VisitCreatedKeepsValid(db, users, testTypes, actor, patientId, doctor, symptoms, visitId);
      SaveVisit(visitId, Visit(patientId, doctor, WithDoctor, symptoms));
      db := db.(examinations := db.examinations[visitId := Examination(actor, BlankFindings)]);
    }

    /** visit_detail: the examination is fetched, never created a second time
        (creating one here would lack its required author and fail); only a
        doctor's POST whose form passes its field checks (`fieldsValid`, such
        as a temperature within four digits) rewrites it; a failing form is
        shown again and nothing is saved. */
    method VisitDetail(actor: UserId, visitId: string, post: bool, fieldsValid: bool, findings: ExamFindings) returns (out: Outcome)
      requires Valid() && actor < |users|
      modifies this
      ensures Valid()
      ensures out == NotFound <==> visitId !in old(db).visits
      ensures out == Error <==> visitId in old(db).visits && visitId !in old(db).examinations
      ensures out == FormInvalid <==> (visitId in old(db).visits && visitId in old(db).examinations
        && post && users[actor].role == Doctor && !fieldsValid)
      ensures out in {Ok, NotFound, Error, FormInvalid}
      ensures out == Ok && post && users[actor].role == Doctor ==>
        db == old(db).(examinations := old(db).examinations[visitId := Examination(actor, findings)])
      ensures !(out == Ok && post && users[actor].role == Doctor) ==> db == old(db)
    {
      if visitId !in db.visits {
        return NotFound;
      }
      if visitId !in db.examinations {
        return Error;
      }
      if post && users[actor].role == Doctor {
        if !fieldsValid {
          return FormInvalid;
        }
        ExaminationWritten(db, users, testTypes, visitId, Examination(actor, findings));
        db := db.(examinations := db.examinations[visitId := Examination(actor, findings)]);
      }
      return Ok;
    }

    // ---------------------------------------------------------- laboratory/views.py

    /** request_lab_test (POST): a doctor's request is created directly in
        PAYMENT_PENDING, the lab technicians are told, and the visit becomes
        LAB_REQUESTED whatever its status was. */
    method RequestLabTest(actor: UserId, visitId: string, testType: nat, requestId: string, now: int)
      returns (out: Outcome)
      requires Valid() && actor < |users|
      modifies this
      ensures Valid()
      ensures out == LabRequestCheck(old(db), users[actor].role, testTypes, visitId, testType, requestId)
      ensures out != Ok ==> db == old(db)
      ensures out == Ok ==> db == LabTestRequested(old(db), users, actor, visitId, testType, requestId, now)
    {
      out := LabRequestCheck(db, users[actor].role, testTypes, visitId, testType, requestId);
      if out != Ok {
        return;
      }
      LabTestRequestedKeepsValid(db, users, testTypes, actor, users[actor].role, visitId, testType, requestId, now);
      db := db.(labRequests := db.labRequests[requestId := LabRequest(requestId, visitId, testType, actor, None, PaymentPending, now)]);
      CreateLabNotification(requestId, true);
      SetVisitStatus(visitId, LabRequested);
    }

    /** process_lab_test (POST): only the role is checked, not the request's
        status or assignee. The result is stored, the request COMPLETED, the
        visit LAB_COMPLETED, and the requesting doctor told twice: once by
        the creation handler and once by the view. */
    method ProcessLabTest(actor: UserId, requestId: string, resultData: string, findings: string, interpretation: string)
      returns (out: Outcome)
      requires Valid() && actor < |users|
      modifies this
      ensures Valid()
      ensures out == LabResultCheck(old(db), users[actor].role, requestId)
      ensures out != Ok ==> db == old(db)
      ensures out == Ok ==> db == LabResultRecorded(old(db), actor, requestId, resultData, findings, interpretation)
    {
      out := LabResultCheck(db, users[actor].role, requestId);
      if out != Ok {
        return;
      }
      LabResultRecordedKeepsValid(db, users, testTypes, actor, users[actor].role, requestId, resultData, findings, interpretation);
      SaveLabResult(actor, requestId, resultData, findings, interpretation);
    }

    /** process_lab_test's writes: the result (whose creation handler tells
        the requester), the request, the visit, then the view's own message. */
    method SaveLabResult(actor: UserId, requestId: string, resultData: string, findings: string, interpretation: string)
      requires requestId in db.labRequests && db.labRequests[requestId].visit in db.visits
      modifies this
      ensures db == LabResultRecorded(old(db), actor, requestId, resultData, findings, interpretation)
    {
      var r := db.labRequests[requestId];
      var note := NewNotification(r.requestedBy, LabResultNote, "Lab Test Results Ready", requestId);
      db := db.(testResults := db.testResults[requestId := TestResult(actor, resultData, findings, interpretation)]);
      CreateLabResultNotification(requestId, true);
      db := db.(labRequests := db.labRequests[requestId := r.(status := Laboratory.Completed)]);
      SetVisitStatus(r.visit, LabCompleted);
      Notify([note]);
      assert old(db).notifications + [note] + [note] == old(db).notifications + [note, note];
    }

    /** lab_result_detail: viewing needs DOCTOR or ADMIN or being the
        requester, and an existing result. A POST asking for a prescription
        creates it (PENDING, cost 0), moves the visit to PRESCRIPTION_READY
        and tells every active pharmacist twice: once by the creation handler
        and once by the view. */
    method LabResultDetail(actor: UserId, requestId: string, createPrescription: bool, prescriptionId: string)
      returns (out: Outcome)
      requires Valid() && actor < |users|
      modifies this
      ensures Valid()
      ensures out == ResultViewCheck(old(db), actor, users[actor].role, requestId, createPrescription, prescriptionId)
      ensures !(out == Ok && createPrescription) ==> db == old(db)
      ensures out == Ok && createPrescription ==> db == PrescriptionCreated(old(db), users, actor, requestId, prescriptionId)
    {
      out := ResultViewCheck(db, actor, users[actor].role, requestId, createPrescription, prescriptionId);
      if out != Ok || !createPrescription {
        return;
      }
      PrescriptionCreatedKeepsValid(db, users, testTypes, actor, users[actor].role, requestId, prescriptionId);
      var visitId := db.labRequests[requestId].visit;
      db := db.(prescriptions := db.prescriptions[prescriptionId := NewPrescription(visitId, actor)]);
      CreatePrescriptionNotification(prescriptionId, true);
      SetVisitStatus(visitId, PrescriptionReady);
      NotifyActive(Pharmacist, PrescriptionNote, "New Prescription", prescriptionId);
    }

    /** The process_lab_payment of laboratory/views.py: the same checks as
        the billing one, but the atomic block names a module it never
        imported, so every POST that passes them ends in the error branch
        with nothing saved. */
    method ProcessLabPaymentLaboratory(actor: UserId, requestId: string, paymentId: string, receipt: string)
      returns (out: Outcome)
      requires Valid() && actor < |users|
      ensures out != Ok
      ensures LabPaymentCheck(db, users[actor].role, requestId, paymentId, receipt) != Ok ==>
        out == LabPaymentCheck(db, users[actor].role, requestId, paymentId, receipt)
      ensures LabPaymentCheck(db, users[actor].role, requestId, paymentId, receipt) == Ok ==> out == Error
    {
      out := LabPaymentCheck(db, users[actor].role, requestId, paymentId, receipt);
      if out == Ok {
        out := Error;
      }
    }

    // ---------------------------------------------------------- billing/views.py

    /** process_lab_payment (POST): a completed LAB_TEST payment for the test
        type's price, and the request moves to PAYMENT_COMPLETED, together. */
    method ProcessLabPayment(actor: UserId, requestId: string, payMethod: string, paymentId: string, receipt: string, today: Date)
      returns (out: Outcome)
      requires Valid() && actor < |users|
      modifies this
      ensures Valid()
      ensures out == LabPaymentCheck(old(db), users[actor].role, requestId, paymentId, receipt)
      ensures out != Ok ==> db == old(db)
      ensures out == Ok ==> db == LabPaid(old(db), testTypes, actor, requestId, payMethod, paymentId, receipt, today)
    {
      out := LabPaymentCheck(db, users[actor].role, requestId, paymentId, receipt);
      if out != Ok {
        return;
      }
      LabPaidKeepsValid(db, users, testTypes, actor, users[actor].role, requestId, payMethod, paymentId, receipt, today);
      var r := db.labRequests[requestId];
      db := db.(payments := db.payments[paymentId := CompletedPayment(paymentId, db.visits[r.visit].patient, Some(r.visit),
        LabTestFee, payMethod, testTypes[r.testType].price, Some(requestId), None, actor, today, receipt)]);
      db := db.(labRequests := db.labRequests[requestId := r.(status := PaymentCompleted)]);
    }

    /** assign_lab_request (POST), in both of its identical copies: a paid
        request goes to the chosen lab technician (looked up by id and role
        only), becomes IN_PROGRESS, and the technician alone is told. */
    method AssignLabRequest(actor: UserId, requestId: string, technician: Option<nat>) returns (out: Outcome)
      requires Valid() && actor < |users|
      modifies this
      ensures Valid()
      ensures out == AssignCheck(old(db), users, users[actor].role, requestId, technician)
      ensures out != Ok ==> db == old(db)
      ensures out == Ok ==> db == LabAssigned(old(db), requestId, technician.value)
    {
      out := AssignCheck(db, users, users[actor].role, requestId, technician);
      if out != Ok {
        return;
      }
      var t := technician.value;
      LabAssignedKeepsValid(db, users, testTypes, users[actor].role, requestId, t);
      db := db.(labRequests := db.labRequests[requestId := db.labRequests[requestId].(assignedTo := Some(t), status := InProgress)]);
      Notify([NewNotification(t, LabRequestNote, "New Lab Test Assigned", requestId)]);
    }

    /** process_medicine_payment (POST): a completed payment of the
        prescription's total_cost and the visit COMPLETED, together. The
        prescription's status is neither checked nor changed. */
    method ProcessMedicinePayment(actor: UserId, pid: string, payMethod: string, paymentId: string, receipt: string, today: Date)
      returns (out: Outcome)
      requires Valid() && actor < |users|
      modifies this
      ensures Valid()
      ensures out == MedicinePaymentCheck(old(db), users[actor].role, pid, paymentId, receipt)
      ensures out != Ok ==> db == old(db)
      ensures out == Ok ==> db == MedicinePaymentTaken(old(db), actor, pid, payMethod, paymentId, receipt, today)
    {
      out := MedicinePaymentCheck(db, users[actor].role, pid, paymentId, receipt);
      if out != Ok {
        return;
      }
      MedicinePaymentTakenKeepsValid(db, users, testTypes, actor, users[actor].role, pid, payMethod, paymentId, receipt, today);
      var rx := db.prescriptions[pid];
      db := db.(payments := db.payments[paymentId := CompletedPayment(paymentId, db.visits[rx.visit].patient, Some(rx.visit),
        MedicineFee, payMethod, rx.totalCost, None, Some(pid), actor, today, receipt)]);
      SetVisitStatus(rx.visit, Patients.Completed);
    }

    // ---------------------------------------------------------- pharmacy/views.py

    /** prescription_detail: the user's active cart for the prescription, or
        a new empty one; a cart of another pharmacist or an inactive one
        blocks the creation (one cart per prescription). */
    method PrescriptionDetail(actor: UserId, pid: string, now: int) returns (out: Outcome)
      requires Valid() && actor < |users|
      modifies this
      ensures Valid()
      ensures out == CartCheck(old(db), actor, pid)
      ensures out == Ok ==> OwnActiveCart(db.carts, actor, pid)
      ensures out == Ok && pid !in old(db).carts ==> db == old(db).(carts := old(db).carts[pid := Cart(actor, 0, true, now)])
      ensures !(out == Ok && pid !in old(db).carts) ==> db == old(db)
    {
      out := CartCheck(db, actor, pid);
      if out != Ok || pid in db.carts {
        return;
      }
      CartOpened(db, users, testTypes, pid, Cart(actor, 0, true, now));
      db := db.(carts := db.carts[pid := Cart(actor, 0, true, now)]);
    }

    /** add_to_cart: with the user's active cart (created if need be), the
        prescription's item for the medicine gains `qty` (or is created at the
        medicine's price), the cart's row for that item gains `qty` (or is
        created), and the cart total becomes the sum of its rows. */
    method AddToCart(actor: UserId, pid: string, med: nat, qty: int, now: int) returns (out: Outcome)
      requires Valid() && actor < |users|
      modifies this
      ensures Valid()
      ensures out == (if med >= |old(db).medicines| then NotFound else CartCheck(old(db), actor, pid))
      ensures out != Ok ==> db == old(db)
      ensures out == Ok ==> med < |old(db).medicines| && db == CartAdded(old(db), actor, pid, med, qty, now)
    {
      if med >= |db.medicines| {
        return NotFound;
      }
      out := CartCheck(db, actor, pid);
      if out != Ok {
        return;
      }
      CartAddedKeepsValid(db, users, testTypes, actor, pid, med, qty, now);
      SaveToCart(actor, pid, med, qty, now);
    }

    /** add_to_cart's writes, once its checks pass: the item, then the cart
        row, then the (possibly new) cart with its recomputed total. */
    method SaveToCart(actor: UserId, pid: string, med: nat, qty: int, now: int)
      requires med < |db.medicines|
      modifies this
      ensures db == CartAdded(old(db), actor, pid, med, qty, now)
    {
      SaveItem(pid, med, qty);
      SaveCartRow(pid, med, qty);
      SaveCartTotal(actor, pid, now);
    }

    /** The item for the medicine gains `qty`, or is created at its price. */
    method SaveItem(pid: string, med: nat, qty: int)
      requires med < |db.medicines|
      modifies this
      ensures db == ItemAdded(old(db), pid, med, qty)
    {
      db := db.(prescriptionItems := UpsertItem(db.prescriptionItems, pid, med, qty, db.medicines[med].unitPrice));
    }

    /** The cart's row for the item gains `qty` at the item's unit price, or
        is created at the medicine's price under the next row id. */
    method SaveCartRow(pid: string, med: nat, qty: int)
      requires med < |db.medicines| && FindItem(db.prescriptionItems, pid, med).Some?
      modifies this
      ensures db == CartRowAdded(old(db), pid, med, qty)
    {
      var k := FindItem(db.prescriptionItems, pid, med).value;
      db := db.(cartItems := UpsertCartRow(db.cartItems, pid, k, qty, db.medicines[med].unitPrice,
                  db.prescriptionItems[k].unitPrice, db.nextCartItemId),
                nextCartItemId := db.nextCartItemId + 1);
    }

    /** The user's cart, created if need be, gets the sum of its rows. */
    method SaveCartTotal(actor: UserId, pid: string, now: int)
      modifies this
      ensures db == CartTotalled(old(db), actor, pid, now)
    {
      var cart := if pid in db.carts then db.carts[pid] else Cart(actor, 0, true, now);
      db := db.(carts := db.carts[pid := cart.(totalAmount := CartSum(db.cartItems, pid))]);
    }

    /** update_cart: a row of one of the user's carts is set to `newQty` (0 or
        less deletes it), and its cart's total recomputed. */
    method UpdateCart(actor: UserId, rowId: nat, newQty: int) returns (out: Outcome)
      requires Valid() && actor < |users|
      modifies this
      ensures Valid()
      ensures out == OwnRowCheck(old(db), actor, rowId)
      ensures out != Ok ==> db == old(db)
      ensures out == Ok ==> db == CartRowSet(old(db), FindCartRowById(old(db).cartItems, rowId).value, newQty)
    {
      out := OwnRowCheck(db, actor, rowId);
      if out != Ok {
        return;
      }
      var j := FindCartRowById(db.cartItems, rowId).value;
      CartRowSetKeepsValid(db, users, testTypes, j, newQty);
      var row := db.cartItems[j];
      var rows := if newQty <= 0 then db.cartItems[..j] + db.cartItems[j + 1..]
                  else db.cartItems[j := row.(quantity := newQty, subtotal := db.prescriptionItems[row.item].unitPrice * newQty)];
      db := db.(cartItems := rows);
      db := db.(carts := db.carts[row.cart := db.carts[row.cart].(totalAmount := CartSum(rows, row.cart))]);
    }

    /** remove_from_cart: a row of one of the user's carts is deleted and its
        cart's total recomputed. */
    method RemoveFromCart(actor: UserId, rowId: nat) returns (out: Outcome)
      requires Valid() && actor < |users|
      modifies this
      ensures Valid()
      ensures out == OwnRowCheck(old(db), actor, rowId)
      ensures out != Ok ==> db == old(db)
      ensures out == Ok ==> db == CartRowSet(old(db), FindCartRowById(old(db).cartItems, rowId).value, 0)
    {
      out := OwnRowCheck(db, actor, rowId);
      if out != Ok {
        return;
      }
      var j := FindCartRowById(db.cartItems, rowId).value;
      CartRowSetKeepsValid(db, users, testTypes, j, 0);
      var rows := db.cartItems[..j] + db.cartItems[j + 1..];
      var c := db.cartItems[j].cart;
      db := db.(cartItems := rows);
      db := db.(carts := db.carts[c := db.carts[c].(totalAmount := CartSum(rows, c))]);
    }

    /** dispense_medicines (POST): the prescription is marked DISPENSED first;
        then each of its items takes its quantity from stock when the stock
        covers it. At the first item it does not cover the view stops, with
        the status and the earlier decrements kept. Otherwise the user's active
        cart is deactivated and every active cashier is told. */
    method DispenseMedicines(actor: UserId, pid: string) returns (out: Outcome)
      requires Valid() && actor < |users|
      modifies this
      ensures Valid()
      ensures out == NotFound <==> pid !in old(db).prescriptions
      ensures out == NotFound ==> db == old(db)
      ensures out != NotFound ==>
        var items := ItemsOf(old(db).prescriptionItems, pid);
        ItemsInCatalog(old(db).medicines, items)
        && var run := DispenseRun(old(db).medicines, items);
        db == MedicinesDispensed(old(db), users, actor, pid)
        && out == (if run.shortAt.Some? then InsufficientStock(run.shortAt.value) else Ok)
    {
      if pid !in db.prescriptions {
        return NotFound;
      }
      ItemsOfInCatalog(db, users, testTypes, pid);
      MedicinesDispensedKeepsValid(db, users, testTypes, actor, pid);
      out := Dispense(actor, pid);
    }

    /** The writes of dispense_medicines, in the view's order. */
    method Dispense(actor: UserId, pid: string) returns (out: Outcome)
      requires pid in db.prescriptions && ItemsInCatalog(db.medicines, ItemsOf(db.prescriptionItems, pid))
      modifies this
      ensures db == MedicinesDispensed(old(db), users, actor, pid)
      ensures var run := DispenseRun(old(db).medicines, ItemsOf(old(db).prescriptionItems, pid));
        out == (if run.shortAt.Some? then InsufficientStock(run.shortAt.value) else Ok)
    {
      var items := ItemsOf(db.prescriptionItems, pid);
      db := db.(prescriptions := db.prescriptions[pid := db.prescriptions[pid].(status := Dispensed)]);
      var meds, shortAt := TakeStock(db.medicines, items);
      db := db.(medicines := meds);
      if shortAt.Some? {
        return InsufficientStock(shortAt.value);
      }
      CloseDispense(actor, pid);
      return Ok;
    }

    /** The end of a dispense that took all its stock: the user's active cart
        is deactivated and every active cashier is told. */
    method CloseDispense(actor: UserId, pid: string)
      modifies this
      ensures db == old(db).(carts := DeactivateCart(old(db).carts, actor, pid),
        notifications := old(db).notifications + NotifyRole(users, Cashier, PaymentNote, "Medicine Payment Required", pid))
    {
      db := db.(carts := DeactivateCart(db.carts, actor, pid));
      NotifyActive(Cashier, PaymentNote, "Medicine Payment Required", pid);
    }
  }
}
