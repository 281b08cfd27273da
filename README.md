# Clinic workflow model

A Dafny model of the workflow and bookkeeping of a Django clinic-management
system: patients are registered and pay a registration fee, visits go to a
doctor, doctors request lab tests, cashiers take lab payments, lab requests
are assigned to technicians who record results, doctors create
prescriptions, pharmacists fill dispense carts and dispense from stock, and
cashiers take the medicine payment that completes the visit. Most steps
check the acting user's role and the record's status before they write
records and append notifications. Some views skip these checks:
`create_visit`, `prescription_detail`, `add_to_cart` and `dispense_medicines`
check no role, and `process_lab_test`, `process_medicine_payment` and
`dispense_medicines` check no status.

Layout (one module per application of the system):

- `common.dfy` (`Common`): `Option`, lower-casing and substring search.
- `core_utils.dfy` (`CoreUtils`): `calculate_age` and the identifier
  generators of core/utils.py, with `strftime('%y%m%d')` as `Yymmdd`.
- `users.dfy` (`Users`): the seven roles, their stored codes and the
  `is_*` predicates.
- `notifications.dfy` (`Notifications`): the notification record and the
  role fan-out that the creation handlers and several views perform.
- `patients.dfy` (`Patients`): the nine visit statuses, the notification
  decision of `Visit.save`, and the PAT/VIS identifiers.
- `laboratory.dfy` (`Laboratory`): lab request statuses and the
  `lab_requests_list` filter and ordering.
- `pharmacy.dfy` (`Pharmacy`): medicines, prescriptions, items, carts and
  cart rows; `medicine_search`; the item and cart-row upserts of
  `add_to_cart`; cart totals; the stock loop of `dispense_medicines`.
- `billing.dfy` (`Billing`): payment enums, delete permissions, the
  `payment_list` filter and totals, the pending medicine payments.
- `clinic.dfy` (`Workflow`): the whole store, its schema invariants
  (`ValidStore`), and the class `Clinic`. Each POST view is one method of
  `Clinic`.

Most view methods share one contract shape:

- its outcome equals a check function (`RegistrationCheck`, `LabPaymentCheck`, …);
- on any outcome other than `Ok` the store is unchanged;
- on `Ok` the new store equals an effect function of the old one (`PatientRegistered`, `LabPaid`, …);
- `ValidStore` is preserved.

These methods depart from that shape:

- `VisitDetail` states its outcomes as if-and-only-if clauses of its own, with no check function. Only a doctor's valid POST changes the store.
- `LabResultDetail` and `PrescriptionDetail` can return `Ok` with the store unchanged. They write only when a prescription is asked for, or when the user has no cart yet.
- `ProcessLabPaymentLaboratory` never returns `Ok` and changes nothing.
- `DispenseMedicines` has no check function beyond `NotFound`. Its `InsufficientStock` outcome still changes the store: the prescription stays DISPENSED and the earlier stock decrements are kept.

The check functions state, as if-and-only-if clauses, which inputs lead to
which outcome. The store invariants encode the schema's uniqueness and
reference constraints:

- one prescription per visit;
- one item per (prescription, medicine) and one cart row per (cart, item);
- one cart per prescription;
- unique payment ids and receipt numbers;
- every cart total equal to the sum of its rows;
- payments referring only to existing records: the patient, lab request and
  prescription references are PROTECT, the visit reference is CASCADE, and no
  modelled operation deletes any of them;
- every notification unread, since no modelled operation marks one read.

Amounts are integer cents; the registration fee is `RegistrationFeeCents` (5000).

Identifiers, timestamps, dates and the random parts of identifiers are
parameters supplied by the caller. Records that carry a business id are kept
in maps keyed by it. The auto-numbered tables (users, test types, medicines,
prescription items) are sequences indexed by position. Cart rows carry an
explicit id because they can be deleted.

Defaults are constants: `Users.DefaultRole` is RECEPTIONIST,
`Patients.DefaultVisitStatus` REGISTERED, `Laboratory.DefaultLabStatus`
REQUESTED and `Billing.DefaultPaymentStatus` PENDING. No view relies on
them, because every view sets the status it writes.

Behaviour modelled as the code is written:

- No view checks the visit's status; views overwrite it. `create_visit`
  goes straight to WITH_DOCTOR and checks no role.
- `process_lab_test` checks only the role. It does not check the request's
  status or its assignee.
- A lab result notifies the requesting doctor twice: once from the creation
  handler and once from the view. A new prescription notifies every active
  pharmacist twice, for the same reason. A new lab request notifies the lab
  technicians once, from the handler.
- `Prescription.total_cost` is never updated by any view. A medicine payment
  is therefore for the prescription's stored cost, which is 0 unless it was
  edited elsewhere.
- `process_medicine_payment` neither checks nor changes the prescription's status.
- `dispense_medicines` marks the prescription DISPENSED before it checks
  stock, and has no transaction. On a shortfall the status and the earlier
  decrements stay. The view checks no role and no status.
- The `process_lab_payment` of laboratory/views.py (the one laboratory/urls.py
  routes to) calls `transaction.atomic()` without importing `transaction`.
  Every POST that passes its checks therefore ends in the error branch with
  nothing saved (`Workflow.Clinic.ProcessLabPaymentLaboratory`). The
  billing copy works and is `Workflow.Clinic.ProcessLabPayment`.
- `visit_detail` calls `get_or_create` for the examination without its
  required author. Where no examination exists that is an error, with
  nothing saved. `create_visit` always creates one first.
- The cart is a one-to-one field of the prescription. A second cart for the
  same prescription therefore fails, whether it belongs to another
  pharmacist or follows a deactivated one.
- `assign_lab_request` looks the technician up by id and role only, not by
  whether the account is active.
- `Visit.save` notifies only the new doctor on a transfer, although its
  docstring promises both.

## Model

| member | source | states |
|---|---|---|
| CoreUtils.CalculateAge | core/utils.py:20-23 | age is the year difference when today's (month, day) is not before the birth's, one less when it is; on the birthday itself it is the exact difference |
| CoreUtils.AgeCountsAnniversaries | core/utils.py:20-23 | the age is the number of birthdays passed: today is on or after the age-th anniversary and before the next one |
| CoreUtils.Yymmdd | core/utils.py:6 | `%y%m%d` is six digits that read back as year mod 100, month and day |
| CoreUtils.GeneratePatientId | core/utils.py:5-8 | "P", then the six date digits, then the four random digits (11 characters, all digits after the prefix) |
| CoreUtils.GenerateLabTestId | core/utils.py:10-13 | "LT", then the date digits, then the four random digits (12 characters) |
| CoreUtils.GenerateBillNumber | core/utils.py:15-18 | "B", then the date digits, then the four random digits (11 characters) |
| CoreUtils.GeneratePrescriptionId | core/utils.py:25-26 | "RX" followed by five digits that read back as the drawn number in 10000..99999 |
| Users.ParseRole | users/models.py:6-13 | a stored code parses to the role it is the code of, and to nothing when no role has that code |
| Users.RoleCodeRoundTrip | users/models.py:6-13 | every role's code parses back to that role |
| Users.ExactlyOneRolePredicate | users/models.py:25-51 | the k-th `is_*` property holds exactly when the role is the k-th constant, so exactly one of the seven holds |
| Notifications.NewNotification | core/models.py:18-23 | a new notification is unread and carries the given recipient, type, title and related id |
| Notifications.ActiveWithRoleMembers | core/models.py:48 | the fan-out's recipients are exactly the active users of the role |
| Notifications.ActiveWithRoleIncreasing | core/models.py:48-49 | each recipient appears once; they come in table order, one admissible order of an unordered query |
| Notifications.NotifyRoleExactlyOnce | core/models.py:44-56 | a role fan-out gives each active user of the role exactly one notification and everyone else none |
| Patients.VisitStatusCodesDistinct | patients/models.py:40-49 | the visit statuses are nine values with nine distinct stored codes |
| Patients.VisitSaveNotice | patients/models.py:72-92 | a new visit gives "new patient"; otherwise a changed doctor gives "transferred"; otherwise a status changed to WITH_DOCTOR gives "ready"; otherwise nothing (each case an if-and-only-if) |
| Patients.VisitSaveNotifications | patients/models.py:86-123 | a save appends at most one SYSTEM notification, unread and addressed to the (new) assigned doctor; none exactly when the doctor is unchanged and the status did not change to WITH_DOCTOR |
| Patients.StatusWriteIsSilent | patients/models.py:89-92 | a save that only sets a status other than WITH_DOCTOR appends nothing |
| Patients.GeneratePatientId | patients/views.py:15-16 | "PAT", the six date digits, then four digits reading back as the drawn 1000..9999 |
| Patients.GenerateVisitId | patients/views.py:18-19 | "VIS", the six date digits, then four digits reading back as the drawn 1000..9999 |
| Laboratory.ParseLabStatus | laboratory/models.py:17-23 | a stored code parses to its status, and to nothing when no status has it |
| Laboratory.VisibleRequests | laboratory/views.py:153-158 | a lab technician sees exactly the requests assigned to them, a doctor exactly those they made, any other role all |
| Laboratory.InsertByTime | laboratory/views.py:160 | inserting into a newest-first list keeps it newest first and adds exactly that one request |
| Laboratory.SortNewestFirst | laboratory/views.py:160 | the ordering is newest first and a permutation of its input |
| Laboratory.LabRequestsList | laboratory/views.py:151-160 | the listed requests are newest first and a permutation of the visible ones |
| Laboratory.LabRequestsListMembers | laboratory/views.py:151-160 | a request is listed exactly when it exists and the viewer's role lets them see it |
| Pharmacy.NewMedicine | pharmacy/models.py:24-34 | a new medicine has stock 0, reorder level 10 and is active |
| Pharmacy.NewPrescription | pharmacy/models.py:48-50 | a new prescription is PENDING with total cost 0 |
| Pharmacy.MatchingMembers | pharmacy/views.py:86-93 | the matches are exactly the active, in-stock medicines whose name, generic name or id contains the query ignoring case |
| Pharmacy.MedicineSearch | pharmacy/views.py:81-93 | a query under 2 characters finds nothing; otherwise at most 10 results, each an active in-stock match |
| Pharmacy.MedicineSearchComplete | pharmacy/views.py:86-93 | a matching medicine is missing from the results only when they are already 10 |
| Pharmacy.FindItem | pharmacy/views.py:130-132 | finds the item of (prescription, medicine) when one exists, and says none exists otherwise |
| Pharmacy.UpsertItem | pharmacy/views.py:130-146 | the item gains the quantity (or is created with it at the medicine's price), its total becomes unit price × quantity, other items are unchanged, and one item per (prescription, medicine) is kept |
| Pharmacy.FindCartRow | pharmacy/views.py:149-152 | finds the cart's row for the item when one exists, and says none exists otherwise |
| Pharmacy.UpsertCartRow | pharmacy/views.py:149-161 | the row gains the quantity (or is created at the medicine's price under the next id); its subtotal is price × quantity; the cart's sum moves by the subtotal's change and other carts' sums do not move; one row per (cart, item) is kept |
| Pharmacy.FindCartRowById | pharmacy/views.py:232 | finds the row with the id when one exists |
| Pharmacy.CartSumReplace | pharmacy/views.py:238-244 | rewriting a row moves its cart's sum by the change of that row's subtotal |
| Pharmacy.CartSumRemove | pharmacy/views.py:263-268 | deleting a row lowers its cart's sum by that row's subtotal |
| Pharmacy.CartSumEmpty | pharmacy/views.py:268 | a cart with no rows sums to 0 |
| Pharmacy.ItemsOf | pharmacy/views.py:189 | the items iterated are exactly the prescription's items |
| Pharmacy.DispenseRun | pharmacy/views.py:189-198 | the stock run keeps the catalogue's length and, when it stops, names an item of the prescription |
| Pharmacy.DispenseKeepsStockNonNegative | pharmacy/views.py:189-193 | stock is taken only when it covers the quantity, so stock never goes negative |
| Pharmacy.DispenseOnlyTouchesStock | pharmacy/views.py:189-193 | dispensing changes no field of a medicine other than its stock |
| Pharmacy.DispenseSuccessStock | pharmacy/views.py:189-193 | when every item is covered, each medicine's stock drops by the total quantity prescribed of it |
| Pharmacy.DispenseShortKeepsPrefix | pharmacy/views.py:189-198 | when the run stops at item k, the items before k were all taken and their decrements stay, and item k's stock was short |
| Pharmacy.DispenseStopped | pharmacy/views.py:194-198 | once the run has stopped, later items change nothing |
| Pharmacy.TakeStock | pharmacy/views.py:189-198 | the loop's new stock and stopping item are those of the stock run |
| Billing.ParsePaymentStatus | billing/models.py:23-27 | a stored code parses to its payment status, and to nothing when no status has it |
| Billing.HasDeletePermission | billing/admin.py:12-15 | a COMPLETED payment is never deletable; any other payment, or no object, gets the default answer |
| Billing.InvoiceHasDeletePermission | billing/admin.py:31-32 | an invoice is never deletable |
| Billing.DeletablePayments | billing/admin.py:12-15 | a payment is deletable exactly when the default allows it and it is not COMPLETED |
| Billing.FilterPayments | billing/views.py:191-202 | the listed payments are exactly those matching every filled-in field of a valid search form (all of them without one) |
| Billing.StatusSumsPartition | billing/views.py:204-211 | the sums per status add up to the sum of all amounts |
| Billing.PaymentTotals | billing/views.py:204-211 | the paid (COMPLETED) and pending (PENDING) figures of the filtered list are 0 when it holds no payment of that status |
| Billing.SumWhereNone | billing/views.py:205-211 | a total over no payment of that status is 0 |
| Billing.TotalsBounded | billing/views.py:204-211 | with non-negative amounts, the paid and pending totals are non-negative and together at most the filtered sum |
| Billing.SumWhereOrderFree | billing/views.py:192-211 | a total does not depend on the order of the payments |
| Billing.PendingMedicinePayments | billing/views.py:115-130 | refused for roles other than CASHIER, RECEPTIONIST and ADMIN; otherwise exactly the READY prescriptions |
| Workflow.CompletedPayment | billing/views.py:158-170 | a payment built by a payment view is COMPLETED, carries its receipt number, and has the given id, type, amount, patient and processor |
| Workflow.DeactivateCart | pharmacy/views.py:201-205 | only the user's active cart for the prescription stops being active; every other cart and field is unchanged |
| Workflow.PrescriptionAdded | pharmacy/models.py:46 | a prescription for a visit without one keeps one prescription per visit |
| Workflow.PaymentAdded | billing/models.py:29-48 | a payment with a fresh id, an unused receipt number and existing references keeps ids and receipts unique and references valid |
| Workflow.CartOpened | pharmacy/models.py:76-92 | a new empty cart for a prescription without one keeps one cart per prescription and totals equal to row sums |
| Workflow.RegistrationCheck | patients/views.py:22-59 | refused unless RECEPTIONIST or ADMIN; a form that fails its field checks or gives a phone number already in use is a form error; ok exactly when the role and both forms pass and the patient id, payment id and receipt are free |
| Workflow.VisitCheck | patients/views.py:86-97 | not found without the patient; a form error unless the chosen doctor is an active doctor; no role is checked |
| Workflow.LabRequestCheck | laboratory/views.py:117-133 | not found without the visit; refused unless DOCTOR; a form error unless the test type is active; the visit's status is not consulted |
| Workflow.LabResultCheck | laboratory/views.py:166-180 | not found without the request; refused unless LAB_TECH; neither status nor assignee is consulted; a second result fails on the one-to-one field |
| Workflow.ResultViewCheck | laboratory/views.py:211-242 | not found without the request; refused unless DOCTOR, ADMIN or the requester; wrong state without a result; asking for a prescription for a visit that has one fails |
| Workflow.LabPaymentCheck | billing/views.py:17-48 | not found without the request; refused unless CASHIER, RECEPTIONIST or ADMIN; wrong state unless PAYMENT_PENDING; ok exactly when those pass and the payment id and receipt are free |
| Workflow.AssignCheck | billing/views.py:67-86 | refused unless CASHIER, RECEPTIONIST, ADMIN or LAB_TECH; wrong state unless PAYMENT_COMPLETED; a form error without a technician; ok exactly when the chosen user is a LAB_TECH |
| Workflow.MedicinePaymentCheck | billing/views.py:133-171 | not found without the prescription; refused unless CASHIER, RECEPTIONIST or ADMIN; already paid when a COMPLETED MEDICINE payment exists for it; its status is not consulted |
| Workflow.CartCheck | pharmacy/views.py:43-60 | not found without the prescription; an error when a cart for it exists that is not the user's active one; otherwise the user's active cart is found or none exists yet |
| Workflow.OwnRowCheck | pharmacy/views.py:232 | ok exactly when a row with the id exists in one of the user's carts |
| Workflow.LabPaidOnce | billing/views.py:25-27 | after a lab payment, a second attempt is refused as wrong state (or for the role), so no second payment is recorded |
| Workflow.RequestedThenPayable | laboratory/views.py:132 | a new lab request is immediately payable by a payment role |
| Workflow.PaidThenAssignable | billing/views.py:75-92 | a paid request can be assigned to any lab technician; once assigned it cannot be assigned again |
| Workflow.LabResultOnce | laboratory/models.py:67 | once a result is recorded, a second submission fails |
| Workflow.ResultThenPrescribable | laboratory/views.py:217-242 | after a result, its requester (or any doctor or admin) may create the visit's prescription when it has none |
| Workflow.PrescriptionOnce | pharmacy/models.py:46 | once a visit has a prescription, asking for another fails |
| Workflow.MedicinePaidOnce | billing/views.py:142-150 | after a medicine payment, the prescription counts as paid and a second attempt is refused as already paid |
| Workflow.RegisteredOnce | patients/forms.py:31-35 | after a registration, the same phone number is rejected by the form, whatever the other fields hold |
| Workflow.RegisteredKeepsValid | patients/views.py:33-53 | registration keeps every store invariant |
| Workflow.VisitCreatedKeepsValid | patients/views.py:92-103 | creating a visit keeps every store invariant |
| Workflow.LabTestRequestedKeepsValid | laboratory/views.py:127-138 | requesting a lab test keeps every store invariant |
| Workflow.LabResultRecordedKeepsValid | laboratory/views.py:177-198 | recording a result keeps every store invariant, one result per request included |
| Workflow.PrescriptionCreatedKeepsValid | laboratory/views.py:235-258 | creating a prescription keeps every store invariant, one prescription per visit included |
| Workflow.LabPaidKeepsValid | billing/views.py:33-53 | a lab payment keeps every store invariant, unique payment ids and receipts included |
| Workflow.LabAssignedKeepsValid | billing/views.py:85-101 | an assignment keeps every store invariant, including that the assignee is a lab technician |
| Workflow.MedicinePaymentTakenKeepsValid | billing/views.py:156-176 | a medicine payment keeps every store invariant |
| Workflow.CartAddedKeepsValid | pharmacy/views.py:122-165 | add_to_cart keeps every store invariant; in particular each cart's total is again the sum of its rows |
| Workflow.CartAddedTotal | pharmacy/views.py:149-165 | after add_to_cart the cart's total moved by exactly the change of the item's row subtotal, and no other cart's total moved |
| Workflow.CartRowSetKeepsValid | pharmacy/views.py:232-268 | update_cart and remove_from_cart keep every store invariant |
| Workflow.CartRowSetTotal | pharmacy/views.py:232-268 | the cart's total drops by the row's old subtotal and rises by unit price × new quantity unless the row was deleted; a quantity of 0 or less deletes exactly that row; other carts are unchanged |
| Workflow.ItemsOfInCatalog | pharmacy/models.py:58 | every item of a prescription names a medicine of the catalogue |
| Workflow.MedicinesDispensedKeepsValid | pharmacy/views.py:183-216 | dispensing, whether it completes or stops short, keeps every store invariant |
| Workflow.Clinic.Fanout | core/models.py:48-56 | the loop over active users of a role builds exactly the role fan-out |
| Workflow.Clinic.SaveVisit | patients/models.py:72-92 | writing a visit appends exactly the notification the save decides on |
| Workflow.Clinic.SetVisitStatus | laboratory/views.py:136-138 | a status write other than WITH_DOCTOR changes only that visit's status and notifies no one |
| Workflow.Clinic.CreateLabNotification | core/models.py:44-56 | on creation every active lab technician is told once; a later save adds nothing |
| Workflow.Clinic.CreateLabResultNotification | core/models.py:58-67 | on creation the requesting doctor alone is told |
| Workflow.Clinic.CreatePrescriptionNotification | core/models.py:69-81 | on creation every active pharmacist is told once |
| Workflow.Clinic.RegisterPatient | patients/views.py:22-59 | outcome as RegistrationCheck; on success the patient and one COMPLETED registration payment of 50.00 are written together, otherwise nothing |
| Workflow.Clinic.CreateVisit | patients/views.py:86-106 | outcome as VisitCheck; on success the visit is WITH_DOCTOR, its doctor is told once and it has one blank examination |
| Workflow.Clinic.VisitDetail | patients/views.py:117-128 | not found without the visit; an error when no examination exists; a doctor's POST whose form fails its field checks is a form error that saves nothing; only a doctor's valid POST rewrites the examination, which is never created twice |
| Workflow.Clinic.RequestLabTest | laboratory/views.py:117-138 | outcome as LabRequestCheck; on success the request is PAYMENT_PENDING, the lab technicians are told, and the visit is LAB_REQUESTED whatever it was |
| Workflow.Clinic.ProcessLabTest | laboratory/views.py:166-198 | outcome as LabResultCheck; on success the result is stored, the request COMPLETED, the visit LAB_COMPLETED and the requester told twice |
| Workflow.Clinic.SaveLabResult | laboratory/views.py:177-198 | the writes of process_lab_test in the view's order give exactly the recorded-result store |
| Workflow.Clinic.LabResultDetail | laboratory/views.py:211-258 | outcome as ResultViewCheck; a prescription request creates it PENDING with cost 0, the visit becomes PRESCRIPTION_READY and every active pharmacist is told twice; otherwise nothing changes |
| Workflow.Clinic.ProcessLabPaymentLaboratory | laboratory/views.py:17-60 | never succeeds: every check failure is reported as in the billing copy, and passing the checks ends in an error |
| Workflow.Clinic.ProcessLabPayment | billing/views.py:17-56 | outcome as LabPaymentCheck; on success one COMPLETED LAB_TEST payment of the test type's price is linked to the request, visit and patient, and the request is PAYMENT_COMPLETED |
| Workflow.Clinic.AssignLabRequest | billing/views.py:67-106 | outcome as AssignCheck; on success the technician is assigned, the request is IN_PROGRESS and that technician alone is told once |
| Workflow.Clinic.ProcessMedicinePayment | billing/views.py:133-179 | outcome as MedicinePaymentCheck; on success one COMPLETED MEDICINE payment of the prescription's total cost, and the visit COMPLETED |
| Workflow.Clinic.PrescriptionDetail | pharmacy/views.py:43-71 | outcome as CartCheck; afterwards the user has an active cart for the prescription, a new empty one only when there was none |
| Workflow.Clinic.AddToCart | pharmacy/views.py:112-174 | not found for an unknown medicine, otherwise outcome as CartCheck; on success the store is the add_to_cart store, and nothing changes otherwise |
| Workflow.Clinic.SaveToCart | pharmacy/views.py:129-165 | the item, row and cart writes in the view's order give exactly the add_to_cart store |
| Workflow.Clinic.UpdateCart | pharmacy/views.py:226-254 | outcome as OwnRowCheck; on success the row is set to the new quantity (deleted at 0 or less) and its cart's total recomputed |
| Workflow.Clinic.RemoveFromCart | pharmacy/views.py:258-278 | outcome as OwnRowCheck; on success the row is deleted and its cart's total recomputed |
| Workflow.Clinic.DispenseMedicines | pharmacy/views.py:178-221 | not found exactly when the prescription is unknown; otherwise it is DISPENSED and the stock run applied; on a shortfall the outcome names the item and nothing else happens; otherwise the user's active cart is deactivated and every active cashier is told |
| Workflow.Clinic.Dispense | pharmacy/views.py:183-216 | the writes of dispense_medicines in the view's order give exactly the dispensed store and outcome |
| Workflow.Clinic.CloseDispense | pharmacy/views.py:200-216 | the user's active cart is deactivated and every active cashier is told once |

## Left out

- GET requests, rendering, messages and redirects are left out. The outcome datatype stands for the redirect or JSON status a view returns.
- Authentication (`login_required`) is left out: the acting user is a parameter.
- Dashboards, reports, list views other than `lab_requests_list`, `payment_list` and `pending_medicine_payments`, and marking notifications read are left out. They do not change the workflow.
- Invoices are modelled only by their delete permission; no view of the core writes them.
- Clocks and random numbers are parameters: dates, times and the random digits of identifiers.
- Free-text fields (notification messages, payment and prescription notes, doctor notes) are left out; a visit keeps its symptoms as one string.
- `Patients.ExamFindings` keeps only the blood pressure and the examination notes. The numeric vitals (temperature, heart rate, weight, height) are not modelled.
- `Workflow.RegistrationCheck`, `Workflow.Clinic.RegisterPatient`, `Workflow.Clinic.VisitDetail`: the forms' field-format checks are not computed. They are one boolean input, `fieldsValid`: a phone number that does not parse, a missing name, or a temperature over `max_digits=4`. The uniqueness of the phone number is modelled.
- Request-body parsing errors in the JSON cart views (malformed JSON, a non-integer quantity) are left out, since the model receives typed arguments.
- `Workflow.Clinic.AddToCart`, `Workflow.Clinic.UpdateCart`, `Workflow.Clinic.RemoveFromCart`: the views answer a missing prescription, medicine or cart row with the same generic JSON error as every other failure. The model tells these cases apart as `NotFound`.
- `payment_method` is passed through as a string without validation against the enum, as the views do.
- The cart-row counter `nextCartItemId` advances on every add, even when an existing row is updated. Only fresh ids matter, so this stands in for the database's auto id.
- `prescription_detail` deactivating older duplicate active carts is left out: the one-to-one cart field means there is never more than one cart per prescription.
- `Pharmacy.DispenseRun`, `Workflow.Clinic.DispenseMedicines`: the view's catch-all error branch is left out; with typed arguments nothing inside the loop can raise except the stock check, which is modelled.
- `Workflow.Clinic.ProcessLabPaymentLaboratory`: its error branch ends in a re-rendered form with nothing saved; the model returns `Error` and does not modify the store.
- The Decimal arithmetic of prices is modelled as integer cents, so rounding of fractional cents is not captured.
- Amounts (prices, subtotals, cart and prescription totals, payments) are unbounded integers. The columns allow at most `max_digits=10`, so in the source a price times a quantity of 10^10 cents or more cannot be saved. `add_to_cart` runs without a transaction, so such a failure there would leave the item and the row saved and the cart total stale. The model does not capture this.
- `Common.IContains`, `Pharmacy.MatchingMembers`, `Billing.FilterPayments`: case is folded for ASCII letters only. The database's `icontains` also folds other letters, so a query "é" finds "É" in the source but not in the model.
- `Pharmacy.MedicineSearch`, `Pharmacy.ItemsOf`, `Pharmacy.DispenseRun`, `Notifications.ActiveWithRole`, `Workflow.Clinic.Fanout`: the querysets have no `order_by` and the models no `Meta.ordering`, so the database may return rows in any order. The model uses table order, which is one admissible order. With more than ten matches, the model's `medicine_search` returns the first ten in table order; with another order it can return a different ten. `dispense_medicines` can also stop at a different short item and keep different decrements. The sets of matches, items and recipients do not depend on the order.
- Concurrency and transaction isolation are left out. Each view runs on its own, and the atomic blocks appear as all-or-nothing writes.
