/** patients/models.py and the pure parts of patients/views.py: patient and
    visit records, the nine visit statuses, the notification a `Visit.save`
    produces, and the PAT/VIS identifier format. */
module Patients {
  import opened Common
  import opened CoreUtils
  import opened Users
  import opened Notifications

  datatype VisitStatus =
    | Registered | WithDoctor | LabRequested | LabInProgress | LabCompleted
    | WithDoctorReview | PrescriptionReady | MedicineDispensed | Completed

  /** A visit saved without an explicit status. */
  const DefaultVisitStatus: VisitStatus := Registered

  function VisitStatusCode(s: VisitStatus): string
  {
    match s
    case Registered => "REGISTERED"
    case WithDoctor => "WITH_DOCTOR"
    case LabRequested => "LAB_REQUESTED"
    case LabInProgress => "LAB_IN_PROGRESS"
    case LabCompleted => "LAB_COMPLETED"
    case WithDoctorReview => "WITH_DOCTOR_REVIEW"
    case PrescriptionReady => "PRESCRIPTION_READY"
    case MedicineDispensed => "MEDICINE_DISPENSED"
    case Completed => "COMPLETED"
  }

  const AllVisitStatuses: seq<VisitStatus> :=
    [Registered, WithDoctor, LabRequested, LabInProgress, LabCompleted,
     WithDoctorReview, PrescriptionReady, MedicineDispensed, Completed]

  /** The nine statuses have nine distinct stored codes, so the set is closed
      and every code names one status. */
  lemma VisitStatusCodesDistinct()
    ensures |AllVisitStatuses| == 9
    ensures forall s: VisitStatus :: s in AllVisitStatuses
    ensures forall i, j :: 0 <= i < j < 9 ==>
      VisitStatusCode(AllVisitStatuses[i]) != VisitStatusCode(AllVisitStatuses[j])
  {
    forall s: VisitStatus ensures s in AllVisitStatuses {
      match s
      case Registered => assert AllVisitStatuses[0] == s;
      case WithDoctor => assert AllVisitStatuses[1] == s;
      case LabRequested => assert AllVisitStatuses[2] == s;
      case LabInProgress => assert AllVisitStatuses[3] == s;
      case LabCompleted => assert AllVisitStatuses[4] == s;
      case WithDoctorReview => assert AllVisitStatuses[5] == s;
      case PrescriptionReady => assert AllVisitStatuses[6] == s;
      case MedicineDispensed => assert AllVisitStatuses[7] == s;
      case Completed => assert AllVisitStatuses[8] == s;
    }
  }

  /** The patient fields the workflow reads (names, address and medical history are left out). */
  datatype Patient = Patient(phone: string, dateOfBirth: Date, createdBy: UserId)

  datatype Visit = Visit(patient: string, assignedDoctor: UserId, status: VisitStatus, symptoms: string)

  datatype ExamFindings = ExamFindings(bloodPressure: string, notes: string)

  const BlankFindings := ExamFindings("", "")

  datatype Examination = Examination(createdBy: UserId, findings: ExamFindings)

  /** The three notifications `Visit.save` can send. */
  datatype VisitNotice = NewPatientAssigned | PatientTransferred | ReadyForConsultation

  /** The if/elif in `Visit.save`: a new visit, then a doctor change, then a
      status change into WITH_DOCTOR; at most one branch fires. */
  function VisitSaveNotice(isNew: bool, doctorChanged: bool, statusChanged: bool, status: VisitStatus): (r: Option<VisitNotice>)
    ensures r.None? <==> !isNew && !doctorChanged && !(statusChanged && status == WithDoctor)
    ensures r == Some(NewPatientAssigned) <==> isNew
    ensures r == Some(PatientTransferred) <==> !isNew && doctorChanged
    ensures r == Some(ReadyForConsultation) <==> !isNew && !doctorChanged && statusChanged && status == WithDoctor
  {
    if isNew then Some(NewPatientAssigned)
    else if doctorChanged then Some(PatientTransferred)
    else if statusChanged && status == WithDoctor then Some(ReadyForConsultation)
    else None
  }

  function VisitNoticeTitle(k: VisitNotice): string
  {
    match k
    case NewPatientAssigned => "New Patient Assigned"
    case PatientTransferred => "Patient Transferred to You"
    case ReadyForConsultation => "Patient Ready for Consultation"
  }

  /** What saving `v` under `visitId` appends, given the stored row before the
      save (None for an insert). Only the visit's current doctor is ever
      addressed: on a transfer the previous doctor gets nothing. */
  function VisitSaveNotifications(before: Option<Visit>, v: Visit, visitId: string): (ns: seq<Notification>)
    ensures |ns| <= 1
    ensures forall n :: n in ns ==> n.recipient == v.assignedDoctor && n.kind == SystemNote && !n.isRead && n.relatedObjectId == visitId
    ensures before.None? ==> ns == [NewNotification(v.assignedDoctor, SystemNote, "New Patient Assigned", visitId)]
    ensures before.Some? && before.value.assignedDoctor != v.assignedDoctor ==>
      ns == [NewNotification(v.assignedDoctor, SystemNote, "Patient Transferred to You", visitId)]
    ensures ns == [] <==>
      before.Some? && before.value.assignedDoctor == v.assignedDoctor
      && !(before.value.status != v.status && v.status == WithDoctor)
  {
    var notice :=
      if before.None? then VisitSaveNotice(true, false, false, v.status)
      else VisitSaveNotice(false, before.value.assignedDoctor != v.assignedDoctor, before.value.status != v.status, v.status);
    match notice
    case None => []
    case Some(k) => [NewNotification(v.assignedDoctor, SystemNote, VisitNoticeTitle(k), visitId)]
  }

  /** Saving a visit whose status changes into anything but WITH_DOCTOR, with
      the same doctor, notifies nobody: every status write the views make
      after creation is silent. */
  lemma StatusWriteIsSilent(before: Visit, status: VisitStatus, visitId: string)
    requires status != WithDoctor
    ensures VisitSaveNotifications(Some(before), before.(status := status), visitId) == []
  {
  }

  /** The PAT/VIS identifiers of patients/views.py: prefix, date stamp, then
      `random.randint(1000, 9999)` in decimal. */
  function StampedNumberId(prefix: string, today: Date, n: nat): (id: string)
    requires ValidDate(today) && 1000 <= n <= 9999
    ensures |id| == |prefix| + 10 && id[..|prefix|] == prefix
    ensures id[|prefix|..|prefix| + 6] == Yymmdd(today)
    ensures AllDigits(id[|prefix| + 6..]) && DigitsValue(id[|prefix| + 6..]) == n
  {
    assert Pow10(3) == 1000 && Pow10(4) == 10000;
    DecimalStringLength(n, 4);
    var id := prefix + Yymmdd(today) + DecimalString(n);
    assert id[|prefix| + 6..] == DecimalString(n);
    id
  }

  /** generate_patient_id: "PAT" + yymmdd + a number in 1000..9999. */
  function GeneratePatientId(today: Date, n: nat): (id: string)
    requires ValidDate(today) && 1000 <= n <= 9999
    ensures |id| == 13 && id[..3] == "PAT" && id[3..9] == Yymmdd(today)
    ensures AllDigits(id[9..]) && DigitsValue(id[9..]) == n
  {
    StampedNumberId("PAT", today, n)
  }

  /** generate_visit_id: "VIS" + yymmdd + a number in 1000..9999. */
  function GenerateVisitId(today: Date, n: nat): (id: string)
    requires ValidDate(today) && 1000 <= n <= 9999
    ensures |id| == 13 && id[..3] == "VIS" && id[3..9] == Yymmdd(today)
    ensures AllDigits(id[9..]) && DigitsValue(id[9..]) == n
  {
    StampedNumberId("VIS", today, n)
  }
}
