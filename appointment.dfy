/** One appointment: its fields, the two constructors, the status and date
    tests, and identity by appointment id. */
module Appointments {
  import opened Wrappers
  import opened Text
  import opened JavaInt

  /** A LocalDateTime, as minutes since an arbitrary origin. */
  type DateTime = int
  /** A LocalDate, as a day number. */
  type LocalDate = int

  const MinutesPerDay := 1440

  /** toLocalDate: the day a point in time falls on. */
  function DateOf(t: DateTime): (d: LocalDate)
    ensures d * MinutesPerDay <= t < (d + 1) * MinutesPerDay
  {
    t / MinutesPerDay
  }

  /** plusDays: the same time of day, `days` days later. */
  function PlusDays(t: DateTime, days: int): (r: DateTime)
    ensures DateOf(r) == DateOf(t) + days
  {
    t + days * MinutesPerDay
  }

  const ScheduledStatus := "Scheduled"
  const CompletedStatus := "Completed"
  const CancelledStatus := "Cancelled"
  const DefaultDuration := 30
  const NoDate := "N/A"

  class Appointment {
    var appointmentId: Int32
    var patientId: int
    var patientName: Option<string>
    var doctorName: Option<string>
    var doctorId: int
    var doctorSpecialization: Option<string>
    var appointmentType: Option<string>
    var appointmentDate: Option<DateTime>
    var durationMinutes: int
    var status: Option<string>
    var notes: Option<string>
    var symptoms: Option<string>
    var diagnosis: Option<string>
    var prescription: Option<string>
    var consultationFee: real
    var isEmergency: bool
    var createdDate: Option<DateTime>
    var lastModified: Option<DateTime>

    /** The no-argument constructor; `now` stands for LocalDateTime.now(). */
    constructor (now: DateTime)
      ensures status == Some(ScheduledStatus) && durationMinutes == DefaultDuration && !isEmergency
      ensures createdDate == Some(now) && lastModified == Some(now)
      ensures appointmentId == 0 && patientId == 0 && doctorId == 0 && consultationFee == 0.0
      ensures patientName.None? && doctorName.None? && doctorSpecialization.None? && appointmentType.None?
      ensures appointmentDate.None? && notes.None? && symptoms.None? && diagnosis.None? && prescription.None?
    {
      appointmentId, patientId, doctorId := 0, 0, 0;
      patientName, doctorName, doctorSpecialization, appointmentType := None, None, None, None;
      appointmentDate := None;
      notes, symptoms, diagnosis, prescription := None, None, None, None;
      consultationFee := 0.0;
      createdDate := Some(now);
      lastModified := Some(now);
      status := Some(ScheduledStatus);
      durationMinutes := DefaultDuration;
      isEmergency := false;
    }

    /** The five-argument constructor: the defaults above, then the given
        patient, names, type and date. */
    constructor WithDetails(patientId: int, patientName: Option<string>, doctorName: Option<string>,
                            appointmentType: Option<string>, appointmentDate: Option<DateTime>, now: DateTime)
      ensures this.patientId == patientId && this.patientName == patientName && this.doctorName == doctorName
      ensures this.appointmentType == appointmentType && this.appointmentDate == appointmentDate
      ensures status == Some(ScheduledStatus) && durationMinutes == DefaultDuration && !isEmergency
      ensures createdDate == Some(now) && lastModified == Some(now)
      ensures appointmentId == 0 && doctorId == 0 && consultationFee == 0.0
      ensures doctorSpecialization.None? && notes.None? && symptoms.None? && diagnosis.None? && prescription.None?
    {
      appointmentId, doctorId := 0, 0;
      doctorSpecialization := None;
      notes, symptoms, diagnosis, prescription := None, None, None, None;
      consultationFee := 0.0;
      createdDate := Some(now);
      lastModified := Some(now);
      status := Some(ScheduledStatus);
      durationMinutes := DefaultDuration;
      isEmergency := false;
      this.patientId := patientId;
      this.patientName := patientName;
      this.doctorName := doctorName;
      this.appointmentType := appointmentType;
      this.appointmentDate := appointmentDate;
    }

    method SetAppointmentId(appointmentId: Int32)
      modifies this`appointmentId
      ensures this.appointmentId == appointmentId
    {
      this.appointmentId := appointmentId;
    }

    method SetStatus(status: Option<string>)
      modifies this`status
      ensures this.status == status
    {
      this.status := status;
    }

    predicate IsCompleted()
      reads this
      ensures IsCompleted() ==> status.Some? && |status.value| == |CompletedStatus|
    {
      EqualsIgnoreCase(CompletedStatus, status)
    }

    predicate IsCancelled()
      reads this
      ensures IsCancelled() ==> status.Some? && |status.value| == |CancelledStatus|
    {
      EqualsIgnoreCase(CancelledStatus, status)
    }

    predicate IsScheduled()
      reads this
      ensures IsScheduled() ==> status.Some? && |status.value| == |ScheduledStatus|
    {
      EqualsIgnoreCase(ScheduledStatus, status)
    }

    /** isToday, isPast, isFuture against the given `now`; an appointment
        without a date is none of them. */
    predicate IsToday(now: DateTime)
      reads this
      ensures IsToday(now) ==> appointmentDate.Some?
      ensures appointmentDate == Some(now) ==> IsToday(now)
    {
      appointmentDate.Some? && DateOf(appointmentDate.value) == DateOf(now)
    }

    predicate IsPast(now: DateTime)
      reads this
      ensures IsPast(now) ==> appointmentDate.Some? && !IsFuture(now)
      ensures IsPast(now) ==> DateOf(appointmentDate.value) <= DateOf(now)
    {
      appointmentDate.Some? && appointmentDate.value < now
    }

    predicate IsFuture(now: DateTime)
      reads this
      ensures IsFuture(now) ==> appointmentDate.Some? && DateOf(now) <= DateOf(appointmentDate.value)
    {
      appointmentDate.Some? && appointmentDate.value > now
    }

    /** getFormattedDate: "N/A" without a date; `render` stands for the
        "yyyy-MM-dd HH:mm" formatter. */
    function FormattedDate(render: DateTime -> string): (s: string)
      reads this
      ensures appointmentDate.None? ==> s == NoDate
      ensures appointmentDate.Some? ==> s == render(appointmentDate.value)
    {
      if appointmentDate.Some? then render(appointmentDate.value) else NoDate
    }

    /** equals: the same object, or another appointment with the same id. */
    predicate Equals(other: Appointment?)
      reads this, other
      ensures Equals(other) <==> other != null && other.appointmentId == appointmentId
    {
      if this == other then true
      else if other == null then false
      else appointmentId == other.appointmentId
    }

    /** hashCode: Objects.hash of the id, that is 31 + id in 32-bit arithmetic. */
    function HashCode(): (h: int)
      reads this
      ensures -0x8000_0000 <= h < 0x8000_0000
    {
      Int32Wrap(31 + appointmentId)
    }
  }

  // ---------------------------------------------------------------------------
  // Properties.

  /** At most one of the three status tests holds, and none without a status. */
  lemma {:induction false} StatusesExclusive(a: Appointment)
    ensures !(a.IsCompleted() && a.IsCancelled())
    ensures !(a.IsCompleted() && a.IsScheduled())
    ensures !(a.IsCancelled() && a.IsScheduled())
    ensures a.status.None? ==> !a.IsCompleted() && !a.IsCancelled() && !a.IsScheduled()
  {
    DistinctIgnoringCase(CompletedStatus, CancelledStatus, 2, a.status);
    DistinctIgnoringCase(CompletedStatus, ScheduledStatus, 0, a.status);
    DistinctIgnoringCase(CancelledStatus, ScheduledStatus, 0, a.status);
  }

  /** The status tests compare ignoring case: a status passes exactly when it
      lowers to the lowered literal. */
  lemma {:induction false} StatusTestsIgnoreCase(a: Appointment)
    requires a.status.Some?
    ensures a.IsCompleted() <==> Lower(a.status.value) == Lower(CompletedStatus)
    ensures a.IsCancelled() <==> Lower(a.status.value) == Lower(CancelledStatus)
    ensures a.IsScheduled() <==> Lower(a.status.value) == Lower(ScheduledStatus)
  {
    EqualsIgnoreCaseIsLowerEquality(CompletedStatus, a.status.value);
    EqualsIgnoreCaseIsLowerEquality(CancelledStatus, a.status.value);
    EqualsIgnoreCaseIsLowerEquality(ScheduledStatus, a.status.value);
  }

  /** For a dated appointment exactly one of past, future, or "at now" holds;
      an undated one is neither today, past nor future. */
  lemma DateTestsPartition(a: Appointment, now: DateTime)
    ensures a.appointmentDate.None? ==> !a.IsToday(now) && !a.IsPast(now) && !a.IsFuture(now)
    ensures !(a.IsPast(now) && a.IsFuture(now))
    ensures a.appointmentDate.Some? ==>
      (a.IsPast(now) || a.IsFuture(now) || a.appointmentDate.value == now)
    ensures a.appointmentDate == Some(now) ==> a.IsToday(now)
  {
  }

  /** equals is an equivalence. */
  lemma EqualsIsEquivalence(a: Appointment, b: Appointment, c: Appointment)
    ensures a.Equals(a)
    ensures a.Equals(b) ==> b.Equals(a)
    ensures a.Equals(b) && b.Equals(c) ==> a.Equals(c)
  {
  }

  /** Equal appointments have equal hash codes. */
  lemma EqualsAgreesWithHashCode(a: Appointment, b: Appointment)
    requires a.Equals(b)
    ensures a.HashCode() == b.HashCode()
  {
  }
}
