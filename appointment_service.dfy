/** The in-memory appointment store: the list of appointments, the id counter
    and the stream queries over the list. */
module AppointmentStore {
  import opened Wrappers
  import opened Text
  import opened Appointments
  import opened JavaInt

  // ---------------------------------------------------------------------------
  // Lookups by id.

  /** The position of the first appointment with the given id, if any. */
  function FirstIndexWithId(s: seq<Appointment>, id: int): (k: Option<nat>)
    reads s
    ensures k.Some? ==> k.value < |s| && s[k.value].appointmentId == id
    ensures k.Some? ==> forall j :: 0 <= j < k.value ==> s[j].appointmentId != id
    ensures k.None? ==> forall j :: 0 <= j < |s| ==> s[j].appointmentId != id
  {
    if s == [] then None
    else if s[0].appointmentId == id then Some(0)
    else match FirstIndexWithId(s[1..], id)
      case None => None
      case Some(k) => Some(k + 1)
  }

  /** The largest id in a non-empty list. */
  function MaxId(s: seq<Appointment>): (m: int)
    requires |s| > 0
    reads s
    ensures forall i :: 0 <= i < |s| ==> s[i].appointmentId <= m
    ensures exists i :: 0 <= i < |s| && s[i].appointmentId == m
  {
    if |s| == 1 then s[0].appointmentId
    else
      var rest := MaxId(s[1..]);
      assert forall i :: 1 <= i < |s| ==> s[i] == s[1..][i - 1];
      if s[0].appointmentId >= rest then s[0].appointmentId else rest
  }

  /** The counter after a reload: 1 for an empty list, otherwise `max + 1` in
      `int` arithmetic. That is above every loaded id unless some id is already
      the largest `int`, where it wraps to the smallest. */
  function IdAfterLoad(s: seq<Appointment>): (n: Int32)
    reads s
    ensures s == [] ==> n == 1
    ensures (forall i :: 0 <= i < |s| ==> s[i].appointmentId < IntMax) ==>
      forall i :: 0 <= i < |s| ==> s[i].appointmentId < n
    ensures s != [] && (forall i :: 0 <= i < |s| ==> s[i].appointmentId < IntMax) ==>
      exists i :: 0 <= i < |s| && s[i].appointmentId == n - 1
    ensures (exists i :: 0 <= i < |s| && s[i].appointmentId == IntMax) ==> n == IntMin
  {
    if s == [] then 1 else Int32Wrap(MaxId(s) + 1)
  }

  /** replaceAll in updateAppointment: every element with the id of
      `appointment` becomes `appointment`, the others stay. */
  function ReplaceById(s: seq<Appointment>, appointment: Appointment): (r: seq<Appointment>)
    reads s, appointment
    ensures |r| == |s|
    ensures forall i :: 0 <= i < |s| ==>
      r[i] == if s[i].appointmentId == appointment.appointmentId then appointment else s[i]
  {
    if s == [] then []
    else [if s[0].appointmentId == appointment.appointmentId then appointment else s[0]]
         + ReplaceById(s[1..], appointment)
  }

  // ---------------------------------------------------------------------------
  // The stream filters.

  /** The filter conditions the queries use. `now` stands for
      LocalDateTime.now(). */
  datatype Criterion =
    | ForPatient(patientId: int)
    | ForDoctor(doctorId: int)
    | ScheduledOnly
    | CompletedOnly
    | CancelledOnly
    | OnDayOf(now: DateTime)
    | UpcomingWithin(now: DateTime, daysAhead: Int32)
    | OverdueAt(now: DateTime)
    | CompletedBetween(startDate: LocalDate, endDate: LocalDate)

  /** The filter each query applies. */
  predicate Holds(a: Appointment, c: Criterion)
    reads a
    ensures Holds(a, c) && (c.UpcomingWithin? || c.OverdueAt?) ==> a.IsScheduled()
    ensures Holds(a, c) && c.UpcomingWithin? ==> a.IsFuture(c.now)
    ensures Holds(a, c) && c.OverdueAt? ==> a.IsPast(c.now)
    ensures Holds(a, c) && c.CompletedBetween? ==> a.IsCompleted() && c.startDate <= c.endDate
  {
    match c
    case ForPatient(id) => a.patientId == id
    case ForDoctor(id) => a.doctorId == id
    case ScheduledOnly => a.IsScheduled()
    case CompletedOnly => a.IsCompleted()
    case CancelledOnly => a.IsCancelled()
    case OnDayOf(now) => a.IsToday(now)
    case UpcomingWithin(now, daysAhead) =>
      a.appointmentDate.Some? && now < a.appointmentDate.value < PlusDays(now, Int32Wrap(daysAhead + 1))
      && a.IsScheduled()
    case OverdueAt(now) => a.appointmentDate.Some? && a.appointmentDate.value < now && a.IsScheduled()
    case CompletedBetween(startDate, endDate) =>
      a.IsCompleted() && a.appointmentDate.Some?
      && startDate <= DateOf(a.appointmentDate.value) <= endDate
  }

  /** filter(...).collect(toList()): the elements that satisfy `c`, in order. */
  function Select(s: seq<Appointment>, c: Criterion): (r: seq<Appointment>)
    reads s
    ensures |r| <= |s|
    ensures forall a :: a in r ==> a in s && Holds(a, c)
    ensures forall i :: 0 <= i < |s| && Holds(s[i], c) ==> s[i] in r
  {
    if s == [] then []
    else (if Holds(s[0], c) then [s[0]] else []) + Select(s[1..], c)
  }

  function Count(s: seq<Appointment>, c: Criterion): nat
    reads s
  {
    |Select(s, c)|
  }

  /** The streams that read every appointment's date throw a
      NullPointerException unless all of them have one. */
  predicate AllDated(s: seq<Appointment>)
    reads s
  {
    forall i :: 0 <= i < |s| ==> s[i].appointmentDate.Some?
  }

  /** getUpcomingAppointments: scheduled appointments strictly after now and
      strictly before now plus `daysAhead + 1` days, that sum being an `int`
      one; None for the exception. */
  function Upcoming(s: seq<Appointment>, now: DateTime, daysAhead: Int32): (r: Option<seq<Appointment>>)
    reads s
    ensures r.Some? <==> AllDated(s)
  {
    if AllDated(s) then Some(Select(s, UpcomingWithin(now, daysAhead))) else None
  }

  /** getOverdueAppointments: scheduled appointments strictly before now. */
  function Overdue(s: seq<Appointment>, now: DateTime): (r: Option<seq<Appointment>>)
    reads s
    ensures r.Some? <==> AllDated(s)
  {
    if AllDated(s) then Some(Select(s, OverdueAt(now))) else None
  }

  /** The seven counts of getAppointmentStats. */
  datatype AppointmentStats = AppointmentStats(
    total: int, scheduled: int, completed: int, cancelled: int, today: int, upcoming: int, overdue: int)

  const UpcomingDays := 7

  /** getAppointmentStats, with one `now` for all of its parts; None when the
      upcoming or overdue stream throws. */
  function Stats(s: seq<Appointment>, now: DateTime): (r: Option<AppointmentStats>)
    reads s
    ensures r.Some? <==> AllDated(s)
  {
    if !AllDated(s) then None
    else Some(AppointmentStats(
      |s|, Count(s, ScheduledOnly), Count(s, CompletedOnly), Count(s, CancelledOnly), Count(s, OnDayOf(now)),
      |Upcoming(s, now, UpcomingDays).value|, |Overdue(s, now).value|))
  }

  /** The statistics as the string-keyed map the source returns. */
  function StatsMap(st: AppointmentStats): (m: map<string, int>)
    ensures m.Keys == {"total", "scheduled", "completed", "cancelled", "today", "upcoming", "overdue"}
    ensures m["total"] == st.total && m["upcoming"] == st.upcoming && m["overdue"] == st.overdue
  {
    map["total" := st.total, "scheduled" := st.scheduled, "completed" := st.completed,
        "cancelled" := st.cancelled, "today" := st.today, "upcoming" := st.upcoming, "overdue" := st.overdue]
  }

  // ---------------------------------------------------------------------------
  // Grouped counts.

  datatype Grouping = ByType | ByDoctor

  function GroupKey(a: Appointment, g: Grouping): Option<string>
    reads a
  {
    match g
    case ByType => a.appointmentType
    case ByDoctor => a.doctorName
  }

  /** The grouping keys of the list in order; None when one of them is null,
      which makes groupingBy throw. */
  function GroupKeys(s: seq<Appointment>, g: Grouping): (r: Option<seq<string>>)
    reads s
    ensures r.Some? ==> |r.value| == |s|
  {
    if s == [] then Some([])
    else match (GroupKey(s[0], g), GroupKeys(s[1..], g))
      case (Some(k), Some(ks)) => Some([k] + ks)
      case _ => None
  }

  /** groupingBy with counting: each key to the number of its occurrences. */
  function Tally(ks: seq<string>): (m: map<string, int>)
    ensures m.Keys == set k | k in ks
    ensures forall k :: k in m ==> m[k] == multiset(ks)[k]
  {
    if ks == [] then map[]
    else
      var m := Tally(ks[..|ks| - 1]);
      var k := ks[|ks| - 1];
      assert ks == ks[..|ks| - 1] + [k];
      m[k := (if k in m then m[k] else 0) + 1]
  }

  /** getAppointmentsByType and getAppointmentsByDoctor. */
  function CountsBy(s: seq<Appointment>, g: Grouping): (r: Option<map<string, int>>)
    reads s
    ensures r.Some? <==> GroupKeys(s, g).Some?
  {
    match GroupKeys(s, g)
    case None => None
    case Some(ks) => Some(Tally(ks))
  }

  ghost function Pick(keys: set<string>): string
    requires keys != {}
  {
    var k :| k in keys; k
  }

  /** The sum of the values of a map. */
  ghost function SumValues(m: map<string, int>): int
    decreases |m|
  {
    if m == map[] then 0
    else
      var k := Pick(m.Keys);
      assert |(m - {k}).Keys| == |m.Keys - {k}|;
      m[k] + SumValues(m - {k})
  }

  // ---------------------------------------------------------------------------
  // Revenue.

  /** filter(...).mapToDouble(getConsultationFee).sum(): the fees of the
      elements that satisfy `c`. */
  function FeesWhere(s: seq<Appointment>, c: Criterion): real
    reads s
  {
    if s == [] then 0.0
    else (if Holds(s[0], c) then s[0].consultationFee else 0.0) + FeesWhere(s[1..], c)
  }

  /** getTotalRevenue: the fees of the completed appointments. */
  function TotalRevenue(s: seq<Appointment>): real
    reads s
  {
    FeesWhere(s, CompletedOnly)
  }

  /** Only completed appointments have their date read. */
  predicate CompletedDated(s: seq<Appointment>)
    reads s
  {
    forall i :: 0 <= i < |s| && s[i].IsCompleted() ==> s[i].appointmentDate.Some?
  }

  /** getRevenueByPeriod: the fees of completed appointments dated from
      startDate to endDate, both included; None when a completed appointment
      has no date. */
  function RevenueByPeriod(s: seq<Appointment>, startDate: LocalDate, endDate: LocalDate): (r: Option<real>)
    reads s
    ensures r.Some? <==> CompletedDated(s)
  {
    if CompletedDated(s) then Some(FeesWhere(s, CompletedBetween(startDate, endDate))) else None
  }

  // ---------------------------------------------------------------------------
  // The service.

  /** What saveAppointment does: the generated key it may assign, and whether
      it throws (an SQLException before or after the key is read). */
  datatype SaveOutcome = SaveOutcome(generatedKey: Option<Int32>, thrown: bool)

  class AppointmentService {
    var appointments: seq<Appointment>
    var nextAppointmentId: Int32

    /** The constructor, without the sample appointments it then adds. */
    constructor ()
      ensures appointments == [] && nextAppointmentId == 1
    {
      appointments := [];
      nextAppointmentId := 1;
    }

    /** loadAppointmentsFromDatabase; `fetched` is None when the load throws. */
    method LoadAppointmentsFromDatabase(fetched: Option<seq<Appointment>>)
      modifies this
      ensures fetched.None? ==> appointments == [] && nextAppointmentId == old(nextAppointmentId)
      ensures fetched.Some? ==> appointments == fetched.value && nextAppointmentId == IdAfterLoad(fetched.value)
    {
      if fetched.None? {
        appointments := [];
        return;
      }
      appointments := fetched.value;
      if appointments != [] {
        nextAppointmentId := Int32Wrap(MaxId(appointments) + 1);
      } else {
        nextAppointmentId := 1;
      }
    }

    /** addAppointment: the counter moves on whatever happens (a null argument
        fails only after the increment); the appointment takes the counter's
        value, then the generated key if the save assigns one, and is appended
        only if the save does not throw. */
    method AddAppointment(appointment: Appointment?, save: SaveOutcome)
      modifies this, (if appointment == null then {} else {appointment})`appointmentId
      ensures nextAppointmentId == Int32Wrap(old(nextAppointmentId) + 1)
      ensures appointment == null ==> appointments == old(appointments)
      ensures appointment != null ==>
        && appointment.appointmentId == (if save.generatedKey.Some? then save.generatedKey.value else old(nextAppointmentId))
        && appointments == old(appointments) + (if save.thrown then [] else [appointment])
    {
      var id := nextAppointmentId;
      nextAppointmentId := Int32Wrap(nextAppointmentId + 1);
      if appointment == null {
        return;
      }
      appointment.SetAppointmentId(id);
      if save.generatedKey.Some? {
        appointment.SetAppointmentId(save.generatedKey.value);
      }
      if save.thrown {
        return;
      }
      appointments := appointments + [appointment];
    }

    /** getAppointmentById: the first appointment with the id, or null. */
    function GetAppointmentById(id: int): (a: Appointment?)
      reads this, appointments
      ensures a == null <==> forall i :: 0 <= i < |appointments| ==> appointments[i].appointmentId != id
      ensures a != null ==> exists k :: 0 <= k < |appointments| && appointments[k] == a && a.appointmentId == id
                                        && forall j :: 0 <= j < k ==> appointments[j].appointmentId != id
    {
      match FirstIndexWithId(appointments, id)
      case None => null
      case Some(k) => appointments[k]
    }

    /** getAllAppointments: a copy with the same elements in the same order. */
    method GetAllAppointments() returns (r: seq<Appointment>)
      ensures |r| == |appointments| && forall i :: 0 <= i < |r| ==> r[i] == appointments[i]
    {
      r := [];
      var i := 0;
      while i < |appointments|
        invariant 0 <= i <= |appointments|
        invariant r == appointments[..i]
      {
        r := r + [appointments[i]];
        i := i + 1;
      }
    }

    function AppointmentsForPatient(patientId: int): (r: seq<Appointment>)
      reads this, appointments
      ensures forall a :: a in r ==> a in appointments && a.patientId == patientId
      ensures forall i :: 0 <= i < |appointments| && appointments[i].patientId == patientId ==> appointments[i] in r
    {
      Select(appointments, ForPatient(patientId))
    }

    function AppointmentsForDoctor(doctorId: int): (r: seq<Appointment>)
      reads this, appointments
      ensures forall a :: a in r ==> a in appointments && a.doctorId == doctorId
      ensures forall i :: 0 <= i < |appointments| && appointments[i].doctorId == doctorId ==> appointments[i] in r
    {
      Select(appointments, ForDoctor(doctorId))
    }

    /** updateAppointment: after a successful database update, every element
        with the same id is replaced; after a failed one nothing changes. */
    method UpdateAppointment(appointment: Appointment, updated: bool)
      modifies this`appointments
      ensures appointments == if updated then ReplaceById(old(appointments), appointment) else old(appointments)
    {
      if !updated {
        return;
      }
      appointments := ReplaceById(appointments, appointment);
    }

    /** cancelAppointment and completeAppointment: after a successful database
        status update, the first appointment with the id gets the new status;
        no other appointment object and no other field changes. */
    method MarkStatus(appointmentId: int, status: string, updated: bool)
      modifies appointments`status
      ensures appointments == old(appointments) && nextAppointmentId == old(nextAppointmentId)
      ensures var k := old(FirstIndexWithId(appointments, appointmentId));
        forall i :: 0 <= i < |appointments| ==>
          appointments[i].status ==
            if updated && k.Some? && appointments[i] == appointments[k.value] then Some(status)
            else old(appointments[i].status)
    {
      if !updated {
        return;
      }
      var apt := GetAppointmentById(appointmentId);
      if apt != null {
        apt.SetStatus(Some(status));
      }
    }

    method CancelAppointment(appointmentId: int, updated: bool)
      modifies appointments`status
      ensures appointments == old(appointments) && nextAppointmentId == old(nextAppointmentId)
      ensures var k := old(FirstIndexWithId(appointments, appointmentId));
        forall i :: 0 <= i < |appointments| ==>
          appointments[i].status ==
            if updated && k.Some? && appointments[i] == appointments[k.value] then Some(CancelledStatus)
            else old(appointments[i].status)
    {
      MarkStatus(appointmentId, CancelledStatus, updated);
    }

    method CompleteAppointment(appointmentId: int, updated: bool)
      modifies appointments`status
      ensures appointments == old(appointments) && nextAppointmentId == old(nextAppointmentId)
      ensures var k := old(FirstIndexWithId(appointments, appointmentId));
        forall i :: 0 <= i < |appointments| ==>
          appointments[i].status ==
            if updated && k.Some? && appointments[i] == appointments[k.value] then Some(CompletedStatus)
            else old(appointments[i].status)
    {
      MarkStatus(appointmentId, CompletedStatus, updated);
    }
  }

  // ---------------------------------------------------------------------------
  // Properties of the queries.

  /** Filtering a concatenation filters each part: the selection keeps the
      original order. */
  lemma {:induction false} SelectConcat(a: seq<Appointment>, b: seq<Appointment>, c: Criterion)
    ensures Select(a + b, c) == Select(a, c) + Select(b, c)
    decreases |a|
  {
    if a == [] {
      assert a + b == b;
    } else {
      assert (a + b)[0] == a[0];
      assert (a + b)[1..] == a[1..] + b;
      SelectConcat(a[1..], b, c);
    }
  }

  /** Filtering twice by the same condition is filtering once. */
  lemma {:induction false} SelectIdempotent(s: seq<Appointment>, c: Criterion)
    ensures Select(Select(s, c), c) == Select(s, c)
    decreases |s|
  {
    if s != [] {
      var head := if Holds(s[0], c) then [s[0]] else [];
      SelectConcat(head, Select(s[1..], c), c);
      SelectIdempotent(s[1..], c);
      if Holds(s[0], c) {
        assert head[1..] == [];
      }
    }
  }

  /** replaceAll with one appointment keeps the id at every position, so
      every lookup by id finds the same position afterwards. */
  lemma {:induction false} ReplaceKeepsLookups(s: seq<Appointment>, appointment: Appointment, id: int)
    ensures FirstIndexWithId(ReplaceById(s, appointment), id) == FirstIndexWithId(s, id)
    decreases |s|
  {
    if s != [] {
      var r := ReplaceById(s, appointment);
      assert r[1..] == ReplaceById(s[1..], appointment);
      ReplaceKeepsLookups(s[1..], appointment, id);
    }
  }

  /** After an update the appointment is what a lookup of its id returns, if
      that id was present; applying the same update twice changes nothing more. */
  lemma {:induction false} UpdateIsVisibleAndIdempotent(s: seq<Appointment>, appointment: Appointment)
    ensures var k := FirstIndexWithId(s, appointment.appointmentId);
      k.Some? ==> ReplaceById(s, appointment)[k.value] == appointment
    ensures ReplaceById(ReplaceById(s, appointment), appointment) == ReplaceById(s, appointment)
  {
    var r := ReplaceById(s, appointment);
    var rr := ReplaceById(r, appointment);
    assert forall i :: 0 <= i < |r| ==> rr[i] == r[i];
  }

  /** In the statistics no appointment is counted under two statuses. */
  lemma {:induction false} StatusCountsWithinTotal(s: seq<Appointment>)
    ensures Count(s, ScheduledOnly) + Count(s, CompletedOnly) + Count(s, CancelledOnly) <= |s|
    decreases |s|
  {
    if s != [] {
      StatusCountsWithinTotal(s[1..]);
      StatusesExclusive(s[0]);
    }
  }

  /** Upcoming and overdue appointments are scheduled ones, never both. */
  lemma {:induction false} UpcomingOverdueWithinScheduled(s: seq<Appointment>, now: DateTime, daysAhead: Int32)
    ensures Count(s, UpcomingWithin(now, daysAhead)) + Count(s, OverdueAt(now)) <= Count(s, ScheduledOnly)
    decreases |s|
  {
    if s != [] {
      UpcomingOverdueWithinScheduled(s[1..], now, daysAhead);
    }
  }

  /** The bounds between the statistics' counts. */
  lemma {:induction false} StatsBounds(s: seq<Appointment>, now: DateTime)
    requires AllDated(s)
    ensures var st := Stats(s, now).value;
      && st.total == |s|
      && st.scheduled + st.completed + st.cancelled <= st.total
      && st.upcoming + st.overdue <= st.scheduled
      && st.today <= st.total
  {
    StatusCountsWithinTotal(s);
    UpcomingOverdueWithinScheduled(s, now, UpcomingDays);
  }

  /** Every upcoming appointment is scheduled and in the future, every overdue
      one scheduled and in the past; no appointment is both. */
  /** At the largest `daysAhead` the window end `daysAhead + 1` wraps to the
      smallest `int`, 2^31 days before now, so nothing is upcoming. */
  lemma {:induction false} LargestWindowIsEmpty(s: seq<Appointment>, now: DateTime)
    requires AllDated(s)
    ensures Upcoming(s, now, IntMax) == Some([])
  {
    assert PlusDays(now, Int32Wrap(IntMax + 1)) < now;
    NothingHoldsSelectsNothing(s, UpcomingWithin(now, IntMax));
  }

  /** A filter that no element passes yields the empty list. */
  lemma {:induction false} NothingHoldsSelectsNothing(s: seq<Appointment>, c: Criterion)
    requires forall i :: 0 <= i < |s| ==> !Holds(s[i], c)
    ensures Select(s, c) == []
  {
    if s != [] {
      NothingHoldsSelectsNothing(s[1..], c);
    }
  }

  lemma UpcomingAndOverdueAreScheduled(s: seq<Appointment>, now: DateTime, daysAhead: Int32)
    requires AllDated(s)
    ensures forall a :: a in Upcoming(s, now, daysAhead).value ==>
      a.IsScheduled() && a.IsFuture(now) && a.appointmentDate.value < PlusDays(now, Int32Wrap(daysAhead + 1))
    ensures forall a :: a in Overdue(s, now).value ==> a.IsScheduled() && a.IsPast(now)
    ensures forall a :: a in Upcoming(s, now, daysAhead).value ==> a !in Overdue(s, now).value
  {
  }

  lemma {:induction false} SumValuesRemove(m: map<string, int>, k: string)
    requires k in m
    ensures SumValues(m) == m[k] + SumValues(m - {k})
    decreases |m|
  {
    var j := Pick(m.Keys);
    if j != k {
      assert |(m - {j}).Keys| == |m.Keys - {j}|;
      SumValuesRemove(m - {j}, k);
      assert (m - {j}) - {k} == (m - {k}) - {j};
      SumValuesRemove(m - {k}, j);
    }
  }

  lemma {:induction false} SumValuesIncrement(m: map<string, int>, k: string)
    ensures SumValues(m[k := (if k in m then m[k] else 0) + 1]) == SumValues(m) + 1
  {
    var m' := m[k := (if k in m then m[k] else 0) + 1];
    SumValuesRemove(m', k);
    assert m' - {k} == m - {k};
    if k in m {
      SumValuesRemove(m, k);
    } else {
      assert m - {k} == m;
    }
  }

  /** The counts of a tally add up to the number of keys tallied. */
  lemma {:induction false} TallySumsToLength(ks: seq<string>)
    ensures SumValues(Tally(ks)) == |ks|
    decreases |ks|
  {
    if ks != [] {
      TallySumsToLength(ks[..|ks| - 1]);
      SumValuesIncrement(Tally(ks[..|ks| - 1]), ks[|ks| - 1]);
    }
  }

  /** The per-type and per-doctor counts add up to the number of appointments,
      and each key's count is its number of appointments. */
  lemma {:induction false} GroupCountsSumToSize(s: seq<Appointment>, g: Grouping)
    requires CountsBy(s, g).Some?
    ensures SumValues(CountsBy(s, g).value) == |s|
    ensures forall k :: k in CountsBy(s, g).value ==> CountsBy(s, g).value[k] == multiset(GroupKeys(s, g).value)[k]
  {
    TallySumsToLength(GroupKeys(s, g).value);
  }

  lemma {:induction false} FeesWhereConcat(a: seq<Appointment>, b: seq<Appointment>, c: Criterion)
    ensures FeesWhere(a + b, c) == FeesWhere(a, c) + FeesWhere(b, c)
    decreases |a|
  {
    if a == [] {
      assert a + b == b;
    } else {
      assert (a + b)[0] == a[0];
      assert (a + b)[1..] == a[1..] + b;
      FeesWhereConcat(a[1..], b, c);
    }
  }

  /** Appending an appointment adds its fee to the total revenue exactly when
      it is completed; an empty list earns nothing. */
  lemma {:induction false} RevenueCountsOnlyCompleted(s: seq<Appointment>, a: Appointment)
    ensures TotalRevenue([]) == 0.0
    ensures TotalRevenue(s + [a]) == TotalRevenue(s) + (if a.IsCompleted() then a.consultationFee else 0.0)
  {
    FeesWhereConcat(s, [a], CompletedOnly);
  }

  /** Both ends of the period are included: a period split after day `mid`
      earns what its two halves earn. */
  lemma {:induction false} RevenueSplitsAtDay(s: seq<Appointment>, startDate: LocalDate, mid: LocalDate, endDate: LocalDate)
    requires startDate <= mid < endDate
    requires CompletedDated(s)
    ensures RevenueByPeriod(s, startDate, endDate).value
         == RevenueByPeriod(s, startDate, mid).value + RevenueByPeriod(s, mid + 1, endDate).value
  {
    FeesSplit(s, startDate, mid, endDate);
  }

  lemma {:induction false} FeesSplit(s: seq<Appointment>, startDate: LocalDate, mid: LocalDate, endDate: LocalDate)
    requires startDate <= mid < endDate
    ensures FeesWhere(s, CompletedBetween(startDate, endDate))
         == FeesWhere(s, CompletedBetween(startDate, mid)) + FeesWhere(s, CompletedBetween(mid + 1, endDate))
    decreases |s|
  {
    if s != [] {
      FeesSplit(s[1..], startDate, mid, endDate);
      var whole, early, late := CompletedBetween(startDate, endDate), CompletedBetween(startDate, mid),
                                CompletedBetween(mid + 1, endDate);
      assert Holds(s[0], whole) <==> Holds(s[0], early) || Holds(s[0], late);
      assert !(Holds(s[0], early) && Holds(s[0], late));
    }
  }

  /** With non-negative fees, a period never earns more than the total. */
  lemma {:induction false} PeriodRevenueWithinTotal(s: seq<Appointment>, startDate: LocalDate, endDate: LocalDate)
    requires forall i :: 0 <= i < |s| ==> s[i].consultationFee >= 0.0
    requires CompletedDated(s)
    ensures 0.0 <= RevenueByPeriod(s, startDate, endDate).value <= TotalRevenue(s)
    decreases |s|
  {
    if s != [] {
      PeriodRevenueWithinTotal(s[1..], startDate, endDate);
    }
  }
}
