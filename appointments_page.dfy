/** The appointments page: joining appointments to their patients, booking, status changes,
    the status filter and the count of upcoming appointments. */
module Appointments {
  import opened Fhir
  import opened Lists
  import opened HospitalStore

  /** An appointment with the patient found for it. */
  datatype AppointmentView = AppointmentView(appointment: Appointment, patientResource: Option<Person>)

  predicate IsPatientActor(p: AppointmentParticipant) {
    p.actor.Some? && p.actor.value.reference.Some? && StartsWith(p.actor.value.reference.value, "Patient/")
  }

  /** The reference of the first participant whose actor refers to a patient. */
  function PatientRef(a: Appointment): (r: Option<string>)
    ensures r.Some? ==> StartsWith(r.value, "Patient/")
    ensures r.Some? <==> a.participant.Some? && exists i :: 0 <= i < |a.participant.value| && IsPatientActor(a.participant.value[i])
  {
    if a.participant.None? then None
    else
      var p := Find(a.participant.value, IsPatientActor);
      if p.Some? then p.value.actor.value.reference else None
  }

  /** The appointments of a bundle, in order. */
  function AppointmentsOf(entries: seq<Entry>): (r: seq<Appointment>)
    ensures |r| <= |entries|
    ensures forall a :: a in r <==> Entry(Some(FoundAppointment(a))) in entries
  {
    if entries == [] then []
    else
      var e := entries[0];
      (if e.resource.Some? && e.resource.value.FoundAppointment? then [e.resource.value.appointment] else []) + AppointmentsOf(entries[1..])
  }

  /** The appointments of a bundle keep the bundle's order. */
  lemma {:induction false} AppointmentsOfAppend(a: seq<Entry>, b: seq<Entry>)
    ensures AppointmentsOf(a + b) == AppointmentsOf(a) + AppointmentsOf(b)
  {
    if a != [] {
      assert (a + b)[1..] == a[1..] + b;
      AppointmentsOfAppend(a[1..], b);
    } else {
      assert a + b == b;
    }
  }

  /** The appointment `handleCreateAppointment` creates: booked, starting at the chosen date
      and time, with the patient as first participant and the doctor, when chosen, as second,
      both accepted. `end` is the start plus 30 minutes. */
  function NewAppointment(patient: Person, doctor: Option<Person>, start: string, end: string): (a: Appointment)
    ensures a.id.None? && a.status == "booked" && a.start == Some(start) && a.end == Some(end)
    ensures a.participant.Some? && |a.participant.value| == (if doctor.Some? then 2 else 1)
    ensures a.participant.value[0] == AppointmentParticipant(Some(CreateReference("Patient", patient)), "accepted")
    ensures doctor.Some? ==> a.participant.value[1] == AppointmentParticipant(Some(CreateReference("Practitioner", doctor.value)), "accepted")
  {
    var first := [AppointmentParticipant(Some(CreateReference("Patient", patient)), "accepted")];
    var second := if doctor.Some? then [AppointmentParticipant(Some(CreateReference("Practitioner", doctor.value)), "accepted")] else [];
    Appointment(None, "booked", Some(start), Some(end), Some(first + second))
  }

  /** The start the page writes: `<date>T<time>:00`. */
  function StartText(date: string, time: string): string {
    date + "T" + time + ":00"
  }

  /** `handleCreateAppointment` as a change of the store: a patient and a date are required;
      `endOf` stands for the date arithmetic that adds 30 minutes. */
  function CreateAppointment(db: Db, patient: Option<Person>, doctor: Option<Person>, date: Option<string>, time: string,
                             endOf: string -> string, newId: string, failAt: nat): (r: (Db, Outcome))
    ensures patient.None? || date.None? ==> r == (db, Invalid)
    ensures r.1 == Done <==> patient.Some? && date.Some? && failAt != 0
    ensures r.1 != Done ==> r.0 == db
    ensures r.1 == Done ==> r.0.beds == db.beds && r.0.encounters == db.encounters &&
                            r.0.appointments == db.appointments[newId := NewAppointment(patient.value, doctor, StartText(date.value, time), endOf(StartText(date.value, time))).(id := Some(newId))]
  {
    if patient.None? || date.None? then (db, Invalid)
    else
      var start := StartText(date.value, time);
      var after := Post(db, AppointmentResource(NewAppointment(patient.value, doctor, start, endOf(start))), newId, failAt == 0);
      if after.None? then (db, Failed) else (after.value, Done)
  }

  /** `handleUpdateStatus` as a change of the store: the appointment is written back with only
      its status changed. */
  function UpdateStatus(db: Db, a: Appointment, newStatus: string, failAt: nat): (r: (Db, Outcome))
    ensures r.1 == Done <==> a.id.Some? && failAt != 0
    ensures r.1 != Done ==> r.0 == db
    ensures r.1 == Done ==> r.0 == db.(appointments := db.appointments[a.id.value := a.(status := newStatus)])
  {
    var after := Put(db, AppointmentResource(a.(status := newStatus)), failAt == 0);
    if after.None? then (db, Failed) else (after.value, Done)
  }

  /** The list filter: 'all' keeps everything, any other value the exact status matches. */
  function FilteredAppointments(list: seq<AppointmentView>, filterStatus: string): (r: seq<AppointmentView>)
    ensures filterStatus != "all" ==> forall i :: 0 <= i < |r| ==> r[i] in list && r[i].appointment.status == filterStatus
    ensures filterStatus != "all" ==> forall i :: 0 <= i < |list| && list[i].appointment.status == filterStatus ==> list[i] in r
    ensures filterStatus == "all" ==> r == list
  {
    var p := (v: AppointmentView) => filterStatus == "all" || v.appointment.status == filterStatus;
    if filterStatus == "all" then FilterAll(list, p); Filter(list, p) else Filter(list, p)
  }

  /** The "Upcoming" count: the booked appointments, which is the size of the 'booked' list. */
  function UpcomingCount(list: seq<AppointmentView>): (n: nat)
    ensures n == |FilteredAppointments(list, "booked")|
    ensures n <= |list|
  {
    var booked := (v: AppointmentView) => v.appointment.status == "booked";
    FilterSame(list, booked, (v: AppointmentView) => "booked" == "all" || v.appointment.status == "booked");
    |Filter(list, booked)|
  }

  /** The badge colour of an appointment status. */
  function StatusColor(status: string): (c: string)
    ensures c == "blue" <==> status == "booked"
    ensures c == "orange" <==> status == "arrived"
    ensures c == "green" <==> status == "fulfilled"
    ensures c == "red" <==> status == "cancelled"
    ensures c == "gray" <==> status !in {"booked", "arrived", "fulfilled", "cancelled"}
  {
    if status == "booked" then "blue"
    else if status == "arrived" then "orange"
    else if status == "fulfilled" then "green"
    else if status == "cancelled" then "red"
    else "gray"
  }

  /** The status changes the page offers: check in or cancel a booked appointment, complete an
      arrived one, nothing otherwise. */
  function Actions(status: string): seq<string> {
    if status == "booked" then ["arrived", "cancelled"]
    else if status == "arrived" then ["fulfilled"]
    else []
  }

  function Rank(status: string): nat {
    if status == "booked" then 0 else if status == "arrived" then 1 else 2
  }

  /** Every offered change moves forward; fulfilled and cancelled are final. */
  lemma ActionsAdvance(status: string)
    ensures forall t :: t in Actions(status) ==> Rank(status) < Rank(t)
    ensures Actions("fulfilled") == [] && Actions("cancelled") == []
  {
  }

  /** A sequence of statuses, each reached from the one before by an offered change. */
  predicate IsRun(statuses: seq<string>) {
    forall k :: 0 <= k < |statuses| - 1 ==> statuses[k + 1] in Actions(statuses[k])
  }

  /** An appointment goes through at most three statuses and never returns to one; a run of three is
      booked, arrived, fulfilled. */
  lemma RunsAreShort(statuses: seq<string>)
    requires IsRun(statuses)
    ensures |statuses| <= 3
    ensures forall i, j :: 0 <= i < j < |statuses| ==> statuses[i] != statuses[j]
    ensures |statuses| == 3 ==> statuses == ["booked", "arrived", "fulfilled"]
  {
    forall x, t | t in Actions(x)
      ensures Rank(x) < Rank(t)
    {
      ActionsAdvance(x);
    }
    RisingRunIsShort(statuses, Actions, Rank, 2);
    if |statuses| == 3 {
      assert statuses[1] in Actions(statuses[0]) && statuses[2] in Actions(statuses[1]);
      assert Rank(statuses[0]) == 0;
    }
  }

  /** The page: its list, filter and booking form (the date as the `YYYY-MM-DD` text sent). */
  class AppointmentsPage {
    var appointments: seq<AppointmentView>
    var filterStatus: string
    var selectedPatient: Option<Person>
    var selectedDoctor: Option<Person>
    var appointmentDate: Option<string>
    var appointmentTime: string

    constructor ()
      ensures appointments == [] && filterStatus == "all"
      ensures selectedPatient.None? && selectedDoctor.None? && appointmentDate.None? && appointmentTime == "09:00"
    {
      appointments := [];
      filterStatus := "all";
      selectedPatient := None;
      selectedDoctor := None;
      appointmentDate := None;
      appointmentTime := "09:00";
    }

    /** `loadAppointments` given the search's entries: one row per appointment entry, in order,
        joined with its patient; a failed search leaves the list as it was. */
    method LoadAppointments(found: Option<seq<Entry>>)
      modifies this
      ensures found.None? ==> appointments == old(appointments)
      ensures found.Some? ==>
                var apps := AppointmentsOf(found.value);
                |appointments| == |apps| &&
                forall i :: 0 <= i < |apps| ==>
                  appointments[i] == AppointmentView(apps[i], JoinPatient(PatientsOf(found.value), PatientRef(apps[i])))
      ensures filterStatus == old(filterStatus) && selectedPatient == old(selectedPatient) && selectedDoctor == old(selectedDoctor)
      ensures appointmentDate == old(appointmentDate) && appointmentTime == old(appointmentTime)
    {
      if found.None? {
        return;
      }
      var apps := AppointmentsOf(found.value);
      var patients := PatientsOf(found.value);
      var list: seq<AppointmentView> := [];
      for i := 0 to |apps|
        invariant |list| == i
        invariant forall k :: 0 <= k < i ==> list[k] == AppointmentView(apps[k], JoinPatient(patients, PatientRef(apps[k])))
      {
        list := list + [AppointmentView(apps[i], JoinPatient(patients, PatientRef(apps[i])))];
      }
      appointments := list;
    }

    /** `handleCreateAppointment`; the doctor is pushed onto the participants when chosen, and
        after a success patient, doctor and date are cleared (the time is kept). */
    method HandleCreateAppointment(store: Store, endOf: string -> string, newId: string, failAt: nat) returns (outcome: Outcome)
      modifies this, store
      ensures (store.State(), outcome) == CreateAppointment(old(store.State()), old(selectedPatient), old(selectedDoctor), old(appointmentDate), old(appointmentTime), endOf, newId, failAt)
      ensures outcome == Done ==> selectedPatient.None? && selectedDoctor.None? && appointmentDate.None?
      ensures outcome != Done ==> selectedPatient == old(selectedPatient) && selectedDoctor == old(selectedDoctor) && appointmentDate == old(appointmentDate)
      ensures appointmentTime == old(appointmentTime) && appointments == old(appointments) && filterStatus == old(filterStatus)
    {
      if selectedPatient.None? || appointmentDate.None? {
        return Invalid;
      }
      var start := StartText(appointmentDate.value, appointmentTime);
      var participant := [AppointmentParticipant(Some(CreateReference("Patient", selectedPatient.value)), "accepted")];
      if selectedDoctor.Some? {
        participant := participant + [AppointmentParticipant(Some(CreateReference("Practitioner", selectedDoctor.value)), "accepted")];
      } else {
        assert participant + [] == participant;
      }
      var appointment := Appointment(None, "booked", Some(start), Some(endOf(start)), Some(participant));
      assert appointment == NewAppointment(selectedPatient.value, selectedDoctor, start, endOf(start));
      var ok := store.Create(AppointmentResource(appointment), newId, failAt == 0);
      if !ok {
        return Failed;
      }
      selectedPatient := None;
      selectedDoctor := None;
      appointmentDate := None;
      return Done;
    }

    /** `handleUpdateStatus`; the reload that follows is a separate `LoadAppointments`. */
    method HandleUpdateStatus(store: Store, a: Appointment, newStatus: string, failAt: nat) returns (outcome: Outcome)
      modifies store
      ensures (store.State(), outcome) == UpdateStatus(old(store.State()), a, newStatus, failAt)
    {
      var ok := store.Update(AppointmentResource(a.(status := newStatus)), failAt == 0);
      outcome := if ok then Done else Failed;
    }
  }
}
