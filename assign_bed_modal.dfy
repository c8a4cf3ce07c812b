/** Assigning a patient to a given bed from the bed board. */
module AssignBed {
  import opened Fhir
  import opened HospitalStore
  import AdmitPatient

  /** The encounter `handleAssign` creates: inpatient, in progress, for the patient, with one
      active location referring to this bed (`createReference`, so with the bed's display). */
  function AssignmentEncounter(patient: Person, bed: Location, bedDisplay: Option<string>, now: Time): (e: Encounter)
    ensures e.id.None? && e.status == "in-progress" && e.encounterClass == Some(AdmitPatient.InpatientClass)
    ensures e.subject == Some(CreateReference("Patient", patient))
    ensures e.location == Some([EncounterLocation(Some(Reference(Some(RefString("Location", bed.id)), bedDisplay)), Some("active"), None)])
    ensures e.period == Some(Period(Some(now), None))
    ensures e.participant.None? && e.hospitalization.None?
  {
    Encounter(
      None, "in-progress", Some(AdmitPatient.InpatientClass), Some(CreateReference("Patient", patient)),
      Some([EncounterLocation(Some(Reference(Some(RefString("Location", bed.id)), bedDisplay)), Some("active"), None)]),
      Some(Period(Some(now), None)), None, None, None, None)
  }

  /** `handleAssign` as a change of the store: without a chosen patient nothing happens;
      otherwise the encounter is created, then the bed is set to Occupied whatever its status. */
  function Assign(db: Db, bed: Location, bedDisplay: Option<string>, patient: Option<Person>, now: Time, newId: string, failAt: nat): (r: (Db, Outcome))
    ensures patient.None? ==> r == (db, Ignored)
    ensures patient.Some? && failAt == 0 ==> r == (db, Failed)
    ensures r.1 == Done || r.1 == Failed || r.1 == Ignored
  {
    if patient.None? then (db, Ignored)
    else
      var db1 := Post(db, EncounterResource(AssignmentEncounter(patient.value, bed, bedDisplay, now)), newId, failAt == 0);
      if db1.None? then (db, Failed)
      else
        var db2 := Put(db1.value, BedResource(WithStatus(bed, Occupied)), failAt == 1);
        if db2.None? then (db1.value, Failed) else (db2.value, Done)
  }

  /** A completed assignment: the encounter is stored under the server's id and the bed is
      occupied with its other fields kept; nothing else changes. */
  lemma AssignDone(db: Db, bed: Location, bedDisplay: Option<string>, patient: Option<Person>, now: Time, newId: string, failAt: nat)
    requires Assign(db, bed, bedDisplay, patient, now, newId, failAt).1 == Done
    ensures var after := Assign(db, bed, bedDisplay, patient, now, newId, failAt).0;
            && patient.Some? && bed.id.Some?
            && after.encounters == db.encounters[newId := AssignmentEncounter(patient.value, bed, bedDisplay, now).(id := Some(newId))]
            && after.beds == db.beds[bed.id.value := WithStatus(bed, Occupied)]
            && after.appointments == db.appointments
            && (Keyed(db) ==> Keyed(after))
  {
    var db1 := Post(db, EncounterResource(AssignmentEncounter(patient.value, bed, bedDisplay, now)), newId, failAt == 0).value;
    assert db1.beds == db.beds;
  }

  /** The encounter is created before the bed is touched: when the bed write is refused the
      encounter exists and every bed is as before. */
  lemma AssignEncounterBeforeBed(db: Db, bed: Location, bedDisplay: Option<string>, patient: Person, now: Time, newId: string)
    ensures var r := Assign(db, bed, bedDisplay, Some(patient), now, newId, 1);
            && r.1 == Failed
            && r.0.beds == db.beds
            && newId in r.0.encounters && r.0.encounters[newId].status == "in-progress"
  {
  }

  /** The handler never looks at the bed's status: a bed that is occupied or being cleaned is
      assigned exactly as a free one. */
  lemma AssignIgnoresBedStatus(db: Db, bed: Location, status: Option<Coding>, bedDisplay: Option<string>, patient: Option<Person>, now: Time, newId: string, failAt: nat)
    ensures Assign(db, bed.(operationalStatus := status), bedDisplay, patient, now, newId, failAt)
         == Assign(db, bed, bedDisplay, patient, now, newId, failAt)
  {
    assert WithStatus(bed.(operationalStatus := status), Occupied) == WithStatus(bed, Occupied);
    assert AssignmentEncounter(Person(None, None), bed.(operationalStatus := status), bedDisplay, now).location
        == AssignmentEncounter(Person(None, None), bed, bedDisplay, now).location;
  }

  /** The assignment dialog of one bed; `bedDisplay` is the library's display string of the bed. */
  class AssignBedModal {
    const bed: Location
    const bedDisplay: Option<string>
    var selectedPatient: Option<Person>

    constructor (bed: Location, bedDisplay: Option<string>)
      ensures this.bed == bed && this.bedDisplay == bedDisplay && selectedPatient.None?
    {
      this.bed := bed;
      this.bedDisplay := bedDisplay;
      selectedPatient := None;
    }

    method HandleAssign(store: Store, now: Time, newId: string, failAt: nat) returns (outcome: Outcome)
      modifies store
      ensures (store.State(), outcome) == Assign(old(store.State()), bed, bedDisplay, selectedPatient, now, newId, failAt)
    {
      if selectedPatient.None? {
        return Ignored;
      }
      var ok := store.Create(EncounterResource(AssignmentEncounter(selectedPatient.value, bed, bedDisplay, now)), newId, failAt == 0);
      if !ok {
        return Failed;
      }
      ok := store.Update(BedResource(WithStatus(bed, Occupied)), failAt == 1);
      if !ok {
        return Failed;
      }
      return Done;
    }
  }
}
