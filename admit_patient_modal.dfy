/** Admitting a patient to a bed: the beds offered, the inpatient encounter created and the bed
    marked occupied. */
module AdmitPatient {
  import opened Fhir
  import opened Lists
  import opened HospitalStore

  /** The beds offered: every bed not occupied (a bed being cleaned, or with no status, is
      offered), in search order. */
  function AvailableBeds(beds: seq<Location>): (r: seq<Location>)
    ensures forall i :: 0 <= i < |r| ==> r[i] in beds && OperationalCode(r[i]) != Some("O")
    ensures forall i :: 0 <= i < |beds| && OperationalCode(beds[i]) != Some("O") ==> beds[i] in r
  {
    Filter(beds, (b: Location) => OperationalCode(b) != Some("O"))
  }

  const InpatientClass := Coding("http://terminology.hl7.org/CodeSystem/v3-ActCode", "IMP", "inpatient encounter")
  const Attender := Coding("http://terminology.hl7.org/CodeSystem/v3-ParticipationType", "ATND", "attender")

  /** The encounter `handleAdmit` creates: an inpatient encounter in progress for the patient,
      with one active location (the selected bed) and, when a doctor is chosen, that doctor as
      its single attender. */
  function AdmissionEncounter(patient: Person, selectedBed: string, doctor: Option<Person>, now: Time): (e: Encounter)
    ensures e.id.None? && e.status == "in-progress" && e.encounterClass == Some(InpatientClass)
    ensures e.subject == Some(CreateReference("Patient", patient))
    ensures e.location.Some? && |e.location.value| == 1
    ensures e.location.value[0] == EncounterLocation(Some(Ref("Location/" + selectedBed)), Some("active"), None)
    ensures e.period == Some(Period(Some(now), None))
    ensures e.participant.Some? <==> doctor.Some?
    ensures doctor.Some? ==> e.participant.value == [EncounterParticipant(CreateReference("Practitioner", doctor.value), Attender)]
    ensures e.hospitalization.None? && e.appointment.None? && e.diagnosis.None?
  {
    Encounter(
      None, "in-progress", Some(InpatientClass), Some(CreateReference("Patient", patient)),
      Some([EncounterLocation(Some(Ref("Location/" + selectedBed)), Some("active"), None)]),
      Some(Period(Some(now), None)),
      if doctor.Some? then Some([EncounterParticipant(CreateReference("Practitioner", doctor.value), Attender)]) else None,
      None, None, None)
  }

  /** `handleAdmit` as a change of the store: a patient and a bed must be chosen; the encounter
      is created first, then the bed, if it is among the beds offered, is set to Occupied. */
  function Admit(db: Db, patient: Option<Person>, selectedBed: string, doctor: Option<Person>, availableBeds: seq<Location>, now: Time, newId: string, failAt: nat): (r: (Db, Outcome))
    ensures patient.None? || selectedBed == "" ==> r == (db, Invalid)
    ensures patient.Some? && selectedBed != "" && failAt == 0 ==> r == (db, Failed)
    ensures r.1 == Done || r.1 == Failed || r.1 == Invalid
  {
    if patient.None? || selectedBed == "" then (db, Invalid)
    else
      var db1 := Post(db, EncounterResource(AdmissionEncounter(patient.value, selectedBed, doctor, now)), newId, failAt == 0);
      if db1.None? then (db, Failed)
      else
        var bed := FindBed(availableBeds, selectedBed);
        var db2 := if bed.Some? then Put(db1.value, BedResource(WithStatus(bed.value, Occupied)), failAt == 1) else db1;
        if db2.None? then (db1.value, Failed) else (db2.value, Done)
  }

  /** A completed admission: the new encounter is stored under the server's id, the selected
      bed is occupied if it was offered and untouched otherwise, and nothing else changes. */
  lemma AdmitDone(db: Db, patient: Option<Person>, selectedBed: string, doctor: Option<Person>, availableBeds: seq<Location>, now: Time, newId: string, failAt: nat)
    requires Admit(db, patient, selectedBed, doctor, availableBeds, now, newId, failAt).1 == Done
    ensures var after := Admit(db, patient, selectedBed, doctor, availableBeds, now, newId, failAt).0;
            var bed := FindBed(availableBeds, selectedBed);
            && patient.Some? && selectedBed != ""
            && after.encounters == db.encounters[newId := AdmissionEncounter(patient.value, selectedBed, doctor, now).(id := Some(newId))]
            && after.appointments == db.appointments
            && (bed.Some? ==> after.beds == db.beds[selectedBed := WithStatus(bed.value, Occupied)])
            && (bed.None? ==> after.beds == db.beds)
            && (Keyed(db) ==> Keyed(after))
  {
    var db1 := Post(db, EncounterResource(AdmissionEncounter(patient.value, selectedBed, doctor, now)), newId, failAt == 0).value;
    assert db1.beds == db.beds;
  }

  /** The admission dialog: the chosen patient, bed and doctor, and the beds offered. */
  class AdmitPatientModal {
    var selectedPatient: Option<Person>
    var selectedBed: string
    var selectedDoctor: Option<Person>
    var availableBeds: seq<Location>

    constructor ()
      ensures selectedPatient.None? && selectedBed == "" && selectedDoctor.None? && availableBeds == []
    {
      selectedPatient := None;
      selectedBed := "";
      selectedDoctor := None;
      availableBeds := [];
    }

    /** `loadAvailableBeds` given the bed search's result; a failed search changes nothing. */
    method LoadAvailableBeds(found: Option<seq<Location>>)
      modifies this
      ensures availableBeds == (if found.Some? then AvailableBeds(found.value) else old(availableBeds))
      ensures selectedPatient == old(selectedPatient) && selectedBed == old(selectedBed) && selectedDoctor == old(selectedDoctor)
    {
      if found.Some? {
        availableBeds := AvailableBeds(found.value);
      }
    }

    /** `handleAdmit`; after a success the three selections are cleared. */
    method HandleAdmit(store: Store, now: Time, newId: string, failAt: nat) returns (outcome: Outcome)
      modifies this, store
      ensures (store.State(), outcome) == Admit(old(store.State()), old(selectedPatient), old(selectedBed), old(selectedDoctor), old(availableBeds), now, newId, failAt)
      ensures availableBeds == old(availableBeds)
      ensures outcome == Done ==> selectedPatient.None? && selectedBed == "" && selectedDoctor.None?
      ensures outcome != Done ==> selectedPatient == old(selectedPatient) && selectedBed == old(selectedBed) && selectedDoctor == old(selectedDoctor)
    {
      if selectedPatient.None? || selectedBed == "" {
        return Invalid;
      }
      var encounter := Encounter(
        None, "in-progress", Some(InpatientClass), Some(CreateReference("Patient", selectedPatient.value)),
        Some([EncounterLocation(Some(Ref("Location/" + selectedBed)), Some("active"), None)]),
        Some(Period(Some(now), None)), None, None, None, None);
      if selectedDoctor.Some? {
        encounter := encounter.(participant := Some([EncounterParticipant(CreateReference("Practitioner", selectedDoctor.value), Attender)]));
      }
      var ok := store.Create(EncounterResource(encounter), newId, failAt == 0);
      if !ok {
        return Failed;
      }
      var bed := FindBed(availableBeds, selectedBed);
      if bed.Some? {
        ok := store.Update(BedResource(WithStatus(bed.value, Occupied)), failAt == 1);
        if !ok {
          return Failed;
        }
      }
      selectedPatient := None;
      selectedBed := "";
      selectedDoctor := None;
      return Done;
    }
  }
}
