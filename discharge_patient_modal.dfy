/** Discharging an admitted patient: the encounter is finished and the bed it names first is sent
    to cleaning. */
module DischargePatient {
  import opened Fhir
  import opened HospitalStore
  import TransferBed

  const HomeDisposition := Coding("http://terminology.hl7.org/CodeSystem/discharge-disposition", "home", "Home")

  /** The discharged encounter: finished, its period ended at `now` with its start kept, and a
      'home' discharge disposition whose text is the notes (none when they are empty); every
      other field, and the other hospitalization fields, are kept. */
  function Discharged(e: Encounter, notes: string, now: Time): (r: Encounter)
    ensures r.status == "finished"
    ensures r.period.Some? && StartOf(r) == StartOf(e) && r.period.value.end == Some(now)
    ensures r.hospitalization.Some?
    ensures r.hospitalization.value.dischargeDisposition == Some(CodeableConcept(Some([HomeDisposition]), if notes == "" then None else Some(notes)))
    ensures e.hospitalization.Some? ==> r.hospitalization.value.admitSource == e.hospitalization.value.admitSource
    ensures r.(status := e.status, period := e.period, hospitalization := e.hospitalization) == e
  {
    var hospitalization := if e.hospitalization.Some? then e.hospitalization.value else Hospitalization(None, None);
    var disposition := CodeableConcept(Some([HomeDisposition]), if notes == "" then None else Some(notes));
    e.(status := "finished",
       period := Some(Period(StartOf(e), Some(now))),
       hospitalization := Some(hospitalization.(dischargeDisposition := Some(disposition))))
  }

  /** The bed a discharge releases: taken from the first location's reference when it is
      present and not empty; its second segment, as a template literal prints it, is the id read. */
  function DischargeBedId(e: Encounter): (r: Option<string>)
    ensures r.Some? <==> Truthy(FirstLocationRef(e))
    ensures r.Some? && SecondSegment(FirstLocationRef(e).value).Some? ==> Some(r.value) == SecondSegment(FirstLocationRef(e).value)
  {
    var ref := FirstLocationRef(e);
    if Truthy(ref) then Some(IdText(SecondSegment(ref.value))) else None
  }

  /** `handleDischarge` as a change of the store: the encounter is written first, then the bed
      it names first, if any, is read and set to Cleaning. */
  function Discharge(db: Db, encounter: Encounter, notes: string, now: Time, failAt: nat): (r: (Db, Outcome))
    ensures failAt == 0 || encounter.id.None? ==> r == (db, Failed)
    ensures r.1 == Done || r.1 == Failed
  {
    var db1 := Put(db, EncounterResource(Discharged(encounter, notes, now)), failAt == 0);
    if db1.None? then (db, Failed)
    else
      var bedId := DischargeBedId(encounter);
      var db2 := if bedId.Some? then ReleaseToCleaning(db1.value, bedId.value, failAt == 1) else db1;
      if db2.None? then (db1.value, Failed) else (db2.value, Done)
  }

  /** A completed discharge: the encounter is stored finished, the bed named first is being
      cleaned with its other fields kept, and nothing else changes; with no location no bed
      changes. */
  lemma DischargeDone(db: Db, encounter: Encounter, notes: string, now: Time, failAt: nat)
    requires Keyed(db)
    requires Discharge(db, encounter, notes, now, failAt).1 == Done
    ensures var after := Discharge(db, encounter, notes, now, failAt).0;
            var bedId := DischargeBedId(encounter);
            && encounter.id.Some?
            && after.encounters == db.encounters[encounter.id.value := Discharged(encounter, notes, now)]
            && after.appointments == db.appointments
            && (bedId.Some? ==> bedId.value in db.beds && after.beds == db.beds[bedId.value := WithStatus(db.beds[bedId.value], Cleaning)])
            && (bedId.None? ==> after.beds == db.beds)
            && Keyed(after)
  {
    var db1 := Put(db, EncounterResource(Discharged(encounter, notes, now)), failAt == 0).value;
    assert db1.beds == db.beds;
  }

  /** A transfer appends the new bed, so a later discharge still releases the bed the encounter
      was admitted to, not the bed it was moved to. */
  lemma DischargeAfterTransferReleasesFirstBed(e: Encounter, selectedBed: string, now: Time)
    requires e.location.Some? && |e.location.value| > 0
    ensures DischargeBedId(TransferBed.Moved(e, selectedBed, now)) == DischargeBedId(e)
  {
    TransferBed.TransferKeepsCurrentBed(e, selectedBed, now);
  }

  /** The discharge dialog for one encounter, with its notes field. */
  class DischargePatientModal {
    const encounter: Encounter
    var notes: string

    constructor (encounter: Encounter)
      ensures this.encounter == encounter && notes == ""
    {
      this.encounter := encounter;
      notes := "";
    }

    /** `handleDischarge`; after a success the notes are cleared. */
    method HandleDischarge(store: Store, now: Time, failAt: nat) returns (outcome: Outcome)
      modifies this, store
      ensures (store.State(), outcome) == Discharge(old(store.State()), encounter, old(notes), now, failAt)
      ensures notes == (if outcome == Done then "" else old(notes))
    {
      var ok := store.Update(EncounterResource(Discharged(encounter, notes, now)), failAt == 0);
      if !ok {
        return Failed;
      }
      var ref := FirstLocationRef(encounter);
      if Truthy(ref) {
        var bedId := IdText(SecondSegment(ref.value));
        var bed := store.ReadBed(bedId);
        if bed.None? {
          return Failed;
        }
        ok := store.Update(BedResource(WithStatus(bed.value, Cleaning)), failAt == 1);
        if !ok {
          return Failed;
        }
      }
      notes := "";
      return Done;
    }
  }
}
