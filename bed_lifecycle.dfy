/** The life of one bed across the handlers of the hospital demo: the bed an admission or an
    assignment occupies is the bed a later discharge sends to cleaning, and after a transfer the
    discharge still releases the first bed, leaving the bed moved to occupied. */
module BedLifecycle {
  import opened Fhir
  import opened HospitalStore
  import AdmitPatient
  import AssignBed
  import TransferBed
  import DischargePatient

  /** The location literal an admission writes reads back as the bed selected, both for the
      transfer dialog and for the discharge. */
  lemma AdmissionNamesSelectedBed(patient: Person, selectedBed: string, doctor: Option<Person>, now: Time, id: Option<string>)
    requires '/' !in selectedBed
    ensures var e := AdmitPatient.AdmissionEncounter(patient, selectedBed, doctor, now).(id := id);
            TransferBed.CurrentBedId(e) == Some(selectedBed) && DischargePatient.DischargeBedId(e) == Some(selectedBed)
  {
    ReferenceSegments("Location", selectedBed);
    assert RefString("Location", Some(selectedBed)) == "Location/" + selectedBed;
  }

  /** The location an assignment writes reads back as the id of the bed assigned. */
  lemma AssignmentNamesBed(patient: Person, bed: Location, bedDisplay: Option<string>, now: Time, id: Option<string>)
    requires bed.id.Some? && '/' !in bed.id.value
    ensures var e := AssignBed.AssignmentEncounter(patient, bed, bedDisplay, now).(id := id);
            TransferBed.CurrentBedId(e) == bed.id && DischargePatient.DischargeBedId(e) == bed.id
  {
    ReferenceSegments("Location", bed.id.value);
  }

  /** Admitting a patient and then discharging the encounter created leaves the admission bed
      being cleaned and the encounter finished. */
  lemma AdmitThenDischargeCleansBed(db: Db, patient: Option<Person>, selectedBed: string, doctor: Option<Person>,
                                    availableBeds: seq<Location>, now: Time, newId: string, failAt: nat,
                                    notes: string, later: Time, failAt': nat)
    requires Keyed(db) && '/' !in selectedBed
    requires AdmitPatient.Admit(db, patient, selectedBed, doctor, availableBeds, now, newId, failAt).1 == Done
    requires var db1 := AdmitPatient.Admit(db, patient, selectedBed, doctor, availableBeds, now, newId, failAt).0;
             newId in db1.encounters && DischargePatient.Discharge(db1, db1.encounters[newId], notes, later, failAt').1 == Done
    ensures var db1 := AdmitPatient.Admit(db, patient, selectedBed, doctor, availableBeds, now, newId, failAt).0;
            var db2 := DischargePatient.Discharge(db1, db1.encounters[newId], notes, later, failAt').0;
            && selectedBed in db2.beds && OperationalCode(db2.beds[selectedBed]) == Some("C")
            && newId in db2.encounters && db2.encounters[newId].status == "finished"
  {
    AdmitPatient.AdmitDone(db, patient, selectedBed, doctor, availableBeds, now, newId, failAt);
    var db1 := AdmitPatient.Admit(db, patient, selectedBed, doctor, availableBeds, now, newId, failAt).0;
    var e := db1.encounters[newId];
    AdmissionNamesSelectedBed(patient.value, selectedBed, doctor, now, Some(newId));
    DischargePatient.DischargeDone(db1, e, notes, later, failAt');
  }

  /** Assigning a patient to a bed and then discharging the encounter created leaves that bed
      being cleaned and the encounter finished. */
  lemma AssignThenDischargeCleansBed(db: Db, bed: Location, bedDisplay: Option<string>, patient: Option<Person>,
                                     now: Time, newId: string, failAt: nat, notes: string, later: Time, failAt': nat)
    requires Keyed(db) && bed.id.Some? && '/' !in bed.id.value
    requires AssignBed.Assign(db, bed, bedDisplay, patient, now, newId, failAt).1 == Done
    requires var db1 := AssignBed.Assign(db, bed, bedDisplay, patient, now, newId, failAt).0;
             newId in db1.encounters && DischargePatient.Discharge(db1, db1.encounters[newId], notes, later, failAt').1 == Done
    ensures var db1 := AssignBed.Assign(db, bed, bedDisplay, patient, now, newId, failAt).0;
            var db2 := DischargePatient.Discharge(db1, db1.encounters[newId], notes, later, failAt').0;
            && bed.id.value in db2.beds && OperationalCode(db2.beds[bed.id.value]) == Some("C")
            && newId in db2.encounters && db2.encounters[newId].status == "finished"
  {
    AssignBed.AssignDone(db, bed, bedDisplay, patient, now, newId, failAt);
    var db1 := AssignBed.Assign(db, bed, bedDisplay, patient, now, newId, failAt).0;
    AssignmentNamesBed(patient.value, bed, bedDisplay, now, Some(newId));
    DischargePatient.DischargeDone(db1, db1.encounters[newId], notes, later, failAt');
  }

  /** Admitted to one bed, transferred to another offered bed, then discharged: the discharge
      cleans the first bed again and the bed moved to stays occupied. */
  lemma TransferThenDischargeLeavesNewBedOccupied(db: Db, patient: Person, firstBed: string, doctor: Option<Person>,
                                                   admitted: Time, id: string, secondBed: string,
                                                   availableBeds: seq<Location>, moved: Time, failAt: nat,
                                                   notes: string, later: Time, failAt': nat)
    requires Keyed(db) && '/' !in firstBed && firstBed != secondBed
    requires FindBed(availableBeds, secondBed).Some?
    requires var e := AdmitPatient.AdmissionEncounter(patient, firstBed, doctor, admitted).(id := Some(id));
             TransferBed.Transfer(db, e, secondBed, availableBeds, moved, failAt).1 == Done
    requires var e := AdmitPatient.AdmissionEncounter(patient, firstBed, doctor, admitted).(id := Some(id));
             var db1 := TransferBed.Transfer(db, e, secondBed, availableBeds, moved, failAt).0;
             DischargePatient.Discharge(db1, TransferBed.Moved(e, secondBed, moved), notes, later, failAt').1 == Done
    ensures var e := AdmitPatient.AdmissionEncounter(patient, firstBed, doctor, admitted).(id := Some(id));
            var db1 := TransferBed.Transfer(db, e, secondBed, availableBeds, moved, failAt).0;
            var db2 := DischargePatient.Discharge(db1, TransferBed.Moved(e, secondBed, moved), notes, later, failAt').0;
            && firstBed in db2.beds && OperationalCode(db2.beds[firstBed]) == Some("C")
            && secondBed in db2.beds && OperationalCode(db2.beds[secondBed]) == Some("O")
  {
    var e := AdmitPatient.AdmissionEncounter(patient, firstBed, doctor, admitted).(id := Some(id));
    AdmissionNamesSelectedBed(patient, firstBed, doctor, admitted, Some(id));
    TransferOccupiesNewBed(db, e, secondBed, availableBeds, moved, failAt);
    var db1 := TransferBed.Transfer(db, e, secondBed, availableBeds, moved, failAt).0;
    DischargePatient.DischargeAfterTransferReleasesFirstBed(e, secondBed, moved);
    DischargeCleansOnlyItsBed(db1, TransferBed.Moved(e, secondBed, moved), firstBed, secondBed, notes, later, failAt');
  }

  /** A completed transfer to an offered bed leaves that bed occupied. */
  lemma TransferOccupiesNewBed(db: Db, e: Encounter, secondBed: string, availableBeds: seq<Location>, moved: Time, failAt: nat)
    requires Keyed(db) && FindBed(availableBeds, secondBed).Some?
    requires TransferBed.Transfer(db, e, secondBed, availableBeds, moved, failAt).1 == Done
    ensures var db1 := TransferBed.Transfer(db, e, secondBed, availableBeds, moved, failAt).0;
            Keyed(db1) && secondBed in db1.beds && OperationalCode(db1.beds[secondBed]) == Some("O")
  {
    TransferBed.TransferDone(db, e, secondBed, availableBeds, moved, failAt);
  }

  /** A completed discharge sends the encounter's bed to cleaning and leaves every other bed. */
  lemma DischargeCleansOnlyItsBed(db: Db, m: Encounter, bed: string, other: string, notes: string, later: Time, failAt: nat)
    requires Keyed(db) && bed != other && other in db.beds
    requires DischargePatient.DischargeBedId(m) == Some(bed)
    requires DischargePatient.Discharge(db, m, notes, later, failAt).1 == Done
    ensures var db2 := DischargePatient.Discharge(db, m, notes, later, failAt).0;
            && bed in db2.beds && OperationalCode(db2.beds[bed]) == Some("C")
            && other in db2.beds && db2.beds[other] == db.beds[other]
  {
    DischargePatient.DischargeDone(db, m, notes, later, failAt);
  }
}
