/** Moving an admitted patient to another bed: the beds offered, the encounter's new location
    history and the bed status changes. */
module TransferBed {
  import opened Fhir
  import opened Lists
  import opened HospitalStore

  /** The id of the bed the encounter is treated as lying in: the second segment of its first
      location's reference. */
  function CurrentBedId(e: Encounter): Option<string> {
    var ref := FirstLocationRef(e);
    if ref.Some? then SecondSegment(ref.value) else None
  }

  predicate Selectable(bed: Location, currentBedId: Option<string>) {
    OperationalCode(bed) != Some("O") && bed.id != currentBedId
  }

  /** The beds offered: those not occupied and not the current bed, in search order. */
  function AvailableBeds(beds: seq<Location>, encounter: Encounter): (r: seq<Location>)
    ensures forall i :: 0 <= i < |r| ==> r[i] in beds && OperationalCode(r[i]) != Some("O") && r[i].id != CurrentBedId(encounter)
    ensures forall i :: 0 <= i < |beds| && OperationalCode(beds[i]) != Some("O") && beds[i].id != CurrentBedId(encounter) ==> beds[i] in r
  {
    Filter(beds, (b: Location) => Selectable(b, CurrentBedId(encounter)))
  }

  function NewEntry(selectedBed: string, now: Time): EncounterLocation {
    EncounterLocation(Some(Ref("Location/" + selectedBed)), Some("active"), Some(Period(Some(now), None)))
  }

  /** A location entry closed at `now`: completed, its period keeping its start and gaining an end. */
  function Completed(entry: EncounterLocation, now: Time): (r: EncounterLocation)
    ensures r.location == entry.location && r.status == Some("completed")
    ensures r.period.Some? && r.period.value.end == Some(now)
    ensures entry.period.Some? ==> r.period.value.start == entry.period.value.start
  {
    var start := if entry.period.Some? then entry.period.value.start else None;
    entry.(status := Some("completed"), period := Some(Period(start, Some(now))))
  }

  /** The location history after a transfer: the old entries with entry 0 closed, and the new
      bed appended as active. */
  function TransferredLocations(locations: Option<seq<EncounterLocation>>, selectedBed: string, now: Time): (r: seq<EncounterLocation>)
    ensures var before := if locations.Some? then locations.value else [];
            && |r| == |before| + 1
            && r[|before|] == NewEntry(selectedBed, now)
            && (|before| > 0 ==> r[0] == Completed(before[0], now))
            && (forall i :: 1 <= i < |before| ==> r[i] == before[i])
  {
    var before := if locations.Some? then locations.value else [];
    var updated := before + [NewEntry(selectedBed, now)];
    if |before| > 0 then updated[0 := Completed(before[0], now)] else updated
  }

  function Moved(e: Encounter, selectedBed: string, now: Time): Encounter {
    e.(location := Some(TransferredLocations(e.location, selectedBed, now)))
  }

  /** The current bed survives a transfer: entry 0 stays first, so only an encounter with no
      location takes the new bed as its current one. */
  lemma TransferKeepsCurrentBed(e: Encounter, selectedBed: string, now: Time)
    ensures e.location.Some? && |e.location.value| > 0 ==>
              FirstLocationRef(Moved(e, selectedBed, now)) == FirstLocationRef(e)
    ensures e.location.None? || e.location.value == [] ==>
              FirstLocationRef(Moved(e, selectedBed, now)) == Some("Location/" + selectedBed)
  {
    var before := if e.location.Some? then e.location.value else [];
    var r := TransferredLocations(e.location, selectedBed, now);
    if |before| > 0 {
      assert r[0].location == before[0].location;
    } else {
      assert r[0] == NewEntry(selectedBed, now);
    }
  }

  /** After two transfers the bed treated as current is still the first one: the original bed
      when there was one, otherwise the bed of the first transfer. */
  lemma {:induction false} SecondTransferSeesFirstBed(e: Encounter, bed1: string, bed2: string, t1: Time, t2: Time)
    requires '/' !in bed1
    ensures var twice := Moved(Moved(e, bed1, t1), bed2, t2);
            && (e.location.Some? && |e.location.value| > 0 ==> CurrentBedId(twice) == CurrentBedId(e))
            && (e.location.None? || e.location.value == [] ==> CurrentBedId(twice) == Some(bed1))
  {
    var once := Moved(e, bed1, t1);
    TransferKeepsCurrentBed(e, bed1, t1);
    assert once.location.Some? && |once.location.value| > 0;
    TransferKeepsCurrentBed(once, bed2, t2);
    if e.location.None? || e.location.value == [] {
      ReferenceSegments("Location", bed1);
      assert RefString("Location", Some(bed1)) == "Location/" + bed1;
    }
  }

  /** `handleTransfer` as a change of the store: the encounter is written first, then the
      current bed (if any) is read and set to Cleaning, then the selected bed, if it is among
      the beds offered, is set to Occupied. `failAt` is the first write the store refuses. */
  function Transfer(db: Db, encounter: Encounter, selectedBed: string, availableBeds: seq<Location>, now: Time, failAt: nat): (r: (Db, Outcome))
    ensures selectedBed == "" ==> r == (db, Invalid)
    ensures selectedBed != "" && (failAt == 0 || encounter.id.None?) ==> r == (db, Failed)
    ensures r.1 == Done || r.1 == Failed || r.1 == Invalid
  {
    if selectedBed == "" then (db, Invalid)
    else
      var db1 := Put(db, EncounterResource(Moved(encounter, selectedBed, now)), failAt == 0);
      if db1.None? then (db, Failed)
      else
        var current := CurrentBedId(encounter);
        var db2 := if Truthy(current) then ReleaseToCleaning(db1.value, current.value, failAt == 1) else db1;
        if db2.None? then (db1.value, Failed)
        else
          var newBed := FindBed(availableBeds, selectedBed);
          var next := if Truthy(current) then 2 else 1;
          var db3 := if newBed.Some? then Put(db2.value, BedResource(WithStatus(newBed.value, Occupied)), failAt == next) else db2;
          if db3.None? then (db2.value, Failed) else (db3.value, Done)
  }

  /** A completed transfer: the encounter holds the new history, the old bed is being cleaned,
      the new bed (when offered) is occupied with its other fields as loaded, and every other bed
      and every appointment is as before. */
  lemma TransferDone(db: Db, encounter: Encounter, selectedBed: string, availableBeds: seq<Location>, now: Time, failAt: nat)
    requires Keyed(db)
    requires Transfer(db, encounter, selectedBed, availableBeds, now, failAt).1 == Done
    ensures var after := Transfer(db, encounter, selectedBed, availableBeds, now, failAt).0;
            var current := CurrentBedId(encounter);
            var newBed := FindBed(availableBeds, selectedBed);
            && encounter.id.Some?
            && after.encounters == db.encounters[encounter.id.value := Moved(encounter, selectedBed, now)]
            && after.appointments == db.appointments
            && Keyed(after)
            && (Truthy(current) && current.value != selectedBed ==>
                  current.value in db.beds && after.beds[current.value] == WithStatus(db.beds[current.value], Cleaning))
            && (newBed.Some? ==> after.beds[selectedBed] == WithStatus(newBed.value, Occupied))
            && (forall k :: k in db.beds && Some(k) != current && k != selectedBed ==> k in after.beds && after.beds[k] == db.beds[k])
            && (newBed.None? && selectedBed in db.beds && Some(selectedBed) != current ==> after.beds[selectedBed] == db.beds[selectedBed])
  {
    var current := CurrentBedId(encounter);
    var db1 := Put(db, EncounterResource(Moved(encounter, selectedBed, now)), failAt == 0).value;
    assert db1.beds == db.beds;
    if Truthy(current) {
      assert current.value in db1.beds;
      var db2 := ReleaseToCleaning(db1, current.value, failAt == 1).value;
      assert db2.beds == db.beds[current.value := WithStatus(db.beds[current.value], Cleaning)];
    }
  }

  /** The transfer dialog: the selected bed id and the beds it offers. */
  class TransferBedModal {
    const encounter: Encounter
    var selectedBed: string
    var availableBeds: seq<Location>

    constructor (encounter: Encounter)
      ensures this.encounter == encounter && selectedBed == "" && availableBeds == []
    {
      this.encounter := encounter;
      selectedBed := "";
      availableBeds := [];
    }

    /** `loadAvailableBeds` given the bed search's result; a failed search changes nothing. */
    method LoadAvailableBeds(found: Option<seq<Location>>)
      modifies this
      ensures availableBeds == (if found.Some? then AvailableBeds(found.value, encounter) else old(availableBeds))
      ensures selectedBed == old(selectedBed)
    {
      if found.Some? {
        availableBeds := AvailableBeds(found.value, encounter);
      }
    }

    method HandleTransfer(store: Store, now: Time, failAt: nat) returns (outcome: Outcome)
      modifies this, store
      ensures (store.State(), outcome) == Transfer(old(store.State()), encounter, old(selectedBed), old(availableBeds), now, failAt)
      ensures availableBeds == old(availableBeds)
      ensures selectedBed == (if outcome == Done then "" else old(selectedBed))
    {
      if selectedBed == "" {
        return Invalid;
      }
      var current := CurrentBedId(encounter);
      var ok := store.Update(EncounterResource(Moved(encounter, selectedBed, now)), failAt == 0);
      if !ok {
        return Failed;
      }
      var next := 1;
      if Truthy(current) {
        var oldBed := store.ReadBed(current.value);
        if oldBed.None? {
          return Failed;
        }
        ok := store.Update(BedResource(WithStatus(oldBed.value, Cleaning)), failAt == 1);
        if !ok {
          return Failed;
        }
        next := 2;
      }
      var newBed := FindBed(availableBeds, selectedBed);
      if newBed.Some? {
        ok := store.Update(BedResource(WithStatus(newBed.value, Occupied)), failAt == next);
        if !ok {
          return Failed;
        }
      }
      selectedBed := "";
      return Done;
    }
  }
}
