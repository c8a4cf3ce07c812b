/** The bed board: finding each bed's current encounter and patient, creating beds, filtering
    the board and counting occupied and available beds. */
module BedManagement {
  import opened Fhir
  import opened Lists
  import opened HospitalStore

  predicate IsEncounterEntry(e: Entry) {
    e.resource.Some? && e.resource.value.FoundEncounter?
  }

  predicate IsPatientEntry(e: Entry) {
    e.resource.Some? && e.resource.value.FoundPatient?
  }

  /** The last encounter among the entries of one bed's lookup. */
  function LastEncounter(entries: seq<Entry>): (r: Option<Encounter>)
    ensures r.None? <==> forall i :: 0 <= i < |entries| ==> !IsEncounterEntry(entries[i])
    ensures r.Some? ==> exists i :: 0 <= i < |entries| && entries[i].resource == Some(FoundEncounter(r.value)) &&
                                    (forall j :: i < j < |entries| ==> !IsEncounterEntry(entries[j]))
  {
    if entries == [] then None
    else if IsEncounterEntry(entries[|entries| - 1]) then Some(entries[|entries| - 1].resource.value.encounter)
    else LastEncounter(entries[..|entries| - 1])
  }

  /** The last patient among the entries of one bed's lookup. */
  function LastPatient(entries: seq<Entry>): (r: Option<Person>)
    ensures r.None? <==> forall i :: 0 <= i < |entries| ==> !IsPatientEntry(entries[i])
    ensures r.Some? ==> exists i :: 0 <= i < |entries| && entries[i].resource == Some(FoundPatient(r.value)) &&
                                    (forall j :: i < j < |entries| ==> !IsPatientEntry(entries[j]))
  {
    if entries == [] then None
    else if IsPatientEntry(entries[|entries| - 1]) then Some(entries[|entries| - 1].resource.value.patient)
    else LastPatient(entries[..|entries| - 1])
  }

  /** The loop of `loadBeds` over one bed's lookup: each Encounter entry overwrites the
      encounter and each Patient entry the patient, entries without a resource are skipped. */
  method PickCurrent(entries: seq<Entry>) returns (encounter: Option<Encounter>, patient: Option<Person>)
    ensures encounter == LastEncounter(entries) && patient == LastPatient(entries)
  {
    encounter, patient := None, None;
    var i := 0;
    while i < |entries|
      invariant 0 <= i <= |entries|
      invariant encounter == LastEncounter(entries[..i]) && patient == LastPatient(entries[..i])
    {
      var entry := entries[i];
      if entry.resource.Some? {
        match entry.resource.value {
          case FoundEncounter(e) => encounter := Some(e);
          case FoundPatient(p) => patient := Some(p);
          case FoundAppointment(_) =>
          case FoundOther(_) =>
        }
      }
      assert entries[..i + 1][..i] == entries[..i];
      i := i + 1;
    }
    assert entries[..i] == entries;
  }

  /** One bed of the board: its lookup's last encounter and patient, or neither when the lookup
      failed. */
  function ViewOf(bed: Location, lookup: Option<seq<Entry>>): BedView {
    if lookup.Some? then BedView(bed, LastPatient(lookup.value), LastEncounter(lookup.value))
    else BedView(bed, None, None)
  }

  const BedTypeCoding := Coding("http://terminology.hl7.org/CodeSystem/v3-RoleCode", "bd", "Bed")
  const BedPhysicalCoding := Coding("http://terminology.hl7.org/CodeSystem/location-physical-type", "bd", "Bed")

  /** The bed `createBed` sends: active, Unoccupied, of type and physical type bed, part of the
      ward only when a ward id was entered. */
  function NewBed(name: string, ward: string): (b: Location)
    ensures b.id.None? && b.name == Some(name) && b.status == Some("active")
    ensures b.operationalStatus == Some(Unoccupied) && OperationalCode(b) == Some("U")
    ensures b.locationType == Some([CodeableConcept(Some([BedTypeCoding]), None)])
    ensures b.physicalType == Some(CodeableConcept(Some([BedPhysicalCoding]), None))
    ensures b.partOf.Some? <==> ward != ""
    ensures ward != "" ==> b.partOf == Some(Ref("Location/" + ward))
  {
    Location(
      None, Some(name), Some("active"), Some(Unoccupied),
      Some([CodeableConcept(Some([BedTypeCoding]), None)]),
      Some(CodeableConcept(Some([BedPhysicalCoding]), None)),
      if ward != "" then Some(Ref("Location/" + ward)) else None)
  }

  /** `createBed` as a change of the store. */
  function BedCreation(db: Db, name: string, ward: string, newId: string, failAt: nat): (r: (Db, Outcome))
    ensures r.1 == Done <==> failAt != 0
    ensures r.1 == Done ==> r.0 == db.(beds := db.beds[newId := NewBed(name, ward).(id := Some(newId))])
    ensures r.1 != Done ==> r.0 == db
  {
    var after := Post(db, BedResource(NewBed(name, ward)), newId, failAt == 0);
    if after.None? then (db, Failed) else (after.value, Done)
  }

  /** A created bed starts free: stored under the server's id with status Unoccupied, keeping
      every bed under its own id. */
  lemma CreatedBedIsFree(db: Db, name: string, ward: string, newId: string, failAt: nat)
    requires Keyed(db)
    requires BedCreation(db, name, ward, newId, failAt).1 == Done
    ensures var after := BedCreation(db, name, ward, newId, failAt).0;
            newId in after.beds && OperationalCode(after.beds[newId]) == Some("U") && Keyed(after)
  {
  }

  /** The filter of the board: 'occupied' and 'available' select by the current patient, 'all'
      and any other value select every bed. */
  predicate Shown(filterStatus: string, view: BedView) {
    if filterStatus == "all" then true
    else if filterStatus == "occupied" then view.currentPatient.Some?
    else if filterStatus == "available" then view.currentPatient.None?
    else true
  }

  function FilteredBeds(beds: seq<BedView>, filterStatus: string): seq<BedView> {
    Filter(beds, (v: BedView) => Shown(filterStatus, v))
  }

  /** The three kinds of filter value, each keeping the board's order. */
  lemma FilteredBedsCases(beds: seq<BedView>, filterStatus: string)
    ensures filterStatus != "occupied" && filterStatus != "available" ==> FilteredBeds(beds, filterStatus) == beds
    ensures filterStatus == "occupied" ==>
              var r := FilteredBeds(beds, filterStatus);
              (forall i :: 0 <= i < |r| ==> r[i] in beds && r[i].currentPatient.Some?) &&
              (forall i :: 0 <= i < |beds| && beds[i].currentPatient.Some? ==> beds[i] in r)
    ensures filterStatus == "available" ==>
              var r := FilteredBeds(beds, filterStatus);
              (forall i :: 0 <= i < |r| ==> r[i] in beds && r[i].currentPatient.None?) &&
              (forall i :: 0 <= i < |beds| && beds[i].currentPatient.None? ==> beds[i] in r)
  {
    if filterStatus != "occupied" && filterStatus != "available" {
      FilterAll(beds, (v: BedView) => Shown(filterStatus, v));
    }
  }

  function OccupiedCount(beds: seq<BedView>): nat {
    |Filter(beds, (v: BedView) => v.currentPatient.Some?)|
  }

  function AvailableCount(beds: seq<BedView>): int {
    |beds| - OccupiedCount(beds)
  }

  /** The header counts agree with the filters: occupied is the size of the 'occupied' list,
      available (computed as the rest) the size of the 'available' list, and they add up to
      the number of beds. */
  lemma CountsMatchFilters(beds: seq<BedView>)
    ensures OccupiedCount(beds) == |FilteredBeds(beds, "occupied")|
    ensures AvailableCount(beds) == |FilteredBeds(beds, "available")|
    ensures AvailableCount(beds) >= 0 && OccupiedCount(beds) + AvailableCount(beds) == |beds|
  {
    var occupied := (v: BedView) => v.currentPatient.Some?;
    var available := (v: BedView) => v.currentPatient.None?;
    FilterSame(beds, occupied, (v: BedView) => Shown("occupied", v));
    FilterSame(beds, available, (v: BedView) => Shown("available", v));
    FilterComplement(beds, occupied, available);
  }

  /** The bed board's state. */
  class BedManagementPage {
    var beds: seq<BedView>
    var filterStatus: string
    var newBedName: string
    var newBedWard: string

    constructor ()
      ensures beds == [] && filterStatus == "all" && newBedName == "" && newBedWard == ""
    {
      beds := [];
      filterStatus := "all";
      newBedName := "";
      newBedWard := "";
    }

    /** `loadBeds` given the bed search's result and each bed's lookup (`None` when that
        lookup fails); the lookups, concurrent in the page, are taken one after the other. A
        failed bed search leaves the board as it was. */
    method LoadBeds(found: Option<seq<Location>>, lookup: Location -> Option<seq<Entry>>)
      modifies this
      ensures found.None? ==> beds == old(beds)
      ensures found.Some? ==> |beds| == |found.value| &&
                              forall i :: 0 <= i < |beds| ==> beds[i] == ViewOf(found.value[i], lookup(found.value[i]))
      ensures filterStatus == old(filterStatus) && newBedName == old(newBedName) && newBedWard == old(newBedWard)
    {
      if found.None? {
        return;
      }
      var list := found.value;
      var views: seq<BedView> := [];
      var i := 0;
      while i < |list|
        invariant 0 <= i <= |list| && |views| == i
        invariant forall k :: 0 <= k < i ==> views[k] == ViewOf(list[k], lookup(list[k]))
        invariant unchanged(this)
      {
        var bed := list[i];
        var result := lookup(bed);
        var encounter: Option<Encounter> := None;
        var patient: Option<Person> := None;
        if result.Some? {
          encounter, patient := PickCurrent(result.value);
        }
        views := views + [BedView(bed, patient, encounter)];
        i := i + 1;
      }
      beds := views;
    }

    /** `createBed`; after a success the form is cleared. The reload that follows is a separate
        `LoadBeds`. */
    method CreateBed(store: Store, newId: string, failAt: nat) returns (outcome: Outcome)
      modifies this, store
      ensures (store.State(), outcome) == BedCreation(old(store.State()), old(newBedName), old(newBedWard), newId, failAt)
      ensures outcome == Done ==> newBedName == "" && newBedWard == ""
      ensures outcome != Done ==> newBedName == old(newBedName) && newBedWard == old(newBedWard)
      ensures beds == old(beds) && filterStatus == old(filterStatus)
    {
      var ok := store.Create(BedResource(NewBed(newBedName, newBedWard)), newId, failAt == 0);
      if !ok {
        return Failed;
      }
      newBedName := "";
      newBedWard := "";
      return Done;
    }
  }
}
