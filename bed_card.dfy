/** One bed on the bed board: whether it is occupied, its badge, the actions it offers and the
    two actions that change the store. */
module BedCard {
  import opened Fhir
  import opened HospitalStore

  /** A bed is occupied exactly when a current patient was found for it. */
  predicate IsOccupied(view: BedView) {
    view.currentPatient.Some?
  }

  /** The badge colour of a bed status code: Occupied red, Cleaning yellow, Unoccupied green,
      anything else (or no status) gray. */
  function StatusColor(code: Option<string>): (c: string)
    ensures c == "red" <==> code == Some("O")
    ensures c == "yellow" <==> code == Some("C")
    ensures c == "green" <==> code == Some("U")
    ensures c == "gray" <==> code != Some("O") && code != Some("C") && code != Some("U")
  {
    if code == Some("O") then "red"
    else if code == Some("C") then "yellow"
    else if code == Some("U") then "green"
    else "gray"
  }

  /** The badge text: the status display when there is a non-empty one, else 'Available'. */
  function BadgeText(bed: Location): (t: string)
    ensures bed.operationalStatus.Some? && bed.operationalStatus.value.display != "" ==> t == bed.operationalStatus.value.display
    ensures bed.operationalStatus.None? || bed.operationalStatus.value.display == "" ==> t == "Available"
  {
    if bed.operationalStatus.Some? && bed.operationalStatus.value.display != "" then bed.operationalStatus.value.display
    else "Available"
  }

  /** The Bed Status codings the demo writes are shown by their own display. */
  lemma BadgesOfWrittenStatuses(bed: Location)
    ensures BadgeText(WithStatus(bed, Occupied)) == "Occupied"
    ensures BadgeText(WithStatus(bed, Cleaning)) == "Cleaning"
    ensures BadgeText(WithStatus(bed, Unoccupied)) == "Unoccupied"
    ensures StatusColor(OperationalCode(WithStatus(bed, Occupied))) == "red"
    ensures StatusColor(OperationalCode(WithStatus(bed, Cleaning))) == "yellow"
    ensures StatusColor(OperationalCode(WithStatus(bed, Unoccupied))) == "green"
  {
  }

  datatype MenuItem = ReleaseBed | MarkForCleaning | AssignPatient

  /** The card's menu: Release and Mark for Cleaning for an occupied bed, Assign for a free one. */
  function MenuItems(view: BedView): (items: seq<MenuItem>)
    ensures IsOccupied(view) <==> items == [ReleaseBed, MarkForCleaning]
    ensures !IsOccupied(view) <==> items == [AssignPatient]
  {
    if IsOccupied(view) then [ReleaseBed, MarkForCleaning] else [AssignPatient]
  }

  /** The card's Assign button: shown only for a free bed, and then disabled exactly while the
      bed's status is Cleaning. `Some(disabled)` when shown. */
  function AssignButton(view: BedView): (b: Option<bool>)
    ensures b.Some? <==> !IsOccupied(view)
    ensures b.Some? ==> (b.value <==> OperationalCode(view.bed) == Some("C"))
  {
    if IsOccupied(view) then None else Some(OperationalCode(view.bed) == Some("C"))
  }

  /** `handleReleaseBed` as a change of the store: without a current encounter nothing happens;
      otherwise only that encounter's status becomes finished. */
  function Release(db: Db, view: BedView, failAt: nat): (r: (Db, Outcome))
    ensures r.0.beds == db.beds && r.0.appointments == db.appointments
    ensures view.currentEncounter.None? ==> r == (db, Ignored)
    ensures r.1 == Done <==> view.currentEncounter.Some? && view.currentEncounter.value.id.Some? && failAt != 0
    ensures r.1 == Done ==> r.0.encounters == db.encounters[view.currentEncounter.value.id.value := view.currentEncounter.value.(status := "finished")]
    ensures r.1 != Done ==> r.0 == db
  {
    if view.currentEncounter.None? then (db, Ignored)
    else
      var after := Put(db, EncounterResource(view.currentEncounter.value.(status := "finished")), failAt == 0);
      if after.None? then (db, Failed) else (after.value, Done)
  }

  /** `handleMarkForCleaning` as a change of the store: the bed, every other field kept, is set
      to Cleaning. */
  function MarkCleaning(db: Db, view: BedView, failAt: nat): (r: (Db, Outcome))
    ensures r.0.encounters == db.encounters && r.0.appointments == db.appointments
    ensures r.1 == Done <==> view.bed.id.Some? && failAt != 0
    ensures r.1 == Done ==> r.0.beds == db.beds[view.bed.id.value := WithStatus(view.bed, Cleaning)]
    ensures r.1 != Done ==> r.0 == db
  {
    var after := Put(db, BedResource(WithStatus(view.bed, Cleaning)), failAt == 0);
    if after.None? then (db, Failed) else (after.value, Done)
  }

  /** The card of one bed. */
  class BedCard {
    const view: BedView

    constructor (view: BedView)
      ensures this.view == view
    {
      this.view := view;
    }

    method HandleReleaseBed(store: Store, failAt: nat) returns (outcome: Outcome)
      modifies store
      ensures (store.State(), outcome) == Release(old(store.State()), view, failAt)
    {
      if view.currentEncounter.None? {
        return Ignored;
      }
      var ok := store.Update(EncounterResource(view.currentEncounter.value.(status := "finished")), failAt == 0);
      outcome := if ok then Done else Failed;
    }

    method HandleMarkForCleaning(store: Store, failAt: nat) returns (outcome: Outcome)
      modifies store
      ensures (store.State(), outcome) == MarkCleaning(old(store.State()), view, failAt)
    {
      var ok := store.Update(BedResource(WithStatus(view.bed, Cleaning)), failAt == 0);
      outcome := if ok then Done else Failed;
    }
  }
}
