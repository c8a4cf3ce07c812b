/** The FHIR server as the hospital demo's handlers use it: beds (bed `Location`s), encounters
    and appointments kept by id, written with `createResource` and `updateResource`, read with
    `readResource`. Any write may be refused; a handler that sees a refusal stops there and shows
    its error notice, so the writes made before it stay. */
module HospitalStore {
  import opened Fhir
  import opened Lists

  /** The notice a handler ends with: none (a silent return), a validation notice, the
      success notice or the error notice. */
  datatype Outcome = Ignored | Invalid | Done | Failed

  datatype Db = Db(beds: map<string, Location>, encounters: map<string, Encounter>, appointments: map<string, Appointment>)

  /** A resource a handler writes. */
  datatype Resource =
    | BedResource(bed: Location)
    | EncounterResource(encounter: Encounter)
    | AppointmentResource(appointment: Appointment)

  function IdOf(r: Resource): Option<string> {
    match r
    case BedResource(b) => b.id
    case EncounterResource(e) => e.id
    case AppointmentResource(a) => a.id
  }

  function WithId(r: Resource, id: string): Resource {
    match r
    case BedResource(b) => BedResource(b.(id := Some(id)))
    case EncounterResource(e) => EncounterResource(e.(id := Some(id)))
    case AppointmentResource(a) => AppointmentResource(a.(id := Some(id)))
  }

  /** The store with `r` kept under `id`. */
  function Stored(db: Db, id: string, r: Resource): Db {
    match r
    case BedResource(b) => db.(beds := db.beds[id := b])
    case EncounterResource(e) => db.(encounters := db.encounters[id := e])
    case AppointmentResource(a) => db.(appointments := db.appointments[id := a])
  }

  /** `updateResource`: a write to the resource's own id, refused when it has no id or when the
      store rejects the call. */
  function Put(db: Db, r: Resource, rejected: bool): (after: Option<Db>)
    ensures after.Some? <==> !rejected && IdOf(r).Some?
  {
    if rejected || IdOf(r).None? then None else Some(Stored(db, IdOf(r).value, r))
  }

  /** `createResource`: the server stores the resource under the id it chooses, `newId`. */
  function Post(db: Db, r: Resource, newId: string, rejected: bool): (after: Option<Db>)
    ensures after.Some? <==> !rejected
  {
    if rejected then None else Some(Stored(db, newId, WithId(r, newId)))
  }

  /** `bed` with operational status `status`, every other field kept. */
  function WithStatus(bed: Location, status: Coding): Location {
    bed.(operationalStatus := Some(status))
  }

  /** `readResource('Location', id)` then an update of the bed read to Cleaning; reading an id
      the store does not hold fails. */
  function ReleaseToCleaning(db: Db, id: string, rejected: bool): Option<Db> {
    if id in db.beds then Put(db, BedResource(WithStatus(db.beds[id], Cleaning)), rejected) else None
  }

  /** The first bed of the list with the given id. */
  function FindBed(beds: seq<Location>, id: string): (r: Option<Location>)
    ensures r.Some? ==> r.value in beds && r.value.id == Some(id)
    ensures r.None? ==> forall i :: 0 <= i < |beds| ==> beds[i].id != Some(id)
  {
    Find(beds, (b: Location) => b.id == Some(id))
  }

  /** Every bed is kept under its own id, as a server keeps it. */
  ghost predicate Keyed(db: Db) {
    forall k :: k in db.beds ==> db.beds[k].id == Some(k)
  }

  /** Writing a bed under its own id keeps every bed under its own id. */
  lemma PutKeepsKeyed(db: Db, r: Resource, rejected: bool)
    requires Keyed(db)
    ensures Put(db, r, rejected).Some? ==> Keyed(Put(db, r, rejected).value)
  {
  }

  /** A created bed is kept under the id the server gives it. */
  lemma PostKeepsKeyed(db: Db, r: Resource, newId: string, rejected: bool)
    requires Keyed(db)
    ensures Post(db, r, newId, rejected).Some? ==> Keyed(Post(db, r, newId, rejected).value)
  {
  }

  /** What a search or an `_include` returns in a bundle entry; `FoundOther` is a resource of a
      type the demo does not read. */
  datatype Found =
    | FoundEncounter(encounter: Encounter)
    | FoundPatient(patient: Person)
    | FoundAppointment(appointment: Appointment)
    | FoundOther(resourceType: string)

  /** A bundle entry; its resource may be missing. */
  datatype Entry = Entry(resource: Option<Found>)

  /** The Patient entries of a bundle, in order. */
  function PatientsOf(entries: seq<Entry>): (r: seq<Person>)
    ensures forall i :: 0 <= i < |entries| && entries[i].resource.Some? && entries[i].resource.value.FoundPatient? ==>
              entries[i].resource.value.patient in r
    ensures forall p :: p in r ==> Entry(Some(FoundPatient(p))) in entries
  {
    if entries == [] then []
    else
      var e := entries[0];
      (if e.resource.Some? && e.resource.value.FoundPatient? then [e.resource.value.patient] else []) + PatientsOf(entries[1..])
  }

  /** The first patient whose literal `Patient/<id>` is the reference looked for; none when the
      reference is missing. */
  function JoinPatient(patients: seq<Person>, ref: Option<string>): (r: Option<Person>)
    ensures r.Some? ==> r.value in patients && ref == Some(RefString("Patient", r.value.id))
    ensures r.None? <==> ref.None? || forall i :: 0 <= i < |patients| ==> RefString("Patient", patients[i].id) != ref.value
    ensures r.Some? ==> exists i :: 0 <= i < |patients| && patients[i] == r.value &&
                                    (forall j :: 0 <= j < i ==> Some(RefString("Patient", patients[j].id)) != ref)
  {
    Find(patients, (p: Person) => Some(RefString("Patient", p.id)) == ref)
  }

  /** A bed as the bed pages hold it: the bed and the patient and encounter found for it. */
  datatype BedView = BedView(bed: Location, currentPatient: Option<Person>, currentEncounter: Option<Encounter>)

  /** The server. */
  class Store {
    var beds: map<string, Location>
    var encounters: map<string, Encounter>
    var appointments: map<string, Appointment>

    function State(): Db
      reads this
    {
      Db(beds, encounters, appointments)
    }

    constructor (db: Db)
      ensures State() == db
    {
      beds := db.beds;
      encounters := db.encounters;
      appointments := db.appointments;
    }

    method Keep(db: Db)
      modifies this
      ensures State() == db
    {
      beds := db.beds;
      encounters := db.encounters;
      appointments := db.appointments;
    }

    method Update(r: Resource, rejected: bool) returns (ok: bool)
      modifies this
      ensures var after := Put(old(State()), r, rejected);
              ok == after.Some? && State() == (if ok then after.value else old(State()))
    {
      var after := Put(State(), r, rejected);
      ok := after.Some?;
      if ok {
        Keep(after.value);
      }
    }

    method Create(r: Resource, newId: string, rejected: bool) returns (ok: bool)
      modifies this
      ensures var after := Post(old(State()), r, newId, rejected);
              ok == after.Some? && State() == (if ok then after.value else old(State()))
    {
      var after := Post(State(), r, newId, rejected);
      ok := after.Some?;
      if ok {
        Keep(after.value);
      }
    }

    method ReadBed(id: string) returns (bed: Option<Location>)
      ensures bed == (if id in beds then Some(beds[id]) else None)
    {
      bed := if id in beds then Some(beds[id]) else None;
    }
  }
}
