/** The outpatient (OPD) queue: joining today's visits to their patients, the status filter,
    the counters, the queue numbers, the status labels and the status changes. */
module Opd {
  import opened Fhir
  import opened Lists
  import opened HospitalStore

  /** A visit with the patient found for it. */
  datatype Visit = Visit(encounter: Encounter, patientResource: Option<Person>)

  /** The encounters of a bundle, in order. */
  function EncountersOf(entries: seq<Entry>): (r: seq<Encounter>)
    ensures |r| <= |entries|
    ensures forall e :: e in r <==> Entry(Some(FoundEncounter(e))) in entries
  {
    if entries == [] then []
    else
      var e := entries[0];
      (if e.resource.Some? && e.resource.value.FoundEncounter? then [e.resource.value.encounter] else []) + EncountersOf(entries[1..])
  }

  /** The queue filter: 'all' keeps every visit, any other value the exact status matches. */
  function FilteredVisits(visits: seq<Visit>, filterStatus: string): (r: seq<Visit>)
    ensures filterStatus != "all" ==> forall i :: 0 <= i < |r| ==> r[i] in visits && r[i].encounter.status == filterStatus
    ensures filterStatus != "all" ==> forall i :: 0 <= i < |visits| && visits[i].encounter.status == filterStatus ==> visits[i] in r
    ensures filterStatus == "all" ==> r == visits
  {
    var p := (v: Visit) => filterStatus == "all" || v.encounter.status == filterStatus;
    if filterStatus == "all" then FilterAll(visits, p); Filter(visits, p) else Filter(visits, p)
  }

  function StatusCount(visits: seq<Visit>, status: string): nat {
    |Filter(visits, (v: Visit) => v.encounter.status == status)|
  }

  /** The waiting, in-progress and completed counters are the sizes of the lists filtered by
      arrived, in-progress and finished, and together never exceed the number of visits. */
  lemma CountersWithinTotal(visits: seq<Visit>)
    ensures StatusCount(visits, "arrived") == |FilteredVisits(visits, "arrived")|
    ensures StatusCount(visits, "in-progress") == |FilteredVisits(visits, "in-progress")|
    ensures StatusCount(visits, "finished") == |FilteredVisits(visits, "finished")|
    ensures StatusCount(visits, "arrived") + StatusCount(visits, "in-progress") + StatusCount(visits, "finished") <= |visits|
  {
    FilterSame(visits, (v: Visit) => v.encounter.status == "arrived", (v: Visit) => "arrived" == "all" || v.encounter.status == "arrived");
    FilterSame(visits, (v: Visit) => v.encounter.status == "in-progress", (v: Visit) => "in-progress" == "all" || v.encounter.status == "in-progress");
    FilterSame(visits, (v: Visit) => v.encounter.status == "finished", (v: Visit) => "finished" == "all" || v.encounter.status == "finished");
    FilterDisjoint(visits, (v: Visit) => v.encounter.status == "arrived", (v: Visit) => v.encounter.status == "in-progress",
                   (v: Visit) => v.encounter.status == "finished");
  }

  /** The rows of the queue: each shown visit numbered by its 1-based position in the filtered
      list, so the numbers follow the filter rather than the visit. */
  function QueueRows(visits: seq<Visit>, filterStatus: string): (rows: seq<(nat, Visit)>)
    ensures |rows| == |FilteredVisits(visits, filterStatus)|
    ensures forall i :: 0 <= i < |rows| ==> rows[i] == (i + 1, FilteredVisits(visits, filterStatus)[i])
  {
    Numbered(FilteredVisits(visits, filterStatus))
  }

  /** The badge colour of a visit status. */
  function StatusColor(status: string): (c: string)
    ensures c == "orange" <==> status == "arrived"
    ensures c == "blue" <==> status == "in-progress"
    ensures c == "green" <==> status == "finished"
    ensures c == "gray" <==> status !in {"arrived", "in-progress", "finished"}
  {
    if status == "arrived" then "orange"
    else if status == "in-progress" then "blue"
    else if status == "finished" then "green"
    else "gray"
  }

  /** The badge text: Waiting, In Progress and Completed for the three queue statuses, the raw
      status otherwise. */
  function StatusLabel(status: string): (t: string)
    ensures status == "arrived" ==> t == "Waiting"
    ensures status == "in-progress" ==> t == "In Progress"
    ensures status == "finished" ==> t == "Completed"
    ensures status !in {"arrived", "in-progress", "finished"} ==> t == status
  {
    if status == "arrived" then "Waiting"
    else if status == "in-progress" then "In Progress"
    else if status == "finished" then "Completed"
    else status
  }

  /** The statuses of an Encounter in FHIR R4. */
  const EncounterStatuses := {"planned", "arrived", "triaged", "in-progress", "onleave", "finished", "cancelled", "entered-in-error", "unknown"}

  /** On FHIR encounter statuses the label tells the status apart: no two statuses share one. */
  lemma LabelsTellStatusesApart(s: string, t: string)
    requires s in EncounterStatuses && t in EncounterStatuses
    requires StatusLabel(s) == StatusLabel(t)
    ensures s == t
  {
  }

  /** The status changes the page offers: start an arrived visit, complete one in progress. */
  function Actions(status: string): seq<string> {
    if status == "arrived" then ["in-progress"]
    else if status == "in-progress" then ["finished"]
    else []
  }

  function Rank(status: string): nat {
    if status == "arrived" then 0 else if status == "in-progress" then 1 else 2
  }

  /** Every offered change moves forward; a finished visit offers none. */
  lemma ActionsAdvance(status: string)
    ensures forall t :: t in Actions(status) ==> Rank(status) < Rank(t)
    ensures Actions("finished") == []
  {
  }

  /** A sequence of statuses, each reached from the one before by an offered change. */
  predicate IsRun(statuses: seq<string>) {
    forall k :: 0 <= k < |statuses| - 1 ==> statuses[k + 1] in Actions(statuses[k])
  }

  /** A visit goes through at most three statuses and never returns to one; the page never
      branches, so a run from arrived is a prefix of arrived, in progress, finished. */
  lemma RunsAreShort(statuses: seq<string>)
    requires IsRun(statuses)
    ensures |statuses| <= 3
    ensures forall i, j :: 0 <= i < j < |statuses| ==> statuses[i] != statuses[j]
    ensures |statuses| == 3 ==> statuses == ["arrived", "in-progress", "finished"]
    ensures |statuses| > 0 && statuses[0] == "arrived" ==> statuses == ["arrived", "in-progress", "finished"][..|statuses|]
  {
    forall x, t | t in Actions(x)
      ensures Rank(x) < Rank(t)
    {
      ActionsAdvance(x);
    }
    RisingRunIsShort(statuses, Actions, Rank, 2);
    if |statuses| == 3 {
      assert statuses[1] in Actions(statuses[0]) && statuses[2] in Actions(statuses[1]);
      assert Rank(statuses[0]) == 0;
    }
    if |statuses| > 1 && statuses[0] == "arrived" {
      assert statuses[1] in Actions(statuses[0]);
    }
  }

  /** `handleUpdateStatus` as a change of the store: the encounter is written back with only its
      status changed. */
  function UpdateStatus(db: Db, e: Encounter, newStatus: string, failAt: nat): (r: (Db, Outcome))
    ensures r.1 == Done <==> e.id.Some? && failAt != 0
    ensures r.1 != Done ==> r.0 == db
    ensures r.1 == Done ==> r.0 == db.(encounters := db.encounters[e.id.value := e.(status := newStatus)])
  {
    var after := Put(db, EncounterResource(e.(status := newStatus)), failAt == 0);
    if after.None? then (db, Failed) else (after.value, Done)
  }

  /** The page: today's visits and the filter. */
  class OpdPage {
    var visits: seq<Visit>
    var filterStatus: string

    constructor ()
      ensures visits == [] && filterStatus == "all"
    {
      visits := [];
      filterStatus := "all";
    }

    /** `loadVisits` given the search's entries: one visit per encounter entry, in order, with
        the first patient whose `Patient/<id>` is the encounter's subject reference; a failed
        search leaves the list as it was. */
    method LoadVisits(found: Option<seq<Entry>>)
      modifies this
      ensures found.None? ==> visits == old(visits)
      ensures found.Some? ==>
                var encounters := EncountersOf(found.value);
                |visits| == |encounters| &&
                forall i :: 0 <= i < |encounters| ==>
                  visits[i] == Visit(encounters[i], JoinPatient(PatientsOf(found.value), RefOf(encounters[i].subject)))
      ensures filterStatus == old(filterStatus)
    {
      if found.None? {
        return;
      }
      var encounters := EncountersOf(found.value);
      var patients := PatientsOf(found.value);
      var list: seq<Visit> := [];
      for i := 0 to |encounters|
        invariant |list| == i
        invariant forall k :: 0 <= k < i ==> list[k] == Visit(encounters[k], JoinPatient(patients, RefOf(encounters[k].subject)))
      {
        list := list + [Visit(encounters[i], JoinPatient(patients, RefOf(encounters[i].subject)))];
      }
      visits := list;
    }

    /** `handleUpdateStatus`; the reload that follows is a separate `LoadVisits`. */
    method HandleUpdateStatus(store: Store, e: Encounter, newStatus: string, failAt: nat) returns (outcome: Outcome)
      modifies store
      ensures (store.State(), outcome) == UpdateStatus(old(store.State()), e, newStatus, failAt)
    {
      var ok := store.Update(EncounterResource(e.(status := newStatus)), failAt == 0);
      outcome := if ok then Done else Failed;
    }
  }
}
