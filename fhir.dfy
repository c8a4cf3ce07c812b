/** FHIR R4 resources reduced to the fields that the mock-data scripts and the
    hospital demo read or write, plus the string helpers they use on reference
    literals of the form `Type/id` (HL7 FHIR R4, section 2.3.0 "Resource References"). */
module Fhir {

  datatype Option<+T> = None | Some(value: T)

  /** Milliseconds since the epoch; ISO 8601 text, time zones and `Date` parsing are not modelled. */
  type Time = int

  const DayMs: int := 24 * 60 * 60 * 1000

  /** JavaScript truthiness of an optional string: present and not empty. */
  predicate Truthy(s: Option<string>) {
    s.Some? && s.value != ""
  }

  /** JavaScript's `||` on optional strings: the first value unless it is missing or empty. */
  function OrElse(s: Option<string>, fallback: string): (r: string)
    ensures Truthy(s) ==> r == s.value
    ensures !Truthy(s) ==> r == fallback
  {
    if Truthy(s) then s.value else fallback
  }

  /** How a template literal prints an id that may be undefined. */
  function IdText(id: Option<string>): string {
    if id.Some? then id.value else "undefined"
  }

  /** The reference literal `${resourceType}/${id}`. */
  function RefString(resourceType: string, id: Option<string>): string {
    resourceType + "/" + IdText(id)
  }

  function StartsWith(s: string, prefix: string): bool {
    |prefix| <= |s| && s[..|prefix|] == prefix
  }

  /** First index of `c` in `s`. */
  function IndexOf(s: string, c: char): (i: nat)
    requires c in s
    ensures i < |s| && s[i] == c && c !in s[..i]
  {
    if s[0] == c then 0 else 1 + IndexOf(s[1..], c)
  }

  /** `String.prototype.split` on a one-character separator. */
  function Split(s: string, sep: char): (parts: seq<string>)
    ensures |parts| >= 1
    decreases |s|
  {
    if sep !in s then [s]
    else
      var i := IndexOf(s, sep);
      [s[..i]] + Split(s[i + 1..], sep)
  }

  /** The second slash-separated segment: none when there is no slash. */
  function SecondSegment(s: string): Option<string> {
    var parts := Split(s, '/');
    if |parts| >= 2 then Some(parts[1]) else None
  }

  /** The first slash-separated segment. */
  function FirstSegment(s: string): string {
    Split(s, '/')[0]
  }

  /** Splitting `t/rest` where `t` holds no separator yields `t` followed by the parts of `rest`. */
  lemma {:induction false} SplitAfterHead(t: string, rest: string, sep: char)
    requires sep !in t
    ensures Split(t + [sep] + rest, sep) == [t] + Split(rest, sep)
  {
    var s := t + [sep] + rest;
    assert s[|t|] == sep;
    var i := IndexOf(s, sep);
    assert s[..i] == t;
    assert s[i + 1..] == rest;
  }

  /** A reference literal built from a type and an id splits back into that type and id:
      the partner of `RefString` used wherever the code recovers an id with `split('/')`. */
  lemma ReferenceSegments(resourceType: string, id: string)
    requires '/' !in resourceType && '/' !in id
    ensures FirstSegment(RefString(resourceType, Some(id))) == resourceType
    ensures SecondSegment(RefString(resourceType, Some(id))) == Some(id)
  {
    SplitAfterHead(resourceType, id, '/');
    assert RefString(resourceType, Some(id)) == resourceType + ['/'] + id;
  }

  /** String replacement with a string pattern: only the first occurrence is replaced. */
  function ReplaceFirst(s: string, pattern: string, replacement: string): string
    decreases |s|
  {
    if |s| < |pattern| then s
    else if s[..|pattern|] == pattern then replacement + s[|pattern|..]
    else [s[0]] + ReplaceFirst(s[1..], pattern, replacement)
  }

  /** The patient id the mock-data scripts take from a reference: the first `Patient/` removed. */
  function PatientIdOf(ref: string): string {
    ReplaceFirst(ref, "Patient/", "")
  }

  /** Removing the prefix from `Patient/<id>` gives back the id, whatever the id holds. */
  lemma PatientIdOfRef(id: string)
    ensures PatientIdOf("Patient/" + id) == id
  {
    assert ("Patient/" + id)[..|"Patient/"|] == "Patient/";
    assert ("Patient/" + id)[|"Patient/"|..] == id;
  }

  // ---------------------------------------------------------------------
  // Resource values

  datatype Reference = Reference(reference: Option<string>, display: Option<string>)

  function Ref(s: string): Reference {
    Reference(Some(s), None)
  }

  /** The reference string of an optional reference. */
  function RefOf(r: Option<Reference>): Option<string> {
    if r.Some? then r.value.reference else None
  }

  datatype Coding = Coding(system: string, code: string, display: string)

  datatype CodeableConcept = CodeableConcept(coding: Option<seq<Coding>>, text: Option<string>)

  datatype Period = Period(start: Option<Time>, end: Option<Time>)

  datatype EncounterLocation = EncounterLocation(location: Option<Reference>, status: Option<string>, period: Option<Period>)

  datatype EncounterParticipant = EncounterParticipant(individual: Reference, role: Coding)

  datatype Hospitalization = Hospitalization(admitSource: Option<CodeableConcept>, dischargeDisposition: Option<CodeableConcept>)

  datatype Diagnosis = Diagnosis(condition: Reference, use: Coding)

  datatype Encounter = Encounter(
    id: Option<string>,
    status: string,
    encounterClass: Option<Coding>,
    subject: Option<Reference>,
    location: Option<seq<EncounterLocation>>,
    period: Option<Period>,
    participant: Option<seq<EncounterParticipant>>,
    hospitalization: Option<Hospitalization>,
    appointment: Option<seq<Reference>>,
    diagnosis: Option<seq<Diagnosis>>)

  /** The start of the encounter's period, if any. */
  function StartOf(e: Encounter): Option<Time> {
    if e.period.Some? then e.period.value.start else None
  }

  /** The reference of the encounter's first location entry: the bed the code treats as current. */
  function FirstLocationRef(e: Encounter): Option<string> {
    if e.location.Some? && |e.location.value| > 0 && e.location.value[0].location.Some?
    then e.location.value[0].location.value.reference
    else None
  }

  datatype Location = Location(
    id: Option<string>,
    name: Option<string>,
    status: Option<string>,
    operationalStatus: Option<Coding>,
    locationType: Option<seq<CodeableConcept>>,
    physicalType: Option<CodeableConcept>,
    partOf: Option<Reference>)

  /** The code of a bed's operational status, if any. */
  function OperationalCode(bed: Location): Option<string> {
    if bed.operationalStatus.Some? then Some(bed.operationalStatus.value.code) else None
  }

  /** HL7 Version 2 table 0116 (Bed Status), as the demo writes it. */
  const BedStatusSystem := "http://terminology.hl7.org/CodeSystem/v2-0116"
  const Occupied := Coding(BedStatusSystem, "O", "Occupied")
  const Cleaning := Coding(BedStatusSystem, "C", "Cleaning")
  const Unoccupied := Coding(BedStatusSystem, "U", "Unoccupied")

  /** A patient or practitioner as the demo's pickers hold it; `displayText` stands for the
      library's display string of the resource. */
  datatype Person = Person(id: Option<string>, displayText: Option<string>)

  /** `createReference(resource)`: the literal `Type/id` with the resource's display string. */
  function CreateReference(resourceType: string, p: Person): Reference {
    Reference(Some(RefString(resourceType, p.id)), p.displayText)
  }

  datatype AppointmentParticipant = AppointmentParticipant(actor: Option<Reference>, status: string)

  datatype Appointment = Appointment(
    id: Option<string>,
    status: string,
    start: Option<string>,
    end: Option<string>,
    participant: Option<seq<AppointmentParticipant>>)

  datatype Observation = Observation(
    id: Option<string>,
    status: string,
    category: Option<string>,
    code: Option<CodeableConcept>,
    subject: Option<Reference>,
    encounter: Option<Reference>,
    effective: Option<Time>,
    value: Option<real>,
    interpretation: Option<string>)

  datatype DiagnosticReport = DiagnosticReport(
    id: Option<string>,
    status: string,
    subject: Option<Reference>,
    code: Option<CodeableConcept>,
    encounter: Option<Reference>,
    effective: Option<Time>,
    performer: Option<seq<Reference>>,
    result: Option<seq<Reference>>,
    conclusion: Option<string>)

  datatype ServiceRequest = ServiceRequest(
    id: Option<string>,
    status: string,
    subject: Option<Reference>,
    code: Option<CodeableConcept>,
    encounter: Option<Reference>,
    authoredOn: Option<Time>,
    performer: Option<seq<Reference>>,
    requester: Option<Reference>,
    intent: string,
    priority: string,
    doNotPerform: Option<bool>,
    patientInstruction: Option<string>,
    insurance: Option<seq<Reference>>)

  datatype MedicationRequest = MedicationRequest(
    id: Option<string>,
    status: string,
    subject: Option<Reference>,
    encounter: Option<Reference>,
    medication: Option<CodeableConcept>,
    authoredOn: Option<Time>,
    requester: Option<Reference>)

  datatype Condition = Condition(
    id: string,
    clinicalStatus: string,
    code: CodeableConcept,
    subject: Reference,
    onset: Time,
    recorder: Reference)

  datatype Procedure = Procedure(
    id: string,
    code: CodeableConcept,
    subject: Option<Reference>,
    encounter: Reference,
    performed: Time,
    performer: Reference,
    location: Option<Reference>)

  datatype Coverage = Coverage(
    id: Option<string>,
    status: string,
    subscriber: Option<Reference>,
    beneficiary: Option<Reference>,
    payor: seq<Reference>)

  datatype Organization = Organization(id: Option<string>, name: Option<string>, partOf: Option<Reference>)

  /** A catalogue row of the generators (code, display, text). */
  datatype CatalogEntry = CatalogEntry(code: string, display: string, text: string)
}
