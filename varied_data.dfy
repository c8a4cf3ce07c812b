/** The varied-data generator of the mock-JSON package: one to three service requests per
    patient, diagnostic reports derived from a prefix of those requests, and a merge that
    fills practitioners' missing fields. Random choices, dates and UUIDs are oracles. */
module VariedData {
  import opened Fhir
  import PatientTimeline
  import Lists

  /** What a random draw decides; every draw is keyed by its purpose and two positions. */
  datatype Pick =
    | RequestCount | Test | Requester | Priority | Intent | Status | Instruction
    | DoNotPerform | Insurance | RequestId | CoverageId
    | FallbackTest | Days | Conclusion | HasResult | ReportId | ObservationId
    | Specialization | Gender | LanguageCount

  datatype Draws = Draws(
    pick: (Pick, nat, nat) -> nat,
    roll: (Pick, nat, nat) -> bool,
    uuid: (Pick, nat, nat) -> string,
    authored: (nat, nat) -> nat,
    languages: nat -> seq<nat>)

  // ---------------------------------------------------------------------
  // Catalogues

  const Loinc := "http://loinc.org"

  /** The LOINC test catalogue of the script. The generator functions take the catalogue as
      a parameter; this is the value the script passes. */
  const MedicalTests: seq<CatalogEntry> := [
    CatalogEntry("24356-8", "Complete Blood Count", "CBC"),
    CatalogEntry("24323-8", "Comprehensive Metabolic Panel", "CMP"),
    CatalogEntry("24320-4", "Basic Metabolic Panel", "BMP"),
    CatalogEntry("24357-6", "Lipid Panel", "Lipid Panel"),
    CatalogEntry("24359-2", "Liver Function Panel", "LFT"),
    CatalogEntry("24325-3", "Thyroid Stimulating Hormone", "TSH"),
    CatalogEntry("2339-0", "Glucose [Mass/volume] in Blood", "Blood Glucose"),
    CatalogEntry("718-7", "Hemoglobin [Mass/volume] in Blood", "Hemoglobin"),
    CatalogEntry("777-3", "Platelets [#/volume] in Blood", "Platelet Count"),
    CatalogEntry("26449-9", "Hemoglobin A1c/Hemoglobin.total in Blood", "HbA1c"),
    CatalogEntry("2093-3", "Cholesterol [Mass/volume] in Serum or Plasma", "Total Cholesterol"),
    CatalogEntry("2085-9", "Cholesterol in HDL [Mass/volume] in Serum or Plasma", "HDL Cholesterol"),
    CatalogEntry("2089-1", "Cholesterol in LDL [Mass/volume] in Serum or Plasma", "LDL Cholesterol"),
    CatalogEntry("2571-8", "Triglyceride [Mass/volume] in Serum or Plasma", "Triglycerides"),
    CatalogEntry("2160-0", "Creatinine [Mass/volume] in Serum or Plasma", "Creatinine"),
    CatalogEntry("33914-3", "Glomerular filtration rate/1.73 sq M.predicted", "eGFR"),
    CatalogEntry("5902-2", "Prothrombin time (PT)", "PT"),
    CatalogEntry("5900-6", "INR in Platelet poor plasma by Coagulation assay", "INR"),
    CatalogEntry("1920-8", "Aspartate aminotransferase [Enzymatic activity/volume] in Serum or Plasma", "AST"),
    CatalogEntry("2324-2", "Alanine aminotransferase [Enzymatic activity/volume] in Serum or Plasma", "ALT"),
    CatalogEntry("1975-2", "Bilirubin.total [Mass/volume] in Serum or Plasma", "Total Bilirubin"),
    CatalogEntry("1968-7", "Bilirubin.direct [Mass/volume] in Serum or Plasma", "Direct Bilirubin"),
    CatalogEntry("33914-3", "Vitamin D, 25-Hydroxy", "Vitamin D"),
    CatalogEntry("14647-2", "Chlamydia trachomatis [Presence] in Specimen by Organism specific culture", "Chlamydia Test"),
    CatalogEntry("49765-1", "Calcium [Mass/volume] in Blood", "Calcium"),
    CatalogEntry("2823-3", "Potassium [Moles/volume] in Serum or Plasma", "Potassium"),
    CatalogEntry("2951-2", "Sodium [Moles/volume] in Serum or Plasma", "Sodium"),
    CatalogEntry("33914-3", "C-Reactive Protein [Mass/volume] in Serum or Plasma", "CRP"),
    CatalogEntry("6598-7", "Troponin I.cardiac [Mass/volume] in Serum or Plasma", "Troponin I"),
    CatalogEntry("6599-5", "Troponin T.cardiac [Mass/volume] in Serum or Plasma", "Troponin T"),
    CatalogEntry("33747-0", "BNP [Mass/volume] in Serum or Plasma", "BNP")]

  datatype Specialty = Specialty(code: string, display: string, specialty: string)

  const Specializations: seq<Specialty> := [
    Specialty("MD", "Doctor of Medicine", "General Practice"),
    Specialty("MD", "Doctor of Medicine", "Cardiology"),
    Specialty("MD", "Doctor of Medicine", "Internal Medicine"),
    Specialty("MD", "Doctor of Medicine", "Pediatrics"),
    Specialty("MD", "Doctor of Medicine", "Orthopedics"),
    Specialty("MD", "Doctor of Medicine", "Dermatology"),
    Specialty("MD", "Doctor of Medicine", "Neurology"),
    Specialty("MD", "Doctor of Medicine", "Oncology"),
    Specialty("MD", "Doctor of Medicine", "Psychiatry"),
    Specialty("MD", "Doctor of Medicine", "Endocrinology"),
    Specialty("MD", "Doctor of Medicine", "Gastroenterology"),
    Specialty("MD", "Doctor of Medicine", "Pulmonology"),
    Specialty("RN", "Registered Nurse", "General Nursing"),
    Specialty("NP", "Nurse Practitioner", "Family Practice"),
    Specialty("PA", "Physician Assistant", "General Practice")]

  const Priorities: seq<string> := ["routine", "urgent", "asap", "stat"]
  const Intents: seq<string> := ["order", "original-order", "reflex-order", "filler-order", "instance-order"]
  const Statuses: seq<string> := ["active", "completed", "on-hold", "revoked"]

  /** The last entry is `null`: some requests carry no instruction. */
  const PatientInstructions: seq<Option<string>> := [
    Some("Fast for 12 hours before the test"),
    Some("No special preparation required"),
    Some("Take medication as usual"),
    Some("Avoid strenuous exercise 24 hours before test"),
    Some("Drink plenty of water before the test"),
    Some("Bring a list of current medications"),
    Some("Wear comfortable clothing"),
    None]

  const Conclusions: seq<string> := [
    "Results are within normal limits.",
    "Mild elevation noted, recommend follow-up.",
    "Abnormal values detected, further investigation recommended.",
    "All parameters within expected range.",
    "Slight deviation from normal, clinical correlation recommended.",
    "Significant findings, immediate clinical attention advised."]

  const Languages: seq<Coding> := [
    Coding("urn:ietf:bcp:47", "en", "English"),
    Coding("urn:ietf:bcp:47", "hi", "Hindi"),
    Coding("urn:ietf:bcp:47", "es", "Spanish"),
    Coding("urn:ietf:bcp:47", "fr", "French")]

  const FallbackOrganizationId := "34c95d53-17b0-4985-855e-5db90d67c161"
  const YearMs: int := 365 * DayMs

  /** `getRandomItem` over ids that may be undefined, as a template literal prints it. */
  function PickedId(ids: seq<Option<string>>, r: nat): string {
    if |ids| == 0 then "undefined" else IdText(ids[r % |ids|])
  }

  // ---------------------------------------------------------------------
  // Catalogue lookup

  /** The first catalogue row with the code, searching from position `from`. */
  function FindTestFrom(tests: seq<CatalogEntry>, code: string, from: nat): (r: Option<nat>)
    requires from <= |tests|
    ensures r.Some? ==> from <= r.value < |tests| && tests[r.value].code == code
                        && forall j :: from <= j < r.value ==> tests[j].code != code
    ensures r.None? ==> forall j :: from <= j < |tests| ==> tests[j].code != code
    decreases |tests| - from
  {
    if from == |tests| then None
    else if tests[from].code == code then Some(from)
    else FindTestFrom(tests, code, from + 1)
  }

  /** The first catalogue row with the given code, if any. */
  function FindTest(tests: seq<CatalogEntry>, code: string): (r: Option<nat>)
    ensures r.Some? ==> r.value < |tests| && tests[r.value].code == code
                        && forall j :: 0 <= j < r.value ==> tests[j].code != code
    ensures r.None? <==> forall j :: 0 <= j < |tests| ==> tests[j].code != code
  {
    FindTestFrom(tests, code, 0)
  }

  /** The lookup finds every code the catalogue holds. */
  lemma FindTestFindsMembers(tests: seq<CatalogEntry>, k: nat)
    requires k < |tests|
    ensures FindTest(tests, tests[k].code).Some?
    ensures tests[FindTest(tests, tests[k].code).value].code == tests[k].code
  {
  }

  /** A row is the first match when every earlier code differs in its first character. */
  lemma FirstMatch(tests: seq<CatalogEntry>, code: string, i: nat)
    requires i < |tests| && tests[i].code == code && |code| > 0
    requires forall j :: 0 <= j < i ==> |tests[j].code| == 0 || tests[j].code[0] != code[0]
    ensures FindTest(tests, code) == Some(i)
  {
    assert forall j :: 0 <= j < i ==> tests[j].code != code;
  }

  /** No code in rows 0 to 14 begins with '3'. */
  lemma EarlyCodesAvoidThree()
    ensures forall j :: 0 <= j < 15 ==> MedicalTests[j].code[0] != '3'
  {
  }

  /** The lookup of '33914-3' in the script's catalogue returns row 15, the eGFR row. */
  lemma DuplicateCodeResolvesToEgfr()
    ensures FindTest(MedicalTests, "33914-3") == Some(15) && MedicalTests[15].text == "eGFR"
  {
    EgfrRow();
    EarlyCodesAvoidThree();
    FirstMatch(MedicalTests, "33914-3", 15);
  }

  /** Row 15 is the eGFR row, under '33914-3'. */
  lemma EgfrRow()
    ensures |MedicalTests| > 15 && MedicalTests[15].code == "33914-3" && MedicalTests[15].text == "eGFR"
  {
  }

  /** '33914-3' appears three times in the catalogue, on the eGFR, Vitamin D and CRP rows, so
      a Vitamin D or CRP request is reported as eGFR. */
  lemma VitaminDAndCrpShareTheEgfrCode()
    ensures MedicalTests[22].code == "33914-3" && MedicalTests[22].text == "Vitamin D"
    ensures MedicalTests[27].code == "33914-3" && MedicalTests[27].text == "CRP"
  {
  }

  // ---------------------------------------------------------------------
  // Service requests

  /** What the request and report loops read besides the patients: the test catalogue
      (`MedicalTests` in the script), the practitioner ids, the organisation id, the clock and
      the random draws. */
  datatype Script = Script(
    tests: seq<CatalogEntry>,
    practitionerIds: seq<Option<string>>,
    orgId: string,
    now: Time,
    draws: Draws)

  /** The script's own run: the first organisation's id, or the fixed fallback. */
  function ScriptFor(practitionerIds: seq<Option<string>>, organizationIds: seq<Option<string>>, now: Time, draws: Draws): (sc: Script)
    ensures |sc.tests| > 0
  {
    Script(MedicalTests, practitionerIds, OrElse(if |organizationIds| > 0 then organizationIds[0] else None, FallbackOrganizationId), now, draws)
  }

  /** The random `authoredOn`: some instant in the year before `now`. */
  function AuthoredAt(sc: Script, p: nat, i: nat): (t: Time)
    ensures sc.now - YearMs <= t < sc.now
  {
    sc.now - YearMs + sc.draws.authored(p, i) % YearMs
  }

  /** Request `i` of patient `p`. */
  function MakeRequest(sc: Script, p: nat, i: nat, patient: Person): ServiceRequest
    requires |sc.tests| > 0
  {
    var draws := sc.draws;
    var test := sc.tests[draws.pick(Test, p, i) % |sc.tests|];
    ServiceRequest(
      Some(draws.uuid(RequestId, p, i)),
      Statuses[draws.pick(Status, p, i) % |Statuses|],
      Some(Ref("Patient/" + IdText(patient.id))),
      Some(CodeableConcept(Some([Coding(Loinc, test.code, test.display)]), Some(test.text))),
      None,
      Some(AuthoredAt(sc, p, i)),
      Some([Ref("Organization/" + sc.orgId)]),
      Some(Ref("Practitioner/" + PickedId(sc.practitionerIds, draws.pick(Requester, p, i)))),
      Intents[draws.pick(Intent, p, i) % |Intents|],
      Priorities[draws.pick(Priority, p, i) % |Priorities|],
      if draws.roll(DoNotPerform, p, i) then Some(true) else None,
      PatientInstructions[draws.pick(Instruction, p, i) % |PatientInstructions|],
      if draws.roll(Insurance, p, i) then Some([Ref("Coverage/" + draws.uuid(CoverageId, p, i))]) else None)
  }

  /** The number of requests of patient `p`: one to three. */
  function RequestCountOf(sc: Script, p: nat): (n: nat)
    ensures 1 <= n <= 3
  {
    sc.draws.pick(RequestCount, p, 0) % 3 + 1
  }

  function RequestsFor(sc: Script, p: nat, patient: Person): seq<ServiceRequest>
    requires |sc.tests| > 0
  {
    seq(RequestCountOf(sc, p), i requires 0 <= i => MakeRequest(sc, p, i, patient))
  }

  function AllServiceRequests(sc: Script, patients: seq<Person>): seq<ServiceRequest>
    requires |sc.tests| > 0
  {
    if patients == [] then []
    else
      var p := |patients| - 1;
      AllServiceRequests(sc, patients[..p]) + RequestsFor(sc, p, patients[p])
  }

  /** The shape every generated request has, and that report derivation relies on. */
  predicate WellFormedRequest(sr: ServiceRequest) {
    && sr.subject.Some?
    && sr.code.Some? && sr.code.value.coding.Some? && |sr.code.value.coding.value| > 0
    && sr.authoredOn.Some?
  }

  /** A generated request is about its patient, performed by the organisation, optional keys
      are present only with a meaningful value, its code is a catalogue code and it was
      authored in the year before `now`. */
  ghost predicate GeneratedFor(sc: Script, sr: ServiceRequest, patient: Person) {
    && WellFormedRequest(sr)
    && sr.subject == Some(Ref("Patient/" + IdText(patient.id)))
    && sr.performer == Some([Ref("Organization/" + sc.orgId)])
    && sr.doNotPerform != Some(false)
    && (sr.patientInstruction.Some? ==> sr.patientInstruction.value != "")
    && FindTest(sc.tests, sr.code.value.coding.value[0].code).Some?
    && sc.now - YearMs <= sr.authoredOn.value < sc.now
  }

  lemma MakeRequestShape(sc: Script, p: nat, i: nat, patient: Person)
    requires |sc.tests| > 0
    ensures GeneratedFor(sc, MakeRequest(sc, p, i, patient), patient)
  {
    FindTestFindsMembers(sc.tests, sc.draws.pick(Test, p, i) % |sc.tests|);
  }

  /** Each patient contributes one to three requests, every one of them generated for one
      of the patients. */
  lemma {:induction false} ServiceRequestsPerPatient(sc: Script, patients: seq<Person>)
    requires |sc.tests| > 0
    ensures var all := AllServiceRequests(sc, patients);
            && |patients| <= |all| <= 3 * |patients|
            && forall sr :: sr in all ==> exists patient :: patient in patients && GeneratedFor(sc, sr, patient)
  {
    if patients != [] {
      var p := |patients| - 1;
      ServiceRequestsPerPatient(sc, patients[..p]);
      var front := AllServiceRequests(sc, patients[..p]);
      var mine := RequestsFor(sc, p, patients[p]);
      RequestsForGenerated(sc, p, patients[p]);
      assert patients[p] in patients;
      forall sr | sr in front + mine
        ensures exists patient :: patient in patients && GeneratedFor(sc, sr, patient)
      {
        if sr !in mine {
          var patient :| patient in patients[..p] && GeneratedFor(sc, sr, patient);
          assert patient in patients;
        }
      }
    }
  }

  /** Every request of one patient is generated for that patient. */
  lemma RequestsForGenerated(sc: Script, p: nat, patient: Person)
    requires |sc.tests| > 0
    ensures forall sr :: sr in RequestsFor(sc, p, patient) ==> GeneratedFor(sc, sr, patient)
  {
    var mine := RequestsFor(sc, p, patient);
    forall sr | sr in mine
      ensures GeneratedFor(sc, sr, patient)
    {
      var i :| 0 <= i < |mine| && mine[i] == sr;
      MakeRequestShape(sc, p, i, patient);
    }
  }

  /** The requests of patient `p` sit right after those of the patients before it. */
  lemma {:induction false} RequestsOfPatient(sc: Script, patients: seq<Person>, p: nat)
    requires |sc.tests| > 0 && p < |patients|
    ensures var all := AllServiceRequests(sc, patients);
            var start := |AllServiceRequests(sc, patients[..p])|;
            start + RequestCountOf(sc, p) <= |all|
            && all[start..start + RequestCountOf(sc, p)] == RequestsFor(sc, p, patients[p])
  {
    var n := |patients| - 1;
    var front := AllServiceRequests(sc, patients[..n]);
    var last := RequestsFor(sc, n, patients[n]);
    assert AllServiceRequests(sc, patients) == front + last;
    if p < n {
      RequestsOfPatient(sc, patients[..n], p);
      assert patients[..n][..p] == patients[..p];
      var start := |AllServiceRequests(sc, patients[..p])|;
      Lists.SliceOfFront(front, last, start, start + RequestCountOf(sc, p));
    } else {
      Lists.SliceOfBack(front, last);
    }
  }

  /** The request loop: for each patient, push its one to three requests. */
  method GenerateServiceRequests(sc: Script, patients: seq<Person>) returns (requests: seq<ServiceRequest>)
    requires |sc.tests| > 0
    ensures requests == AllServiceRequests(sc, patients)
  {
    requests := [];
    for p := 0 to |patients|
      invariant requests == AllServiceRequests(sc, patients[..p])
    {
      requests := PushRequests(requests, sc, p, patients[p]);
      AllServiceRequestsStep(sc, patients, p);
    }
    assert patients[..|patients|] == patients;
  }

  lemma AllServiceRequestsStep(sc: Script, patients: seq<Person>, p: nat)
    requires |sc.tests| > 0 && p < |patients|
    ensures AllServiceRequests(sc, patients[..p + 1]) == AllServiceRequests(sc, patients[..p]) + RequestsFor(sc, p, patients[p])
  {
    assert patients[..p + 1][..p] == patients[..p];
  }

  /** The inner loop: push the one to three requests of patient `p`. */
  method PushRequests(acc: seq<ServiceRequest>, sc: Script, p: nat, patient: Person) returns (requests: seq<ServiceRequest>)
    requires |sc.tests| > 0
    ensures requests == acc + RequestsFor(sc, p, patient)
  {
    ghost var mine := RequestsFor(sc, p, patient);
    var n := RequestCountOf(sc, p);
    assert |mine| == n;
    requests := acc;
    for i := 0 to n
      invariant requests == acc + mine[..i]
    {
      Lists.AppendAssociative(acc, mine[..i], [mine[i]]);
      requests := requests + [MakeRequest(sc, p, i, patient)];
      assert mine[..i + 1] == mine[..i] + [mine[i]];
    }
    assert mine[..n] == mine;
  }

  // ---------------------------------------------------------------------
  // Diagnostic reports

  /** The catalogue row a report uses: the first with the request's code, else a random one. */
  function ReportTest(sc: Script, k: nat, sr: ServiceRequest): (t: CatalogEntry)
    requires |sc.tests| > 0 && WellFormedRequest(sr)
    ensures t in sc.tests
    ensures var found := FindTest(sc.tests, sr.code.value.coding.value[0].code);
            found.Some? ==> t == sc.tests[found.value] && t.code == sr.code.value.coding.value[0].code
  {
    var found := FindTest(sc.tests, sr.code.value.coding.value[0].code);
    if found.Some? then sc.tests[found.value] else sc.tests[sc.draws.pick(FallbackTest, k, 0) % |sc.tests|]
  }

  /** The report for request `k`. */
  function MakeReport(sc: Script, k: nat, sr: ServiceRequest): DiagnosticReport
    requires |sc.tests| > 0 && WellFormedRequest(sr)
  {
    var draws := sc.draws;
    var test := ReportTest(sc, k, sr);
    DiagnosticReport(
      Some(draws.uuid(ReportId, k, 0)),
      "final",
      Some(Reference(sr.subject.value.reference, None)),
      Some(CodeableConcept(Some([Coding(Loinc, test.code, test.display)]), Some(test.text + " Report"))),
      None,
      Some(sr.authoredOn.value + (draws.pick(Days, k, 0) % 7 + 1) * DayMs),
      Some([Ref("Organization/" + sc.orgId)]),
      if draws.roll(HasResult, k, 0) then Some([Ref("Observation/" + draws.uuid(ObservationId, k, 0))]) else None,
      Some(Conclusions[draws.pick(Conclusion, k, 0) % |Conclusions|]))
  }

  /** The number of requests that get a report: four fifths of them, rounded down. */
  function ReportedPrefix(n: nat): (m: nat)
    ensures m <= n && (n > 0 ==> m < n)
  {
    (4 * n) / 5
  }

  function DiagnosticReports(sc: Script, requests: seq<ServiceRequest>): seq<DiagnosticReport>
    requires |sc.tests| > 0
    requires forall k :: 0 <= k < |requests| ==> WellFormedRequest(requests[k])
  {
    seq(ReportedPrefix(|requests|), k requires 0 <= k < ReportedPrefix(|requests|) => MakeReport(sc, k, requests[k]))
  }

  /** What a report keeps of its request: the subject reference, a catalogue test's text with
      " Report" appended, the request's own code and that row's display when the code is in
      the catalogue, and an effective time one to seven whole days after `authoredOn`. */
  ghost predicate ReportOfRequest(sc: Script, report: DiagnosticReport, sr: ServiceRequest)
    requires WellFormedRequest(sr)
  {
    var code := sr.code.value.coding.value[0].code;
    var found := FindTest(sc.tests, code);
    && report.subject.Some? && report.subject.value.reference == sr.subject.value.reference
    && report.code.Some? && report.code.value.text.Some?
    && (exists t :: t in sc.tests && report.code.value.text.value == t.text + " Report")
    && (found.Some? ==> report.code.value.coding == Some([Coding(Loinc, code, sc.tests[found.value].display)]))
    && report.effective.Some?
    && sr.authoredOn.value + DayMs <= report.effective.value <= sr.authoredOn.value + 7 * DayMs
  }

  lemma MakeReportFacts(sc: Script, k: nat, sr: ServiceRequest)
    requires |sc.tests| > 0 && WellFormedRequest(sr)
    ensures ReportOfRequest(sc, MakeReport(sc, k, sr), sr)
  {
    var report := MakeReport(sc, k, sr);
    var d := sc.draws.pick(Days, k, 0) % 7 + 1;
    assert d * DayMs <= 7 * DayMs;
    var t := ReportTest(sc, k, sr);
    assert report.code.value.text.value == t.text + " Report";
  }

  /** One report per request over the first four fifths of the requests, in the same order. */
  lemma ReportsFollowRequests(sc: Script, requests: seq<ServiceRequest>)
    requires |sc.tests| > 0
    requires forall k :: 0 <= k < |requests| ==> WellFormedRequest(requests[k])
    ensures var reports := DiagnosticReports(sc, requests);
            && |reports| == ReportedPrefix(|requests|)
            && forall k :: 0 <= k < |reports| ==> ReportOfRequest(sc, reports[k], requests[k])
  {
    var reports := DiagnosticReports(sc, requests);
    forall k | 0 <= k < |reports|
      ensures ReportOfRequest(sc, reports[k], requests[k])
    {
      MakeReportFacts(sc, k, requests[k]);
    }
  }

  /** A generated request always finds its own code in the catalogue, so its report carries
      the request's code; the random fallback is never used. */
  lemma GeneratedReportsKeepCodes(sc: Script, patients: seq<Person>)
    requires |sc.tests| > 0
    ensures var requests := AllServiceRequests(sc, patients);
            && (forall k :: 0 <= k < |requests| ==> WellFormedRequest(requests[k]))
            && var reports := DiagnosticReports(sc, requests);
               forall k :: 0 <= k < |reports| ==>
                 reports[k].code.Some? && reports[k].code.value.coding.Some?
                 && |reports[k].code.value.coding.value| == 1
                 && reports[k].code.value.coding.value[0].code == requests[k].code.value.coding.value[0].code
  {
    var requests := AllServiceRequests(sc, patients);
    ServiceRequestsPerPatient(sc, patients);
    forall k | 0 <= k < |requests|
      ensures WellFormedRequest(requests[k]) && FindTest(sc.tests, requests[k].code.value.coding.value[0].code).Some?
    {
      assert requests[k] in requests;
    }
    ReportsFollowRequests(sc, requests);
  }

  /** A report is titled after the first catalogue row with its request's code. */
  lemma ReportTitledByFirstMatch(sc: Script, k: nat, sr: ServiceRequest, i: nat)
    requires |sc.tests| > 0 && WellFormedRequest(sr)
    requires FindTest(sc.tests, sr.code.value.coding.value[0].code) == Some(i)
    ensures MakeReport(sc, k, sr).code.value.text == Some(sc.tests[i].text + " Report")
  {
    assert ReportTest(sc, k, sr) == sc.tests[i];
  }

  /** In the script's catalogue, a report for a Vitamin D or CRP request is titled
      "eGFR Report": the lookup by code stops at the first '33914-3' row. */
  lemma VitaminDReportedAsEgfr(sc: Script, k: nat, sr: ServiceRequest)
    requires sc.tests == MedicalTests && WellFormedRequest(sr)
    requires sr.code.value.coding.value[0].code == "33914-3"
    ensures MakeReport(sc, k, sr).code.value.text == Some(MedicalTests[15].text + " Report")
    ensures MedicalTests[15].text == "eGFR"
  {
    DuplicateCodeResolvesToEgfr();
    ReportTitledByFirstMatch(sc, k, sr, 15);
  }

  // ---------------------------------------------------------------------
  // Practitioner merge

  datatype Address = Address(line: seq<string>, city: string, state: string, postalCode: string, country: string)
  datatype Qualification = Qualification(coding: seq<Coding>, specialty: Option<string>)
  datatype Practitioner = Practitioner(
    id: Option<string>,
    name: Option<string>,
    gender: Option<string>,
    address: Option<seq<Address>>,
    qualification: Option<seq<Qualification>>,
    communication: Option<seq<CodeableConcept>>)

  const QualificationSystem := "http://terminology.hl7.org/CodeSystem/v2-0360"

  /** The decimal text of a natural number. */
  function NatText(n: nat): string
    decreases n
  {
    var digit := ["0", "1", "2", "3", "4", "5", "6", "7", "8", "9"][n % 10];
    if n < 10 then digit else NatText(n / 10) + digit
  }

  function DefaultAddress(index: nat): Address {
    Address([NatText(200 + index) + " Medical Plaza"], "Delhi", "Delhi", "110001", "IN")
  }

  /** The random languages for a practitioner without any: one or two of the four. */
  function DefaultLanguages(index: nat, draws: Draws): seq<Coding>
    requires PatientTimeline.IsPermutation(draws.languages(index), |Languages|)
  {
    PatientTimeline.RandomItems(Languages, draws.pick(LanguageCount, index, 0) % 2 + 1, draws.languages(index))
  }

  function MergePractitioner(pract: Practitioner, index: nat, draws: Draws): Practitioner
    requires PatientTimeline.IsPermutation(draws.languages(index), |Languages|)
  {
    var s := Specializations[draws.pick(Specialization, index, 0) % |Specializations|];
    pract.(
      gender := Some(OrElse(pract.gender, if draws.roll(Gender, index, 0) then "male" else "female")),
      address := if pract.address.Some? then pract.address else Some([DefaultAddress(index)]),
      qualification := Some([Qualification([Coding(QualificationSystem, s.code, s.display)], if s.specialty != "" then Some(s.specialty) else None)]),
      communication := if pract.communication.Some? then pract.communication
                       else Some([CodeableConcept(Some(DefaultLanguages(index, draws)), None)]))
  }

  ghost predicate FairLanguageDraws(draws: Draws, n: nat) {
    forall i :: 0 <= i < n ==> PatientTimeline.IsPermutation(draws.languages(i), |Languages|)
  }

  function UpdatedPractitioners(practitioners: seq<Practitioner>, draws: Draws): seq<Practitioner>
    requires FairLanguageDraws(draws, |practitioners|)
  {
    seq(|practitioners|, i requires 0 <= i < |practitioners| => MergePractitioner(practitioners[i], i, draws))
  }

  /** Practitioners keep count, order, id and name; a truthy gender, an address and a
      communication list survive; a missing gender is male or female, a missing address the
      numbered Medical Plaza address, and a missing communication list one or two distinct
      languages of the four; the qualification is always replaced by a single specialised entry. */
  lemma PractitionerMergeKeepsFields(practitioners: seq<Practitioner>, draws: Draws)
    requires FairLanguageDraws(draws, |practitioners|)
    ensures var out := UpdatedPractitioners(practitioners, draws);
            && |out| == |practitioners|
            && forall i :: 0 <= i < |out| ==>
                 var (before, after) := (practitioners[i], out[i]);
                 && after.id == before.id && after.name == before.name
                 && (Truthy(before.gender) ==> after.gender == before.gender)
                 && (!Truthy(before.gender) ==> after.gender == Some("male") || after.gender == Some("female"))
                 && (before.address.Some? ==> after.address == before.address)
                 && (before.address.None? ==> after.address == Some([DefaultAddress(i)]))
                 && (before.communication.Some? ==> after.communication == before.communication)
                 && after.communication.Some?
                 && (before.communication.None? ==>
                       |after.communication.value| == 1 && after.communication.value[0].coding.Some?
                       && var langs := after.communication.value[0].coding.value;
                          && 1 <= |langs| <= 2
                          && (forall c :: c in langs ==> c in Languages)
                          && (forall a, b :: 0 <= a < b < |langs| ==> langs[a] != langs[b]))
                 && after.qualification.Some? && |after.qualification.value| == 1
                 && after.qualification.value[0].specialty.Some?
  {
    assert forall a, b :: 0 <= a < b < |Languages| ==> Languages[a] != Languages[b];
    forall i | 0 <= i < |practitioners|
      ensures var langs := DefaultLanguages(i, draws);
              forall a, b :: 0 <= a < b < |langs| ==> langs[a] != langs[b]
    {
      PatientTimeline.RandomItemsDistinct(Languages, draws.pick(LanguageCount, i, 0) % 2 + 1, draws.languages(i));
    }
  }
}
