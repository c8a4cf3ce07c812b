# Medplum mock data, seeding and hospital demo — a Dafny model

This project models the data-handling core of the Medplum repository in Dafny and proves
properties of that model. It covers three groups of code:

- **Server-side maintenance scripts.**
  - `seed-mock-data` loads the mock FHIR JSON files into a project. It normalises ids to
    UUIDs and stamps the target project into `meta`. It fills in missing reference displays
    through a display cache. Each resource is then upserted, with a created, updated or
    error counter incremented.
  - `remove-duplicate-organizations` groups organisations by name and keeps the least id of
    each group. It deletes the other ids.
- **Mock-data generators.**
  - `generate-patient-timeline-data` builds the patient-to-encounters index and links
    appointments, observations, reports, service requests and medication requests to
    encounters. It generates conditions, procedures, vitals, labs and medication requests,
    and attaches diagnoses.
  - `generate-missing-resources` creates one Observation per referenced report result and
    one Coverage per referenced insurance. It labels the references and adds five
    organisations: three hospital branches, a laboratory and a pharmacy.
  - `generate-varied-data` creates service requests and reports from the test catalogue,
    and fills in practitioner defaults.
- **The app's search defaults and the hospital demo's handlers.**
  - `HomePage.utils` fills a search request's missing parts from local storage and the user
    configuration.
  - The hospital demo's bed-management, admission, transfer, discharge, assignment,
    appointment and OPD pages change a FHIR store through these handlers.

## How the model is organised

- `fhir.dfy` holds the FHIR values shared by all modules, and `lists.dfy` holds the
  filtering lemmas.
- `hospital_store.dfy` holds the hospital demo's FHIR store: a class whose state is a `Db`
  of beds, encounters and appointments.
- Every other file is one source file.
- Code that works step by step is a class or a method with loops and invariants:
  - the seeder, the de-duplication run and the generators;
  - the dialogs and pages of the hospital demo.
- Each such method is proved against a specification function, and the properties are
  proved about that function.
- Randomness is an oracle parameter indexed by position (`Dice`, `Draws`, a permutation for
  `getRandomItems`).
- Store writes that the server may refuse are a `failAt` index (the first write that
  throws) or sets of refused keys.
- The hospital handlers are each a pure function `(Db, Outcome)` of the old store. The
  handler method's contract is equality with that function, and the lemmas describe the
  completed write.

## Model

| member | source | states |
|---|---|---|
| SeedMockData.SetDisplayKeepsReference | packages/server/src/seeds/mock-data.ts:43 | setting a display keeps the reference text and gives a display exactly when the text is non-empty |
| SeedMockData.ResolveFacts | packages/server/src/seeds/mock-data.ts:21-66 | the recursive walk only adds displays, only extends the cache, and with a consistent cache leaves every reference settled and the cache consistent |
| SeedMockData.ResolveItemsFacts | packages/server/src/seeds/mock-data.ts:53-56 | array elements are walked one to one, keeping length and order, with the same guarantees per element |
| SeedMockData.ResolveMembersFacts | packages/server/src/seeds/mock-data.ts:57-63 | object members keep their keys and order and each value is walked with the same guarantees |
| SeedMockData.SettledIsFixed | packages/server/src/seeds/mock-data.ts:22-64 | a value whose references are all settled comes back unchanged, cache included |
| SeedMockData.ResolveIdempotent | packages/server/src/seeds/mock-data.ts:21-66 | walking the walked value again with the new cache changes nothing |
| SeedMockData.ResolvedReferenceShowsTarget | packages/server/src/seeds/mock-data.ts:29-46 | a reference without display whose target exists with a usable display gets that display and is cached |
| SeedMockData.UnresolvableReferenceUnchanged | packages/server/src/seeds/mock-data.ts:37-51 | a reference whose target is missing, or whose display is empty or equal to the reference, is left as it is |
| SeedMockData.ListedProjects | packages/server/src/seeds/mock-data.ts:94-96 | exactly the present entries with a truthy id are kept, never more than were listed |
| SeedMockData.ListedProjectsAppend | packages/server/src/seeds/mock-data.ts:94-96 | listing distributes over concatenation, so the kept projects stay in search order |
| SeedMockData.FindFirst | packages/server/src/seeds/mock-data.ts:101 | the index found is the first that satisfies the predicate; none is found exactly when no project does |
| SeedMockData.TargetProjectChoice | packages/server/src/seeds/mock-data.ts:94-121 | the first user project is chosen, else the first project other than the R4 one, else none; the choice is never empty and never the R4 project |
| SeedMockData.NoneWithoutNonR4 | packages/server/src/seeds/mock-data.ts:94-121 | with no project other than the R4 one, no target is chosen |
| SeedMockData.NormalizeIdFacts | packages/server/src/seeds/mock-data.ts:164-175 | the id written is always UUID-shaped, a UUID id is kept, and normalising twice changes nothing |
| SeedMockData.StampProjectFacts | packages/server/src/seeds/mock-data.ts:178-183 | a non-Project resource gets the target project with its other meta kept; without a target or for a Project nothing changes; stamping is idempotent and touches only meta |
| SeedMockData.ExactlyOneCounter | packages/server/src/seeds/mock-data.ts:219-244 | each resource moves exactly one of the created, updated and error counters, and by one |
| SeedMockData.UpsertOutcome | packages/server/src/seeds/mock-data.ts:188-236 | only the resource's own key changes; an accepted write stores the prepared resource; an accepted create or delete-then-create adds one to created, an accepted update adds one to updated, and a refused write (a create on the create paths, an update otherwise) adds one to errors, each with the other counters unchanged; a refused write leaves the key deleted only on the create paths |
| SeedMockData.CrossProjectConflict | packages/server/src/seeds/mock-data.ts:194-231 | a resource held by another project is deleted and re-created in the target project; when the delete fails it is updated in place; a failed re-create loses it |
| SeedMockData.Seeder.constructor | packages/server/src/seeds/mock-data.ts:139-141 | a seeder starts with an empty cache, zero counters and no file visited |
| SeedMockData.Seeder.ProcessValue | packages/server/src/seeds/mock-data.ts:22-64 | the in-place walk returns the value and leaves the cache exactly as the recursive walk does |
| SeedMockData.Seeder.Prepare | packages/server/src/seeds/mock-data.ts:163-186 | id normalisation, project stamping and the reference walk leave the resource and state of the prepared step |
| SeedMockData.Seeder.Write | packages/server/src/seeds/mock-data.ts:188-236 | the create, update or delete-then-create sequence leaves the store and counters of the upsert |
| SeedMockData.Seeder.SeedResource | packages/server/src/seeds/mock-data.ts:161-245 | one resource is one seeding step |
| SeedMockData.Seeder.SeedFile | packages/server/src/seeds/mock-data.ts:143-251 | the new state is the file's step: a missing file or a non-array changes nothing, an unreadable file counts one error, an array seeds its resources in order; the counters grow by one per resource |
| SeedMockData.SeedItemsAppend | packages/server/src/seeds/mock-data.ts:161-244 | seeding two lists of resources one after the other is seeding their concatenation |
| SeedMockData.SeedItemsCounts | packages/server/src/seeds/mock-data.ts:161-244 | seeding a list of resources grows the counters by one per resource, none going down |
| SeedMockData.Seeder.SeedAll | packages/server/src/seeds/mock-data.ts:127-252 | the new state is that of the files' steps in import order, the files are visited in that order, and the counters grow by the total work |
| SeedMockData.RunStepsCounts | packages/server/src/seeds/mock-data.ts:143-252 | a run grows the sum of the counters by its files' work, none going down |
| SeedMockData.EmptyRunChangesNothing | packages/server/src/seeds/mock-data.ts:143-147 | when no file exists a run changes nothing |
| RemoveDuplicateOrganizations.Listed | packages/server/src/remove-duplicate-organizations.ts:31-33 | exactly the organisations of the search with a truthy id |
| RemoveDuplicateOrganizations.GroupMembers | packages/server/src/remove-duplicate-organizations.ts:37-46 | the groups are exactly the non-empty names that have ids, each once, holding the ids of that name in search order; unnamed organisations are in no group |
| RemoveDuplicateOrganizations.GroupFlatten | packages/server/src/remove-duplicate-organizations.ts:37-46 | the groups together hold exactly the ids of the named organisations |
| RemoveDuplicateOrganizations.GroupByName | packages/server/src/remove-duplicate-organizations.ts:37-46 | the grouping loop builds the names and the map of the grouping function |
| RemoveDuplicateOrganizations.Sort | packages/server/src/remove-duplicate-organizations.ts:53 | sorting a group's ids is a permutation |
| RemoveDuplicateOrganizations.SortSorted | packages/server/src/remove-duplicate-organizations.ts:53 | under a total preorder the sorted ids are in order |
| RemoveDuplicateOrganizations.MarksAndKept | packages/server/src/remove-duplicate-organizations.ts:48-62 | the ids marked plus the ids kept are exactly the grouped ids, and one id is kept per name |
| RemoveDuplicateOrganizations.MarkedComeFromDuplicates | packages/server/src/remove-duplicate-organizations.ts:50-60 | every marked id belongs to a group with more than one member |
| RemoveDuplicateOrganizations.MarkDuplicates | packages/server/src/remove-duplicate-organizations.ts:48-62 | the marking loop produces the marked list |
| RemoveDuplicateOrganizations.MarkedCount | packages/server/src/remove-duplicate-organizations.ts:37-62 | the number marked is the number of named organisations less the number of distinct names |
| RemoveDuplicateOrganizations.SplitMarkedKept | packages/server/src/remove-duplicate-organizations.ts:48-62 | the marked ids and the kept ids together are the named ids, one kept id per name |
| RemoveDuplicateOrganizations.KeptIdListed | packages/server/src/remove-duplicate-organizations.ts:52-54 | the id kept for a grouped name is among the kept ids |
| RemoveDuplicateOrganizations.KeptIsLeast | packages/server/src/remove-duplicate-organizations.ts:52-54 | the id kept for a name is one of its ids and precedes all others in the comparison |
| RemoveDuplicateOrganizations.KeptNeverMarked | packages/server/src/remove-duplicate-organizations.ts:53-60 | with distinct ids the kept id of a name is never deleted |
| RemoveDuplicateOrganizations.MarkedAreNamed | packages/server/src/remove-duplicate-organizations.ts:38-46 | only ids of named organisations are marked, each at most as often as it occurs |
| RemoveDuplicateOrganizations.UnnamedNeverMarked | packages/server/src/remove-duplicate-organizations.ts:39-40 | an organisation without a name is never deleted |
| RemoveDuplicateOrganizations.MarkedShareAName | packages/server/src/remove-duplicate-organizations.ts:49-60 | every marked id shares its name with at least one other organisation |
| RemoveDuplicateOrganizations.DeleteAll | packages/server/src/remove-duplicate-organizations.ts:66-76 | the deleted count is the number of deletes that succeed and the two counts add up to the ids marked |
| RemoveDuplicateOrganizations.PruneDuplicates | packages/server/src/remove-duplicate-organizations.ts:31-80 | the whole run deletes exactly the marked ids and counts successes and errors |
| PatientTimeline.RandomItem | packages/mock-json/generate-patient-timeline-data.js:151-153 | an item of the array, present exactly when the array is non-empty |
| PatientTimeline.RandomItems | packages/mock-json/generate-patient-timeline-data.js:155-158 | as many items as asked but no more than there are, all from the array |
| PatientTimeline.RandomItemsDistinct | packages/mock-json/generate-patient-timeline-data.js:155-158 | a shuffle-and-slice of distinct items holds no repeats |
| PatientTimeline.VitalCatalogDistinct | packages/mock-json/generate-patient-timeline-data.js:67-90 | the vital-sign catalogue has eight different entries |
| PatientTimeline.VitalFlag | packages/mock-json/generate-patient-timeline-data.js:424-425 | a vital is flagged N inside its range and H outside it, also below it |
| PatientTimeline.LabFlag | packages/mock-json/generate-patient-timeline-data.js:490-501 | a lab value is N inside its range, H above it and L below it |
| PatientTimeline.BelowRangeFlags | packages/mock-json/generate-patient-timeline-data.js:424-425 | the two flags disagree exactly for values below the range, where vitals say H and labs say L |
| PatientTimeline.EncountersOfPatientFacts | packages/mock-json/generate-patient-timeline-data.js:176-185 | the positions listed for a patient are exactly that patient's encounters, in order |
| PatientTimeline.IndexIsSound | packages/mock-json/generate-patient-timeline-data.js:176-185 | an index built from the encounters points only at encounters of the right patient |
| PatientTimeline.BuildPatientEncounters | packages/mock-json/generate-patient-timeline-data.js:176-185 | the loop builds the patient-to-encounters index |
| PatientTimeline.PushEncounter | packages/mock-json/generate-patient-timeline-data.js:179-183 | the map afterwards lists the new position after the patient's earlier ones, other patients unchanged |
| PatientTimeline.SoundAfterEdit | packages/mock-json/generate-patient-timeline-data.js:176-185 | the index stays sound after edits that keep every encounter's subject |
| PatientTimeline.FirstPatientActor | packages/mock-json/generate-patient-timeline-data.js:190 | the actor found is a Patient reference, found exactly when one exists |
| PatientTimeline.LinkAppointments | packages/mock-json/generate-patient-timeline-data.js:189-204 | linking appointments keeps the number of encounters |
| PatientTimeline.LinkAppointmentsFacts | packages/mock-json/generate-patient-timeline-data.js:189-204 | only the appointment field changes; an encounter that had appointments keeps them; an encounter without any gets `[Appointment/<id>]` of the first appointment that chooses it; one that no appointment chooses is untouched; a changed one links to an appointment that chose it |
| PatientTimeline.LinkAppointmentsFirst | packages/mock-json/generate-patient-timeline-data.js:196-201 | for one encounter: without a list it gets the first choosing appointment's reference, which later choosers do not overwrite; never chosen, it is unchanged |
| PatientTimeline.AppointmentTargetSamePatient | packages/mock-json/generate-patient-timeline-data.js:189-204 | the encounter an appointment is linked to belongs to the appointment's patient |
| PatientTimeline.Timeline.LinkAppointmentsToEncounters | packages/mock-json/generate-patient-timeline-data.js:189-204 | the in-place loop leaves the encounters of the linking function and keeps the index valid |
| PatientTimeline.Timeline.AppointmentEncounter | packages/mock-json/generate-patient-timeline-data.js:190-198 | the encounter chosen for an appointment is the one the linking function chooses |
| PatientTimeline.ConditionsPerPatient | packages/mock-json/generate-patient-timeline-data.js:208-270 | each patient gets one to three conditions about that patient, active or resolved |
| PatientTimeline.ConditionCodesDiffer | packages/mock-json/generate-patient-timeline-data.js:208-270 | a patient's conditions have different codes |
| PatientTimeline.Timeline.GenerateConditions | packages/mock-json/generate-patient-timeline-data.js:208-270 | the loop produces every patient's conditions in patient order |
| PatientTimeline.Timeline.AddConditionsOfPatient | packages/mock-json/generate-patient-timeline-data.js:208-270 | one patient's conditions are appended |
| PatientTimeline.ProceduresFollowEncounters | packages/mock-json/generate-patient-timeline-data.js:274-310 | at most one procedure per encounter, about that encounter's subject, encounter and first location |
| PatientTimeline.Timeline.GenerateProcedures | packages/mock-json/generate-patient-timeline-data.js:274-310 | the loop produces the procedures of the generating function |
| PatientTimeline.VitalsPerEncounter | packages/mock-json/generate-patient-timeline-data.js:314-433 | two to four different vitals per encounter, one observation each and two for blood pressure, all about that encounter |
| PatientTimeline.ReadingsBound | packages/mock-json/generate-patient-timeline-data.js:314-433 | distinct vitals that read once, except one panel that reads twice, give between their count and their count plus one readings, the extra one only when the panel is among them |
| PatientTimeline.Timeline.GenerateVitals | packages/mock-json/generate-patient-timeline-data.js:314-433 | the loop produces every encounter's vitals in order |
| PatientTimeline.Timeline.AddVitalsOfEncounter | packages/mock-json/generate-patient-timeline-data.js:314-433 | one encounter's vitals are appended |
| PatientTimeline.Timeline.AddVital | packages/mock-json/generate-patient-timeline-data.js:314-433 | one vital's observations, one per component, are appended |
| PatientTimeline.LabsFor | packages/mock-json/generate-patient-timeline-data.js:437-509 | at most three laboratory observations per encounter, about that encounter |
| PatientTimeline.Timeline.GenerateLabs | packages/mock-json/generate-patient-timeline-data.js:437-509 | the loop produces every encounter's labs in order |
| PatientTimeline.Timeline.AddLabsOfEncounter | packages/mock-json/generate-patient-timeline-data.js:437-509 | one encounter's labs are appended |
| PatientTimeline.RandomEncounterLinkFacts | packages/mock-json/generate-patient-timeline-data.js:512-525 | an existing link is kept; a new one points to an encounter of the same patient; a patient with encounters always gets one |
| PatientTimeline.LinkObservations | packages/mock-json/generate-patient-timeline-data.js:512-525 | only the encounter field of each observation may change |
| PatientTimeline.Timeline.LinkObservationsToEncounters | packages/mock-json/generate-patient-timeline-data.js:512-525 | the in-place loop leaves the observations of the linking function |
| PatientTimeline.ClosestPosition | packages/mock-json/generate-patient-timeline-data.js:528-552 | the position of the encounter nearest in time, the first among equals |
| PatientTimeline.ClosestAmong | packages/mock-json/generate-patient-timeline-data.js:536-547 | among the first n candidates, a position nearest in time, strictly nearer than every earlier one |
| PatientTimeline.FindClosest | packages/mock-json/generate-patient-timeline-data.js:528-552 | the scan returns the nearest encounter |
| PatientTimeline.ClosestEncounterLinkFacts | packages/mock-json/generate-patient-timeline-data.js:528-552 | an existing link is kept; a missing one is always filled when the patient has encounters, with the patient's encounter nearest to the date, the first among equals |
| PatientTimeline.ListedEncounterOwner | packages/mock-json/generate-patient-timeline-data.js:176-185 | a position the sound index lists for a patient is an encounter of that patient |
| PatientTimeline.LinkReports | packages/mock-json/generate-patient-timeline-data.js:528-552 | only the encounter field of each report may change |
| PatientTimeline.Timeline.LinkReportsToEncounters | packages/mock-json/generate-patient-timeline-data.js:528-552 | the in-place loop leaves the reports of the linking function |
| PatientTimeline.LinkServiceRequests | packages/mock-json/generate-patient-timeline-data.js:555-579 | only the encounter field of each service request may change |
| PatientTimeline.Timeline.LinkServiceRequestsToEncounters | packages/mock-json/generate-patient-timeline-data.js:555-579 | the in-place loop leaves the service requests of the linking function |
| PatientTimeline.MedicationsFollowEncounters | packages/mock-json/generate-patient-timeline-data.js:583-635 | at most one medication request per encounter, about its subject and encounter, authored at its start |
| PatientTimeline.Timeline.GenerateMedicationRequests | packages/mock-json/generate-patient-timeline-data.js:583-635 | the loop produces the medication requests of the generating function |
| PatientTimeline.LinkMedications | packages/mock-json/generate-patient-timeline-data.js:638-650 | only the encounter field of each medication request may change |
| PatientTimeline.Timeline.LinkMedicationRequestsToEncounters | packages/mock-json/generate-patient-timeline-data.js:638-650 | the in-place loop leaves the medication requests of the linking function |
| PatientTimeline.PatientConditions | packages/mock-json/generate-patient-timeline-data.js:657 | exactly the conditions of the patient are kept |
| PatientTimeline.PatientConditionsAppend | packages/mock-json/generate-patient-timeline-data.js:657 | the selection distributes over concatenation, so the kept conditions stay in order |
| PatientTimeline.DiagnosesForFacts | packages/mock-json/generate-patient-timeline-data.js:653-678 | existing diagnoses are kept; new ones are one or two admission diagnoses of the patient's own conditions, without repeats; a patient with conditions always gets some |
| PatientTimeline.AttachDiagnoses | packages/mock-json/generate-patient-timeline-data.js:653-678 | only the diagnosis field of each encounter may change |
| PatientTimeline.Timeline.AttachEncounterDiagnoses | packages/mock-json/generate-patient-timeline-data.js:653-678 | the loop over the encounters rewrites each one in place, giving exactly the encounters of `AttachDiagnoses`, and keeps the index valid |
| PatientTimeline.Timeline.ObservationsFile | packages/mock-json/generate-patient-timeline-data.js:683-686 | the file holds exactly the old observations, then exactly the vitals, then exactly the labs |
| PatientTimeline.Timeline.MedicationRequestsFile | packages/mock-json/generate-patient-timeline-data.js:689-692 | the file holds the old medication requests followed by the new ones |
| MissingResources.ObservationPerReference | packages/mock-json/generate-missing-resources.js:17-67 | exactly one observation per distinct truthy result reference, in first-seen order, with the id taken from the reference's second segment |
| MissingResources.ObservationFromFirstCiter | packages/mock-json/generate-missing-resources.js:17-56 | each observation is built from the first report citing its reference, at that report's first result citing it: final status, that report's codings (else LOINC 00000-0 "Observation") and text, its subject, its time (else now), and that position's draws |
| MissingResources.AddResultsOrigin | packages/mock-json/generate-missing-resources.js:18-56 | one report adds observations only for references not seen before, each built from that report at its first result citing the reference, and every truthy result becomes a key |
| MissingResources.AddResultsFacts | packages/mock-json/generate-missing-resources.js:19-65 | one report adds observations only for its new references, keeping the earlier ones |
| MissingResources.LabelResult | packages/mock-json/generate-missing-resources.js:58-64 | a truthy result reference keeps its target and is labelled with the report's text and " Result"; any other is unchanged |
| MissingResources.LabelResults | packages/mock-json/generate-missing-resources.js:58-64 | every result reference of a report is labelled in place |
| MissingResources.LabelReport | packages/mock-json/generate-missing-resources.js:17-67 | only the result list of a report changes |
| MissingResources.NewCoverage | packages/mock-json/generate-missing-resources.js:90-114 | a new coverage names the payer drawn |
| MissingResources.CoveragePerReference | packages/mock-json/generate-missing-resources.js:73-126 | exactly one coverage per distinct truthy insurance reference, and every request keeps its references, now showing the payer of its coverage |
| MissingResources.LastRequestLabelled | packages/mock-json/generate-missing-resources.js:73-126 | handling one more request grows the run, adds only its new references and labels that request with its payers |
| MissingResources.InsuranceStepFacts | packages/mock-json/generate-missing-resources.js:75-124 | one insurance reference creates its coverage only when new, and shows that coverage's payer |
| MissingResources.AddInsuranceFacts | packages/mock-json/generate-missing-resources.js:75-124 | one request's references are all labelled with the payer of their coverage |
| MissingResources.SamePayer | packages/mock-json/generate-missing-resources.js:116-122 | two requests citing the same coverage show the same payer, one of the listed payers |
| MissingResources.MainOrganizationId | packages/mock-json/generate-missing-resources.js:129 | the first organisation's id when it has a truthy one, else the fixed fallback id |
| MissingResources.OrganizationsFile | packages/mock-json/generate-missing-resources.js:572-575 | the existing organisations followed by five organisations (three hospital branches, the Diagnostic Laboratory and the Pharmacy), each part of the main organisation |
| MissingResources.MissingResourceGenerator.constructor | packages/mock-json/generate-missing-resources.js:568-579 | the generator starts with no observations, no coverages and empty maps |
| MissingResources.MissingResourceGenerator.SynthesiseReportObservations | packages/mock-json/generate-missing-resources.js:17-67 | the loop over reports builds the observations of the synthesis function, keeps its map in step and labels every report |
| MissingResources.MissingResourceGenerator.AddReport | packages/mock-json/generate-missing-resources.js:17-66 | one report's pass adds its results to the run as the synthesis function does and labels only that report |
| MissingResources.MissingResourceGenerator.AddReportResults | packages/mock-json/generate-missing-resources.js:19-65 | one report's results are added and returned labelled |
| MissingResources.MissingResourceGenerator.SynthesiseRequestCoverages | packages/mock-json/generate-missing-resources.js:73-126 | the loop over requests builds the coverages and requests of the synthesis function |
| MissingResources.MissingResourceGenerator.AddRequestInsurance | packages/mock-json/generate-missing-resources.js:75-124 | one request's insurance is added and returned labelled |
| MissingResources.MissingResourceGenerator.Generate | packages/mock-json/generate-missing-resources.js:568-579 | the whole run produces the observations, reports, coverages, requests and organisations above |
| VariedData.FindTest | packages/mock-json/generate-varied-data.js:166 | the first catalogue test with the code, and none exactly when no test has it |
| VariedData.FindTestFindsMembers | packages/mock-json/generate-varied-data.js:166 | every catalogue code is found, as a test with that code |
| VariedData.FirstMatch | packages/mock-json/generate-varied-data.js:166 | a test whose code is the first to share its first character is the one found |
| VariedData.DuplicateCodeResolvesToEgfr | packages/mock-json/generate-varied-data.js:28 | code 33914-3 is found as the eGFR test |
| VariedData.VitaminDAndCrpShareTheEgfrCode | packages/mock-json/generate-varied-data.js:35-44 | the Vitamin D and CRP entries carry the same code 33914-3 |
| VariedData.AuthoredAt | packages/mock-json/generate-varied-data.js:121 | a request is authored within the year before now |
| VariedData.RequestCountOf | packages/mock-json/generate-varied-data.js:110 | each patient gets one to three requests |
| VariedData.ServiceRequestsPerPatient | packages/mock-json/generate-varied-data.js:108-162 | between one and three requests per patient, each for a listed patient with a catalogue code, performer and date in range |
| VariedData.RequestsForGenerated | packages/mock-json/generate-varied-data.js:108-162 | every request made for a patient is a generated request for that patient |
| VariedData.RequestsOfPatient | packages/mock-json/generate-varied-data.js:108-162 | one patient's requests sit together, in patient order |
| VariedData.GenerateServiceRequests | packages/mock-json/generate-varied-data.js:108-162 | the loop produces the requests of the generating function |
| VariedData.PushRequests | packages/mock-json/generate-varied-data.js:108-162 | one patient's requests are appended after the earlier ones |
| VariedData.ReportTest | packages/mock-json/generate-varied-data.js:166 | a report's test is from the catalogue, and is the first test with the request's code when there is one |
| VariedData.ReportedPrefix | packages/mock-json/generate-varied-data.js:165 | reports are made for a prefix of the requests that is shorter than all of them when there are any |
| VariedData.ReportsFollowRequests | packages/mock-json/generate-varied-data.js:165 | the k-th report is made from the k-th request |
| VariedData.GeneratedReportsKeepCodes | packages/mock-json/generate-varied-data.js:166-201 | each report carries exactly the code of its request |
| VariedData.ReportTitledByFirstMatch | packages/mock-json/generate-varied-data.js:166-201 | a report is titled by the first catalogue test with its code |
| VariedData.VitaminDReportedAsEgfr | packages/mock-json/generate-varied-data.js:166 | a Vitamin D or CRP request is reported under the eGFR title |
| VariedData.PractitionerMergeKeepsFields | packages/mock-json/generate-varied-data.js:226-280 | every practitioner keeps its place, id and name, a truthy gender, an address and a language list; a missing gender becomes male or female, a missing address the `200 + index` Medical Plaza address in Delhi, and a missing language list one or two distinct languages of the four; the qualification is always replaced by one specialised entry |
| HomePage.AddSearchValues | packages/app/src/HomePage.utils.ts:12-29 | every part the request has is kept, every missing part takes its default, and filters default only when the type was not given |
| HomePage.AddSearchValuesIdempotent | packages/app/src/HomePage.utils.ts:12-29 | filling the defaults twice equals filling them once |
| HomePage.DefaultResourceType | packages/app/src/HomePage.utils.ts:31-37 | the stored default type, else the configured option, else Patient |
| HomePage.FindOption | packages/app/src/HomePage.utils.ts:34 | the first configuration option with the default-type id, or none when there is none |
| HomePage.DefaultFields | packages/app/src/HomePage.utils.ts:39-131 | the last search's fields when present, else the columns for the type, else id and last updated |
| HomePage.DefaultFilters | packages/app/src/HomePage.utils.ts:133-135 | the last search's filters, none without a last search |
| HomePage.DefaultSortRules | packages/app/src/HomePage.utils.ts:137-143 | the last search's sort rules when present, else newest first |
| HomePage.LastSearch | packages/app/src/HomePage.utils.ts:145-148 | a saved search is read exactly when its key holds a non-empty value |
| HomePage.SaveThenLoad | packages/app/src/HomePage.utils.ts:150-153 | saving writes exactly two keys, and afterwards the default type and the last search of that type read back as saved |
| HomePage.LocalStorage.SaveLastSearch | packages/app/src/HomePage.utils.ts:150-153 | the two writes leave the storage of the save function |
| HomePage.TransactionSearch | packages/app/src/HomePage.utils.ts:155-167 | the export search fetches 1000 from offset 0 with an accurate total, no field list, and the filled-in resource type |
| HospitalStore.FindBed | examples/medplum-hospital-demo/src/components/ipd/TransferBedModal.tsx:105 | a bed found has the selected id and is among the beds offered; none is found exactly when no offered bed has that id |
| HospitalStore.JoinPatient | examples/medplum-hospital-demo/src/pages/OPDPage.tsx:47 | the first patient of the bundle whose reference text equals the subject reference, none when no patient matches |
| TransferBed.AvailableBeds | examples/medplum-hospital-demo/src/components/ipd/TransferBedModal.tsx:31-38 | the beds offered are exactly the loaded beds that are not occupied and are not the current bed |
| TransferBed.TransferBedModal.LoadAvailableBeds | examples/medplum-hospital-demo/src/components/ipd/TransferBedModal.tsx:31-42 | a successful search offers the available beds; a failed one leaves the list |
| TransferBed.Completed | examples/medplum-hospital-demo/src/components/ipd/TransferBedModal.tsx:75-84 | the first location becomes completed and ends now, keeping its location and start |
| TransferBed.TransferredLocations | examples/medplum-hospital-demo/src/components/ipd/TransferBedModal.tsx:63-84 | the history gains the new active bed at the end, the first entry is completed and the rest are kept |
| TransferBed.TransferKeepsCurrentBed | examples/medplum-hospital-demo/src/components/ipd/TransferBedModal.tsx:59-60 | after a transfer the first location, which the dialog treats as the current bed, is still the old one |
| TransferBed.SecondTransferSeesFirstBed | examples/medplum-hospital-demo/src/components/ipd/TransferBedModal.tsx:59-60 | a second transfer still takes the first bed as the current one |
| TransferBed.Transfer | examples/medplum-hospital-demo/src/components/ipd/TransferBedModal.tsx:44-115 | no bed selected is invalid; a refused first write or a missing encounter id fails before any change |
| TransferBed.TransferDone | examples/medplum-hospital-demo/src/components/ipd/TransferBedModal.tsx:86-115 | a completed transfer stores the moved encounter, cleans the old bed, occupies the new one when offered, and changes no other bed or appointment |
| TransferBed.TransferBedModal.HandleTransfer | examples/medplum-hospital-demo/src/components/ipd/TransferBedModal.tsx:44-125 | the writes leave the store and outcome of the transfer function; the selection is cleared only on success |
| AdmitPatient.AvailableBeds | examples/medplum-hospital-demo/src/components/ipd/AdmitPatientModal.tsx:31-38 | the beds offered are exactly the loaded beds that are not occupied |
| AdmitPatient.AdmissionEncounter | examples/medplum-hospital-demo/src/components/ipd/AdmitPatientModal.tsx:58-95 | an in-progress inpatient encounter for the patient, in the selected bed, started now, with the doctor as attender when chosen |
| AdmitPatient.Admit | examples/medplum-hospital-demo/src/components/ipd/AdmitPatientModal.tsx:43-110 | without a patient or bed it is invalid; a refused encounter write fails before any change |
| AdmitPatient.AdmitDone | examples/medplum-hospital-demo/src/components/ipd/AdmitPatientModal.tsx:97-110 | a completed admission stores the encounter under the new id and occupies the bed when it was offered; nothing else changes |
| AdmitPatient.AdmitPatientModal.HandleAdmit | examples/medplum-hospital-demo/src/components/ipd/AdmitPatientModal.tsx:43-121 | the writes leave the store and outcome of the admission function; the form is cleared only on success |
| DischargePatient.Discharged | examples/medplum-hospital-demo/src/components/ipd/DischargePatientModal.tsx:32-51 | the encounter is finished, ends now, gets the home disposition with the notes, and keeps its admit source and everything else |
| DischargePatient.DischargeBedId | examples/medplum-hospital-demo/src/components/ipd/DischargePatientModal.tsx:55-56 | a bed is released exactly when the first location has a reference, and it is the reference's second segment |
| DischargePatient.Discharge | examples/medplum-hospital-demo/src/components/ipd/DischargePatientModal.tsx:27-67 | a refused first write or a missing encounter id fails before any change |
| DischargePatient.DischargeDone | examples/medplum-hospital-demo/src/components/ipd/DischargePatientModal.tsx:27-67 | a completed discharge stores the finished encounter and sends the first-location bed to cleaning; nothing else changes |
| DischargePatient.DischargeAfterTransferReleasesFirstBed | examples/medplum-hospital-demo/src/components/ipd/DischargePatientModal.tsx:55-57 | after a transfer the discharge releases the same bed as before it |
| DischargePatient.DischargePatientModal.HandleDischarge | examples/medplum-hospital-demo/src/components/ipd/DischargePatientModal.tsx:27-78 | the writes leave the store and outcome of the discharge function; the notes are cleared only on success |
| AssignBed.AssignmentEncounter | examples/medplum-hospital-demo/src/components/beds/AssignBedModal.tsx:33-51 | an in-progress inpatient encounter for the patient with one active location referring to the bed |
| AssignBed.Assign | examples/medplum-hospital-demo/src/components/beds/AssignBedModal.tsx:24-61 | without a patient nothing happens; a refused encounter write fails before any change |
| AssignBed.AssignDone | examples/medplum-hospital-demo/src/components/beds/AssignBedModal.tsx:33-61 | a completed assignment stores the encounter and occupies the bed; nothing else changes |
| AssignBed.AssignEncounterBeforeBed | examples/medplum-hospital-demo/src/components/beds/AssignBedModal.tsx:33-61 | when the bed write is refused the encounter already exists and no bed has changed |
| AssignBed.AssignIgnoresBedStatus | examples/medplum-hospital-demo/src/components/beds/AssignBedModal.tsx:24-61 | the assignment is the same whatever the bed's status |
| AssignBed.AssignBedModal.HandleAssign | examples/medplum-hospital-demo/src/components/beds/AssignBedModal.tsx:24-83 | the writes leave the store and outcome of the assignment function |
| BedCard.StatusColor | examples/medplum-hospital-demo/src/components/beds/BedCard.tsx:80-82 | red exactly for Occupied, yellow for Cleaning, green for Unoccupied, gray otherwise |
| BedCard.BadgeText | examples/medplum-hospital-demo/src/components/beds/BedCard.tsx:111 | the status display when it is non-empty, else Available |
| BedCard.BadgesOfWrittenStatuses | examples/medplum-hospital-demo/src/components/beds/BedCard.tsx:80-111 | the three statuses the demo writes show their own names and colours |
| BedCard.MenuItems | examples/medplum-hospital-demo/src/components/beds/BedCard.tsx:99-105 | release and cleaning exactly for an occupied bed, assign exactly for a free one |
| BedCard.AssignButton | examples/medplum-hospital-demo/src/components/beds/BedCard.tsx:129 | shown exactly for a free bed and disabled exactly while it is being cleaned |
| BedCard.Release | examples/medplum-hospital-demo/src/components/beds/BedCard.tsx:21-48 | without a current encounter nothing happens; otherwise only that encounter becomes finished; the bed keeps its status |
| BedCard.BedCard.HandleReleaseBed | examples/medplum-hospital-demo/src/components/beds/BedCard.tsx:21-48 | the write leaves the store and outcome of the release function |
| BedCard.MarkCleaning | examples/medplum-hospital-demo/src/components/beds/BedCard.tsx:50-78 | only the bed changes, to Cleaning with its other fields kept |
| BedCard.BedCard.HandleMarkForCleaning | examples/medplum-hospital-demo/src/components/beds/BedCard.tsx:50-78 | the write leaves the store and outcome of the cleaning function |
| BedManagement.LastEncounter | examples/medplum-hospital-demo/src/pages/BedManagementPage.tsx:47-62 | the last Encounter entry of the lookup, none exactly when there is none |
| BedManagement.LastPatient | examples/medplum-hospital-demo/src/pages/BedManagementPage.tsx:47-62 | the last Patient entry of the lookup, none exactly when there is none |
| BedManagement.PickCurrent | examples/medplum-hospital-demo/src/pages/BedManagementPage.tsx:47-62 | the overwriting loop ends with the last encounter and last patient |
| BedManagement.BedManagementPage.LoadBeds | examples/medplum-hospital-demo/src/pages/BedManagementPage.tsx:30-88 | every bed of the search appears once, in order, with its current encounter and patient; a failed search keeps the board |
| BedManagement.NewBed | examples/medplum-hospital-demo/src/pages/BedManagementPage.tsx:96-126 | an active, Unoccupied bed of type bed, part of the ward exactly when a ward is entered |
| BedManagement.BedCreation | examples/medplum-hospital-demo/src/pages/BedManagementPage.tsx:94-138 | the bed is stored under the new id exactly when the write is accepted |
| BedManagement.CreatedBedIsFree | examples/medplum-hospital-demo/src/pages/BedManagementPage.tsx:94-138 | a created bed is Unoccupied and every bed stays under its own id |
| BedManagement.BedManagementPage.CreateBed | examples/medplum-hospital-demo/src/pages/BedManagementPage.tsx:94-138 | the write leaves the store of the creation function; the form is cleared only on success |
| BedManagement.FilteredBedsCases | examples/medplum-hospital-demo/src/pages/BedManagementPage.tsx:155-166 | occupied keeps exactly the beds with a patient, available those without, any other value all beds |
| BedManagement.CountsMatchFilters | examples/medplum-hospital-demo/src/pages/BedManagementPage.tsx:168-169 | the header counts equal the sizes of the two filters and add up to the number of beds |
| Appointments.PatientRef | examples/medplum-hospital-demo/src/pages/AppointmentsPage.tsx:53-54 | a Patient reference, found exactly when some participant's actor is a patient |
| Appointments.AppointmentsOf | examples/medplum-hospital-demo/src/pages/AppointmentsPage.tsx:31-79 | exactly the appointments of the bundle |
| Appointments.AppointmentsOfAppend | examples/medplum-hospital-demo/src/pages/AppointmentsPage.tsx:31-79 | the appointments of a bundle keep the bundle's order |
| Appointments.AppointmentsPage.LoadAppointments | examples/medplum-hospital-demo/src/pages/AppointmentsPage.tsx:31-79 | every appointment of the bundle appears once, in order, with its patient joined; a failed search keeps the list |
| Appointments.NewAppointment | examples/medplum-hospital-demo/src/pages/AppointmentsPage.tsx:100-118 | a booked appointment with the patient and, when chosen, the doctor as accepted participants |
| Appointments.CreateAppointment | examples/medplum-hospital-demo/src/pages/AppointmentsPage.tsx:85-131 | without patient or date it is invalid; otherwise the appointment is stored under the new id exactly when the write is accepted |
| Appointments.AppointmentsPage.HandleCreateAppointment | examples/medplum-hospital-demo/src/pages/AppointmentsPage.tsx:85-131 | the write leaves the store of the creation function; the form is cleared only on success |
| Appointments.UpdateStatus | examples/medplum-hospital-demo/src/pages/AppointmentsPage.tsx:145-150 | the appointment gets the new status exactly when it has an id and the write is accepted |
| Appointments.AppointmentsPage.HandleUpdateStatus | examples/medplum-hospital-demo/src/pages/AppointmentsPage.tsx:145-150 | the write leaves the store of the status function |
| Appointments.FilteredAppointments | examples/medplum-hospital-demo/src/pages/AppointmentsPage.tsx:157-162 | all for 'all', else exactly the appointments with that status |
| Appointments.StatusColor | examples/medplum-hospital-demo/src/pages/AppointmentsPage.tsx:164-177 | blue exactly for booked, orange for arrived, green for fulfilled, red for cancelled, gray otherwise |
| Appointments.UpcomingCount | examples/medplum-hospital-demo/src/pages/AppointmentsPage.tsx:185 | the size of the booked filter, at most the number of appointments |
| Appointments.ActionsAdvance | examples/medplum-hospital-demo/src/pages/AppointmentsPage.tsx:261-289 | every action moves the status forward; fulfilled and cancelled offer none |
| Appointments.RunsAreShort | examples/medplum-hospital-demo/src/pages/AppointmentsPage.tsx:261-289 | a chain of button clicks visits at most three statuses, none twice, and a chain of three is booked, arrived, fulfilled |
| Opd.EncountersOf | examples/medplum-hospital-demo/src/pages/OPDPage.tsx:40-44 | exactly the encounters of the bundle |
| Opd.OpdPage.LoadVisits | examples/medplum-hospital-demo/src/pages/OPDPage.tsx:27-63 | every encounter of the bundle appears once, in order, with its patient joined; a failed search keeps the queue |
| Opd.FilteredVisits | examples/medplum-hospital-demo/src/pages/OPDPage.tsx:65-68 | all for 'all', else exactly the visits with that status |
| Opd.CountersWithinTotal | examples/medplum-hospital-demo/src/pages/OPDPage.tsx:70-72 | each counter equals the size of its filter and the three add up to at most the number of visits |
| Opd.StatusColor | examples/medplum-hospital-demo/src/pages/OPDPage.tsx:74-85 | orange exactly for arrived, blue for in-progress, green for finished, gray otherwise |
| Opd.UpdateStatus | examples/medplum-hospital-demo/src/pages/OPDPage.tsx:87-97 | the encounter gets the new status exactly when it has an id and the write is accepted |
| Opd.OpdPage.HandleUpdateStatus | examples/medplum-hospital-demo/src/pages/OPDPage.tsx:87-97 | the write leaves the store of the status function |
| Opd.QueueRows | examples/medplum-hospital-demo/src/pages/OPDPage.tsx:195-203 | the queue numbers the filtered visits from one, in order |
| Opd.StatusLabel | examples/medplum-hospital-demo/src/pages/OPDPage.tsx:221-227 | Waiting, In Progress and Completed for the three queue statuses, the status itself otherwise |
| Opd.LabelsTellStatusesApart | examples/medplum-hospital-demo/src/pages/OPDPage.tsx:221-227 | different encounter statuses never show the same label |
| Opd.ActionsAdvance | examples/medplum-hospital-demo/src/pages/OPDPage.tsx:236-250 | Start and Complete move the status forward; finished offers nothing |
| Opd.RunsAreShort | examples/medplum-hospital-demo/src/pages/OPDPage.tsx:236-250 | a chain of button clicks visits at most three statuses, none twice; the page never branches, so a chain from arrived is a prefix of arrived, in progress, finished |
| Lists.RisingRunIsShort | examples/medplum-hospital-demo/src/pages/OPDPage.tsx:236-250 | when every offered change raises a bounded rank, a chain of changes is no longer than the ranks, never repeats a status and climbs a rank per step |
| BedLifecycle.AdmissionNamesSelectedBed | examples/medplum-hospital-demo/src/components/ipd/AdmitPatientModal.tsx:67-72 | the location an admission writes is read back as the selected bed by both the transfer and the discharge dialogs |
| BedLifecycle.AssignmentNamesBed | examples/medplum-hospital-demo/src/components/beds/AssignBedModal.tsx:42-47 | the location an assignment writes is read back as the bed's id by both dialogs |
| BedLifecycle.AdmitThenDischargeCleansBed | examples/medplum-hospital-demo/src/components/ipd/DischargePatientModal.tsx:55-67 | admitting and then discharging the new encounter finishes it and leaves the admission bed being cleaned |
| BedLifecycle.AssignThenDischargeCleansBed | examples/medplum-hospital-demo/src/components/ipd/DischargePatientModal.tsx:55-67 | assigning and then discharging the new encounter finishes it and leaves the bed being cleaned |
| BedLifecycle.TransferThenDischargeLeavesNewBedOccupied | examples/medplum-hospital-demo/src/components/ipd/DischargePatientModal.tsx:55-57 | after admission, a transfer to another offered bed and a discharge, the first bed is being cleaned and the bed moved to stays Occupied |
| BedLifecycle.TransferOccupiesNewBed | examples/medplum-hospital-demo/src/components/ipd/TransferBedModal.tsx:104-115 | a completed transfer leaves the new bed Occupied |
| BedLifecycle.DischargeCleansOnlyItsBed | examples/medplum-hospital-demo/src/components/ipd/DischargePatientModal.tsx:55-67 | a completed discharge puts its own bed into cleaning and leaves every other bed as it was |

## Left out

- I/O is not modelled: reading and writing JSON files, the console, `process.exit`, and the
  network behind the Medplum client. Search results and store writes are parameters.
- Randomness is an oracle, not `Math.random`: random items, UUIDs, draws and shuffles.
  `getRandomItems` is any permutation followed by a slice, and the model does not claim
  that a draw is uniform.
- Clocks and dates are left out:
  - `Date.now` and `new Date()` are a `now` parameter in milliseconds;
  - ISO date text is abstracted;
  - the appointment's date is taken as its `YYYY-MM-DD` text;
  - the 30-minute end time is the `endOf` oracle;
  - the day shift that `toISOString` can cause in the appointment page's local time zone is
    not modelled;
  - the OPD page's wait-time minutes are not modelled.
- Floating point is left out. Measured values are `real` draws, `toFixed` rounding is not
  modelled, and `Math.floor(n * 0.8)` is `(4 * n) / 5`.
- Promises run one after the other. `Promise.all` and concurrent lookups are modelled in
  order, and the page's loading flags and re-renders are left out.
- Notifications, rendering and the reloads after a write are not modelled. A reload is a
  separate `Load…` call.
- `JSON.parse` failures and the logger are not modelled. The script's try/catch around a
  file is an "unreadable file" input.
- `localeCompare` is an abstract comparison. The proofs that need an order assume a total
  preorder.
- `isUUID` is the 8-4-4-4-12 hexadecimal shape of RFC 4122, without version or variant
  checks.
- `getDisplayString` and `createReference`'s display are parameters (`displayOf`,
  `bedDisplay`), because they come from the client library.
- Extra view properties spread into writes are dropped. These are:
  - the bed view's patient and encounter in the cleaning write;
  - the bed view's patient and encounter in the assignment's occupy write, because the bed
    card passes its view to the assignment dialog;
  - the OPD visit's `patientResource` in the status writes;
  - the appointment view's patient in the status writes.

  The model writes only the FHIR resource.
- `updateResource` is an upsert under the resource's id. Server-side validation and
  version conflicts are not modelled.
- SeedMockData.CrossProjectConflict: the seeder's delete-then-create loses the resource
  when the create is refused after a successful delete. The model keeps this code
  behaviour and counts an error.
- MissingResources.NewObservation: the interpretation keeps only its code (N, A, H or L).
  The source draws the display with a second, independent `Math.random`, so a code and its
  display can disagree (code `H` with display `Low`). The shared observation type holds one
  interpretation code, so that display draw is not modelled.
- `RESOURCE_TYPE_CREATION_PATHS` in `HomePage.utils.ts` is a constant map of navigation
  paths and is not modelled.
- The `conclusionCode` of the reports that `generate-varied-data` makes is not modelled. The
  report datatype has no such field. The conclusion text, the optional result link and the
  effective date are modelled.
