/** The patient-timeline generator of the mock-JSON package: it indexes encounters by patient,
    links appointments, observations, reports and requests to those encounters, generates
    conditions, procedures, vital signs, labs and medication orders around them, and attaches
    admission diagnoses. Every `Math.random` draw is an oracle value. */
module PatientTimeline {
  import opened Fhir
  import Lists

  // ---------------------------------------------------------------------
  // Randomness

  /** The part of the script a draw belongs to. */
  datatype Step =
    | LinkAppointment | NewCondition | NewProcedure | NewVital | NewLab
    | LinkObservation | NewMedication | LinkMedication | NewDiagnosis

  /** One draw: the step, the position of the item being processed, and positions inside it. */
  datatype Draw = Draw(step: Step, item: nat, part: nat, sub: nat)

  /** `Math.random` and `uuidv4`, as oracles. `draw` is a raw integer (scaled and floored by the
      caller), `roll` is the outcome of a `Math.random() > threshold` test, `shuffle` is the
      order the shuffling sort leaves an array of the given length in. */
  datatype Dice = Dice(
    draw: Draw -> nat,
    roll: Draw -> bool,
    shuffle: (Draw, nat) -> seq<nat>,
    value: Draw -> real,
    offset: Draw -> nat,
    uuid: Draw -> string)

  ghost predicate IsPermutation(p: seq<nat>, n: nat) {
    |p| == n
    && (forall i :: 0 <= i < n ==> p[i] < n)
    && (forall i, j :: 0 <= i < j < n ==> p[i] != p[j])
  }

  /** Whatever the comparator `0.5 - Math.random()` does, sorting leaves a permutation. */
  ghost predicate FairShuffles(dice: Dice) {
    forall d, n :: IsPermutation(dice.shuffle(d, n), n)
  }

  function Min(a: nat, b: nat): nat {
    if a <= b then a else b
  }

  /** `getRandomItem`: undefined on an empty array. */
  function RandomItem<T>(a: seq<T>, r: nat): (x: Option<T>)
    ensures x.Some? <==> |a| > 0
    ensures x.Some? ==> x.value in a
  {
    if |a| == 0 then None else Some(a[r % |a|])
  }

  /** `getRandomItems`: the first `min(count, length)` entries of a shuffled copy. */
  function RandomItems<T>(a: seq<T>, count: nat, order: seq<nat>): (r: seq<T>)
    requires IsPermutation(order, |a|)
    ensures |r| == Min(count, |a|)
    ensures forall x :: x in r ==> x in a
  {
    seq(Min(count, |a|), i requires 0 <= i < Min(count, |a|) => a[order[i]])
  }

  /** Distinct entries stay distinct: the sample never repeats an entry. */
  lemma RandomItemsDistinct<T>(a: seq<T>, count: nat, order: seq<nat>)
    requires IsPermutation(order, |a|)
    requires forall i, j :: 0 <= i < j < |a| ==> a[i] != a[j]
    ensures var r := RandomItems(a, count, order);
            forall i, j :: 0 <= i < j < |r| ==> r[i] != r[j]
  {
    var r := RandomItems(a, count, order);
    forall i, j | 0 <= i < j < |r|
      ensures r[i] != r[j]
    {
      assert r[i] == a[order[i]] && r[j] == a[order[j]];
      if order[i] < order[j] {
        assert a[order[i]] != a[order[j]];
      } else {
        assert a[order[j]] != a[order[i]];
      }
    }
  }

  // ---------------------------------------------------------------------
  // Catalogues

  const Snomed := "http://snomed.info/sct"
  const Loinc := "http://loinc.org"
  const RxNorm := "http://www.nlm.nih.gov/research/umls/rxnorm"

  const ConditionCatalog: seq<CatalogEntry> := [
    CatalogEntry("38341003", "Hypertensive disorder", "Hypertension"),
    CatalogEntry("44054006", "Diabetes mellitus type 2", "Type 2 Diabetes"),
    CatalogEntry("195967001", "Asthma", "Asthma"),
    CatalogEntry("235595009", "Gastritis", "Gastritis"),
    CatalogEntry("161891005", "Low back pain", "Low back pain"),
    CatalogEntry("73211009", "Diabetes mellitus", "Diabetes"),
    CatalogEntry("49601007", "Essential hypertension", "Essential Hypertension"),
    CatalogEntry("13645005", "Chronic obstructive lung disease", "COPD"),
    CatalogEntry("195080001", "Osteoarthritis", "Osteoarthritis"),
    CatalogEntry("16114001", "Depressive disorder", "Depression"),
    CatalogEntry("35489007", "Anxiety disorder", "Anxiety"),
    CatalogEntry("197480006", "Hyperlipidemia", "Hyperlipidemia"),
    CatalogEntry("414915002", "Obesity", "Obesity"),
    CatalogEntry("72892002", "Anemia", "Anemia"),
    CatalogEntry("363418001", "Hypothyroidism", "Hypothyroidism")]

  const ProcedureCatalog: seq<CatalogEntry> := [
    CatalogEntry("301095005", "Electrocardiogram", "ECG performed"),
    CatalogEntry("71651007", "X-Ray", "X-Ray done"),
    CatalogEntry("410528000", "Nebulization therapy", "Nebulization"),
    CatalogEntry("387713003", "Wound dressing", "Dressing change"),
    CatalogEntry("113091000", "Magnetic resonance imaging of brain", "MRI Brain"),
    CatalogEntry("241615005", "Blood pressure measurement", "Blood Pressure Check"),
    CatalogEntry("399208008", "Urinalysis", "Urine Test"),
    CatalogEntry("168499009", "Physical examination", "Physical Exam"),
    CatalogEntry("410528000", "Vaccination", "Vaccination"),
    CatalogEntry("443253003", "Ultrasound scan", "Ultrasound")]

  const MedicationCatalog: seq<CatalogEntry> := [
    CatalogEntry("197806", "Lisinopril 10 MG Oral Tablet", "Lisinopril 10mg"),
    CatalogEntry("197884", "Metformin 500 MG Oral Tablet", "Metformin 500mg"),
    CatalogEntry("198440", "Atorvastatin 20 MG Oral Tablet", "Atorvastatin 20mg"),
    CatalogEntry("197808", "Amlodipine 5 MG Oral Tablet", "Amlodipine 5mg"),
    CatalogEntry("197808", "Albuterol 90 MCG/ACTUAT Inhalant Solution", "Albuterol Inhaler"),
    CatalogEntry("197808", "Omeprazole 20 MG Oral Capsule", "Omeprazole 20mg"),
    CatalogEntry("197808", "Ibuprofen 200 MG Oral Tablet", "Ibuprofen 200mg"),
    CatalogEntry("197808", "Levothyroxine 50 MCG Oral Tablet", "Levothyroxine 50mcg")]

  datatype Component = Component(code: string, display: string, unit: string, lo: real, hi: real)

  /** A vital sign: one reading, or a panel with one reading per component. */
  datatype VitalSpec =
    | Single(code: string, display: string, text: string, unit: string, lo: real, hi: real)
    | Panel(code: string, display: string, text: string, components: seq<Component>)

  const VitalCatalog: seq<VitalSpec> := [
    Panel("85354-9", "Blood pressure panel", "Blood Pressure", [
      Component("8480-6", "Systolic blood pressure", "mm[Hg]", 90.0, 140.0),
      Component("8462-4", "Diastolic blood pressure", "mm[Hg]", 60.0, 90.0)]),
    Single("8867-4", "Heart rate", "Heart Rate", "/min", 60.0, 100.0),
    Single("9279-1", "Respiratory rate", "Respiratory Rate", "/min", 12.0, 20.0),
    Single("8310-5", "Body temperature", "Temperature", "Cel", 36.1, 37.2),
    Single("8302-2", "Body height", "Height", "cm", 150.0, 200.0),
    Single("29463-7", "Body weight", "Weight", "kg", 50.0, 120.0),
    Single("39156-5", "Body mass index", "BMI", "kg/m2", 18.5, 25.0),
    Single("2708-6", "Oxygen saturation in Arterial blood", "O2 Saturation", "%", 95.0, 100.0)]

  datatype LabSpec = LabSpec(code: string, display: string, text: string, unit: string, lo: real, hi: real)

  const LabCatalog: seq<LabSpec> := [
    LabSpec("718-7", "Hemoglobin [Mass/volume] in Blood", "Hemoglobin", "g/dL", 12.0, 17.0),
    LabSpec("777-3", "Platelets [#/volume] in Blood", "Platelet Count", "10*3/uL", 150.0, 450.0),
    LabSpec("6690-2", "White Blood Cell Count", "WBC", "10*3/uL", 4.0, 11.0),
    LabSpec("2339-0", "Glucose [Mass/volume] in Blood", "Blood Glucose", "mg/dL", 70.0, 100.0),
    LabSpec("2160-0", "Creatinine [Mass/volume] in Serum or Plasma", "Creatinine", "mg/dL", 0.6, 1.2),
    LabSpec("26449-9", "Hemoglobin A1c/Hemoglobin.total in Blood", "HbA1c", "%", 4.0, 6.0),
    LabSpec("2093-3", "Cholesterol [Mass/volume] in Serum or Plasma", "Total Cholesterol", "mg/dL", 0.0, 200.0)]

  lemma VitalCatalogDistinct()
    ensures |VitalCatalog| == 8
    ensures forall i, j :: 0 <= i < j < |VitalCatalog| ==> VitalCatalog[i] != VitalCatalog[j]
  {
  }

  // ---------------------------------------------------------------------
  // Interpretation

  /** Vital signs: N inside the normal range, otherwise H, even below the range. */
  function VitalFlag(v: real, lo: real, hi: real): (flag: string)
    ensures flag == "N" <==> lo <= v <= hi
    ensures flag == "H" <==> !(lo <= v <= hi)
  {
    if lo <= v && v <= hi then "N" else "H"
  }

  /** Labs: N inside the normal range, H above it, L otherwise. */
  function LabFlag(v: real, lo: real, hi: real): (flag: string)
    ensures flag == "N" <==> lo <= v <= hi
    ensures flag == "H" <==> !(lo <= v <= hi) && v > hi
    ensures lo <= hi ==> (flag == "L" <==> v < lo)
  {
    if lo <= v && v <= hi then "N" else if v > hi then "H" else "L"
  }

  /** The two rules disagree only below the range, where a vital sign reads High and a lab Low. */
  lemma BelowRangeFlags(v: real, lo: real, hi: real)
    requires lo <= hi
    ensures VitalFlag(v, lo, hi) != LabFlag(v, lo, hi) <==> v < lo
    ensures v < lo ==> VitalFlag(v, lo, hi) == "H" && LabFlag(v, lo, hi) == "L"
  {
  }

  // ---------------------------------------------------------------------
  // Patients and their encounters

  /** The subject reference, when present and non-empty, with the first `Patient/` removed. */
  function SubjectPatientId(subject: Option<Reference>): Option<string> {
    var ref := RefOf(subject);
    if Truthy(ref) then Some(PatientIdOf(ref.value)) else None
  }

  /** The positions of the encounters of one patient, in file order. */
  function EncountersOfPatient(encs: seq<Encounter>, pid: string): seq<nat> {
    if encs == [] then []
    else
      EncountersOfPatient(encs[..|encs| - 1], pid)
      + (if SubjectPatientId(encs[|encs| - 1].subject) == Some(pid) then [|encs| - 1] else [])
  }

  /** Exactly the encounters whose subject names the patient, in increasing order. */
  lemma {:induction false} EncountersOfPatientFacts(encs: seq<Encounter>, pid: string)
    ensures var ks := EncountersOfPatient(encs, pid);
            && (forall j :: 0 <= j < |ks| ==> ks[j] < |encs| && SubjectPatientId(encs[ks[j]].subject) == Some(pid))
            && (forall i :: 0 <= i < |encs| && SubjectPatientId(encs[i].subject) == Some(pid) ==> i in ks)
            && (forall j, l :: 0 <= j < l < |ks| ==> ks[j] < ks[l])
  {
    if encs != [] {
      var front := encs[..|encs| - 1];
      EncountersOfPatientFacts(front, pid);
      var ks := EncountersOfPatient(encs, pid);
      forall i | 0 <= i < |encs| && SubjectPatientId(encs[i].subject) == Some(pid)
        ensures i in ks
      {
        if i < |encs| - 1 {
          assert front[i] == encs[i];
        }
      }
    }
  }

  /** `patientEncountersMap`: every patient with at least one encounter, mapped to those
      encounters in file order (positions stand for the shared encounter objects). */
  ghost predicate IndexesPatients(m: map<string, seq<nat>>, encs: seq<Encounter>) {
    forall pid :: (pid in m <==> EncountersOfPatient(encs, pid) != [])
                  && (pid in m ==> m[pid] == EncountersOfPatient(encs, pid))
  }

  /** The encounters listed for a patient, none when the patient is not in the index. */
  function EncountersFor(m: map<string, seq<nat>>, pid: string): seq<nat> {
    if pid in m then m[pid] else []
  }

  ghost predicate InRange(m: map<string, seq<nat>>, n: nat) {
    forall pid, j :: pid in m && 0 <= j < |m[pid]| ==> m[pid][j] < n
  }

  /** Every listed encounter exists and belongs to the patient it is listed under. */
  ghost predicate Sound(m: map<string, seq<nat>>, encs: seq<Encounter>) {
    forall pid, j :: pid in m && 0 <= j < |m[pid]| ==>
      m[pid][j] < |encs| && SubjectPatientId(encs[m[pid][j]].subject) == Some(pid)
  }

  lemma IndexIsSound(m: map<string, seq<nat>>, encs: seq<Encounter>)
    requires IndexesPatients(m, encs)
    ensures Sound(m, encs) && InRange(m, |encs|)
  {
    forall pid | pid in m
      ensures forall j :: 0 <= j < |m[pid]| ==> m[pid][j] < |encs| && SubjectPatientId(encs[m[pid][j]].subject) == Some(pid)
    {
      EncountersOfPatientFacts(encs, pid);
      assert m[pid] == EncountersOfPatient(encs, pid);
    }
  }

  /** `if (!map.has(pid)) map.set(pid, []); map.get(pid).push(encounter)`. */
  method PushEncounter(m: map<string, seq<nat>>, pid: string, i: nat) returns (m': map<string, seq<nat>>)
    ensures m' == m[pid := EncountersFor(m, pid) + [i]]
  {
    m' := m;
    if pid !in m' {
      m' := m'[pid := []];
    }
    m' := m'[pid := m'[pid] + [i]];
  }

  /** The loop that builds `patientEncountersMap`. */
  method BuildPatientEncounters(encs: seq<Encounter>) returns (m: map<string, seq<nat>>)
    ensures IndexesPatients(m, encs)
  {
    m := map[];
    var i := 0;
    while i < |encs|
      invariant 0 <= i <= |encs|
      invariant IndexesPatients(m, encs[..i])
    {
      ghost var before := m;
      var pid := SubjectPatientId(encs[i].subject);
      if pid.Some? {
        m := PushEncounter(m, pid.value, i);
      }
      IndexStep(before, encs, i);
      i := i + 1;
    }
    assert encs[..i] == encs;
  }

  /** Recording encounter `i` under its patient extends the index to the first `i + 1` encounters. */
  lemma IndexStep(m: map<string, seq<nat>>, encs: seq<Encounter>, i: nat)
    requires i < |encs| && IndexesPatients(m, encs[..i])
    ensures var pid := SubjectPatientId(encs[i].subject);
            IndexesPatients(if pid.None? then m else m[pid.value := EncountersFor(m, pid.value) + [i]], encs[..i + 1])
  {
    var pid := SubjectPatientId(encs[i].subject);
    var m' := if pid.None? then m else m[pid.value := EncountersFor(m, pid.value) + [i]];
    assert encs[..i + 1][..i] == encs[..i];
    forall p
      ensures (p in m' <==> EncountersOfPatient(encs[..i + 1], p) != [])
              && (p in m' ==> m'[p] == EncountersOfPatient(encs[..i + 1], p))
    {
      assert EncountersOfPatient(encs[..i + 1], p)
          == EncountersOfPatient(encs[..i], p) + (if pid == Some(p) then [i] else []);
    }
  }

  /** Changing anything but the subject keeps the index valid. */
  lemma SoundAfterEdit(m: map<string, seq<nat>>, encs: seq<Encounter>, encs': seq<Encounter>)
    requires Sound(m, encs)
    requires |encs'| == |encs| && forall i :: 0 <= i < |encs| ==> encs'[i].subject == encs[i].subject
    ensures Sound(m, encs')
  {
  }

  function EncounterRef(e: Encounter): Reference {
    Ref("Encounter/" + IdText(e.id))
  }

  /** The location of the encounter's first location entry. */
  function FirstLocation(e: Encounter): Option<Reference> {
    if e.location.Some? && |e.location.value| > 0 then e.location.value[0].location else None
  }

  /** The encounter's start, or the current time when it has none. */
  function EncounterStart(e: Encounter, now: Time): Time {
    var s := StartOf(e);
    if s.Some? then s.value else now
  }

  // ---------------------------------------------------------------------
  // Appointments

  /** The reference of the first participant whose actor reference starts with `Patient/`. */
  function FirstPatientActor(ps: seq<AppointmentParticipant>): (r: Option<string>)
    ensures r.Some? ==> StartsWith(r.value, "Patient/")
    ensures r.Some? <==> exists j :: 0 <= j < |ps| && RefOf(ps[j].actor).Some? && StartsWith(RefOf(ps[j].actor).value, "Patient/")
  {
    if ps == [] then None
    else
      var ref := RefOf(ps[0].actor);
      if ref.Some? && StartsWith(ref.value, "Patient/") then ref
      else
        var r := FirstPatientActor(ps[1..]);
        assert forall j :: 1 <= j < |ps| ==> ps[j] == ps[1..][j - 1];
        r
  }

  /** The encounter an appointment is linked to: a random one of its patient's encounters. */
  function AppointmentTarget(a: Appointment, k: nat, m: map<string, seq<nat>>, dice: Dice): Option<nat> {
    var p := if a.participant.Some? then FirstPatientActor(a.participant.value) else None;
    if p.None? then None
    else
      var ks := EncountersFor(m, PatientIdOf(p.value));
      if |ks| == 0 then None else Some(ks[dice.draw(Draw(LinkAppointment, k, 0, 0)) % |ks|])
  }

  function AppointmentRef(a: Appointment): Reference {
    Ref("Appointment/" + IdText(a.id))
  }

  /** The encounters after the first `|apps|` appointments have been linked. */
  function LinkAppointments(encs: seq<Encounter>, apps: seq<Appointment>, m: map<string, seq<nat>>, dice: Dice): (r: seq<Encounter>)
    requires InRange(m, |encs|)
    ensures |r| == |encs|
  {
    if apps == [] then encs
    else
      var prev := LinkAppointments(encs, apps[..|apps| - 1], m, dice);
      var k := |apps| - 1;
      var t := AppointmentTarget(apps[k], k, m, dice);
      if t.Some? && prev[t.value].appointment.None? then
        prev[t.value := prev[t.value].(appointment := Some([AppointmentRef(apps[k])]))]
      else prev
  }

  /** Linking appointment `k` after the ones before it. */
  lemma LinkAppointmentsStep(encs: seq<Encounter>, apps: seq<Appointment>, m: map<string, seq<nat>>, dice: Dice, k: nat)
    requires InRange(m, |encs|) && k < |apps|
    ensures var prev := LinkAppointments(encs, apps[..k], m, dice);
            var t := AppointmentTarget(apps[k], k, m, dice);
            LinkAppointments(encs, apps[..k + 1], m, dice)
              == if t.Some? && prev[t.value].appointment.None? then
                   prev[t.value := prev[t.value].(appointment := Some([AppointmentRef(apps[k])]))]
                 else prev
  {
    assert apps[..k + 1][..k] == apps[..k];
  }

  /** Only `appointment` ever changes, and an existing list is never overwritten. */
  lemma {:induction false} LinkAppointmentsKeeps(encs: seq<Encounter>, apps: seq<Appointment>, m: map<string, seq<nat>>, dice: Dice)
    requires InRange(m, |encs|)
    ensures var r := LinkAppointments(encs, apps, m, dice);
            forall i :: 0 <= i < |encs| ==>
              && r[i].(appointment := encs[i].appointment) == encs[i]
              && (encs[i].appointment.Some? ==> r[i] == encs[i])
  {
    if apps != [] {
      LinkAppointmentsKeeps(encs, apps[..|apps| - 1], m, dice);
    }
  }

  /** Appointment `k` is the first of `apps` to choose encounter `i`. */
  ghost predicate FirstChooser(apps: seq<Appointment>, i: nat, k: nat, m: map<string, seq<nat>>, dice: Dice) {
    && k < |apps| && AppointmentTarget(apps[k], k, m, dice) == Some(i)
    && forall j :: 0 <= j < k ==> AppointmentTarget(apps[j], j, m, dice) != Some(i)
  }

  /** No appointment of `apps` chooses encounter `i`. */
  ghost predicate NeverChosen(apps: seq<Appointment>, i: nat, m: map<string, seq<nat>>, dice: Dice) {
    forall j :: 0 <= j < |apps| ==> AppointmentTarget(apps[j], j, m, dice) != Some(i)
  }

  /** What the choices of `apps` say about the choices of all but its last appointment. */
  lemma ChoicesOfFront(apps: seq<Appointment>, i: nat, m: map<string, seq<nat>>, dice: Dice)
    requires apps != []
    ensures var front := apps[..|apps| - 1];
            && (NeverChosen(apps, i, m, dice) ==> NeverChosen(front, i, m, dice))
            && (FirstChooser(apps, i, |apps| - 1, m, dice) ==> NeverChosen(front, i, m, dice))
            && (forall k: nat :: k < |front| && FirstChooser(apps, i, k, m, dice) ==> FirstChooser(front, i, k, m, dice))
  {
    var front := apps[..|apps| - 1];
    assert forall j :: 0 <= j < |front| ==> front[j] == apps[j];
  }

  /** Linking the last appointment changes at most the encounter it chooses, and only when
      that encounter has no list yet. */
  lemma LinkAppointmentsStepAt(encs: seq<Encounter>, apps: seq<Appointment>, m: map<string, seq<nat>>, dice: Dice, i: nat)
    requires InRange(m, |encs|) && i < |encs| && apps != []
    ensures var last := |apps| - 1;
            var prev := LinkAppointments(encs, apps[..last], m, dice);
            var r := LinkAppointments(encs, apps, m, dice);
            var t := AppointmentTarget(apps[last], last, m, dice);
            && (t != Some(i) || prev[i].appointment.Some? ==> r[i] == prev[i])
            && (t == Some(i) && prev[i].appointment.None? ==> r[i].appointment == Some([AppointmentRef(apps[last])]))
  {
  }

  /** Encounter `i` without an appointment list gets the first appointment that chooses it;
      an encounter no appointment chooses is untouched. */
  lemma {:induction false} LinkAppointmentsFirst(encs: seq<Encounter>, apps: seq<Appointment>, m: map<string, seq<nat>>, dice: Dice, i: nat)
    requires InRange(m, |encs|) && i < |encs|
    ensures var r := LinkAppointments(encs, apps, m, dice);
            && (encs[i].appointment.None? ==>
                  forall k: nat :: FirstChooser(apps, i, k, m, dice) ==> r[i].appointment == Some([AppointmentRef(apps[k])]))
            && (NeverChosen(apps, i, m, dice) ==> r[i] == encs[i])
  {
    if apps != [] {
      var front := apps[..|apps| - 1];
      var last := |apps| - 1;
      LinkAppointmentsFirst(encs, front, m, dice, i);
      LinkAppointmentsStepAt(encs, apps, m, dice, i);
      ChoicesOfFront(apps, i, m, dice);
      if encs[i].appointment.None? {
        forall k: nat | FirstChooser(apps, i, k, m, dice)
          ensures LinkAppointments(encs, apps, m, dice)[i].appointment == Some([AppointmentRef(apps[k])])
        {
          if k == last {
            assert NeverChosen(front, i, m, dice);
          }
        }
      }
    }
  }

  /** Only `appointment` ever changes; an existing list is never overwritten; an encounter
      without a list gets `[Appointment/<id>]` of the first appointment that chooses it, and
      one no appointment chooses is untouched; a new list holds exactly one appointment, one
      whose patient participant the encounter belongs to. */
  lemma {:induction false} LinkAppointmentsFacts(encs: seq<Encounter>, apps: seq<Appointment>, m: map<string, seq<nat>>, dice: Dice)
    requires Sound(m, encs) && InRange(m, |encs|)
    ensures var r := LinkAppointments(encs, apps, m, dice);
            forall i :: 0 <= i < |encs| ==>
              && r[i].(appointment := encs[i].appointment) == encs[i]
              && (encs[i].appointment.Some? ==> r[i] == encs[i])
              && (r[i] != encs[i] ==> exists k :: 0 <= k < |apps| && AppointmentTarget(apps[k], k, m, dice) == Some(i)
                                                    && r[i].appointment == Some([AppointmentRef(apps[k])]))
              && (encs[i].appointment.None? ==>
                    forall k: nat :: FirstChooser(apps, i, k, m, dice) ==> r[i].appointment == Some([AppointmentRef(apps[k])]))
              && (NeverChosen(apps, i, m, dice) ==> r[i] == encs[i])
  {
    LinkAppointmentsKeeps(encs, apps, m, dice);
    forall i | 0 <= i < |encs| {
      LinkAppointmentsFirst(encs, apps, m, dice, i);
    }
    if apps != [] {
      var front := apps[..|apps| - 1];
      var last := |apps| - 1;
      LinkAppointmentsFacts(encs, front, m, dice);
      var prev := LinkAppointments(encs, front, m, dice);
      var r := LinkAppointments(encs, apps, m, dice);
      forall i | 0 <= i < |encs| && r[i] != encs[i]
        ensures exists k :: 0 <= k < |apps| && AppointmentTarget(apps[k], k, m, dice) == Some(i)
                            && r[i].appointment == Some([AppointmentRef(apps[k])])
      {
        if r[i] == prev[i] {
          var k :| 0 <= k < |front| && AppointmentTarget(front[k], k, m, dice) == Some(i)
                   && prev[i].appointment == Some([AppointmentRef(front[k])]);
          assert front[k] == apps[k];
        } else {
          assert AppointmentTarget(apps[last], last, m, dice) == Some(i);
        }
      }
    }
  }

  /** A linked encounter belongs to the patient named by the appointment. */
  lemma AppointmentTargetSamePatient(a: Appointment, k: nat, m: map<string, seq<nat>>, dice: Dice, encs: seq<Encounter>)
    requires Sound(m, encs)
    requires AppointmentTarget(a, k, m, dice).Some?
    ensures var i := AppointmentTarget(a, k, m, dice).value;
            i < |encs| && a.participant.Some? && FirstPatientActor(a.participant.value).Some?
            && SubjectPatientId(encs[i].subject) == Some(PatientIdOf(FirstPatientActor(a.participant.value).value))
  {
  }

  // ---------------------------------------------------------------------
  // Conditions

  const DayMs2Years: nat := 730 * 24 * 60 * 60 * 1000

  function PractitionerRef(practitionerIds: seq<Option<string>>, r: nat): Reference {
    var id := RandomItem(practitionerIds, r);
    Ref("Practitioner/" + IdText(if id.Some? then id.value else None))
  }

  function PatientRef(p: Person): Reference {
    Ref("Patient/" + IdText(p.id))
  }

  /** The condition catalogue entries a patient gets: 1 to 3 of them, as `getRandomItems` picks. */
  function ChosenConditions(pi: nat, dice: Dice): seq<CatalogEntry>
    requires FairShuffles(dice)
  {
    var d := Draw(NewCondition, pi, 0, 0);
    RandomItems(ConditionCatalog, dice.draw(d) % 3 + 1, dice.shuffle(d, |ConditionCatalog|))
  }

  function MakeCondition(p: Person, entry: CatalogEntry, d: Draw, practitionerIds: seq<Option<string>>, now: Time, dice: Dice): Condition {
    var status := if dice.roll(d) then "active" else "resolved";
    Condition(
      dice.uuid(d), status,
      CodeableConcept(Some([Coding(Snomed, entry.code, entry.display)]), Some(entry.text)),
      PatientRef(p),
      now - dice.offset(d) % DayMs2Years,
      PractitionerRef(practitionerIds, dice.draw(d)))
  }

  function ConditionsFor(p: Person, pi: nat, practitionerIds: seq<Option<string>>, now: Time, dice: Dice): seq<Condition>
    requires FairShuffles(dice)
  {
    var chosen := ChosenConditions(pi, dice);
    seq(|chosen|, j requires 0 <= j < |chosen| => MakeCondition(p, chosen[j], Draw(NewCondition, pi, j + 1, 0), practitionerIds, now, dice))
  }

  function AllConditions(patients: seq<Person>, practitionerIds: seq<Option<string>>, now: Time, dice: Dice): seq<Condition>
    requires FairShuffles(dice)
  {
    if patients == [] then []
    else AllConditions(patients[..|patients| - 1], practitionerIds, now, dice)
         + ConditionsFor(patients[|patients| - 1], |patients| - 1, practitionerIds, now, dice)
  }

  /** Each patient gets one to three distinct conditions from the catalogue, each about that
      patient and either active or resolved. */
  lemma ConditionsPerPatient(p: Person, pi: nat, practitionerIds: seq<Option<string>>, now: Time, dice: Dice)
    requires FairShuffles(dice)
    ensures var cs := ConditionsFor(p, pi, practitionerIds, now, dice);
            && 1 <= |cs| <= 3
            && (forall j :: 0 <= j < |cs| ==> cs[j].subject == Ref("Patient/" + IdText(p.id)))
            && (forall j :: 0 <= j < |cs| ==> cs[j].clinicalStatus in {"active", "resolved"})
  {
    assert |ConditionCatalog| == 15;
  }

  /** No patient gets the same condition code twice. */
  lemma ConditionCodesDiffer(p: Person, pi: nat, practitionerIds: seq<Option<string>>, now: Time, dice: Dice)
    requires FairShuffles(dice)
    ensures var cs := ConditionsFor(p, pi, practitionerIds, now, dice);
            forall j, l :: 0 <= j < l < |cs| ==> cs[j].code != cs[l].code
  {
    var d := Draw(NewCondition, pi, 0, 0);
    var order := dice.shuffle(d, |ConditionCatalog|);
    assert IsPermutation(order, |ConditionCatalog|);
    var chosen := ChosenConditions(pi, dice);
    var cs := ConditionsFor(p, pi, practitionerIds, now, dice);
    forall j, l | 0 <= j < l < |cs|
      ensures cs[j].code != cs[l].code
    {
      assert chosen[j] == ConditionCatalog[order[j]] && chosen[l] == ConditionCatalog[order[l]];
      assert order[j] != order[l];
      if order[j] < order[l] {
        ConditionCodesDistinct(order[j], order[l]);
      } else {
        ConditionCodesDistinct(order[l], order[j]);
      }
      assert cs[j].code.coding == Some([Coding(Snomed, chosen[j].code, chosen[j].display)]);
      assert cs[l].code.coding == Some([Coding(Snomed, chosen[l].code, chosen[l].display)]);
    }
  }

  lemma ConditionCodesDistinct(a: nat, b: nat)
    requires a < b < |ConditionCatalog|
    ensures ConditionCatalog[a].code != ConditionCatalog[b].code
  {
  }

  // ---------------------------------------------------------------------
  // Procedures and new medication requests

  function ProceduresFor(e: Encounter, i: nat, practitionerIds: seq<Option<string>>, now: Time, dice: Dice): seq<Procedure> {
    var d := Draw(NewProcedure, i, 0, 0);
    if dice.roll(d) then
      var entry := ProcedureCatalog[dice.draw(d) % |ProcedureCatalog|];
      [Procedure(
        dice.uuid(d),
        CodeableConcept(Some([Coding(Snomed, entry.code, entry.display)]), Some(entry.text)),
        e.subject,
        EncounterRef(e),
        EncounterStart(e, now) + dice.offset(d) % (2 * 60 * 60 * 1000),
        PractitionerRef(practitionerIds, dice.draw(Draw(NewProcedure, i, 1, 0))),
        FirstLocation(e))]
    else []
  }

  function AllProcedures(encs: seq<Encounter>, practitionerIds: seq<Option<string>>, now: Time, dice: Dice): seq<Procedure> {
    if encs == [] then []
    else AllProcedures(encs[..|encs| - 1], practitionerIds, now, dice)
         + ProceduresFor(encs[|encs| - 1], |encs| - 1, practitionerIds, now, dice)
  }

  /** At most one procedure per encounter, each about its encounter's subject, pointing at it,
      and located at its first location. */
  lemma {:induction false} ProceduresFollowEncounters(encs: seq<Encounter>, practitionerIds: seq<Option<string>>, now: Time, dice: Dice)
    ensures var ps := AllProcedures(encs, practitionerIds, now, dice);
            && |ps| <= |encs|
            && forall q :: q in ps ==> exists i :: 0 <= i < |encs| && q.subject == encs[i].subject
                                         && q.encounter == EncounterRef(encs[i]) && q.location == FirstLocation(encs[i])
  {
    if encs != [] {
      var front := encs[..|encs| - 1];
      ProceduresFollowEncounters(front, practitionerIds, now, dice);
      forall q | q in AllProcedures(encs, practitionerIds, now, dice)
        ensures exists i :: 0 <= i < |encs| && q.subject == encs[i].subject
                            && q.encounter == EncounterRef(encs[i]) && q.location == FirstLocation(encs[i])
      {
        if q in AllProcedures(front, practitionerIds, now, dice) {
          var i :| 0 <= i < |front| && q.subject == front[i].subject
                   && q.encounter == EncounterRef(front[i]) && q.location == FirstLocation(front[i]);
          assert encs[i] == front[i];
        } else {
          assert q.subject == encs[|encs| - 1].subject;
        }
      }
    }
  }

  function MedicationsFor(e: Encounter, i: nat, practitionerIds: seq<Option<string>>, now: Time, dice: Dice): seq<MedicationRequest> {
    var d := Draw(NewMedication, i, 0, 0);
    if dice.roll(d) then
      var entry := MedicationCatalog[dice.draw(d) % |MedicationCatalog|];
      [MedicationRequest(
        Some(dice.uuid(d)),
        if dice.roll(Draw(NewMedication, i, 1, 0)) then "active" else "completed",
        e.subject,
        Some(EncounterRef(e)),
        Some(CodeableConcept(Some([Coding(RxNorm, entry.code, entry.display)]), Some(entry.text))),
        Some(EncounterStart(e, now)),
        Some(PractitionerRef(practitionerIds, dice.draw(Draw(NewMedication, i, 2, 0)))))]
    else []
  }

  function AllMedications(encs: seq<Encounter>, practitionerIds: seq<Option<string>>, now: Time, dice: Dice): seq<MedicationRequest> {
    if encs == [] then []
    else AllMedications(encs[..|encs| - 1], practitionerIds, now, dice)
         + MedicationsFor(encs[|encs| - 1], |encs| - 1, practitionerIds, now, dice)
  }

  /** At most one new order per encounter, each about its encounter's subject and pointing at it,
      authored at the encounter's start. */
  lemma {:induction false} MedicationsFollowEncounters(encs: seq<Encounter>, practitionerIds: seq<Option<string>>, now: Time, dice: Dice)
    ensures var ms := AllMedications(encs, practitionerIds, now, dice);
            && |ms| <= |encs|
            && forall q :: q in ms ==> exists i :: 0 <= i < |encs| && q.subject == encs[i].subject
                                         && q.encounter == Some(EncounterRef(encs[i])) && q.authoredOn == Some(EncounterStart(encs[i], now))
  {
    if encs != [] {
      var front := encs[..|encs| - 1];
      MedicationsFollowEncounters(front, practitionerIds, now, dice);
      forall q | q in AllMedications(encs, practitionerIds, now, dice)
        ensures exists i :: 0 <= i < |encs| && q.subject == encs[i].subject
                            && q.encounter == Some(EncounterRef(encs[i])) && q.authoredOn == Some(EncounterStart(encs[i], now))
      {
        if q in AllMedications(front, practitionerIds, now, dice) {
          var i :| 0 <= i < |front| && q.subject == front[i].subject
                   && q.encounter == Some(EncounterRef(front[i])) && q.authoredOn == Some(EncounterStart(front[i], now));
          assert encs[i] == front[i];
        } else {
          assert q.subject == encs[|encs| - 1].subject;
        }
      }
    }
  }

  // ---------------------------------------------------------------------
  // Vital signs and labs

  function VitalObservation(e: Encounter, d: Draw, code: string, display: string, text: string, lo: real, hi: real, now: Time, dice: Dice): Observation {
    var v := dice.value(d);
    Observation(
      Some(dice.uuid(d)), "final", Some("vital-signs"),
      Some(CodeableConcept(Some([Coding(Loinc, code, display)]), Some(text))),
      e.subject, Some(EncounterRef(e)),
      Some(EncounterStart(e, now) + dice.offset(d) % (60 * 60 * 1000)),
      Some(v), Some(VitalFlag(v, lo, hi)))
  }

  /** One reading per single vital, one per component of a panel. */
  function Readings(v: VitalSpec): nat {
    match v
    case Single(_, _, _, _, _, _) => 1
    case Panel(_, _, _, components) => |components|
  }

  function ComponentObservations(e: Encounter, i: nat, j: nat, cs: seq<Component>, now: Time, dice: Dice): (r: seq<Observation>)
    ensures |r| == |cs|
  {
    if cs == [] then []
    else
      var c := cs[|cs| - 1];
      ComponentObservations(e, i, j, cs[..|cs| - 1], now, dice)
      + [VitalObservation(e, Draw(NewVital, i, j + 1, |cs| - 1), c.code, c.display, c.display, c.lo, c.hi, now, dice)]
  }

  function ObservationsOfVital(e: Encounter, i: nat, j: nat, v: VitalSpec, now: Time, dice: Dice): (r: seq<Observation>)
    ensures |r| == Readings(v)
  {
    match v
    case Single(code, display, text, _, lo, hi) =>
      [VitalObservation(e, Draw(NewVital, i, j + 1, 0), code, display, text, lo, hi, now, dice)]
    case Panel(_, _, _, components) => ComponentObservations(e, i, j, components, now, dice)
  }

  /** The vital types an encounter gets: 2 to 4 of them, as `getRandomItems` picks. */
  function ChosenVitals(i: nat, dice: Dice): seq<VitalSpec>
    requires FairShuffles(dice)
  {
    var d := Draw(NewVital, i, 0, 0);
    RandomItems(VitalCatalog, dice.draw(d) % 3 + 2, dice.shuffle(d, |VitalCatalog|))
  }

  function SumReadings(vs: seq<VitalSpec>): nat {
    if vs == [] then 0 else SumReadings(vs[..|vs| - 1]) + Readings(vs[|vs| - 1])
  }

  function ObservationsOfVitals(e: Encounter, i: nat, vs: seq<VitalSpec>, now: Time, dice: Dice): (r: seq<Observation>)
    ensures |r| == SumReadings(vs)
  {
    if vs == [] then []
    else ObservationsOfVitals(e, i, vs[..|vs| - 1], now, dice) + ObservationsOfVital(e, i, |vs| - 1, vs[|vs| - 1], now, dice)
  }

  /** One more vital type adds its readings after the earlier ones. */
  lemma ObservationsOfVitalsStep(e: Encounter, i: nat, vs: seq<VitalSpec>, j: nat, now: Time, dice: Dice)
    requires j < |vs|
    ensures ObservationsOfVitals(e, i, vs[..j + 1], now, dice)
         == ObservationsOfVitals(e, i, vs[..j], now, dice) + ObservationsOfVital(e, i, j, vs[j], now, dice)
  {
    assert vs[..j + 1][..j] == vs[..j];
  }

  function VitalsFor(e: Encounter, i: nat, now: Time, dice: Dice): seq<Observation>
    requires FairShuffles(dice)
  {
    ObservationsOfVitals(e, i, ChosenVitals(i, dice), now, dice)
  }

  function AllVitals(encs: seq<Encounter>, now: Time, dice: Dice): seq<Observation>
    requires FairShuffles(dice)
  {
    if encs == [] then []
    else AllVitals(encs[..|encs| - 1], now, dice) + VitalsFor(encs[|encs| - 1], |encs| - 1, now, dice)
  }

  lemma AllVitalsStep(encs: seq<Encounter>, i: nat, now: Time, dice: Dice)
    requires FairShuffles(dice) && i < |encs|
    ensures AllVitals(encs[..i + 1], now, dice) == AllVitals(encs[..i], now, dice) + VitalsFor(encs[i], i, now, dice)
  {
    assert encs[..i + 1][..i] == encs[..i];
  }

  /** Each encounter gets two to four distinct vital types; the blood-pressure panel gives two
      readings and every other vital one; each reading is about the encounter's subject and
      points at the encounter. */
  lemma VitalsPerEncounter(e: Encounter, i: nat, now: Time, dice: Dice)
    requires FairShuffles(dice)
    ensures var vs := ChosenVitals(i, dice);
            && 2 <= |vs| <= 4
            && (forall j, l :: 0 <= j < l < |vs| ==> vs[j] != vs[l])
            && |VitalsFor(e, i, now, dice)| == SumReadings(vs)
            && |vs| <= SumReadings(vs) <= |vs| + 1
    ensures Readings(VitalCatalog[0]) == 2 && forall k :: 1 <= k < |VitalCatalog| ==> Readings(VitalCatalog[k]) == 1
    ensures forall o :: o in VitalsFor(e, i, now, dice) ==> o.subject == e.subject && o.encounter == Some(EncounterRef(e))
  {
    var d := Draw(NewVital, i, 0, 0);
    VitalCatalogDistinct();
    RandomItemsDistinct(VitalCatalog, dice.draw(d) % 3 + 2, dice.shuffle(d, |VitalCatalog|));
    var vs := ChosenVitals(i, dice);
    CatalogReadings();
    ReadingsBound(vs, VitalCatalog[0]);
    VitalsAboutEncounter(e, i, vs, now, dice);
  }

  /** The blood-pressure panel gives two readings, every other catalogue entry one. */
  lemma CatalogReadings()
    ensures forall x :: x in VitalCatalog ==> Readings(x) == if x == VitalCatalog[0] then 2 else 1
  {
  }

  /** Among distinct vitals that read once, except a panel that reads twice, the readings
      number the vitals plus one when the panel is among them. */
  lemma {:induction false} ReadingsBound(vs: seq<VitalSpec>, panel: VitalSpec)
    requires forall x :: x in vs ==> Readings(x) == if x == panel then 2 else 1
    requires forall j, l :: 0 <= j < l < |vs| ==> vs[j] != vs[l]
    ensures |vs| <= SumReadings(vs) <= |vs| + (if panel in vs then 1 else 0)
  {
    if vs != [] {
      var front := vs[..|vs| - 1];
      var last := vs[|vs| - 1];
      assert vs == front + [last];
      assert forall x :: x in front ==> x in vs;
      ReadingsBound(front, panel);
      if last == panel {
        assert panel !in front by {
          forall j | 0 <= j < |front|
            ensures front[j] != last
          {
            assert vs[j] != vs[|vs| - 1];
          }
        }
      } else if panel in vs {
        assert panel in front;
      }
    }
  }

  lemma {:induction false} VitalsAboutEncounter(e: Encounter, i: nat, vs: seq<VitalSpec>, now: Time, dice: Dice)
    ensures forall o :: o in ObservationsOfVitals(e, i, vs, now, dice) ==> o.subject == e.subject && o.encounter == Some(EncounterRef(e))
  {
    if vs != [] {
      VitalsAboutEncounter(e, i, vs[..|vs| - 1], now, dice);
      match vs[|vs| - 1]
      case Single(_, _, _, _, _, _) =>
      case Panel(_, _, _, components) => ComponentsAboutEncounter(e, i, |vs| - 1, components, now, dice);
    }
  }

  lemma {:induction false} ComponentsAboutEncounter(e: Encounter, i: nat, j: nat, cs: seq<Component>, now: Time, dice: Dice)
    ensures forall o :: o in ComponentObservations(e, i, j, cs, now, dice) ==> o.subject == e.subject && o.encounter == Some(EncounterRef(e))
  {
    if cs != [] {
      ComponentsAboutEncounter(e, i, j, cs[..|cs| - 1], now, dice);
    }
  }

  function LabObservation(e: Encounter, d: Draw, lab: LabSpec, now: Time, dice: Dice): Observation {
    var v := dice.value(d);
    Observation(
      Some(dice.uuid(d)), "final", Some("laboratory"),
      Some(CodeableConcept(Some([Coding(Loinc, lab.code, lab.display)]), Some(lab.text))),
      e.subject, Some(EncounterRef(e)),
      Some(EncounterStart(e, now) + dice.offset(d) % DayMs),
      Some(v), Some(LabFlag(v, lab.lo, lab.hi)))
  }

  /** With the 40% draw, 1 to 3 distinct lab tests. */
  function ChosenLabs(i: nat, dice: Dice): seq<LabSpec>
    requires FairShuffles(dice)
  {
    var d := Draw(NewLab, i, 0, 0);
    if dice.roll(d) then RandomItems(LabCatalog, dice.draw(d) % 3 + 1, dice.shuffle(d, |LabCatalog|)) else []
  }

  function LabsFor(e: Encounter, i: nat, now: Time, dice: Dice): (r: seq<Observation>)
    requires FairShuffles(dice)
    ensures |r| == |ChosenLabs(i, dice)| <= 3
    ensures forall o :: o in r ==> o.subject == e.subject && o.encounter == Some(EncounterRef(e)) && o.category == Some("laboratory")
  {
    var labs := ChosenLabs(i, dice);
    seq(|labs|, j requires 0 <= j < |labs| => LabObservation(e, Draw(NewLab, i, j + 1, 0), labs[j], now, dice))
  }

  function AllLabs(encs: seq<Encounter>, now: Time, dice: Dice): seq<Observation>
    requires FairShuffles(dice)
  {
    if encs == [] then []
    else AllLabs(encs[..|encs| - 1], now, dice) + LabsFor(encs[|encs| - 1], |encs| - 1, now, dice)
  }

  // ---------------------------------------------------------------------
  // Linking existing resources to encounters

  /** An existing resource without an encounter gets a random encounter of its patient. */
  function RandomEncounterLink(subject: Option<Reference>, encounter: Option<Reference>, m: map<string, seq<nat>>, encs: seq<Encounter>, r: nat): Option<Reference>
    requires InRange(m, |encs|)
  {
    var pid := SubjectPatientId(subject);
    if pid.None? then encounter
    else
      var ks := EncountersFor(m, pid.value);
      if |ks| > 0 && encounter.None? then Some(EncounterRef(encs[ks[r % |ks|]])) else encounter
  }

  /** A present link is never replaced; a new link names an encounter of the same patient. */
  lemma RandomEncounterLinkFacts(subject: Option<Reference>, encounter: Option<Reference>, m: map<string, seq<nat>>, encs: seq<Encounter>, r: nat)
    requires Sound(m, encs) && InRange(m, |encs|)
    ensures var link := RandomEncounterLink(subject, encounter, m, encs, r);
            && (encounter.Some? ==> link == encounter)
            && (link != encounter ==> exists i :: 0 <= i < |encs| && link == Some(EncounterRef(encs[i]))
                                                && SubjectPatientId(encs[i].subject) == SubjectPatientId(subject))
            && (encounter.None? && SubjectPatientId(subject).Some? && EncountersFor(m, SubjectPatientId(subject).value) != [] ==> link.Some?)
  {
    var link := RandomEncounterLink(subject, encounter, m, encs, r);
    if link != encounter {
      var pid := SubjectPatientId(subject).value;
      var ks := EncountersFor(m, pid);
      var i := ks[r % |ks|];
      assert link == Some(EncounterRef(encs[i]));
    }
  }

  function LinkObservations(obs: seq<Observation>, m: map<string, seq<nat>>, encs: seq<Encounter>, dice: Dice): (r: seq<Observation>)
    requires InRange(m, |encs|)
    ensures |r| == |obs|
    ensures forall j :: 0 <= j < |obs| ==> r[j].(encounter := obs[j].encounter) == obs[j]
  {
    seq(|obs|, j requires 0 <= j < |obs| =>
      obs[j].(encounter := RandomEncounterLink(obs[j].subject, obs[j].encounter, m, encs, dice.draw(Draw(LinkObservation, j, 0, 0)))))
  }

  function LinkMedications(ms: seq<MedicationRequest>, m: map<string, seq<nat>>, encs: seq<Encounter>, dice: Dice): (r: seq<MedicationRequest>)
    requires InRange(m, |encs|)
    ensures |r| == |ms|
    ensures forall j :: 0 <= j < |ms| ==> r[j].(encounter := ms[j].encounter) == ms[j]
  {
    seq(|ms|, j requires 0 <= j < |ms| =>
      ms[j].(encounter := RandomEncounterLink(ms[j].subject, ms[j].encounter, m, encs, dice.draw(Draw(LinkMedication, j, 0, 0)))))
  }

  // ---------------------------------------------------------------------
  // The closest encounter

  function Abs(x: int): nat {
    if x < 0 then -x else x
  }

  /** How far an encounter's start (0 when it has none) lies from the date. */
  function Distance(e: Encounter, target: Time): nat {
    var s := StartOf(e);
    Abs((if s.Some? then s.value else 0) - target)
  }

  /** The position among the first `n` entries of `ks` of the encounter closest to `target`;
      on a tie the earliest wins. */
  function ClosestAmong(encs: seq<Encounter>, ks: seq<nat>, n: nat, target: Time): (p: nat)
    requires 0 < n <= |ks| && forall j :: 0 <= j < |ks| ==> ks[j] < |encs|
    ensures p < n
    ensures forall q :: 0 <= q < n ==> Distance(encs[ks[p]], target) <= Distance(encs[ks[q]], target)
    ensures forall q :: 0 <= q < p ==> Distance(encs[ks[p]], target) < Distance(encs[ks[q]], target)
  {
    if n == 1 then 0
    else
      var p := ClosestAmong(encs, ks, n - 1, target);
      if Distance(encs[ks[n - 1]], target) < Distance(encs[ks[p]], target) then n - 1 else p
  }

  /** The position in `ks` of the encounter closest to `target`; on a tie the earliest wins. */
  function ClosestPosition(encs: seq<Encounter>, ks: seq<nat>, target: Time): (p: nat)
    requires |ks| > 0 && forall j :: 0 <= j < |ks| ==> ks[j] < |encs|
    ensures p < |ks|
    ensures forall q :: 0 <= q < |ks| ==> Distance(encs[ks[p]], target) <= Distance(encs[ks[q]], target)
    ensures forall q :: 0 <= q < p ==> Distance(encs[ks[p]], target) < Distance(encs[ks[q]], target)
  {
    ClosestAmong(encs, ks, |ks|, target)
  }

  /** The loop over the patient's encounters with `minDiff` and `closestEncounter`. */
  method FindClosest(encs: seq<Encounter>, ks: seq<nat>, target: Time) returns (closest: nat)
    requires |ks| > 0 && forall j :: 0 <= j < |ks| ==> ks[j] < |encs|
    ensures closest == ks[ClosestPosition(encs, ks, target)]
  {
    closest := ks[0];
    var minDiff := Distance(encs[closest], target);
    ghost var pos := 0;
    var j := 0;
    while j < |ks|
      invariant 0 <= j <= |ks|
      invariant pos == if j == 0 then 0 else ClosestAmong(encs, ks, j, target)
      invariant closest == ks[pos] && minDiff == Distance(encs[closest], target)
    {
      var diff := Distance(encs[ks[j]], target);
      if diff < minDiff {
        minDiff := diff;
        closest := ks[j];
        pos := j;
      }
      j := j + 1;
    }
  }

  /** Position `p` of `ks` names an encounter whose start is nearest `target`, and no earlier
      position is as near. */
  ghost predicate NearestAt(encs: seq<Encounter>, ks: seq<nat>, p: nat, target: Time) {
    && p < |ks|
    && (forall q :: 0 <= q < |ks| ==> ks[q] < |encs|)
    && (forall q :: 0 <= q < |ks| ==> Distance(encs[ks[p]], target) <= Distance(encs[ks[q]], target))
    && (forall q :: 0 <= q < p ==> Distance(encs[ks[p]], target) < Distance(encs[ks[q]], target))
  }

  /** A report or request without an encounter gets its patient's closest encounter. */
  function ClosestEncounterLink(subject: Option<Reference>, encounter: Option<Reference>, when: Option<Time>, m: map<string, seq<nat>>, encs: seq<Encounter>, now: Time): Option<Reference>
    requires InRange(m, |encs|)
  {
    var pid := SubjectPatientId(subject);
    if pid.None? then encounter
    else
      var ks := EncountersFor(m, pid.value);
      if |ks| > 0 && encounter.None? then
        var target := if when.Some? then when.value else now;
        Some(EncounterRef(encs[ks[ClosestPosition(encs, ks, target)]]))
      else encounter
  }

  /** A present link is never replaced; a missing one is filled whenever the patient has an
      encounter, and a new link names the patient's encounter whose start is nearest the date (a
      missing start counts as 0), the earliest one on a tie. */
  lemma ClosestEncounterLinkFacts(subject: Option<Reference>, encounter: Option<Reference>, when: Option<Time>, m: map<string, seq<nat>>, encs: seq<Encounter>, now: Time)
    requires Sound(m, encs) && InRange(m, |encs|)
    ensures var link := ClosestEncounterLink(subject, encounter, when, m, encs, now);
            var target := if when.Some? then when.value else now;
            && (encounter.Some? ==> link == encounter)
            && (link != encounter ==>
                  var ks := EncountersFor(m, SubjectPatientId(subject).value);
                  exists p: nat :: NearestAt(encs, ks, p, target) && link == Some(EncounterRef(encs[ks[p]]))
                    && SubjectPatientId(encs[ks[p]].subject) == SubjectPatientId(subject))
            && (encounter.None? && SubjectPatientId(subject).Some? && EncountersFor(m, SubjectPatientId(subject).value) != [] ==> link.Some?)
  {
    var link := ClosestEncounterLink(subject, encounter, when, m, encs, now);
    if link != encounter {
      var pid := SubjectPatientId(subject).value;
      var target := if when.Some? then when.value else now;
      var ks := EncountersFor(m, pid);
      var p := ClosestPosition(encs, ks, target);
      assert link == Some(EncounterRef(encs[ks[p]]));
      assert NearestAt(encs, ks, p, target);
      ListedEncounterOwner(m, encs, pid, p);
    }
  }

  /** An encounter listed under a patient has that patient as its subject. */
  lemma ListedEncounterOwner(m: map<string, seq<nat>>, encs: seq<Encounter>, pid: string, p: nat)
    requires Sound(m, encs) && p < |EncountersFor(m, pid)|
    ensures EncountersFor(m, pid)[p] < |encs|
    ensures SubjectPatientId(encs[EncountersFor(m, pid)[p]].subject) == Some(pid)
  {
    assert pid in m;
  }

  function LinkReports(rs: seq<DiagnosticReport>, m: map<string, seq<nat>>, encs: seq<Encounter>, now: Time): (r: seq<DiagnosticReport>)
    requires InRange(m, |encs|)
    ensures |r| == |rs|
    ensures forall j :: 0 <= j < |rs| ==> r[j].(encounter := rs[j].encounter) == rs[j]
  {
    seq(|rs|, j requires 0 <= j < |rs| =>
      rs[j].(encounter := ClosestEncounterLink(rs[j].subject, rs[j].encounter, rs[j].effective, m, encs, now)))
  }

  function LinkServiceRequests(rs: seq<ServiceRequest>, m: map<string, seq<nat>>, encs: seq<Encounter>, now: Time): (r: seq<ServiceRequest>)
    requires InRange(m, |encs|)
    ensures |r| == |rs|
    ensures forall j :: 0 <= j < |rs| ==> r[j].(encounter := rs[j].encounter) == rs[j]
  {
    seq(|rs|, j requires 0 <= j < |rs| =>
      rs[j].(encounter := ClosestEncounterLink(rs[j].subject, rs[j].encounter, rs[j].authoredOn, m, encs, now)))
  }

  // ---------------------------------------------------------------------
  // Diagnoses

  const AdmissionDiagnosis := Coding("http://terminology.hl7.org/CodeSystem/diagnosis-role", "AD", "Admission diagnosis")

  /** The conditions whose subject is `Patient/<pid>`, in order. */
  function PatientConditions(cs: seq<Condition>, pid: string): (r: seq<Condition>)
    ensures forall c :: c in r ==> c in cs && c.subject.reference == Some("Patient/" + pid)
    ensures forall c :: c in cs && c.subject.reference == Some("Patient/" + pid) ==> c in r
  {
    if cs == [] then []
    else
      assert forall c :: c in cs ==> c in cs[..|cs| - 1] || c == cs[|cs| - 1];
      PatientConditions(cs[..|cs| - 1], pid)
      + (if cs[|cs| - 1].subject.reference == Some("Patient/" + pid) then [cs[|cs| - 1]] else [])
  }

  /** Selecting a patient's conditions distributes over concatenation, so they keep their order. */
  lemma {:induction false} PatientConditionsAppend(a: seq<Condition>, b: seq<Condition>, pid: string)
    ensures PatientConditions(a + b, pid) == PatientConditions(a, pid) + PatientConditions(b, pid)
  {
    if b == [] {
      assert a + b == a;
    } else {
      var front, last := b[..|b| - 1], b[|b| - 1];
      assert (a + b)[..|a + b| - 1] == a + front && (a + b)[|a + b| - 1] == last;
      PatientConditionsAppend(a, front, pid);
      var keep := if last.subject.reference == Some("Patient/" + pid) then [last] else [];
      assert PatientConditions(a + b, pid) == PatientConditions(a + front, pid) + keep;
      assert PatientConditions(b, pid) == PatientConditions(front, pid) + keep;
    }
  }

  function DiagnosisOf(c: Condition): Diagnosis {
    Diagnosis(Ref("Condition/" + c.id), AdmissionDiagnosis)
  }

  /** The diagnoses chosen for one encounter, or its own when it is left alone. */
  function DiagnosesFor(e: Encounter, i: nat, cs: seq<Condition>, dice: Dice): Option<seq<Diagnosis>>
    requires FairShuffles(dice)
  {
    var pid := SubjectPatientId(e.subject);
    if pid.None? then e.diagnosis
    else
      var pc := PatientConditions(cs, pid.value);
      if |pc| > 0 && e.diagnosis.None? then
        var chosen := RandomItems(pc, Min(2, |pc|), dice.shuffle(Draw(NewDiagnosis, i, 0, 0), |pc|));
        Some(seq(|chosen|, j requires 0 <= j < |chosen| => DiagnosisOf(chosen[j])))
      else e.diagnosis
  }

  /** An existing diagnosis list is kept; a new one holds min(2, n) admission diagnoses drawn
      from the n conditions of the encounter's patient, without repeats when condition ids are
      unique; an encounter whose patient has conditions always ends with a diagnosis list. */
  lemma DiagnosesForFacts(e: Encounter, i: nat, cs: seq<Condition>, dice: Dice)
    requires FairShuffles(dice)
    ensures var d := DiagnosesFor(e, i, cs, dice);
            && (e.diagnosis.Some? ==> d == e.diagnosis)
            && (d != e.diagnosis ==>
                  var pid := SubjectPatientId(e.subject).value;
                  var n := |PatientConditions(cs, pid)|;
                  && |d.value| == Min(2, n) && 1 <= |d.value| <= 2
                  && (forall j :: 0 <= j < |d.value| ==>
                        (d.value[j].use == AdmissionDiagnosis
                         && exists c :: c in cs && c.subject.reference == Some("Patient/" + pid) && d.value[j] == DiagnosisOf(c)))
                  && (UniqueIds(cs) ==>
                        forall j, l :: 0 <= j < l < |d.value| ==> d.value[j] != d.value[l]))
    ensures SubjectPatientId(e.subject).Some? && |PatientConditions(cs, SubjectPatientId(e.subject).value)| > 0 ==> DiagnosesFor(e, i, cs, dice).Some?
  {
    var d := DiagnosesFor(e, i, cs, dice);
    if d != e.diagnosis {
      var pid := SubjectPatientId(e.subject).value;
      var pc := PatientConditions(cs, pid);
      var order := dice.shuffle(Draw(NewDiagnosis, i, 0, 0), |pc|);
      var chosen := RandomItems(pc, Min(2, |pc|), order);
      forall j | 0 <= j < |d.value|
        ensures d.value[j].use == AdmissionDiagnosis
                && exists c :: c in cs && c.subject.reference == Some("Patient/" + pid) && d.value[j] == DiagnosisOf(c)
      {
        assert chosen[j] in pc;
      }
      if UniqueIds(cs) {
        PatientConditionsDistinct(cs, pid);
        RandomItemsDistinct(pc, Min(2, |pc|), order);
        forall j, l | 0 <= j < l < |d.value|
          ensures d.value[j] != d.value[l]
        {
          assert chosen[j] != chosen[l];
          assert chosen[j].id != chosen[l].id by { DistinctIdsInSample(pc, chosen, j, l); }
          assert d.value[j] == DiagnosisOf(chosen[j]) && d.value[l] == DiagnosisOf(chosen[l]);
          PrefixCancels("Condition/", chosen[j].id, chosen[l].id);
        }
      }
    }
  }

  /** Different ids give different references. */
  lemma PrefixCancels(p: string, a: string, b: string)
    requires a != b
    ensures p + a != p + b
  {
    assert (p + a)[|p|..] == a;
    assert (p + b)[|p|..] == b;
  }

  ghost predicate UniqueIds(cs: seq<Condition>) {
    forall a, b :: 0 <= a < b < |cs| ==> cs[a].id != cs[b].id
  }

  /** Filtering keeps ids unique. */
  lemma {:induction false} PatientConditionsDistinct(cs: seq<Condition>, pid: string)
    requires UniqueIds(cs)
    ensures UniqueIds(PatientConditions(cs, pid))
  {
    if cs != [] {
      var front := cs[..|cs| - 1];
      PatientConditionsDistinct(front, pid);
      var last := cs[|cs| - 1];
      var pcf := PatientConditions(front, pid);
      forall c | c in pcf
        ensures c.id != last.id
      {
        var a :| 0 <= a < |front| && front[a] == c;
        assert cs[a] == c;
      }
      var pc := PatientConditions(cs, pid);
      assert pc == pcf + (if last.subject.reference == Some("Patient/" + pid) then [last] else []);
      forall a, b | 0 <= a < b < |pc|
        ensures pc[a].id != pc[b].id
      {
        assert pc[a] == pcf[a];
        if b < |pcf| {
          assert pc[b] == pcf[b];
          assert pcf[a].id != pcf[b].id;
        } else {
          assert pc[b] == last;
          assert pcf[a] in pcf;
          assert pcf[a].id != last.id;
        }
      }
    }
  }

  /** Two different entries of a sample of a list with unique ids have different ids. */
  lemma DistinctIdsInSample(pc: seq<Condition>, chosen: seq<Condition>, j: nat, l: nat)
    requires UniqueIds(pc)
    requires j < |chosen| && l < |chosen| && chosen[j] != chosen[l]
    requires chosen[j] in pc && chosen[l] in pc
    ensures chosen[j].id != chosen[l].id
  {
    var a :| 0 <= a < |pc| && pc[a] == chosen[j];
    var b :| 0 <= b < |pc| && pc[b] == chosen[l];
    assert a != b;
  }

  function AttachDiagnoses(encs: seq<Encounter>, cs: seq<Condition>, dice: Dice): (r: seq<Encounter>)
    requires FairShuffles(dice)
    ensures |r| == |encs|
    ensures forall i :: 0 <= i < |encs| ==> r[i].(diagnosis := encs[i].diagnosis) == encs[i]
  {
    seq(|encs|, i requires 0 <= i < |encs| => encs[i].(diagnosis := DiagnosesFor(encs[i], i, cs, dice)))
  }

  // ---------------------------------------------------------------------
  // The script

  class Timeline {
    const patients: seq<Person>
    const practitionerIds: seq<Option<string>>
    const appointments: seq<Appointment>
    const now: Time
    const dice: Dice

    var encounters: seq<Encounter>
    var observations: seq<Observation>
    var reports: seq<DiagnosticReport>
    var serviceRequests: seq<ServiceRequest>
    var medicationRequests: seq<MedicationRequest>

    var byPatient: map<string, seq<nat>>
    var conditions: seq<Condition>
    var procedures: seq<Procedure>
    var vitals: seq<Observation>
    var labs: seq<Observation>
    var newMedicationRequests: seq<MedicationRequest>

    /** The index points at the encounters by position and names each one's own patient. */
    ghost predicate Valid()
      reads this
    {
      Sound(byPatient, encounters) && InRange(byPatient, |encounters|)
    }

    constructor (patients: seq<Person>, practitionerIds: seq<Option<string>>, appointments: seq<Appointment>,
                 encounters: seq<Encounter>, observations: seq<Observation>, reports: seq<DiagnosticReport>,
                 serviceRequests: seq<ServiceRequest>, medicationRequests: seq<MedicationRequest>, now: Time, dice: Dice)
      ensures this.patients == patients && this.practitionerIds == practitionerIds && this.appointments == appointments
      ensures this.encounters == encounters && this.observations == observations && this.reports == reports
      ensures this.serviceRequests == serviceRequests && this.medicationRequests == medicationRequests
      ensures this.now == now && this.dice == dice
      ensures IndexesPatients(byPatient, encounters) && Valid()
      ensures conditions == [] && procedures == [] && vitals == [] && labs == [] && newMedicationRequests == []
    {
      this.patients := patients;
      this.practitionerIds := practitionerIds;
      this.appointments := appointments;
      this.encounters := encounters;
      this.observations := observations;
      this.reports := reports;
      this.serviceRequests := serviceRequests;
      this.medicationRequests := medicationRequests;
      this.now := now;
      this.dice := dice;
      var m := BuildPatientEncounters(encounters);
      IndexIsSound(m, encounters);
      byPatient := m;
      conditions, procedures, vitals, labs, newMedicationRequests := [], [], [], [], [];
    }

    /** Appointments: each links one random encounter of its patient, if that has none yet. */
    /** A random one of the encounters of the appointment's first patient participant. */
    method AppointmentEncounter(appointment: Appointment, k: nat) returns (target: Option<nat>)
      ensures target == AppointmentTarget(appointment, k, byPatient, dice)
    {
      target := None;
      var patientRef := if appointment.participant.Some? then FirstPatientActor(appointment.participant.value) else None;
      if patientRef.Some? {
        var encs := EncountersFor(byPatient, PatientIdOf(patientRef.value));
        if |encs| > 0 {
          target := Some(encs[dice.draw(Draw(LinkAppointment, k, 0, 0)) % |encs|]);
        }
      }
    }

    method LinkAppointmentsToEncounters()
      requires Valid()
      modifies this`encounters
      ensures encounters == LinkAppointments(old(encounters), appointments, byPatient, dice)
      ensures Valid()
    {
      var k := 0;
      while k < |appointments|
        invariant 0 <= k <= |appointments|
        invariant |encounters| == |old(encounters)|
        invariant encounters == LinkAppointments(old(encounters), appointments[..k], byPatient, dice)
      {
        var appointment := appointments[k];
        var target := AppointmentEncounter(appointment, k);
        if target.Some? && encounters[target.value].appointment.None? {
          var e := target.value;
          encounters := encounters[e := encounters[e].(appointment := Some([AppointmentRef(appointment)]))];
        }
        LinkAppointmentsStep(old(encounters), appointments, byPatient, dice, k);
        k := k + 1;
      }
      assert appointments[..k] == appointments;
      LinkAppointmentsFacts(old(encounters), appointments, byPatient, dice);
      SoundAfterEdit(byPatient, old(encounters), encounters);
    }

    /** Conditions: one to three per patient, in patient order. */
    method GenerateConditions()
      requires FairShuffles(dice)
      requires conditions == []
      modifies this`conditions
      ensures conditions == AllConditions(patients, practitionerIds, now, dice)
    {
      var p := 0;
      while p < |patients|
        invariant 0 <= p <= |patients|
        invariant conditions == AllConditions(patients[..p], practitionerIds, now, dice)
      {
        AddConditionsOfPatient(p);
        assert patients[..p + 1][..p] == patients[..p];
        p := p + 1;
      }
      assert patients[..p] == patients;
    }

    /** The conditions chosen for patient `p`. */
    method AddConditionsOfPatient(p: nat)
      requires FairShuffles(dice) && p < |patients|
      modifies this`conditions
      ensures conditions == old(conditions) + ConditionsFor(patients[p], p, practitionerIds, now, dice)
    {
      var chosen := ChosenConditions(p, dice);
      ghost var made := ConditionsFor(patients[p], p, practitionerIds, now, dice);
      var acc := conditions;
      var j := 0;
      while j < |chosen|
        invariant 0 <= j <= |chosen| && |made| == |chosen|
        invariant acc == old(conditions) + made[..j]
      {
        var c := MakeCondition(patients[p], chosen[j], Draw(NewCondition, p, j + 1, 0), practitionerIds, now, dice);
        assert c == made[j];
        acc := acc + [c];
        assert made[..j + 1] == made[..j] + [made[j]];
        j := j + 1;
      }
      assert made[..j] == made;
      conditions := acc;
    }

    /** Procedures: with the 30% draw, one per encounter. */
    method GenerateProcedures()
      requires procedures == []
      modifies this`procedures
      ensures procedures == AllProcedures(encounters, practitionerIds, now, dice)
    {
      var i := 0;
      while i < |encounters|
        invariant 0 <= i <= |encounters|
        invariant procedures == AllProcedures(encounters[..i], practitionerIds, now, dice)
      {
        procedures := procedures + ProceduresFor(encounters[i], i, practitionerIds, now, dice);
        assert encounters[..i + 1][..i] == encounters[..i];
        i := i + 1;
      }
      assert encounters[..i] == encounters;
    }

    /** Vital signs: two to four vital types per encounter, one reading per component. */
    method GenerateVitals()
      requires FairShuffles(dice)
      requires vitals == []
      modifies this`vitals
      ensures vitals == AllVitals(encounters, now, dice)
    {
      var i := 0;
      while i < |encounters|
        invariant 0 <= i <= |encounters|
        invariant vitals == AllVitals(encounters[..i], now, dice)
      {
        AddVitalsOfEncounter(i);
        AllVitalsStep(encounters, i, now, dice);
        i := i + 1;
      }
      assert encounters[..i] == encounters;
    }

    /** The readings of the vital types chosen for encounter `i`, pushed in order. */
    method AddVitalsOfEncounter(i: nat)
      requires FairShuffles(dice) && i < |encounters|
      modifies this`vitals
      ensures vitals == old(vitals) + VitalsFor(encounters[i], i, now, dice)
    {
      var encounter := encounters[i];
      var chosen := ChosenVitals(i, dice);
      var j := 0;
      while j < |chosen|
        invariant 0 <= j <= |chosen|
        invariant vitals == old(vitals) + ObservationsOfVitals(encounter, i, chosen[..j], now, dice)
      {
        ghost var done := ObservationsOfVitals(encounter, i, chosen[..j], now, dice);
        AddVital(encounter, i, j, chosen[j]);
        Lists.AppendAssociative(old(vitals), done, ObservationsOfVital(encounter, i, j, chosen[j], now, dice));
        ObservationsOfVitalsStep(encounter, i, chosen, j, now, dice);
        j := j + 1;
      }
      assert chosen[..j] == chosen;
    }

    /** One reading of a single vital, or one per component of a panel, pushed in order. */
    method AddVital(encounter: Encounter, i: nat, j: nat, vital: VitalSpec)
      modifies this`vitals
      ensures vitals == old(vitals) + ObservationsOfVital(encounter, i, j, vital, now, dice)
    {
      match vital
      case Single(code, display, text, _, lo, hi) =>
        vitals := vitals + [VitalObservation(encounter, Draw(NewVital, i, j + 1, 0), code, display, text, lo, hi, now, dice)];
      case Panel(_, _, _, components) =>
        var c := 0;
        while c < |components|
          invariant 0 <= c <= |components|
          invariant vitals == old(vitals) + ComponentObservations(encounter, i, j, components[..c], now, dice)
        {
          var component := components[c];
          vitals := vitals + [VitalObservation(encounter, Draw(NewVital, i, j + 1, c), component.code, component.display,
                                               component.display, component.lo, component.hi, now, dice)];
          assert components[..c + 1][..c] == components[..c];
          c := c + 1;
        }
        assert components[..c] == components;
    }

    /** Labs: with the 40% draw, one to three tests per encounter. */
    method GenerateLabs()
      requires FairShuffles(dice)
      requires labs == []
      modifies this`labs
      ensures labs == AllLabs(encounters, now, dice)
    {
      var i := 0;
      while i < |encounters|
        invariant 0 <= i <= |encounters|
        invariant labs == AllLabs(encounters[..i], now, dice)
      {
        AddLabsOfEncounter(i);
        assert encounters[..i + 1][..i] == encounters[..i];
        i := i + 1;
      }
      assert encounters[..i] == encounters;
    }

    /** The lab results of the tests chosen for encounter `i`. */
    method AddLabsOfEncounter(i: nat)
      requires FairShuffles(dice) && i < |encounters|
      modifies this`labs
      ensures labs == old(labs) + LabsFor(encounters[i], i, now, dice)
    {
      var chosen := ChosenLabs(i, dice);
      ghost var results := LabsFor(encounters[i], i, now, dice);
      var j := 0;
      while j < |chosen|
        invariant 0 <= j <= |chosen|
        invariant labs == old(labs) + results[..j]
      {
        labs := labs + [LabObservation(encounters[i], Draw(NewLab, i, j + 1, 0), chosen[j], now, dice)];
        assert results[..j + 1] == results[..j] + [results[j]];
        j := j + 1;
      }
      assert results[..j] == results;
    }

    /** New medication orders: with the 50% draw, one per encounter. */
    method GenerateMedicationRequests()
      requires newMedicationRequests == []
      modifies this`newMedicationRequests
      ensures newMedicationRequests == AllMedications(encounters, practitionerIds, now, dice)
    {
      var i := 0;
      while i < |encounters|
        invariant 0 <= i <= |encounters|
        invariant newMedicationRequests == AllMedications(encounters[..i], practitionerIds, now, dice)
      {
        newMedicationRequests := newMedicationRequests + MedicationsFor(encounters[i], i, practitionerIds, now, dice);
        assert encounters[..i + 1][..i] == encounters[..i];
        i := i + 1;
      }
      assert encounters[..i] == encounters;
    }

    /** Existing observations without an encounter get a random encounter of their patient. */
    method LinkObservationsToEncounters()
      requires InRange(byPatient, |encounters|)
      modifies this`observations
      ensures observations == LinkObservations(old(observations), byPatient, encounters, dice)
    {
      var j := 0;
      while j < |observations|
        invariant 0 <= j <= |observations| && |observations| == |old(observations)|
        invariant forall q :: 0 <= q < j ==> observations[q] == LinkObservations(old(observations), byPatient, encounters, dice)[q]
        invariant forall q :: j <= q < |observations| ==> observations[q] == old(observations)[q]
      {
        var observation := observations[j];
        var pid := SubjectPatientId(observation.subject);
        if pid.Some? {
          var encs := EncountersFor(byPatient, pid.value);
          if |encs| > 0 && observation.encounter.None? {
            var e := encs[dice.draw(Draw(LinkObservation, j, 0, 0)) % |encs|];
            observations := observations[j := observation.(encounter := Some(EncounterRef(encounters[e])))];
          }
        }
        ghost var link := RandomEncounterLink(observation.subject, observation.encounter, byPatient, encounters, dice.draw(Draw(LinkObservation, j, 0, 0)));
        assert observations[j] == observation.(encounter := link);
        assert observations[j] == LinkObservations(old(observations), byPatient, encounters, dice)[j];
        j := j + 1;
      }
    }

    /** The patient's encounter closest to the date (or to now), for a resource that has a
        patient and no encounter yet; otherwise the link it has. */
    method ClosestLink(subject: Option<Reference>, encounter: Option<Reference>, when: Option<Time>) returns (link: Option<Reference>)
      requires InRange(byPatient, |encounters|)
      ensures link == ClosestEncounterLink(subject, encounter, when, byPatient, encounters, now)
    {
      link := encounter;
      var pid := SubjectPatientId(subject);
      if pid.Some? {
        var encs := EncountersFor(byPatient, pid.value);
        if |encs| > 0 && encounter.None? {
          var target := if when.Some? then when.value else now;
          var closest := FindClosest(encounters, encs, target);
          link := Some(EncounterRef(encounters[closest]));
        }
      }
    }

    /** Existing reports without an encounter get their patient's encounter closest in time. */
    method LinkReportsToEncounters()
      requires InRange(byPatient, |encounters|)
      modifies this`reports
      ensures reports == LinkReports(old(reports), byPatient, encounters, now)
    {
      ghost var linked := LinkReports(reports, byPatient, encounters, now);
      var j := 0;
      while j < |reports|
        invariant 0 <= j <= |reports| && |reports| == |old(reports)|
        invariant forall q :: 0 <= q < j ==> reports[q] == linked[q]
        invariant forall q :: j <= q < |reports| ==> reports[q] == old(reports)[q]
      {
        var report := reports[j];
        var link := ClosestLink(report.subject, report.encounter, report.effective);
        if link != report.encounter {
          reports := reports[j := report.(encounter := link)];
        }
        j := j + 1;
      }
    }

    /** Existing service requests without an encounter get their patient's encounter closest
        to the authoring date. */
    method LinkServiceRequestsToEncounters()
      requires InRange(byPatient, |encounters|)
      modifies this`serviceRequests
      ensures serviceRequests == LinkServiceRequests(old(serviceRequests), byPatient, encounters, now)
    {
      ghost var linked := LinkServiceRequests(serviceRequests, byPatient, encounters, now);
      var j := 0;
      while j < |serviceRequests|
        invariant 0 <= j <= |serviceRequests| && |serviceRequests| == |old(serviceRequests)|
        invariant forall q :: 0 <= q < j ==> serviceRequests[q] == linked[q]
        invariant forall q :: j <= q < |serviceRequests| ==> serviceRequests[q] == old(serviceRequests)[q]
      {
        var request := serviceRequests[j];
        var link := ClosestLink(request.subject, request.encounter, request.authoredOn);
        if link != request.encounter {
          serviceRequests := serviceRequests[j := request.(encounter := link)];
        }
        j := j + 1;
      }
    }

    /** Existing medication requests without an encounter get a random encounter of their patient. */
    method LinkMedicationRequestsToEncounters()
      requires InRange(byPatient, |encounters|)
      modifies this`medicationRequests
      ensures medicationRequests == LinkMedications(old(medicationRequests), byPatient, encounters, dice)
    {
      var j := 0;
      while j < |medicationRequests|
        invariant 0 <= j <= |medicationRequests| && |medicationRequests| == |old(medicationRequests)|
        invariant forall q :: 0 <= q < j ==> medicationRequests[q] == LinkMedications(old(medicationRequests), byPatient, encounters, dice)[q]
        invariant forall q :: j <= q < |medicationRequests| ==> medicationRequests[q] == old(medicationRequests)[q]
      {
        var request := medicationRequests[j];
        var pid := SubjectPatientId(request.subject);
        if pid.Some? {
          var encs := EncountersFor(byPatient, pid.value);
          if |encs| > 0 && request.encounter.None? {
            var e := encs[dice.draw(Draw(LinkMedication, j, 0, 0)) % |encs|];
            medicationRequests := medicationRequests[j := request.(encounter := Some(EncounterRef(encounters[e])))];
          }
        }
        ghost var link := RandomEncounterLink(request.subject, request.encounter, byPatient, encounters, dice.draw(Draw(LinkMedication, j, 0, 0)));
        assert medicationRequests[j] == request.(encounter := link);
        assert medicationRequests[j] == LinkMedications(old(medicationRequests), byPatient, encounters, dice)[j];
        j := j + 1;
      }
    }

    /** Admission diagnoses for encounters without any, from their patient's conditions. */
    method AttachEncounterDiagnoses()
      requires Valid() && FairShuffles(dice)
      modifies this`encounters
      ensures encounters == AttachDiagnoses(old(encounters), conditions, dice)
      ensures Valid()
    {
      ghost var target := AttachDiagnoses(encounters, conditions, dice);
      var i := 0;
      while i < |encounters|
        invariant i <= |encounters| == |old(encounters)|
        invariant forall j :: 0 <= j < i ==> encounters[j] == target[j]
        invariant forall j :: i <= j < |encounters| ==> encounters[j] == old(encounters)[j]
      {
        var encounter := encounters[i];
        encounters := encounters[i := encounter.(diagnosis := DiagnosesFor(encounter, i, conditions, dice))];
        i := i + 1;
      }
      SoundAfterEdit(byPatient, old(encounters), encounters);
    }

    /** `observations.json`: the existing observations, then the vitals, then the labs. */
    function ObservationsFile(): (r: seq<Observation>)
      reads this
      ensures |r| == |observations| + |vitals| + |labs|
      ensures r[..|observations|] == observations
      ensures r[|observations|..|observations| + |vitals|] == vitals
      ensures r[|observations| + |vitals|..] == labs
    {
      observations + vitals + labs
    }

    /** `medicationRequests.json`: the existing requests, then the new ones. */
    function MedicationRequestsFile(): (r: seq<MedicationRequest>)
      reads this
      ensures |r| == |medicationRequests| + |newMedicationRequests|
      ensures r[..|medicationRequests|] == medicationRequests && r[|medicationRequests|..] == newMedicationRequests
    {
      medicationRequests + newMedicationRequests
    }
  }
}
