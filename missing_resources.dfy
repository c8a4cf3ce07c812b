/** The missing-resource generator of the mock-JSON package: one Observation per distinct
    diagnostic-report result reference, one Coverage per distinct service-request insurance
    reference, display text back-filled on those references, and five organisations appended
    under the main one. Random values and UUIDs are oracles. */
module MissingResources {
  import opened Fhir

  /** The random draws, keyed by (report or request position, reference position). */
  datatype Draws = Draws(
    value: (nat, nat) -> real,
    interpretation: (nat, nat) -> nat,
    payer: (nat, nat) -> nat,
    uuid: nat -> string)

  const DefaultCoding := Coding("http://loinc.org", "00000-0", "Observation")
  const Interpretations: seq<string> := ["N", "A", "H", "L"]
  const Payers: seq<string> := [
    "BlueCross BlueShield", "UnitedHealthcare", "Aetna", "Cigna",
    "Humana", "Medicare", "Medicaid", "Kaiser Permanente"]
  const FallbackOrganizationId := "34c95d53-17b0-4985-855e-5db90d67c161"

  // ---------------------------------------------------------------------
  // First-seen de-duplication, the reference definition of both maps' key order

  /** `keys` extended by the entries of `s` it does not hold yet, in first-seen order. */
  function Extend(keys: seq<string>, s: seq<string>): seq<string> {
    if s == [] then keys
    else
      var prev := Extend(keys, s[..|s| - 1]);
      if s[|s| - 1] in prev then prev else prev + [s[|s| - 1]]
  }

  function Dedup(s: seq<string>): seq<string> {
    Extend([], s)
  }

  ghost predicate Distinct(s: seq<string>) {
    forall i, j :: 0 <= i < j < |s| ==> s[i] != s[j]
  }

  /** Extending keeps the old keys in front, adds exactly the new values, and never repeats one. */
  lemma {:induction false} ExtendFacts(keys: seq<string>, s: seq<string>)
    requires Distinct(keys)
    ensures var r := Extend(keys, s);
            && Distinct(r) && |keys| <= |r| && r[..|keys|] == keys
            && forall x :: x in r <==> x in keys || x in s
  {
    if s != [] {
      ExtendFacts(keys, s[..|s| - 1]);
      var prev := Extend(keys, s[..|s| - 1]);
      var r := Extend(keys, s);
      assert s == s[..|s| - 1] + [s[|s| - 1]];
      if s[|s| - 1] !in prev {
        assert r[..|keys|] == prev[..|keys|];
      }
    }
  }

  /** Extending by `a + b` is extending by `a`, then by `b`. */
  lemma {:induction false} ExtendAppend(keys: seq<string>, a: seq<string>, b: seq<string>)
    ensures Extend(keys, a + b) == Extend(Extend(keys, a), b)
  {
    if b == [] {
      assert a + b == a;
    } else {
      assert (a + b)[..|a + b| - 1] == a + b[..|b| - 1];
      ExtendAppend(keys, a, b[..|b| - 1]);
    }
  }

  // ---------------------------------------------------------------------
  // Observations for report results

  function ResultsOf(report: DiagnosticReport): seq<Reference> {
    if report.result.Some? then report.result.value else []
  }

  /** The report's code text, or 'Observation' when it has none or an empty one. */
  function ReportText(report: DiagnosticReport): string {
    OrElse(if report.code.Some? then report.code.value.text else None, "Observation")
  }

  /** The report's codings, or the single LOINC 00000-0 coding when it has none; an empty list is kept, as it is truthy. */
  function ReportCoding(report: DiagnosticReport): seq<Coding> {
    if report.code.Some? && report.code.value.coding.Some? then report.code.value.coding.value else [DefaultCoding]
  }

  function ResultLabel(report: DiagnosticReport): string {
    ReportText(report) + " Result"
  }

  /** The Observation made for the result reference `ref` at position `j` of report `k`. */
  function NewObservation(report: DiagnosticReport, ref: string, k: nat, j: nat, now: Time, draws: Draws): Observation {
    Observation(
      SecondSegment(ref), "final", None,
      Some(CodeableConcept(Some(ReportCoding(report)), Some(ReportText(report)))),
      report.subject, None,
      Some(if report.effective.Some? then report.effective.value else now),
      Some(draws.value(k, j)),
      Some(Interpretations[draws.interpretation(k, j) % |Interpretations|]))
  }

  /** `observations` and the keys of `observationMap`, in insertion order. */
  datatype ObservationRun = ObservationRun(observations: seq<Observation>, keys: seq<string>)

  function AddResults(run: ObservationRun, report: DiagnosticReport, k: nat, refs: seq<Reference>, now: Time, draws: Draws): ObservationRun {
    if refs == [] then run
    else
      var prev := AddResults(run, report, k, refs[..|refs| - 1], now, draws);
      var ref := refs[|refs| - 1].reference;
      if Truthy(ref) && ref.value !in prev.keys then
        ObservationRun(prev.observations + [NewObservation(report, ref.value, k, |refs| - 1, now, draws)], prev.keys + [ref.value])
      else prev
  }

  function SynthesiseObservations(reports: seq<DiagnosticReport>, now: Time, draws: Draws): ObservationRun {
    if reports == [] then ObservationRun([], [])
    else
      var k := |reports| - 1;
      AddResults(SynthesiseObservations(reports[..k], now, draws), reports[k], k, ResultsOf(reports[k]), now, draws)
  }

  /** The truthy reference strings of a list, in order. */
  function TruthyRefs(refs: seq<Reference>): seq<string> {
    if refs == [] then []
    else
      var ref := refs[|refs| - 1].reference;
      TruthyRefs(refs[..|refs| - 1]) + (if Truthy(ref) then [ref.value] else [])
  }

  function AllResultRefs(reports: seq<DiagnosticReport>): seq<string> {
    if reports == [] then []
    else AllResultRefs(reports[..|reports| - 1]) + TruthyRefs(ResultsOf(reports[|reports| - 1]))
  }

  /** The run keys are the first-seen de-duplication of the results seen so far, and there is
      one observation per key, with the id taken from the key's second segment. */
  ghost predicate ObservationRunWellFormed(run: ObservationRun) {
    |run.observations| == |run.keys|
    && forall i :: 0 <= i < |run.keys| ==> run.observations[i].id == SecondSegment(run.keys[i])
  }

  lemma {:induction false} AddResultsFacts(run: ObservationRun, report: DiagnosticReport, k: nat, refs: seq<Reference>, now: Time, draws: Draws)
    requires ObservationRunWellFormed(run)
    ensures var r := AddResults(run, report, k, refs, now, draws);
            && r.keys == Extend(run.keys, TruthyRefs(refs))
            && ObservationRunWellFormed(r)
            && |run.observations| <= |r.observations| && r.observations[..|run.observations|] == run.observations
            && forall i :: |run.observations| <= i < |r.observations| ==>
                 r.observations[i].subject == report.subject && r.observations[i].code.Some?
                 && r.observations[i].code.value.text == Some(ReportText(report))
  {
    if refs != [] {
      var front := refs[..|refs| - 1];
      AddResultsFacts(run, report, k, front, now, draws);
      var prev := AddResults(run, report, k, front, now, draws);
      var ref := refs[|refs| - 1].reference;
      assert TruthyRefs(refs) == TruthyRefs(front) + (if Truthy(ref) then [ref.value] else []);
      ExtendAppend(run.keys, TruthyRefs(front), if Truthy(ref) then [ref.value] else []);
      if Truthy(ref) {
        assert Extend(prev.keys, [ref.value]) == Extend(prev.keys, [ref.value][..0]) + (if ref.value in prev.keys then [] else [ref.value]);
      }
      var r := AddResults(run, report, k, refs, now, draws);
      assert r.observations[..|prev.observations|] == prev.observations;
    }
  }

  /** One Observation per distinct truthy result reference, in first-seen order, with the id
      from the reference's second segment. */
  lemma {:induction false} ObservationPerReference(reports: seq<DiagnosticReport>, now: Time, draws: Draws)
    ensures var run := SynthesiseObservations(reports, now, draws);
            && run.keys == Dedup(AllResultRefs(reports))
            && Distinct(run.keys) && |run.observations| == |run.keys|
            && (forall x :: x in run.keys <==> x in AllResultRefs(reports))
            && (forall i :: 0 <= i < |run.keys| ==> run.observations[i].id == SecondSegment(run.keys[i]))
  {
    if reports != [] {
      var k := |reports| - 1;
      var front := reports[..k];
      ObservationPerReference(front, now, draws);
      var prev := SynthesiseObservations(front, now, draws);
      AddResultsFacts(prev, reports[k], k, ResultsOf(reports[k]), now, draws);
      ExtendAppend([], AllResultRefs(front), TruthyRefs(ResultsOf(reports[k])));
      var run := SynthesiseObservations(reports, now, draws);
      ExtendFacts([], AllResultRefs(reports));
    } else {
      assert Dedup([]) == [];
    }
  }

  /** A truthy reference string of the list is among its truthy references. */
  lemma {:induction false} TruthyRefsHas(refs: seq<Reference>, j: nat)
    requires j < |refs| && Truthy(refs[j].reference)
    ensures refs[j].reference.value in TruthyRefs(refs)
  {
    if j < |refs| - 1 {
      TruthyRefsHas(refs[..|refs| - 1], j);
    }
  }

  /** The truthy references of one report are among those of all reports. */
  lemma {:induction false} AllResultRefsHas(reports: seq<DiagnosticReport>, k: nat)
    requires k < |reports|
    ensures forall x :: x in TruthyRefs(ResultsOf(reports[k])) ==> x in AllResultRefs(reports)
  {
    if k < |reports| - 1 {
      AllResultRefsHas(reports[..|reports| - 1], k);
    }
  }

  /** Position `j` of `refs` is the first whose reference string is `key`. */
  ghost predicate FirstAt(refs: seq<Reference>, key: string, j: nat) {
    && j < |refs| && refs[j].reference == Some(key)
    && forall j' :: 0 <= j' < j ==> refs[j'].reference != Some(key)
  }

  /** Report `k` is the first report citing `key`, first at its result position `j`. */
  ghost predicate FirstCitedAt(reports: seq<DiagnosticReport>, key: string, k: nat, j: nat) {
    && k < |reports| && FirstAt(ResultsOf(reports[k]), key, j)
    && forall k' :: 0 <= k' < k ==> key !in TruthyRefs(ResultsOf(reports[k']))
  }

  /** `o` is built from `report` for the result `key` at position (`k`, `j`): the id is the key's
      second segment, the status is final, the code copies the report's codings (the LOINC
      00000-0 coding when it has none) and text, the subject is the report's, the time is the
      report's or else `now`, and the value and interpretation are that position's draws. */
  ghost predicate ObservationOf(o: Observation, report: DiagnosticReport, key: string, k: nat, j: nat, now: Time, draws: Draws) {
    && o.id == SecondSegment(key) && o.status == "final" && o.category.None? && o.encounter.None?
    && o.code == Some(CodeableConcept(Some(ReportCoding(report)), Some(ReportText(report))))
    && o.subject == report.subject
    && o.effective == Some(if report.effective.Some? then report.effective.value else now)
    && o.value == Some(draws.value(k, j))
    && o.interpretation == Some(Interpretations[draws.interpretation(k, j) % |Interpretations|])
  }

  /** One report's results extend the keys, keep the earlier keys and observations in front,
      add only keys not held yet, and leave every truthy result a key. */
  lemma {:induction false} AddResultsShape(run: ObservationRun, report: DiagnosticReport, k: nat, refs: seq<Reference>, now: Time, draws: Draws)
    requires |run.observations| == |run.keys|
    ensures var r := AddResults(run, report, k, refs, now, draws);
            && |r.observations| == |r.keys| && |run.keys| <= |r.keys|
            && r.keys[..|run.keys|] == run.keys && r.observations[..|run.keys|] == run.observations
            && (forall x :: x in TruthyRefs(refs) ==> x in r.keys)
            && forall i :: |run.keys| <= i < |r.keys| ==> r.keys[i] !in run.keys
  {
    if refs != [] {
      var front := refs[..|refs| - 1];
      AddResultsShape(run, report, k, front, now, draws);
      var prev := AddResults(run, report, k, front, now, draws);
      var ref := refs[|refs| - 1].reference;
      assert TruthyRefs(refs) == TruthyRefs(front) + (if Truthy(ref) then [ref.value] else []);
      if Truthy(ref) && ref.value !in prev.keys {
        assert ref.value !in run.keys by {
          assert run.keys == prev.keys[..|run.keys|];
        }
      }
    }
  }

  /** A first citing position in a prefix is still the first in the whole list. */
  lemma FirstAtKept(refs: seq<Reference>, n: nat, key: string, j: nat)
    requires n <= |refs| && FirstAt(refs[..n], key, j)
    ensures FirstAt(refs, key, j)
  {
    assert forall j' :: 0 <= j' <= j ==> refs[..n][j'] == refs[j'];
  }

  /** The last result is the first one citing its reference when no earlier result does. */
  lemma LastIsFirst(refs: seq<Reference>, keys: seq<string>)
    requires refs != [] && Truthy(refs[|refs| - 1].reference) && refs[|refs| - 1].reference.value !in keys
    requires forall x :: x in TruthyRefs(refs[..|refs| - 1]) ==> x in keys
    ensures FirstAt(refs, refs[|refs| - 1].reference.value, |refs| - 1)
  {
    var key := refs[|refs| - 1].reference.value;
    forall j' | 0 <= j' < |refs| - 1
      ensures refs[j'].reference != Some(key)
    {
      if refs[j'].reference == Some(key) {
        assert refs[..|refs| - 1][j'] == refs[j'];
        TruthyRefsHas(refs[..|refs| - 1], j');
      }
    }
  }

  /** `o` is built for `key` from `report` at the first position of `refs` citing it. */
  ghost predicate BuiltAtFirst(refs: seq<Reference>, report: DiagnosticReport, key: string, o: Observation, k: nat, now: Time, draws: Draws) {
    exists j: nat :: FirstAt(refs, key, j) && ObservationOf(o, report, key, k, j, now, draws)
  }

  /** The observations one report adds are each built from that report at the first result
      position citing their key. */
  lemma {:induction false} AddResultsOrigin(run: ObservationRun, report: DiagnosticReport, k: nat, refs: seq<Reference>, now: Time, draws: Draws)
    requires |run.observations| == |run.keys|
    ensures var r := AddResults(run, report, k, refs, now, draws);
            |r.observations| == |r.keys| &&
            forall i :: |run.keys| <= i < |r.keys| ==> BuiltAtFirst(refs, report, r.keys[i], r.observations[i], k, now, draws)
  {
    AddResultsShape(run, report, k, refs, now, draws);
    if refs != [] {
      var front := refs[..|refs| - 1];
      AddResultsOrigin(run, report, k, front, now, draws);
      AddResultsShape(run, report, k, front, now, draws);
      var prev := AddResults(run, report, k, front, now, draws);
      var r := AddResults(run, report, k, refs, now, draws);
      assert r.keys[..|prev.keys|] == prev.keys && r.observations[..|prev.keys|] == prev.observations;
      forall i | |run.keys| <= i < |prev.keys|
        ensures BuiltAtFirst(refs, report, r.keys[i], r.observations[i], k, now, draws)
      {
        var j: nat :| FirstAt(front, prev.keys[i], j) && ObservationOf(prev.observations[i], report, prev.keys[i], k, j, now, draws);
        assert r.keys[i] == prev.keys[i] && r.observations[i] == prev.observations[i];
        FirstAtKept(refs, |refs| - 1, prev.keys[i], j);
      }
      var ref := refs[|refs| - 1].reference;
      if Truthy(ref) && ref.value !in prev.keys {
        LastIsFirst(refs, prev.keys);
        assert ObservationOf(r.observations[|prev.keys|], report, ref.value, k, |refs| - 1, now, draws);
      }
    }
  }

  /** `o` is built for `key` from the first report citing it, at that report's first position citing it. */
  ghost predicate BuiltFromFirstCiter(reports: seq<DiagnosticReport>, key: string, o: Observation, now: Time, draws: Draws) {
    exists k: nat, j: nat :: FirstCitedAt(reports, key, k, j) && ObservationOf(o, reports[k], key, k, j, now, draws)
  }

  /** An observation built from the first citing report of a prefix still is one after more
      reports are appended. */
  lemma OriginKept(reports: seq<DiagnosticReport>, n: nat, key: string, o: Observation, now: Time, draws: Draws)
    requires n <= |reports| && BuiltFromFirstCiter(reports[..n], key, o, now, draws)
    ensures BuiltFromFirstCiter(reports, key, o, now, draws)
  {
    var k: nat, j: nat :| FirstCitedAt(reports[..n], key, k, j) && ObservationOf(o, reports[..n][k], key, k, j, now, draws);
    assert forall k' :: 0 <= k' <= k ==> reports[..n][k'] == reports[k'];
    assert FirstCitedAt(reports, key, k, j);
  }

  /** A key that no earlier report cites is first cited by the last report. */
  lemma OriginNew(reports: seq<DiagnosticReport>, key: string, j: nat)
    requires reports != [] && key !in AllResultRefs(reports[..|reports| - 1])
    requires FirstAt(ResultsOf(reports[|reports| - 1]), key, j)
    ensures FirstCitedAt(reports, key, |reports| - 1, j)
  {
    var front := reports[..|reports| - 1];
    forall k | 0 <= k < |front|
      ensures key !in TruthyRefs(ResultsOf(reports[k]))
    {
      assert front[k] == reports[k];
      AllResultRefsHas(front, k);
    }
  }

  /** Each observation is built from the first report citing its key, at the first result
      position of that report citing it, as the script's first encounter with a reference
      creates the observation and later ones leave it alone. */
  lemma {:induction false} ObservationFromFirstCiter(reports: seq<DiagnosticReport>, now: Time, draws: Draws)
    ensures var run := SynthesiseObservations(reports, now, draws);
            && |run.observations| == |run.keys|
            && (forall x :: x in AllResultRefs(reports) ==> x in run.keys)
            && forall i :: 0 <= i < |run.keys| ==> BuiltFromFirstCiter(reports, run.keys[i], run.observations[i], now, draws)
  {
    if reports != [] {
      var k := |reports| - 1;
      var front := reports[..k];
      ObservationFromFirstCiter(front, now, draws);
      var prev := SynthesiseObservations(front, now, draws);
      AddResultsShape(prev, reports[k], k, ResultsOf(reports[k]), now, draws);
      AddResultsOrigin(prev, reports[k], k, ResultsOf(reports[k]), now, draws);
      var run := SynthesiseObservations(reports, now, draws);
      assert AllResultRefs(reports) == AllResultRefs(front) + TruthyRefs(ResultsOf(reports[k]));
      forall x | x in prev.keys
        ensures x in run.keys
      {
        var p :| 0 <= p < |prev.keys| && prev.keys[p] == x;
        assert run.keys[p] == x;
      }
      forall i | 0 <= i < |run.keys|
        ensures BuiltFromFirstCiter(reports, run.keys[i], run.observations[i], now, draws)
      {
        if i < |prev.keys| {
          assert run.keys[i] == prev.keys[i] && run.observations[i] == prev.observations[i];
          OriginKept(reports, k, run.keys[i], run.observations[i], now, draws);
        } else {
          var j: nat :| FirstAt(ResultsOf(reports[k]), run.keys[i], j)
                        && ObservationOf(run.observations[i], reports[k], run.keys[i], k, j, now, draws);
          OriginNew(reports, run.keys[i], j);
          assert FirstCitedAt(reports, run.keys[i], k, j);
        }
      }
    }
  }

  /** Every result reference with a truthy reference string is labelled after the current
      report's code text, on a first and a repeated occurrence alike; others are untouched. */
  function LabelResult(report: DiagnosticReport, ref: Reference): (r: Reference)
    ensures r.reference == ref.reference
    ensures Truthy(ref.reference) ==> r.display == Some(ReportText(report) + " Result")
    ensures !Truthy(ref.reference) ==> r == ref
  {
    if Truthy(ref.reference) then ref.(display := Some(ResultLabel(report))) else ref
  }

  function LabelResults(report: DiagnosticReport, refs: seq<Reference>): (r: seq<Reference>)
    ensures |r| == |refs| && forall j :: 0 <= j < |refs| ==> r[j] == LabelResult(report, refs[j])
  {
    if refs == [] then []
    else LabelResults(report, refs[..|refs| - 1]) + [LabelResult(report, refs[|refs| - 1])]
  }

  function LabelReport(report: DiagnosticReport): (r: DiagnosticReport)
    ensures r.(result := report.result) == report
    ensures r.result.Some? <==> report.result.Some?
  {
    if report.result.Some? then report.(result := Some(LabelResults(report, report.result.value))) else report
  }

  // ---------------------------------------------------------------------
  // Coverages for request insurance

  /** The display of a coverage's first payer, or 'Insurance' when there is none or it is empty. */
  function PayerOf(c: Coverage): string {
    if |c.payor| > 0 then OrElse(c.payor[0].display, "Insurance") else "Insurance"
  }

  function NewCoverage(request: ServiceRequest, ref: string, payer: string): (c: Coverage)
    ensures PayerOf(c) == payer || payer == ""
  {
    Coverage(SecondSegment(ref), "active", request.subject, request.subject, [Reference(None, Some(payer))])
  }

  function InsuranceOf(request: ServiceRequest): seq<Reference> {
    if request.insurance.Some? then request.insurance.value else []
  }

  /** `coverages`, the keys of `coverageMap` in insertion order, and `coverageMap` itself. */
  datatype CoverageRun = CoverageRun(coverages: seq<Coverage>, keys: seq<string>, byRef: map<string, Coverage>)

  ghost predicate CoverageRunWellFormed(run: CoverageRun) {
    && |run.coverages| == |run.keys|
    && (forall x :: x in run.byRef <==> x in run.keys)
    && (forall i :: 0 <= i < |run.keys| ==> run.byRef[run.keys[i]] == run.coverages[i])
    && (forall x :: x in run.byRef ==> run.byRef[x].id == SecondSegment(x) && PayerOf(run.byRef[x]) in Payers)
  }

  /** One insurance reference: a new coverage with a random payer, or the stored payer. */
  function InsuranceStep(run: CoverageRun, request: ServiceRequest, k: nat, j: nat, ins: Reference, draws: Draws): (CoverageRun, Reference) {
    var ref := ins.reference;
    if Truthy(ref) && ref.value !in run.byRef then
      var payer := Payers[draws.payer(k, j) % |Payers|];
      var c := NewCoverage(request, ref.value, payer);
      (CoverageRun(run.coverages + [c], run.keys + [ref.value], run.byRef[ref.value := c]), ins.(display := Some(payer)))
    else if Truthy(ref) then
      (run, ins.(display := Some(PayerOf(run.byRef[ref.value]))))
    else (run, ins)
  }

  function AddInsurance(run: CoverageRun, request: ServiceRequest, k: nat, refs: seq<Reference>, draws: Draws): (r: (CoverageRun, seq<Reference>))
    ensures |r.1| == |refs|
  {
    if refs == [] then (run, [])
    else
      var prev := AddInsurance(run, request, k, refs[..|refs| - 1], draws);
      var step := InsuranceStep(prev.0, request, k, |refs| - 1, refs[|refs| - 1], draws);
      (step.0, prev.1 + [step.1])
  }

  function SynthesiseCoverages(requests: seq<ServiceRequest>, draws: Draws): (r: (CoverageRun, seq<ServiceRequest>))
    ensures |r.1| == |requests|
    ensures forall k :: 0 <= k < |requests| ==> |InsuranceOf(r.1[k])| == |InsuranceOf(requests[k])|
  {
    if requests == [] then (CoverageRun([], [], map[]), [])
    else
      var k := |requests| - 1;
      var prev := SynthesiseCoverages(requests[..k], draws);
      var request := requests[k];
      if request.insurance.Some? then
        var step := AddInsurance(prev.0, request, k, request.insurance.value, draws);
        (step.0, prev.1 + [request.(insurance := Some(step.1))])
      else (prev.0, prev.1 + [request])
  }

  function AllInsuranceRefs(requests: seq<ServiceRequest>): seq<string> {
    if requests == [] then []
    else AllInsuranceRefs(requests[..|requests| - 1]) + TruthyRefs(InsuranceOf(requests[|requests| - 1]))
  }

  /** A labelled insurance reference shows the payer of the coverage stored for it. */
  ghost predicate ShowsPayer(run: CoverageRun, ins: Reference) {
    Truthy(ins.reference) ==> ins.reference.value in run.byRef && ins.display == Some(PayerOf(run.byRef[ins.reference.value]))
  }

  /** A run only adds coverages: nothing stored before changes. */
  ghost predicate Grows(run: CoverageRun, run': CoverageRun) {
    forall x :: x in run.byRef ==> x in run'.byRef && run'.byRef[x] == run.byRef[x]
  }

  /** A run that only adds coverages still shows every payer it showed. */
  lemma GrowsKeepsPayer(run: CoverageRun, run': CoverageRun, ins: Reference)
    requires ShowsPayer(run, ins) && Grows(run, run')
    ensures ShowsPayer(run', ins)
  {
  }

  /** A reference not stored yet gets a new coverage, appended under the reference. */
  lemma NewCoverageStep(run: CoverageRun, request: ServiceRequest, k: nat, j: nat, ins: Reference, draws: Draws)
    requires CoverageRunWellFormed(run)
    requires Truthy(ins.reference) && ins.reference.value !in run.byRef
    ensures var (r, out) := InsuranceStep(run, request, k, j, ins, draws);
            && CoverageRunWellFormed(r) && Grows(run, r)
            && r.keys == run.keys + [ins.reference.value]
            && ShowsPayer(r, out)
  {
    var ref := ins.reference.value;
    var payer := Payers[draws.payer(k, j) % |Payers|];
    var c := NewCoverage(request, ref, payer);
    assert PayerOf(c) == payer;
    var r := InsuranceStep(run, request, k, j, ins, draws).0;
    assert r == CoverageRun(run.coverages + [c], run.keys + [ref], run.byRef[ref := c]);
    forall i | 0 <= i < |r.keys|
      ensures r.byRef[r.keys[i]] == r.coverages[i]
    {
      if i < |run.keys| {
        assert run.keys[i] != ref;
      }
    }
  }

  lemma InsuranceStepFacts(run: CoverageRun, request: ServiceRequest, k: nat, j: nat, ins: Reference, draws: Draws)
    requires CoverageRunWellFormed(run)
    ensures var (r, out) := InsuranceStep(run, request, k, j, ins, draws);
            && CoverageRunWellFormed(r) && Grows(run, r)
            && r.keys == Extend(run.keys, TruthyRefs([ins]))
            && out.reference == ins.reference && ShowsPayer(r, out)
            && (!Truthy(ins.reference) ==> out == ins)
  {
    var ref := ins.reference;
    assert TruthyRefs([ins]) == (if Truthy(ref) then [ref.value] else []) by {
      assert [ins][..0] == [];
    }
    if Truthy(ref) {
      assert Extend(run.keys, [ref.value]) == Extend(run.keys, [ref.value][..0]) + (if ref.value in run.keys then [] else [ref.value]);
      if ref.value !in run.byRef {
        NewCoverageStep(run, request, k, j, ins, draws);
      }
    }
  }

  /** The run after one request's insurance list: still well formed, grown, and keyed by the
      list's new truthy references in order. */
  lemma {:induction false} AddInsuranceRun(run: CoverageRun, request: ServiceRequest, k: nat, refs: seq<Reference>, draws: Draws)
    requires CoverageRunWellFormed(run)
    ensures var r := AddInsurance(run, request, k, refs, draws).0;
            && CoverageRunWellFormed(r) && Grows(run, r)
            && r.keys == Extend(run.keys, TruthyRefs(refs))
  {
    if refs != [] {
      var front := refs[..|refs| - 1];
      var last := refs[|refs| - 1];
      AddInsuranceRun(run, request, k, front, draws);
      var prev := AddInsurance(run, request, k, front, draws);
      InsuranceStepFacts(prev.0, request, k, |refs| - 1, last, draws);
      assert TruthyRefs(refs) == TruthyRefs(front) + TruthyRefs([last]) by {
        assert [last][..0] == [];
      }
      ExtendAppend(run.keys, TruthyRefs(front), TruthyRefs([last]));
    }
  }

  /** Each labelled reference keeps its reference and shows the payer the run stores for it. */
  ghost predicate Labelled(run: CoverageRun, out: seq<Reference>, refs: seq<Reference>) {
    |out| == |refs| && forall j :: 0 <= j < |refs| ==> out[j].reference == refs[j].reference && ShowsPayer(run, out[j])
  }

  lemma LabelledGrows(run: CoverageRun, run': CoverageRun, out: seq<Reference>, refs: seq<Reference>)
    requires Labelled(run, out, refs) && Grows(run, run')
    ensures Labelled(run', out, refs)
  {
    forall j | 0 <= j < |refs|
      ensures ShowsPayer(run', out[j])
    {
      GrowsKeepsPayer(run, run', out[j]);
    }
  }

  lemma LabelledAppend(run: CoverageRun, out: seq<Reference>, refs: seq<Reference>, o: Reference, x: Reference)
    requires Labelled(run, out, refs) && o.reference == x.reference && ShowsPayer(run, o)
    ensures Labelled(run, out + [o], refs + [x])
  {
  }

  /** One reference labelled: the run stays well formed and grows, the label shows its payer. */
  lemma InsuranceStepLabel(run: CoverageRun, request: ServiceRequest, k: nat, j: nat, ins: Reference, draws: Draws)
    requires CoverageRunWellFormed(run)
    ensures var (r, out) := InsuranceStep(run, request, k, j, ins, draws);
            && CoverageRunWellFormed(r) && Grows(run, r)
            && out.reference == ins.reference && ShowsPayer(r, out)
  {
    if Truthy(ins.reference) && ins.reference.value !in run.byRef {
      NewCoverageStep(run, request, k, j, ins, draws);
    }
  }

  lemma {:induction false} AddInsuranceLabels(run: CoverageRun, request: ServiceRequest, k: nat, refs: seq<Reference>, draws: Draws)
    requires CoverageRunWellFormed(run)
    ensures var (r, out) := AddInsurance(run, request, k, refs, draws);
            CoverageRunWellFormed(r) && Grows(run, r) && Labelled(r, out, refs)
  {
    if refs != [] {
      var front := refs[..|refs| - 1];
      var last := refs[|refs| - 1];
      AddInsuranceLabels(run, request, k, front, draws);
      var prev := AddInsurance(run, request, k, front, draws);
      InsuranceStepLabel(prev.0, request, k, |refs| - 1, last, draws);
      var step := InsuranceStep(prev.0, request, k, |refs| - 1, last, draws);
      LabelledGrows(prev.0, step.0, prev.1, front);
      LabelledAppend(step.0, prev.1, front, step.1, last);
      assert front + [last] == refs;
    }
  }

  /** One request's insurance list: the run stays well formed and grows by the list's new
      truthy references, and every labelled reference shows its coverage's payer. */
  lemma AddInsuranceFacts(run: CoverageRun, request: ServiceRequest, k: nat, refs: seq<Reference>, draws: Draws)
    requires CoverageRunWellFormed(run)
    ensures var (r, out) := AddInsurance(run, request, k, refs, draws);
            && CoverageRunWellFormed(r) && Grows(run, r)
            && r.keys == Extend(run.keys, TruthyRefs(refs))
            && forall j :: 0 <= j < |refs| ==> out[j].reference == refs[j].reference && ShowsPayer(r, out[j])
  {
    AddInsuranceRun(run, request, k, refs, draws);
    AddInsuranceLabels(run, request, k, refs, draws);
  }

  /** Request `o` is request `r` with the same insurance references, each showing the payer
      of its coverage in `run`. */
  ghost predicate RequestLabelled(run: CoverageRun, o: ServiceRequest, r: ServiceRequest) {
    && o.(insurance := r.insurance) == r
    && |InsuranceOf(o)| == |InsuranceOf(r)|
    && forall j :: 0 <= j < |InsuranceOf(o)| ==>
         InsuranceOf(o)[j].reference == InsuranceOf(r)[j].reference && ShowsPayer(run, InsuranceOf(o)[j])
  }

  lemma RequestLabelledGrows(run: CoverageRun, run': CoverageRun, o: ServiceRequest, r: ServiceRequest)
    requires RequestLabelled(run, o, r) && Grows(run, run')
    ensures RequestLabelled(run', o, r)
  {
    forall j | 0 <= j < |InsuranceOf(o)|
      ensures ShowsPayer(run', InsuranceOf(o)[j])
    {
      GrowsKeepsPayer(run, run', InsuranceOf(o)[j]);
    }
  }

  /** The last request: its insurance list is labelled, and the run grows by its new references. */
  lemma LastRequestLabelled(requests: seq<ServiceRequest>, draws: Draws)
    requires requests != []
    requires CoverageRunWellFormed(SynthesiseCoverages(requests[..|requests| - 1], draws).0)
    ensures var k := |requests| - 1;
            var prev := SynthesiseCoverages(requests[..k], draws);
            var res := SynthesiseCoverages(requests, draws);
            && CoverageRunWellFormed(res.0) && Grows(prev.0, res.0)
            && res.0.keys == Extend(prev.0.keys, TruthyRefs(InsuranceOf(requests[k])))
            && res.1 == prev.1 + [res.1[k]]
            && RequestLabelled(res.0, res.1[k], requests[k])
  {
    var k := |requests| - 1;
    var prev := SynthesiseCoverages(requests[..k], draws);
    AddInsuranceFacts(prev.0, requests[k], k, InsuranceOf(requests[k]), draws);
  }

  /** One Coverage per distinct truthy insurance reference, in first-seen order, with the id
      from the reference's second segment and one of the eight payers; afterwards every
      insurance reference to one coverage displays that coverage's payer. */
  lemma {:induction false} CoveragePerReference(requests: seq<ServiceRequest>, draws: Draws)
    ensures var (run, out) := SynthesiseCoverages(requests, draws);
            && CoverageRunWellFormed(run)
            && run.keys == Dedup(AllInsuranceRefs(requests))
            && (forall k :: 0 <= k < |requests| ==> RequestLabelled(run, out[k], requests[k]))
  {
    if requests != [] {
      var k := |requests| - 1;
      var front := requests[..k];
      CoveragePerReference(front, draws);
      var prev := SynthesiseCoverages(front, draws);
      var res := SynthesiseCoverages(requests, draws);
      LastRequestLabelled(requests, draws);
      ExtendAppend([], AllInsuranceRefs(front), TruthyRefs(InsuranceOf(requests[k])));
      forall k' | 0 <= k' < |requests|
        ensures RequestLabelled(res.0, res.1[k'], requests[k'])
      {
        if k' < k {
          assert res.1[k'] == prev.1[k'] && front[k'] == requests[k'];
          RequestLabelledGrows(prev.0, res.0, prev.1[k'], front[k']);
        } else {
          assert k' == k;
        }
      }
    }
  }

  /** Two insurance references to the same coverage show the same payer. */
  lemma SamePayer(requests: seq<ServiceRequest>, draws: Draws, k1: nat, j1: nat, k2: nat, j2: nat)
    requires k1 < |requests| && k2 < |requests|
    requires j1 < |InsuranceOf(requests[k1])| && j2 < |InsuranceOf(requests[k2])|
    requires Truthy(InsuranceOf(requests[k1])[j1].reference)
    requires InsuranceOf(requests[k1])[j1].reference == InsuranceOf(requests[k2])[j2].reference
    ensures var out := SynthesiseCoverages(requests, draws).1;
            InsuranceOf(out[k1])[j1].display == InsuranceOf(out[k2])[j2].display
            && InsuranceOf(out[k1])[j1].display.Some? && InsuranceOf(out[k1])[j1].display.value in Payers
  {
    CoveragePerReference(requests, draws);
  }

  // ---------------------------------------------------------------------
  // Organisations

  const NewOrganizationNames: seq<string> := [
    "CityCare Hospital - North Branch", "CityCare Hospital - South Branch", "CityCare Hospital - East Branch",
    "CityCare Diagnostic Laboratory", "CityCare Pharmacy"]

  /** The first organisation's id, or the fixed fallback id when it has none. */
  function MainOrganizationId(organizations: seq<Organization>): (id: string)
    ensures |organizations| > 0 && Truthy(organizations[0].id) ==> id == organizations[0].id.value
    ensures !(|organizations| > 0 && Truthy(organizations[0].id)) ==> id == FallbackOrganizationId
  {
    OrElse(if |organizations| > 0 then organizations[0].id else None, FallbackOrganizationId)
  }

  function NewOrganizations(mainOrgId: string, draws: Draws): seq<Organization> {
    seq(|NewOrganizationNames|, i requires 0 <= i < |NewOrganizationNames| =>
      Organization(Some(draws.uuid(i)), Some(NewOrganizationNames[i]), Some(Reference(Some("Organization/" + mainOrgId), Some("CityCare Hospital")))))
  }

  /** The organisations written back: the existing ones unchanged, then five new ones, each
      part of the main organisation. */
  function OrganizationsFile(organizations: seq<Organization>, draws: Draws): (r: seq<Organization>)
    ensures |r| == |organizations| + 5
    ensures r[..|organizations|] == organizations
    ensures forall i :: |organizations| <= i < |r| ==>
              r[i].partOf.Some? && r[i].partOf.value.reference == Some("Organization/" + MainOrganizationId(organizations))
  {
    organizations + NewOrganizations(MainOrganizationId(organizations), draws)
  }

  // ---------------------------------------------------------------------
  // The script

  class MissingResourceGenerator {
    const organizations: seq<Organization>
    const now: Time
    const draws: Draws

    var reports: seq<DiagnosticReport>
    var serviceRequests: seq<ServiceRequest>

    var observations: seq<Observation>
    var observationMap: map<string, Observation>
    ghost var observationKeys: seq<string>
    var coverages: seq<Coverage>
    var coverageMap: map<string, Coverage>
    ghost var coverageKeys: seq<string>

    constructor (reports: seq<DiagnosticReport>, serviceRequests: seq<ServiceRequest>, organizations: seq<Organization>, now: Time, draws: Draws)
      ensures this.reports == reports && this.serviceRequests == serviceRequests
      ensures this.organizations == organizations && this.now == now && this.draws == draws
      ensures observations == [] && observationMap == map[] && observationKeys == []
      ensures coverages == [] && coverageMap == map[] && coverageKeys == []
    {
      this.reports := reports;
      this.serviceRequests := serviceRequests;
      this.organizations := organizations;
      this.now := now;
      this.draws := draws;
      observations, observationMap, observationKeys := [], map[], [];
      coverages, coverageMap, coverageKeys := [], map[], [];
    }

    /** The observation map holds exactly the recorded keys. */
    ghost predicate ObservationMapTracks()
      reads this
    {
      forall x :: x in observationMap <==> x in observationKeys
    }

    /** Section 1: the loop over reports and their results. */
    method SynthesiseReportObservations()
      requires observations == [] && observationMap == map[] && observationKeys == []
      modifies this`reports, this`observations, this`observationMap, this`observationKeys
      ensures ObservationRun(observations, observationKeys) == SynthesiseObservations(old(reports), now, draws)
      ensures ObservationMapTracks()
      ensures |reports| == |old(reports)| && forall k :: 0 <= k < |reports| ==> reports[k] == LabelReport(old(reports)[k])
    {
      var k := 0;
      while k < |reports|
        invariant 0 <= k <= |reports| == |old(reports)|
        invariant ObservationRun(observations, observationKeys) == SynthesiseObservations(old(reports)[..k], now, draws)
        invariant ObservationMapTracks()
        invariant forall q :: 0 <= q < k ==> reports[q] == LabelReport(old(reports)[q])
        invariant forall q :: k <= q < |reports| ==> reports[q] == old(reports)[q]
      {
        AddReport(k);
        assert old(reports)[..k + 1][..k] == old(reports)[..k];
        k := k + 1;
      }
      assert old(reports)[..k] == old(reports);
    }

    /** One pass of the outer loop: report `k`'s results are added and its references labelled. */
    method AddReport(k: nat)
      requires k < |reports| && ObservationMapTracks()
      modifies this`reports, this`observations, this`observationMap, this`observationKeys
      ensures ObservationMapTracks()
      ensures ObservationRun(observations, observationKeys)
              == AddResults(old(ObservationRun(observations, observationKeys)), old(reports)[k], k, ResultsOf(old(reports)[k]), now, draws)
      ensures reports == old(reports)[k := LabelReport(old(reports)[k])]
    {
      var report := reports[k];
      if report.result.Some? {
        var labelled := AddReportResults(k, report);
        reports := reports[k := report.(result := Some(labelled))];
      } else {
        assert ResultsOf(report) == [];
      }
    }

    /** The inner loop over one report's result references. */
    method AddReportResults(k: nat, report: DiagnosticReport) returns (labelled: seq<Reference>)
      requires report.result.Some? && ObservationMapTracks()
      modifies this`observations, this`observationMap, this`observationKeys
      ensures ObservationMapTracks()
      ensures ObservationRun(observations, observationKeys)
              == AddResults(old(ObservationRun(observations, observationKeys)), report, k, report.result.value, now, draws)
      ensures labelled == LabelResults(report, report.result.value)
    {
      var results := report.result.value;
      labelled := [];
      var j := 0;
      while j < |results|
        invariant 0 <= j <= |results|
        invariant ObservationMapTracks()
        invariant ObservationRun(observations, observationKeys)
                  == AddResults(old(ObservationRun(observations, observationKeys)), report, k, results[..j], now, draws)
        invariant labelled == LabelResults(report, results[..j])
      {
        var resultRef := results[j];
        assert results[..j + 1][..j] == results[..j];
        if Truthy(resultRef.reference) && resultRef.reference.value !in observationMap {
          var observation := NewObservation(report, resultRef.reference.value, k, j, now, draws);
          observations := observations + [observation];
          observationMap := observationMap[resultRef.reference.value := observation];
          observationKeys := observationKeys + [resultRef.reference.value];
          labelled := labelled + [resultRef.(display := Some(ResultLabel(report)))];
        } else if Truthy(resultRef.reference) && resultRef.reference.value in observationMap {
          labelled := labelled + [resultRef.(display := Some(ResultLabel(report)))];
        } else {
          labelled := labelled + [resultRef];
        }
        j := j + 1;
      }
      assert results[..j] == results;
    }

    /** Section 2: the loop over service requests and their insurance references. */
    method SynthesiseRequestCoverages()
      requires coverages == [] && coverageMap == map[] && coverageKeys == []
      modifies this`serviceRequests, this`coverages, this`coverageMap, this`coverageKeys
      ensures CoverageRun(coverages, coverageKeys, coverageMap) == SynthesiseCoverages(old(serviceRequests), draws).0
      ensures serviceRequests == SynthesiseCoverages(old(serviceRequests), draws).1
    {
      var requests := serviceRequests;
      var done: seq<ServiceRequest> := [];
      var k := 0;
      while k < |requests|
        invariant 0 <= k <= |requests| && serviceRequests == requests
        invariant (CoverageRun(coverages, coverageKeys, coverageMap), done) == SynthesiseCoverages(requests[..k], draws)
      {
        assert requests[..k + 1][..k] == requests[..k];
        var request := serviceRequests[k];
        if request.insurance.Some? {
          var labelled := AddRequestInsurance(k, request);
          done := done + [request.(insurance := Some(labelled))];
        } else {
          done := done + [request];
        }
        k := k + 1;
      }
      assert requests[..k] == requests;
      serviceRequests := done;
    }

    /** The inner loop over one request's insurance references. */
    method AddRequestInsurance(k: nat, request: ServiceRequest) returns (labelled: seq<Reference>)
      requires request.insurance.Some?
      modifies this`coverages, this`coverageMap, this`coverageKeys
      ensures (CoverageRun(coverages, coverageKeys, coverageMap), labelled)
              == AddInsurance(old(CoverageRun(coverages, coverageKeys, coverageMap)), request, k, request.insurance.value, draws)
    {
      var refs := request.insurance.value;
      labelled := [];
      var j := 0;
      while j < |refs|
        invariant 0 <= j <= |refs|
        invariant (CoverageRun(coverages, coverageKeys, coverageMap), labelled)
                  == AddInsurance(old(CoverageRun(coverages, coverageKeys, coverageMap)), request, k, refs[..j], draws)
      {
        var insuranceRef := refs[j];
        assert refs[..j + 1][..j] == refs[..j];
        if Truthy(insuranceRef.reference) && insuranceRef.reference.value !in coverageMap {
          var payer := Payers[draws.payer(k, j) % |Payers|];
          var coverage := NewCoverage(request, insuranceRef.reference.value, payer);
          coverages := coverages + [coverage];
          coverageMap := coverageMap[insuranceRef.reference.value := coverage];
          coverageKeys := coverageKeys + [insuranceRef.reference.value];
          labelled := labelled + [insuranceRef.(display := Some(payer))];
        } else if Truthy(insuranceRef.reference) && insuranceRef.reference.value in coverageMap {
          var cov := coverageMap[insuranceRef.reference.value];
          labelled := labelled + [insuranceRef.(display := Some(PayerOf(cov)))];
        } else {
          labelled := labelled + [insuranceRef];
        }
        j := j + 1;
      }
      assert refs[..j] == refs;
    }

    /** The whole script: both synthesis passes, then the organisations file; the
        observations file receives the synthesised observations only. */
    method Generate() returns (organizationsFile: seq<Organization>)
      requires observations == [] && observationMap == map[] && observationKeys == []
      requires coverages == [] && coverageMap == map[] && coverageKeys == []
      modifies this
      ensures ObservationRun(observations, observationKeys) == SynthesiseObservations(old(reports), now, draws)
      ensures |reports| == |old(reports)| && forall k :: 0 <= k < |reports| ==> reports[k] == LabelReport(old(reports)[k])
      ensures CoverageRun(coverages, coverageKeys, coverageMap) == SynthesiseCoverages(old(serviceRequests), draws).0
      ensures serviceRequests == SynthesiseCoverages(old(serviceRequests), draws).1
      ensures organizationsFile == OrganizationsFile(organizations, draws)
    {
      SynthesiseReportObservations();
      SynthesiseRequestCoverages();
      organizationsFile := organizations + NewOrganizations(MainOrganizationId(organizations), draws);
    }
  }
}
