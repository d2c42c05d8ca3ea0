/**
 Where a collected record comes from, said of the operations alone: which submission each candidate is,
 and which verdicts name it.
 */
module RecordProvenance {
  import opened Outcomes
  import opened EpisodeRecords
  import opened ByteOrder
  import opened RecordStream
  import opened RecordImport
  import opened RecordCollection

  // ----- Submissions

  /** This operation is a submission that succeeded, with this manifest. */
  predicate Submits(o: Operation, reader: Reader, m: ManifestRecord) {
    && o.call.name == "submit_candidate_bundle" && o.status.Succeeded? && o.result.Some?
    && reader.manifest(o.result.value) == Ok(Some(m))
  }

  ghost predicate SubmitsAs(o: Operation, reader: Reader, id: string) {
    exists m :: Submits(o, reader, m) && m.candidate == id
  }

  /** The first submission of this identity. */
  ghost predicate FirstOf(operations: seq<Operation>, reader: Reader, at: nat, id: string) {
    && at < |operations| && SubmitsAs(operations[at], reader, id)
    && forall k :: 0 <= k < at ==> !SubmitsAs(operations[k], reader, id)
  }

  // ----- Verdicts

  predicate IsGate(name: string, gate: Gate) {
    match gate
    case Source => name == "request_source_gate"
    case AscendBuild => name == "request_ascend_build"
    case ReductionCorrectness => name == "request_reduction_correctness"
  }

  predicate Judges(o: Operation, reader: Reader, id: string, outcome: GateOutcome) {
    exists gate: Gate :: IsGate(o.call.name, gate) && reader.verdict(gate, o) == Ok(Some((id, outcome)))
  }

  function VerdictIn(o: Operation, reader: Reader, id: string): seq<GateOutcome> {
    var gate := GateOf(o.call.name);
    if gate.None? then []
    else
      var found := reader.verdict(gate.value, o);
      if found.Ok? && found.value.Some? && found.value.value.0 == id then [found.value.value.1] else []
  }

  lemma VerdictExactly(o: Operation, reader: Reader, id: string)
    ensures |VerdictIn(o, reader, id)| <= 1
    ensures forall outcome :: Judges(o, reader, id, outcome) <==> VerdictIn(o, reader, id) == [outcome]
    ensures o.call.name == "submit_candidate_bundle" ==> VerdictIn(o, reader, id) == []
  {
  }

  /** The verdicts that name this candidate after position `at`, in operation order. */
  function VerdictsAfter(operations: seq<Operation>, reader: Reader, id: string, at: nat): seq<GateOutcome> {
    if |operations| <= at + 1 then []
    else VerdictsAfter(operations[..|operations| - 1], reader, id, at) + VerdictIn(operations[|operations| - 1], reader, id)
  }

  // ----- What a candidate records

  /** The file's path, digest and bytes, which have the announced size and digest. */
  predicate IsFile(f: RecordedFile, announced: ManifestFile, reader: Reader) {
    && f.path == announced.path && f.digest == announced.digest && reader.bytes(announced.digest) == Ok(f.bytes)
    && |f.bytes| == announced.size && DigestOf(f.bytes) == announced.digest
  }

  ghost predicate IsSubmission(c: RecordedCandidate, m: ManifestRecord, reader: Reader) {
    && c.id == m.candidate && c.parent == m.parent && c.manifest == m.digest && c.bundle == m.bundle
    && |c.files| == |m.files|
    && forall j :: 0 <= j < |c.files| ==> IsFile(c.files[j], m.files[j], reader)
  }

  /** This candidate is what the first submission of its identity announced, with every later verdict. */
  ghost predicate Describes(operations: seq<Operation>, reader: Reader, c: RecordedCandidate, at: nat) {
    && FirstOf(operations, reader, at, c.id)
    && (exists m :: Submits(operations[at], reader, m) && IsSubmission(c, m, reader))
    && c.outcomes == VerdictsAfter(operations, reader, c.id, at)
  }

  /** Candidates in the order of their first submissions, and none missing. */
  ghost predicate Complete(operations: seq<Operation>, reader: Reader, candidates: seq<RecordedCandidate>, at: seq<nat>) {
    && |at| == |candidates|
    && (forall i :: 0 <= i < |at| ==> Describes(operations, reader, candidates[i], at[i]))
    && (forall i, j :: 0 <= i < j < |at| ==> at[i] < at[j])
    && (forall k, id :: 0 <= k < |operations| && SubmitsAs(operations[k], reader, id) ==> Listed(candidates, id))
  }

  ghost predicate Listed(candidates: seq<RecordedCandidate>, id: string) {
    exists i :: 0 <= i < |candidates| && candidates[i].id == id
  }

  // ----- One more operation

  lemma {:induction false} SourcesExactly(files: seq<ManifestFile>, reader: Reader)
    requires SourcesOf(files, reader).Ok?
    ensures var sources := SourcesOf(files, reader).value;
            |sources| == |files| && forall j :: 0 <= j < |files| ==> IsFile(sources[j], files[j], reader)
    decreases |files|
  {
    if files != [] {
      SourcesExactly(files[..|files| - 1], reader);
    }
  }

  lemma SubmissionExactly(o: Operation, reader: Reader)
    requires o.call.name == "submit_candidate_bundle" && SubmissionOf(o, reader).Ok?
    ensures SubmissionOf(o, reader).value.None? ==> forall id :: !SubmitsAs(o, reader, id)
    ensures SubmissionOf(o, reader).value.Some? ==>
              var c := SubmissionOf(o, reader).value.value;
              && c.outcomes == [] && SubmitsAs(o, reader, c.id)
              && (forall id :: SubmitsAs(o, reader, id) ==> id == c.id)
              && exists m :: Submits(o, reader, m) && IsSubmission(c, m, reader)
  {
    if SubmissionOf(o, reader).value.Some? {
      var m := reader.manifest(o.result.value).value.value;
      SourcesExactly(m.files, reader);
      assert Submits(o, reader, m) && IsSubmission(SubmissionOf(o, reader).value.value, m, reader);
    }
  }

  lemma FirstKept(operations: seq<Operation>, o: Operation, reader: Reader, at: nat, id: string)
    requires at < |operations|
    ensures FirstOf(operations + [o], reader, at, id) <==> FirstOf(operations, reader, at, id)
  {
    hide SubmitsAs;
    var more := operations + [o];
    assert forall k :: 0 <= k < |operations| ==> more[k] == operations[k];
  }

  lemma VerdictsGrow(operations: seq<Operation>, o: Operation, reader: Reader, id: string, at: nat)
    requires at < |operations|
    ensures VerdictsAfter(operations + [o], reader, id, at)
            == VerdictsAfter(operations, reader, id, at) + VerdictIn(o, reader, id)
  {
    hide VerdictIn;
    assert (operations + [o])[..|operations|] == operations;
  }

  /** A candidate that takes the verdict of one more operation, if there is one for it. */
  lemma DescribesMore(operations: seq<Operation>, o: Operation, reader: Reader, c: RecordedCandidate,
                      d: RecordedCandidate, at: nat)
    requires Describes(operations, reader, c, at)
    requires d == c.(outcomes := c.outcomes + VerdictIn(o, reader, c.id))
    ensures Describes(operations + [o], reader, d, at)
  {
    hide VerdictIn, SubmitsAs;
    FirstKept(operations, o, reader, at, c.id);
    VerdictsGrow(operations, o, reader, c.id, at);
    var m :| Submits(operations[at], reader, m) && IsSubmission(c, m, reader);
    assert Submits((operations + [o])[at], reader, m) && IsSubmission(d, m, reader);
  }

  lemma CoverageGrows(operations: seq<Operation>, o: Operation, reader: Reader, candidates: seq<RecordedCandidate>,
                      after: seq<RecordedCandidate>)
    requires forall k, id :: 0 <= k < |operations| && SubmitsAs(operations[k], reader, id) ==> Listed(candidates, id)
    requires forall id :: Listed(candidates, id) || SubmitsAs(o, reader, id) ==> Listed(after, id)
    ensures forall k, id :: 0 <= k < |operations + [o]| && SubmitsAs((operations + [o])[k], reader, id) ==>
              Listed(after, id)
  {
    hide SubmitsAs, Listed;
    forall k, id | 0 <= k < |operations + [o]| && SubmitsAs((operations + [o])[k], reader, id)
      ensures Listed(after, id)
    {
      if k < |operations| {
        assert SubmitsAs(operations[k], reader, id);
      }
    }
  }

  lemma SubmitsOnly(o: Operation, reader: Reader, id: string)
    requires SubmitsAs(o, reader, id)
    ensures o.call.name == "submit_candidate_bundle"
  {
  }

  /** A new identity is the first of its name, and has no verdict yet. */
  lemma NewlySubmitted(operations: seq<Operation>, o: Operation, reader: Reader, c: RecordedCandidate)
    requires o.call.name == "submit_candidate_bundle" && SubmissionOf(o, reader) == Ok(Some(c))
    requires forall k :: 0 <= k < |operations| ==> !SubmitsAs(operations[k], reader, c.id)
    ensures Describes(operations + [o], reader, c, |operations|)
  {
    hide SubmitsAs, SubmissionOf;
    SubmissionExactly(o, reader);
    var more := operations + [o];
    assert more[|operations|] == o;
    assert forall k :: 0 <= k < |operations| ==> more[k] == operations[k];
  }

  /** One submission. */
  lemma SubmissionCompletes(operations: seq<Operation>, o: Operation, reader: Reader,
                            candidates: seq<RecordedCandidate>, at: seq<nat>)
    returns (more: seq<nat>)
    requires Complete(operations, reader, candidates, at) && CollectOne(candidates, o, reader).Ok?
    requires o.call.name == "submit_candidate_bundle"
    ensures Complete(operations + [o], reader, CollectOne(candidates, o, reader).value, more)
  {
    hide SubmitsAs, SubmissionOf, Describes, VerdictIn, Latest;
    SubmissionExactly(o, reader);
    var after := CollectOne(candidates, o, reader).value;
    forall i | 0 <= i < |candidates| ensures Describes(operations + [o], reader, candidates[i], at[i]) {
      VerdictExactly(o, reader, candidates[i].id);
      assert candidates[i].outcomes + [] == candidates[i].outcomes;
      DescribesMore(operations, o, reader, candidates[i], candidates[i], at[i]);
    }
    more := at;
    if |after| > |candidates| {
      var c := after[|candidates|];
      assert after == candidates + [c];
      forall k | 0 <= k < |operations| ensures !SubmitsAs(operations[k], reader, c.id) {
        assert !Listed(candidates, c.id);
      }
      NewlySubmitted(operations, o, reader, c);
      more := at + [|operations|];
      forall i | 0 <= i < |at| ensures at[i] < |operations| {
        DescribedWithin(operations, reader, candidates[i], at[i]);
      }
    }
    forall id | Listed(candidates, id) || SubmitsAs(o, reader, id) ensures Listed(after, id) {
      ListedStill(candidates, after, id);
    }
    CoverageGrows(operations, o, reader, candidates, after);
  }

  lemma DescribedWithin(operations: seq<Operation>, reader: Reader, c: RecordedCandidate, at: nat)
    requires Describes(operations, reader, c, at)
    ensures at < |operations|
  {
  }

  lemma ListedStill(candidates: seq<RecordedCandidate>, after: seq<RecordedCandidate>, id: string)
    requires |candidates| <= |after| && forall i :: 0 <= i < |candidates| ==> after[i].id == candidates[i].id
    ensures Listed(candidates, id) ==> Listed(after, id)
  {
    if Listed(candidates, id) {
      var i :| 0 <= i < |candidates| && candidates[i].id == id;
      assert after[i].id == id;
    }
  }

  /** One call of a gate, or of any other tool. */
  lemma VerdictCompletes(operations: seq<Operation>, o: Operation, reader: Reader,
                         candidates: seq<RecordedCandidate>, at: seq<nat>)
    requires Complete(operations, reader, candidates, at) && CollectOne(candidates, o, reader).Ok?
    requires o.call.name != "submit_candidate_bundle" && IdsDistinct(candidates)
    ensures Complete(operations + [o], reader, CollectOne(candidates, o, reader).value, at)
  {
    hide SubmitsAs, Describes, Latest, GateOf;
    var after := CollectOne(candidates, o, reader).value;
    forall i | 0 <= i < |candidates|
      ensures after[i] == candidates[i].(outcomes := candidates[i].outcomes + VerdictIn(o, reader, candidates[i].id))
    {
      assert candidates[i].outcomes + [] == candidates[i].outcomes;
    }
    forall i | 0 <= i < |candidates| ensures Describes(operations + [o], reader, after[i], at[i]) {
      DescribesMore(operations, o, reader, candidates[i], after[i], at[i]);
    }
    forall id | Listed(candidates, id) || SubmitsAs(o, reader, id) ensures Listed(after, id) {
      if SubmitsAs(o, reader, id) {
        SubmitsOnly(o, reader, id);
      }
      ListedStill(candidates, after, id);
    }
    CoverageGrows(operations, o, reader, candidates, after);
  }

  lemma {:induction false} CollectAllCompletes(operations: seq<Operation>, reader: Reader) returns (at: seq<nat>)
    requires CollectAll(operations, reader).Ok?
    ensures Complete(operations, reader, CollectAll(operations, reader).value, at)
    decreases |operations|
  {
    hide CollectOne, Complete, IdsDistinct, AllVerified;
    if operations == [] {
      at := [];
      NothingComplete(reader);
    } else {
      var init, o := operations[..|operations| - 1], operations[|operations| - 1];
      assert operations == init + [o];
      at := CollectAllCompletes(init, reader);
      CollectAllKeeps(init, reader);
      var candidates := CollectAll(init, reader).value;
      if o.call.name == "submit_candidate_bundle" {
        at := SubmissionCompletes(init, o, reader, candidates, at);
      } else {
        VerdictCompletes(init, o, reader, candidates, at);
      }
    }
  }

  lemma NothingComplete(reader: Reader)
    ensures Complete([], reader, [], [])
  {
  }

  /** For every episode: the collected candidates are, in order, the first submissions of each identity;
      each records what its manifest announces, with the bytes rehashed, and exactly the verdicts that
      name it afterwards, in operation order. None is missing, and they are numbered from one. */
  lemma CollectedIsExact(operations: seq<Operation>, reader: Reader) returns (at: seq<nat>)
    requires Collected(operations, reader).Ok?
    ensures Complete(operations, reader, Collected(operations, reader).value, at)
    ensures var candidates := Collected(operations, reader).value;
            forall i :: 0 <= i < |candidates| ==> candidates[i].sequence == if i < U32_MAX then i + 1 else U32_MAX
  {
    hide Describes;
    at := CollectAllCompletes(operations, reader);
    var before, after := CollectAll(operations, reader).value, Collected(operations, reader).value;
    forall i | 0 <= i < |after| ensures Describes(operations, reader, after[i], at[i]) {
      SequenceIsNotRead(operations, reader, before[i], after[i], at[i]);
    }
    forall id ensures Listed(before, id) ==> Listed(after, id) {
      ListedStill(before, after, id);
    }
  }

  lemma SequenceIsNotRead(operations: seq<Operation>, reader: Reader, c: RecordedCandidate, d: RecordedCandidate, at: nat)
    requires Describes(operations, reader, c, at) && d == c.(sequence := d.sequence)
    ensures Describes(operations, reader, d, at)
  {
    hide SubmitsAs, VerdictsAfter;
    var m :| Submits(operations[at], reader, m) && IsSubmission(c, m, reader);
    assert IsSubmission(d, m, reader);
  }
}
