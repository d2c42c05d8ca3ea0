/**
 Reading the candidate lineage out of an episode's operations. A resubmission keeps its first
 position, gate outcomes attach to the candidate they name, and sequences count candidates, so the
 collected history is one that the printer accepts and the importer rebuilds.

 What a stored document says is an input; that its bytes match its digest is checked.
 */
module RecordCollection {
  import opened Outcomes
  import opened EpisodeRecords
  import opened ByteOrder
  import opened RecordText
  import opened RecordStream
  import opened RecordImport
  import CandidateGates

  datatype CollectError = Unreadable(digest: Digest) | Malformed(digest: Digest) | SourceIdentity(path: seq<Byte>)

  datatype ManifestFile = ManifestFile(path: seq<Byte>, digest: Digest, size: nat)

  datatype ManifestRecord = ManifestRecord(
    digest: Digest, candidate: string, parent: Option<string>, bundle: Digest, files: seq<ManifestFile>)

  /** `manifest` reads the manifest that a submission result names, if it names one; `verdict` reads
      the receipt by which a gate names a candidate. */
  datatype Reader = Reader(
    bytes: Digest -> Result<seq<Byte>, CollectError>,
    manifest: Digest -> Result<Option<ManifestRecord>, CollectError>,
    verdict: (Gate, Operation) -> Result<Option<(string, GateOutcome)>, CollectError>)

  function Codes(bytes: seq<Byte>): (r: seq<nat>)
    ensures |r| == |bytes| && forall i :: 0 <= i < |r| ==> r[i] == bytes[i] as int
  {
    seq(|bytes|, i requires 0 <= i < |bytes| => bytes[i] as int)
  }

  function DigestOf(bytes: seq<Byte>): Digest {
    OfBytes(Codes(bytes))
  }

  // ----- One submission

  function SourceOf(f: ManifestFile, reader: Reader): Result<RecordedFile, CollectError> {
    var bytes :- reader.bytes(f.digest);
    if |bytes| != f.size || DigestOf(bytes) != f.digest then Err(SourceIdentity(f.path))
    else Ok(RecordedFile(f.path, f.digest, bytes))
  }

  function SourcesOf(files: seq<ManifestFile>, reader: Reader): Result<seq<RecordedFile>, CollectError> {
    if files == [] then Ok([])
    else
      var earlier :- SourcesOf(files[..|files| - 1], reader);
      var last :- SourceOf(files[|files| - 1], reader);
      Ok(earlier + [last])
  }

  function SubmissionOf(o: Operation, reader: Reader): Result<Option<RecordedCandidate>, CollectError> {
    if !o.status.Succeeded? || o.result.None? then Ok(None)
    else
      var named :- reader.manifest(o.result.value);
      if named.None? then Ok(None)
      else
        var m := named.value;
        var files :- SourcesOf(m.files, reader);
        Ok(Some(RecordedCandidate(0, m.candidate, m.parent, m.digest, m.bundle, files, [])))
  }

  lemma {:induction false} SourcesFailure(files: seq<ManifestFile>, n: nat, reader: Reader)
    requires n <= |files| && SourcesOf(files[..n], reader).Err?
    ensures SourcesOf(files, reader) == SourcesOf(files[..n], reader)
    decreases |files|
  {
    hide SourceOf;
    if n < |files| {
      assert files[..|files| - 1][..n] == files[..n];
      SourcesFailure(files[..|files| - 1], n, reader);
    } else {
      assert files[..n] == files;
    }
  }

  method ReadSubmission(o: Operation, reader: Reader) returns (r: Result<Option<RecordedCandidate>, CollectError>)
    ensures r == SubmissionOf(o, reader)
  {
    if !o.status.Succeeded? || o.result.None? {
      return Ok(None);
    }
    var named :- reader.manifest(o.result.value);
    if named.None? {
      return Ok(None);
    }
    var m := named.value;
    var files: seq<RecordedFile> := [];
    assert m.files[..0] == [];
    for i := 0 to |m.files|
      invariant SourcesOf(m.files[..i], reader) == Ok(files)
    {
      var source := SourceOf(m.files[i], reader);
      assert m.files[..i + 1][..i] == m.files[..i];
      if source.Err? {
        SourcesFailure(m.files, i + 1, reader);
        return Err(source.error);
      }
      files := files + [source.value];
    }
    assert m.files[..|m.files|] == m.files;
    return Ok(Some(RecordedCandidate(0, m.candidate, m.parent, m.digest, m.bundle, files, [])));
  }

  // ----- The whole record

  function GateOf(tool: string): Option<Gate> {
    if tool == CandidateGates.REQUEST_SOURCE_GATE then Some(Source)
    else if tool == CandidateGates.REQUEST_ASCEND_BUILD then Some(AscendBuild)
    else if tool == CandidateGates.REQUEST_REDUCTION_CORRECTNESS then Some(ReductionCorrectness)
    else None
  }

  function WithSubmission(candidates: seq<RecordedCandidate>, c: RecordedCandidate): seq<RecordedCandidate> {
    if Latest(candidates, c.id).Some? then candidates else candidates + [c]
  }

  function WithVerdict(candidates: seq<RecordedCandidate>, id: string, outcome: GateOutcome): seq<RecordedCandidate> {
    var at := Latest(candidates, id);
    if at.None? then candidates
    else candidates[at.value := candidates[at.value].(outcomes := candidates[at.value].outcomes + [outcome])]
  }

  function CollectOne(candidates: seq<RecordedCandidate>, o: Operation, reader: Reader)
    : Result<seq<RecordedCandidate>, CollectError>
  {
    if o.call.name == CandidateGates.SUBMIT_CANDIDATE_BUNDLE then
      var submitted :- SubmissionOf(o, reader);
      Ok(if submitted.None? then candidates else WithSubmission(candidates, submitted.value))
    else
      var gate := GateOf(o.call.name);
      if gate.None? then Ok(candidates)
      else
        var found :- reader.verdict(gate.value, o);
        Ok(if found.None? then candidates else WithVerdict(candidates, found.value.0, found.value.1))
  }

  function CollectAll(operations: seq<Operation>, reader: Reader): Result<seq<RecordedCandidate>, CollectError> {
    if operations == [] then Ok([])
    else
      var earlier :- CollectAll(operations[..|operations| - 1], reader);
      CollectOne(earlier, operations[|operations| - 1], reader)
  }

  function SequenceOf(i: nat): U32 {
    if i + 1 <= U32_MAX then i + 1 else U32_MAX
  }

  function Sequenced(candidates: seq<RecordedCandidate>): (r: seq<RecordedCandidate>)
    ensures |r| == |candidates|
    ensures forall i :: 0 <= i < |r| ==> r[i] == candidates[i].(sequence := SequenceOf(i))
  {
    seq(|candidates|, i requires 0 <= i < |candidates| => candidates[i].(sequence := SequenceOf(i)))
  }

  function Collected(operations: seq<Operation>, reader: Reader): Result<seq<RecordedCandidate>, CollectError> {
    var candidates :- CollectAll(operations, reader);
    Ok(Sequenced(candidates))
  }

  lemma {:induction false} CollectFailure(operations: seq<Operation>, n: nat, reader: Reader)
    requires n <= |operations| && CollectAll(operations[..n], reader).Err?
    ensures CollectAll(operations, reader) == CollectAll(operations[..n], reader)
    decreases |operations|
  {
    hide CollectOne;
    if n < |operations| {
      assert operations[..|operations| - 1][..n] == operations[..n];
      CollectFailure(operations[..|operations| - 1], n, reader);
    } else {
      assert operations[..n] == operations;
    }
  }

  /** `position` finds a candidate by identity. */
  ghost predicate PositionOk(position: map<string, nat>, candidates: seq<RecordedCandidate>) {
    forall id :: Latest(candidates, id) == if id in position then Some(position[id]) else None
  }

  lemma PositionGrows(position: map<string, nat>, candidates: seq<RecordedCandidate>, c: RecordedCandidate)
    requires PositionOk(position, candidates) && c.id !in position
    ensures PositionOk(position[c.id := |candidates|], candidates + [c])
  {
  }

  lemma {:induction false} LatestKept(candidates: seq<RecordedCandidate>, after: seq<RecordedCandidate>, id: string)
    requires |after| == |candidates| && forall i :: 0 <= i < |after| ==> after[i].id == candidates[i].id
    ensures Latest(after, id) == Latest(candidates, id)
    decreases |candidates|
  {
    if candidates != [] {
      LatestKept(candidates[..|candidates| - 1], after[..|after| - 1], id);
    }
  }

  method CollectFromOperations(operations: seq<Operation>, reader: Reader)
    returns (r: Result<seq<RecordedCandidate>, CollectError>)
    ensures r == Collected(operations, reader)
  {
    hide SubmissionOf, Latest, GateOf;
    var candidates: seq<RecordedCandidate>, position: map<string, nat> := [], map[];
    assert operations[..0] == [];
    NoPositions();
    for i := 0 to |operations|
      invariant CollectAll(operations[..i], reader) == Ok(candidates)
      invariant PositionOk(position, candidates)
      invariant forall id :: id in position ==> position[id] < |candidates|
    {
      var o := operations[i];
      assert operations[..i + 1][..i] == operations[..i];
      if o.call.name == CandidateGates.SUBMIT_CANDIDATE_BUNDLE {
        var submitted := ReadSubmission(o, reader);
        if submitted.Err? {
          CollectFailure(operations, i + 1, reader);
          return Err(submitted.error);
        }
        if submitted.value.Some? && submitted.value.value.id !in position {
          var c := submitted.value.value;
          PositionGrows(position, candidates, c);
          position := position[c.id := |candidates|];
          candidates := candidates + [c];
        }
      } else {
        var gate := GateOf(o.call.name);
        if gate.Some? {
          var found := reader.verdict(gate.value, o);
          if found.Err? {
            CollectFailure(operations, i + 1, reader);
            return Err(found.error);
          }
          if found.value.Some? && found.value.value.0 in position {
            var (id, outcome) := found.value.value;
            var c := candidates[position[id]];
            ghost var before := candidates;
            candidates := candidates[position[id] := c.(outcomes := c.outcomes + [outcome])];
            PositionKept(position, before, candidates);
          }
        }
      }
    }
    assert operations[..|operations|] == operations;
    candidates := AssignSequences(candidates);
    return Ok(candidates);
  }

  /** Rewrites the sequence of every candidate, once the whole list is known. */
  method AssignSequences(all: seq<RecordedCandidate>) returns (candidates: seq<RecordedCandidate>)
    ensures candidates == Sequenced(all)
  {
    candidates := all;
    for i := 0 to |candidates|
      invariant |candidates| == |all|
      invariant forall j :: 0 <= j < |all| ==>
                  candidates[j] == if j < i then all[j].(sequence := SequenceOf(j)) else all[j]
    {
      candidates := candidates[i := candidates[i].(sequence := SequenceOf(i))];
    }
  }

  lemma NoPositions()
    ensures PositionOk(map[], [])
  {
  }

  lemma PositionKept(position: map<string, nat>, candidates: seq<RecordedCandidate>, after: seq<RecordedCandidate>)
    requires PositionOk(position, candidates)
    requires |after| == |candidates| && forall i :: 0 <= i < |after| ==> after[i].id == candidates[i].id
    ensures PositionOk(position, after)
  {
    hide Latest;
    forall id ensures Latest(after, id) == Latest(candidates, id) {
      LatestKept(candidates, after, id);
    }
  }

  // ----- What a collected history is

  ghost predicate Verified(files: seq<RecordedFile>) {
    forall j :: 0 <= j < |files| ==> files[j].digest == DigestOf(files[j].bytes)
  }

  ghost predicate IdsDistinct(candidates: seq<RecordedCandidate>) {
    forall i, j :: 0 <= i < j < |candidates| ==> candidates[i].id != candidates[j].id
  }

  ghost predicate AllVerified(candidates: seq<RecordedCandidate>) {
    forall i :: 0 <= i < |candidates| ==> Verified(candidates[i].files)
  }

  lemma {:induction false} SourcesVerified(files: seq<ManifestFile>, reader: Reader)
    requires SourcesOf(files, reader).Ok?
    ensures Verified(SourcesOf(files, reader).value)
    decreases |files|
  {
    if files != [] {
      SourcesVerified(files[..|files| - 1], reader);
    }
  }

  lemma CollectOneKeeps(candidates: seq<RecordedCandidate>, o: Operation, reader: Reader)
    requires IdsDistinct(candidates) && AllVerified(candidates) && CollectOne(candidates, o, reader).Ok?
    ensures IdsDistinct(CollectOne(candidates, o, reader).value)
    ensures AllVerified(CollectOne(candidates, o, reader).value)
  {
    hide Verified, SourcesOf, GateOf, Latest;
    if o.call.name == CandidateGates.SUBMIT_CANDIDATE_BUNDLE && SubmissionOf(o, reader).value.Some? {
      var m := reader.manifest(o.result.value).value.value;
      SourcesVerified(m.files, reader);
      assert Verified(SubmissionOf(o, reader).value.value.files);
    }
  }

  lemma {:induction false} CollectAllKeeps(operations: seq<Operation>, reader: Reader)
    requires CollectAll(operations, reader).Ok?
    ensures IdsDistinct(CollectAll(operations, reader).value) && AllVerified(CollectAll(operations, reader).value)
    decreases |operations|
  {
    hide CollectOne, IdsDistinct, AllVerified;
    if operations == [] {
      NothingCollected();
    } else {
      var init := operations[..|operations| - 1];
      CollectAllKeeps(init, reader);
      CollectOneKeeps(CollectAll(init, reader).value, operations[|operations| - 1], reader);
    }
  }

  lemma NothingCollected()
    ensures IdsDistinct([]) && AllVerified([])
  {
  }

  lemma VerifiedIsConsistent(candidates: seq<RecordedCandidate>)
    requires AllVerified(candidates)
    ensures DigestsConsistent(candidates)
  {
  }

  /** Identities are distinct, sequences count 1, 2, 3 and so on, and every byte was rehashed. */
  lemma CollectedFacts(operations: seq<Operation>, reader: Reader)
    requires Collected(operations, reader).Ok?
    ensures var candidates := Collected(operations, reader).value;
            && IdsDistinct(candidates) && DigestsConsistent(candidates)
            && (forall i :: 0 <= i < |candidates| ==> candidates[i].sequence == SequenceOf(i))
  {
    hide CollectAll;
    CollectAllKeeps(operations, reader);
    var candidates := Collected(operations, reader).value;
    assert AllVerified(candidates);
    VerifiedIsConsistent(candidates);
  }

  /** From operations to a repository: for every episode, the collected record imports to exactly
      the collected candidates, unless one of them names itself as its parent. */
  lemma CollectedRoundTrip(operations: seq<Operation>, reader: Reader, messages: Messages)
    requires Collected(operations, reader).Ok?
    requires var candidates := Collected(operations, reader).value;
             && 0 < |candidates| <= U32_MAX
             && forall i :: 0 <= i < |candidates| ==> candidates[i].files != []
    ensures var candidates := Collected(operations, reader).value;
            && StreamOf(candidates, messages).Ok?
            && (Import(StreamOf(candidates, messages).value).Some? <==> !SomeNamesItself(candidates))
            && (Import(StreamOf(candidates, messages).value).Some? ==>
                  Records(Import(StreamOf(candidates, messages).value).value, candidates, messages))
  {
    hide Collected, StreamOf, Import, SomeNamesItself, Records, ParentsPrecede, DigestsConsistent, IdsDistinct;
    var candidates := Collected(operations, reader).value;
    CollectedFacts(operations, reader);
    assert Accepted(candidates);
    StreamAccepts(candidates, messages);
    StreamRoundTrip(candidates, messages);
  }
}
