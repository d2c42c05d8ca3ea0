/** The printer itself: one buffer, one mark counter and three collections, grown in loops. */
module RecordPrinter {
  import opened Outcomes
  import opened EpisodeRecords
  import opened ByteOrder
  import opened RecordText
  import opened RecordStream

  lemma ShownGrows(commands: seq<Command>, c: Command)
    requires AllWritable(commands) && Writable(c)
    ensures AllWritable(commands + [c])
    ensures Shown(commands + [c]) == Shown(commands) + Show(c, [])
  {
  }

  /** Writes one length-prefixed payload. */
  function AppendData(stream: Text, payload: Text): (r: Text)
    ensures r == stream + Data(payload, [])
  {
    stream + Line(Numbered("data ", |payload|), []) + payload + ['\n']
  }

  /** Writes a blob for each content that has no mark yet. */
  method AppendBlobs(before: Text, files: seq<RecordedFile>, first: nat, marks: map<Digest, nat>, ghost p: Printed)
    returns (stream: Text, next: nat, blobs: map<Digest, nat>)
    requires AllWritable(p.commands) && before == Shown(p.commands) && first == p.next && marks == p.blobs
    ensures var q := PrintBlobs(p, files);
            next == q.next && blobs == q.blobs && AllWritable(q.commands) && stream == Shown(q.commands)
  {
    hide Show, Data, Line, PrintBlobs, Shown;
    NoBlobs(p);
    stream, next, blobs := before, first, marks;
    assert files[..0] == [];
    for i := 0 to |files|
      invariant var q := PrintBlobs(p, files[..i]);
                next == q.next && blobs == q.blobs && AllWritable(q.commands) && stream == Shown(q.commands)
    {
      var f := files[i];
      BlobsStep(p, files, i);
      ghost var q := PrintBlobs(p, files[..i]);
      if f.digest !in blobs {
        next := next + 1;
        blobs := blobs[f.digest := next];
        stream := stream + Line("blob", Line(Numbered("mark :", next), []));
        stream := AppendData(stream, f.bytes);
        BlobPieces(next, f.bytes, []);
        ShownGrows(q.commands, Blob(next, f.bytes));
      }
    }
    assert files[..|files|] == files;
  }

  lemma NoBlobs(p: Printed)
    ensures PrintBlobs(p, []) == p
  {
  }

  lemma BlobsStep(p: Printed, files: seq<RecordedFile>, i: nat)
    requires i < |files|
    ensures PrintBlobs(p, files[..i + 1]) == PrintBlob(PrintBlobs(p, files[..i]), files[i])
  {
    assert files[..i + 1][..i] == files[..i];
  }

  /** Writes the tree of one commit: every file, never a change against the parent. */
  method AppendChanges(before: Text, files: seq<RecordedFile>, blobs: map<Digest, nat>) returns (stream: Text)
    requires forall i :: 0 <= i < |files| ==> files[i].digest in blobs
    ensures stream == before + ShowChanges(ChangesOf(blobs, files), [])
  {
    hide ShowChange, Line;
    stream := before;
    var all := ChangesOf(blobs, files);
    for i := 0 to |files|
      invariant stream == before + ShowChanges(all[..i], [])
    {
      ChangesGrow(all[..i], all[i]);
      assert all[..i + 1] == all[..i] + [all[i]];
      stream := stream + Line(ShowChange(Change(blobs[files[i].digest], files[i].path)), []);
    }
    assert all[..|files|] == all;
  }

  /** Writes who, when and why. */
  method AppendHeading(before: Text, reference: Text, mark: nat, when: nat, message: Text) returns (stream: Text)
    ensures stream == before + HeadingText(reference, mark, when, message)
  {
    hide Line, Data, Numbered, Signature;
    stream := before + Line("commit " + reference, Line(Numbered("mark :", mark), []));
    stream := stream + Line(Signature("author ", when), []);
    stream := stream + Line(Signature("committer ", when), []);
    stream := AppendData(stream, message);
  }

  /** Writes the parent, if it is recorded, and the tree. */
  method AppendTree(before: Text, parent: Option<nat>, files: seq<RecordedFile>, blobs: map<Digest, nat>)
    returns (stream: Text)
    requires forall i :: 0 <= i < |files| ==> files[i].digest in blobs
    ensures stream == before + (ShowParent(parent, []) + Line("deleteall", [])
                                + ShowChanges(ChangesOf(blobs, files), []) + Line("", []))
  {
    hide Line, Numbered, ShowChanges, ChangesOf;
    stream := before;
    if parent.Some? {
      stream := stream + Line(Numbered("from :", parent.value), []);
    }
    stream := stream + Line("deleteall", []);
    stream := AppendChanges(stream, files, blobs);
    stream := stream + Line("", []);
  }

  lemma CommitText(c: Command)
    requires c.Commit? && Writable(c)
    ensures Show(c, []) == Heading(c)
            + (ShowParent(c.parent, []) + Line("deleteall", []) + ShowChanges(c.changes, []) + Line("", []))
  {
    hide Show, Heading, ShowBody, ShowParent, Line, ShowChanges;
    CommitPieces(c, []);
    BodyPieces(c, []);
  }

  method AppendCommit(before: Text, c: RecordedCandidate, files: seq<RecordedFile>, messages: Messages,
                      last: nat, blobs: map<Digest, nat>, marks: map<string, nat>, ghost p: Printed)
    returns (stream: Text, next: nat, commits: map<string, nat>)
    requires forall i :: 0 <= i < |files| ==> files[i].digest in p.blobs
    requires AllWritable(p.commands) && before == Shown(p.commands)
    requires last == p.next && blobs == p.blobs && marks == p.commits
    ensures var q := PrintCommit(p, c, files, messages);
            next == q.next && commits == q.commits && AllWritable(q.commands) && stream == Shown(q.commands)
  {
    hide Show, Line, ShowParent, ShowChanges, ChangesOf, CandidateRef, HeadingText, Shown, Writable;
    ghost var written := CommitOf(p, c, files, messages);
    CommitWritable(p, c, files, messages);
    next := last + 1;
    commits := marks[c.id := next];
    var parent := ParentMark(commits, c.parent);
    stream := AppendHeading(before, CandidateRef(c), next, c.sequence, messages(c, files, parent.Some?));
    stream := AppendTree(stream, parent, files, blobs);
    CommitText(written);
    assert stream == before + Show(written, []);
    ShownGrows(p.commands, written);
  }

  lemma {:induction false} FailureIsFinal(candidates: seq<RecordedCandidate>, n: nat, messages: Messages)
    requires n <= |candidates| && PrintAll(candidates[..n], messages).Err?
    ensures PrintAll(candidates, messages) == PrintAll(candidates[..n], messages)
    decreases |candidates|
  {
    hide PrintCandidate;
    if n < |candidates| {
      assert candidates[..|candidates| - 1][..n] == candidates[..n];
      FailureIsFinal(candidates[..|candidates| - 1], n, messages);
    } else {
      assert candidates[..n] == candidates;
    }
  }

  method FastImportStream(candidates: seq<RecordedCandidate>, messages: Messages)
    returns (r: Result<Text, RecordStreamError>)
    ensures r == StreamOf(candidates, messages)
  {
    hide Show, Line, SortedFiles, PrintBlobs, PrintCommit, Writable;
    if candidates == [] {
      return Err(NoCandidates);
    }
    var stream: Text, next: nat, blobs: map<Digest, nat>, commits: map<string, nat>, seen: set<U32> :=
      [], 0, map[], map[], {};
    ghost var p := NOTHING;
    assert candidates[..0] == [];
    for i := 0 to |candidates|
      invariant PrintAll(candidates[..i], messages) == Ok(p)
      invariant p.next == next && p.blobs == blobs && p.commits == commits && p.seen == seen
      invariant AllWritable(p.commands) && stream == Shown(p.commands)
    {
      var c := candidates[i];
      assert candidates[..i + 1][..i] == candidates[..i];
      if c.files == [] {
        FailureIsFinal(candidates, i + 1, messages);
        return Err(EmptyCandidate(c.id));
      }
      if c.sequence in seen {
        FailureIsFinal(candidates, i + 1, messages);
        return Err(DuplicateSequence(c.sequence));
      }
      seen := seen + {c.sequence};
      p := p.(seen := p.seen + {c.sequence});
      var files := SortedFiles(c.files);
      stream, next, blobs := AppendBlobs(stream, files, next, blobs, p);
      p := PrintBlobs(p, files);
      stream, next, commits := AppendCommit(stream, c, files, messages, next, blobs, commits, p);
      CommitFrame(p, c, files, messages);
      p := PrintCommit(p, c, files, messages);
    }
    assert candidates[..|candidates|] == candidates;
    var last := commits[candidates[|candidates| - 1].id];
    ResetPieces(last);
    stream := stream + Line("reset " + RECORD_BRANCH, Line(Numbered("from :", last), Line("", [])));
    ShownGrows(p.commands, Reset(last));
    stream := stream + Line("done", []);
    return Ok(stream);
  }

  lemma CommitFrame(p: Printed, c: RecordedCandidate, files: seq<RecordedFile>, messages: Messages)
    requires forall i :: 0 <= i < |files| ==> files[i].digest in p.blobs
    ensures PrintCommit(p, c, files, messages).blobs == p.blobs
    ensures PrintCommit(p, c, files, messages).seen == p.seen
  {
  }

  lemma ResetPieces(mark: nat)
    ensures Writable(Reset(mark))
    ensures Show(Reset(mark), []) == Line("reset " + RECORD_BRANCH, Line(Numbered("from :", mark), Line("", [])))
  {
  }
}
