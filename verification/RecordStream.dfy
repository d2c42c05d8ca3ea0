/**
 The candidate record as a fast-import stream. `Printed` says which commands a history becomes, and
 `FastImportStream` writes their text into one growing buffer.
 */
module RecordStream {
  import opened Outcomes
  import opened EpisodeRecords
  import opened ByteOrder
  import opened RecordText

  datatype RecordedFile = RecordedFile(path: seq<Byte>, digest: Digest, bytes: seq<Byte>)

  datatype Gate = Source | AscendBuild | ReductionCorrectness

  datatype GateOutcome = GateOutcome(gate: Gate, verdict: string, detail: Option<string>, receipt: Digest)

  datatype RecordedCandidate = RecordedCandidate(
    sequence: U32,
    id: string,
    parent: Option<string>,
    manifest: Digest,
    bundle: Digest,
    files: seq<RecordedFile>,
    outcomes: seq<GateOutcome>)

  datatype RecordStreamError = NoCandidates | EmptyCandidate(id: string) | DuplicateSequence(sequence: U32)

  /** The commit message, from the candidate, its sorted files and whether its parent is recorded. */
  type Messages = (RecordedCandidate, seq<RecordedFile>, bool) -> Text

  // ----- Refs

  predicate IsAlphanumeric(c: char) {
    '0' <= c <= '9' || 'a' <= c <= 'z' || 'A' <= c <= 'Z'
  }

  function Alphanumerics(s: string): (r: string)
    ensures forall i :: 0 <= i < |r| ==> IsAlphanumeric(r[i])
  {
    if s == [] then []
    else Alphanumerics(s[..|s| - 1]) + if IsAlphanumeric(s[|s| - 1]) then [s[|s| - 1]] else []
  }

  /** The last twelve alphanumerics of an identity. */
  function Short(id: string): (r: string)
    ensures forall i :: 0 <= i < |r| ==> IsAlphanumeric(r[i])
  {
    var kept := Alphanumerics(id);
    if |kept| <= 12 then kept else kept[|kept| - 12..]
  }

  function CandidateRef(c: RecordedCandidate): Text {
    var short := Short(c.id);
    "refs/tags/c" + Decimal3(c.sequence) + if short == [] then [] else ['-'] + short
  }

  function LeadingDigits(s: Text): Text {
    if s == [] || !IsDigit(s[0]) then [] else [s[0]] + LeadingDigits(s[1..])
  }

  lemma {:induction false} LeadingDigitsOf(digits: Text, rest: Text)
    requires forall i :: 0 <= i < |digits| ==> IsDigit(digits[i])
    requires rest == [] || !IsDigit(rest[0])
    ensures LeadingDigits(digits + rest) == digits
  {
    if digits == [] {
      assert digits + rest == rest;
    } else {
      LeadingDigitsOf(digits[1..], rest);
      assert (digits + rest)[1..] == digits[1..] + rest;
    }
  }

  /** The sequence that a candidate's ref names. */
  function RefSequence(reference: Text): Option<nat> {
    var tail :- Strip(reference, "refs/tags/c");
    ReadDecimal(LeadingDigits(tail))
  }

  /** A ref fits on one line and determines its sequence, so distinct sequences have distinct refs. */
  lemma RefNamesSequence(c: RecordedCandidate)
    ensures RefSequence(CandidateRef(c)) == Some(c.sequence)
    ensures '\n' !in CandidateRef(c)
  {
    hide ReadDecimal, Decimal3, Short;
    var short := Short(c.id);
    var suffix := if short == [] then [] else ['-'] + short;
    Decimal3Reads(c.sequence);
    LeadingDigitsOf(Decimal3(c.sequence), suffix);
    var tail := Decimal3(c.sequence) + suffix;
    StripReads("refs/tags/c", tail);
    assert CandidateRef(c) == "refs/tags/c" + tail;
  }

  // ----- File order

  function PathOf(f: RecordedFile): seq<Byte> {
    f.path
  }

  /** The files by path; equal paths keep their order. */
  function SortedFiles(files: seq<RecordedFile>): seq<RecordedFile> {
    Sorted(files, PathOf)
  }

  // ----- The commands of a history

  datatype Printed = Printed(
    next: nat,
    blobs: map<Digest, nat>,
    commits: map<string, nat>,
    seen: set<U32>,
    commands: seq<Command>)

  const NOTHING: Printed := Printed(0, map[], map[], {}, [])

  function PrintBlob(p: Printed, f: RecordedFile): Printed {
    if f.digest in p.blobs then p
    else p.(next := p.next + 1, blobs := p.blobs[f.digest := p.next + 1],
            commands := p.commands + [Blob(p.next + 1, f.bytes)])
  }

  function PrintBlobs(p: Printed, files: seq<RecordedFile>): (r: Printed)
    ensures r.commits == p.commits && r.seen == p.seen
    ensures forall i :: 0 <= i < |files| ==> files[i].digest in r.blobs
  {
    if files == [] then p else PrintBlob(PrintBlobs(p, files[..|files| - 1]), files[|files| - 1])
  }

  function ChangesOf(blobs: map<Digest, nat>, files: seq<RecordedFile>): seq<Change>
    requires forall i :: 0 <= i < |files| ==> files[i].digest in blobs
  {
    seq(|files|, i requires 0 <= i < |files| => Change(blobs[files[i].digest], files[i].path))
  }

  function ParentMark(commits: map<string, nat>, parent: Option<string>): Option<nat> {
    if parent.Some? && parent.value in commits then Some(commits[parent.value]) else None
  }

  /** The candidate's own mark is entered before its parent is looked up. */
  function CommitOf(p: Printed, c: RecordedCandidate, files: seq<RecordedFile>, messages: Messages): Command
    requires forall i :: 0 <= i < |files| ==> files[i].digest in p.blobs
  {
    var parent := ParentMark(p.commits[c.id := p.next + 1], c.parent);
    Commit(CandidateRef(c), p.next + 1, c.sequence, messages(c, files, parent.Some?), parent,
           ChangesOf(p.blobs, files))
  }

  function PrintCommit(p: Printed, c: RecordedCandidate, files: seq<RecordedFile>, messages: Messages): Printed
    requires forall i :: 0 <= i < |files| ==> files[i].digest in p.blobs
  {
    p.(next := p.next + 1, commits := p.commits[c.id := p.next + 1],
       commands := p.commands + [CommitOf(p, c, files, messages)])
  }

  function PrintCandidate(p: Printed, c: RecordedCandidate, messages: Messages)
    : (r: Result<Printed, RecordStreamError>)
    ensures r.Ok? ==> c.id in r.value.commits
  {
    if c.files == [] then Err(EmptyCandidate(c.id))
    else if c.sequence in p.seen then Err(DuplicateSequence(c.sequence))
    else
      var files := SortedFiles(c.files);
      Ok(PrintCommit(PrintBlobs(p.(seen := p.seen + {c.sequence}), files), c, files, messages))
  }

  function PrintAll(candidates: seq<RecordedCandidate>, messages: Messages)
    : (r: Result<Printed, RecordStreamError>)
    ensures r.Ok? && candidates != [] ==> candidates[|candidates| - 1].id in r.value.commits
  {
    if candidates == [] then Ok(NOTHING)
    else
      var p :- PrintAll(candidates[..|candidates| - 1], messages);
      PrintCandidate(p, candidates[|candidates| - 1], messages)
  }

  /** All commands of the stream, with the branch a reader lands on. */
  function Commands(candidates: seq<RecordedCandidate>, messages: Messages)
    : Result<seq<Command>, RecordStreamError>
  {
    if candidates == [] then Err(NoCandidates)
    else
      var p :- PrintAll(candidates, messages);
      Ok(p.commands + [Reset(p.commits[candidates[|candidates| - 1].id])])
  }

  // ----- The text of the commands

  ghost predicate AllWritable(commands: seq<Command>) {
    forall i :: 0 <= i < |commands| ==> Writable(commands[i])
  }

  ghost function Shown(commands: seq<Command>): Text
    requires AllWritable(commands)
  {
    if commands == [] then []
    else Shown(commands[..|commands| - 1]) + Show(commands[|commands| - 1], [])
  }

  ghost function ShownWith(commands: seq<Command>, rest: Text): Text
    requires AllWritable(commands)
    decreases |commands|
  {
    if commands == [] then rest else Show(commands[0], ShownWith(commands[1..], rest))
  }

  lemma LineAppends(line: Text, rest: Text)
    ensures Line(line, rest) == Line(line, []) + rest
  {
  }

  lemma DataAppends(payload: Text, rest: Text)
    ensures Data(payload, rest) == Data(payload, []) + rest
  {
  }

  lemma {:induction false} ChangesAppend(changes: seq<Change>, rest: Text)
    requires forall i :: 0 <= i < |changes| ==> IsPath(changes[i].path)
    ensures ShowChanges(changes, rest) == ShowChanges(changes, []) + rest
    decreases |changes|
  {
    hide Line, ShowChange;
    if changes != [] {
      var head := ShowChange(changes[0]);
      ChangesAppend(changes[1..], rest);
      LineAppends(head, ShowChanges(changes[1..], rest));
      LineAppends(head, ShowChanges(changes[1..], []));
    }
  }

  lemma {:induction false} ChangesGrow(changes: seq<Change>, c: Change)
    requires (forall i :: 0 <= i < |changes| ==> IsPath(changes[i].path)) && IsPath(c.path)
    ensures ShowChanges(changes + [c], []) == ShowChanges(changes, []) + Line(ShowChange(c), [])
    decreases |changes|
  {
    hide Line, ShowChange;
    if changes == [] {
      assert ([c])[1..] == [] && [] + [c] == [c];
      assert ShowChanges([c], []) == Line(ShowChange(c), ShowChanges([], []));
    } else {
      var head := ShowChange(changes[0]);
      ChangesGrow(changes[1..], c);
      assert (changes + [c])[1..] == changes[1..] + [c];
      LineAppends(head, ShowChanges(changes[1..] + [c], []));
      LineAppends(head, ShowChanges(changes[1..], []));
    }
  }

  /** The pieces of a commit, in the order in which they are appended. */
  lemma BodyPieces(c: Command, rest: Text)
    requires c.Commit? && Writable(c)
    ensures ShowBody(c, rest)
            == ShowParent(c.parent, []) + Line("deleteall", []) + ShowChanges(c.changes, []) + Line("", []) + rest
  {
    hide Line, ShowChanges, Numbered;
    var end := Line("", rest);
    LineAppends("", rest);
    ChangesAppend(c.changes, end);
    var changes := ShowChanges(c.changes, end);
    LineAppends("deleteall", changes);
    if c.parent.Some? {
      LineAppends(Numbered("from :", c.parent.value), Line("deleteall", changes));
    }
  }

  ghost function HeadingText(reference: Text, mark: nat, when: nat, message: Text): Text {
    Line("commit " + reference, Line(Numbered("mark :", mark), []))
    + Line(Signature("author ", when), [])
    + Line(Signature("committer ", when), [])
    + Data(message, [])
  }

  ghost function Heading(c: Command): Text
    requires c.Commit?
  {
    HeadingText(c.reference, c.mark, c.when, c.message)
  }

  lemma CommitPieces(c: Command, rest: Text)
    requires c.Commit? && Writable(c)
    ensures Show(c, rest) == Heading(c) + ShowBody(c, rest)
  {
    hide Line, Numbered, Signature, Data, ShowBody;
    var body := ShowBody(c, rest);
    var message := Data(c.message, body);
    var committer := Line(Signature("committer ", c.when), message);
    var author := Line(Signature("author ", c.when), committer);
    var mark := Line(Numbered("mark :", c.mark), author);
    DataAppends(c.message, body);
    LineAppends(Signature("committer ", c.when), message);
    LineAppends(Signature("author ", c.when), committer);
    LineAppends(Numbered("mark :", c.mark), author);
    LineAppends("commit " + c.reference, mark);
    LineAppends("commit " + c.reference, Line(Numbered("mark :", c.mark), []));
  }

  lemma BlobPieces(mark: nat, data: Text, rest: Text)
    ensures Show(Blob(mark, data), rest)
            == Line("blob", Line(Numbered("mark :", mark), [])) + Data(data, []) + rest
  {
    hide Line, Numbered, Data;
    var after := Data(data, rest);
    DataAppends(data, rest);
    LineAppends(Numbered("mark :", mark), after);
    LineAppends("blob", Line(Numbered("mark :", mark), after));
    LineAppends("blob", Line(Numbered("mark :", mark), []));
  }

  lemma ShowAppends(c: Command, rest: Text)
    requires Writable(c)
    ensures Show(c, rest) == Show(c, []) + rest
  {
    hide Show, ShowBody, Heading, Line, Data, ShowChanges;
    match c
    case Blob(mark, data) =>
      BlobPieces(mark, data, rest);
      BlobPieces(mark, data, []);
    case Commit(_, _, _, _, _, _) =>
      CommitPieces(c, rest);
      CommitPieces(c, []);
      BodyPieces(c, rest);
      BodyPieces(c, []);
    case Reset(mark) => ResetAppends(mark, rest);
  }

  lemma ResetAppends(mark: nat, rest: Text)
    ensures Show(Reset(mark), rest) == Show(Reset(mark), []) + rest
  {
    hide Line, Numbered;
    var head, from := "reset " + RECORD_BRANCH, Numbered("from :", mark);
    LineAppends("", rest);
    LineAppends(from, Line("", rest));
    LineAppends(from, Line("", []));
    LineAppends(head, Line(from, Line("", rest)));
    LineAppends(head, Line(from, Line("", [])));
  }

  lemma {:induction false} ShownWithGrows(commands: seq<Command>, c: Command, rest: Text)
    requires AllWritable(commands) && Writable(c)
    ensures ShownWith(commands + [c], rest) == ShownWith(commands, Show(c, rest))
    decreases |commands|
  {
    hide Show;
    if commands == [] {
      assert ([c])[1..] == [] && [] + [c] == [c];
      assert ShownWith([c], rest) == Show(c, ShownWith([], rest));
    } else {
      ShownWithGrows(commands[1..], c, rest);
      assert (commands + [c])[1..] == commands[1..] + [c];
    }
  }

  lemma {:induction false} ShownFollowedBy(commands: seq<Command>, rest: Text)
    requires AllWritable(commands)
    ensures Shown(commands) + rest == ShownWith(commands, rest)
    decreases |commands|
  {
    hide Show;
    if commands != [] {
      var init, last := commands[..|commands| - 1], commands[|commands| - 1];
      ShowAppends(last, rest);
      ShownFollowedBy(init, Show(last, rest));
      assert commands == init + [last];
      ShownWithGrows(init, last, rest);
    }
  }

  lemma {:induction false} BlobsWritable(p: Printed, files: seq<RecordedFile>)
    requires AllWritable(p.commands)
    ensures AllWritable(PrintBlobs(p, files).commands)
  {
    if files != [] {
      BlobsWritable(p, files[..|files| - 1]);
    }
  }

  lemma CommitWritable(p: Printed, c: RecordedCandidate, files: seq<RecordedFile>, messages: Messages)
    requires forall i :: 0 <= i < |files| ==> files[i].digest in p.blobs
    ensures Writable(CommitOf(p, c, files, messages))
  {
    hide CandidateRef;
    RefNamesSequence(c);
  }

  lemma {:induction false} PrintAllWritable(candidates: seq<RecordedCandidate>, messages: Messages)
    requires PrintAll(candidates, messages).Ok?
    ensures AllWritable(PrintAll(candidates, messages).value.commands)
  {
    hide CommitOf, Writable;
    if candidates != [] {
      var init, c := candidates[..|candidates| - 1], candidates[|candidates| - 1];
      PrintAllWritable(init, messages);
      var p := PrintAll(init, messages).value;
      var files := SortedFiles(c.files);
      BlobsWritable(p.(seen := p.seen + {c.sequence}), files);
      CommitWritable(PrintBlobs(p.(seen := p.seen + {c.sequence}), files), c, files, messages);
    }
  }

  ghost function StreamOf(candidates: seq<RecordedCandidate>, messages: Messages)
    : Result<Text, RecordStreamError>
  {
    var commands := Commands(candidates, messages);
    if commands.Err? then Err(commands.error)
    else
      CommandsWritable(candidates, messages);
      Ok(Shown(commands.value) + Line("done", []))
  }

  lemma CommandsWritable(candidates: seq<RecordedCandidate>, messages: Messages)
    requires Commands(candidates, messages).Ok?
    ensures AllWritable(Commands(candidates, messages).value)
  {
    PrintAllWritable(candidates, messages);
  }

  // ----- What a ref shows of an identity

  lemma {:induction false} AlphanumericsSplit(a: string, b: string)
    ensures Alphanumerics(a + b) == Alphanumerics(a) + Alphanumerics(b)
    decreases |b|
  {
    if b == [] {
      assert a + b == a;
    } else {
      AlphanumericsSplit(a, b[..|b| - 1]);
      assert (a + b)[..|a + b| - 1] == a + b[..|b| - 1];
    }
  }

  lemma {:induction false} AlphanumericsKept(s: string)
    requires forall i :: 0 <= i < |s| ==> IsAlphanumeric(s[i])
    ensures Alphanumerics(s) == s
    decreases |s|
  {
    if s != [] {
      AlphanumericsKept(s[..|s| - 1]);
    }
  }

  lemma ShortOfEnd(before: string, other: char, after: string)
    requires !IsAlphanumeric(other)
    ensures Short(before + [other] + after) == Short(before + after)
    ensures (forall i :: 0 <= i < |after| ==> IsAlphanumeric(after[i])) && |after| >= 12 ==>
              Short(before + [other] + after) == after[|after| - 12..]
  {
    hide IsAlphanumeric, Alphanumerics;
    AlphanumericsSplit(before + [other], after);
    AlphanumericsSplit(before, [other]);
    AlphanumericsSplit(before, after);
    OneDropped(other);
    var first, kept := Alphanumerics(before), Alphanumerics(before + [other] + after);
    assert first + [] == first;
    assert kept == first + Alphanumerics(after);
    if (forall i :: 0 <= i < |after| ==> IsAlphanumeric(after[i])) && |after| >= 12 {
      AlphanumericsKept(after);
      EndOf(first, after);
    }
  }

  lemma EndOf(first: string, after: string)
    requires |after| >= 12
    ensures (first + after)[|first + after| - 12..] == after[|after| - 12..]
  {
  }

  lemma OneDropped(other: char)
    requires !IsAlphanumeric(other)
    ensures Alphanumerics([other]) == []
  {
    assert [other][..0] == [];
  }

  /** Of an identity, a ref shows the last twelve letters and digits, and nothing else matters. */
  lemma RefShowsTheEnd(c: RecordedCandidate, before: string, other: char, after: string)
    requires c.id == before + [other] + after && !IsAlphanumeric(other)
    ensures CandidateRef(c) == CandidateRef(c.(id := before + after))
    ensures (forall i :: 0 <= i < |after| ==> IsAlphanumeric(after[i])) && |after| >= 12 ==>
              CandidateRef(c) == "refs/tags/c" + Decimal3(c.sequence) + "-" + after[|after| - 12..]
  {
    hide Short, Decimal3, IsAlphanumeric;
    ShortOfEnd(before, other, after);
  }

  // ----- Contents are written once

  function BlobCount(commands: seq<Command>): nat {
    if commands == [] then 0
    else BlobCount(commands[..|commands| - 1]) + if commands[|commands| - 1].Blob? then 1 else 0
  }

  lemma BlobCountGrows(commands: seq<Command>, c: Command)
    ensures BlobCount(commands + [c]) == BlobCount(commands) + if c.Blob? then 1 else 0
  {
    assert (commands + [c])[..|commands|] == commands;
  }

  /** One blob for every digest that has a mark. */
  predicate OncePerDigest(p: Printed) {
    BlobCount(p.commands) == |p.blobs|
  }

  lemma {:induction false} BlobsOnce(p: Printed, files: seq<RecordedFile>)
    requires OncePerDigest(p)
    ensures var q := PrintBlobs(p, files);
            && OncePerDigest(q)
            && forall d :: d in q.blobs <==> d in p.blobs || exists i :: 0 <= i < |files| && files[i].digest == d
    decreases |files|
  {
    hide BlobCount;
    if files != [] {
      var init, f := files[..|files| - 1], files[|files| - 1];
      BlobsOnce(p, init);
      var q := PrintBlobs(p, init);
      BlobCountGrows(q.commands, Blob(q.next + 1, f.bytes));
      assert f.digest !in q.blobs ==> |q.blobs[f.digest := q.next + 1]| == |q.blobs| + 1;
      assert forall i :: 0 <= i < |init| ==> init[i] == files[i];
    }
  }

  ghost predicate HasDigest(candidates: seq<RecordedCandidate>, d: Digest) {
    exists i, j :: 0 <= i < |candidates| && 0 <= j < |candidates[i].files| && candidates[i].files[j].digest == d
  }

  lemma HasDigestGrows(candidates: seq<RecordedCandidate>, d: Digest)
    requires candidates != []
    ensures var init, c := candidates[..|candidates| - 1], candidates[|candidates| - 1];
            HasDigest(candidates, d) <==>
              HasDigest(init, d) || exists j :: 0 <= j < |c.files| && c.files[j].digest == d
  {
    var init := candidates[..|candidates| - 1];
    assert forall i :: 0 <= i < |init| ==> init[i] == candidates[i];
  }

  lemma SortedDigests(files: seq<RecordedFile>, d: Digest)
    ensures (exists i :: 0 <= i < |SortedFiles(files)| && SortedFiles(files)[i].digest == d) <==>
              exists i :: 0 <= i < |files| && files[i].digest == d
  {
    hide Sorted;
    var sorted := SortedFiles(files);
    SortedKeeps(files, PathOf);
    if i :| 0 <= i < |sorted| && sorted[i].digest == d {
      assert sorted[i] in multiset(sorted);
      assert sorted[i] in multiset(files);
      var k :| 0 <= k < |files| && files[k] == sorted[i];
    }
    if i :| 0 <= i < |files| && files[i].digest == d {
      assert files[i] in multiset(files);
      assert files[i] in multiset(sorted);
      var k :| 0 <= k < |sorted| && sorted[k] == files[i];
    }
  }

  /** However many files share a content, a stream writes each content exactly once. */
  lemma {:induction false} ContentsAreWrittenOnce(candidates: seq<RecordedCandidate>, messages: Messages)
    requires PrintAll(candidates, messages).Ok?
    ensures var p := PrintAll(candidates, messages).value;
            OncePerDigest(p) && forall d :: d in p.blobs <==> HasDigest(candidates, d)
    decreases |candidates|
  {
    hide BlobCount, SortedFiles, CommitOf, PrintBlobs, HasDigest;
    if candidates == [] {
      NothingWritten();
    } else {
      var init, c := candidates[..|candidates| - 1], candidates[|candidates| - 1];
      ContentsAreWrittenOnce(init, messages);
      var p := PrintAll(init, messages).value;
      var files := SortedFiles(c.files);
      var q := p.(seen := p.seen + {c.sequence});
      BlobsOnce(q, files);
      var r := PrintBlobs(q, files);
      BlobCountGrows(r.commands, CommitOf(r, c, files, messages));
      CommitIsNoBlob(r, c, files, messages);
      forall d ensures d in r.blobs <==> HasDigest(candidates, d) {
        SortedDigests(c.files, d);
        HasDigestGrows(candidates, d);
      }
    }
  }

  lemma NothingWritten()
    ensures OncePerDigest(NOTHING) && forall d :: !HasDigest([], d)
  {
  }

  lemma CommitIsNoBlob(p: Printed, c: RecordedCandidate, files: seq<RecordedFile>, messages: Messages)
    requires forall i :: 0 <= i < |files| ==> files[i].digest in p.blobs
    ensures CommitOf(p, c, files, messages).Commit?
  {
  }
}
