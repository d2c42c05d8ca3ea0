/**
 What a reader of the stream rebuilds, and the round trip: importing the printed stream gives back
 every candidate's ref, sequence, parent and exact tree. Marks are resolved as git resolves them: a
 mark that is not defined yet, or names the wrong kind of object, refuses the import.
 */
module RecordImport {
  import opened Outcomes
  import opened EpisodeRecords
  import opened ByteOrder
  import opened RecordText
  import opened RecordStream

  datatype Object = BlobObject(data: Text) | CommitObject(index: nat)

  datatype Imported = Imported(
    reference: Text, sequence: nat, message: Text, parent: Option<nat>, tree: map<Text, Text>)

  datatype Repository = Repository(
    objects: map<nat, Object>, history: seq<Imported>, refs: map<Text, nat>, head: Option<nat>)

  const EMPTY: Repository := Repository(map[], [], map[], None)

  // ----- Importing

  function TreeOf(objects: map<nat, Object>, changes: seq<Change>): Option<map<Text, Text>> {
    if changes == [] then Some(map[])
    else if changes[0].mark !in objects || !objects[changes[0].mark].BlobObject? then None
    else
      var rest :- TreeOf(objects, changes[1..]);
      Some(map[changes[0].path := objects[changes[0].mark].data] + rest)
  }

  function CommitAt(objects: map<nat, Object>, mark: nat): Option<nat> {
    if mark in objects && objects[mark].CommitObject? then Some(objects[mark].index) else None
  }

  function ParentOf(objects: map<nat, Object>, parent: Option<nat>): Option<Option<nat>> {
    if parent.None? then Some(None)
    else
      var index :- CommitAt(objects, parent.value);
      Some(Some(index))
  }

  function Apply(repo: Repository, c: Command): Option<Repository> {
    match c
    case Blob(mark, data) => Some(repo.(objects := repo.objects[mark := BlobObject(data)]))
    case Commit(reference, mark, when, message, parent, changes) =>
      var base :- ParentOf(repo.objects, parent);
      var tree :- TreeOf(repo.objects, changes);
      var index := |repo.history|;
      Some(repo.(objects := repo.objects[mark := CommitObject(index)],
                 history := repo.history + [Imported(reference, when, message, base, tree)],
                 refs := repo.refs[reference := index]))
    case Reset(mark) =>
      var index :- CommitAt(repo.objects, mark);
      Some(repo.(head := Some(index)))
  }

  function Interpret(commands: seq<Command>): Option<Repository> {
    if commands == [] then Some(EMPTY)
    else
      var repo :- Interpret(commands[..|commands| - 1]);
      Apply(repo, commands[|commands| - 1])
  }

  function ReadCommands(s: Text): Option<seq<Command>>
    decreases |s|
  {
    var line :- NextLine(s);
    if line.0 == "done" then if line.1 == [] then Some([]) else None
    else
      var c :- ReadCommand(s);
      var more :- ReadCommands(c.1);
      Some([c.0] + more)
  }

  /** The whole reader: text to commands, commands to a repository. */
  function Import(stream: Text): Option<Repository> {
    var commands :- ReadCommands(stream);
    Interpret(commands)
  }

  // ----- What the history says

  /** The newest candidate with this identity. */
  function Latest(candidates: seq<RecordedCandidate>, id: string): (r: Option<nat>)
    ensures r.Some? ==> r.value < |candidates| && candidates[r.value].id == id
    ensures r.None? ==> forall i :: 0 <= i < |candidates| ==> candidates[i].id != id
  {
    if candidates == [] then None
    else if candidates[|candidates| - 1].id == id then Some(|candidates| - 1)
    else Latest(candidates[..|candidates| - 1], id)
  }

  function ParentIndex(earlier: seq<RecordedCandidate>, c: RecordedCandidate): Option<nat> {
    if c.parent.None? then None else Latest(earlier, c.parent.value)
  }

  /** Paths to contents; when a path repeats, its last entry counts. */
  function FilesTree(files: seq<RecordedFile>): map<Text, Text> {
    if files == [] then map[]
    else map[files[0].path := files[0].bytes] + FilesTree(files[1..])
  }

  function Recorded(earlier: seq<RecordedCandidate>, c: RecordedCandidate, messages: Messages): Imported {
    var parent := ParentIndex(earlier, c);
    Imported(CandidateRef(c), c.sequence, messages(c, SortedFiles(c.files), parent.Some?), parent, FilesTree(c.files))
  }

  /** The repository that a history stands for. */
  ghost predicate Records(repo: Repository, candidates: seq<RecordedCandidate>, messages: Messages) {
    && |repo.history| == |candidates|
    && (forall i :: 0 <= i < |candidates| ==>
          repo.history[i] == Recorded(candidates[..i], candidates[i], messages))
    && (forall i :: 0 <= i < |candidates| ==>
          CandidateRef(candidates[i]) in repo.refs && repo.refs[CandidateRef(candidates[i])] == i)
    && (forall reference :: reference in repo.refs ==>
          exists i :: 0 <= i < |candidates| && reference == CandidateRef(candidates[i]))
  }

  ghost predicate NamesItself(c: RecordedCandidate) {
    c.parent == Some(c.id)
  }

  /** Every file's bytes are those its digest stands for. */
  ghost predicate Faithful(files: seq<RecordedFile>, contents: Digest -> seq<Byte>) {
    forall j :: 0 <= j < |files| ==> files[j].bytes == contents(files[j].digest)
  }

  // ----- Sorting does not change a tree

  lemma {:induction false} InsertTree(f: RecordedFile, files: seq<RecordedFile>)
    ensures FilesTree(Insert(f, files, PathOf)) == map[f.path := f.bytes] + FilesTree(files)
  {
    hide LessEq;
    if files == [] || LessEq(f.path, files[0].path) {
      assert ([f] + files)[1..] == files;
    } else {
      var tail := Insert(f, files[1..], PathOf);
      InsertTree(f, files[1..]);
      assert ([files[0]] + tail)[1..] == tail;
      Reflexive(f.path);
      EntriesCommute(f, files[0], FilesTree(files[1..]));
    }
  }

  lemma EntriesCommute(f: RecordedFile, g: RecordedFile, tree: map<Text, Text>)
    requires f.path != g.path
    ensures map[f.path := f.bytes] + (map[g.path := g.bytes] + tree)
            == map[g.path := g.bytes] + (map[f.path := f.bytes] + tree)
  {
  }

  lemma {:induction false} SortedTree(files: seq<RecordedFile>)
    ensures FilesTree(SortedFiles(files)) == FilesTree(files)
  {
    hide Insert;
    if files != [] {
      SortedTree(files[1..]);
      InsertTree(files[0], SortedFiles(files[1..]));
    }
  }

  lemma SortedFaithful(files: seq<RecordedFile>, contents: Digest -> seq<Byte>)
    requires Faithful(files, contents)
    ensures Faithful(SortedFiles(files), contents)
  {
    var sorted := SortedFiles(files);
    SortedKeeps(files, PathOf);
    forall j | 0 <= j < |sorted| ensures sorted[j].bytes == contents(sorted[j].digest) {
      assert sorted[j] in multiset(sorted);
      assert sorted[j] in multiset(files);
    }
  }

  // ----- Marks

  /** The marks handed out so far name what they should. */
  ghost predicate MarksOk(p: Printed, repo: Repository, candidates: seq<RecordedCandidate>,
                          contents: Digest -> seq<Byte>) {
    && (forall m :: m in repo.objects ==> m <= p.next)
    && (forall d :: d in p.blobs ==>
          p.blobs[d] in repo.objects && repo.objects[p.blobs[d]] == BlobObject(contents(d)))
    && (forall id :: id in p.commits ==>
          && CommitAt(repo.objects, p.commits[id]).Some?
          && CommitAt(repo.objects, p.commits[id]) == Latest(candidates, id))
    && (forall i :: 0 <= i < |candidates| ==> candidates[i].id in p.commits)
  }

  lemma InterpretGrows(commands: seq<Command>, c: Command)
    ensures Interpret(commands + [c])
            == if Interpret(commands).None? then None else Apply(Interpret(commands).value, c)
  {
  }

  lemma BlobKeeps(p: Printed, f: RecordedFile, candidates: seq<RecordedCandidate>, contents: Digest -> seq<Byte>)
    requires Interpret(p.commands).Some? && MarksOk(p, Interpret(p.commands).value, candidates, contents)
    requires f.bytes == contents(f.digest)
    ensures var q, repo := PrintBlob(p, f), Interpret(p.commands).value;
            && Interpret(q.commands).Some?
            && MarksOk(q, Interpret(q.commands).value, candidates, contents)
            && Interpret(q.commands).value == repo.(objects := Interpret(q.commands).value.objects)
  {
    hide Interpret, Latest;
    InterpretGrows(p.commands, Blob(p.next + 1, f.bytes));
  }

  lemma {:induction false} BlobsKeep(p: Printed, files: seq<RecordedFile>, candidates: seq<RecordedCandidate>,
                                     contents: Digest -> seq<Byte>)
    requires Interpret(p.commands).Some? && MarksOk(p, Interpret(p.commands).value, candidates, contents)
    requires Faithful(files, contents)
    ensures var q, repo := PrintBlobs(p, files), Interpret(p.commands).value;
            && Interpret(q.commands).Some?
            && MarksOk(q, Interpret(q.commands).value, candidates, contents)
            && Interpret(q.commands).value == repo.(objects := Interpret(q.commands).value.objects)
    decreases |files|
  {
    hide Interpret, MarksOk, PrintBlob;
    if files != [] {
      var init := files[..|files| - 1];
      BlobsKeep(p, init, candidates, contents);
      BlobKeeps(PrintBlobs(p, init), files[|files| - 1], candidates, contents);
    }
  }

  lemma {:induction false} TreeRebuilt(p: Printed, objects: map<nat, Object>, files: seq<RecordedFile>,
                                       contents: Digest -> seq<Byte>)
    requires forall j :: 0 <= j < |files| ==> files[j].digest in p.blobs
    requires forall d :: d in p.blobs ==> p.blobs[d] in objects && objects[p.blobs[d]] == BlobObject(contents(d))
    requires Faithful(files, contents)
    ensures TreeOf(objects, ChangesOf(p.blobs, files)) == Some(FilesTree(files))
    decreases |files|
  {
    if files != [] {
      TreeRebuilt(p, objects, files[1..], contents);
      assert ChangesOf(p.blobs, files)[1..] == ChangesOf(p.blobs, files[1..]);
    }
  }

  /** A commit whose parent is an earlier candidate, or none, resolves to exactly what is recorded. */
  lemma CommitImports(p: Printed, c: RecordedCandidate, candidates: seq<RecordedCandidate>, messages: Messages,
                      contents: Digest -> seq<Byte>)
    requires Interpret(p.commands).Some? && MarksOk(p, Interpret(p.commands).value, candidates, contents)
    requires forall j :: 0 <= j < |SortedFiles(c.files)| ==> SortedFiles(c.files)[j].digest in p.blobs
    requires Faithful(c.files, contents) && !NamesItself(c)
    requires |Interpret(p.commands).value.history| == |candidates|
    ensures var q, repo := PrintCommit(p, c, SortedFiles(c.files), messages), Interpret(p.commands).value;
            Interpret(q.commands) ==
              Some(repo.(objects := repo.objects[p.next + 1 := CommitObject(|candidates|)],
                         history := repo.history + [Recorded(candidates, c, messages)],
                         refs := repo.refs[CandidateRef(c) := |candidates|]))
  {
    hide Interpret, SortedFiles, Latest, TreeOf, FilesTree, CandidateRef, ChangesOf;
    var repo, files := Interpret(p.commands).value, SortedFiles(c.files);
    var written := CommitOf(p, c, files, messages);
    InterpretGrows(p.commands, written);
    SortedFaithful(c.files, contents);
    TreeRebuilt(p, repo.objects, files, contents);
    SortedTree(c.files);
    LatestUnknown(p, repo, candidates, c.parent, contents);
    assert ParentMark(p.commits[c.id := p.next + 1], c.parent) == ParentMark(p.commits, c.parent);
    assert ParentOf(repo.objects, written.parent) == Some(ParentIndex(candidates, c));
  }

  lemma LatestUnknown(p: Printed, repo: Repository, candidates: seq<RecordedCandidate>, parent: Option<string>,
                      contents: Digest -> seq<Byte>)
    requires MarksOk(p, repo, candidates, contents)
    ensures parent.Some? && parent.value !in p.commits ==> Latest(candidates, parent.value).None?
    ensures parent.Some? && parent.value in p.commits ==> Latest(candidates, parent.value).Some?
  {
  }

  /** A candidate that names itself writes a `from` line with its own, still undefined, mark. */
  lemma SelfParentRefused(p: Printed, c: RecordedCandidate, candidates: seq<RecordedCandidate>, messages: Messages,
                          contents: Digest -> seq<Byte>)
    requires Interpret(p.commands).Some? && MarksOk(p, Interpret(p.commands).value, candidates, contents)
    requires forall j :: 0 <= j < |SortedFiles(c.files)| ==> SortedFiles(c.files)[j].digest in p.blobs
    requires NamesItself(c)
    ensures Interpret(PrintCommit(p, c, SortedFiles(c.files), messages).commands).None?
  {
  }

  // ----- Whole histories

  ghost predicate SeenOk(p: Printed, candidates: seq<RecordedCandidate>) {
    forall i :: 0 <= i < |candidates| ==> candidates[i].sequence in p.seen
  }

  ghost predicate AllFaithful(candidates: seq<RecordedCandidate>, contents: Digest -> seq<Byte>) {
    forall i :: 0 <= i < |candidates| ==> Faithful(candidates[i].files, contents)
  }

  ghost predicate SomeNamesItself(candidates: seq<RecordedCandidate>) {
    exists i :: 0 <= i < |candidates| && NamesItself(candidates[i])
  }

  /** After a prefix without a self-parent, the commands so far import to exactly that prefix. */
  ghost predicate Mirrors(p: Printed, candidates: seq<RecordedCandidate>, messages: Messages,
                          contents: Digest -> seq<Byte>) {
    && Interpret(p.commands).Some?
    && MarksOk(p, Interpret(p.commands).value, candidates, contents)
    && Records(Interpret(p.commands).value, candidates, messages)
    && SeenOk(p, candidates)
  }

  lemma RefsDiffer(p: Printed, candidates: seq<RecordedCandidate>, c: RecordedCandidate)
    requires SeenOk(p, candidates) && c.sequence !in p.seen
    ensures forall i :: 0 <= i < |candidates| ==> CandidateRef(candidates[i]) != CandidateRef(c)
  {
    hide CandidateRef, RefSequence;
    RefNamesSequence(c);
    forall i | 0 <= i < |candidates| ensures CandidateRef(candidates[i]) != CandidateRef(c) {
      RefNamesSequence(candidates[i]);
    }
  }

  lemma RecordsGrow(repo: Repository, after: Repository, candidates: seq<RecordedCandidate>, c: RecordedCandidate,
                    messages: Messages)
    requires Records(repo, candidates, messages)
    requires forall i :: 0 <= i < |candidates| ==> CandidateRef(candidates[i]) != CandidateRef(c)
    requires after.history == repo.history + [Recorded(candidates, c, messages)]
    requires after.refs == repo.refs[CandidateRef(c) := |candidates|]
    ensures Records(after, candidates + [c], messages)
  {
    hide CandidateRef, Recorded;
    var all := candidates + [c];
    forall i | 0 <= i < |all|
      ensures after.history[i] == Recorded(all[..i], all[i], messages)
      ensures CandidateRef(all[i]) in after.refs && after.refs[CandidateRef(all[i])] == i
    {
      assert i < |candidates| ==> all[i] == candidates[i] && all[..i] == candidates[..i];
      assert all[..|candidates|] == candidates;
    }
    forall reference | reference in after.refs
      ensures exists i :: 0 <= i < |all| && reference == CandidateRef(all[i])
    {
      if reference == CandidateRef(c) {
        assert all[|candidates|] == c;
      } else {
        var i :| 0 <= i < |candidates| && reference == CandidateRef(candidates[i]);
        assert all[i] == candidates[i];
      }
    }
  }

  lemma MarksGrow(p: Printed, repo: Repository, q: Printed, after: Repository,
                  candidates: seq<RecordedCandidate>, c: RecordedCandidate, contents: Digest -> seq<Byte>)
    requires MarksOk(p, repo, candidates, contents)
    requires q.next == p.next + 1 && q.blobs == p.blobs && q.commits == p.commits[c.id := p.next + 1]
    requires after.objects == repo.objects[p.next + 1 := CommitObject(|candidates|)]
    ensures MarksOk(q, after, candidates + [c], contents)
  {
    hide Latest;
    var all := candidates + [c];
    forall id | id in q.commits
      ensures CommitAt(after.objects, q.commits[id]).Some?
      ensures CommitAt(after.objects, q.commits[id]) == Latest(all, id)
    {
      LatestGrows(candidates, c, id);
    }
  }

  lemma LatestGrows(candidates: seq<RecordedCandidate>, c: RecordedCandidate, id: string)
    ensures Latest(candidates + [c], id) == if c.id == id then Some(|candidates|) else Latest(candidates, id)
  {
  }

  lemma CandidateMirrors(p: Printed, candidates: seq<RecordedCandidate>, c: RecordedCandidate, messages: Messages,
                         contents: Digest -> seq<Byte>)
    requires Mirrors(p, candidates, messages, contents) && Faithful(c.files, contents)
    requires PrintCandidate(p, c, messages).Ok?
    ensures var q := PrintCandidate(p, c, messages).value;
            if NamesItself(c) then Interpret(q.commands).None?
            else Mirrors(q, candidates + [c], messages, contents)
  {
    hide Interpret, MarksOk, Records, SortedFiles, CandidateRef, Faithful, CommitOf, Recorded;
    var files := SortedFiles(c.files);
    SortedFaithful(c.files, contents);
    var p1 := p.(seen := p.seen + {c.sequence});
    assert MarksOk(p1, Interpret(p.commands).value, candidates, contents) by {
      SeenIsNoMark(p, p1, candidates, contents);
    }
    BlobsKeep(p1, files, candidates, contents);
    var p2 := PrintBlobs(p1, files);
    var q := PrintCommit(p2, c, files, messages);
    if NamesItself(c) {
      SelfParentRefused(p2, c, candidates, messages, contents);
    } else {
      var repo := Interpret(p2.commands).value;
      SameRecords(Interpret(p.commands).value, repo, candidates, messages);
      HistoryLength(repo, candidates, messages);
      CommitImports(p2, c, candidates, messages, contents);
      var after := Interpret(q.commands).value;
      RefsDiffer(p, candidates, c);
      RecordsGrow(repo, after, candidates, c, messages);
      MarksGrow(p2, repo, q, after, candidates, c, contents);
    }
  }

  lemma SeenIsNoMark(p: Printed, q: Printed, candidates: seq<RecordedCandidate>, contents: Digest -> seq<Byte>)
    requires Interpret(p.commands).Some? && MarksOk(p, Interpret(p.commands).value, candidates, contents)
    requires q == p.(seen := q.seen)
    ensures MarksOk(q, Interpret(p.commands).value, candidates, contents)
  {
  }

  lemma SameRecords(repo: Repository, after: Repository, candidates: seq<RecordedCandidate>, messages: Messages)
    requires Records(repo, candidates, messages) && after == repo.(objects := after.objects)
    ensures Records(after, candidates, messages)
  {
  }

  lemma HistoryLength(repo: Repository, candidates: seq<RecordedCandidate>, messages: Messages)
    requires Records(repo, candidates, messages)
    ensures |repo.history| == |candidates|
  {
  }

  /** The commands import exactly when no candidate names itself as its parent. */
  lemma {:induction false} HistoryMirrors(candidates: seq<RecordedCandidate>, messages: Messages,
                                          contents: Digest -> seq<Byte>)
    requires PrintAll(candidates, messages).Ok? && AllFaithful(candidates, contents)
    ensures var p := PrintAll(candidates, messages).value;
            if SomeNamesItself(candidates) then Interpret(p.commands).None?
            else Mirrors(p, candidates, messages, contents)
    decreases |candidates|
  {
    hide Mirrors, PrintCandidate, Faithful, Interpret, NamesItself;
    if candidates == [] {
      NothingMirrors(messages, contents);
    } else {
      var init, c := candidates[..|candidates| - 1], candidates[|candidates| - 1];
      HistoryMirrors(init, messages, contents);
      assert candidates == init + [c];
      var p := PrintAll(init, messages).value;
      if SomeNamesItself(init) {
        var i :| 0 <= i < |init| && NamesItself(init[i]);
        assert NamesItself(candidates[i]);
        RefusalIsFinal(p, c, messages);
      } else {
        CandidateMirrors(p, init, c, messages, contents);
        assert SomeNamesItself(candidates) <==> NamesItself(c) by {
          assert candidates[|init|] == c;
          assert forall i :: 0 <= i < |init| ==> candidates[i] == init[i];
        }
      }
    }
  }

  lemma NothingMirrors(messages: Messages, contents: Digest -> seq<Byte>)
    ensures Mirrors(NOTHING, [], messages, contents)
  {
  }

  lemma {:induction false} BlobsRefused(p: Printed, files: seq<RecordedFile>)
    requires Interpret(p.commands).None?
    ensures Interpret(PrintBlobs(p, files).commands).None?
    decreases |files|
  {
    hide Interpret;
    if files != [] {
      BlobsRefused(p, files[..|files| - 1]);
      var q, f := PrintBlobs(p, files[..|files| - 1]), files[|files| - 1];
      InterpretGrows(q.commands, Blob(q.next + 1, f.bytes));
    }
  }

  lemma RefusalIsFinal(p: Printed, c: RecordedCandidate, messages: Messages)
    requires Interpret(p.commands).None? && PrintCandidate(p, c, messages).Ok?
    ensures Interpret(PrintCandidate(p, c, messages).value.commands).None?
  {
    hide Interpret, SortedFiles, CommitOf;
    var files := SortedFiles(c.files);
    var p1 := p.(seen := p.seen + {c.sequence});
    BlobsRefused(p1, files);
    var q := PrintBlobs(p1, files);
    InterpretGrows(q.commands, CommitOf(q, c, files, messages));
  }

  // ----- The text

  lemma {:induction false} CommandsRead(commands: seq<Command>)
    requires AllWritable(commands)
    ensures ReadCommands(ShownWith(commands, Line("done", []))) == Some(commands)
    decreases |commands|
  {
    hide Show, ReadCommand, NextLine, Line, Writable;
    if commands == [] {
      LineReads("done", []);
    } else {
      var rest := ShownWith(commands[1..], Line("done", []));
      CommandReads(commands[0], rest);
      CommandsRead(commands[1..]);
      CommandIsNotDone(commands[0], rest);
      assert [commands[0]] + commands[1..] == commands;
    }
  }

  lemma CommandIsNotDone(c: Command, rest: Text)
    requires Writable(c)
    ensures NextLine(Show(c, rest)).Some? && NextLine(Show(c, rest)).value.0 != "done"
  {
    hide NextLine, Numbered, Data, ShowBody, Signature, Line;
    match c
    case Blob(mark, data) => LineReads("blob", Line(Numbered("mark :", mark), Data(data, rest)));
    case Commit(reference, mark, when, message, _, _) =>
      var head := "commit " + reference;
      LineReads(head, Line(Numbered("mark :", mark), Line(Signature("author ", when),
        Line(Signature("committer ", when), Data(message, ShowBody(c, rest))))));
      assert head[0] == 'c';
    case Reset(mark) =>
      LineReads("reset " + RECORD_BRANCH, Line(Numbered("from :", mark), Line("", rest)));
  }

  /** Reading the printed text gives back exactly the commands that were printed. */
  lemma StreamReads(candidates: seq<RecordedCandidate>, messages: Messages)
    requires StreamOf(candidates, messages).Ok?
    ensures Commands(candidates, messages).Ok?
    ensures ReadCommands(StreamOf(candidates, messages).value) == Some(Commands(candidates, messages).value)
  {
    hide Commands, Shown, ShownWith, ReadCommands, Line;
    var commands := Commands(candidates, messages).value;
    CommandsWritable(candidates, messages);
    ShownFollowedBy(commands, Line("done", []));
    CommandsRead(commands);
  }

  // ----- Which histories are printed

  ghost predicate Accepted(candidates: seq<RecordedCandidate>) {
    && (forall i :: 0 <= i < |candidates| ==> candidates[i].files != [])
    && (forall i, j :: 0 <= i < j < |candidates| ==> candidates[i].sequence != candidates[j].sequence)
  }

  /** Printing refuses exactly an empty history, an empty candidate and a repeated sequence. */
  lemma StreamAccepts(candidates: seq<RecordedCandidate>, messages: Messages)
    ensures StreamOf(candidates, messages).Ok? <==> candidates != [] && Accepted(candidates)
  {
    hide PrintAll, Accepted, Shown;
    PrintAllAccepts(candidates, messages);
  }

  lemma {:induction false} PrintAllAccepts(candidates: seq<RecordedCandidate>, messages: Messages)
    ensures PrintAll(candidates, messages).Ok? <==> Accepted(candidates)
    ensures PrintAll(candidates, messages).Ok? ==>
              forall n: U32 :: n in PrintAll(candidates, messages).value.seen <==>
                exists i :: 0 <= i < |candidates| && candidates[i].sequence == n
    decreases |candidates|
  {
    hide PrintCandidate, Accepted;
    if candidates == [] {
      NothingAccepted();
    } else {
      var init, c := candidates[..|candidates| - 1], candidates[|candidates| - 1];
      PrintAllAccepts(init, messages);
      if PrintAll(init, messages).Ok? {
        CandidateAccepts(PrintAll(init, messages).value, c, messages);
        SeenGrows(candidates, PrintAll(init, messages).value.seen);
      } else {
        AcceptedPrefix(candidates);
      }
    }
  }

  lemma NothingAccepted()
    ensures Accepted([]) && NOTHING.seen == {}
  {
  }

  lemma AcceptedPrefix(candidates: seq<RecordedCandidate>)
    requires candidates != []
    ensures Accepted(candidates) ==> Accepted(candidates[..|candidates| - 1])
  {
  }

  lemma CandidateAccepts(p: Printed, c: RecordedCandidate, messages: Messages)
    ensures PrintCandidate(p, c, messages).Ok? <==> c.files != [] && c.sequence !in p.seen
    ensures PrintCandidate(p, c, messages).Ok? ==>
              PrintCandidate(p, c, messages).value.seen == p.seen + {c.sequence}
  {
    hide SortedFiles, CommitOf;
    BlobsSeeNothing(p.(seen := p.seen + {c.sequence}), SortedFiles(c.files));
  }

  lemma {:induction false} BlobsSeeNothing(p: Printed, files: seq<RecordedFile>)
    ensures PrintBlobs(p, files).seen == p.seen
    decreases |files|
  {
    if files != [] {
      BlobsSeeNothing(p, files[..|files| - 1]);
    }
  }

  lemma SeenGrows(candidates: seq<RecordedCandidate>, seen: set<U32>)
    requires candidates != []
    requires var init := candidates[..|candidates| - 1];
             && Accepted(init)
             && forall n: U32 :: n in seen <==> exists i :: 0 <= i < |init| && init[i].sequence == n
    ensures var c := candidates[|candidates| - 1];
            && (Accepted(candidates) <==> c.files != [] && c.sequence !in seen)
            && forall n: U32 :: n in seen + {c.sequence} <==>
                 exists i :: 0 <= i < |candidates| && candidates[i].sequence == n
  {
  }

  // ----- The round trip

  /** Two files with one digest have the same bytes. */
  ghost predicate DigestsConsistent(candidates: seq<RecordedCandidate>) {
    forall i, j, k, l | 0 <= i < |candidates| && 0 <= j < |candidates[i].files|
                        && 0 <= k < |candidates| && 0 <= l < |candidates[k].files| ::
      candidates[i].files[j].digest == candidates[k].files[l].digest ==>
        candidates[i].files[j].bytes == candidates[k].files[l].bytes
  }

  ghost predicate HasContent(candidates: seq<RecordedCandidate>, d: Digest, bytes: seq<Byte>) {
    exists i, j :: 0 <= i < |candidates| && 0 <= j < |candidates[i].files|
      && candidates[i].files[j].digest == d && candidates[i].files[j].bytes == bytes
  }

  ghost function ContentOf(candidates: seq<RecordedCandidate>, d: Digest): seq<Byte> {
    if exists bytes :: HasContent(candidates, d, bytes)
    then var bytes :| HasContent(candidates, d, bytes); bytes
    else []
  }

  lemma ContentsExist(candidates: seq<RecordedCandidate>) returns (contents: Digest -> seq<Byte>)
    requires DigestsConsistent(candidates)
    ensures AllFaithful(candidates, contents)
  {
    contents := d => ContentOf(candidates, d);
    forall i, j | 0 <= i < |candidates| && 0 <= j < |candidates[i].files|
      ensures candidates[i].files[j].bytes == contents(candidates[i].files[j].digest)
    {
      assert HasContent(candidates, candidates[i].files[j].digest, candidates[i].files[j].bytes);
    }
  }

  lemma HeadIsLast(p: Printed, candidates: seq<RecordedCandidate>, messages: Messages,
                   contents: Digest -> seq<Byte>)
    requires candidates != [] && Mirrors(p, candidates, messages, contents)
    requires candidates[|candidates| - 1].id in p.commits
    ensures var reset := Reset(p.commits[candidates[|candidates| - 1].id]);
            Interpret(p.commands + [reset])
            == Some(Interpret(p.commands).value.(head := Some(|candidates| - 1)))
  {
    hide Interpret, Records;
    var reset := Reset(p.commits[candidates[|candidates| - 1].id]);
    InterpretGrows(p.commands, reset);
    assert Latest(candidates, candidates[|candidates| - 1].id) == Some(|candidates| - 1);
  }

  /** Importing the printed stream rebuilds the history, exactly when no candidate names itself as
      its parent. Every parent is an earlier commit, so lineage is acyclic; each ref resolves to its
      own candidate; and the branch a reader lands on is the last submission. */
  lemma StreamRoundTrip(candidates: seq<RecordedCandidate>, messages: Messages)
    requires StreamOf(candidates, messages).Ok? && DigestsConsistent(candidates)
    ensures var imported := Import(StreamOf(candidates, messages).value);
            && (imported.Some? <==> !SomeNamesItself(candidates))
            && (imported.Some? ==>
                  && Records(imported.value, candidates, messages)
                  && imported.value.head == Some(|candidates| - 1)
                  && ParentsPrecede(imported.value))
  {
    hide ReadCommands, Interpret, StreamOf, PrintAll, SomeNamesItself, Records, MarksOk, ParentsPrecede;
    StreamReads(candidates, messages);
    var contents := ContentsExist(candidates);
    var p := PrintAll(candidates, messages).value;
    HistoryMirrors(candidates, messages, contents);
    var reset := Reset(p.commits[candidates[|candidates| - 1].id]);
    InterpretGrows(p.commands, reset);
    if !SomeNamesItself(candidates) {
      HeadIsLast(p, candidates, messages, contents);
      SameRecordsWithHead(Interpret(p.commands).value, candidates, messages);
      RecordedParentsPrecede(Import(StreamOf(candidates, messages).value).value, candidates, messages);
    }
  }

  /** A history of one candidate that names itself: it prints, and the stream does not import. */
  lemma SelfParentDoesNotImport(messages: Messages, d: Digest)
    ensures var candidates := [RecordedCandidate(1, "c", Some("c"), d, d, [RecordedFile("f", d, "b")], [])];
            StreamOf(candidates, messages).Ok? && Import(StreamOf(candidates, messages).value).None?
  {
    hide StreamOf, Import, Records;
    var candidates := [RecordedCandidate(1, "c", Some("c"), d, d, [RecordedFile("f", d, "b")], [])];
    StreamAccepts(candidates, messages);
    StreamRoundTrip(candidates, messages);
    assert NamesItself(candidates[0]);
  }

  ghost predicate ParentsPrecede(repo: Repository) {
    forall i :: 0 <= i < |repo.history| && repo.history[i].parent.Some? ==> repo.history[i].parent.value < i
  }

  lemma RecordedParentsPrecede(repo: Repository, candidates: seq<RecordedCandidate>, messages: Messages)
    requires Records(repo, candidates, messages)
    ensures ParentsPrecede(repo)
  {
  }

  lemma SameRecordsWithHead(repo: Repository, candidates: seq<RecordedCandidate>, messages: Messages)
    requires Records(repo, candidates, messages) && candidates != []
    ensures Records(repo.(head := Some(|candidates| - 1)), candidates, messages)
  {
  }
}
