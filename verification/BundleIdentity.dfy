/**
 The identity of a generated source bundle: the bytes that are hashed, and why they determine the
 bundle although nothing separates its files from its notes.
 */
module BundleIdentity {
  import opened Outcomes
  import opened Texts
  import opened ByteOrder
  import opened SourceGate

  type Bytes = seq<Byte>

  datatype GeneratedFile = GeneratedFile(path: Bytes, kind: Kind, contents: Bytes)

  // ----- Big-endian lengths

  function Power(k: nat): nat {
    if k == 0 then 1 else 256 * Power(k - 1)
  }

  /** The last `k` base-256 digits, most significant first. */
  function BigEndian(n: nat, k: nat): (r: Bytes)
    ensures |r| == k
  {
    if k == 0 then [] else BigEndian(n / 256, k - 1) + [(n % 256) as char]
  }

  function Value(bytes: Bytes): nat {
    if bytes == [] then 0 else 256 * Value(bytes[..|bytes| - 1]) + bytes[|bytes| - 1] as int
  }

  lemma {:induction false} ValueInverts(n: nat, k: nat)
    requires n < Power(k)
    ensures Value(BigEndian(n, k)) == n
  {
    if k > 0 {
      ValueInverts(n / 256, k - 1);
      assert BigEndian(n, k)[..k - 1] == BigEndian(n / 256, k - 1);
    }
  }

  /** A number that leaves the top digit unused starts with a zero byte. */
  lemma {:induction false} TopByteIsZero(n: nat, k: nat)
    requires k > 0 && n < Power(k - 1)
    ensures BigEndian(n, k)[0] as int == 0
  {
    if k > 1 {
      TopByteIsZero(n / 256, k - 1);
    }
  }

  // ----- Items

  /** Lengths below 2 to the 56th. */
  predicate Small(bytes: Bytes) {
    |bytes| < Power(7)
  }

  function Item(bytes: Bytes): Bytes {
    BigEndian(|bytes|, 8) + bytes
  }

  function ReadItem(s: Bytes): (r: Option<(Bytes, Bytes)>)
    ensures r.Some? ==> |r.value.1| < |s|
  {
    if |s| < 8 then None
    else
      var size := Value(s[..8]);
      if |s| < 8 + size then None else Some((s[8..8 + size], s[8 + size..]))
  }

  lemma PowerGrows(k: nat)
    ensures Power(k) <= Power(k + 1)
  {
  }

  lemma ItemReads(bytes: Bytes, rest: Bytes)
    requires Small(bytes)
    ensures ReadItem(Item(bytes) + rest) == Some((bytes, rest))
    ensures Item(bytes)[0] as int == 0
  {
    hide Power, BigEndian, Value;
    var size := BigEndian(|bytes|, 8);
    PowerGrows(7);
    ValueInverts(|bytes|, 8);
    TopByteIsZero(|bytes|, 8);
    var s := Item(bytes) + rest;
    assert s[..8] == size && s[8..8 + |bytes|] == bytes && s[8 + |bytes|..] == rest;
  }

  // ----- The preimage

  function KindByte(kind: Kind): Byte {
    match kind
    case AscendCDevice => 1 as char
    case AscendHost => 2 as char
    case BuildIntegration => 3 as char
    case ComponentMapping => 4 as char
  }

  function KindOf(b: Byte): Option<Kind> {
    if b as int == 1 then Some(AscendCDevice)
    else if b as int == 2 then Some(AscendHost)
    else if b as int == 3 then Some(BuildIntegration)
    else if b as int == 4 then Some(ComponentMapping)
    else None
  }

  function FileBytes(f: GeneratedFile): Bytes {
    Item(f.path) + [KindByte(f.kind)] + Item(f.contents)
  }

  function NotesBytes(notes: seq<Bytes>): Bytes {
    if notes == [] then [] else Item(notes[0]) + NotesBytes(notes[1..])
  }

  /** The files in order, then whatever follows. */
  function FilesBytes(files: seq<GeneratedFile>, rest: Bytes): Bytes {
    if files == [] then rest else FileBytes(files[0]) + FilesBytes(files[1..], rest)
  }

  function PathOf(f: GeneratedFile): Bytes {
    f.path
  }

  function TextOf(note: Bytes): Bytes {
    note
  }

  const HEADER: Bytes := "alloyport-generated-source-bundle-v1" + [0 as char]

  /** What is hashed: files by path, then notes in their own order. */
  function Preimage(files: seq<GeneratedFile>, notes: seq<Bytes>): Bytes {
    HEADER + FilesBytes(Sorted(files, PathOf), NotesBytes(Sorted(notes, TextOf)))
  }

  // ----- Decoding

  function ReadNotes(s: Bytes): Option<seq<Bytes>>
    decreases |s|
  {
    if s == [] then Some([])
    else
      var note :- ReadItem(s);
      var more :- ReadNotes(note.1);
      Some([note.0] + more)
  }

  /** After an item, a kind byte means that it was a path; a zero byte or the end, that it was the
      first note. */
  function ReadEntries(s: Bytes): Option<(seq<GeneratedFile>, seq<Bytes>)>
    decreases |s|
  {
    if s == [] then Some(([], []))
    else
      var item :- ReadItem(s);
      if item.1 == [] || KindOf(item.1[0]).None? then
        var notes :- ReadNotes(item.1);
        Some(([], [item.0] + notes))
      else
        var contents :- ReadItem(item.1[1..]);
        var more :- ReadEntries(contents.1);
        Some(([GeneratedFile(item.0, KindOf(item.1[0]).value, contents.0)] + more.0, more.1))
  }

  ghost predicate AllSmall(files: seq<GeneratedFile>, notes: seq<Bytes>) {
    && (forall i :: 0 <= i < |files| ==> Small(files[i].path) && Small(files[i].contents))
    && (forall i :: 0 <= i < |notes| ==> Small(notes[i]))
  }

  lemma {:induction false} NotesRead(notes: seq<Bytes>)
    requires AllSmall([], notes)
    ensures ReadNotes(NotesBytes(notes)) == Some(notes)
    ensures notes != [] ==> NotesBytes(notes) != [] && NotesBytes(notes)[0] as int == 0
    decreases |notes|
  {
    hide Small, Item, ReadItem;
    if notes != [] {
      NotesRead(notes[1..]);
      ItemReads(notes[0], NotesBytes(notes[1..]));
      ItemIsNonEmpty(notes[0]);
      assert [notes[0]] + notes[1..] == notes;
    }
  }

  lemma ItemIsNonEmpty(bytes: Bytes)
    ensures |Item(bytes)| >= 8
  {
  }

  lemma FirstNoteReads(notes: seq<Bytes>)
    requires AllSmall([], notes)
    ensures ReadEntries(NotesBytes(notes)) == Some(([], notes))
  {
    hide Small, Item, ReadItem;
    if notes != [] {
      var rest := NotesBytes(notes[1..]);
      NotesRead(notes);
      NotesRead(notes[1..]);
      ItemReads(notes[0], rest);
      ItemIsNonEmpty(notes[0]);
      assert [notes[0]] + notes[1..] == notes;
    }
  }

  /** A file is taken off the front, whatever follows it. */
  lemma FileReads(f: GeneratedFile, rest: Bytes)
    requires Small(f.path) && Small(f.contents)
    ensures ReadEntries(FileBytes(f) + rest) ==
              if ReadEntries(rest).None? then None
              else Some(([f] + ReadEntries(rest).value.0, ReadEntries(rest).value.1))
  {
    hide Small, Item, ReadItem;
    var tail := [KindByte(f.kind)] + Item(f.contents) + rest;
    ItemReads(f.path, tail);
    ItemReads(f.contents, rest);
    ItemIsNonEmpty(f.path);
    FileBytesSplit(f, rest);
    assert tail[1..] == Item(f.contents) + rest;
  }

  lemma FileBytesSplit(f: GeneratedFile, rest: Bytes)
    ensures FileBytes(f) + rest == Item(f.path) + ([KindByte(f.kind)] + Item(f.contents) + rest)
  {
    hide Item, KindByte;
  }

  lemma {:induction false} EntriesRead(files: seq<GeneratedFile>, notes: seq<Bytes>)
    requires AllSmall(files, notes)
    ensures ReadEntries(FilesBytes(files, NotesBytes(notes))) == Some((files, notes))
    decreases |files|
  {
    hide Small, FileBytes, ReadEntries, NotesBytes;
    if files == [] {
      FirstNoteReads(notes);
    } else {
      EntriesRead(files[1..], notes);
      FileReads(files[0], FilesBytes(files[1..], NotesBytes(notes)));
      assert [files[0]] + files[1..] == files;
    }
  }

  // ----- Canonicity

  ghost predicate PathsDiffer(files: seq<GeneratedFile>) {
    forall i, j :: 0 <= i < j < |files| ==> files[i].path != files[j].path
  }

  lemma PathsAreKeys(files: seq<GeneratedFile>)
    requires PathsDiffer(files)
    ensures KeysDiffer(multiset(files), PathOf)
  {
  }

  lemma SortedSmall(files: seq<GeneratedFile>, notes: seq<Bytes>)
    requires AllSmall(files, notes)
    ensures AllSmall(Sorted(files, PathOf), Sorted(notes, TextOf))
  {
    hide Small;
    var f, n := Sorted(files, PathOf), Sorted(notes, TextOf);
    SortedKeeps(files, PathOf);
    SortedKeeps(notes, TextOf);
    forall i | 0 <= i < |f| ensures Small(f[i].path) && Small(f[i].contents) {
      assert f[i] in multiset(f);
      assert f[i] in multiset(files);
    }
    forall i | 0 <= i < |n| ensures Small(n[i]) {
      assert n[i] in multiset(n);
      assert n[i] in multiset(notes);
    }
  }

  /** Neither the order of the files nor the order of the notes matters. */
  lemma OrderDoesNotMatter(files: seq<GeneratedFile>, notes: seq<Bytes>, files': seq<GeneratedFile>, notes': seq<Bytes>)
    requires multiset(files) == multiset(files') && multiset(notes) == multiset(notes') && PathsDiffer(files)
    ensures Preimage(files, notes) == Preimage(files', notes')
  {
    hide Sorted, FilesBytes, NotesBytes;
    PathsAreKeys(files);
    SortedKeeps(files, PathOf);
    SortedKeeps(files', PathOf);
    SortedOrders(files, PathOf);
    SortedOrders(files', PathOf);
    OrderIsUnique(Sorted(files, PathOf), Sorted(files', PathOf), PathOf);
    SortedKeeps(notes, TextOf);
    SortedKeeps(notes', TextOf);
    SortedOrders(notes, TextOf);
    SortedOrders(notes', TextOf);
    OrderIsUnique(Sorted(notes, TextOf), Sorted(notes', TextOf), TextOf);
  }

  /** Equal preimages come from the same files and the same notes. */
  lemma PreimageDetermines(files: seq<GeneratedFile>, notes: seq<Bytes>, files': seq<GeneratedFile>, notes': seq<Bytes>)
    requires AllSmall(files, notes) && AllSmall(files', notes')
    requires Preimage(files, notes) == Preimage(files', notes')
    ensures multiset(files) == multiset(files') && multiset(notes) == multiset(notes')
  {
    hide Sorted, FilesBytes, NotesBytes, ReadEntries, AllSmall;
    var f, n := Sorted(files, PathOf), Sorted(notes, TextOf);
    var f', n' := Sorted(files', PathOf), Sorted(notes', TextOf);
    var body, body' := FilesBytes(f, NotesBytes(n)), FilesBytes(f', NotesBytes(n'));
    assert body == Preimage(files, notes)[|HEADER|..] && body' == Preimage(files', notes')[|HEADER|..];
    SortedSmall(files, notes);
    SortedSmall(files', notes');
    EntriesRead(f, n);
    EntriesRead(f', n');
    SortedKeeps(files, PathOf);
    SortedKeeps(files', PathOf);
    SortedKeeps(notes, TextOf);
    SortedKeeps(notes', TextOf);
  }

  /** The identity is canonical: two bundles share a preimage exactly when they have the same files
      and the same notes, each with the same multiplicity. */
  lemma IdentityIsCanonical(files: seq<GeneratedFile>, notes: seq<Bytes>, files': seq<GeneratedFile>, notes': seq<Bytes>)
    requires PathsDiffer(files) && AllSmall(files, notes) && AllSmall(files', notes')
    ensures Preimage(files, notes) == Preimage(files', notes') <==>
              multiset(files) == multiset(files') && multiset(notes) == multiset(notes')
  {
    hide Preimage, AllSmall;
    if Preimage(files, notes) == Preimage(files', notes') {
      PreimageDetermines(files, notes, files', notes');
    } else if multiset(files) == multiset(files') && multiset(notes) == multiset(notes') {
      OrderDoesNotMatter(files, notes, files', notes');
    }
  }

  // ----- The computation

  lemma {:induction false} FilesBytesSplit(files: seq<GeneratedFile>, i: nat, rest: Bytes)
    requires i <= |files|
    ensures FilesBytes(files, rest) == FilesBytes(files[..i], []) + FilesBytes(files[i..], rest)
    decreases i
  {
    hide FileBytes;
    if i > 0 {
      assert files[1..][..i - 1] == files[..i][1..] && files[1..][i - 1..] == files[i..];
      FilesBytesSplit(files[1..], i - 1, rest);
    } else {
      assert files[..0] == [] && files[0..] == files;
    }
  }

  lemma FilesBytesStep(files: seq<GeneratedFile>, i: nat)
    requires i < |files|
    ensures FilesBytes(files[..i + 1], []) == FilesBytes(files[..i], []) + FileBytes(files[i])
  {
    hide FileBytes;
    var init := files[..i + 1];
    FilesBytesSplit(init, i, []);
    assert init[..i] == files[..i] && init[i..] == [files[i]];
    assert [files[i]][1..] == [];
    assert FilesBytes([files[i]], []) == FileBytes(files[i]) + FilesBytes([], []);
  }

  lemma {:induction false} NotesBytesStep(notes: seq<Bytes>, i: nat)
    requires i < |notes|
    ensures NotesBytes(notes[..i + 1]) == NotesBytes(notes[..i]) + Item(notes[i])
    decreases i
  {
    hide Item;
    if i == 0 {
      var one := notes[..1];
      assert notes[..0] == [] && one[1..] == notes[..0] && one[0] == notes[0];
      assert NotesBytes(one) == Item(one[0]) + NotesBytes(one[1..]);
    } else {
      NotesBytesStep(notes[1..], i - 1);
      assert notes[..i + 1][1..] == notes[1..][..i] && notes[..i][1..] == notes[1..][..i - 1];
    }
  }

  method GeneratedSourcePreimage(files: seq<GeneratedFile>, notes: seq<Bytes>) returns (input: Bytes)
    ensures input == Preimage(files, notes)
  {
    hide Sorted, FilesBytes, NotesBytes, BigEndian;
    var sorted := Sorted(files, PathOf);
    input := HEADER;
    NoBytes();
    assert sorted[..0] == [];
    for i := 0 to |sorted|
      invariant input == HEADER + FilesBytes(sorted[..i], [])
    {
      var file := sorted[i];
      FilesBytesStep(sorted, i);
      input := input + BigEndian(|file.path|, 8) + file.path;
      input := input + [KindByte(file.kind)];
      input := input + BigEndian(|file.contents|, 8) + file.contents;
    }
    assert sorted[..|sorted|] == sorted;
    ghost var written := input;
    var ordered := Sorted(notes, TextOf);
    assert ordered[..0] == [];
    for i := 0 to |ordered|
      invariant input == written + NotesBytes(ordered[..i])
    {
      NotesBytesStep(ordered, i);
      input := input + BigEndian(|ordered[i]|, 8) + ordered[i];
    }
    assert ordered[..|ordered|] == ordered;
    FilesBytesSplit(sorted, |sorted|, NotesBytes(ordered));
    assert sorted[|sorted|..] == [];
    EmptyFiles(NotesBytes(ordered));
  }

  lemma NoBytes()
    ensures FilesBytes([], []) == [] && NotesBytes([]) == []
  {
  }

  lemma EmptyFiles(rest: Bytes)
    ensures FilesBytes([], rest) == rest
  {
  }

  // ----- Which bundles exist

  datatype BundleError =
    | TooManyFiles(count: nat)
    | DuplicatePath(path: Bytes)
    | MissingKind(kind: Kind)
    | EmptyAuthorNote

  const MAX_GENERATED_FILES: nat := 32

  const ALL_KINDS: seq<Kind> := [AscendCDevice, AscendHost, BuildIntegration, ComponentMapping]

  ghost predicate HasKind(files: seq<GeneratedFile>, kind: Kind) {
    exists i :: 0 <= i < |files| && files[i].kind == kind
  }

  ghost predicate Complete(files: seq<GeneratedFile>) {
    forall kind: Kind :: HasKind(files, kind)
  }

  ghost predicate NotesOk(notes: seq<Bytes>) {
    forall i :: 0 <= i < |notes| ==> !Blank(notes[i])
  }

  /** A change: everything that a bundle must be, except whole. */
  method NewChange(files: seq<GeneratedFile>, notes: seq<Bytes>) returns (r: Result<set<Kind>, BundleError>)
    ensures r.Ok? <==> |files| <= MAX_GENERATED_FILES && PathsDiffer(files) && NotesOk(notes)
    ensures r.Ok? ==> forall kind :: kind in r.value <==> HasKind(files, kind)
    ensures r.Err? && r.error.DuplicatePath? ==>
              exists i, j :: 0 <= i < j < |files| && files[i].path == files[j].path == r.error.path
  {
    if |files| > MAX_GENERATED_FILES {
      return Err(TooManyFiles(|files|));
    }
    var paths: set<Bytes> := {};
    var kinds: set<Kind> := {};
    for i := 0 to |files|
      invariant PathsDiffer(files[..i])
      invariant forall path :: path in paths <==> exists j :: 0 <= j < i && files[j].path == path
      invariant forall kind :: kind in kinds <==> exists j :: 0 <= j < i && files[j].kind == kind
    {
      if files[i].path in paths {
        return Err(DuplicatePath(files[i].path));
      }
      paths := paths + {files[i].path};
      kinds := kinds + {files[i].kind};
    }
    assert files[..|files|] == files;
    if exists i :: 0 <= i < |notes| && Blank(notes[i]) {
      return Err(EmptyAuthorNote);
    }
    return Ok(kinds);
  }

  /** A change without files or notes is accepted. */
  method EmptyChange() returns (r: Result<set<Kind>, BundleError>)
    ensures r == Ok({})
  {
    r := NewChange([], []);
    assert forall kind :: !HasKind([], kind);
    assert r.value == {};
  }

  method NewBundle(files: seq<GeneratedFile>, notes: seq<Bytes>) returns (r: Result<set<Kind>, BundleError>)
    ensures r.Ok? <==> |files| <= MAX_GENERATED_FILES && PathsDiffer(files) && Complete(files) && NotesOk(notes)
  {
    hide PathsDiffer, NotesOk;
    r := NewChange(files, notes);
    if r.Err? && !r.error.EmptyAuthorNote? {
      return;
    }
    var kinds := set i | 0 <= i < |files| :: files[i].kind;
    for k := 0 to |ALL_KINDS|
      invariant forall j :: 0 <= j < k ==> ALL_KINDS[j] in kinds
    {
      if ALL_KINDS[k] !in kinds {
        assert !HasKind(files, ALL_KINDS[k]);
        return Err(MissingKind(ALL_KINDS[k]));
      }
    }
    forall kind: Kind ensures HasKind(files, kind) {
      EveryKindListed(kind);
      assert kind in kinds;
    }
  }

  lemma EveryKindListed(kind: Kind)
    ensures exists k :: 0 <= k < |ALL_KINDS| && ALL_KINDS[k] == kind
  {
    var k := if kind.AscendCDevice? then 0 else if kind.AscendHost? then 1 else if kind.BuildIntegration? then 2 else 3;
    assert ALL_KINDS[k] == kind;
  }
}
