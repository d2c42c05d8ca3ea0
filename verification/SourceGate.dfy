/**
 The Source Gate: what it finds in a candidate's text, and exactly when it passes. Its hardest
 inspection is build reachability: which generated sources the build names, directly or through
 `#include` lines.
 */
module SourceGate {
  import opened Outcomes
  import opened Texts
  import opened ByteOrder
  import opened SourceText
  import EpisodeRecords

  type Digest = EpisodeRecords.Digest

  datatype Kind = AscendCDevice | AscendHost | BuildIntegration | ComponentMapping

  type Path = seq<Byte>

  datatype Source = Source(path: Path, kind: Kind, text: string)

  datatype Finding =
    | ArtifactSetMismatch
    | ArtifactIdentityMismatch(path: Path)
    | NonUtf8Source(path: Path)
    | ForbiddenFallback(path: Path)
    | MissingDeviceSource
    | MissingHostEntryPoint
    | MissingBuildReference(missing: seq<Path>)
    | MissingBuildTarget
    | IncompleteComponentMapping(uncovered: seq<Path>)
    | UnrecognizedKernelStructure(path: Path)

  // ----- Reachability

  ghost predicate IsName(sources: seq<Source>, name: string) {
    exists i :: 0 <= i < |sources| && FileName(sources[i].path) == name
  }

  /** One source with the first name includes the second. */
  ghost predicate Edge(sources: seq<Source>, from: string, to: string) {
    exists i :: 0 <= i < |sources| && FileName(sources[i].path) == from && IncludeLine(sources[i].text, to)
  }

  /** A path of file names: the build text names the first, and each includes the next. */
  ghost predicate Chain(build: string, sources: seq<Source>, names: seq<string>) {
    && names != [] && Occurs(build, names[0])
    && (forall k :: 0 <= k < |names| ==> IsName(sources, names[k]))
    && (forall k :: 0 < k < |names| ==> Edge(sources, names[k - 1], names[k]))
  }

  ghost predicate Reached(build: string, sources: seq<Source>, name: string) {
    exists names :: Chain(build, sources, names) && names[|names| - 1] == name
  }

  ghost predicate Closed(build: string, sources: seq<Source>, names: set<string>) {
    && (forall i :: 0 <= i < |sources| && Occurs(build, FileName(sources[i].path)) ==>
          FileName(sources[i].path) in names)
    && (forall i, j :: 0 <= i < |sources| && 0 <= j < |sources| && FileName(sources[i].path) in names
                       && IncludeLine(sources[i].text, FileName(sources[j].path)) ==>
          FileName(sources[j].path) in names)
  }

  lemma SeedReached(build: string, sources: seq<Source>, i: nat)
    requires i < |sources| && Occurs(build, FileName(sources[i].path))
    ensures Reached(build, sources, FileName(sources[i].path))
  {
    hide FileName, Occurs;
    var names := [FileName(sources[i].path)];
    assert IsName(sources, names[0]);
    assert Chain(build, sources, names);
  }

  lemma IncludedReached(build: string, sources: seq<Source>, i: nat, j: nat)
    requires i < |sources| && j < |sources| && Reached(build, sources, FileName(sources[i].path))
    requires IncludeLine(sources[i].text, FileName(sources[j].path))
    ensures Reached(build, sources, FileName(sources[j].path))
  {
    hide FileName, Occurs, IncludeLine;
    var from, to := FileName(sources[i].path), FileName(sources[j].path);
    var names :| Chain(build, sources, names) && names[|names| - 1] == from;
    var longer := names + [to];
    assert Edge(sources, from, to) && IsName(sources, to);
    forall k | 0 < k < |longer| ensures Edge(sources, longer[k - 1], longer[k]) {
      assert longer[k - 1] == names[k - 1];
    }
    forall k | 0 <= k < |longer| ensures IsName(sources, longer[k]) {
      assert k < |names| ==> longer[k] == names[k];
    }
    assert Chain(build, sources, longer);
  }

  /** Nothing is included anywhere. */
  ghost predicate NoIncludes(sources: seq<Source>) {
    forall i, line, k :: 0 <= i < |sources| && HasLine(sources[i].text, line) && StartsAt(line, k) ==>
      !At(line, k, "#include")
  }

  lemma NoEdge(sources: seq<Source>, from: string, to: string)
    requires NoIncludes(sources)
    ensures !Edge(sources, from, to)
  {
    hide FileName, Occurs, HasLine, StartsAt, At;
  }

  /** Without include lines, exactly the names that occur in the build text are reached. */
  lemma ReachedByName(build: string, sources: seq<Source>, name: string)
    requires NoIncludes(sources)
    ensures Reached(build, sources, name) <==> IsName(sources, name) && Occurs(build, name)
  {
    hide FileName, Occurs, HasLine, StartsAt, At;
    if Reached(build, sources, name) {
      var names :| Chain(build, sources, names) && names[|names| - 1] == name;
      if |names| > 1 {
        var k := |names| - 1;
        NoEdge(sources, names[k - 1], names[k]);
      }
      assert IsName(sources, names[|names| - 1]);
    }
    if IsName(sources, name) && Occurs(build, name) {
      var i :| 0 <= i < |sources| && FileName(sources[i].path) == name;
      SeedReached(build, sources, i);
    }
  }

  /** The text has this include, quoted and on a line of its own. */
  ghost predicate Quotes(text: string, name: string) {
    exists before, after :: text == before + "\n#include \"" + name + "\"\n" + after
  }

  /** Which is an include line. */
  lemma QuotedInclude(before: string, name: string, after: string)
    requires '\n' !in name
    ensures IncludeLine(before + "\n#include \"" + name + "\"\n" + after, name)
  {
    var line := "#include \"" + name + "\"";
    var text := before + "\n#include \"" + name + "\"\n" + after;
    var i, j := |before| + 1, |before| + 1 + |line|;
    assert text == before + "\n" + line + "\n" + after;
    assert text[i..j] == line && text[j] == '\n' && text[i - 1] == '\n';
    assert line[|line| - 1] == '\"' && line[0] == '#';
    forall k | i <= k < j ensures text[k] != '\n' {
      assert text[k] == line[k - i];
    }
    assert IsLine(text, i, j) && LineText(text, i, j) == line;
    assert StartsAt(line, 0) && At(line, 0, "#include");
    assert At(line, 10, name) && line[0..] == line;
    assert IsInclude(line, name);
  }

  /** A closed set holds every name of every chain. */
  lemma {:induction false} ChainStaysInside(build: string, sources: seq<Source>, names: seq<string>, inside: set<string>,
                                            k: nat)
    requires Chain(build, sources, names) && Closed(build, sources, inside) && k < |names|
    ensures names[k] in inside
    decreases k
  {
    hide FileName, Occurs, IncludeLine;
    assert IsName(sources, names[k]);
    var j :| 0 <= j < |sources| && FileName(sources[j].path) == names[k];
    if k > 0 {
      ChainStaysInside(build, sources, names, inside, k - 1);
      assert Edge(sources, names[k - 1], names[k]);
      var i :| 0 <= i < |sources| && FileName(sources[i].path) == names[k - 1] && IncludeLine(sources[i].text, names[k]);
    }
  }

  /** Closed and sound together mean exact, and least among the closed sets. */
  lemma ClosedIsExact(build: string, sources: seq<Source>, reached: set<string>)
    requires Closed(build, sources, reached)
    requires forall name :: name in reached ==> Reached(build, sources, name)
    ensures forall name :: name in reached <==> Reached(build, sources, name)
    ensures forall other: set<string> :: Closed(build, sources, other) ==> reached <= other
  {
    hide Closed, FileName, Occurs, Edge, IsName;
    forall name, other: set<string> | Reached(build, sources, name) && Closed(build, sources, other)
      ensures name in other
    {
      var names :| Chain(build, sources, names) && names[|names| - 1] == name;
      ChainStaysInside(build, sources, names, other, |names| - 1);
    }
  }

  // ----- Counting

  function Names(sources: seq<Source>): (names: set<string>)
    ensures |names| <= |sources|
    ensures forall i :: 0 <= i < |sources| ==> FileName(sources[i].path) in names
  {
    if sources == [] then {} else Names(sources[..|sources| - 1]) + {FileName(sources[|sources| - 1].path)}
  }

  lemma Fits(names: set<string>, all: set<string>)
    requires names <= all
    ensures |names| <= |all|
  {
    assert all == names + (all - names);
  }

  // ----- The fixed point

  ghost predicate Sound(build: string, sources: seq<Source>, reached: set<string>) {
    reached <= Names(sources) && forall name :: name in reached ==> Reached(build, sources, name)
  }

  lemma SoundGrows(build: string, sources: seq<Source>, reached: set<string>, name: string)
    requires Sound(build, sources, reached) && name in Names(sources) && Reached(build, sources, name)
    ensures Sound(build, sources, reached + {name})
  {
  }

  method NamedInBuild(build: string, sources: seq<Source>) returns (reached: set<string>)
    ensures Sound(build, sources, reached)
    ensures forall i :: 0 <= i < |sources| && Occurs(build, FileName(sources[i].path)) ==>
              FileName(sources[i].path) in reached
  {
    hide FileName, Contains, Occurs, Names, Reached;
    reached := {};
    for i := 0 to |sources|
      invariant Sound(build, sources, reached)
      invariant forall k :: 0 <= k < i && Occurs(build, FileName(sources[k].path)) ==>
                  FileName(sources[k].path) in reached
    {
      ContainsExactly(build, FileName(sources[i].path));
      if Contains(build, FileName(sources[i].path)) {
        SeedReached(build, sources, i);
        SoundGrows(build, sources, reached, FileName(sources[i].path));
        reached := reached + {FileName(sources[i].path)};
      }
    }
  }

  /** The names that this source's includes add. */
  method FollowIncludes(build: string, sources: seq<Source>, i: nat, before: set<string>)
    returns (reached: set<string>)
    requires i < |sources| && Sound(build, sources, before) && FileName(sources[i].path) in before
    ensures Sound(build, sources, reached) && before <= reached
    ensures forall j :: 0 <= j < |sources| && IncludeLine(sources[i].text, FileName(sources[j].path)) ==>
              FileName(sources[j].path) in reached
  {
    hide FileName, Includes, IncludeLine, Names, Reached;
    reached := before;
    for j := 0 to |sources|
      invariant Sound(build, sources, reached) && before <= reached
      invariant forall k :: 0 <= k < j && IncludeLine(sources[i].text, FileName(sources[k].path)) ==>
                  FileName(sources[k].path) in reached
    {
      var candidate := FileName(sources[j].path);
      IncludesExactly(sources[i].text, candidate);
      if candidate !in reached && Includes(sources[i].text, candidate) {
        IncludedReached(build, sources, i, j);
        SoundGrows(build, sources, reached, candidate);
        reached := reached + {candidate};
      }
    }
  }

  /** One pass over the sources in order. It grows the set, or shows that the set is closed. */
  method FollowAll(build: string, sources: seq<Source>, before: set<string>) returns (reached: set<string>)
    requires Sound(build, sources, before)
    ensures Sound(build, sources, reached) && before <= reached
    ensures before == {} ==> reached == {}
    ensures reached == before ==>
              forall i, j :: 0 <= i < |sources| && 0 <= j < |sources| && FileName(sources[i].path) in reached
                             && IncludeLine(sources[i].text, FileName(sources[j].path)) ==>
                FileName(sources[j].path) in reached
  {
    hide FileName, IncludeLine, Sound;
    reached := before;
    for i := 0 to |sources|
      invariant Sound(build, sources, reached) && before <= reached
      invariant before == {} ==> reached == {}
      invariant reached == before ==>
                  forall k, j :: 0 <= k < i && 0 <= j < |sources| && FileName(sources[k].path) in reached
                                 && IncludeLine(sources[k].text, FileName(sources[j].path)) ==>
                    FileName(sources[j].path) in reached
    {
      if FileName(sources[i].path) in reached {
        ghost var was := reached;
        reached := FollowIncludes(build, sources, i, reached);
        if reached == before {
          assert was == before;
        }
      }
    }
  }

  /** Exactly the names that a chain of includes reaches from the build text. One pass per source is
      always enough: a pass that adds nothing ends the iteration, and each of the others adds a name. */
  method BuildableNames(build: string, sources: seq<Source>) returns (reached: set<string>)
    ensures forall name :: name in reached <==> Reached(build, sources, name)
    ensures forall other: set<string> :: Closed(build, sources, other) ==> reached <= other
    ensures Closed(build, sources, reached)
    ensures NoIncludes(sources) ==> forall name :: name in reached <==> IsName(sources, name) && Occurs(build, name)
    ensures forall i, j :: 0 <= i < |sources| && 0 <= j < |sources| && FileName(sources[i].path) in reached
                           && '\n' !in FileName(sources[j].path) && Quotes(sources[i].text, FileName(sources[j].path)) ==>
              FileName(sources[j].path) in reached
  {
    hide FileName, IncludeLine, Occurs, Reached, NoIncludes, Quotes;
    reached := FixedPoint(build, sources);
    if NoIncludes(sources) {
      forall name ensures name in reached <==> IsName(sources, name) && Occurs(build, name) {
        ReachedByName(build, sources, name);
      }
    }
    forall i, j | 0 <= i < |sources| && 0 <= j < |sources| && FileName(sources[i].path) in reached
                  && '\n' !in FileName(sources[j].path) && Quotes(sources[i].text, FileName(sources[j].path))
      ensures FileName(sources[j].path) in reached
    {
      QuotedReaches(sources[i].text, FileName(sources[j].path));
    }
  }

  lemma QuotedReaches(text: string, name: string)
    requires '\n' !in name && Quotes(text, name)
    ensures IncludeLine(text, name)
  {
    hide IncludeLine;
    var before, after :| text == before + "\n#include \"" + name + "\"\n" + after;
    QuotedInclude(before, name, after);
  }

  method FixedPoint(build: string, sources: seq<Source>) returns (reached: set<string>)
    ensures forall name :: name in reached <==> Reached(build, sources, name)
    ensures forall other: set<string> :: Closed(build, sources, other) ==> reached <= other
    ensures Closed(build, sources, reached)
  {
    hide FileName, IncludeLine, Occurs, Reached;
    reached := NamedInBuild(build, sources);
    ghost var seeds := reached;
    for pass := 0 to |sources|
      invariant Sound(build, sources, reached) && seeds <= reached
      invariant pass > 0 ==> pass < |reached|
    {
      var before := reached;
      reached := FollowAll(build, sources, before);
      if reached == before {
        ClosedIsExact(build, sources, reached);
        return;
      }
      GrewByOne(before, reached);
    }
    Fits(reached, Names(sources));
    assert |sources| == 0;
    ClosedIsExact(build, sources, reached);
  }

  lemma GrewByOne(before: set<string>, after: set<string>)
    requires before < after
    ensures |before| < |after|
  {
    Fits(before, after);
    assert after == before + (after - before);
    var x :| x in after - before;
    assert |after - before| > 0;
  }

  // ----- Inputs

  datatype ManifestFile = ManifestFile(path: Path, kind: Kind, digest: Digest, size: nat)

  datatype SourceManifest = SourceManifest(files: seq<ManifestFile>, inputs: seq<Path>, symbol: string, target: string)

  type Bytes = seq<nat>

  /** The source bytes by path. */
  type Tree = map<Path, Bytes>

  /** Decoding; `None` for bytes that are not UTF-8. */
  type Utf8 = Bytes -> Option<string>

  function DigestOf(bytes: Bytes): Digest {
    EpisodeRecords.OfBytes(bytes)
  }

  predicate Authentic(f: ManifestFile, bytes: Bytes) {
    f.size == |bytes| && f.digest == DigestOf(bytes)
  }

  function PathOf(s: Source): Path {
    s.path
  }

  /** What a manifest file contributes: its text, or what is wrong with its bytes. */
  function TextOf(f: ManifestFile, tree: Tree, utf8: Utf8): seq<Source> {
    if f.path !in tree || !Authentic(f, tree[f.path]) || utf8(tree[f.path]).None? then []
    else [Source(f.path, f.kind, utf8(tree[f.path]).value)]
  }

  function FileFindings(f: ManifestFile, tree: Tree, utf8: Utf8): seq<Finding> {
    if f.path !in tree then []
    else if !Authentic(f, tree[f.path]) then [ArtifactIdentityMismatch(f.path)]
    else if utf8(tree[f.path]).None? then [NonUtf8Source(f.path)]
    else []
  }

  function Without(texts: seq<Source>, path: Path): seq<Source> {
    if texts == [] then []
    else Without(texts[..|texts| - 1], path)
         + if texts[|texts| - 1].path == path then [] else [texts[|texts| - 1]]
  }

  /** A text replaces an earlier one of the same path. */
  function Inserted(texts: seq<Source>, more: seq<Source>): seq<Source> {
    if more == [] then texts else Without(texts, more[0].path) + more
  }

  function Collected(files: seq<ManifestFile>, tree: Tree, utf8: Utf8): seq<Source> {
    if files == [] then []
    else Inserted(Collected(files[..|files| - 1], tree, utf8), TextOf(files[|files| - 1], tree, utf8))
  }

  /** The texts that the inspections see, by path. */
  function TextsOf(files: seq<ManifestFile>, tree: Tree, utf8: Utf8): seq<Source> {
    Sorted(Collected(files, tree, utf8), PathOf)
  }

  function IdentityFindings(files: seq<ManifestFile>, tree: Tree, utf8: Utf8): seq<Finding> {
    if files == [] then []
    else IdentityFindings(files[..|files| - 1], tree, utf8) + FileFindings(files[|files| - 1], tree, utf8)
  }

  function PathsOf(files: seq<ManifestFile>): set<Path> {
    set i | 0 <= i < |files| :: files[i].path
  }

  predicate OncePerPath(texts: seq<Source>) {
    forall i, j :: 0 <= i < j < |texts| ==> texts[i].path != texts[j].path
  }

  lemma {:induction false} WithoutPath(texts: seq<Source>, path: Path)
    requires OncePerPath(texts)
    ensures OncePerPath(Without(texts, path))
    ensures forall s :: s in Without(texts, path) <==> s in texts && s.path != path
    decreases |texts|
  {
    if texts != [] {
      var init, last := texts[..|texts| - 1], texts[|texts| - 1];
      WithoutPath(init, path);
      assert texts == init + [last];
      assert forall i :: 0 <= i < |init| ==> init[i] in init;
      assert forall i :: 0 <= i < |Without(init, path)| ==> Without(init, path)[i] in init;
    }
  }

  /** However often a manifest names a path, one text is kept for it. */
  lemma {:induction false} CollectedOnce(files: seq<ManifestFile>, tree: Tree, utf8: Utf8)
    ensures OncePerPath(Collected(files, tree, utf8))
    decreases |files|
  {
    hide Without, Authentic;
    if files != [] {
      var texts, last := Collected(files[..|files| - 1], tree, utf8), files[|files| - 1];
      CollectedOnce(files[..|files| - 1], tree, utf8);
      WithoutPath(texts, last.path);
      var kept := Without(texts, last.path);
      assert forall i :: 0 <= i < |kept| ==> kept[i] in kept;
    }
  }

  // ----- Inspections of single texts

  const FORBIDDEN: seq<string> :=
    ["torch/", "torch::", "at::", "aclnn", "aclop", "tbe/", "tbe::", "tvm/", "tvm::"]

  const ASCEND_C_MARKERS: seq<string> :=
    ["__aicore__", "kernel_operator.h", "GM_ADDR", "GlobalTensor", "AscendC::", "tensor_api"]

  predicate ContainsAny(text: string, parts: seq<string>) {
    exists i :: 0 <= i < |parts| && Contains(text, parts[i])
  }

  predicate Forbidden(s: Source) {
    ContainsAny(Lower(s.text), FORBIDDEN)
  }

  predicate IsDevice(s: Source) {
    s.kind.AscendCDevice? && !Blank(s.text)
  }

  predicate Exposes(s: Source, symbol: string) {
    s.kind.AscendHost? && Contains(s.text, symbol) && Contains(s.text, "extern \"C\"")
  }

  function ForbiddenFindings(texts: seq<Source>): seq<Finding> {
    if texts == [] then []
    else
      var last := texts[|texts| - 1];
      ForbiddenFindings(texts[..|texts| - 1]) + if Forbidden(last) then [ForbiddenFallback(last.path)] else []
  }

  function Unmarked(texts: seq<Source>): seq<Finding> {
    if texts == [] then []
    else
      var last := texts[|texts| - 1];
      Unmarked(texts[..|texts| - 1])
      + if last.kind.AscendCDevice? && !ContainsAny(last.text, ASCEND_C_MARKERS)
        then [UnrecognizedKernelStructure(last.path)] else []
  }

  predicate HasDevice(texts: seq<Source>) {
    exists i :: 0 <= i < |texts| && IsDevice(texts[i])
  }

  predicate HasHost(texts: seq<Source>, symbol: string) {
    exists i :: 0 <= i < |texts| && Exposes(texts[i], symbol)
  }

  function DeviceFindings(texts: seq<Source>): seq<Finding> {
    if HasDevice(texts) then Unmarked(texts) else [MissingDeviceSource]
  }

  function HostFindings(texts: seq<Source>, symbol: string): seq<Finding> {
    if HasHost(texts, symbol) then [] else [MissingHostEntryPoint]
  }

  // ----- The build and the mapping

  function TextsOfKind(texts: seq<Source>, kind: Kind): seq<string> {
    if texts == [] then []
    else TextsOfKind(texts[..|texts| - 1], kind)
         + if texts[|texts| - 1].kind == kind then [texts[|texts| - 1].text] else []
  }

  function Joined(texts: seq<string>): string {
    if texts == [] then []
    else if |texts| == 1 then texts[0]
    else Joined(texts[..|texts| - 1]) + "\n" + texts[|texts| - 1]
  }

  function BuildText(texts: seq<Source>): string {
    Joined(TextsOfKind(texts, BuildIntegration))
  }

  function MappingText(texts: seq<Source>): string {
    Joined(TextsOfKind(texts, ComponentMapping))
  }

  predicate NeedsBuild(f: ManifestFile) {
    f.kind.AscendCDevice? || f.kind.AscendHost?
  }

  /** The device and host files that nothing in the build reaches, in manifest order. */
  ghost function Unreached(files: seq<ManifestFile>, texts: seq<Source>): seq<Path> {
    if files == [] then []
    else
      var last := files[|files| - 1];
      Unreached(files[..|files| - 1], texts)
      + if NeedsBuild(last) && !Reached(BuildText(texts), texts, FileName(last.path)) then [last.path] else []
  }

  ghost function BuildFindings(files: seq<ManifestFile>, target: string, texts: seq<Source>): seq<Finding> {
    (if Unreached(files, texts) == [] then [] else [MissingBuildReference(Unreached(files, texts))])
    + (if Contains(BuildText(texts), target) then [] else [MissingBuildTarget])
  }

  function UncoveredInputs(inputs: seq<Path>, mapping: string): seq<Path> {
    if inputs == [] then []
    else UncoveredInputs(inputs[..|inputs| - 1], mapping)
         + if Contains(mapping, inputs[|inputs| - 1]) then [] else [inputs[|inputs| - 1]]
  }

  function UncoveredFiles(files: seq<ManifestFile>, mapping: string): seq<Path> {
    if files == [] then []
    else
      var last := files[|files| - 1];
      UncoveredFiles(files[..|files| - 1], mapping)
      + if !last.kind.ComponentMapping? && !Contains(mapping, last.path) then [last.path] else []
  }

  function MappingFindings(m: SourceManifest, texts: seq<Source>): seq<Finding> {
    var uncovered := UncoveredInputs(m.inputs, MappingText(texts)) + UncoveredFiles(m.files, MappingText(texts));
    if uncovered == [] then [] else [IncompleteComponentMapping(uncovered)]
  }

  // ----- The whole gate

  /** Everything that the gate reports, inspection by inspection. */
  ghost function Findings(m: SourceManifest, tree: Tree, utf8: Utf8): seq<Finding> {
    var texts := TextsOf(m.files, tree, utf8);
    (if PathsOf(m.files) == tree.Keys then [] else [ArtifactSetMismatch])
    + IdentityFindings(m.files, tree, utf8)
    + ForbiddenFindings(texts)
    + DeviceFindings(texts)
    + HostFindings(texts, m.symbol)
    + BuildFindings(m.files, m.target, texts)
    + MappingFindings(m, texts)
  }

  predicate IsBlocking(f: Finding) {
    !f.UnrecognizedKernelStructure?
  }

  predicate NothingBlocks(findings: seq<Finding>) {
    forall i :: 0 <= i < |findings| ==> !IsBlocking(findings[i])
  }

  /** What a candidate must be for the gate to pass it. */
  ghost predicate Admissible(m: SourceManifest, tree: Tree, utf8: Utf8) {
    var texts := TextsOf(m.files, tree, utf8);
    && PathsOf(m.files) == tree.Keys
    && (forall i :: 0 <= i < |m.files| && m.files[i].path in tree ==>
          Authentic(m.files[i], tree[m.files[i].path]) && utf8(tree[m.files[i].path]).Some?)
    && (forall i :: 0 <= i < |texts| ==> !Forbidden(texts[i]))
    && HasDevice(texts)
    && HasHost(texts, m.symbol)
    && Contains(BuildText(texts), m.target)
    && (forall i :: 0 <= i < |m.files| && NeedsBuild(m.files[i]) ==>
          Reached(BuildText(texts), texts, FileName(m.files[i].path)))
    && (forall i :: 0 <= i < |m.inputs| ==> Contains(MappingText(texts), m.inputs[i]))
    && (forall i :: 0 <= i < |m.files| && !m.files[i].kind.ComponentMapping? ==>
          Contains(MappingText(texts), m.files[i].path))
  }

  lemma NothingBlocksInBoth(a: seq<Finding>, b: seq<Finding>)
    ensures NothingBlocks(a + b) <==> NothingBlocks(a) && NothingBlocks(b)
  {
    if NothingBlocks(a + b) {
      assert forall i :: 0 <= i < |a| ==> a[i] == (a + b)[i];
      assert forall i :: 0 <= i < |b| ==> b[i] == (a + b)[|a| + i];
    }
  }

  lemma {:induction false} IdentityBlocks(files: seq<ManifestFile>, tree: Tree, utf8: Utf8)
    ensures NothingBlocks(IdentityFindings(files, tree, utf8)) <==>
              forall i :: 0 <= i < |files| && files[i].path in tree ==>
                Authentic(files[i], tree[files[i].path]) && utf8(tree[files[i].path]).Some?
  {
    hide Authentic;
    if files != [] {
      var init, last := files[..|files| - 1], files[|files| - 1];
      IdentityBlocks(init, tree, utf8);
      NothingBlocksInBoth(IdentityFindings(init, tree, utf8), FileFindings(last, tree, utf8));
      assert FileFindings(last, tree, utf8) != [] ==> IsBlocking(FileFindings(last, tree, utf8)[0]);
      assert forall i :: 0 <= i < |init| ==> files[i] == init[i];
    }
  }

  lemma {:induction false} ForbiddenBlocks(texts: seq<Source>)
    ensures NothingBlocks(ForbiddenFindings(texts)) <==> forall i :: 0 <= i < |texts| ==> !Forbidden(texts[i])
  {
    hide Forbidden;
    if texts != [] {
      var init, last := texts[..|texts| - 1], texts[|texts| - 1];
      ForbiddenBlocks(init);
      var more := if Forbidden(last) then [ForbiddenFallback(last.path)] else [];
      NothingBlocksInBoth(ForbiddenFindings(init), more);
      assert more != [] ==> IsBlocking(more[0]);
      assert forall i :: 0 <= i < |init| ==> texts[i] == init[i];
    }
  }

  lemma {:induction false} AdvisoriesDoNotBlock(texts: seq<Source>)
    ensures NothingBlocks(Unmarked(texts))
  {
    if texts != [] {
      AdvisoriesDoNotBlock(texts[..|texts| - 1]);
    }
  }

  lemma {:induction false} NothingUnreached(files: seq<ManifestFile>, texts: seq<Source>)
    ensures Unreached(files, texts) == [] <==>
              forall i :: 0 <= i < |files| && NeedsBuild(files[i]) ==>
                Reached(BuildText(texts), texts, FileName(files[i].path))
  {
    hide FileName, BuildText, Reached, NeedsBuild;
    if files != [] {
      var init := files[..|files| - 1];
      NothingUnreached(init, texts);
      assert forall i :: 0 <= i < |init| ==> files[i] == init[i];
    }
  }

  lemma {:induction false} InputsCovered(inputs: seq<Path>, mapping: string)
    ensures UncoveredInputs(inputs, mapping) == [] <==> forall i :: 0 <= i < |inputs| ==> Contains(mapping, inputs[i])
  {
    hide Contains;
    if inputs != [] {
      var init := inputs[..|inputs| - 1];
      InputsCovered(init, mapping);
      assert forall i :: 0 <= i < |init| ==> inputs[i] == init[i];
    }
  }

  lemma {:induction false} FilesCovered(files: seq<ManifestFile>, mapping: string)
    ensures UncoveredFiles(files, mapping) == [] <==>
              forall i :: 0 <= i < |files| && !files[i].kind.ComponentMapping? ==> Contains(mapping, files[i].path)
  {
    hide Contains;
    if files != [] {
      var init := files[..|files| - 1];
      FilesCovered(init, mapping);
      assert forall i :: 0 <= i < |init| ==> files[i] == init[i];
    }
  }

  lemma BuildBlocks(files: seq<ManifestFile>, target: string, texts: seq<Source>)
    ensures NothingBlocks(BuildFindings(files, target, texts)) <==>
              Unreached(files, texts) == [] && Contains(BuildText(texts), target)
  {
    hide Unreached, Contains, BuildText;
    var findings := BuildFindings(files, target, texts);
    assert findings != [] ==> IsBlocking(findings[0]);
  }

  lemma MappingBlocks(m: SourceManifest, texts: seq<Source>)
    ensures NothingBlocks(MappingFindings(m, texts)) <==>
              && UncoveredInputs(m.inputs, MappingText(texts)) == []
              && UncoveredFiles(m.files, MappingText(texts)) == []
  {
    hide UncoveredInputs, UncoveredFiles, MappingText;
    var findings := MappingFindings(m, texts);
    assert findings != [] ==> IsBlocking(findings[0]);
  }

  /** Nothing that the gate finds blocks, exactly when the candidate is admissible. */
  lemma PassesExactly(m: SourceManifest, tree: Tree, utf8: Utf8)
    ensures NothingBlocks(Findings(m, tree, utf8)) <==> Admissible(m, tree, utf8)
  {
    hide NothingBlocks, IdentityFindings, ForbiddenFindings, BuildFindings, MappingFindings, Unreached, Unmarked,
      UncoveredInputs, UncoveredFiles, HasDevice, HasHost, Contains, BuildText, MappingText, TextsOf, Authentic,
      Forbidden, NeedsBuild, Reached, FileName, PathsOf;
    var texts := TextsOf(m.files, tree, utf8);
    var all := if PathsOf(m.files) == tree.Keys then [] else [ArtifactSetMismatch];
    var a := all + IdentityFindings(m.files, tree, utf8);
    var b := a + ForbiddenFindings(texts);
    var c := b + DeviceFindings(texts);
    var d := c + HostFindings(texts, m.symbol);
    var e := d + BuildFindings(m.files, m.target, texts);
    NothingBlocksInBoth(all, IdentityFindings(m.files, tree, utf8));
    NothingBlocksInBoth(a, ForbiddenFindings(texts));
    NothingBlocksInBoth(b, DeviceFindings(texts));
    NothingBlocksInBoth(c, HostFindings(texts, m.symbol));
    NothingBlocksInBoth(d, BuildFindings(m.files, m.target, texts));
    NothingBlocksInBoth(e, MappingFindings(m, texts));
    OneBlocks(ArtifactSetMismatch);
    OneBlocks(MissingDeviceSource);
    OneBlocks(MissingHostEntryPoint);
    NoneBlocks();
    AdvisoriesDoNotBlock(texts);
    IdentityBlocks(m.files, tree, utf8);
    ForbiddenBlocks(texts);
    BuildBlocks(m.files, m.target, texts);
    NothingUnreached(m.files, texts);
    MappingBlocks(m, texts);
    InputsCovered(m.inputs, MappingText(texts));
    FilesCovered(m.files, MappingText(texts));
  }

  lemma OneBlocks(f: Finding)
    ensures NothingBlocks([f]) <==> !IsBlocking(f)
  {
    assert [f][0] == f;
  }

  lemma NoneBlocks()
    ensures NothingBlocks([])
  {
  }

  // ----- The inspections, as loops

  method ReadTexts(files: seq<ManifestFile>, tree: Tree, utf8: Utf8)
    returns (texts: seq<Source>, failures: seq<Finding>)
    ensures texts == TextsOf(files, tree, utf8) && failures == IdentityFindings(files, tree, utf8)
  {
    hide Authentic;
    texts, failures := [], [];
    assert files[..0] == [];
    for i := 0 to |files|
      invariant texts == Collected(files[..i], tree, utf8) && failures == IdentityFindings(files[..i], tree, utf8)
    {
      assert files[..i + 1][..i] == files[..i];
      var f := files[i];
      if f.path in tree {
        if !Authentic(f, tree[f.path]) {
          failures := failures + [ArtifactIdentityMismatch(f.path)];
        } else {
          var text := utf8(tree[f.path]);
          if text.Some? {
            texts := Inserted(texts, [Source(f.path, f.kind, text.value)]);
          } else {
            failures := failures + [NonUtf8Source(f.path)];
          }
        }
      }
    }
    assert files[..|files|] == files;
    texts := Sorted(texts, PathOf);
  }

  method InspectForbidden(texts: seq<Source>) returns (failures: seq<Finding>)
    ensures failures == ForbiddenFindings(texts)
  {
    hide Forbidden;
    failures := [];
    assert texts[..0] == [];
    for i := 0 to |texts|
      invariant failures == ForbiddenFindings(texts[..i])
    {
      assert texts[..i + 1][..i] == texts[..i];
      if Forbidden(texts[i]) {
        failures := failures + [ForbiddenFallback(texts[i].path)];
      }
    }
    assert texts[..|texts|] == texts;
  }

  method InspectDevice(texts: seq<Source>) returns (failures: seq<Finding>)
    ensures failures == DeviceFindings(texts)
  {
    hide IsDevice, ContainsAny;
    if !(exists i :: 0 <= i < |texts| && IsDevice(texts[i])) {
      return [MissingDeviceSource];
    }
    failures := [];
    assert texts[..0] == [];
    for i := 0 to |texts|
      invariant failures == Unmarked(texts[..i])
    {
      assert texts[..i + 1][..i] == texts[..i];
      if texts[i].kind.AscendCDevice? && !ContainsAny(texts[i].text, ASCEND_C_MARKERS) {
        failures := failures + [UnrecognizedKernelStructure(texts[i].path)];
      }
    }
    assert texts[..|texts|] == texts;
  }

  method InspectBuild(files: seq<ManifestFile>, target: string, texts: seq<Source>) returns (failures: seq<Finding>)
    ensures failures == BuildFindings(files, target, texts)
  {
    hide FileName, BuildText, Reached, Contains;
    var build := BuildText(texts);
    var reachable := BuildableNames(build, texts);
    var missing: seq<Path> := [];
    assert files[..0] == [];
    for i := 0 to |files|
      invariant missing == Unreached(files[..i], texts)
    {
      assert files[..i + 1][..i] == files[..i];
      if NeedsBuild(files[i]) && FileName(files[i].path) !in reachable {
        missing := missing + [files[i].path];
      }
    }
    assert files[..|files|] == files;
    failures := [];
    if missing != [] {
      failures := failures + [MissingBuildReference(missing)];
    }
    if !Contains(build, target) {
      failures := failures + [MissingBuildTarget];
    }
  }

  method InspectMapping(m: SourceManifest, texts: seq<Source>) returns (failures: seq<Finding>)
    ensures failures == MappingFindings(m, texts)
  {
    hide MappingText, Contains;
    var mapping := MappingText(texts);
    var uncovered: seq<Path> := [];
    assert m.inputs[..0] == [] && m.files[..0] == [];
    for i := 0 to |m.inputs|
      invariant uncovered == UncoveredInputs(m.inputs[..i], mapping)
    {
      assert m.inputs[..i + 1][..i] == m.inputs[..i];
      if !Contains(mapping, m.inputs[i]) {
        uncovered := uncovered + [m.inputs[i]];
      }
    }
    assert m.inputs[..|m.inputs|] == m.inputs;
    ghost var inputs := uncovered;
    for i := 0 to |m.files|
      invariant uncovered == inputs + UncoveredFiles(m.files[..i], mapping)
    {
      assert m.files[..i + 1][..i] == m.files[..i];
      if !m.files[i].kind.ComponentMapping? && !Contains(mapping, m.files[i].path) {
        uncovered := uncovered + [m.files[i].path];
      }
    }
    assert m.files[..|m.files|] == m.files;
    failures := if uncovered == [] then [] else [IncompleteComponentMapping(uncovered)];
  }

  /** The gate. It reports exactly what its inspections find, and passes exactly the candidates whose
      bytes are the manifest's, whose text crosses no boundary, whose entry point and target are there,
      and every device and host source of which a chain of includes reaches. */
  method EvaluateSourceGate(m: SourceManifest, tree: Tree, utf8: Utf8) returns (passed: bool, failures: seq<Finding>)
    ensures failures == Findings(m, tree, utf8)
    ensures passed <==> Admissible(m, tree, utf8)
  {
    hide IdentityFindings, ForbiddenFindings, DeviceFindings, BuildFindings, MappingFindings, TextsOf, Exposes,
      NothingBlocks, Admissible;
    var texts, identities := ReadTexts(m.files, tree, utf8);
    failures := if PathsOf(m.files) == tree.Keys then [] else [ArtifactSetMismatch];
    failures := failures + identities;
    var forbidden := InspectForbidden(texts);
    failures := failures + forbidden;
    var device := InspectDevice(texts);
    failures := failures + device;
    if !(exists i :: 0 <= i < |texts| && Exposes(texts[i], m.symbol)) {
      failures := failures + [MissingHostEntryPoint];
    }
    var build := InspectBuild(m.files, m.target, texts);
    failures := failures + build;
    var mapping := InspectMapping(m, texts);
    failures := failures + mapping;
    passed := NothingBlocks(failures);
    PassesExactly(m, tree, utf8);
  }
}
