/** What the Source Gate asks of a candidate, in terms of the manifest, the bytes and the texts alone. */
module SourceAdmission {
  import opened Outcomes
  import opened Texts
  import opened ByteOrder
  import opened SourceText
  import opened SourceGate

  // ----- Which texts are inspected

  /** The bytes at this file's path are the ones the manifest announces, and they are text. */
  predicate Announced(f: ManifestFile, tree: Tree, utf8: Utf8) {
    && f.path in tree && |tree[f.path]| == f.size && f.digest == DigestOf(tree[f.path]) && utf8(tree[f.path]).Some?
  }

  /** The last announced file of its path. */
  ghost predicate Kept(files: seq<ManifestFile>, tree: Tree, utf8: Utf8, i: int) {
    && 0 <= i < |files| && Announced(files[i], tree, utf8)
    && forall j :: i < j < |files| && files[j].path == files[i].path ==> !Announced(files[j], tree, utf8)
  }

  function SourceOf(f: ManifestFile, tree: Tree, utf8: Utf8): Source
    requires Announced(f, tree, utf8)
  {
    Source(f.path, f.kind, utf8(tree[f.path]).value)
  }

  ghost predicate KeptAs(files: seq<ManifestFile>, tree: Tree, utf8: Utf8, i: int, s: Source) {
    Kept(files, tree, utf8, i) && s == SourceOf(files[i], tree, utf8)
  }

  ghost predicate IsText(files: seq<ManifestFile>, tree: Tree, utf8: Utf8, s: Source) {
    exists i :: KeptAs(files, tree, utf8, i, s)
  }

  lemma KeptInit(files: seq<ManifestFile>, tree: Tree, utf8: Utf8, i: int, s: Source)
    requires files != [] && i < |files| - 1
    ensures var init, last := files[..|files| - 1], files[|files| - 1];
            KeptAs(files, tree, utf8, i, s) <==>
              KeptAs(init, tree, utf8, i, s) && !(last.path == s.path && Announced(last, tree, utf8))
  {
    hide Announced;
    var init := files[..|files| - 1];
    assert forall k :: 0 <= k < |init| ==> files[k] == init[k];
  }

  lemma LastIsKept(files: seq<ManifestFile>, tree: Tree, utf8: Utf8, i: int, s: Source)
    requires files != [] && i >= |files| - 1
    ensures KeptAs(files, tree, utf8, i, s) <==>
              i == |files| - 1 && Announced(files[i], tree, utf8) && s == SourceOf(files[i], tree, utf8)
    ensures !KeptAs(files[..|files| - 1], tree, utf8, i, s)
  {
  }

  lemma OneMoreText(files: seq<ManifestFile>, tree: Tree, utf8: Utf8, s: Source)
    requires files != []
    ensures var init, last := files[..|files| - 1], files[|files| - 1];
            IsText(files, tree, utf8, s) <==>
              if Announced(last, tree, utf8) && last.path == s.path then s == SourceOf(last, tree, utf8)
              else IsText(init, tree, utf8, s)
  {
    hide Announced, KeptAs;
    var n := |files| - 1;
    LastIsKept(files, tree, utf8, n, s);
    forall i
      ensures i < n ==>
                (KeptAs(files, tree, utf8, i, s) <==>
                   && KeptAs(files[..n], tree, utf8, i, s)
                   && !(files[n].path == s.path && Announced(files[n], tree, utf8)))
      ensures i >= n ==> !KeptAs(files[..n], tree, utf8, i, s)
      ensures i > n ==> !KeptAs(files, tree, utf8, i, s)
    {
      if i < n {
        KeptInit(files, tree, utf8, i, s);
      } else {
        LastIsKept(files, tree, utf8, i, s);
      }
    }
  }

  lemma {:induction false} CollectedExactly(files: seq<ManifestFile>, tree: Tree, utf8: Utf8, s: Source)
    ensures s in Collected(files, tree, utf8) <==> IsText(files, tree, utf8, s)
    decreases |files|
  {
    hide Without, IsText;
    if files == [] {
      NoText(tree, utf8, s);
    } else {
      var init, last := files[..|files| - 1], files[|files| - 1];
      CollectedExactly(init, tree, utf8, s);
      OneMoreText(files, tree, utf8, s);
      CollectedOnce(init, tree, utf8);
      WithoutPath(Collected(init, tree, utf8), last.path);
    }
  }

  lemma NoText(tree: Tree, utf8: Utf8, s: Source)
    ensures !IsText([], tree, utf8, s)
  {
  }

  /** The inspected texts are the announced ones, the last of each path, and nothing else. */
  lemma TextsExactly(files: seq<ManifestFile>, tree: Tree, utf8: Utf8, s: Source)
    ensures s in TextsOf(files, tree, utf8) <==> IsText(files, tree, utf8, s)
  {
    hide Collected, IsText, Sorted;
    CollectedExactly(files, tree, utf8, s);
    SortedKeeps(Collected(files, tree, utf8), PathOf);
    assert s in TextsOf(files, tree, utf8) <==> s in multiset(TextsOf(files, tree, utf8));
  }

  // ----- Texts of one kind, joined

  lemma {:induction false} JoinedExactly(texts: seq<string>, part: string)
    requires '\n' !in part && part != []
    ensures Occurs(Joined(texts), part) <==> exists i :: 0 <= i < |texts| && Occurs(texts[i], part)
    decreases |texts|
  {
    hide Occurs;
    if texts == [] {
      NothingOccurs(part);
    } else if |texts| > 1 {
      var init, last := texts[..|texts| - 1], texts[|texts| - 1];
      JoinedExactly(init, part);
      assert forall i :: 0 <= i < |init| ==> init[i] == texts[i];
      OccursInEither(Joined(init), last, part);
    }
  }

  lemma NothingOccurs(part: string)
    requires part != []
    ensures !Occurs([], part)
  {
  }

  lemma AtLeft(a: string, b: string, i: int, part: string)
    requires i + |part| <= |a|
    ensures At(a + b, i, part) <==> At(a, i, part)
  {
    if 0 <= i {
      assert (a + b)[i..i + |part|] == a[i..i + |part|];
    }
  }

  lemma AtRight(a: string, b: string, i: int, part: string)
    requires |a| <= i
    ensures At(a + b, i, part) <==> At(b, i - |a|, part)
  {
    if i + |part| <= |a + b| {
      assert (a + b)[i..i + |part|] == b[i - |a|..i - |a| + |part|];
    }
  }

  lemma LineFeedInside(text: string, i: int, part: string, n: int)
    requires At(text, i, part) && i <= n < i + |part| && text[n] == '\n'
    ensures '\n' in part
  {
    assert part[n - i] == text[i..i + |part|][n - i];
  }

  /** Nothing that fits on one line reaches across a line feed. */
  lemma OccursInEither(a: string, b: string, part: string)
    requires '\n' !in part && part != []
    ensures Occurs(a + "\n" + b, part) <==> Occurs(a, part) || Occurs(b, part)
  {
    var text := a + "\n" + b;
    assert text == a + ("\n" + b) && text == (a + "\n") + b;
    if Occurs(a, part) {
      var i :| At(a, i, part);
      AtLeft(a, "\n" + b, i, part);
    }
    if Occurs(b, part) {
      var i :| At(b, i, part);
      AtRight(a + "\n", b, i + |a| + 1, part);
    }
    if Occurs(text, part) {
      var i :| At(text, i, part);
      if i + |part| <= |a| {
        AtLeft(a, "\n" + b, i, part);
      } else if i > |a| {
        AtRight(a + "\n", b, i, part);
      } else {
        LineFeedInside(text, i, part, |a|);
      }
    }
  }

  lemma {:induction false} OfKindExactly(texts: seq<Source>, kind: Kind, t: string)
    ensures t in TextsOfKind(texts, kind) <==> exists s :: s in texts && s.kind == kind && s.text == t
    decreases |texts|
  {
    if texts != [] {
      var init, last := texts[..|texts| - 1], texts[|texts| - 1];
      OfKindExactly(init, kind, t);
      assert texts == init + [last];
      assert last in texts;
    }
  }

  /** Some inspected text of this kind names the part. */
  ghost predicate Mentioned(m: SourceManifest, tree: Tree, utf8: Utf8, kind: Kind, part: string) {
    exists s :: IsText(m.files, tree, utf8, s) && s.kind == kind && Occurs(s.text, part)
  }

  lemma MentionedExactly(m: SourceManifest, tree: Tree, utf8: Utf8, kind: Kind, part: string)
    requires '\n' !in part && part != []
    ensures Contains(Joined(TextsOfKind(TextsOf(m.files, tree, utf8), kind)), part) <==>
              Mentioned(m, tree, utf8, kind, part)
  {
    hide Contains, Occurs, Joined, TextsOfKind, TextsOf, IsText;
    var texts := TextsOf(m.files, tree, utf8);
    var ofKind := TextsOfKind(texts, kind);
    ContainsExactly(Joined(ofKind), part);
    JoinedExactly(ofKind, part);
    if exists i :: 0 <= i < |ofKind| && Occurs(ofKind[i], part) {
      var i :| 0 <= i < |ofKind| && Occurs(ofKind[i], part);
      OfKindExactly(texts, kind, ofKind[i]);
      var s :| s in texts && s.kind == kind && s.text == ofKind[i];
      TextsExactly(m.files, tree, utf8, s);
    }
    if Mentioned(m, tree, utf8, kind, part) {
      var s :| IsText(m.files, tree, utf8, s) && s.kind == kind && Occurs(s.text, part);
      TextsExactly(m.files, tree, utf8, s);
      OfKindExactly(texts, kind, s.text);
      var i :| 0 <= i < |ofKind| && ofKind[i] == s.text;
    }
  }

  // ----- Admission

  /** Somebody else's library, whatever the case it is written in. */
  ghost predicate NamesALibrary(text: string) {
    var folded := Lower(text);
    || Occurs(folded, "torch/") || Occurs(folded, "torch::") || Occurs(folded, "at::")
    || Occurs(folded, "aclnn") || Occurs(folded, "aclop")
    || Occurs(folded, "tbe/") || Occurs(folded, "tbe::") || Occurs(folded, "tvm/") || Occurs(folded, "tvm::")
  }

  lemma ForbiddenExactly(s: Source)
    ensures Forbidden(s) <==> NamesALibrary(s.text)
  {
    hide Contains, Occurs, Lower;
    var folded := Lower(s.text);
    forall i | 0 <= i < |FORBIDDEN| ensures Contains(folded, FORBIDDEN[i]) <==> Occurs(folded, FORBIDDEN[i]) {
      ContainsExactly(folded, FORBIDDEN[i]);
    }
    assert FORBIDDEN[0] == "torch/" && FORBIDDEN[1] == "torch::" && FORBIDDEN[2] == "at::" && FORBIDDEN[3] == "aclnn"
           && FORBIDDEN[4] == "aclop" && FORBIDDEN[5] == "tbe/" && FORBIDDEN[6] == "tbe::" && FORBIDDEN[7] == "tvm/"
           && FORBIDDEN[8] == "tvm::";
  }

  /** Nothing that the manifest names reaches over a line. */
  predicate OnOneLine(m: SourceManifest) {
    && m.target != [] && '\n' !in m.target
    && (forall i :: 0 <= i < |m.inputs| ==> m.inputs[i] != [] && '\n' !in m.inputs[i])
    && (forall i :: 0 <= i < |m.files| ==> m.files[i].path != [] && '\n' !in m.files[i].path)
  }

  /** The tree is exactly what the manifest announces. */
  ghost predicate Genuine(m: SourceManifest, tree: Tree, utf8: Utf8) {
    && (forall path :: path in tree <==> exists i :: 0 <= i < |m.files| && m.files[i].path == path)
    && (forall i :: 0 <= i < |m.files| ==> Announced(m.files[i], tree, utf8))
  }

  /** There is a device source, a host source that exposes the symbol to C, and no delegation. */
  ghost predicate Original(m: SourceManifest, tree: Tree, utf8: Utf8) {
    && (forall s :: IsText(m.files, tree, utf8, s) ==> !NamesALibrary(s.text))
    && (exists s :: IsText(m.files, tree, utf8, s) && s.kind.AscendCDevice?
                    && exists i :: 0 <= i < |s.text| && !IsBlank(s.text[i]))
    && (exists s :: IsText(m.files, tree, utf8, s) && s.kind.AscendHost?
                    && Occurs(s.text, m.symbol) && Occurs(s.text, "extern \"C\""))
  }

  /** The build defines the target and reaches every device and host file. */
  ghost predicate Buildable(m: SourceManifest, tree: Tree, utf8: Utf8) {
    var texts := TextsOf(m.files, tree, utf8);
    && Mentioned(m, tree, utf8, BuildIntegration, m.target)
    && (forall i :: 0 <= i < |m.files| && (m.files[i].kind.AscendCDevice? || m.files[i].kind.AscendHost?) ==>
          Reached(BuildText(texts), texts, FileName(m.files[i].path)))
  }

  /** The mapping accounts for every input and for every file but itself. */
  ghost predicate Mapped(m: SourceManifest, tree: Tree, utf8: Utf8) {
    && (forall i :: 0 <= i < |m.inputs| ==> Mentioned(m, tree, utf8, ComponentMapping, m.inputs[i]))
    && (forall i :: 0 <= i < |m.files| && !m.files[i].kind.ComponentMapping? ==>
          Mentioned(m, tree, utf8, ComponentMapping, m.files[i].path))
  }

  lemma GenuineExactly(m: SourceManifest, tree: Tree, utf8: Utf8)
    ensures Genuine(m, tree, utf8) <==>
              && PathsOf(m.files) == tree.Keys
              && forall i :: 0 <= i < |m.files| && m.files[i].path in tree ==>
                   Authentic(m.files[i], tree[m.files[i].path]) && utf8(tree[m.files[i].path]).Some?
  {
    if PathsOf(m.files) == tree.Keys {
      assert forall i :: 0 <= i < |m.files| ==> m.files[i].path in PathsOf(m.files);
      assert forall path :: path in tree <==> path in PathsOf(m.files);
    }
    if Genuine(m, tree, utf8) {
      assert forall path :: path in tree.Keys <==> path in PathsOf(m.files);
    }
  }

  lemma OriginalExactly(m: SourceManifest, tree: Tree, utf8: Utf8)
    ensures var texts := TextsOf(m.files, tree, utf8);
            Original(m, tree, utf8) <==>
              && (forall i :: 0 <= i < |texts| ==> !Forbidden(texts[i]))
              && HasDevice(texts) && HasHost(texts, m.symbol)
  {
    hide Contains, Occurs, TextsOf, IsText, Forbidden, NamesALibrary;
    var texts := TextsOf(m.files, tree, utf8);
    forall s: Source
      ensures s in texts <==> IsText(m.files, tree, utf8, s)
      ensures Forbidden(s) <==> NamesALibrary(s.text)
      ensures IsDevice(s) <==> s.kind.AscendCDevice? && exists i :: 0 <= i < |s.text| && !IsBlank(s.text[i])
      ensures Exposes(s, m.symbol) <==>
                s.kind.AscendHost? && Occurs(s.text, m.symbol) && Occurs(s.text, "extern \"C\"")
    {
      TextsExactly(m.files, tree, utf8, s);
      ForbiddenExactly(s);
      ContainsExactly(s.text, m.symbol);
      ContainsExactly(s.text, "extern \"C\"");
    }
  }

  lemma BuildableExactly(m: SourceManifest, tree: Tree, utf8: Utf8)
    requires OnOneLine(m)
    ensures var texts := TextsOf(m.files, tree, utf8);
            Buildable(m, tree, utf8) <==>
              && Contains(BuildText(texts), m.target)
              && forall i :: 0 <= i < |m.files| && NeedsBuild(m.files[i]) ==>
                   Reached(BuildText(texts), texts, FileName(m.files[i].path))
  {
    hide Contains, TextsOf, Mentioned, Reached, FileName, TextsOfKind, Joined;
    MentionedExactly(m, tree, utf8, BuildIntegration, m.target);
  }

  lemma MappedExactly(m: SourceManifest, tree: Tree, utf8: Utf8)
    requires OnOneLine(m)
    ensures var mapping := MappingText(TextsOf(m.files, tree, utf8));
            Mapped(m, tree, utf8) <==>
              && (forall i :: 0 <= i < |m.inputs| ==> Contains(mapping, m.inputs[i]))
              && (forall i :: 0 <= i < |m.files| && !m.files[i].kind.ComponentMapping? ==>
                    Contains(mapping, m.files[i].path))
  {
    hide Contains, TextsOf, Mentioned, TextsOfKind, Joined;
    forall i | 0 <= i < |m.inputs|
      ensures Contains(MappingText(TextsOf(m.files, tree, utf8)), m.inputs[i]) <==>
                Mentioned(m, tree, utf8, ComponentMapping, m.inputs[i])
    {
      MentionedExactly(m, tree, utf8, ComponentMapping, m.inputs[i]);
    }
    forall i | 0 <= i < |m.files|
      ensures Contains(MappingText(TextsOf(m.files, tree, utf8)), m.files[i].path) <==>
                Mentioned(m, tree, utf8, ComponentMapping, m.files[i].path)
    {
      MentionedExactly(m, tree, utf8, ComponentMapping, m.files[i].path);
    }
  }

  /** The gate passes a candidate exactly when its tree is what the manifest announces, it delegates to
      nobody and has a device and a host side, the build reaches it all, and the mapping covers it all. */
  lemma AdmissibleExactly(m: SourceManifest, tree: Tree, utf8: Utf8)
    requires OnOneLine(m)
    ensures NothingBlocks(Findings(m, tree, utf8)) <==>
              Genuine(m, tree, utf8) && Original(m, tree, utf8) && Buildable(m, tree, utf8) && Mapped(m, tree, utf8)
  {
    hide NothingBlocks, Findings, OnOneLine, Genuine, Original, Buildable, Mapped, TextsOf, PathsOf, Contains, Forbidden,
      HasDevice, HasHost, BuildText, MappingText, Reached, FileName, NeedsBuild, Authentic;
    PassesExactly(m, tree, utf8);
    GenuineExactly(m, tree, utf8);
    OriginalExactly(m, tree, utf8);
    BuildableExactly(m, tree, utf8);
    MappedExactly(m, tree, utf8);
  }

  // ----- Which findings there are

  /** A file whose bytes are not the announced ones, and one whose announced bytes are no text. */
  lemma {:induction false} IdentityFindingsExactly(files: seq<ManifestFile>, tree: Tree, utf8: Utf8, f: Finding)
    ensures f in IdentityFindings(files, tree, utf8) <==>
              exists i :: 0 <= i < |files| && files[i].path in tree
                && var bytes := tree[files[i].path];
                   var genuine := files[i].size == |bytes| && files[i].digest == DigestOf(bytes);
                   || (!genuine && f == ArtifactIdentityMismatch(files[i].path))
                   || (genuine && utf8(bytes).None? && f == NonUtf8Source(files[i].path))
    decreases |files|
  {
    if files != [] {
      var init := files[..|files| - 1];
      IdentityFindingsExactly(init, tree, utf8, f);
      assert forall i :: 0 <= i < |init| ==> init[i] == files[i];
    }
  }

  lemma {:induction false} ForbiddenFindingsExactly(texts: seq<Source>, f: Finding)
    ensures f in ForbiddenFindings(texts) <==>
              exists i :: 0 <= i < |texts| && NamesALibrary(texts[i].text) && f == ForbiddenFallback(texts[i].path)
    decreases |texts|
  {
    hide NamesALibrary, Forbidden;
    if texts != [] {
      var init := texts[..|texts| - 1];
      ForbiddenFindingsExactly(init, f);
      ForbiddenExactly(texts[|texts| - 1]);
      assert forall i :: 0 <= i < |init| ==> init[i] == texts[i];
    }
  }

  /** None of the usual marks of a device source. */
  ghost predicate Unusual(text: string) {
    && !Occurs(text, "__aicore__") && !Occurs(text, "kernel_operator.h") && !Occurs(text, "GM_ADDR")
    && !Occurs(text, "GlobalTensor") && !Occurs(text, "AscendC::") && !Occurs(text, "tensor_api")
  }

  lemma UnusualExactly(text: string)
    ensures ContainsAny(text, ASCEND_C_MARKERS) <==> !Unusual(text)
  {
    hide Contains, Occurs;
    forall i | 0 <= i < |ASCEND_C_MARKERS|
      ensures Contains(text, ASCEND_C_MARKERS[i]) <==> Occurs(text, ASCEND_C_MARKERS[i])
    {
      ContainsExactly(text, ASCEND_C_MARKERS[i]);
    }
    assert ASCEND_C_MARKERS[0] == "__aicore__" && ASCEND_C_MARKERS[1] == "kernel_operator.h"
           && ASCEND_C_MARKERS[2] == "GM_ADDR" && ASCEND_C_MARKERS[3] == "GlobalTensor"
           && ASCEND_C_MARKERS[4] == "AscendC::" && ASCEND_C_MARKERS[5] == "tensor_api";
  }

  ghost predicate IsAdvisory(s: Source, f: Finding) {
    s.kind.AscendCDevice? && Unusual(s.text) && f == UnrecognizedKernelStructure(s.path)
  }

  lemma OneAdvisory(texts: seq<Source>, f: Finding)
    requires texts != []
    ensures var init, last := texts[..|texts| - 1], texts[|texts| - 1];
            f in Unmarked(texts) <==> f in Unmarked(init) || IsAdvisory(last, f)
  {
    hide Unusual, ContainsAny;
    UnusualExactly(texts[|texts| - 1].text);
  }

  lemma {:induction false} AdvisoriesExactly(texts: seq<Source>, f: Finding)
    ensures f in Unmarked(texts) <==> exists i :: 0 <= i < |texts| && IsAdvisory(texts[i], f)
    decreases |texts|
  {
    hide IsAdvisory;
    if texts != [] {
      var init := texts[..|texts| - 1];
      AdvisoriesExactly(init, f);
      OneAdvisory(texts, f);
      assert forall i :: 0 <= i < |init| ==> init[i] == texts[i];
    }
  }

  /** The build finding lists exactly the device and host files that nothing reaches. */
  lemma {:induction false} UnreachedExactly(files: seq<ManifestFile>, texts: seq<Source>, path: Path)
    ensures path in Unreached(files, texts) <==>
              exists i :: 0 <= i < |files| && files[i].path == path
                && (files[i].kind.AscendCDevice? || files[i].kind.AscendHost?)
                && !Reached(BuildText(texts), texts, FileName(path))
    decreases |files|
  {
    hide Reached, BuildText, FileName;
    if files != [] {
      var init := files[..|files| - 1];
      UnreachedExactly(init, texts, path);
      assert forall i :: 0 <= i < |init| ==> init[i] == files[i];
    }
  }

  /** The mapping finding lists exactly what the mapping does not mention. */
  lemma {:induction false} UncoveredExactly(inputs: seq<Path>, mapping: string, path: Path)
    ensures path in UncoveredInputs(inputs, mapping) <==> path in inputs && !Occurs(mapping, path)
    decreases |inputs|
  {
    hide Contains, Occurs;
    if inputs != [] {
      UncoveredExactly(inputs[..|inputs| - 1], mapping, path);
      ContainsExactly(mapping, inputs[|inputs| - 1]);
      assert inputs == inputs[..|inputs| - 1] + [inputs[|inputs| - 1]];
    }
  }

  lemma {:induction false} UncoveredFilesExactly(files: seq<ManifestFile>, mapping: string, path: Path)
    ensures path in UncoveredFiles(files, mapping) <==>
              exists i :: 0 <= i < |files| && files[i].path == path && !files[i].kind.ComponentMapping?
                && !Occurs(mapping, path)
    decreases |files|
  {
    hide Contains, Occurs;
    if files != [] {
      var init := files[..|files| - 1];
      UncoveredFilesExactly(init, mapping, path);
      ContainsExactly(mapping, files[|files| - 1].path);
      assert forall i :: 0 <= i < |init| ==> init[i] == files[i];
    }
  }
}
