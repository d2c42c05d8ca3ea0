/** Retention: when a retained object outlives every collection before its time. */
module UploadRetention {
  import opened Outcomes
  import opened Texts
  import opened Sums
  import opened UploadRecords
  import opened UploadInvariant
  import opened UploadRuns

  const UPLOAD_NAMES: string := "upload:"

  lemma UploadKeyInjective(id: string, other: string)
    requires UploadReferenceKey(id) == UploadReferenceKey(other)
    ensures id == other
  {
    assert id == UploadReferenceKey(id)[7..] && other == UploadReferenceKey(other)[7..];
  }

  // ----- Retention

  /** This reference retains its object until then, and the object is there. */
  ghost predicate Retains(s: Store, k: (string, string), d: Digest, until: nat) {
    k in s.references && s.references[k].digest == d && s.references[k].retained == Some(until) && d in s.objects
  }

  /** This operation completes an upload of the reference's owner under the reference's name. */
  predicate CompletesUnder(s: Store, op: Op, k: (string, string)) {
    && op.Finalize?
    && FinalizeCheck(s, op.owner, op.id, op.at) == Ok(None)
    && Ingest(op.limit, op.fault, s.sessions[op.id].bytes, s.sessions[op.id].digest, s.sessions[op.id].size).Ok?
    && k == (op.owner, UploadReferenceKey(op.id))
  }

  lemma ApplyRetains(limits: Limits, s: Store, op: Op, k: (string, string), d: Digest, until: nat)
    requires Retains(s, k, d, until) && Now(op) < until
    ensures Retains(Apply(limits, s, op), k, d, until) <==> !CompletesUnder(s, op, k)
    ensures CompletesUnder(s, op, k) ==> Overwritten(Apply(limits, s, op), k)
  {
    hide BeginAnswer, GrantAnswer, UploadId, Ingest, UploadReferenceKey;
    match op
    case Collect(removed, at) =>
      assert Protects(s.references[k], d, at);
      assert Reachable(s, d, at);
    case _ =>
  }

  /** The name holds a reference without any retention. */
  predicate Overwritten(s: Store, k: (string, string)) {
    k in s.references && s.references[k].retained.None?
  }

  lemma StaysOverwritten(limits: Limits, s: Store, op: Op, k: (string, string))
    requires Overwritten(s, k)
    ensures Overwritten(Apply(limits, s, op), k)
  {
    hide BeginAnswer, GrantAnswer, UploadId, Ingest, UploadReferenceKey, Collectable;
  }

  ghost predicate SomeCompletesUnder(limits: Limits, ops: seq<Op>, more: seq<Op>, k: (string, string)) {
    exists i :: 0 <= i < |more| && CompletesUnder(Run(limits, ops + more[..i]), more[i], k)
  }

  lemma {:induction false} RetainedOrOverwritten(limits: Limits, ops: seq<Op>, more: seq<Op>, k: (string, string),
                                                 d: Digest, until: nat)
    requires Retains(Run(limits, ops), k, d, until)
    requires forall i :: 0 <= i < |more| ==> Now(more[i]) < until
    ensures if SomeCompletesUnder(limits, ops, more, k) then Overwritten(Run(limits, ops + more), k)
            else Retains(Run(limits, ops + more), k, d, until)
    decreases |more|
  {
    hide Apply, Retains, Overwritten, CompletesUnder, SomeCompletesUnder;
    if more == [] {
      assert ops + more == ops;
      NoneCompletes(limits, ops, k);
    } else {
      var n := |more| - 1;
      var init, last := more[..n], more[n];
      assert more == init + [last];
      assert (ops + more)[..|ops + more| - 1] == ops + init;
      assert (ops + more)[|ops + more| - 1] == last;
      RetainedOrOverwritten(limits, ops, init, k, d, until);
      OneMoreCompletes(limits, ops, init, last, k);
      var s := Run(limits, ops + init);
      if SomeCompletesUnder(limits, ops, init, k) {
        StaysOverwritten(limits, s, last, k);
      } else {
        ApplyRetains(limits, s, last, k, d, until);
      }
    }
  }

  lemma NoneCompletes(limits: Limits, ops: seq<Op>, k: (string, string))
    ensures !SomeCompletesUnder(limits, ops, [], k)
  {
  }

  lemma OneMoreCompletes(limits: Limits, ops: seq<Op>, init: seq<Op>, last: Op, k: (string, string))
    ensures SomeCompletesUnder(limits, ops, init + [last], k) <==>
              SomeCompletesUnder(limits, ops, init, k) || CompletesUnder(Run(limits, ops + init), last, k)
  {
    hide Run, CompletesUnder;
    var more := init + [last];
    assert more[..|init|] == init && more[|init|] == last;
    forall i | 0 <= i < |init| ensures more[..i] == init[..i] && more[i] == init[i] {
    }
    if SomeCompletesUnder(limits, ops, init, k) {
      var i :| 0 <= i < |init| && CompletesUnder(Run(limits, ops + init[..i]), init[i], k);
      assert CompletesUnder(Run(limits, ops + more[..i]), more[i], k);
    }
  }

  /** A reference that retains an object until then does so through every run before then, including
      its own revocation and any number of collections, exactly when no upload of the same owner
      completes in that run under the reference's name. */
  lemma RetainedSurvivesExactly(limits: Limits, ops: seq<Op>, more: seq<Op>, k: (string, string),
                                d: Digest, until: nat)
    requires Retains(Run(limits, ops), k, d, until)
    requires forall i :: 0 <= i < |more| ==> Now(more[i]) < until
    ensures Retains(Run(limits, ops + more), k, d, until) <==> !SomeCompletesUnder(limits, ops, more, k)
  {
    hide Run, SomeCompletesUnder;
    RetainedOrOverwritten(limits, ops, more, k, d, until);
  }

  /** So whoever stays outside the `upload:` names keeps the object, whatever anyone else does. */
  lemma RetainedSurvives(limits: Limits, ops: seq<Op>, more: seq<Op>, k: (string, string), d: Digest, until: nat)
    requires Retains(Run(limits, ops), k, d, until) && !(UPLOAD_NAMES <= k.1)
    requires forall i :: 0 <= i < |more| ==> Now(more[i]) < until
    ensures Retains(Run(limits, ops + more), k, d, until)
  {
    hide Run, Retains;
    RetainedSurvivesExactly(limits, ops, more, k, d, until);
  }

  /** An unrevoked reference can always be read: its object is present after every run. */
  lemma UnrevokedIsPresent(limits: Limits, ops: seq<Op>, k: (string, string))
    requires Ordered(ops) && k in Run(limits, ops).references && Run(limits, ops).references[k].revoked.None?
    ensures Run(limits, ops).references[k].digest in Run(limits, ops).objects
  {
    hide Run, QuotaOk, KeysOk, IdsOk, SessionsOk, ObjectsOk;
    RunInv(limits, ops);
  }

  // ----- What the loss means

  /** A grant under an upload's name loses its retention when that upload completes: whatever only
      that grant protected can be collected at once, however long it was to be retained. */
  lemma NamedGrantLosesRetention(limits: Limits, s: Store, id: string, k: (string, string), d: Digest, until: nat,
                                 now: nat, limit: nat)
    requires id in s.sessions && k == (s.sessions[id].owner, UploadReferenceKey(id)) && Retains(s, k, d, until)
    requires var x := s.sessions[id];
             FinalizeCheck(s, x.owner, id, now) == Ok(None) && Ingest(limit, None, x.bytes, x.digest, x.size).Ok?
             && x.digest != d
    requires forall j :: j in s.references && j != k ==> !Protects(s.references[j], d, now)
    requires forall j :: j in s.sessions ==> !Expects(s.sessions[j], d, now)
    ensures var t := Apply(limits, s, Finalize(s.sessions[id].owner, id, now, limit, None));
            d !in Apply(limits, t, Collect({d}, now)).objects
  {
    var t := Apply(limits, s, Finalize(s.sessions[id].owner, id, now, limit, None));
    assert t.references[k].digest != d;
    assert !Reachable(t, d, now);
    assert d in t.objects;
  }

  // A run in which that happens: one owner uploads an object, grants it a retained reference under
  // the name of a second, still open upload, revokes the first reference, and completes the second.

  const SMALL: Limits := Limits(10, 10, 10, 10)

  const KEPT: Digest := DigestOf([7])

  const NOTHING: Digest := DigestOf([])

  ghost function First(offset: nat, state: UploadState): Session {
    Session(UploadId(1), "o", "a", KEPT, 1, "m", offset, state, 100,
            if state.Completed? then Some(Identity(KEPT, 1)) else None, if offset == 0 then [] else [7],
            if state.Completed? then 0 else 1)
  }

  ghost function Second(): Session {
    Session(UploadId(2), "o", "b", NOTHING, 0, "m", 0, Open, 100, None, [], 0)
  }

  ghost function NamedGrant(): GrantReference {
    GrantReference("o", UploadReferenceKey(UploadId(2)), KEPT, Other, "keep", 0, Some(50))
  }

  ghost function Losing(): seq<Op> {
    [Begin(BeginUpload("o", "a", KEPT, 1, "m", 0, 100)),
     Append("o", UploadId(1), 0, [7], 0),
     Finalize("o", UploadId(1), 0, 10, None),
     Begin(BeginUpload("o", "b", NOTHING, 0, "m", 0, 100)),
     Grant(NamedGrant()),
     Revoke("o", UploadReferenceKey(UploadId(1)), 0),
     Finalize("o", UploadId(2), 1, 10, None),
     Collect({KEPT}, 1)]
  }

  ghost function WithFirst(x: Session): Store {
    Store(1, map[UploadId(1) := x], map[("o", "a") := UploadId(1)], map[], map[])
  }

  /** The first upload is complete, and its reference is as given. */
  ghost function WithObject(revoked: Option<nat>): Store {
    var k := UploadReferenceKey(UploadId(1));
    WithFirst(First(1, Completed)).(
      objects := map[KEPT := 1],
      references := map[("o", k) := Reference("o", k, KEPT, Upload, "completed upload", 0, None, revoked)])
  }

  ghost function WithBoth(revoked: Option<nat>, granted: bool): Store {
    var s := WithObject(revoked);
    s.(nextId := 2, sessions := s.sessions[UploadId(2) := Second()],
       sessionKeys := s.sessionKeys[("o", "b") := UploadId(2)],
       references := if granted then s.references[("o", NamedGrant().key) := Granted(NamedGrant())] else s.references)
  }

  lemma FirstOpens()
    ensures Apply(SMALL, EMPTY, Losing()[0]) == WithFirst(First(0, Open))
  {
    hide UploadId;
    assert EMPTY.objects.Keys == {} && EMPTY.sessions.Keys == {};
    assert !Blank("o") && !Blank("a") && !Blank("m") by {
      assert "o"[0] == 'o' && "a"[0] == 'a' && "m"[0] == 'm';
    }
  }

  lemma FirstFills()
    ensures Apply(SMALL, WithFirst(First(0, Open)), Losing()[1]) == WithFirst(First(1, Open))
  {
    hide UploadId, UploadReferenceKey;
    assert First(0, Open).bytes + [7] == [7];
  }

  lemma FirstCompletes()
    ensures Apply(SMALL, WithFirst(First(1, Open)), Losing()[2]) == WithObject(None)
  {
    hide UploadId, UploadReferenceKey;
  }

  lemma SecondOpens()
    requires QuotaOk(SMALL, WithObject(None), 0)
    ensures Apply(SMALL, WithObject(None), Losing()[3]) == WithBoth(None, false)
  {
    hide UploadId, UploadReferenceKey, Stored, Reserved, OwnerStored, OwnerReserved;
    assert OwnerOk(SMALL, WithObject(None), "o", 0);
    assert !Blank("o") && !Blank("b") && !Blank("m") by {
      assert "o"[0] == 'o' && "b"[0] == 'b' && "m"[0] == 'm';
    }
  }

  lemma KeysAreDistinct()
    ensures UploadId(1) != UploadId(2)
    ensures UploadReferenceKey(UploadId(1)) != UploadReferenceKey(UploadId(2))
    ensures forall n :: !Blank(UploadReferenceKey(UploadId(n)))
  {
    hide UploadId;
    if UploadId(1) == UploadId(2) {
      UploadIdInjective(1, 2);
    }
    if UploadReferenceKey(UploadId(1)) == UploadReferenceKey(UploadId(2)) {
      UploadKeyInjective(UploadId(1), UploadId(2));
    }
    forall n ensures !Blank(UploadReferenceKey(UploadId(n))) {
      assert UploadReferenceKey(UploadId(n))[0] == 'u';
    }
  }

  /** A key that is written again takes its new value, whatever was written in between. */
  lemma WrittenAgain<K, V>(k: K, first: V, again: V, other: K, v: V)
    requires k != other
    ensures map[k := first][other := v][k := again] == map[k := again][other := v]
  {
  }

  lemma RevokeValue(s: Store, owner: string, key: string, now: nat)
    requires !Blank(owner) && !Blank(key) && (owner, key) in s.references
    requires s.references[(owner, key)].revoked.None?
    ensures AfterRevoke(s, owner, key, now)
            == s.(references :=
                    s.references[(owner, key) := s.references[(owner, key)].(revoked := Some(now))])
  {
    hide Blank;
  }

  lemma FirstRevoked()
    ensures Apply(SMALL, WithBoth(None, true), Losing()[5]) == WithBoth(Some(0), true)
  {
    hide UploadId, UploadReferenceKey, AfterBegin, AfterAppend, AfterFinalize, AfterGrant, AfterPrune, AfterCollect,
      AfterRevoke, Blank;
    var s, key := WithBoth(None, true), UploadReferenceKey(UploadId(1));
    var kept := Reference("o", key, KEPT, Upload, "completed upload", 0, None, None);
    KeysAreDistinct();
    NamedIsNotBlank();
    RevokeValue(s, "o", key, 0);
    WrittenAgain(("o", key), kept, kept.(revoked := Some(0)), ("o", NamedGrant().key), Granted(NamedGrant()));
  }

  lemma NamedIsNotBlank()
    ensures !Blank("o")
  {
    assert "o"[0] == 'o';
  }

  lemma GrantTaken()
    ensures Apply(SMALL, WithBoth(None, false), Losing()[4]) == WithBoth(None, true)
  {
    hide UploadId, UploadReferenceKey, OwnerStored, OwnerReserved;
    KeysAreDistinct();
    var s := WithBoth(None, false);
    var k := ("o", UploadReferenceKey(UploadId(1)));
    assert k in s.references && s.references[k].digest == KEPT;
    assert Active(s.references, "o", KEPT);
    assert !Blank("o") && !Blank("keep") by {
      assert "o"[0] == 'o' && "keep"[0] == 'k';
    }
  }

  lemma RunStep(limits: Limits, ops: seq<Op>, n: nat)
    requires n < |ops|
    ensures Run(limits, ops[..n + 1]) == Apply(limits, Run(limits, ops[..n]), ops[n])
  {
    hide Apply;
    assert ops[..n + 1][..n] == ops[..n];
  }

  lemma LosingReaches()
    ensures Run(SMALL, Losing()[..6]) == WithBoth(Some(0), true)
  {
    hide Apply, QuotaOk, RecordsOk, WithBoth, WithObject, WithFirst;
    var ops := Losing();
    assert ops[..0] == [];
    RunStep(SMALL, ops, 0);
    FirstOpens();
    RunStep(SMALL, ops, 1);
    RunStep(SMALL, ops, 2);
    FirstFills();
    FirstCompletes();
    assert Ordered(ops[..3]) && Clock(ops[..3]) == 0;
    RunInv(SMALL, ops[..3]);
    RunStep(SMALL, ops, 3);
    SecondOpens();
    RunStep(SMALL, ops, 4);
    RunStep(SMALL, ops, 5);
    GrantTaken();
    FirstRevoked();
  }

  lemma LosingLoses()
    ensures var k := ("o", UploadReferenceKey(UploadId(2)));
            Retains(WithBoth(Some(0), true), k, KEPT, 50)
    ensures var t := Apply(SMALL, WithBoth(Some(0), true), Losing()[6]);
            KEPT !in Apply(SMALL, t, Losing()[7]).objects
  {
    hide UploadId, UploadReferenceKey, Apply;
    KeysAreDistinct();
    var s := WithBoth(Some(0), true);
    var k := ("o", UploadReferenceKey(UploadId(2)));
    assert s.sessions[UploadId(2)] == Second();
    NamedGrantLosesRetention(SMALL, s, UploadId(2), k, KEPT, 50, 1, 10);
  }

  /** The object was to be retained until 50, and is gone at 1. */
  lemma RetentionCanBeLost()
    ensures Ordered(Losing()) && Now(Losing()[7]) == 1
    ensures Retains(Run(SMALL, Losing()[..6]), ("o", UploadReferenceKey(UploadId(2))), KEPT, 50)
    ensures KEPT !in Run(SMALL, Losing()).objects
  {
    hide Apply, Retains, WithBoth;
    var ops := Losing();
    LosingReaches();
    LosingLoses();
    RunStep(SMALL, ops, 6);
    RunStep(SMALL, ops, 7);
    assert ops[..8] == ops;
  }

  // ----- Objects that the controller records itself

  function RecordLocal(s: Store, owner: string, artifact: Identity): Result<Store, UploadError> {
    if Blank(owner) then Err(Corrupt)
    else if artifact.digest in s.objects && s.objects[artifact.digest] != artifact.size then Err(Corrupt)
    else Ok(s.(objects := s.objects[artifact.digest := artifact.size]))
  }

  /** Recording an object checks no quota, so the total holds afterwards exactly when there was room.
      An object that is already recorded adds nothing. */
  lemma RecordLocalQuota(limits: Limits, s: Store, owner: string, artifact: Identity, now: nat)
    requires RecordLocal(s, owner, artifact).Ok?
    ensures var t := RecordLocal(s, owner, artifact).value;
            TotalOk(limits, t, now) <==>
              Stored(s) + Reserved(s, now) + (if artifact.digest in s.objects then 0 else artifact.size) <= limits.total
  {
    var t := RecordLocal(s, owner, artifact).value;
    SessionsSame(s, t, owner, now);
    if artifact.digest in s.objects {
      assert t.objects == s.objects;
      assert Stored(t) == Stored(s);
    } else {
      assert t.objects.Keys == s.objects.Keys + {artifact.digest};
      SumInsert(s.objects.Keys, SizeIn(s.objects), SizeIn(t.objects), artifact.digest);
    }
  }

  /** An artifact that is larger than the whole quota is recorded in an empty store. */
  lemma LocalArtifactExceedsQuota()
    ensures var t := RecordLocal(EMPTY, "o", Identity(KEPT, 11));
            TotalOk(SMALL, EMPTY, 0) && t.Ok? && !TotalOk(SMALL, t.value, 0)
  {
    assert EMPTY.objects.Keys == {} && EMPTY.sessions.Keys == {};
    assert "o"[0] == 'o';
    RecordLocalQuota(SMALL, EMPTY, "o", Identity(KEPT, 11), 0);
  }
}
