/**
 The in-memory upload store. Its fields are updated in place, and every method is proved to leave
 exactly the state, and to give exactly the answer, that the operation's specification names.
 */
module UploadStore {
  import opened Outcomes
  import opened Texts
  import opened Sums
  import opened UploadRecords
  import opened UploadInvariant

  datatype Report = Report(collected: nat, reclaimed: nat)

  /** The contents that an owner actively refers to carry all of the owner's stored bytes. */
  lemma OwnerStoredByDigest(s: Store, owner: string, active: set<Digest>)
    requires forall d :: d in active <==> d in s.objects && Active(s.references, owner, d)
    ensures OwnerStored(s, owner) == Sum(active, SizeIn(s.objects))
  {
    hide Active;
    var weight := SizeOf(s.objects, s.references, owner);
    SumSplit(s.objects.Keys, active, weight);
    SumSame(active, weight, SizeIn(s.objects));
    Nothing(s.objects.Keys - active, weight);
  }

  lemma {:induction false} Nothing(keys: set<Digest>, weight: Digest -> nat)
    requires forall k :: k in keys ==> weight(k) == 0
    ensures Sum(keys, weight) == 0
    decreases |keys|
  {
    if keys != {} {
      var k :| k in keys;
      SumRemove(keys, weight, k);
      Nothing(keys - {k}, weight);
    }
  }

  class MemoryUploadMetadataStore {
    const limits: Limits
    var nextId: nat
    var sessions: map<string, Session>
    var sessionKeys: map<(string, string), string>
    var objects: map<Digest, nat>
    var references: map<(string, string), Reference>

    function Contents(): Store
      reads this
    {
      Store(nextId, sessions, sessionKeys, objects, references)
    }

    ghost predicate Valid()
      reads this
    {
      KeysOk(Contents()) && IdsOk(Contents())
    }

    constructor (limits: Limits)
      ensures this.limits == limits && Contents() == EMPTY && Valid()
    {
      this.limits := limits;
      nextId, sessions, sessionKeys, objects, references := 0, map[], map[], map[], map[];
    }

    // ----- Quota sums

    method TotalStored() returns (sum: nat)
      ensures sum == Stored(Contents())
    {
      var rest := objects.Keys;
      sum := 0;
      while rest != {}
        invariant rest <= objects.Keys && sum + Sum(rest, SizeIn(objects)) == Stored(Contents())
        decreases |rest|
      {
        var d :| d in rest;
        SumRemove(rest, SizeIn(objects), d);
        sum := sum + objects[d];
        rest := rest - {d};
      }
    }

    method TotalReserved(now: nat) returns (sum: nat)
      ensures sum == Reserved(Contents(), now)
    {
      var rest := sessions.Keys;
      sum := 0;
      while rest != {}
        invariant rest <= sessions.Keys && sum + Sum(rest, LiveIn(sessions, now)) == Reserved(Contents(), now)
        decreases |rest|
      {
        var id :| id in rest;
        SumRemove(rest, LiveIn(sessions, now), id);
        sum := sum + Live(sessions[id], now);
        rest := rest - {id};
      }
    }

    method OwnerReservedBytes(owner: string, now: nat) returns (sum: nat)
      ensures sum == OwnerReserved(Contents(), owner, now)
    {
      var rest := sessions.Keys;
      sum := 0;
      while rest != {}
        invariant rest <= sessions.Keys
        invariant sum + Sum(rest, LiveOf(sessions, owner, now)) == OwnerReserved(Contents(), owner, now)
        decreases |rest|
      {
        var id :| id in rest;
        SumRemove(rest, LiveOf(sessions, owner, now), id);
        if sessions[id].owner == owner {
          sum := sum + Live(sessions[id], now);
        }
        rest := rest - {id};
      }
    }

    method ActiveDigests(owner: string) returns (digests: set<Digest>)
      ensures forall d :: d in digests <==> Active(references, owner, d)
    {
      var rest := references.Keys;
      digests := {};
      while rest != {}
        invariant rest <= references.Keys
        invariant forall d :: d in digests ==> Active(references, owner, d)
        invariant forall k | k in references && k !in rest ::
                    references[k].owner == owner && references[k].revoked.None? ==> references[k].digest in digests
        decreases |rest|
      {
        var k :| k in rest;
        if references[k].owner == owner && references[k].revoked.None? {
          digests := digests + {references[k].digest};
        }
        rest := rest - {k};
      }
    }

    method OwnerStoredBytes(owner: string) returns (sum: nat)
      ensures sum == OwnerStored(Contents(), owner)
    {
      hide Active, Sum, SizeIn, OwnerStored;
      var digests := ActiveDigests(owner);
      ghost var active := digests * objects.Keys;
      OwnerStoredByDigest(Contents(), owner, active);
      var rest := digests;
      sum := 0;
      while rest != {}
        invariant rest <= digests
        invariant sum + Sum(rest * objects.Keys, SizeIn(objects)) == OwnerStored(Contents(), owner)
        decreases |rest|
      {
        var d :| d in rest;
        OneMoreCounted(objects, rest, d);
        if d in objects {
          sum := sum + objects[d];
        }
        rest := rest - {d};
      }
      assert {} * objects.Keys == {};
      NothingRemoved(objects);
    }

    method OwnerHasActiveDigest(owner: string, digest: Digest) returns (found: bool)
      ensures found <==> Active(references, owner, digest)
    {
      var digests := ActiveDigests(owner);
      found := digest in digests;
    }

    // ----- Sessions

    method Begin(q: BeginUpload) returns (r: Result<Session, UploadError>)
      requires Valid()
      modifies this
      ensures Valid() && Contents() == AfterBegin(limits, old(Contents()), q)
      ensures r == BeginAnswer(limits, old(Contents()), q)
    {
      hide Stored, Reserved, OwnerStored, OwnerReserved, UploadId;
      var valid := ValidateBegin(limits, q);
      if valid.Err? {
        return Err(valid.error);
      }
      if (q.owner, q.key) in sessionKeys {
        var id := sessionKeys[(q.owner, q.key)];
        if SameUpload(sessions[id], q) {
          return Ok(sessions[id]);
        }
        return Err(ConflictingUploadKey);
      }
      var stored := TotalStored();
      var reserved := TotalReserved(q.now);
      var total := Enforce(TotalQuota, limits.total, stored + reserved, q.size);
      if total.Err? {
        return Err(total.error);
      }
      var ownerStored := OwnerStoredBytes(q.owner);
      var ownerReserved := OwnerReservedBytes(q.owner, q.now);
      var own := Enforce(OwnerQuota, limits.perOwner, ownerStored + ownerReserved, q.size);
      if own.Err? {
        return Err(own.error);
      }
      ghost var before := Contents();
      var x := Opened(Contents(), q);
      nextId := nextId + 1;
      sessionKeys := sessionKeys[(q.owner, q.key) := x.id];
      sessions := sessions[x.id := x];
      NextIdIsNew(before);
      OpenedKeys(before, Contents(), q);
      return Ok(x);
    }

    method Append(owner: string, id: string, offset: nat, chunk: Bytes, now: nat) returns (r: Result<nat, UploadError>)
      requires Valid()
      modifies this
      ensures Valid() && Contents() == AfterAppend(limits, old(Contents()), owner, id, offset, chunk, now)
      ensures r == AppendAnswer(limits, old(Contents()), owner, id, offset, chunk, now)
    {
      hide UploadId, KeysOk, IdsOk;
      if |chunk| > limits.maxChunk {
        return Err(ChunkTooLarge(limits.maxChunk, |chunk|));
      }
      if id !in sessions {
        return Err(NotFound);
      }
      var x := sessions[id];
      if x.owner != owner {
        return Err(OwnerMismatch);
      }
      if x.state != Open {
        return Err(InvalidState(x.state));
      }
      if now >= x.expires {
        return Err(Expired);
      }
      if offset != x.offset {
        return Err(OffsetConflict(x.offset, offset));
      }
      var next := offset + |chunk|;
      if next > x.size || next > limits.maxUpload {
        return Err(SizeLimitExceeded(if x.size < limits.maxUpload then x.size else limits.maxUpload, next));
      }
      ghost var before := Contents();
      sessions := sessions[id := x.(bytes := x.bytes + chunk, offset := next)];
      SessionReplacedKeeps(before, Contents(), id);
      return Ok(next);
    }

    /** `limit` and `fault` are the artifact store's: its size bound and whether it fails. */
    method Finalize(owner: string, id: string, now: nat, limit: nat, fault: Option<ArtifactError>)
      returns (r: Result<Identity, UploadError>)
      requires Valid()
      modifies this
      ensures Valid() && Contents() == AfterFinalize(old(Contents()), owner, id, now, limit, fault)
      ensures r == FinalizeAnswer(old(Contents()), owner, id, now, limit, fault)
    {
      hide UploadId, KeysOk, IdsOk, UploadReferenceKey, Ingest, IsFinal, UploadReference, Published;
      if id !in sessions {
        return Err(NotFound);
      }
      var x := sessions[id];
      if x.owner != owner {
        return Err(OwnerMismatch);
      }
      if x.state == Completed {
        return if x.artifact.Some? then Ok(x.artifact.value) else Err(Corrupt);
      }
      if x.state != Open && x.state != Finalizing {
        return Err(InvalidState(x.state));
      }
      if now >= x.expires {
        return Err(Expired);
      }
      if x.offset != x.size {
        return Err(IncompleteUpload(x.size, x.offset));
      }
      ghost var before := Contents();
      sessions := sessions[id := x.(state := Finalizing)];
      SessionReplacedKeeps(before, Contents(), id);
      PublishedOver(before, id, Identity(x.digest, x.size), now);
      var ingested := Ingest(limit, fault, x.bytes, x.digest, x.size);
      if ingested.Err? {
        if IsFinal(ingested.error) {
          Fail(id);
          assert sessions == before.sessions[id := x.(state := Failed, reserved := 0)];
        }
        return Err(Artifact(ingested.error));
      }
      IngestIdentity(limit, fault, x.bytes, x.digest, x.size);
      Publish(id, ingested.value, now);
      return Ok(ingested.value);
    }

    /** Releases the reservation of an upload that cannot succeed any more. */
    method Fail(id: string)
      requires Valid() && id in sessions
      modifies this
      ensures Valid()
      ensures Contents() == old(Contents()).(
                sessions := old(sessions)[id := old(sessions)[id].(state := Failed, reserved := 0)])
    {
      hide UploadId, KeysOk, IdsOk;
      ghost var before := Contents();
      sessions := sessions[id := sessions[id].(state := Failed, reserved := 0)];
      SessionReplacedKeeps(before, Contents(), id);
    }

    /** Publishes the object, its reference and the completed session. */
    method Publish(id: string, artifact: Identity, now: nat)
      requires Valid() && id in sessions
      modifies this
      ensures Valid() && Contents() == Published(old(Contents()), id, artifact, now)
    {
      hide UploadId, KeysOk, IdsOk, UploadReferenceKey, UploadReference;
      ghost var before := Contents();
      var x := sessions[id];
      if artifact.digest !in objects {
        objects := objects[artifact.digest := artifact.size];
      }
      references := references[(x.owner, UploadReferenceKey(id)) := UploadReference(x, id, artifact, now)];
      sessions := sessions[id := x.(state := Completed, artifact := Some(artifact), reserved := 0)];
      SessionReplacedKeeps(before, Contents(), id);
    }

    method PruneExpired(now: nat) returns (pruned: nat)
      requires Valid()
      modifies this
      ensures Valid() && Contents() == AfterPrune(old(Contents()), now)
      ensures pruned == |set id | id in old(sessions) && Expirable(old(sessions)[id], now)|
    {
      hide UploadId, Without, AfterPrune, KeysOk, IdsOk;
      var expired := set id | id in sessions && Expirable(sessions[id], now);
      var rest := expired;
      ghost var before := Contents();
      WithoutNone(before);
      assert expired - expired == {};
      while rest != {}
        invariant rest <= expired
        invariant Contents() == Without(before, expired - rest)
        decreases |rest|
      {
        var id :| id in rest;
        WithoutOneMore(before, expired - rest, id);
        var x := sessions[id];
        sessions := sessions - {id};
        sessionKeys := sessionKeys - {(x.owner, x.key)};
        assert expired - (rest - {id}) == expired - rest + {id};
        rest := rest - {id};
      }
      assert expired - {} == expired;
      WithoutExpired(before, expired, now);
      return |expired|;
    }

    // ----- References

    method Grant(q: GrantReference) returns (r: Result<Reference, UploadError>)
      requires Valid()
      modifies this
      ensures Valid() && Contents() == AfterGrant(limits, old(Contents()), q)
      ensures r == GrantAnswer(limits, old(Contents()), q)
    {
      hide UploadId, KeysOk, IdsOk, Active, OwnerStored, OwnerReserved;
      var valid := ValidateGrant(q);
      if valid.Err? {
        return Err(valid.error);
      }
      if (q.owner, q.key) in references {
        var existing := references[(q.owner, q.key)];
        if SameGrant(existing, q) {
          return Ok(existing);
        }
        return Err(if existing.revoked.Some? then ReferenceRevoked else ConflictingReferenceKey);
      }
      if q.digest !in objects {
        return Err(NotFound);
      }
      var owned := OwnerHasActiveDigest(q.owner, q.digest);
      if !owned {
        var stored := OwnerStoredBytes(q.owner);
        var reserved := OwnerReservedBytes(q.owner, q.now);
        var allowed := Enforce(OwnerQuota, limits.perOwner, stored + reserved, objects[q.digest]);
        if allowed.Err? {
          return Err(allowed.error);
        }
      }
      ghost var before := Contents();
      references := references[(q.owner, q.key) := Granted(q)];
      IndexesKept(before, Contents());
      return Ok(Granted(q));
    }

    method Revoke(owner: string, key: string, now: nat) returns (r: Result<Reference, UploadError>)
      requires Valid()
      modifies this
      ensures Valid() && Contents() == AfterRevoke(old(Contents()), owner, key, now)
      ensures r == RevokeAnswer(old(Contents()), owner, key, now)
    {
      hide UploadId, KeysOk, IdsOk;
      if Blank(owner) || Blank(key) {
        return Err(InvalidRequest);
      }
      if (owner, key) !in references {
        return Err(NotFound);
      }
      ghost var before := Contents();
      if references[(owner, key)].revoked.None? {
        references := references[(owner, key) := references[(owner, key)].(revoked := Some(now))];
      }
      assert references == before.references[(owner, key) := references[(owner, key)]];
      IndexesKept(before, Contents());
      return Ok(references[(owner, key)]);
    }

    // ----- Collection

    /** The first object in digest order, after those taken, that nothing reaches. */
    method NextUnreachable(now: nat, taken: set<Digest>, rank: Digest -> nat) returns (next: Option<Digest>)
      ensures next.Some? ==>
                && next.value in objects && next.value !in taken && !Reachable(Contents(), next.value, now)
                && forall e :: e in objects && e !in taken && !Reachable(Contents(), e, now) ==> rank(next.value) <= rank(e)
      ensures next.None? ==> forall e :: e in objects && !Reachable(Contents(), e, now) ==> e in taken
    {
      hide Reachable;
      next := None;
      var rest := objects.Keys - taken;
      while rest != {}
        invariant rest <= objects.Keys - taken
        invariant next.Some? ==>
                    next.value in objects && next.value !in taken && !Reachable(Contents(), next.value, now)
        invariant forall e :: e in objects && e !in taken && e !in rest && !Reachable(Contents(), e, now) ==>
                    next.Some? && rank(next.value) <= rank(e)
        decreases |rest|
      {
        var d :| d in rest;
        if !Reachable(Contents(), d, now) && (next.None? || rank(d) <= rank(next.value)) {
          next := Some(d);
        }
        rest := rest - {d};
      }
    }

    /** The first `limit` objects in digest order that nothing reaches; all of them when fewer. */
    method Candidates(now: nat, limit: nat, rank: Digest -> nat) returns (found: seq<Digest>)
      requires forall d, e :: rank(d) == rank(e) ==> d == e
      ensures FirstUnreachable(Contents(), found, now, rank) && |found| <= limit
      ensures |found| < limit ==> forall d :: d in objects && !Reachable(Contents(), d, now) ==> d in found
    {
      hide Reachable;
      found := [];
      ghost var s := Contents();
      while |found| < limit
        invariant FirstUnreachable(s, found, now, rank) && |found| <= limit
      {
        var next := NextUnreachable(now, Members(found), rank);
        if next.None? {
          return;
        }
        found := found + [next.value];
      }
    }

    /** Removes candidates in order until the artifact store, as told by `removable`, fails to. */
    method RemoveAll(candidates: seq<Digest>, removable: Digest -> bool) returns (removed: nat, report: Report)
      requires forall i :: 0 <= i < |candidates| ==> candidates[i] in objects
      requires forall i, j :: 0 <= i < j < |candidates| ==> candidates[i] != candidates[j]
      modifies this`objects
      ensures removed <= |candidates| && objects == old(objects) - Members(candidates[..removed])
      ensures report == Report(removed, Sum(Members(candidates[..removed]), SizeIn(old(objects))))
    {
      hide Sum, SizeIn;
      ghost var before := objects;
      report, removed := Report(0, 0), 0;
      NothingRemoved(before);
      assert Members(candidates[..0]) == {};
      while removed < |candidates|
        invariant 0 <= removed <= |candidates| && objects == before - Members(candidates[..removed])
        invariant report == Report(removed, Sum(Members(candidates[..removed]), SizeIn(before)))
      {
        var d := candidates[removed];
        if !removable(d) {
          return;
        }
        assert candidates[..removed + 1] == candidates[..removed] + [d];
        assert Members(candidates[..removed + 1]) == Members(candidates[..removed]) + {d};
        OneMoreRemoved(before, Members(candidates[..removed]), d);
        report := Report(report.collected + 1, report.reclaimed + objects[d]);
        objects := objects - {d};
        removed := removed + 1;
      }
    }

    /** `rank` is a digest as a number; the first unreachable objects go first. */
    method CollectGarbage(now: nat, limit: nat, removable: Digest -> bool, rank: Digest -> nat)
      returns (r: Result<Report, UploadError>, ghost removed: set<Digest>)
      requires Valid()
      requires forall d, e :: rank(d) == rank(e) ==> d == e
      modifies this
      ensures Valid() && Contents() == AfterCollect(old(Contents()), removed, now)
      ensures Collectable(old(Contents()), removed, now) && |removed| <= limit
      ensures forall d, e :: d in removed && e in old(objects) && e !in removed && !Reachable(old(Contents()), e, now) ==>
                rank(d) < rank(e)
      ensures limit == 0 ==> r == Err(InvalidRequest)
      ensures r.Ok? ==>
                && r.value == Report(|removed|, Sum(removed, SizeIn(old(objects))))
                && Stored(old(Contents())) == Stored(Contents()) + r.value.reclaimed
                && (|removed| < limit ==>
                      forall d :: d in old(objects) && !Reachable(old(Contents()), d, now) ==> d !in objects)
    {
      hide Reachable, UploadId, KeysOk, IdsOk, Stored, SizeIn, Sum;
      ghost var before := Contents();
      assert objects - {} == objects;
      if limit == 0 {
        return Err(InvalidRequest), {};
      }
      var candidates := Candidates(now, limit, rank);
      var count, report := RemoveAll(candidates, removable);
      removed := Members(candidates[..count]);
      FirstOnes(before, candidates, count, now, rank);
      CollectConserves(before, removed, now);
      IndexesKept(before, Contents());
      if count < |candidates| {
        return Err(Artifact(IoFault)), removed;
      }
      assert candidates[..count] == candidates;
      return Ok(report), removed;
    }
  }

  function Members(digests: seq<Digest>): set<Digest> {
    set d | d in digests
  }

  /** These are the first unreachable objects, in digest order. */
  ghost predicate FirstUnreachable(s: Store, found: seq<Digest>, now: nat, rank: Digest -> nat) {
    && (forall i :: 0 <= i < |found| ==> found[i] in s.objects && !Reachable(s, found[i], now))
    && (forall i, j :: 0 <= i < j < |found| ==> rank(found[i]) < rank(found[j]))
    && (forall i, e :: 0 <= i < |found| && e in s.objects && e !in found && !Reachable(s, e, now) ==>
          rank(found[i]) < rank(e))
  }

  /** Every prefix of them comes first, too. */
  lemma FirstOnes(s: Store, found: seq<Digest>, n: nat, now: nat, rank: Digest -> nat)
    requires FirstUnreachable(s, found, now, rank) && n <= |found|
    ensures Collectable(s, Members(found[..n]), now) && |Members(found[..n])| == n
    ensures forall d, e | d in Members(found[..n]) && e in s.objects && e !in Members(found[..n]) ::
              !Reachable(s, e, now) ==> rank(d) < rank(e)
  {
    hide Reachable;
    DistinctMembers(found[..n]);
    forall d, e | d in Members(found[..n]) && e in s.objects && e !in Members(found[..n]) && !Reachable(s, e, now)
      ensures rank(d) < rank(e)
    {
      var i :| 0 <= i < n && found[i] == d;
      if e in found {
        var j :| 0 <= j < |found| && found[j] == e;
        assert found[..n][i] == d;
        assert e !in found[..n];
      }
    }
  }

  lemma {:induction false} DistinctMembers(digests: seq<Digest>)
    requires forall i, j :: 0 <= i < j < |digests| ==> digests[i] != digests[j]
    ensures |Members(digests)| == |digests|
  {
    if digests != [] {
      var init, last := digests[..|digests| - 1], digests[|digests| - 1];
      DistinctMembers(init);
      assert digests == init + [last];
      assert Members(digests) == Members(init) + {last};
    }
  }

  lemma NothingRemoved(objects: map<Digest, nat>)
    ensures Sum({}, SizeIn(objects)) == 0 && objects - {} == objects
  {
  }

  /** Counting one digest of the rest, if it is stored. */
  lemma OneMoreCounted(objects: map<Digest, nat>, rest: set<Digest>, d: Digest)
    requires d in rest
    ensures Sum(rest * objects.Keys, SizeIn(objects))
            == Sum((rest - {d}) * objects.Keys, SizeIn(objects)) + (if d in objects then objects[d] else 0)
  {
    hide Sum;
    if d in objects {
      SumRemove(rest * objects.Keys, SizeIn(objects), d);
      assert (rest - {d}) * objects.Keys == rest * objects.Keys - {d};
    } else {
      assert (rest - {d}) * objects.Keys == rest * objects.Keys;
    }
  }

  lemma OneMoreRemoved(objects: map<Digest, nat>, removed: set<Digest>, d: Digest)
    requires d in objects && d !in removed
    ensures d in objects - removed && objects - removed - {d} == objects - (removed + {d})
    ensures Sum(removed + {d}, SizeIn(objects)) == Sum(removed, SizeIn(objects)) + (objects - removed)[d]
  {
    hide Sum;
    SumInsert(removed, SizeIn(objects), SizeIn(objects), d);
    assert objects - removed - {d} == objects - (removed + {d});
  }

  /** The store without some sessions and without the keys that led to them. */
  ghost function Without(s: Store, gone: set<string>): Store {
    s.(sessions := s.sessions - gone,
       sessionKeys := map k | k in s.sessionKeys && s.sessionKeys[k] !in gone :: s.sessionKeys[k])
  }

  lemma WithoutNone(s: Store)
    ensures Without(s, {}) == s
  {
  }

  lemma WithoutOneMore(s: Store, gone: set<string>, id: string)
    requires KeysOk(s) && id in s.sessions && id !in gone
    ensures id in Without(s, gone).sessions
    ensures var t := Without(s, gone);
            var x := t.sessions[id];
            Without(s, gone + {id}) == t.(sessions := t.sessions - {id}, sessionKeys := t.sessionKeys - {(x.owner, x.key)})
  {
    hide UploadId;
    var t := Without(s, gone);
    var x := t.sessions[id];
    assert Without(s, gone + {id}).sessionKeys == t.sessionKeys - {(x.owner, x.key)};
  }

  lemma WithoutExpired(s: Store, expired: set<string>, now: nat)
    requires KeysOk(s) && IdsOk(s)
    requires expired == set id | id in s.sessions && Expirable(s.sessions[id], now)
    ensures Without(s, expired) == AfterPrune(s, now)
    ensures KeysOk(Without(s, expired)) && IdsOk(Without(s, expired))
  {
    hide UploadId, IdsOk;
    IdsKept(s, Without(s, expired));
  }

  /** Marking a session as finalizing first does not change what is published. */
  lemma PublishedOver(s: Store, id: string, artifact: Identity, now: nat)
    requires id in s.sessions
    ensures var during := s.(sessions := s.sessions[id := s.sessions[id].(state := Finalizing)]);
            Published(during, id, artifact, now) == Published(s, id, artifact, now)
  {
    hide UploadReferenceKey;
    var during := s.(sessions := s.sessions[id := s.sessions[id].(state := Finalizing)]);
    assert Published(during, id, artifact, now).sessions == Published(s, id, artifact, now).sessions;
  }

  lemma IngestIdentity(limit: nat, fault: Option<ArtifactError>, bytes: Bytes, digest: Digest, size: nat)
    ensures Ingest(limit, fault, bytes, digest, size).Ok? ==>
              Ingest(limit, fault, bytes, digest, size).value == Identity(digest, size)
  {
  }

  lemma SessionReplacedKeeps(s: Store, t: Store, id: string)
    requires KeysOk(s) && IdsOk(s) && id in s.sessions && id in t.sessions
    requires t.sessions == s.sessions[id := t.sessions[id]] && t.sessionKeys == s.sessionKeys && t.nextId == s.nextId
    requires t.sessions[id].owner == s.sessions[id].owner && t.sessions[id].key == s.sessions[id].key
    ensures KeysOk(t) && IdsOk(t)
  {
  }

  lemma IndexesKept(s: Store, t: Store)
    requires KeysOk(s) && IdsOk(s)
    requires t.sessions == s.sessions && t.sessionKeys == s.sessionKeys && t.nextId == s.nextId
    ensures KeysOk(t) && IdsOk(t)
  {
  }
}
