/** What every operation of the upload store keeps, as long as its clock does not run backwards. */
module UploadInvariant {
  import opened Outcomes
  import opened Sums
  import opened UploadRecords
  import RecordText

  // ----- The invariant

  /** The two indexes of a session are each other's inverse. */
  ghost predicate KeysOk(s: Store) {
    && (forall k :: k in s.sessionKeys ==>
          && s.sessionKeys[k] in s.sessions
          && (s.sessions[s.sessionKeys[k]].owner, s.sessions[s.sessionKeys[k]].key) == k)
    && (forall id :: id in s.sessions ==>
          && (s.sessions[id].owner, s.sessions[id].key) in s.sessionKeys
          && s.sessionKeys[(s.sessions[id].owner, s.sessions[id].key)] == id)
  }

  ghost predicate Issued(s: Store, id: string) {
    exists n :: 1 <= n <= s.nextId && id == UploadId(n)
  }

  ghost predicate IdsOk(s: Store) {
    forall id :: id in s.sessions ==> Issued(s, id)
  }

  /** A session's bytes are within its limits, and its reservation matches its state. */
  predicate SessionOk(limits: Limits, id: string, x: Session) {
    && x.id == id
    && x.offset == |x.bytes| <= x.size <= limits.maxUpload
    && match x.state
       case Open => x.reserved == x.size && x.artifact.None?
       case Finalizing => x.reserved == x.size == x.offset && x.artifact.None?
       case Completed =>
         x.reserved == 0 && x.artifact == Some(Identity(DigestOf(x.bytes), |x.bytes|)) && x.digest == DigestOf(x.bytes)
       case Failed => x.reserved == 0 && x.artifact.None?
  }

  ghost predicate SessionsOk(limits: Limits, s: Store) {
    forall id :: id in s.sessions ==> SessionOk(limits, id, s.sessions[id])
  }

  ghost predicate ObjectsOk(s: Store) {
    forall d :: d in s.objects ==> d.OfBytes? && s.objects[d] == |d.bytes|
  }

  /** The object of every unrevoked reference is present. */
  ghost predicate ReferencesOk(s: Store) {
    forall k :: k in s.references ==>
      && (s.references[k].owner, s.references[k].key) == k
      && (s.references[k].revoked.None? ==> s.references[k].digest in s.objects)
  }

  ghost predicate TotalOk(limits: Limits, s: Store, now: nat) {
    Stored(s) + Reserved(s, now) <= limits.total
  }

  ghost predicate OwnerOk(limits: Limits, s: Store, owner: string, now: nat) {
    OwnerStored(s, owner) + OwnerReserved(s, owner, now) <= limits.perOwner
  }

  ghost predicate QuotaOk(limits: Limits, s: Store, now: nat) {
    TotalOk(limits, s, now) && forall owner :: OwnerOk(limits, s, owner, now)
  }

  ghost predicate RecordsOk(limits: Limits, s: Store) {
    KeysOk(s) && IdsOk(s) && SessionsOk(limits, s) && ObjectsOk(s) && ReferencesOk(s)
  }

  ghost predicate StoreInv(limits: Limits, s: Store, now: nat) {
    RecordsOk(limits, s) && QuotaOk(limits, s, now)
  }

  // ----- Identities

  lemma UploadIdInjective(m: nat, n: nat)
    requires UploadId(m) == UploadId(n)
    ensures m == n
  {
    RecordText.DecimalReads(m);
    RecordText.DecimalReads(n);
    assert RecordText.Decimal(m) == UploadId(m)[|"memory-upload-"|..];
    assert RecordText.Decimal(n) == UploadId(n)[|"memory-upload-"|..];
  }

  lemma NextIdIsNew(s: Store)
    ensures !Issued(s, UploadId(s.nextId + 1))
  {
    hide UploadId;
    if Issued(s, UploadId(s.nextId + 1)) {
      var n :| 1 <= n <= s.nextId && UploadId(s.nextId + 1) == UploadId(n);
      UploadIdInjective(s.nextId + 1, n);
    }
  }

  // ----- Time

  /** Reservations only lapse as time passes. */
  lemma TimePasses(limits: Limits, s: Store, now: nat, later: nat)
    requires QuotaOk(limits, s, now) && now <= later
    ensures QuotaOk(limits, s, later)
  {
    SumMonotone(s.sessions.Keys, LiveIn(s.sessions, later), LiveIn(s.sessions, now));
    forall owner ensures OwnerOk(limits, s, owner, later) {
      assert OwnerOk(limits, s, owner, now);
      SumMonotone(s.sessions.Keys, LiveOf(s.sessions, owner, later), LiveOf(s.sessions, owner, now));
    }
  }

  // ----- Session updates

  /** Replacing one session changes both reservation sums by its own live reservation. */
  lemma SessionReplaced(s: Store, t: Store, id: string, x: Session, now: nat)
    requires id in s.sessions && t.sessions == s.sessions[id := x] && x.owner == s.sessions[id].owner
    ensures Reserved(t, now) + Live(s.sessions[id], now) == Reserved(s, now) + Live(x, now)
    ensures forall owner ::
              OwnerReserved(t, owner, now) + (if owner == x.owner then Live(s.sessions[id], now) else 0)
              == OwnerReserved(s, owner, now) + (if owner == x.owner then Live(x, now) else 0)
  {
    assert t.sessions.Keys == s.sessions.Keys;
    SumChange(s.sessions.Keys, LiveIn(s.sessions, now), LiveIn(t.sessions, now), id);
    forall owner
      ensures OwnerReserved(t, owner, now) + (if owner == x.owner then Live(s.sessions[id], now) else 0)
              == OwnerReserved(s, owner, now) + (if owner == x.owner then Live(x, now) else 0)
    {
      SumChange(s.sessions.Keys, LiveOf(s.sessions, owner, now), LiveOf(t.sessions, owner, now), id);
    }
  }

  lemma SessionAdded(s: Store, t: Store, id: string, x: Session, now: nat)
    requires id !in s.sessions && t.sessions == s.sessions[id := x]
    ensures Reserved(t, now) == Reserved(s, now) + Live(x, now)
    ensures forall owner ::
              OwnerReserved(t, owner, now) == OwnerReserved(s, owner, now) + (if owner == x.owner then Live(x, now) else 0)
  {
    assert t.sessions.Keys == s.sessions.Keys + {id};
    SumInsert(s.sessions.Keys, LiveIn(s.sessions, now), LiveIn(t.sessions, now), id);
    forall owner
      ensures OwnerReserved(t, owner, now) == OwnerReserved(s, owner, now) + (if owner == x.owner then Live(x, now) else 0)
    {
      SumInsert(s.sessions.Keys, LiveOf(s.sessions, owner, now), LiveOf(t.sessions, owner, now), id);
    }
  }

  lemma ObjectsSame(s: Store, t: Store, owner: string)
    requires t.objects == s.objects && t.references == s.references
    ensures Stored(t) == Stored(s) && OwnerStored(t, owner) == OwnerStored(s, owner)
  {
  }

  lemma SessionsSame(s: Store, t: Store, owner: string, now: nat)
    requires t.sessions == s.sessions
    ensures Reserved(t, now) == Reserved(s, now) && OwnerReserved(t, owner, now) == OwnerReserved(s, owner, now)
  {
  }

  lemma KeysKept(s: Store, t: Store, id: string, x: Session)
    requires KeysOk(s) && id in s.sessions && t.sessions == s.sessions[id := x] && t.sessionKeys == s.sessionKeys
    requires x.owner == s.sessions[id].owner && x.key == s.sessions[id].key
    ensures KeysOk(t)
  {
  }

  // ----- begin

  lemma BeginQuota(limits: Limits, s: Store, q: BeginUpload)
    requires QuotaOk(limits, s, q.now) && AfterBegin(limits, s, q) != s
    requires Opened(s, q).id !in s.sessions
    ensures QuotaOk(limits, AfterBegin(limits, s, q), q.now)
  {
    hide Stored, Reserved, OwnerStored, OwnerReserved, UploadId;
    var t, x := AfterBegin(limits, s, q), Opened(s, q);
    SessionAdded(s, t, x.id, x, q.now);
    forall owner ensures OwnerOk(limits, t, owner, q.now) {
      ObjectsSame(s, t, owner);
      assert OwnerOk(limits, s, owner, q.now);
    }
    ObjectsSame(s, t, q.owner);
  }

  lemma BeginKeeps(limits: Limits, s: Store, q: BeginUpload)
    requires StoreInv(limits, s, q.now)
    ensures StoreInv(limits, AfterBegin(limits, s, q), q.now)
  {
    hide QuotaOk, BeginAnswer, UploadId, KeysOk, IdsOk, Stored, Reserved, OwnerStored, OwnerReserved;
    var t := AfterBegin(limits, s, q);
    if t != s {
      NextIdIsNew(s);
      BeginAccepts(limits, s, q);
      OpenedKeys(s, t, q);
      BeginQuota(limits, s, q);
    }
  }

  lemma OpenedKeys(s: Store, t: Store, q: BeginUpload)
    requires KeysOk(s) && IdsOk(s) && !Issued(s, UploadId(s.nextId + 1)) && (q.owner, q.key) !in s.sessionKeys
    requires var x := Opened(s, q);
             t == s.(nextId := s.nextId + 1, sessions := s.sessions[x.id := x],
                     sessionKeys := s.sessionKeys[(q.owner, q.key) := x.id])
    ensures Opened(s, q).id !in s.sessions && KeysOk(t) && IdsOk(t)
  {
    hide UploadId;
    forall id | id in t.sessions ensures Issued(t, id) {
      if id in s.sessions {
        var n :| 1 <= n <= s.nextId && id == UploadId(n);
      }
    }
  }

  lemma BeginAccepts(limits: Limits, s: Store, q: BeginUpload)
    requires BeginAnswer(limits, s, q).Ok? && (q.owner, q.key) !in s.sessionKeys
    ensures q.size <= limits.maxUpload
  {
  }

  // ----- append

  lemma AppendKeeps(limits: Limits, s: Store, owner: string, id: string, offset: nat, chunk: Bytes, now: nat)
    requires StoreInv(limits, s, now)
    ensures StoreInv(limits, AfterAppend(limits, s, owner, id, offset, chunk, now), now)
  {
    hide Stored, Reserved, OwnerStored, OwnerReserved, KeysOk, UploadId;
    var t := AfterAppend(limits, s, owner, id, offset, chunk, now);
    if t != s {
      var x := t.sessions[id];
      KeysKept(s, t, id, x);
      SessionReplaced(s, t, id, x, now);
      QuotaKept(limits, s, t, now);
      IdsKept(s, t);
    }
  }

  lemma IdsKept(s: Store, t: Store)
    requires IdsOk(s) && t.sessions.Keys <= s.sessions.Keys && t.nextId == s.nextId
    ensures IdsOk(t)
  {
  }

  /** Sums that do not grow keep the quotas. */
  lemma QuotaKept(limits: Limits, s: Store, t: Store, now: nat)
    requires QuotaOk(limits, s, now)
    requires t.objects == s.objects && t.references == s.references
    requires Reserved(t, now) <= Reserved(s, now)
    requires forall owner :: OwnerReserved(t, owner, now) <= OwnerReserved(s, owner, now)
    ensures QuotaOk(limits, t, now)
  {
    hide Stored, Reserved, OwnerStored, OwnerReserved;
    forall owner ensures OwnerOk(limits, t, owner, now) {
      ObjectsSame(s, t, owner);
      assert OwnerOk(limits, s, owner, now);
    }
    ObjectsSame(s, t, "");
  }

  // ----- finalize

  /** Publication moves at most the reserved bytes into storage. */
  lemma PublishedStored(s: Store, id: string, artifact: Identity, now: nat)
    requires id in s.sessions && ReferencesOk(s) && ObjectsOk(s)
    requires artifact.digest.OfBytes? && artifact.size == |artifact.digest.bytes|
    ensures var t := Published(s, id, artifact, now);
            Stored(t) <= Stored(s) + artifact.size
    ensures var t := Published(s, id, artifact, now);
            forall owner ::
              OwnerStored(t, owner) <= OwnerStored(s, owner) + (if owner == s.sessions[id].owner then artifact.size else 0)
  {
    var t := Published(s, id, artifact, now);
    var d := artifact.digest;
    if d !in s.objects {
      assert t.objects.Keys == s.objects.Keys + {d};
      SumInsert(s.objects.Keys, SizeIn(s.objects), SizeIn(t.objects), d);
    }
    forall owner
      ensures OwnerStored(t, owner) <= OwnerStored(s, owner) + (if owner == s.sessions[id].owner then artifact.size else 0)
    {
      OwnerStoredAfter(s, t, s.sessions[id].owner, UploadReference(s.sessions[id], id, artifact, now), owner);
    }
  }

  /** Adding a reference, and its object if it is new, adds at most its size and only to its owner. */
  lemma OwnerStoredAfter(s: Store, t: Store, to: string, r: Reference, owner: string)
    requires ReferencesOk(s) && r.owner == to && r.revoked.None?
    requires t.references == s.references[(r.owner, r.key) := r]
    requires r.digest in t.objects
    requires t.objects == s.objects || (r.digest !in s.objects && t.objects == s.objects[r.digest := t.objects[r.digest]])
    ensures OwnerStored(t, owner) <= OwnerStored(s, owner) + (if owner == to then t.objects[r.digest] else 0)
    ensures Active(s.references, to, r.digest) ==> OwnerStored(t, owner) <= OwnerStored(s, owner)
  {
    hide ReferencesOk, Active;
    var d := r.digest;
    var before, after := SizeOf(s.objects, s.references, owner), SizeOf(t.objects, t.references, owner);
    forall e | e in s.objects && e != d ensures after(e) <= before(e) {
      ActiveElsewhere(s, t, r, owner, e);
    }
    ActiveHere(s, t, r, owner);
    if d in s.objects {
      assert t.objects.Keys == s.objects.Keys;
      SumRemove(s.objects.Keys, before, d);
      SumRemove(s.objects.Keys, after, d);
      SumMonotone(s.objects.Keys - {d}, after, before);
    } else {
      assert t.objects.Keys == s.objects.Keys + {d};
      assert t.objects.Keys - {d} == s.objects.Keys;
      SumRemove(t.objects.Keys, after, d);
      SumMonotone(s.objects.Keys, after, before);
    }
  }

  lemma ActiveElsewhere(s: Store, t: Store, r: Reference, owner: string, e: Digest)
    requires t.references == s.references[(r.owner, r.key) := r] && e != r.digest
    ensures Active(t.references, owner, e) ==> Active(s.references, owner, e)
  {
  }

  lemma ActiveHere(s: Store, t: Store, r: Reference, owner: string)
    requires ReferencesOk(s) && t.references == s.references[(r.owner, r.key) := r]
    ensures owner != r.owner && Active(t.references, owner, r.digest) ==> Active(s.references, owner, r.digest)
    ensures Active(s.references, owner, r.digest) ==> r.digest in s.objects
  {
  }

  lemma PublishedQuota(limits: Limits, s: Store, id: string, artifact: Identity, now: nat)
    requires QuotaOk(limits, s, now) && RecordsOk(limits, s)
    requires id in s.sessions && Live(s.sessions[id], now) == artifact.size
    requires artifact.digest.OfBytes? && artifact.size == |artifact.digest.bytes|
    ensures QuotaOk(limits, Published(s, id, artifact, now), now)
  {
    hide Stored, Reserved, OwnerStored, OwnerReserved, UploadId;
    var t := Published(s, id, artifact, now);
    var x := t.sessions[id];
    SessionReplaced(s, t, id, x, now);
    PublishedStored(s, id, artifact, now);
    forall owner ensures OwnerOk(limits, t, owner, now) {
      assert OwnerOk(limits, s, owner, now);
    }
  }

  lemma PublishedRecords(limits: Limits, s: Store, id: string, artifact: Identity, now: nat)
    requires RecordsOk(limits, s) && id in s.sessions
    requires var x := s.sessions[id];
             x.digest == DigestOf(x.bytes) && artifact == Identity(x.digest, |x.bytes|) && x.offset == x.size
    ensures RecordsOk(limits, Published(s, id, artifact, now))
  {
    hide KeysOk, IdsOk, UploadId;
    var t := Published(s, id, artifact, now);
    KeysKept(s, t, id, t.sessions[id]);
    IdsKept(s, t);
  }

  lemma StateChangedKeeps(limits: Limits, s: Store, id: string, x: Session, now: nat)
    requires StoreInv(limits, s, now) && id in s.sessions && SessionOk(limits, id, x)
    requires x.owner == s.sessions[id].owner && x.key == s.sessions[id].key
    requires Live(x, now) <= Live(s.sessions[id], now)
    ensures StoreInv(limits, s.(sessions := s.sessions[id := x]), now)
  {
    hide Stored, Reserved, OwnerStored, OwnerReserved, KeysOk, IdsOk, UploadId;
    var t := s.(sessions := s.sessions[id := x]);
    KeysKept(s, t, id, x);
    IdsKept(s, t);
    SessionReplaced(s, t, id, x, now);
    QuotaKept(limits, s, t, now);
  }

  lemma FinalizeKeeps(limits: Limits, s: Store, owner: string, id: string, now: nat, limit: nat,
                      fault: Option<ArtifactError>)
    requires StoreInv(limits, s, now)
    ensures StoreInv(limits, AfterFinalize(s, owner, id, now, limit, fault), now)
  {
    hide QuotaOk, KeysOk, IdsOk, Published, UploadId;
    var check := FinalizeCheck(s, owner, id, now);
    if check.Ok? && check.value.None? {
      var x := s.sessions[id];
      var ingested := Ingest(limit, fault, x.bytes, x.digest, x.size);
      if ingested.Ok? {
        PublishedRecords(limits, s, id, ingested.value, now);
        PublishedQuota(limits, s, id, ingested.value, now);
      } else if IsFinal(ingested.error) {
        StateChangedKeeps(limits, s, id, x.(state := Failed, reserved := 0), now);
      } else {
        StateChangedKeeps(limits, s, id, x.(state := Finalizing), now);
      }
    }
  }

  // ----- references

  lemma GrantKeeps(limits: Limits, s: Store, q: GrantReference)
    requires StoreInv(limits, s, q.now)
    ensures StoreInv(limits, AfterGrant(limits, s, q), q.now)
  {
    hide Stored, Reserved, OwnerStored, OwnerReserved, KeysOk, IdsOk, UploadId;
    var t := AfterGrant(limits, s, q);
    if t != s {
      var r := Granted(q);
      forall owner ensures OwnerOk(limits, t, owner, q.now) {
        assert OwnerOk(limits, s, owner, q.now);
        SessionsSame(s, t, owner, q.now);
        OwnerStoredAfter(s, t, q.owner, r, owner);
      }
      SessionsSame(s, t, q.owner, q.now);
      StoredSame(s, t);
      SessionRecordsSame(limits, s, t);
    }
  }

  lemma StoredSame(s: Store, t: Store)
    requires t.objects == s.objects
    ensures Stored(t) == Stored(s)
  {
  }

  lemma SessionRecordsSame(limits: Limits, s: Store, t: Store)
    requires KeysOk(s) && IdsOk(s) && SessionsOk(limits, s)
    requires t.sessions == s.sessions && t.sessionKeys == s.sessionKeys && t.nextId == s.nextId
    ensures KeysOk(t) && IdsOk(t) && SessionsOk(limits, t)
  {
  }

  lemma RevokeKeeps(limits: Limits, s: Store, owner: string, key: string, now: nat)
    requires StoreInv(limits, s, now)
    ensures StoreInv(limits, AfterRevoke(s, owner, key, now), now)
  {
    hide Stored, Reserved, OwnerStored, OwnerReserved, KeysOk, IdsOk, UploadId;
    var t := AfterRevoke(s, owner, key, now);
    if t != s {
      forall other ensures OwnerOk(limits, t, other, now) {
        assert OwnerOk(limits, s, other, now);
        SessionsSame(s, t, other, now);
        RevokedStored(s, t, (owner, key), other);
      }
      SessionsSame(s, t, owner, now);
      StoredSame(s, t);
      SessionRecordsSame(limits, s, t);
    }
  }

  lemma RevokedStored(s: Store, t: Store, k: (string, string), owner: string)
    requires k in s.references && k in t.references && t.objects == s.objects
    requires t.references == s.references[k := s.references[k].(revoked := t.references[k].revoked)]
    requires s.references[k].revoked.Some? ==> t.references[k].revoked.Some?
    ensures OwnerStored(t, owner) <= OwnerStored(s, owner)
  {
    forall d | d in s.objects
      ensures SizeOf(t.objects, t.references, owner)(d) <= SizeOf(s.objects, s.references, owner)(d)
    {
      if Active(t.references, owner, d) {
        var j :| j in t.references && t.references[j].owner == owner && t.references[j].digest == d
                 && t.references[j].revoked.None?;
        assert s.references[j].revoked.None?;
      }
    }
    SumMonotone(s.objects.Keys, SizeOf(t.objects, t.references, owner), SizeOf(s.objects, s.references, owner));
  }

  // ----- expiry

  /** Pruned sessions reserved nothing any more, and every other one still reserves what it did. */
  lemma PrunedReserved(s: Store, now: nat)
    ensures Reserved(AfterPrune(s, now), now) == Reserved(s, now)
    ensures forall owner :: OwnerReserved(AfterPrune(s, now), owner, now) == OwnerReserved(s, owner, now)
  {
    var t := AfterPrune(s, now);
    var gone := s.sessions.Keys - t.sessions.Keys;
    SumSplit(s.sessions.Keys, t.sessions.Keys, LiveIn(s.sessions, now));
    SumSame(t.sessions.Keys, LiveIn(s.sessions, now), LiveIn(t.sessions, now));
    SumZero(gone, LiveIn(s.sessions, now));
    forall owner ensures OwnerReserved(t, owner, now) == OwnerReserved(s, owner, now) {
      SumSplit(s.sessions.Keys, t.sessions.Keys, LiveOf(s.sessions, owner, now));
      SumSame(t.sessions.Keys, LiveOf(s.sessions, owner, now), LiveOf(t.sessions, owner, now));
      SumZero(gone, LiveOf(s.sessions, owner, now));
    }
  }

  lemma PruneKeeps(limits: Limits, s: Store, now: nat)
    requires StoreInv(limits, s, now)
    ensures StoreInv(limits, AfterPrune(s, now), now)
  {
    hide Stored, Reserved, OwnerStored, OwnerReserved, UploadId;
    var t := AfterPrune(s, now);
    PrunedReserved(s, now);
    QuotaKept(limits, s, t, now);
    IdsKept(s, t);
    assert KeysOk(t);
  }

  // ----- collection

  /** A collection conserves bytes: what was stored is what remains plus what was reclaimed. */
  lemma CollectConserves(s: Store, removed: set<Digest>, now: nat)
    requires Collectable(s, removed, now)
    ensures Stored(s) == Stored(AfterCollect(s, removed, now)) + Sum(removed, SizeIn(s.objects))
  {
    hide Reachable;
    var t := AfterCollect(s, removed, now);
    SumSplit(s.objects.Keys, removed, SizeIn(s.objects));
    assert t.objects.Keys == s.objects.Keys - removed;
    SumSame(t.objects.Keys, SizeIn(s.objects), SizeIn(t.objects));
  }

  lemma CollectedOwner(s: Store, removed: set<Digest>, now: nat, owner: string)
    requires Collectable(s, removed, now)
    ensures OwnerStored(AfterCollect(s, removed, now), owner) <= OwnerStored(s, owner)
  {
    hide Reachable;
    var t := AfterCollect(s, removed, now);
    var weight := SizeOf(s.objects, s.references, owner);
    assert t.objects.Keys == s.objects.Keys - removed;
    SumSplit(s.objects.Keys, removed, weight);
    SumSame(t.objects.Keys, weight, SizeOf(t.objects, t.references, owner));
  }

  lemma CollectKeeps(limits: Limits, s: Store, removed: set<Digest>, now: nat)
    requires StoreInv(limits, s, now)
    ensures StoreInv(limits, AfterCollect(s, removed, now), now)
  {
    hide Stored, Reserved, OwnerStored, OwnerReserved, KeysOk, IdsOk, UploadId;
    if Collectable(s, removed, now) {
      var t := AfterCollect(s, removed, now);
      CollectConserves(s, removed, now);
      forall owner ensures OwnerOk(limits, t, owner, now) {
        assert OwnerOk(limits, s, owner, now);
        CollectedOwner(s, removed, now, owner);
        SessionsSame(s, t, owner, now);
      }
      SessionsSame(s, t, "", now);
      SessionRecordsSame(limits, s, t);
      assert ReferencesOk(t) by {
        forall k | k in t.references && t.references[k].revoked.None?
          ensures t.references[k].digest in t.objects
        {
          assert Protects(s.references[k], s.references[k].digest, now);
          assert Reachable(s, s.references[k].digest, now);
        }
      }
    }
  }
}
