/** What a user of the upload store may rely on: which requests are honoured, and for how long. */
module UploadLaws {
  import opened Outcomes
  import opened Texts
  import opened Sums
  import opened UploadRecords
  import opened UploadInvariant
  import opened UploadRuns

  // ----- An upload stays until it expires

  /** The same upload, with at least the bytes it had. */
  predicate Continues(x: Session, y: Session) {
    && y.id == x.id && y.owner == x.owner && y.key == x.key && y.digest == x.digest && y.size == x.size
    && y.media == x.media && y.expires == x.expires && x.bytes <= y.bytes
    && (x.state.Completed? || x.state.Failed? ==> y == x)
  }

  ghost predicate Lives(s: Store, t: Store, id: string) {
    && id in s.sessions && id in t.sessions && Continues(s.sessions[id], t.sessions[id])
    && var name := (s.sessions[id].owner, s.sessions[id].key);
       name in s.sessionKeys && s.sessionKeys[name] == id ==> name in t.sessionKeys && t.sessionKeys[name] == id
  }

  lemma BeginLives(limits: Limits, s: Store, q: BeginUpload, id: string)
    requires KeysOk(s) && IdsOk(s) && id in s.sessions
    ensures Lives(s, AfterBegin(limits, s, q), id)
  {
    hide BeginAnswer, UploadId;
    NextIdIsNew(s);
  }

  lemma AppendLives(limits: Limits, s: Store, owner: string, other: string, offset: nat, chunk: Bytes, now: nat,
                    id: string)
    requires id in s.sessions
    ensures Lives(s, AfterAppend(limits, s, owner, other, offset, chunk, now), id)
  {
  }

  lemma FinalizeLives(s: Store, owner: string, other: string, now: nat, limit: nat, fault: Option<ArtifactError>,
                      id: string)
    requires id in s.sessions
    ensures Lives(s, AfterFinalize(s, owner, other, now, limit, fault), id)
  {
    hide Ingest, UploadReferenceKey;
  }

  lemma SameSessionsLive(s: Store, t: Store, id: string)
    requires id in s.sessions && t.sessions == s.sessions && t.sessionKeys == s.sessionKeys
    ensures Lives(s, t, id)
  {
  }

  lemma PruneLives(s: Store, now: nat, id: string)
    requires id in s.sessions && (now < s.sessions[id].expires || s.sessions[id].state.Completed?)
    ensures Lives(s, AfterPrune(s, now), id)
  {
  }

  lemma ApplyLives(limits: Limits, s: Store, op: Op, id: string)
    requires KeysOk(s) && IdsOk(s) && id in s.sessions
    requires Now(op) < s.sessions[id].expires || s.sessions[id].state.Completed?
    ensures Lives(s, Apply(limits, s, op), id)
  {
    hide KeysOk, IdsOk, Lives, AfterBegin, AfterAppend, AfterFinalize, AfterPrune, GrantAnswer, RevokeAnswer, Collectable;
    match op
    case Begin(q) => BeginLives(limits, s, q, id);
    case Append(owner, other, offset, chunk, at) => AppendLives(limits, s, owner, other, offset, chunk, at, id);
    case Finalize(owner, other, at, limit, fault) => FinalizeLives(s, owner, other, at, limit, fault, id);
    case Prune(at) => PruneLives(s, at, id);
    case _ => SameSessionsLive(s, Apply(limits, s, op), id);
  }

  lemma LivesOn(s: Store, t: Store, u: Store, id: string)
    requires KeysOk(s) && Lives(s, t, id) && Lives(t, u, id)
    ensures Lives(s, u, id)
  {
  }

  /** Over every run: an upload is still there, under its name and with its bytes, as long as the clock
      has not reached its expiry; and a completed one for ever. */
  lemma {:induction false} UploadLives(limits: Limits, ops: seq<Op>, more: seq<Op>, id: string)
    requires Ordered(ops + more) && id in Run(limits, ops).sessions
    requires var x := Run(limits, ops).sessions[id];
             x.state.Completed? || forall i :: 0 <= i < |more| ==> Now(more[i]) < x.expires
    ensures Lives(Run(limits, ops), Run(limits, ops + more), id)
    decreases |more|
  {
    hide Apply, QuotaOk, SessionsOk, ObjectsOk, ReferencesOk, KeysOk, IdsOk, Lives;
    if more == [] {
      assert ops + more == ops;
      LivesItself(Run(limits, ops), id);
    } else {
      var n := |more| - 1;
      var init, last := more[..n], more[n];
      assert ops + more == ops + init + [last];
      assert (ops + more)[..|ops + more| - 1] == ops + init;
      OrderedParts(ops, more);
      OrderedParts(ops + init, [last]);
      UploadLives(limits, ops, init, id);
      RunInv(limits, ops);
      RunInv(limits, ops + init);
      var s, t := Run(limits, ops), Run(limits, ops + init);
      StillUnexpired(s, t, id);
      ApplyLives(limits, t, last, id);
      LivesOn(s, t, Apply(limits, t, last), id);
    }
  }

  lemma OrderedParts(ops: seq<Op>, more: seq<Op>)
    requires Ordered(ops + more)
    ensures Ordered(ops)
  {
    forall i | 0 < i < |ops| ensures Now(ops[i - 1]) <= Now(ops[i]) {
      assert ops[i] == (ops + more)[i] && ops[i - 1] == (ops + more)[i - 1];
    }
  }

  lemma LivesItself(s: Store, id: string)
    requires id in s.sessions
    ensures Lives(s, s, id)
  {
  }

  lemma StillUnexpired(s: Store, t: Store, id: string)
    requires Lives(s, t, id)
    ensures id in t.sessions && t.sessions[id].expires == s.sessions[id].expires
    ensures s.sessions[id].state.Completed? ==> t.sessions[id].state.Completed?
  {
  }

  // ----- Expiry

  /** Pruning removes exactly the unfinished uploads whose time is over, and frees their names. */
  lemma PrunedExactly(s: Store, now: nat)
    requires KeysOk(s)
    ensures var t := AfterPrune(s, now);
            && (forall id :: id in t.sessions <==>
                  id in s.sessions && (s.sessions[id].state.Completed? || now < s.sessions[id].expires))
            && (forall id :: id in t.sessions ==> t.sessions[id] == s.sessions[id])
            && (forall k :: k in t.sessionKeys <==> k in s.sessionKeys && s.sessionKeys[k] in t.sessions)
            && t == s.(sessions := t.sessions, sessionKeys := t.sessionKeys)
  {
  }

  // ----- Reservations

  /** The full size of an upload that can still be completed, and nothing else. */
  function OpenBytes(x: Session, now: nat): nat {
    if (x.state.Open? || x.state.Finalizing?) && now < x.expires then x.size else 0
  }

  function OpenSize(sessions: map<string, Session>, now: nat): string -> nat {
    id => if id in sessions then OpenBytes(sessions[id], now) else 0
  }

  function OpenSizeOf(sessions: map<string, Session>, owner: string, now: nat): string -> nat {
    id => if id in sessions && sessions[id].owner == owner then OpenBytes(sessions[id], now) else 0
  }

  /** After every run, what is reserved is the size of the uploads that can still be completed. */
  lemma ReservedIsOpen(limits: Limits, ops: seq<Op>, owner: string, now: nat)
    requires Ordered(ops)
    ensures var s := Run(limits, ops);
            && Reserved(s, now) == Sum(s.sessions.Keys, OpenSize(s.sessions, now))
            && OwnerReserved(s, owner, now) == Sum(s.sessions.Keys, OpenSizeOf(s.sessions, owner, now))
  {
    hide Run, QuotaOk, KeysOk, IdsOk, ObjectsOk, ReferencesOk;
    RunInv(limits, ops);
    var s := Run(limits, ops);
    OpenIsLive(limits, s, owner, now);
    SumSame(s.sessions.Keys, LiveIn(s.sessions, now), OpenSize(s.sessions, now));
    SumSame(s.sessions.Keys, LiveOf(s.sessions, owner, now), OpenSizeOf(s.sessions, owner, now));
  }

  lemma OpenIsLive(limits: Limits, s: Store, owner: string, now: nat)
    requires SessionsOk(limits, s)
    ensures forall id :: id in s.sessions ==>
              && LiveIn(s.sessions, now)(id) == OpenSize(s.sessions, now)(id)
              && LiveOf(s.sessions, owner, now)(id) == OpenSizeOf(s.sessions, owner, now)(id)
  {
    forall id | id in s.sessions
      ensures LiveIn(s.sessions, now)(id) == OpenSize(s.sessions, now)(id)
    {
      assert SessionOk(limits, id, s.sessions[id]);
    }
  }

  // ----- Which requests are honoured

  predicate WellFormed(limits: Limits, q: BeginUpload) {
    && !Blank(q.owner) && !Blank(q.key) && !Blank(q.media) && q.now < q.expires && q.size <= limits.maxUpload
  }

  /** There is room for this many more bytes, in the whole store and for this owner. */
  ghost predicate Fits(limits: Limits, s: Store, owner: string, size: nat, now: nat) {
    && Stored(s) + Reserved(s, now) + size <= limits.total
    && OwnerStored(s, owner) + OwnerReserved(s, owner, now) + size <= limits.perOwner
  }

  /** A new name is opened exactly when the request is well formed and fits both quotas. */
  lemma OpensExactly(limits: Limits, s: Store, q: BeginUpload)
    requires (q.owner, q.key) !in s.sessionKeys
    ensures BeginAnswer(limits, s, q).Ok? <==> WellFormed(limits, q) && Fits(limits, s, q.owner, q.size, q.now)
    ensures BeginAnswer(limits, s, q).Ok? ==>
              var t, x := AfterBegin(limits, s, q), BeginAnswer(limits, s, q).value;
              && t.sessionKeys == s.sessionKeys[(q.owner, q.key) := x.id] && t.sessions == s.sessions[x.id := x]
              && t == s.(nextId := s.nextId + 1, sessions := t.sessions, sessionKeys := t.sessionKeys)
              && (x.owner, x.key, x.digest, x.size, x.media, x.expires)
                 == (q.owner, q.key, q.digest, q.size, q.media, q.expires)
              && x.state.Open? && x.bytes == [] && x.offset == 0 && x.id == UploadId(s.nextId + 1)
    ensures BeginAnswer(limits, s, q).Err? ==> AfterBegin(limits, s, q) == s
  {
    hide Stored, Reserved, OwnerStored, OwnerReserved, UploadId, Blank;
  }

  /** Whatever happens in between, asking for the same upload again before it expires gives it back as
      it now is, asking for another one under its name is refused, and neither changes anything. */
  lemma BeginIsIdempotent(limits: Limits, ops: seq<Op>, more: seq<Op>, id: string, q: BeginUpload)
    requires Ordered(ops + more) && id in Run(limits, ops).sessions && WellFormed(limits, q)
    requires var x := Run(limits, ops).sessions[id];
             && (q.owner, q.key) == (x.owner, x.key)
             && forall i :: 0 <= i < |more| ==> Now(more[i]) < x.expires
    ensures var x, s := Run(limits, ops).sessions[id], Run(limits, ops + more);
            && id in s.sessions && Continues(x, s.sessions[id]) && AfterBegin(limits, s, q) == s
            && BeginAnswer(limits, s, q)
               == if (q.digest, q.size, q.media) == (x.digest, x.size, x.media) then Ok(s.sessions[id])
                  else Err(ConflictingUploadKey)
  {
    hide Run, StoreInv, BeginAnswer, AfterBegin, WellFormed, Lives, Continues, Ordered;
    OrderedParts(ops, more);
    RunInv(limits, ops);
    UploadLives(limits, ops, more, id);
    NameIsKept(limits, Run(limits, ops), Clock(ops), id);
    TakenNameAnswers(limits, Run(limits, ops), Run(limits, ops + more), id, q);
  }

  lemma NameIsKept(limits: Limits, s: Store, now: nat, id: string)
    requires StoreInv(limits, s, now) && id in s.sessions
    ensures (s.sessions[id].owner, s.sessions[id].key) in s.sessionKeys
    ensures s.sessionKeys[(s.sessions[id].owner, s.sessions[id].key)] == id
  {
    hide QuotaOk, IdsOk, SessionsOk, ObjectsOk, ReferencesOk;
  }

  lemma TakenNameAnswers(limits: Limits, s: Store, t: Store, id: string, q: BeginUpload)
    requires Lives(s, t, id) && WellFormed(limits, q) && (q.owner, q.key) == (s.sessions[id].owner, s.sessions[id].key)
    requires (q.owner, q.key) in s.sessionKeys && s.sessionKeys[(q.owner, q.key)] == id
    ensures var x := s.sessions[id];
            && id in t.sessions && Continues(x, t.sessions[id]) && AfterBegin(limits, t, q) == t
            && BeginAnswer(limits, t, q)
               == if (q.digest, q.size, q.media) == (x.digest, x.size, x.media) then Ok(t.sessions[id])
                  else Err(ConflictingUploadKey)
  {
    hide Blank, Stored, Reserved, OwnerStored, OwnerReserved;
  }

  // ----- An upload that is carried through

  /** Chunks sent one after the other. */
  function Sends(owner: string, id: string, chunks: seq<Bytes>, at: nat): seq<Op> {
    if chunks == [] then []
    else
      var init, last := chunks[..|chunks| - 1], chunks[|chunks| - 1];
      Sends(owner, id, init, at) + [Append(owner, id, |Concat(init)|, last, at)]
  }

  /** An open upload of this owner that has received exactly these bytes. */
  predicate Received(s: Store, owner: string, id: string, bytes: Bytes, at: nat) {
    && id in s.sessions
    && var x := s.sessions[id];
       x.owner == owner && x.state.Open? && at < x.expires && x.bytes == bytes && x.offset == |bytes|
  }

  lemma OneMoreChunk(limits: Limits, s: Store, owner: string, id: string, bytes: Bytes, chunk: Bytes, at: nat)
    requires Received(s, owner, id, bytes, at) && |chunk| <= limits.maxChunk
    requires |bytes + chunk| <= s.sessions[id].size <= limits.maxUpload
    ensures var t := Apply(limits, s, Append(owner, id, |bytes|, chunk, at));
            && Received(t, owner, id, bytes + chunk, at)
            && t == s.(sessions := t.sessions)
            && t.sessions[id] == s.sessions[id].(bytes := bytes + chunk, offset := |bytes + chunk|)
  {
  }

  lemma ConcatInit(chunks: seq<Bytes>)
    requires chunks != []
    ensures Concat(chunks) == Concat(chunks[..|chunks| - 1]) + chunks[|chunks| - 1]
  {
  }

  lemma {:induction false} AllChunksArrive(limits: Limits, ops: seq<Op>, owner: string, id: string, chunks: seq<Bytes>,
                                           at: nat)
    requires Received(Run(limits, ops), owner, id, [], at)
    requires |Concat(chunks)| <= Run(limits, ops).sessions[id].size <= limits.maxUpload
    requires forall i :: 0 <= i < |chunks| ==> |chunks[i]| <= limits.maxChunk
    ensures var s, t := Run(limits, ops), Run(limits, ops + Sends(owner, id, chunks, at));
            && Received(t, owner, id, Concat(chunks), at)
            && t.sessions[id] == s.sessions[id].(bytes := Concat(chunks), offset := |Concat(chunks)|)
    decreases |chunks|
  {
    hide Apply, Concat;
    var sends := Sends(owner, id, chunks, at);
    if chunks == [] {
      assert ops + sends == ops;
      ConcatOne(Prune(at));
    } else {
      var init, last := chunks[..|chunks| - 1], chunks[|chunks| - 1];
      ConcatInit(chunks);
      AllChunksArrive(limits, ops, owner, id, init, at);
      var earlier := ops + Sends(owner, id, init, at);
      OneMoreChunk(limits, Run(limits, earlier), owner, id, Concat(init), last, at);
      assert (ops + sends)[..|ops + sends| - 1] == earlier;
      assert (ops + sends)[|ops + sends| - 1] == Append(owner, id, |Concat(init)|, last, at);
    }
  }

  lemma FinalizeSucceeds(limits: Limits, s: Store, owner: string, id: string, bytes: Bytes, at: nat, limit: nat)
    requires Received(s, owner, id, bytes, at) && |bytes| == s.sessions[id].size <= limit
    requires s.sessions[id].digest == DigestOf(bytes)
    ensures var t, x := Apply(limits, s, Finalize(owner, id, at, limit, None)), Identity(DigestOf(bytes), |bytes|);
            && FinalizeAnswer(s, owner, id, at, limit, None) == Ok(x)
            && id in t.sessions && t.sessions[id].state.Completed? && t.sessions[id].artifact == Some(x)
            && t.sessions[id].bytes == bytes
            && x.digest in t.objects && Active(t.references, owner, x.digest)
  {
    hide UploadReferenceKey;
    var t := Apply(limits, s, Finalize(owner, id, at, limit, None));
    var k := (owner, UploadReferenceKey(id));
    assert k in t.references && t.references[k].digest == DigestOf(bytes) && t.references[k].revoked.None?;
  }

  /** After every run: whoever opens an upload, sends its content in chunks of any lengths that the store
      takes and finalizes it in time, gets the object stored and referred to. */
  lemma UploadSucceeds(limits: Limits, ops: seq<Op>, q: BeginUpload, chunks: seq<Bytes>, at: nat, limit: nat)
    requires var s := Run(limits, ops);
             (q.owner, q.key) !in s.sessionKeys && WellFormed(limits, q) && Fits(limits, s, q.owner, q.size, q.now)
    requires at < q.expires && q.digest == DigestOf(Concat(chunks)) && q.size == |Concat(chunks)| <= limit
    requires forall i :: 0 <= i < |chunks| ==> |chunks[i]| <= limits.maxChunk
    ensures var id := UploadId(Run(limits, ops).nextId + 1);
            var sent := ops + [Begin(q)] + Sends(q.owner, id, chunks, at);
            var t := Run(limits, sent + [Finalize(q.owner, id, at, limit, None)]);
            && FinalizeAnswer(Run(limits, sent), q.owner, id, at, limit, None) == Ok(Identity(q.digest, q.size))
            && id in t.sessions && t.sessions[id].state.Completed? && t.sessions[id].bytes == Concat(chunks)
            && q.digest in t.objects && Active(t.references, q.owner, q.digest)
  {
    hide Apply, Concat, UploadId, Fits, WellFormed, Active, FinalizeAnswer;
    var id := UploadId(Run(limits, ops).nextId + 1);
    var begun := ops + [Begin(q)];
    OpensExactly(limits, Run(limits, ops), q);
    assert begun[..|begun| - 1] == ops;
    BeginApplies(limits, Run(limits, ops), q);
    AllChunksArrive(limits, begun, q.owner, id, chunks, at);
    var sent := begun + Sends(q.owner, id, chunks, at);
    FinalizeSucceeds(limits, Run(limits, sent), q.owner, id, Concat(chunks), at, limit);
    var all := sent + [Finalize(q.owner, id, at, limit, None)];
    assert all[..|all| - 1] == sent;
  }

  lemma BeginApplies(limits: Limits, s: Store, q: BeginUpload)
    ensures Apply(limits, s, Begin(q)) == AfterBegin(limits, s, q)
    ensures WellFormed(limits, q) ==> q.size <= limits.maxUpload
  {
  }

  // ----- Chunks, completion, references and collection, exactly

  /** A chunk is taken exactly when it continues an open upload of its owner in time and within size. */
  lemma TakesExactly(limits: Limits, s: Store, owner: string, id: string, offset: nat, chunk: Bytes, now: nat)
    requires id in s.sessions && SessionOk(limits, id, s.sessions[id])
    ensures var x, answer := s.sessions[id], AppendAnswer(limits, s, owner, id, offset, chunk, now);
            && (answer.Ok? <==>
                  && x.owner == owner && x.state.Open? && now < x.expires
                  && offset == |x.bytes| && |x.bytes + chunk| <= x.size && |chunk| <= limits.maxChunk)
            && (answer.Ok? ==> answer.value == |x.bytes + chunk|)
            && AfterAppend(limits, s, owner, id, offset, chunk, now)
               == if answer.Ok? then s.(sessions := s.sessions[id := x.(bytes := x.bytes + chunk, offset := answer.value)])
                  else s
  {
  }

  /** An unfinished upload is completed exactly when its owner asks in time, everything has arrived, the
      store works and the bytes are the ones that were announced. Wrong bytes fail it for good. */
  lemma CompletesExactly(limits: Limits, s: Store, owner: string, id: string, now: nat, limit: nat,
                         fault: Option<ArtifactError>)
    requires id in s.sessions && SessionOk(limits, id, s.sessions[id]) && !s.sessions[id].state.Completed?
    ensures var x, t := s.sessions[id], AfterFinalize(s, owner, id, now, limit, fault);
            var due := x.owner == owner && !x.state.Failed? && now < x.expires && |x.bytes| == x.size;
            && id in t.sessions
            && (t.sessions[id].state.Completed? <==>
                  due && x.size <= limit && fault.None? && x.digest == DigestOf(x.bytes))
            && (FinalizeAnswer(s, owner, id, now, limit, fault).Ok? <==> t.sessions[id].state.Completed?)
            && (due && x.size <= limit && fault == Some(IoFault) ==> t.sessions[id].state.Finalizing?)
            && (due && x.size <= limit && fault.None? && x.digest != DigestOf(x.bytes) ==>
                  t.sessions[id].state.Failed? && t.sessions[id].reserved == 0)
  {
    hide UploadReferenceKey;
  }

  /** A reference under a new name is granted exactly when it is well formed, its object is stored and,
      unless the owner already refers to that object, there is room for it. */
  lemma GrantsExactly(limits: Limits, s: Store, q: GrantReference)
    requires (q.owner, q.key) !in s.references
    ensures GrantAnswer(limits, s, q).Ok? <==>
              && !Blank(q.owner) && !Blank(q.key) && !Blank(q.purpose) && !q.kind.Upload?
              && (q.retained.Some? ==> q.now < q.retained.value)
              && q.digest in s.objects
              && (Active(s.references, q.owner, q.digest)
                  || OwnerStored(s, q.owner) + OwnerReserved(s, q.owner, q.now) + s.objects[q.digest] <= limits.perOwner)
    ensures AfterGrant(limits, s, q)
            == if GrantAnswer(limits, s, q).Ok?
               then s.(references := s.references[(q.owner, q.key) :=
                         Reference(q.owner, q.key, q.digest, q.kind, q.purpose, q.now, q.retained, None)])
               else s
  {
    hide OwnerStored, OwnerReserved, Blank, Active;
  }

  /** A name that is taken is never granted again, and says why. */
  lemma GrantIsIdempotent(limits: Limits, s: Store, q: GrantReference)
    requires (q.owner, q.key) in s.references && ValidateGrant(q).Ok?
    ensures AfterGrant(limits, s, q) == s
    ensures var r := s.references[(q.owner, q.key)];
            GrantAnswer(limits, s, q)
            == if r.revoked.None? && (r.digest, r.kind, r.purpose, r.retained) == (q.digest, q.kind, q.purpose, q.retained)
               then Ok(r) else if r.revoked.None? then Err(ConflictingReferenceKey) else Err(ReferenceRevoked)
  {
    hide Blank;
  }

  /** Revoking marks a reference once, at the first request. */
  lemma RevokesOnce(s: Store, owner: string, key: string, now: nat, later: nat)
    requires (owner, key) in s.references && !Blank(owner) && !Blank(key)
    ensures var k := (owner, key);
            var t := AfterRevoke(s, owner, key, now);
            && t == s.(references := s.references[k := t.references[k]])
            && t.references[k] == s.references[k].(revoked := t.references[k].revoked)
            && t.references[k].revoked
               == (if s.references[k].revoked.Some? then s.references[k].revoked else Some(now))
            && RevokeAnswer(s, owner, key, now) == Ok(t.references[k])
            && AfterRevoke(t, owner, key, later) == t
  {
    hide Blank;
    var k := (owner, key);
    var t := AfterRevoke(s, owner, key, now);
    assert t.references[k := t.references[k]] == t.references;
  }

  /** An object may be collected exactly when no reference to it is active or retained and no upload that
      can still be completed announces it. */
  lemma CollectableExactly(s: Store, d: Digest, now: nat)
    requires d in s.objects
    ensures Collectable(s, {d}, now) <==>
              && (forall k :: k in s.references && s.references[k].digest == d ==>
                    && s.references[k].revoked.Some?
                    && (s.references[k].retained.Some? ==> s.references[k].retained.value <= now))
              && (forall id :: id in s.sessions && s.sessions[id].digest == d ==> IsOver(s.sessions[id], now))
  {
    assert Collectable(s, {d}, now) <==> !Reachable(s, d, now);
  }

  /** This upload cannot be completed any more. */
  predicate IsOver(x: Session, now: nat) {
    x.state.Completed? || x.state.Failed? || x.expires <= now
  }

  lemma PublishedValue(s: Store, id: string, now: nat)
    requires id in s.sessions
    ensures var x := s.sessions[id];
            var t := Published(s, id, Identity(x.digest, x.size), now);
            && t == s.(objects := t.objects, references := t.references, sessions := t.sessions)
            && t.sessions == s.sessions[id := t.sessions[id]] && t.sessions[id].state.Completed?
            && t.references == s.references[(x.owner, "upload:" + id) :=
                 Reference(x.owner, "upload:" + id, x.digest, Upload, "completed upload", now, None, None)]
            && t.objects == (if x.digest in s.objects then s.objects else s.objects[x.digest := x.size])
  {
  }

  /** Completing an upload stores its object once and refers to it under the upload's own name; anything
      else leaves objects and references alone. No other upload is touched. */
  lemma PublishesExactly(s: Store, owner: string, id: string, now: nat, limit: nat, fault: Option<ArtifactError>)
    requires id in s.sessions && !s.sessions[id].state.Completed?
    ensures var x, t := s.sessions[id], AfterFinalize(s, owner, id, now, limit, fault);
            && id in t.sessions && t.sessions == s.sessions[id := t.sessions[id]]
            && t == s.(objects := t.objects, references := t.references, sessions := t.sessions)
            && if t.sessions[id].state.Completed? then
                 && t.references == s.references[(owner, "upload:" + id) :=
                      Reference(owner, "upload:" + id, x.digest, Upload, "completed upload", now, None, None)]
                 && t.objects == (if x.digest in s.objects then s.objects else s.objects[x.digest := x.size])
               else t.references == s.references && t.objects == s.objects
  {
    hide Published, AfterFinalize;
    PublishedValue(s, id, now);
    FinalizeCases(s, owner, id, now, limit, fault);
    var x := s.sessions[id];
    assert s.sessions[id := x] == s.sessions;
  }

  lemma FinalizeCases(s: Store, owner: string, id: string, now: nat, limit: nat, fault: Option<ArtifactError>)
    requires id in s.sessions && !s.sessions[id].state.Completed?
    ensures var x, t := s.sessions[id], AfterFinalize(s, owner, id, now, limit, fault);
            || t == s
            || t == s.(sessions := s.sessions[id := x.(state := Failed, reserved := 0)])
            || t == s.(sessions := s.sessions[id := x.(state := Finalizing)])
            || (x.owner == owner && t == Published(s, id, Identity(x.digest, x.size), now))
  {
    hide Published, Ingest, FinalizeCheck;
    if FinalizeCheck(s, owner, id, now).Ok? {
      CheckedIsDue(s, owner, id, now);
    }
    var x := s.sessions[id];
    IngestedIsAnnounced(limit, fault, x.bytes, x.digest, x.size);
  }

  lemma CheckedIsDue(s: Store, owner: string, id: string, now: nat)
    requires id in s.sessions && !s.sessions[id].state.Completed? && FinalizeCheck(s, owner, id, now).Ok?
    ensures FinalizeCheck(s, owner, id, now).value.None? && s.sessions[id].owner == owner
  {
  }

  lemma IngestedIsAnnounced(limit: nat, fault: Option<ArtifactError>, bytes: Bytes, digest: Digest, size: nat)
    ensures Ingest(limit, fault, bytes, digest, size).Ok? ==>
              Ingest(limit, fault, bytes, digest, size).value == Identity(digest, size)
  {
  }
}
