/**
 The upload, quota, reference and garbage-collection store: its records and, for each operation, the
 state it leaves and the answer it gives.
 */
module UploadRecords {
  import opened Outcomes
  import opened Texts
  import EpisodeRecords
  import opened Sums
  import RecordText

  type Digest = EpisodeRecords.Digest

  type Bytes = seq<nat>

  function DigestOf(bytes: Bytes): Digest {
    EpisodeRecords.OfBytes(bytes)
  }

  datatype UploadState = Open | Finalizing | Completed | Failed

  datatype Identity = Identity(digest: Digest, size: nat)

  datatype Session = Session(
    id: string,
    owner: string,
    key: string,
    digest: Digest,
    size: nat,
    media: string,
    offset: nat,
    state: UploadState,
    expires: nat,
    artifact: Option<Identity>,
    bytes: Bytes,
    reserved: nat)

  datatype ReferenceKind = Upload | AssignmentInput | AssignmentOutput | Receipt | RetentionRoot | Other

  datatype Reference = Reference(
    owner: string,
    key: string,
    digest: Digest,
    kind: ReferenceKind,
    purpose: string,
    created: nat,
    retained: Option<nat>,
    revoked: Option<nat>)

  datatype Limits = Limits(maxUpload: nat, maxChunk: nat, total: nat, perOwner: nat)

  datatype Store = Store(
    nextId: nat,
    sessions: map<string, Session>,
    sessionKeys: map<(string, string), string>,
    objects: map<Digest, nat>,
    references: map<(string, string), Reference>)

  const EMPTY: Store := Store(0, map[], map[], map[], map[])

  datatype BeginUpload = BeginUpload(
    owner: string, key: string, digest: Digest, size: nat, media: string, now: nat, expires: nat)

  datatype GrantReference = GrantReference(
    owner: string, key: string, digest: Digest, kind: ReferenceKind, purpose: string,
    now: nat, retained: Option<nat>)

  datatype QuotaScope = TotalQuota | OwnerQuota

  datatype ArtifactError = IoFault | OverLimit | SizeMismatch | DigestMismatch | IntegrityViolation

  datatype UploadError =
    | NotFound
    | OwnerMismatch
    | ConflictingUploadKey
    | ConflictingReferenceKey
    | ReferenceRevoked
    | InvalidRequest
    | OffsetConflict(expected: nat, received: nat)
    | ChunkTooLarge(chunkLimit: nat, chunk: nat)
    | SizeLimitExceeded(sizeLimit: nat, attempted: nat)
    | QuotaExceeded(scope: QuotaScope, limit: nat, used: nat, requested: nat)
    | InvalidState(state: UploadState)
    | Expired
    | IncompleteUpload(expectedSize: nat, committed: nat)
    | Artifact(error: ArtifactError)
    | Corrupt

  function UploadId(n: nat): string {
    "memory-upload-" + RecordText.Decimal(n)
  }

  function UploadReferenceKey(id: string): string {
    "upload:" + id
  }

  // ----- Quota sums

  predicate Pending(state: UploadState) {
    state.Open? || state.Finalizing?
  }

  /** What a session still reserves at this time. */
  function Live(x: Session, now: nat): nat {
    if Pending(x.state) && x.expires > now then x.reserved else 0
  }

  function LiveIn(sessions: map<string, Session>, now: nat): string -> nat {
    id => if id in sessions then Live(sessions[id], now) else 0
  }

  function LiveOf(sessions: map<string, Session>, owner: string, now: nat): string -> nat {
    id => if id in sessions && sessions[id].owner == owner then Live(sessions[id], now) else 0
  }

  function SizeIn(objects: map<Digest, nat>): Digest -> nat {
    d => if d in objects then objects[d] else 0
  }

  ghost predicate Active(references: map<(string, string), Reference>, owner: string, d: Digest) {
    exists k :: k in references && references[k].owner == owner && references[k].digest == d
                && references[k].revoked.None?
  }

  ghost function SizeOf(objects: map<Digest, nat>, references: map<(string, string), Reference>, owner: string)
    : Digest -> nat
  {
    d => if d in objects && Active(references, owner, d) then objects[d] else 0
  }

  ghost function Stored(s: Store): nat {
    Sum(s.objects.Keys, SizeIn(s.objects))
  }

  ghost function Reserved(s: Store, now: nat): nat {
    Sum(s.sessions.Keys, LiveIn(s.sessions, now))
  }

  /** Distinct contents that an owner actively refers to. */
  ghost function OwnerStored(s: Store, owner: string): nat {
    Sum(s.objects.Keys, SizeOf(s.objects, s.references, owner))
  }

  ghost function OwnerReserved(s: Store, owner: string, now: nat): nat {
    Sum(s.sessions.Keys, LiveOf(s.sessions, owner, now))
  }

  function Enforce(scope: QuotaScope, limit: nat, used: nat, requested: nat): Result<(), UploadError> {
    if used + requested > limit then Err(QuotaExceeded(scope, limit, used, requested)) else Ok(())
  }

  // ----- begin

  function ValidateBegin(limits: Limits, q: BeginUpload): Result<(), UploadError> {
    if Blank(q.owner) || Blank(q.key) || Blank(q.media) || q.expires <= q.now then Err(InvalidRequest)
    else if q.size > limits.maxUpload then Err(SizeLimitExceeded(limits.maxUpload, q.size))
    else Ok(())
  }

  function Opened(s: Store, q: BeginUpload): Session {
    Session(UploadId(s.nextId + 1), q.owner, q.key, q.digest, q.size, q.media, 0, Open, q.expires, None, [], q.size)
  }

  predicate SameUpload(x: Session, q: BeginUpload) {
    x.digest == q.digest && x.size == q.size && x.media == q.media
  }

  ghost function BeginAnswer(limits: Limits, s: Store, q: BeginUpload): Result<Session, UploadError> {
    var _ :- ValidateBegin(limits, q);
    if (q.owner, q.key) in s.sessionKeys then
      var id := s.sessionKeys[(q.owner, q.key)];
      if id in s.sessions && SameUpload(s.sessions[id], q) then Ok(s.sessions[id]) else Err(ConflictingUploadKey)
    else
      var _ :- Enforce(TotalQuota, limits.total, Stored(s) + Reserved(s, q.now), q.size);
      var _ :- Enforce(OwnerQuota, limits.perOwner,
                       OwnerStored(s, q.owner) + OwnerReserved(s, q.owner, q.now), q.size);
      Ok(Opened(s, q))
  }

  ghost function AfterBegin(limits: Limits, s: Store, q: BeginUpload): Store {
    if BeginAnswer(limits, s, q).Err? || (q.owner, q.key) in s.sessionKeys then s
    else
      var x := Opened(s, q);
      s.(nextId := s.nextId + 1, sessions := s.sessions[x.id := x],
         sessionKeys := s.sessionKeys[(q.owner, q.key) := x.id])
  }

  // ----- append

  function AppendAnswer(limits: Limits, s: Store, owner: string, id: string, offset: nat, chunk: Bytes, now: nat)
    : Result<nat, UploadError>
  {
    if |chunk| > limits.maxChunk then Err(ChunkTooLarge(limits.maxChunk, |chunk|))
    else if id !in s.sessions then Err(NotFound)
    else
      var x := s.sessions[id];
      if x.owner != owner then Err(OwnerMismatch)
      else if !x.state.Open? then Err(InvalidState(x.state))
      else if now >= x.expires then Err(Expired)
      else if offset != x.offset then Err(OffsetConflict(x.offset, offset))
      else if offset + |chunk| > x.size || offset + |chunk| > limits.maxUpload
      then Err(SizeLimitExceeded(if x.size < limits.maxUpload then x.size else limits.maxUpload, offset + |chunk|))
      else Ok(offset + |chunk|)
  }

  function AfterAppend(limits: Limits, s: Store, owner: string, id: string, offset: nat, chunk: Bytes, now: nat): Store {
    if AppendAnswer(limits, s, owner, id, offset, chunk, now).Err? then s
    else
      var x := s.sessions[id];
      s.(sessions := s.sessions[id := x.(bytes := x.bytes + chunk, offset := offset + |chunk|)])
  }

  // ----- finalize

  /** Verified ingestion into the artifact store; `fault` is a failure of the store itself. */
  function Ingest(limit: nat, fault: Option<ArtifactError>, bytes: Bytes, digest: Digest, size: nat)
    : Result<Identity, ArtifactError>
  {
    if size > limit || |bytes| > limit then Err(OverLimit)
    else if fault.Some? then Err(fault.value)
    else if |bytes| != size then Err(SizeMismatch)
    else if DigestOf(bytes) != digest then Err(DigestMismatch)
    else Ok(Identity(digest, size))
  }

  predicate IsFinal(e: ArtifactError) {
    !e.IoFault?
  }

  /** Whether finalization gets as far as the artifact store. */
  function FinalizeCheck(s: Store, owner: string, id: string, now: nat): Result<Option<Identity>, UploadError> {
    if id !in s.sessions then Err(NotFound)
    else
      var x := s.sessions[id];
      if x.owner != owner then Err(OwnerMismatch)
      else if x.state.Completed? then if x.artifact.Some? then Ok(x.artifact) else Err(Corrupt)
      else if !Pending(x.state) then Err(InvalidState(x.state))
      else if now >= x.expires then Err(Expired)
      else if x.offset != x.size then Err(IncompleteUpload(x.size, x.offset))
      else Ok(None)
  }

  function FinalizeAnswer(s: Store, owner: string, id: string, now: nat, limit: nat, fault: Option<ArtifactError>)
    : Result<Identity, UploadError>
  {
    var done :- FinalizeCheck(s, owner, id, now);
    if done.Some? then Ok(done.value)
    else
      var x := s.sessions[id];
      var ingested := Ingest(limit, fault, x.bytes, x.digest, x.size);
      if ingested.Err? then Err(Artifact(ingested.error)) else Ok(ingested.value)
  }

  function UploadReference(x: Session, id: string, artifact: Identity, now: nat): Reference {
    Reference(x.owner, UploadReferenceKey(id), artifact.digest, Upload, "completed upload", now, None, None)
  }

  function Published(s: Store, id: string, artifact: Identity, now: nat): Store
    requires id in s.sessions
  {
    var x := s.sessions[id];
    s.(objects := if artifact.digest in s.objects then s.objects else s.objects[artifact.digest := artifact.size],
       references := s.references[(x.owner, UploadReferenceKey(id)) := UploadReference(x, id, artifact, now)],
       sessions := s.sessions[id := x.(state := Completed, artifact := Some(artifact), reserved := 0)])
  }

  function AfterFinalize(s: Store, owner: string, id: string, now: nat, limit: nat, fault: Option<ArtifactError>): Store {
    var check := FinalizeCheck(s, owner, id, now);
    if check.Err? || check.value.Some? then s
    else
      var x := s.sessions[id];
      var ingested := Ingest(limit, fault, x.bytes, x.digest, x.size);
      if ingested.Ok? then Published(s, id, ingested.value, now)
      else if IsFinal(ingested.error)
      then s.(sessions := s.sessions[id := x.(state := Failed, reserved := 0)])
      else s.(sessions := s.sessions[id := x.(state := Finalizing)])
  }

  // ----- references

  function ValidateGrant(q: GrantReference): Result<(), UploadError> {
    if Blank(q.owner) || Blank(q.key) || q.kind.Upload? || Blank(q.purpose)
       || (q.retained.Some? && q.retained.value <= q.now)
    then Err(InvalidRequest) else Ok(())
  }

  predicate SameGrant(r: Reference, q: GrantReference) {
    r.digest == q.digest && r.kind == q.kind && r.purpose == q.purpose && r.retained == q.retained && r.revoked.None?
  }

  function Granted(q: GrantReference): Reference {
    Reference(q.owner, q.key, q.digest, q.kind, q.purpose, q.now, q.retained, None)
  }

  ghost function GrantAnswer(limits: Limits, s: Store, q: GrantReference): Result<Reference, UploadError> {
    var _ :- ValidateGrant(q);
    if (q.owner, q.key) in s.references then
      var r := s.references[(q.owner, q.key)];
      if SameGrant(r, q) then Ok(r)
      else Err(if r.revoked.Some? then ReferenceRevoked else ConflictingReferenceKey)
    else if q.digest !in s.objects then Err(NotFound)
    else
      var _ :- if Active(s.references, q.owner, q.digest) then Ok(())
               else Enforce(OwnerQuota, limits.perOwner,
                            OwnerStored(s, q.owner) + OwnerReserved(s, q.owner, q.now), s.objects[q.digest]);
      Ok(Granted(q))
  }

  ghost function AfterGrant(limits: Limits, s: Store, q: GrantReference): Store {
    if GrantAnswer(limits, s, q).Err? || (q.owner, q.key) in s.references then s
    else s.(references := s.references[(q.owner, q.key) := Granted(q)])
  }

  function RevokeAnswer(s: Store, owner: string, key: string, now: nat): Result<Reference, UploadError> {
    if Blank(owner) || Blank(key) then Err(InvalidRequest)
    else if (owner, key) !in s.references then Err(NotFound)
    else
      var r := s.references[(owner, key)];
      Ok(if r.revoked.None? then r.(revoked := Some(now)) else r)
  }

  function AfterRevoke(s: Store, owner: string, key: string, now: nat): Store {
    var answer := RevokeAnswer(s, owner, key, now);
    if answer.Err? then s else s.(references := s.references[(owner, key) := answer.value])
  }

  // ----- expiry and collection

  predicate Expirable(x: Session, now: nat) {
    !x.state.Completed? && x.expires <= now
  }

  function AfterPrune(s: Store, now: nat): Store {
    s.(sessions := map id | id in s.sessions && !Expirable(s.sessions[id], now) :: s.sessions[id],
       sessionKeys := map k | k in s.sessionKeys
                              && !(s.sessionKeys[k] in s.sessions && Expirable(s.sessions[s.sessionKeys[k]], now))
                      :: s.sessionKeys[k])
  }

  predicate Protects(r: Reference, d: Digest, now: nat) {
    r.digest == d && (r.revoked.None? || (r.retained.Some? && r.retained.value > now))
  }

  predicate Expects(x: Session, d: Digest, now: nat) {
    x.digest == d && Pending(x.state) && x.expires > now
  }

  predicate Reachable(s: Store, d: Digest, now: nat) {
    || (exists k :: k in s.references && Protects(s.references[k], d, now))
    || (exists id :: id in s.sessions && Expects(s.sessions[id], d, now))
  }

  /** `removed` are the objects that a collection really removed. */
  predicate Collectable(s: Store, removed: set<Digest>, now: nat) {
    forall d :: d in removed ==> d in s.objects && !Reachable(s, d, now)
  }

  function AfterCollect(s: Store, removed: set<Digest>, now: nat): Store {
    if Collectable(s, removed, now) then s.(objects := s.objects - removed) else s
  }
}
