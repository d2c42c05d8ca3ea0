/** Whole runs of the upload store: any sequence of operations whose clock does not run backwards. */
module UploadRuns {
  import opened Outcomes
  import opened Sums
  import opened UploadRecords
  import opened UploadInvariant

  datatype Op =
    | Begin(upload: BeginUpload)
    | Append(owner: string, id: string, offset: nat, chunk: Bytes, at: nat)
    | Finalize(owner: string, id: string, at: nat, limit: nat, fault: Option<ArtifactError>)
    | Grant(grant: GrantReference)
    | Revoke(owner: string, key: string, at: nat)
    | Prune(at: nat)
    | Collect(removed: set<Digest>, at: nat)

  function Now(op: Op): nat {
    match op
    case Begin(q) => q.now
    case Grant(q) => q.now
    case _ => op.at
  }

  ghost function Apply(limits: Limits, s: Store, op: Op): Store {
    match op
    case Begin(q) => AfterBegin(limits, s, q)
    case Append(owner, id, offset, chunk, at) => AfterAppend(limits, s, owner, id, offset, chunk, at)
    case Finalize(owner, id, at, limit, fault) => AfterFinalize(s, owner, id, at, limit, fault)
    case Grant(q) => AfterGrant(limits, s, q)
    case Revoke(owner, key, at) => AfterRevoke(s, owner, key, at)
    case Prune(at) => AfterPrune(s, at)
    case Collect(removed, at) => AfterCollect(s, removed, at)
  }

  ghost function Run(limits: Limits, ops: seq<Op>): Store {
    if ops == [] then EMPTY else Apply(limits, Run(limits, ops[..|ops| - 1]), ops[|ops| - 1])
  }

  /** The clock at the end of a run. */
  function Clock(ops: seq<Op>): nat {
    if ops == [] then 0 else Now(ops[|ops| - 1])
  }

  ghost predicate Ordered(ops: seq<Op>) {
    forall i :: 0 < i < |ops| ==> Now(ops[i - 1]) <= Now(ops[i])
  }

  lemma OrderedPrefix(ops: seq<Op>)
    requires Ordered(ops) && ops != []
    ensures Ordered(ops[..|ops| - 1]) && Clock(ops[..|ops| - 1]) <= Now(ops[|ops| - 1])
  {
  }

  // ----- The invariant

  lemma ApplyKeeps(limits: Limits, s: Store, op: Op, clock: nat)
    requires StoreInv(limits, s, clock) && clock <= Now(op)
    ensures StoreInv(limits, Apply(limits, s, op), Now(op))
  {
    hide RecordsOk, QuotaOk, AfterBegin, AfterAppend, AfterFinalize, AfterGrant, AfterRevoke, AfterPrune, AfterCollect;
    TimePasses(limits, s, clock, Now(op));
    match op
    case Begin(q) => BeginKeeps(limits, s, q);
    case Append(owner, id, offset, chunk, at) => AppendKeeps(limits, s, owner, id, offset, chunk, at);
    case Finalize(owner, id, at, limit, fault) => FinalizeKeeps(limits, s, owner, id, at, limit, fault);
    case Grant(q) => GrantKeeps(limits, s, q);
    case Revoke(owner, key, at) => RevokeKeeps(limits, s, owner, key, at);
    case Prune(at) => PruneKeeps(limits, s, at);
    case Collect(removed, at) => CollectKeeps(limits, s, removed, at);
  }

  lemma EmptyInv(limits: Limits)
    ensures StoreInv(limits, EMPTY, 0)
  {
  }

  /** Quotas, indexes, session bytes and present references hold after every run. */
  lemma {:induction false} RunInv(limits: Limits, ops: seq<Op>)
    requires Ordered(ops)
    ensures StoreInv(limits, Run(limits, ops), Clock(ops))
    decreases |ops|
  {
    hide StoreInv, Apply;
    if ops == [] {
      EmptyInv(limits);
    } else {
      var init := ops[..|ops| - 1];
      OrderedPrefix(ops);
      RunInv(limits, init);
      ApplyKeeps(limits, Run(limits, init), ops[|ops| - 1], Clock(init));
    }
  }

  /** Over every run, stored and live reserved bytes stay within both quotas. */
  lemma QuotaConservation(limits: Limits, ops: seq<Op>, owner: string)
    requires Ordered(ops)
    ensures var s := Run(limits, ops);
            && Stored(s) + Reserved(s, Clock(ops)) <= limits.total
            && OwnerStored(s, owner) + OwnerReserved(s, owner, Clock(ops)) <= limits.perOwner
  {
    hide RecordsOk, Run, Stored, Reserved, OwnerStored, OwnerReserved;
    RunInv(limits, ops);
    assert OwnerOk(limits, Run(limits, ops), owner, Clock(ops));
  }

  // ----- Exactly-once append

  function Concat(chunks: seq<Bytes>): Bytes {
    if chunks == [] then [] else Concat(chunks[..|chunks| - 1]) + chunks[|chunks| - 1]
  }

  ghost predicate AppendsTo(limits: Limits, s: Store, op: Op, id: string) {
    op.Append? && op.id == id && AppendAnswer(limits, s, op.owner, id, op.offset, op.chunk, op.at).Ok?
  }

  ghost function ChunkOf(limits: Limits, s: Store, op: Op, id: string): seq<Bytes> {
    if AppendsTo(limits, s, op, id) then [op.chunk] else []
  }

  lemma ConcatGrows(chunks: seq<Bytes>, more: seq<Bytes>)
    requires |more| <= 1
    ensures Concat(chunks + more) == Concat(chunks) + Concat(more)
  {
    if more == [] {
      assert chunks + more == chunks;
    } else {
      assert (chunks + more)[..|chunks|] == chunks;
      assert more[..0] == [];
    }
  }

  /** The chunks that were accepted for this upload, in order. */
  ghost function Accepted(limits: Limits, ops: seq<Op>, id: string): seq<Bytes> {
    if ops == [] then []
    else
      var init, last := ops[..|ops| - 1], ops[|ops| - 1];
      Accepted(limits, init, id) + ChunkOf(limits, Run(limits, init), last, id)
  }

  /** How one operation changes a session's bytes. */
  lemma BytesAfter(limits: Limits, s: Store, op: Op, id: string)
    requires IdsOk(s) && id in Apply(limits, s, op).sessions
    ensures id in s.sessions ==>
              Apply(limits, s, op).sessions[id].bytes == s.sessions[id].bytes + Concat(ChunkOf(limits, s, op, id))
    ensures id !in s.sessions ==> Apply(limits, s, op).sessions[id].bytes == [] && !Issued(s, id)
  {
    hide BeginAnswer, GrantAnswer, UploadId, Collectable, Ingest, Concat;
    NextIdIsNew(s);
    ConcatOne(op);
  }

  lemma ConcatOne(op: Op)
    ensures Concat([]) == [] && (op.Append? ==> Concat([op.chunk]) == op.chunk)
  {
  }

  lemma IssuedAfter(limits: Limits, s: Store, op: Op, id: string)
    requires RecordsOk(limits, s)
    ensures Issued(s, id) || AppendsTo(limits, s, op, id) ==> Issued(Apply(limits, s, op), id)
  {
    hide BeginAnswer, GrantAnswer, KeysOk, UploadId, Collectable, ReferencesOk, ObjectsOk, SessionsOk;
    assert s.nextId <= Apply(limits, s, op).nextId;
    if Issued(s, id) {
      var n :| 1 <= n <= s.nextId && id == UploadId(n);
      assert n <= Apply(limits, s, op).nextId;
    }
  }

  lemma {:induction false} AcceptedIsIssued(limits: Limits, ops: seq<Op>, id: string)
    requires Ordered(ops)
    ensures Accepted(limits, ops, id) != [] ==> Issued(Run(limits, ops), id)
    decreases |ops|
  {
    hide Apply, QuotaOk, RecordsOk, AppendsTo, Issued;
    if ops != [] {
      var init := ops[..|ops| - 1];
      OrderedPrefix(ops);
      RunInv(limits, init);
      AcceptedIsIssued(limits, init, id);
      IssuedAfter(limits, Run(limits, init), ops[|ops| - 1], id);
    }
  }

  /** Whatever was accepted, stale, oversized or foreign: the bytes of an upload are exactly its
      accepted chunks in order, and their number is the committed offset. */
  lemma {:induction false} AppendsExactlyOnce(limits: Limits, ops: seq<Op>, id: string)
    requires Ordered(ops) && id in Run(limits, ops).sessions
    ensures Run(limits, ops).sessions[id].bytes == Concat(Accepted(limits, ops, id))
    ensures SessionOk(limits, id, Run(limits, ops).sessions[id])
    decreases |ops|
  {
    hide Apply, QuotaOk, AppendsTo, Issued, SessionOk, KeysOk, IdsOk, ObjectsOk, ReferencesOk;
    RunInv(limits, ops);
    if ops != [] {
      var init, last := ops[..|ops| - 1], ops[|ops| - 1];
      var s := Run(limits, init);
      OrderedPrefix(ops);
      RunInv(limits, init);
      BytesAfter(limits, s, last, id);
      ConcatGrows(Accepted(limits, init, id), ChunkOf(limits, s, last, id));
      if id in s.sessions {
        AppendsExactlyOnce(limits, init, id);
      } else {
        AcceptedIsIssued(limits, init, id);
        NotAppended(limits, s, last, id);
      }
    }
  }

  lemma NotAppended(limits: Limits, s: Store, op: Op, id: string)
    requires id !in s.sessions
    ensures !AppendsTo(limits, s, op, id)
  {
  }
}
