/**
The authoritative store of idempotent speech operations: at most one record per scope, pending under a
lease or completed with a retained response. The class changes the records in place; the functions say
what each operation does to the record of one scope, and are what the protocol proofs use.

Times are milliseconds of the database clock.
*/
module IdempotencyStore {
  import opened Wrappers

  /** Text that is only compared. */
  type Text = int

  datatype Operation = Tts | Stt

  datatype Scope = Scope(actor: Text, operation: Operation, key: Text)

  datatype Response = Response(operation: Operation, requestId: nat, content: Text)

  datatype Record =
    | Pending(digest: Text, requestId: nat, createdAt: int, expiresAt: int, lease: nat, leaseExpiresAt: int)
    | Completed(digest: Text, requestId: nat, createdAt: int, expiresAt: int, response: Response)

  datatype Claim = Claim(digest: Text, requestId: nat, lease: nat, leaseDuration: nat)

  datatype Decision =
    | Acquired(lease: nat, leaseExpiresAt: int, requestId: nat, startedAt: int)
    | Replay(response: Response)
    | KeyReused
    | InProgress(retryAfter: int)

  datatype StoreError = LeaseLost | InvalidRecord

  type Cell = Option<Record>

  datatype Status = Running | Finished | Broken

  /** The history row of an operation, named by its request id. A finished one has no lease. */
  datatype Job = Job(scope: Scope, digest: Text, status: Status, lease: Option<nat>, leaseExpiresAt: int)

  /** A record may be deleted once its retention is over, and while pending only after its lease. */
  predicate Purgeable(record: Record, now: int) {
    record.expiresAt <= now && (record.Pending? ==> record.leaseExpiresAt <= now)
  }

  function Fresh(claim: Claim, ttl: nat, now: int): Record {
    Pending(claim.digest, claim.requestId, now, now + ttl, claim.lease, now + claim.leaseDuration)
  }

  /** Whole seconds left of the lease, at least one, but never more than the configured hint. */
  function RetryAfter(remaining: int, hint: nat): int {
    var seconds := (remaining + 999) / 1000;
    var left := 1000 * if seconds < 1 then 1 else seconds;
    if hint < left then hint else left
  }

  /** Waiting as told reaches the end of the lease, unless the hint cuts the wait short; it is never
      less than a second when the hint is not. */
  lemma RetryAfterReachesTheLeaseEnd(remaining: int, hint: nat)
    ensures RetryAfter(remaining, hint) <= hint
    ensures RetryAfter(remaining, hint) < hint ==> RetryAfter(remaining, hint) >= remaining
    ensures hint >= 1000 ==> RetryAfter(remaining, hint) >= 1000
    ensures remaining > 1000 && RetryAfter(remaining, hint) < hint ==> RetryAfter(remaining, hint) < remaining + 1000
  {
  }

  /** It is the shortest wait of whole seconds that does, or the hint. */
  lemma RetryAfterIsShortest(remaining: int, hint: nat, seconds: nat)
    requires seconds >= 1 && 1000 * seconds >= remaining
    ensures RetryAfter(remaining, hint) <= 1000 * seconds
    ensures RetryAfter(remaining, hint) == hint || RetryAfter(remaining, hint) % 1000 == 0
  {
  }

  function ClaimCell(cell: Cell, operation: Operation, claim: Claim, ttl: nat, hint: nat, now: int)
    : (r: (Cell, Result<Decision, StoreError>))
  {
    if cell.None? || Purgeable(cell.value, now) then
      var first := Fresh(claim, ttl, now);
      (Some(first), Ok(Acquired(claim.lease, first.leaseExpiresAt, claim.requestId, now)))
    else
      var stored := cell.value;
      if stored.digest != claim.digest then (cell, Ok(KeyReused))
      else match stored
        case Completed(_, requestId, _, _, response) =>
          if response.operation != operation || response.requestId != requestId then (cell, Err(InvalidRecord))
          else (cell, Ok(Replay(response)))
        case Pending(_, requestId, createdAt, _, _, leaseExpiresAt) =>
          if leaseExpiresAt <= now then
            var reclaimed := stored.(lease := claim.lease, leaseExpiresAt := now + claim.leaseDuration);
            (Some(reclaimed), Ok(Acquired(claim.lease, reclaimed.leaseExpiresAt, requestId, createdAt)))
          else (cell, Ok(InProgress(RetryAfter(leaseExpiresAt - now, hint))))
  }

  /** The digest, the request id, the time of creation and the retention are the same. */
  predicate SameRecord(a: Record, b: Record) {
    a.digest == b.digest && a.requestId == b.requestId && a.createdAt == b.createdAt && a.expiresAt == b.expiresAt
  }

  /** What a claim of a scope comes to. */
  lemma ClaimMeans(cell: Cell, operation: Operation, claim: Claim, ttl: nat, hint: nat, now: int)
    ensures var (after, decision) := ClaimCell(cell, operation, claim, ttl, hint, now);
      var over := cell.Some? && cell.value.expiresAt <= now
                  && (cell.value.Completed? || cell.value.leaseExpiresAt <= now);
      && after.Some?
      // Nothing there, or a record that is over: a new record, and its lease.
      && (cell.None? || over ==>
            && after == Some(Pending(claim.digest, claim.requestId, now, now + ttl,
                                     claim.lease, now + claim.leaseDuration))
            && decision == Ok(Acquired(claim.lease, now + claim.leaseDuration, claim.requestId, now)))
      && (cell.Some? && !over ==>
            && SameRecord(cell.value, after.value)
            // Another body under the same key.
            && (decision == Ok(KeyReused) <==> cell.value.digest != claim.digest)
            // Completed: the stored response, and nothing else is ever replayed.
            && (decision.Ok? && decision.value.Replay? ==>
                  cell.value.Completed? && decision.value.response == cell.value.response
                  && cell.value.response.operation == operation
                  && cell.value.response.requestId == cell.value.requestId)
            && (cell.value.Completed? && cell.value.digest == claim.digest ==>
                  decision.Err? || decision == Ok(Replay(cell.value.response)))
            && (decision.Err? ==> decision.error == InvalidRecord)
            && (decision.Err? <==>
                  cell.value.Completed? && cell.value.digest == claim.digest
                  && (cell.value.response.operation != operation
                      || cell.value.response.requestId != cell.value.requestId))
            // Pending: to be waited for until the lease is over, then taken up again.
            && (decision.Ok? && decision.value.InProgress? <==>
                  cell.value.Pending? && cell.value.digest == claim.digest && now < cell.value.leaseExpiresAt)
            && (decision.Ok? && decision.value.InProgress? ==>
                  decision.value.retryAfter == RetryAfter(cell.value.leaseExpiresAt - now, hint))
            && (decision.Ok? && decision.value.Acquired? <==>
                  cell.value.Pending? && cell.value.digest == claim.digest && cell.value.leaseExpiresAt <= now)
            && (decision.Ok? && decision.value.Acquired? ==>
                  && decision.value == Acquired(claim.lease, now + claim.leaseDuration,
                                                cell.value.requestId, cell.value.createdAt)
                  && after.value.Pending? && after.value.lease == claim.lease
                  && after.value.leaseExpiresAt == now + claim.leaseDuration)
            // Only taking it up again changes the record.
            && (!(decision.Ok? && decision.value.Acquired?) ==> after == cell))
  {
  }

  /** The token alone decides: an expired lease that nobody reclaimed still completes. */
  predicate Owns(cell: Cell, lease: nat) {
    cell.Some? && cell.value.Pending? && cell.value.lease == lease
  }

  function StartCell(cell: Cell, lease: nat, now: int): Result<(), StoreError> {
    if Owns(cell, lease) && cell.value.leaseExpiresAt > now then Ok(()) else Err(LeaseLost)
  }

  function CompleteCell(cell: Cell, operation: Operation, lease: nat, response: Response, ttl: nat, now: int)
    : (Cell, Result<(), StoreError>)
  {
    if response.operation != operation then (cell, Err(InvalidRecord))
    else if !Owns(cell, lease) || cell.value.requestId != response.requestId then (cell, Err(LeaseLost))
    else (Some(Completed(cell.value.digest, cell.value.requestId, cell.value.createdAt, now + ttl, response)), Ok(()))
  }

  /** Releasing ends the lease now; the record stays, to be reclaimed under its first request id. */
  function ReleaseCell(cell: Cell, lease: nat, now: int): (Cell, Result<(), StoreError>) {
    if Owns(cell, lease) then (Some(cell.value.(leaseExpiresAt := now)), Ok(())) else (cell, Err(LeaseLost))
  }

  /** A completion is taken from the holder of the lease, for the record's own request and operation; what
      identifies the record stays. */
  lemma CompletionMeans(cell: Cell, operation: Operation, lease: nat, response: Response, ttl: nat, now: int)
    ensures var (after, done) := CompleteCell(cell, operation, lease, response, ttl, now);
      && (done.Ok? <==> cell.Some? && cell.value.Pending? && cell.value.lease == lease
                        && cell.value.requestId == response.requestId && response.operation == operation)
      && (done.Err? ==> after == cell)
      && (done.Err? ==> done.error == if response.operation != operation then InvalidRecord else LeaseLost)
      && (done.Ok? ==>
            && after.Some? && after.value.Completed? && after.value.response == response
            && after.value.digest == cell.value.digest && after.value.requestId == cell.value.requestId
            && after.value.createdAt == cell.value.createdAt && after.value.expiresAt == now + ttl)
  {
  }

  /** A release ends the lease it names, now, and changes nothing else. */
  lemma ReleaseMeans(cell: Cell, lease: nat, now: int)
    ensures var (after, done) := ReleaseCell(cell, lease, now);
      && (done.Ok? <==> cell.Some? && cell.value.Pending? && cell.value.lease == lease)
      && (done.Err? ==> done.error == LeaseLost && after == cell)
      && (done.Ok? ==>
            && after.Some? && after.value.Pending? && SameRecord(cell.value, after.value)
            && after.value.lease == lease && after.value.leaseExpiresAt == now)
  {
  }

  /** A job row may be taken over unless it is finished or belongs to another operation. */
  predicate Startable(jobs: map<nat, Job>, requestId: nat, scope: Scope, digest: Text) {
    requestId in jobs ==>
      jobs[requestId].scope == scope && jobs[requestId].digest == digest && jobs[requestId].status != Finished
  }

  predicate RunsUnder(jobs: map<nat, Job>, requestId: nat, lease: nat) {
    requestId in jobs && jobs[requestId].lease == Some(lease)
  }

  predicate Abandoned(job: Job, now: int) {
    job.status == Running && job.leaseExpiresAt <= now
  }

  /** Of these records none had its retention end earlier. */
  predicate Oldest(records: map<Scope, Record>, among: set<Scope>, scope: Scope)
    requires among <= records.Keys
  {
    scope in among && forall other :: other in among ==> records[scope].expiresAt <= records[other].expiresAt
  }

  lemma {:induction false} OldestExists(records: map<Scope, Record>, among: set<Scope>)
    requires among <= records.Keys && among != {}
    ensures exists scope :: Oldest(records, among, scope)
    decreases |among|
  {
    var first :| first in among;
    if among != {first} {
      assert among == among - {first} + {first};
      OldestExists(records, among - {first});
      var oldest :| Oldest(records, among - {first}, oldest);
      assert Oldest(records, among, if records[first].expiresAt <= records[oldest].expiresAt then first else oldest);
    } else {
      assert Oldest(records, among, first);
    }
  }

  class Store {
    var records: map<Scope, Record>
    var jobs: map<nat, Job>
    const ttl: nat
    const hint: nat

    function Cell(scope: Scope): Cell
      reads this
    {
      if scope in records then Some(records[scope]) else None
    }

    /** The history agrees with the records: what is completed is finished, for good. */
    ghost predicate Valid()
      reads this
    {
      && (forall scope :: scope in records && records[scope].Completed? ==>
            records[scope].requestId in jobs && jobs[records[scope].requestId].status == Finished)
      && (forall id :: id in jobs && jobs[id].status == Finished ==> jobs[id].lease == None)
    }

    /** A completed record that is still retained. */
    predicate Retained(scope: Scope, now: int)
      reads this
    {
      scope in records && records[scope].Completed? && now < records[scope].expiresAt
    }

    constructor (ttl: nat, hint: nat)
      ensures Valid() && records == map[] && jobs == map[] && this.ttl == ttl && this.hint == hint
    {
      records, jobs, this.ttl, this.hint := map[], map[], ttl, hint;
    }

    method Claim(scope: Scope, claim: Claim, now: int) returns (decision: Result<Decision, StoreError>)
      requires Valid()
      modifies this`records
      ensures Valid()
      ensures (Cell(scope), decision) == ClaimCell(old(Cell(scope)), scope.operation, claim, ttl, hint, now)
      ensures records - {scope} == old(records) - {scope}
      ensures old(Retained(scope, now)) ==> records == old(records) && !(decision.Ok? && decision.value.Acquired?)
      // A record that is not over keeps its identity, and whoever takes it up is told it.
      ensures scope in old(records) && !Purgeable(old(records)[scope], now) ==>
        && scope in records && SameRecord(old(records)[scope], records[scope])
        && (decision.Ok? && decision.value.Acquired? ==>
              decision.value.requestId == old(records)[scope].requestId
              && decision.value.startedAt == old(records)[scope].createdAt)
      // A lease goes to this claim alone, and only over no record, one that is over, or one left pending
      // by an expired lease for the same request body.
      ensures decision.Ok? && decision.value.Acquired? ==>
        && decision.value.lease == claim.lease && decision.value.leaseExpiresAt == now + claim.leaseDuration
        && scope in records && records[scope].Pending? && records[scope].digest == claim.digest
        && records[scope].lease == claim.lease && records[scope].leaseExpiresAt == now + claim.leaseDuration
      ensures decision.Ok? && decision.value.Acquired?
              && scope in old(records) && !Purgeable(old(records)[scope], now) ==>
        old(records)[scope].Pending? && old(records)[scope].leaseExpiresAt <= now
        && old(records)[scope].digest == claim.digest
      ensures scope !in old(records) || Purgeable(old(records)[scope], now) ==>
        && decision == Ok(Acquired(claim.lease, now + claim.leaseDuration, claim.requestId, now))
        && records[scope].requestId == claim.requestId && records[scope].createdAt == now
        && records[scope].expiresAt == now + ttl
    {
      if scope in records && Purgeable(records[scope], now) {
        records := records - {scope};
      }
      if scope !in records {
        records := records[scope := Fresh(claim, ttl, now)];
        return Ok(Acquired(claim.lease, now + claim.leaseDuration, claim.requestId, now));
      }
      var stored := records[scope];
      if stored.digest != claim.digest {
        return Ok(KeyReused);
      }
      match stored {
        case Completed(_, requestId, _, _, response) =>
          if response.operation != scope.operation || response.requestId != requestId {
            return Err(InvalidRecord);
          }
          return Ok(Replay(response));
        case Pending(_, requestId, createdAt, _, _, leaseExpiresAt) =>
          if leaseExpiresAt > now {
            return Ok(InProgress(RetryAfter(leaseExpiresAt - now, hint)));
          }
          records := records[scope := stored.(lease := claim.lease, leaseExpiresAt := now + claim.leaseDuration)];
          return Ok(Acquired(claim.lease, now + claim.leaseDuration, requestId, createdAt));
      }
    }

    /** A job starts only under the current lease, not once that has run out, and not over the history
        row of another or a finished operation. */
    method StartJob(scope: Scope, lease: nat, now: int) returns (started: Result<(), StoreError>)
      requires Valid()
      modifies this`jobs
      ensures Valid()
      ensures started.Ok? ==> StartCell(Cell(scope), lease, now).Ok?
      ensures started.Ok? <==>
        && scope in records && records[scope].Pending? && records[scope].lease == lease
        && now < records[scope].leaseExpiresAt
        && (records[scope].requestId in old(jobs) ==>
              var job := old(jobs)[records[scope].requestId];
              && job.scope == scope && job.digest == records[scope].digest
              && (job.status == Running || job.status == Broken))
      ensures started.Err? ==> started.error == LeaseLost && jobs == old(jobs)
      ensures started.Ok? ==>
        jobs == old(jobs)[records[scope].requestId :=
                            Job(scope, records[scope].digest, Running, Some(lease), records[scope].leaseExpiresAt)]
    {
      if scope !in records || records[scope].Completed? || records[scope].lease != lease
         || records[scope].leaseExpiresAt <= now
      {
        return Err(LeaseLost);
      }
      var stored := records[scope];
      if !Startable(jobs, stored.requestId, scope, stored.digest) {
        return Err(LeaseLost);
      }
      jobs := jobs[stored.requestId := Job(scope, stored.digest, Running, Some(lease), stored.leaseExpiresAt)];
      started := Ok(());
    }

    /** Completes the record and its job together, or neither. */
    method Complete(scope: Scope, lease: nat, response: Response, now: int) returns (done: Result<(), StoreError>)
      requires Valid()
      modifies this`records, this`jobs
      ensures Valid()
      ensures var (cell, alone) := CompleteCell(old(Cell(scope)), scope.operation, lease, response, ttl, now);
        && (done.Ok? <==> alone.Ok? && response.requestId in old(jobs)
                          && old(jobs)[response.requestId].lease == Some(lease))
        && (done.Ok? ==> Cell(scope) == cell)
        && (done.Err? ==> done == if alone.Err? then alone else Err(InvalidRecord))
      ensures done.Ok? ==>
        jobs == old(jobs)[response.requestId := old(jobs)[response.requestId].(status := Finished, lease := None)]
      ensures done.Err? ==> records == old(records) && jobs == old(jobs)
      ensures records - {scope} == old(records) - {scope}
      ensures old(Retained(scope, now)) ==> records == old(records)
    {
      if response.operation != scope.operation {
        return Err(InvalidRecord);
      }
      if scope !in records {
        return Err(LeaseLost);
      }
      var stored := records[scope];
      if stored.Completed? || stored.lease != lease || stored.requestId != response.requestId {
        return Err(LeaseLost);
      }
      if !RunsUnder(jobs, response.requestId, lease) {
        return Err(InvalidRecord);
      }
      records := records[scope := Completed(stored.digest, stored.requestId, stored.createdAt, now + ttl, response)];
      jobs := jobs[response.requestId := jobs[response.requestId].(status := Finished, lease := None)];
      done := Ok(());
    }

    method Release(scope: Scope, lease: nat, now: int) returns (done: Result<(), StoreError>)
      requires Valid()
      modifies this`records, this`jobs
      ensures Valid()
      ensures (Cell(scope), done) == ReleaseCell(old(Cell(scope)), lease, now)
      ensures records - {scope} == old(records) - {scope}
      ensures old(Retained(scope, now)) ==> records == old(records) && jobs == old(jobs)
      ensures forall id :: id in old(jobs) && old(jobs)[id].status == Finished ==>
        id in jobs && jobs[id] == old(jobs)[id]
      ensures done.Ok? && scope in old(records) ==>
        var id := old(records)[scope].requestId;
        jobs == if id in old(jobs) && old(jobs)[id].lease == Some(lease) && old(jobs)[id].status == Running
                then old(jobs)[id := old(jobs)[id].(status := Broken, leaseExpiresAt := now)] else old(jobs)
    {
      if scope !in records || records[scope].Completed? || records[scope].lease != lease {
        return Err(LeaseLost);
      }
      var id := records[scope].requestId;
      records := records[scope := records[scope].(leaseExpiresAt := now)];
      if RunsUnder(jobs, id, lease) && jobs[id].status == Running {
        jobs := jobs[id := jobs[id].(status := Broken, leaseExpiresAt := now)];
      }
      done := Ok(());
    }

    /** Marks the jobs of crashed attempts once their lease is over. Active and finished ones never change,
        and a late completion under the same lease still finds its job. */
    method RecoverAbandonedJobs(now: int) returns (recovered: nat)
      requires Valid()
      modifies this`jobs
      ensures Valid()
      ensures jobs.Keys == old(jobs).Keys
      ensures forall id :: id in jobs ==>
        jobs[id] == if old(jobs)[id].status == Running && old(jobs)[id].leaseExpiresAt <= now
                    then old(jobs)[id].(status := Broken) else old(jobs)[id]
      ensures forall id :: id in jobs ==> !Abandoned(jobs[id], now)
      ensures forall id, lease :: RunsUnder(jobs, id, lease) <==> RunsUnder(old(jobs), id, lease)
      ensures recovered == |set id | id in jobs && jobs[id] != old(jobs)[id]|
    {
      ghost var abandoned := set id | id in jobs && Abandoned(jobs[id], now);
      recovered := |set id | id in jobs && Abandoned(jobs[id], now)|;
      jobs := map id | id in jobs :: if Abandoned(jobs[id], now) then jobs[id].(status := Broken) else jobs[id];
      assert abandoned == set id | id in jobs && jobs[id] != old(jobs)[id];
    }

    /** Deletes at most `batch` records, those whose retention ended first before the others. Records
        another transaction has locked are passed over. */
    method DeleteExpired(batch: nat, now: int, locked: set<Scope>) returns (deleted: nat)
      requires Valid()
      modifies this`records
      ensures Valid()
      ensures records.Keys <= old(records).Keys && deleted == |old(records)| - |records| <= batch
      ensures forall scope :: scope in records ==> records[scope] == old(records)[scope]
      ensures forall scope :: scope in old(records) && scope !in records ==>
        Purgeable(old(records)[scope], now) && scope !in locked
      ensures deleted < batch ==> forall scope :: scope in records && Purgeable(records[scope], now) ==> scope in locked
      ensures forall a, b ::
        a in old(records) && a !in records && b in records && Purgeable(records[b], now) && b !in locked ==>
          old(records)[a].expiresAt <= records[b].expiresAt
    {
      deleted := 0;
      var expired := set scope | scope in records && Purgeable(records[scope], now) && scope !in locked;
      while deleted < batch && expired != {}
        invariant deleted <= batch
        invariant records.Keys <= old(records).Keys && deleted == |old(records)| - |records|
        invariant forall scope :: scope in records ==> records[scope] == old(records)[scope]
        invariant forall scope :: scope in old(records) && scope !in records ==>
          Purgeable(old(records)[scope], now) && scope !in locked
        invariant forall scope ::
          scope in records && Purgeable(records[scope], now) && scope !in locked <==> scope in expired
        invariant forall a, b :: a in old(records) && a !in records && b in expired ==>
          old(records)[a].expiresAt <= records[b].expiresAt
      {
        OldestExists(records, expired);
        var scope :| Oldest(records, expired, scope);
        assert (records - {scope}).Keys == records.Keys - {scope};
        assert |records - {scope}| == |(records - {scope}).Keys| && |records| == |records.Keys|;
        records := records - {scope};
        expired := expired - {scope};
        deleted := deleted + 1;
      }
    }
  }
}
