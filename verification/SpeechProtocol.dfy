/**
The life of one idempotency scope: any number of request handlers, the store's record of the scope,
and the completions and releases still on their way to the store (they may arrive late, repeatedly or
never). Scopes do not touch each other's records, so one scope at a time is enough. A
completion the job history refuses is a lost one here: nothing is recorded and the handler fails.

Handlers and the store read one clock that never goes back. A handler is dropped when its deadline
comes; dropping it hands its release to a background task.
*/
module SpeechProtocol {
  import opened Wrappers
  import opened IdempotencyStore
  import Settings

  /** Milliseconds. `Sound` is what the accepted settings guarantee. */
  datatype Policy = Policy(operation: Operation, deadline: nat, lease: nat, ttl: nat, hint: nat)
  {
    predicate Sound() {
      0 < deadline <= lease && deadline <= ttl
    }
  }

  function PolicyFor(s: Settings.Settings, operation: Operation): Policy {
    Policy(operation, 1000 * (if operation.Tts? then s.server.ttsDeadline else s.server.sttDeadline),
           1000 * s.idempotency.lease, 1000 * s.idempotency.ttl, 1000 * s.idempotency.retryAfter)
  }

  lemma AcceptedSettingsAreSound(s: Settings.Settings, operation: Operation)
    requires Settings.Accepted(s)
    ensures PolicyFor(s, operation).Sound()
  {
  }

  /** `epoch` counts the records the scope has had; it is a history variable. */
  datatype Handler =
    | Asking(digest: Text, candidate: nat, deadline: int)
    | Working(digest: Text, requestId: nat, lease: nat, deadline: int, epoch: nat)
    | Completing(digest: Text, requestId: nat, lease: nat, deadline: int, epoch: nat, response: Response)
    | Replaying(digest: Text, response: Response, deadline: int, epoch: nat)
    | Answered(held: Option<nat>)         // with a success
    | Failed(held: Option<nat>)           // with an error, or dropped
    | Dead                                // the whole process died
  {
    /** Doing the work of the scope under a lease. */
    predicate Active() {
      Working? || Completing?
    }

    predicate Running() {
      Asking? || Working? || Completing? || Replaying?
    }
  }

  datatype Message = CompleteMessage(lease: nat, response: Response) | ReleaseMessage(lease: nat)

  /** A success sent to a caller. */
  datatype Sent = Sent(epoch: nat, digest: Text, response: Response, replayed: bool)

  datatype Recorded = Recorded(digest: Text, response: Response)

  /** `recorded` remembers what the store recorded in each epoch; `sent` every success answered. */
  datatype Protocol = Protocol(
    now: int, cell: Cell, epoch: nat, handlers: map<nat, Handler>, nextLease: nat,
    inFlight: set<Message>, recorded: map<nat, Recorded>, sent: seq<Sent>)
  {
    function With(h: nat, handler: Handler): Protocol {
      this.(handlers := handlers[h := handler])
    }
  }

  function Start(now: int): Protocol {
    Protocol(now, None, 0, map[], 0, {}, map[], [])
  }

  datatype Step =
    | Tick(to: int)
    | Begin(h: nat, digest: Text, candidate: nat)
    | Claims(h: nat, answered: bool)
    | ClaimUnavailable(h: nat)
    | Fails(h: nat)
    | Finishes(h: nat, content: Text)
    | Completes(h: nat)
    | LosesAcknowledgement(h: nat)
    | Replays(h: nat, allowed: bool)
    | Delivers(message: Message)
    | Purges
    | Dies(h: nat)

  /** Time passes; every handler whose deadline has come is dropped, and its guard releases. */
  function Advance(s: Protocol, to: int): Protocol {
    s.(now := to,
       handlers := map h | h in s.handlers :: Dropped(s.handlers[h], to),
       inFlight := s.inFlight
         + set h | h in s.handlers && s.handlers[h].Active() && s.handlers[h].deadline <= to
             :: ReleaseMessage(s.handlers[h].lease))
  }

  function Dropped(handler: Handler, to: int): Handler {
    if handler.Running() && handler.deadline <= to then
      Failed(if handler.Active() then Some(handler.lease) else None)
    else handler
  }

  function ClaimStep(s: Protocol, policy: Policy, h: nat, digest: Text, candidate: nat, deadline: int, answered: bool)
    : Protocol
  {
    var claim := Claim(digest, candidate, s.nextLease, policy.lease);
    var (cell, decision) := ClaimCell(s.cell, policy.operation, claim, policy.ttl, policy.hint, s.now);
    var inserted := s.cell.None? || Purgeable(s.cell.value, s.now);
    var epoch := if inserted then s.epoch + 1 else s.epoch;
    var handler :=
      if !answered then Failed(None)
      else match decision
        case Ok(Acquired(lease, _, requestId, _)) => Working(digest, requestId, lease, deadline, epoch)
        case Ok(Replay(response)) => Replaying(digest, response, deadline, epoch)
        case _ => Failed(None);
    s.(cell := cell, epoch := epoch, nextLease := s.nextLease + 1).With(h, handler)
  }

  /** The store applies a completion; `recorded` follows it. */
  function ApplyCompletion(s: Protocol, policy: Policy, lease: nat, response: Response): (Protocol, bool) {
    var (cell, done) := CompleteCell(s.cell, policy.operation, lease, response, policy.ttl, s.now);
    if done.Ok? then
      (s.(cell := cell, recorded := s.recorded[s.epoch := Recorded(cell.value.digest, response)]), true)
    else (s, false)
  }

  function Release(s: Protocol, h: nat, lease: nat): Protocol {
    s.(inFlight := s.inFlight + {ReleaseMessage(lease)}).With(h, Failed(Some(lease)))
  }

  function Next(s: Protocol, policy: Policy, step: Step): Protocol {
    match step
    case Tick(to) => if s.now <= to then Advance(s, to) else s
    case Begin(h, digest, candidate) =>
      if h in s.handlers then s else s.With(h, Asking(digest, candidate, s.now + policy.deadline))
    case Claims(h, answered) =>
      if h in s.handlers && s.handlers[h].Asking? then
        var Asking(digest, candidate, deadline) := s.handlers[h];
        ClaimStep(s, policy, h, digest, candidate, deadline, answered)
      else s
    case ClaimUnavailable(h) =>
      if h in s.handlers && s.handlers[h].Asking? then s.With(h, Failed(None)) else s
    case Fails(h) =>
      if h in s.handlers && s.handlers[h].Working? then Release(s, h, s.handlers[h].lease) else s
    case Finishes(h, content) =>
      if h in s.handlers && s.handlers[h].Working? then
        var Working(digest, requestId, lease, deadline, epoch) := s.handlers[h];
        var response := Response(policy.operation, requestId, content);
        s.(inFlight := s.inFlight + {CompleteMessage(lease, response)})
        .With(h, Completing(digest, requestId, lease, deadline, epoch, response))
      else s
    case Completes(h) =>
      if h in s.handlers && s.handlers[h].Completing? then
        var Completing(digest, _, lease, _, epoch, response) := s.handlers[h];
        var (applied, ok) := ApplyCompletion(s, policy, lease, response);
        if ok then
          applied.(sent := s.sent + [Sent(epoch, digest, response, false)]).With(h, Answered(Some(lease)))
        else Release(s, h, lease)
      else s
    case LosesAcknowledgement(h) =>
      if h in s.handlers && s.handlers[h].Completing? then Release(s, h, s.handlers[h].lease) else s
    case Replays(h, allowed) =>
      if h in s.handlers && s.handlers[h].Replaying? then
        var Replaying(digest, response, _, epoch) := s.handlers[h];
        if allowed then
          s.(sent := s.sent + [Sent(epoch, digest, response, true)]).With(h, Answered(None))
        else s.With(h, Failed(None))
      else s
    case Delivers(message) =>
      if message !in s.inFlight then s
      else (match message
            case CompleteMessage(lease, response) => ApplyCompletion(s, policy, lease, response).0
            case ReleaseMessage(lease) => s.(cell := ReleaseCell(s.cell, lease, s.now).0))
    case Purges =>
      if s.cell.Some? && Purgeable(s.cell.value, s.now) then s.(cell := None) else s
    case Dies(h) => if h in s.handlers then s.With(h, Dead) else s
  }

  function Run(s: Protocol, policy: Policy, steps: seq<Step>): Protocol
    decreases |steps|
  {
    if steps == [] then s else Run(Next(s, policy, steps[0]), policy, steps[1..])
  }

  // ---- What every step keeps ----------------------------------------------------------------

  /** An active handler's lease is the record's, and outlives the handler. */
  ghost predicate LeaseCovers(s: Protocol, handler: Handler) {
    handler.Active() ==>
      && s.now < handler.deadline && handler.epoch == s.epoch && handler.lease < s.nextLease
      && ReleaseMessage(handler.lease) !in s.inFlight
      && (handler.Working? ==> forall m :: m in s.inFlight ==> m.lease != handler.lease)
      && s.cell.Some? && s.cell.value.digest == handler.digest && s.cell.value.requestId == handler.requestId
      && (match s.cell.value
          case Pending(_, _, _, _, lease, leaseExpiresAt) =>
            lease == handler.lease && handler.deadline <= leaseExpiresAt
          case Completed(_, _, _, expiresAt, _) => handler.Completing? && handler.deadline <= expiresAt)
  }

  ghost predicate LeasesCover(s: Protocol) {
    forall h :: h in s.handlers ==> LeaseCovers(s, s.handlers[h])
  }

  ghost predicate OneActive(s: Protocol) {
    forall h, g :: h in s.handlers && g in s.handlers && h != g ==> !(s.handlers[h].Active() && s.handlers[g].Active())
  }

  ghost predicate TimesFit(s: Protocol, policy: Policy) {
    && (forall h :: h in s.handlers && s.handlers[h].Running() ==>
          s.now < s.handlers[h].deadline <= s.now + policy.deadline)
    && (s.cell.Some? && s.cell.value.Pending? ==> s.cell.value.lease < s.nextLease)
    && (forall m :: m in s.inFlight ==> m.lease < s.nextLease)
  }

  /** The record and the history agree, and an epoch is recorded at most once. */
  ghost predicate HistoryAgrees(s: Protocol) {
    && (forall e :: e in s.recorded ==> e <= s.epoch)
    && (s.cell.Some? && s.cell.value.Pending? ==> s.epoch !in s.recorded)
    && (s.cell.Some? && s.cell.value.Completed? ==>
          s.epoch in s.recorded && s.recorded[s.epoch] == Recorded(s.cell.value.digest, s.cell.value.response)
          && s.cell.value.response.requestId == s.cell.value.requestId)
  }

  ghost predicate IsRecorded(s: Protocol, epoch: nat, digest: Text, response: Response) {
    epoch in s.recorded && s.recorded[epoch] == Recorded(digest, response)
  }

  ghost predicate AnswersRecorded(s: Protocol) {
    && (forall i :: 0 <= i < |s.sent| ==> IsRecorded(s, s.sent[i].epoch, s.sent[i].digest, s.sent[i].response))
    && (forall h :: h in s.handlers && s.handlers[h].Replaying? ==>
          IsRecorded(s, s.handlers[h].epoch, s.handlers[h].digest, s.handlers[h].response))
  }

  /** Whoever had a lease and failed has asked for its release. */
  ghost predicate FailuresRelease(s: Protocol) {
    forall h :: h in s.handlers && s.handlers[h].Failed? && s.handlers[h].held.Some? ==>
      ReleaseMessage(s.handlers[h].held.value) in s.inFlight
  }

  ghost predicate Inv(s: Protocol, policy: Policy) {
    && LeasesCover(s) && OneActive(s) && TimesFit(s, policy)
    && HistoryAgrees(s) && AnswersRecorded(s) && FailuresRelease(s)
  }

  lemma TickKeepsLeases(s: Protocol, policy: Policy, to: int)
    requires policy.Sound() && Inv(s, policy)
    ensures LeasesCover(Next(s, policy, Tick(to))) && OneActive(Next(s, policy, Tick(to)))
  {
  }

  lemma TickKeepsTimes(s: Protocol, policy: Policy, to: int)
    requires policy.Sound() && Inv(s, policy)
    ensures TimesFit(Next(s, policy, Tick(to)), policy) && FailuresRelease(Next(s, policy, Tick(to)))
  {
  }

  lemma TickKeepsHistory(s: Protocol, policy: Policy, to: int)
    requires policy.Sound() && Inv(s, policy)
    ensures HistoryAgrees(Next(s, policy, Tick(to))) && AnswersRecorded(Next(s, policy, Tick(to)))
  {
  }

  lemma TickKeepsInv(s: Protocol, policy: Policy, to: int)
    requires policy.Sound() && Inv(s, policy)
    ensures Inv(Next(s, policy, Tick(to)), policy)
  {
    TickKeepsLeases(s, policy, to);
    TickKeepsTimes(s, policy, to);
    TickKeepsHistory(s, policy, to);
  }

  lemma BeginKeepsInv(s: Protocol, policy: Policy, h: nat, digest: Text, candidate: nat)
    requires policy.Sound() && Inv(s, policy)
    ensures Inv(Next(s, policy, Begin(h, digest, candidate)), policy)
  {
  }

  /** A lease is handed out only while no handler works. */
  lemma AcquiredMeansNobodyWorks(s: Protocol, policy: Policy, claim: Claim)
    requires policy.Sound() && Inv(s, policy)
    requires var decision := ClaimCell(s.cell, policy.operation, claim, policy.ttl, policy.hint, s.now).1;
             decision.Ok? && decision.value.Acquired?
    ensures forall h :: h in s.handlers ==> !s.handlers[h].Active()
  {
  }

  /** A claim that is refused or answered from the record leaves the record alone. */
  lemma RefusedClaimKeepsLeases(s: Protocol, policy: Policy, h: nat, handler: Handler)
    requires Inv(s, policy) && h in s.handlers && s.handlers[h].Asking?
    requires handler == Failed(None) || (handler.Replaying? && handler.deadline == s.handlers[h].deadline)
    ensures var s' := s.(nextLease := s.nextLease + 1).With(h, handler);
            LeasesCover(s') && OneActive(s') && TimesFit(s', policy) && FailuresRelease(s')
  {
  }

  /** A granted claim finds nobody at work; its lease outlives the handler that made it. */
  lemma GrantedClaimKeepsLeases(s: Protocol, s': Protocol, policy: Policy, h: nat)
    requires policy.Sound() && Inv(s, policy) && h in s.handlers && s.handlers[h].Asking?
    requires forall g :: g in s.handlers ==> !s.handlers[g].Active()
    requires s'.now == s.now && s'.inFlight == s.inFlight && s'.nextLease == s.nextLease + 1
    requires h in s'.handlers && s'.handlers == s.handlers[h := s'.handlers[h]]
    requires s'.cell.Some? && s'.cell.value.Pending? && s'.cell.value.lease == s.nextLease
    requires s'.cell.value.leaseExpiresAt == s.now + policy.lease && s'.cell.value.digest == s.handlers[h].digest
    requires s'.handlers[h] == Failed(None)
             || s'.handlers[h] == Working(s.handlers[h].digest, s'.cell.value.requestId, s.nextLease,
                                          s.handlers[h].deadline, s'.epoch)
    ensures LeasesCover(s') && OneActive(s') && TimesFit(s', policy) && FailuresRelease(s')
  {
  }

  function DecisionFor(s: Protocol, policy: Policy, h: nat): Result<Decision, StoreError>
    requires h in s.handlers && s.handlers[h].Asking?
  {
    ClaimCell(s.cell, policy.operation, Claim(s.handlers[h].digest, s.handlers[h].candidate, s.nextLease, policy.lease),
              policy.ttl, policy.hint, s.now).1
  }

  lemma GrantedClaim(s: Protocol, policy: Policy, h: nat, answered: bool)
    requires h in s.handlers && s.handlers[h].Asking?
    requires DecisionFor(s, policy, h).Ok? && DecisionFor(s, policy, h).value.Acquired?
    ensures var s' := Next(s, policy, Claims(h, answered));
      && s'.now == s.now && s'.inFlight == s.inFlight && s'.nextLease == s.nextLease + 1
      && h in s'.handlers && s'.handlers == s.handlers[h := s'.handlers[h]]
      && s'.cell.Some? && s'.cell.value.Pending? && s'.cell.value.lease == s.nextLease
      && s'.cell.value.leaseExpiresAt == s.now + policy.lease && s'.cell.value.digest == s.handlers[h].digest
      && (s'.handlers[h] == Failed(None)
          || s'.handlers[h] == Working(s.handlers[h].digest, s'.cell.value.requestId, s.nextLease,
                                       s.handlers[h].deadline, s'.epoch))
  {
  }

  lemma RefusedClaim(s: Protocol, policy: Policy, h: nat, answered: bool)
    requires h in s.handlers && s.handlers[h].Asking?
    requires DecisionFor(s, policy, h).Ok? ==> !DecisionFor(s, policy, h).value.Acquired?
    ensures var s' := Next(s, policy, Claims(h, answered));
      && h in s'.handlers && s' == s.(nextLease := s.nextLease + 1).With(h, s'.handlers[h])
      && (s'.handlers[h] == Failed(None)
          || (s'.handlers[h].Replaying? && s'.handlers[h].deadline == s.handlers[h].deadline))
  {
  }

  lemma ClaimKeepsLeases(s: Protocol, policy: Policy, h: nat, answered: bool)
    requires policy.Sound() && Inv(s, policy) && h in s.handlers && s.handlers[h].Asking?
    ensures var s' := Next(s, policy, Claims(h, answered));
            LeasesCover(s') && OneActive(s') && TimesFit(s', policy) && FailuresRelease(s')
  {
    var s' := Next(s, policy, Claims(h, answered));
    if DecisionFor(s, policy, h).Ok? && DecisionFor(s, policy, h).value.Acquired? {
      var claim := Claim(s.handlers[h].digest, s.handlers[h].candidate, s.nextLease, policy.lease);
      AcquiredMeansNobodyWorks(s, policy, claim);
      GrantedClaim(s, policy, h, answered);
      GrantedClaimKeepsLeases(s, s', policy, h);
    } else {
      RefusedClaim(s, policy, h, answered);
      RefusedClaimKeepsLeases(s, policy, h, s'.handlers[h]);
    }
  }

  lemma ClaimKeepsHistory(s: Protocol, policy: Policy, h: nat, answered: bool)
    requires policy.Sound() && Inv(s, policy) && h in s.handlers && s.handlers[h].Asking?
    ensures var s' := Next(s, policy, Claims(h, answered)); HistoryAgrees(s') && AnswersRecorded(s')
  {
  }

  lemma ClaimsKeepsInv(s: Protocol, policy: Policy, h: nat, answered: bool)
    requires policy.Sound() && Inv(s, policy)
    ensures Inv(Next(s, policy, Claims(h, answered)), policy)
  {
    if h in s.handlers && s.handlers[h].Asking? {
      ClaimKeepsLeases(s, policy, h, answered);
      ClaimKeepsHistory(s, policy, h, answered);
    }
  }

  lemma ClaimUnavailableKeepsInv(s: Protocol, policy: Policy, h: nat)
    requires policy.Sound() && Inv(s, policy)
    ensures Inv(Next(s, policy, ClaimUnavailable(h)), policy)
  {
  }

  lemma FailsKeepsInv(s: Protocol, policy: Policy, h: nat)
    requires policy.Sound() && Inv(s, policy)
    ensures Inv(Next(s, policy, Fails(h)), policy)
  {
  }

  lemma FinishesKeepsInv(s: Protocol, policy: Policy, h: nat, content: Text)
    requires policy.Sound() && Inv(s, policy)
    ensures Inv(Next(s, policy, Finishes(h, content)), policy)
  {
  }

  lemma CompletesKeepsLeases(s: Protocol, policy: Policy, h: nat)
    requires policy.Sound() && Inv(s, policy)
    ensures var s' := Next(s, policy, Completes(h));
            LeasesCover(s') && OneActive(s') && TimesFit(s', policy) && FailuresRelease(s')
  {
  }

  lemma CompletesKeepsHistory(s: Protocol, policy: Policy, h: nat)
    requires policy.Sound() && Inv(s, policy)
    ensures var s' := Next(s, policy, Completes(h)); HistoryAgrees(s') && AnswersRecorded(s')
  {
  }

  lemma CompletesKeepsInv(s: Protocol, policy: Policy, h: nat)
    requires policy.Sound() && Inv(s, policy)
    ensures Inv(Next(s, policy, Completes(h)), policy)
  {
    CompletesKeepsLeases(s, policy, h);
    CompletesKeepsHistory(s, policy, h);
  }

  lemma LosesAcknowledgementKeepsInv(s: Protocol, policy: Policy, h: nat)
    requires policy.Sound() && Inv(s, policy)
    ensures Inv(Next(s, policy, LosesAcknowledgement(h)), policy)
  {
  }

  lemma ReplaysKeepsLeases(s: Protocol, policy: Policy, h: nat, allowed: bool)
    requires policy.Sound() && Inv(s, policy)
    ensures var s' := Next(s, policy, Replays(h, allowed));
            LeasesCover(s') && OneActive(s') && TimesFit(s', policy) && FailuresRelease(s')
  {
  }

  lemma ReplaysKeepsHistory(s: Protocol, policy: Policy, h: nat, allowed: bool)
    requires policy.Sound() && Inv(s, policy)
    ensures var s' := Next(s, policy, Replays(h, allowed)); HistoryAgrees(s') && AnswersRecorded(s')
  {
  }

  lemma ReplaysKeepsInv(s: Protocol, policy: Policy, h: nat, allowed: bool)
    requires policy.Sound() && Inv(s, policy)
    ensures Inv(Next(s, policy, Replays(h, allowed)), policy)
  {
    ReplaysKeepsLeases(s, policy, h, allowed);
    ReplaysKeepsHistory(s, policy, h, allowed);
  }

  lemma DeliversKeepsInv(s: Protocol, policy: Policy, message: Message)
    requires policy.Sound() && Inv(s, policy)
    ensures Inv(Next(s, policy, Delivers(message)), policy)
  {
  }

  lemma PurgesKeepsInv(s: Protocol, policy: Policy)
    requires policy.Sound() && Inv(s, policy)
    ensures Inv(Next(s, policy, Purges), policy)
  {
  }

  lemma DiesKeepsInv(s: Protocol, policy: Policy, h: nat)
    requires policy.Sound() && Inv(s, policy)
    ensures Inv(Next(s, policy, Dies(h)), policy)
  {
  }

  lemma StepKeepsInv(s: Protocol, policy: Policy, step: Step)
    requires policy.Sound() && Inv(s, policy)
    ensures Inv(Next(s, policy, step), policy)
  {
    match step
    case Tick(to) => TickKeepsInv(s, policy, to);
    case Begin(h, digest, candidate) => BeginKeepsInv(s, policy, h, digest, candidate);
    case Claims(h, answered) => ClaimsKeepsInv(s, policy, h, answered);
    case ClaimUnavailable(h) => ClaimUnavailableKeepsInv(s, policy, h);
    case Fails(h) => FailsKeepsInv(s, policy, h);
    case Finishes(h, content) => FinishesKeepsInv(s, policy, h, content);
    case Completes(h) => CompletesKeepsInv(s, policy, h);
    case LosesAcknowledgement(h) => LosesAcknowledgementKeepsInv(s, policy, h);
    case Replays(h, allowed) => ReplaysKeepsInv(s, policy, h, allowed);
    case Delivers(message) => DeliversKeepsInv(s, policy, message);
    case Purges => PurgesKeepsInv(s, policy);
    case Dies(h) => DiesKeepsInv(s, policy, h);
  }

  lemma {:induction false} RunKeepsInv(s: Protocol, policy: Policy, steps: seq<Step>)
    requires policy.Sound() && Inv(s, policy)
    ensures Inv(Run(s, policy, steps), policy)
    decreases |steps|
  {
    if steps != [] {
      StepKeepsInv(s, policy, steps[0]);
      RunKeepsInv(Next(s, policy, steps[0]), policy, steps[1..]);
    }
  }

  // ---- The promises -------------------------------------------------------------------------

  /** Under accepted settings two handlers never work on one scope at the same time. */
  lemma HandlersWorkAlone(settings: Settings.Settings, operation: Operation, now: int, steps: seq<Step>, h: nat, g: nat)
    requires Settings.Accepted(settings)
    requires var s := Run(Start(now), PolicyFor(settings, operation), steps);
             h in s.handlers && g in s.handlers && h != g && s.handlers[h].Active()
    ensures !Run(Start(now), PolicyFor(settings, operation), steps).handlers[g].Active()
  {
    AcceptedSettingsAreSound(settings, operation);
    RunKeepsInv(Start(now), PolicyFor(settings, operation), steps);
  }

  /** Successes of one epoch carry one digest and one response, hence one canonical request id; each
      is what the store recorded. */
  lemma OneResultPerRecord(settings: Settings.Settings, operation: Operation, now: int, steps: seq<Step>,
                           i: nat, j: nat)
    requires Settings.Accepted(settings)
    requires var s := Run(Start(now), PolicyFor(settings, operation), steps);
             i < |s.sent| && j < |s.sent| && s.sent[i].epoch == s.sent[j].epoch
    ensures var s := Run(Start(now), PolicyFor(settings, operation), steps);
            && s.sent[i].digest == s.sent[j].digest && s.sent[i].response == s.sent[j].response
            && IsRecorded(s, s.sent[i].epoch, s.sent[i].digest, s.sent[i].response)
  {
    AcceptedSettingsAreSound(settings, operation);
    RunKeepsInv(Start(now), PolicyFor(settings, operation), steps);
  }

  /** What an epoch recorded is never changed, and its record stays until its retention is over. */
  lemma StepKeepsRecorded(s: Protocol, policy: Policy, step: Step)
    requires policy.Sound() && Inv(s, policy)
    ensures forall e :: e in s.recorded ==>
              (e in Next(s, policy, step).recorded && Next(s, policy, step).recorded[e] == s.recorded[e])
    ensures s.cell.Some? && s.cell.value.Completed? && s.now < s.cell.value.expiresAt ==>
              Next(s, policy, step).cell == s.cell && Next(s, policy, step).epoch == s.epoch
  {
  }

  /** As long as the epoch's record is there, no step changes what identifies it; a record that is gone
      does not come back in the same epoch. */
  lemma StepKeepsIdentity(s: Protocol, policy: Policy, step: Step)
    ensures s.epoch <= Next(s, policy, step).epoch
    ensures Next(s, policy, step).epoch == s.epoch && Next(s, policy, step).cell.Some? ==>
      && s.cell.Some?
      && Next(s, policy, step).cell.value.requestId == s.cell.value.requestId
      && Next(s, policy, step).cell.value.createdAt == s.cell.value.createdAt
      && Next(s, policy, step).cell.value.digest == s.cell.value.digest
  {
  }

  lemma {:induction false} RunKeepsIdentity(s: Protocol, policy: Policy, steps: seq<Step>)
    ensures s.epoch <= Run(s, policy, steps).epoch
    ensures Run(s, policy, steps).epoch == s.epoch && Run(s, policy, steps).cell.Some? ==>
      && s.cell.Some?
      && Run(s, policy, steps).cell.value.requestId == s.cell.value.requestId
      && Run(s, policy, steps).cell.value.createdAt == s.cell.value.createdAt
      && Run(s, policy, steps).cell.value.digest == s.cell.value.digest
    decreases |steps|
  {
    if steps != [] {
      StepKeepsIdentity(s, policy, steps[0]);
      RunKeepsIdentity(Next(s, policy, steps[0]), policy, steps[1..]);
    }
  }

  /** Whoever works on one record, at whatever time, works under its first request id: a handler that
      takes up an abandoned operation continues it. */
  lemma OneRequestIdPerRecord(settings: Settings.Settings, operation: Operation, now: int,
                              earlier: seq<Step>, later: seq<Step>, h: nat, g: nat)
    requires Settings.Accepted(settings)
    requires var policy := PolicyFor(settings, operation);
      var s := Run(Start(now), policy, earlier);
      var t := Run(s, policy, later);
      && h in s.handlers && s.handlers[h].Active() && g in t.handlers && t.handlers[g].Active()
      && s.handlers[h].epoch == t.handlers[g].epoch
    ensures var policy := PolicyFor(settings, operation);
      var s := Run(Start(now), policy, earlier);
      var t := Run(s, policy, later);
      s.handlers[h].requestId == t.handlers[g].requestId && s.handlers[h].digest == t.handlers[g].digest
  {
    var policy := PolicyFor(settings, operation);
    var s := Run(Start(now), policy, earlier);
    AcceptedSettingsAreSound(settings, operation);
    RunKeepsInv(Start(now), policy, earlier);
    RunKeepsInv(s, policy, later);
    RunKeepsIdentity(s, policy, later);
    assert LeaseCovers(s, s.handlers[h]);
    assert LeaseCovers(Run(s, policy, later), Run(s, policy, later).handlers[g]);
  }

  /** A completed record survives every release and every further completion, however late, and any
      number of claims, as long as it is retained. */
  lemma {:induction false} CompletedRecordSurvives(s: Protocol, policy: Policy, steps: seq<Step>)
    requires policy.Sound() && Inv(s, policy) && s.cell.Some? && s.cell.value.Completed?
    requires Run(s, policy, steps).now < s.cell.value.expiresAt
    ensures Run(s, policy, steps).cell == s.cell
    decreases |steps|
  {
    if steps != [] {
      var s' := Next(s, policy, steps[0]);
      ClockAdvances(s', policy, steps[1..]);
      assert s.now <= s'.now;
      StepKeepsRecorded(s, policy, steps[0]);
      StepKeepsInv(s, policy, steps[0]);
      CompletedRecordSurvives(s', policy, steps[1..]);
    }
  }

  lemma {:induction false} ClockAdvances(s: Protocol, policy: Policy, steps: seq<Step>)
    ensures s.now <= Run(s, policy, steps).now
    decreases |steps|
  {
    if steps != [] {
      assert s.now <= Next(s, policy, steps[0]).now;
      ClockAdvances(Next(s, policy, steps[0]), policy, steps[1..]);
    }
  }

  /** Every handler that had a lease and ended without a success, other than by the death of its
      process, has asked for the release of that lease. */
  lemma LeasesAreReleased(settings: Settings.Settings, operation: Operation, now: int, steps: seq<Step>, h: nat)
    requires Settings.Accepted(settings)
    requires var s := Run(Start(now), PolicyFor(settings, operation), steps);
             h in s.handlers && s.handlers[h].Failed? && s.handlers[h].held.Some?
    ensures var s := Run(Start(now), PolicyFor(settings, operation), steps);
            ReleaseMessage(s.handlers[h].held.value) in s.inFlight
  {
    AcceptedSettingsAreSound(settings, operation);
    RunKeepsInv(Start(now), PolicyFor(settings, operation), steps);
  }

  /** A handler at work can always start its job: its lease is the record's and has not run out. */
  lemma WorkersMayStart(settings: Settings.Settings, operation: Operation, now: int, steps: seq<Step>, h: nat)
    requires Settings.Accepted(settings)
    requires var s := Run(Start(now), PolicyFor(settings, operation), steps);
             h in s.handlers && s.handlers[h].Working?
    ensures var s := Run(Start(now), PolicyFor(settings, operation), steps);
            StartCell(s.cell, s.handlers[h].lease, s.now).Ok?
  {
    AcceptedSettingsAreSound(settings, operation);
    RunKeepsInv(Start(now), PolicyFor(settings, operation), steps);
  }

  lemma {:induction false} RunThenStep(s: Protocol, policy: Policy, steps: seq<Step>, step: Step)
    ensures Run(s, policy, steps + [step]) == Next(Run(s, policy, steps), policy, step)
    decreases |steps|
  {
    if steps == [] {
      assert [step][1..] == [];
    } else {
      assert (steps + [step])[1..] == steps[1..] + [step];
      RunThenStep(Next(s, policy, steps[0]), policy, steps[1..], step);
    }
  }

  lemma Then(policy: Policy, now: int, steps: seq<Step>, s: Protocol, step: Step)
    returns (steps': seq<Step>, s': Protocol)
    requires s == Run(Start(now), policy, steps)
    ensures s' == Next(s, policy, step) == Run(Start(now), policy, steps')
  {
    RunThenStep(Start(now), policy, steps, step);
    steps', s' := steps + [step], Next(s, policy, step);
  }

  lemma OneAtWork(policy: Policy, now: int) returns (steps: seq<Step>, s: Protocol)
    requires 0 < policy.deadline
    ensures s == Run(Start(now), policy, steps) && s.now == now
    ensures s.handlers == map[0 := Working(7, 1, 0, now + policy.deadline, 1)]
    ensures s.cell.Some? && s.cell.value.Pending? && s.cell.value.digest == 7
    ensures s.cell.value.leaseExpiresAt == now + policy.lease
  {
    steps, s := Then(policy, now, [], Start(now), Begin(0, 7, 1));
    steps, s := Then(policy, now, steps, s, Claims(0, true));
  }

  lemma OneAtWorkPastItsLease(policy: Policy, now: int) returns (steps: seq<Step>, s: Protocol)
    requires policy.lease < policy.deadline
    ensures s == Run(Start(now), policy, steps) && s.now == now + policy.lease
    ensures 0 in s.handlers && s.handlers[0].Working? && 1 !in s.handlers
    ensures s.cell.Some? && s.cell.value.Pending? && s.cell.value.digest == 7 && s.cell.value.leaseExpiresAt <= s.now
  {
    steps, s := OneAtWork(policy, now);
    steps, s := Then(policy, now, steps, s, Tick(now + policy.lease));
  }

  /** The check on the lease is exactly what is needed: with any lease shorter than the deadline, two
      requests with the same key end up working side by side. */
  lemma ShorterLeaseLetsTwoWork(policy: Policy, now: int)
    requires policy.lease < policy.deadline
    ensures exists steps :: var s := Run(Start(now), policy, steps);
              0 in s.handlers && 1 in s.handlers && s.handlers[0].Active() && s.handlers[1].Active()
  {
    var steps, s := OneAtWorkPastItsLease(policy, now);
    steps, s := Then(policy, now, steps, s, Begin(1, 7, 2));
    steps, s := Then(policy, now, steps, s, Claims(1, true));
    assert s.handlers[0].Active() && s.handlers[1].Active();
  }
}
