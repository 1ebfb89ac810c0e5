/**
What each step of a speech request does to its scope: the handler that takes it, the record, the
messages on their way and what the caller is told; and that everything else stays.
*/
module SpeechMeaning {
  import opened Wrappers
  import opened IdempotencyStore
  import opened SpeechProtocol
  import Settings

  /** The settings are whole seconds, the protocol's times milliseconds. */
  lemma PolicyMeans(s: Settings.Settings)
    ensures var tts, stt := PolicyFor(s, Tts), PolicyFor(s, Stt);
      && tts.operation == Tts && tts.deadline == 1000 * s.server.ttsDeadline
      && stt.operation == Stt && stt.deadline == 1000 * s.server.sttDeadline
      && tts.lease == stt.lease == 1000 * s.idempotency.lease && tts.ttl == stt.ttl == 1000 * s.idempotency.ttl
      && tts.hint == stt.hint == 1000 * s.idempotency.retryAfter
  {
  }

  /** Only the handler `h` changes, and it is known afterwards. */
  ghost predicate OnlyHandler(s: Protocol, s': Protocol, h: nat) {
    && h in s'.handlers && s'.handlers.Keys == s.handlers.Keys + {h}
    && forall g :: g in s.handlers && g != h ==> s'.handlers[g] == s.handlers[g]
  }

  /** The store and its history stay, and no one is answered. */
  ghost predicate StoreStays(s: Protocol, s': Protocol) {
    && s'.cell == s.cell && s'.epoch == s.epoch && s'.recorded == s.recorded && s'.sent == s.sent && s'.now == s.now
  }

  /** When time passes a deadline, its handler is dropped, and asks for the release of a lease it held. */
  lemma TickMeans(s: Protocol, policy: Policy, to: int)
    ensures var s' := Next(s, policy, Tick(to));
      && (to < s.now ==> s' == s)
      && (s.now <= to ==>
            && s'.now == to && s'.handlers.Keys == s.handlers.Keys
            && (forall h :: h in s.handlers ==> TimedOut(s.handlers[h], s'.handlers[h], to))
            && (forall m :: m in s.inFlight ==> m in s'.inFlight)
            && (forall h :: h in s.handlers && Holds(s.handlers[h]) && s.handlers[h].deadline <= to ==>
                  ReleaseMessage(s.handlers[h].lease) in s'.inFlight)
            && (forall m :: m in s'.inFlight && m !in s.inFlight ==>
                  exists h :: h in s.handlers && Holds(s.handlers[h]) && s.handlers[h].deadline <= to
                              && m == ReleaseMessage(s.handlers[h].lease))
            && s'.cell == s.cell && s'.epoch == s.epoch && s'.recorded == s.recorded && s'.sent == s.sent
            && s'.nextLease == s.nextLease)
  {
  }

  predicate Holds(handler: Handler) {
    handler.Working? || handler.Completing?
  }

  ghost predicate TimedOut(before: Handler, after: Handler, to: int) {
    match before
    case Asking(_, _, deadline) => after == if deadline <= to then Failed(None) else before
    case Working(_, _, lease, deadline, _) => after == if deadline <= to then Failed(Some(lease)) else before
    case Completing(_, _, lease, deadline, _, _) => after == if deadline <= to then Failed(Some(lease)) else before
    case Replaying(_, _, deadline, _) => after == if deadline <= to then Failed(None) else before
    case _ => after == before
  }

  /** A request starts once, with the operation's deadline from now. */
  lemma BeginMeans(s: Protocol, policy: Policy, h: nat, digest: Text, candidate: nat)
    ensures var s' := Next(s, policy, Begin(h, digest, candidate));
      && (h in s.handlers ==> s' == s)
      && (h !in s.handlers ==>
            && OnlyHandler(s, s', h) && s'.handlers[h] == Asking(digest, candidate, s.now + policy.deadline)
            && StoreStays(s, s') && s'.inFlight == s.inFlight && s'.nextLease == s.nextLease)
  {
  }

  /** A claim under a lease of its own is decided by the store. A lease makes the handler work under the
      record's request id, a stored response makes it replay that; otherwise, or when the answer is lost,
      it fails. Only a record inserted begins an epoch. */
  lemma ClaimsMean(s: Protocol, policy: Policy, h: nat, answered: bool)
    requires h in s.handlers && s.handlers[h].Asking?
    ensures var Asking(digest, candidate, deadline) := s.handlers[h];
      var claim := Claim(digest, candidate, s.nextLease, policy.lease);
      var (cell, decision) := ClaimCell(s.cell, policy.operation, claim, policy.ttl, policy.hint, s.now);
      var s' := Next(s, policy, Claims(h, answered));
      var over := s.cell.Some? && s.cell.value.expiresAt <= s.now
                  && (s.cell.value.Completed? || s.cell.value.leaseExpiresAt <= s.now);
      && OnlyHandler(s, s', h) && s'.cell == cell && s'.nextLease == s.nextLease + 1
      && s'.epoch == s.epoch + (if s.cell.None? || over then 1 else 0)
      && s'.now == s.now && s'.inFlight == s.inFlight && s'.recorded == s.recorded && s'.sent == s.sent
      && (!answered ==> s'.handlers[h] == Failed(None))
      && (answered && decision.Ok? && decision.value.Acquired? ==>
            s'.cell.Some?
            && s'.handlers[h] == Working(digest, s'.cell.value.requestId, s.nextLease, deadline, s'.epoch))
      && (answered && decision.Ok? && decision.value.Replay? ==>
            s'.handlers[h] == Replaying(digest, decision.value.response, deadline, s.epoch))
      && (answered && !(decision.Ok? && (decision.value.Acquired? || decision.value.Replay?)) ==>
            s'.handlers[h] == Failed(None))
  {
  }

  /** Steps that need a handler in another place than it is do nothing. */
  lemma OutOfPlaceMeans(s: Protocol, policy: Policy, h: nat, answered: bool, content: Text, message: Message)
    ensures h !in s.handlers || !s.handlers[h].Asking? ==>
      Next(s, policy, Claims(h, answered)) == s && Next(s, policy, ClaimUnavailable(h)) == s
    ensures h !in s.handlers || !s.handlers[h].Working? ==>
      Next(s, policy, Fails(h)) == s && Next(s, policy, Finishes(h, content)) == s
    ensures h !in s.handlers || !s.handlers[h].Completing? ==>
      Next(s, policy, Completes(h)) == s && Next(s, policy, LosesAcknowledgement(h)) == s
    ensures h !in s.handlers || !s.handlers[h].Replaying? ==> Next(s, policy, Replays(h, answered)) == s
    ensures h !in s.handlers ==> Next(s, policy, Dies(h)) == s
    ensures message !in s.inFlight ==> Next(s, policy, Delivers(message)) == s
  {
  }

  /** A handler that fails at work, or hears nothing of its completion, fails with its lease and asks for
      its release; the record is left to the store. */
  lemma FailureMeans(s: Protocol, policy: Policy, step: Step)
    requires step.Fails? || step.LosesAcknowledgement?
    requires step.h in s.handlers
    requires if step.Fails? then s.handlers[step.h].Working? else s.handlers[step.h].Completing?
    ensures var s' := Next(s, policy, step);
      && OnlyHandler(s, s', step.h) && s'.handlers[step.h] == Failed(Some(s.handlers[step.h].lease))
      && s'.inFlight == s.inFlight + {ReleaseMessage(s.handlers[step.h].lease)}
      && StoreStays(s, s') && s'.nextLease == s.nextLease
  {
  }

  /** A handler that has its result sends it, for its own request and operation, to be recorded. */
  lemma FinishesMeans(s: Protocol, policy: Policy, h: nat, content: Text)
    requires h in s.handlers && s.handlers[h].Working?
    ensures var Working(digest, requestId, lease, deadline, epoch) := s.handlers[h];
      var s' := Next(s, policy, Finishes(h, content));
      var response := Response(policy.operation, requestId, content);
      && OnlyHandler(s, s', h)
      && s'.handlers[h] == Completing(digest, requestId, lease, deadline, epoch, response)
      && s'.inFlight == s.inFlight + {CompleteMessage(lease, response)}
      && StoreStays(s, s') && s'.nextLease == s.nextLease
  {
  }

  /** The caller gets a result exactly when the store takes the completion, and then that very result. */
  lemma CompletesMeans(s: Protocol, policy: Policy, h: nat)
    requires h in s.handlers && s.handlers[h].Completing?
    ensures var handler := s.handlers[h];
      var s' := Next(s, policy, Completes(h));
      var taken := && s.cell.Some? && s.cell.value.Pending? && s.cell.value.lease == handler.lease
                   && s.cell.value.requestId == handler.response.requestId
                   && handler.response.operation == policy.operation;
      && OnlyHandler(s, s', h) && s'.now == s.now && s'.epoch == s.epoch && s'.nextLease == s.nextLease
      && (!taken ==>
            && StoreStays(s, s') && s'.handlers[h] == Failed(Some(handler.lease))
            && s'.inFlight == s.inFlight + {ReleaseMessage(handler.lease)})
      && (taken ==>
            && s'.handlers[h] == Answered(Some(handler.lease)) && s'.inFlight == s.inFlight
            && s'.sent == s.sent + [Sent(handler.epoch, handler.digest, handler.response, false)]
            && Records(s, s', policy, handler.response))
  {
  }

  /** The record is completed with the response, for the retention from now on, and the history says so. */
  ghost predicate Records(s: Protocol, s': Protocol, policy: Policy, response: Response)
    requires s.cell.Some?
  {
    && s'.cell == Some(Completed(s.cell.value.digest, s.cell.value.requestId, s.cell.value.createdAt,
                                 s.now + policy.ttl, response))
    && s'.recorded == s.recorded[s.epoch := Recorded(s.cell.value.digest, response)]
  }

  /** A stored response is sent as it is, if its caller may still have it. */
  lemma ReplaysMeans(s: Protocol, policy: Policy, h: nat, allowed: bool)
    requires h in s.handlers && s.handlers[h].Replaying?
    ensures var Replaying(digest, response, _, epoch) := s.handlers[h];
      var s' := Next(s, policy, Replays(h, allowed));
      && OnlyHandler(s, s', h) && s'.handlers[h] == (if allowed then Answered(None) else Failed(None))
      && s'.sent == s.sent + (if allowed then [Sent(epoch, digest, response, true)] else [])
      && s'.cell == s.cell && s'.epoch == s.epoch && s'.recorded == s.recorded && s'.now == s.now
      && s'.inFlight == s.inFlight && s'.nextLease == s.nextLease
  {
  }

  /** Late messages go to the store and nowhere else, and may arrive again. */
  lemma DeliversMeans(s: Protocol, policy: Policy, message: Message)
    requires message in s.inFlight
    ensures var s' := Next(s, policy, Delivers(message));
      var held := s.cell.Some? && s.cell.value.Pending? && s.cell.value.lease == message.lease;
      && s'.handlers == s.handlers && s'.sent == s.sent && s'.inFlight == s.inFlight && s'.epoch == s.epoch
      && s'.now == s.now && s'.nextLease == s.nextLease
      && (!held ==> s'.cell == s.cell && s'.recorded == s.recorded)
      && (held && message.ReleaseMessage? ==>
            && s'.recorded == s.recorded && s'.cell.Some? && s'.cell.value.Pending?
            && SameRecord(s.cell.value, s'.cell.value) && s'.cell.value.lease == message.lease
            && s'.cell.value.leaseExpiresAt == s.now)
      && (held && message.CompleteMessage? ==>
            if message.response.operation == policy.operation && message.response.requestId == s.cell.value.requestId
            then Records(s, s', policy, message.response)
            else s'.cell == s.cell && s'.recorded == s.recorded)
  {
  }

  /** The cleaner removes the record when it is over, and a process that dies takes its handler with it. */
  lemma OthersMean(s: Protocol, policy: Policy, h: nat)
    ensures var s' := Next(s, policy, Purges);
      var over := s.cell.Some? && s.cell.value.expiresAt <= s.now
                  && (s.cell.value.Completed? || s.cell.value.leaseExpiresAt <= s.now);
      s'.cell == (if over then None else s.cell) && s' == s.(cell := s'.cell)
    ensures h in s.handlers ==>
      var s' := Next(s, policy, Dies(h));
      && OnlyHandler(s, s', h) && s'.handlers[h] == Dead && StoreStays(s, s') && s'.inFlight == s.inFlight
      && s'.nextLease == s.nextLease
    ensures h in s.handlers && s.handlers[h].Asking? ==>
      var s' := Next(s, policy, ClaimUnavailable(h));
      && OnlyHandler(s, s', h) && s'.handlers[h] == Failed(None) && StoreStays(s, s') && s'.inFlight == s.inFlight
      && s'.nextLease == s.nextLease
  {
  }
}
