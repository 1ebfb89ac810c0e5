/**
The settings that bound a speech request, and the checks the service makes on them before it starts.
Durations are whole seconds. The service adds them with saturation; within the accepted ranges a sum
never comes near the largest duration, so plain addition is the same.
*/
module Settings {
  import opened Wrappers

  const ORCHESTRATION_HEADROOM := 30

  datatype Server = Server(ttsDeadline: nat, sttDeadline: nat)

  datatype Idempotency = Idempotency(ttl: nat, lease: nat, retryAfter: nat)

  datatype Timeouts = Timeouts(
    acquire: nat, statement: nat, accounts: nat, briefcase: nat, download: nat, audio: nat,
    geminiTts: nat, geminiStt: nat, elevenLabs: nat, openAiTts: nat, openAiStt: nat, deepgram: nat)

  datatype Settings = Settings(server: Server, idempotency: Idempotency, timeouts: Timeouts)

  datatype SettingsError = OutOfRange | RetryAfterNotBelowLease | LeaseNotBelowTtl | LeaseBelowDeadline
                         | TtsDeadlineTooShort | SttDeadlineTooShort

  predicate InRange(value: nat, minimum: nat, maximum: nat) {
    minimum <= value <= maximum
  }

  predicate RangesHold(s: Settings) {
    && InRange(s.server.ttsDeadline, 1, 900) && InRange(s.server.sttDeadline, 1, 900)
    && InRange(s.idempotency.ttl, 86_400, 604_800) && InRange(s.idempotency.lease, 10, 3_600)
    && InRange(s.idempotency.retryAfter, 1, 300)
    && InRange(s.timeouts.acquire, 1, 60) && InRange(s.timeouts.statement, 1, 300)
    && InRange(s.timeouts.accounts, 1, 60)
    && InRange(s.timeouts.briefcase, 1, 120) && InRange(s.timeouts.download, 1, 300)
    && InRange(s.timeouts.audio, 1, 300)
    && InRange(s.timeouts.geminiTts, 1, 120) && InRange(s.timeouts.geminiStt, 1, 300)
    && InRange(s.timeouts.elevenLabs, 1, 120)
    && InRange(s.timeouts.openAiTts, 1, 120) && InRange(s.timeouts.openAiStt, 1, 300)
    && InRange(s.timeouts.deepgram, 1, 120)
  }

  function TtsBudget(t: Timeouts): nat {
    t.geminiTts + t.elevenLabs + t.openAiTts + 3 * t.audio + 3 * t.accounts + t.briefcase + 2 * t.statement
    + ORCHESTRATION_HEADROOM
  }

  function SttBudget(t: Timeouts): nat {
    t.geminiStt + t.openAiStt + t.deepgram + 3 * t.accounts + t.briefcase + t.download + 2 * t.statement
    + ORCHESTRATION_HEADROOM
  }

  /** The checks in the order the service makes them. */
  function Validate(s: Settings): Result<(), SettingsError> {
    var longest := if s.server.ttsDeadline > s.server.sttDeadline then s.server.ttsDeadline else s.server.sttDeadline;
    if !RangesHold(s) then Err(OutOfRange)
    else if s.idempotency.retryAfter >= s.idempotency.lease then Err(RetryAfterNotBelowLease)
    else if s.idempotency.lease >= s.idempotency.ttl then Err(LeaseNotBelowTtl)
    else if s.idempotency.lease < longest then Err(LeaseBelowDeadline)
    else if s.server.ttsDeadline < TtsBudget(s.timeouts) then Err(TtsDeadlineTooShort)
    else if s.server.sttDeadline < SttBudget(s.timeouts) then Err(SttDeadlineTooShort)
    else Ok(())
  }

  predicate Accepted(s: Settings) {
    Validate(s).Ok?
  }

  /** The values a setting may have. */
  predicate EachInRange(s: Settings) {
    && 1 <= s.server.ttsDeadline <= 900 && 1 <= s.server.sttDeadline <= 900
    && 86_400 <= s.idempotency.ttl <= 7 * 86_400
    && 10 <= s.idempotency.lease <= 3_600 && 1 <= s.idempotency.retryAfter <= 300
    && 1 <= s.timeouts.acquire <= 60 && 1 <= s.timeouts.accounts <= 60
    && 1 <= s.timeouts.briefcase <= 120 && 1 <= s.timeouts.geminiTts <= 120 && 1 <= s.timeouts.elevenLabs <= 120
    && 1 <= s.timeouts.openAiTts <= 120 && 1 <= s.timeouts.deepgram <= 120
    && 1 <= s.timeouts.statement <= 300 && 1 <= s.timeouts.download <= 300 && 1 <= s.timeouts.audio <= 300
    && 1 <= s.timeouts.geminiStt <= 300 && 1 <= s.timeouts.openAiStt <= 300
  }

  /** What is left of a deadline after the waits the service counts against it. */
  function Slack(deadline: int, providers: int, codec: int, s: Settings): int {
    deadline - providers - codec - 3 * s.timeouts.accounts - s.timeouts.briefcase - 2 * s.timeouts.statement - 30
  }

  /** A configuration is refused for the first of these it does not meet: the ranges; a retry hint below the
      lease; a lease below the retention; a lease that outlasts both deadlines; and for each operation a
      deadline with room for what is counted against it. */
  lemma ValidateMeans(s: Settings)
    ensures
      var speaking := s.timeouts.geminiTts + s.timeouts.elevenLabs + s.timeouts.openAiTts;
      var hearing := s.timeouts.geminiStt + s.timeouts.openAiStt + s.timeouts.deepgram;
      var slackTts := Slack(s.server.ttsDeadline, speaking, 3 * s.timeouts.audio, s);
      var slackStt := Slack(s.server.sttDeadline, hearing, s.timeouts.download, s);
      var leaseLasts := s.server.ttsDeadline <= s.idempotency.lease && s.server.sttDeadline <= s.idempotency.lease;
      var hintFits := s.idempotency.retryAfter < s.idempotency.lease;
      var retentionFits := s.idempotency.lease < s.idempotency.ttl;
      && (Validate(s) == Err(OutOfRange) <==> !EachInRange(s))
      && (Validate(s) == Err(RetryAfterNotBelowLease) <==> EachInRange(s) && !hintFits)
      && (Validate(s) == Err(LeaseNotBelowTtl) <==> EachInRange(s) && hintFits && !retentionFits)
      && (Validate(s) == Err(LeaseBelowDeadline) <==> EachInRange(s) && hintFits && retentionFits && !leaseLasts)
      && (Validate(s) == Err(TtsDeadlineTooShort) <==>
            EachInRange(s) && hintFits && retentionFits && leaseLasts && slackTts < 0)
      && (Validate(s) == Err(SttDeadlineTooShort) <==>
            EachInRange(s) && hintFits && retentionFits && leaseLasts && slackTts >= 0 && slackStt < 0)
      && (Accepted(s) <==>
            EachInRange(s) && hintFits && retentionFits && leaseLasts && slackTts >= 0 && slackStt >= 0)
  {
  }

  const DEFAULTS := Settings(
    Server(300, 600), Idempotency(86_400, 600, 2),
    Timeouts(3, 10, 5, 10, 30, 30, 45, 180, 45, 45, 120, 120))

  /** The built-in defaults are accepted, so the results about accepted settings speak of something. */
  lemma DefaultsAreAccepted()
    ensures Accepted(DEFAULTS)
  {
  }
}
