/**
How long a speech request can take, with every call cut off at its timeout, and which deadlines cover
that. The checks at start-up count fewer calls than a request makes.
*/
module RequestTime {
  import opened Wrappers
  import opened ProviderOrder
  import opened Settings
  import opened Synthesis
  import opened RequestCalls

  const CUSTODIAN_WAIT := 2

  function UploadLimit(t: Timeouts): nat {
    if t.download > t.briefcase then t.download else t.briefcase
  }

  function HearingLimit(t: Timeouts, p: Provider): nat {
    match p
    case Gemini => t.geminiStt
    case ElevenLabs => t.elevenLabs
    case OpenAi => t.openAiStt
    case Deepgram => t.deepgram
  }

  function Limit(t: Timeouts, call: Call): nat {
    match call
    case OthersKeyFetch => t.accounts
    case AccountsCall => t.accounts
    case CustodianLookup => CUSTODIAN_WAIT
    case Connection => t.acquire
    case Statement => t.statement
    case StoreOperation => t.statement
    case Speaking(p) => ProviderTimeout(t, p)
    case Hearing(p) => HearingLimit(t, p)
    case Codec => t.audio
    case Uploading => UploadLimit(t)
    case Downloading => t.download
  }

  /** How long the calls take, the k-th one `took(k)`. */
  function Duration(took: nat -> nat, log: seq<Call>): nat {
    if log == [] then 0 else Duration(took, log[..|log| - 1]) + took(|log| - 1)
  }

  ghost predicate WithinLimits(took: nat -> nat, t: Timeouts, log: seq<Call>) {
    forall k :: 0 <= k < |log| ==> took(k) <= Limit(t, log[k])
  }

  /** How long they can take. */
  function Seconds(t: Timeouts, log: seq<Call>): nat {
    if log == [] then 0 else Seconds(t, log[..|log| - 1]) + Limit(t, log[|log| - 1])
  }

  lemma {:induction false} DurationWithin(took: nat -> nat, t: Timeouts, log: seq<Call>)
    requires WithinLimits(took, t, log)
    ensures Duration(took, log) <= Seconds(t, log)
  {
    if log != [] {
      var n := |log| - 1;
      assert forall k :: 0 <= k < n ==> log[..n][k] == log[k];
      DurationWithin(took, t, log[..n]);
    }
  }

  function AtTheLimit(t: Timeouts, log: seq<Call>): nat -> nat {
    (k: nat) => if k < |log| then Limit(t, log[k]) else 0
  }

  lemma {:induction false} DurationAtTheLimit(took: nat -> nat, t: Timeouts, log: seq<Call>)
    requires forall k :: 0 <= k < |log| ==> took(k) == Limit(t, log[k])
    ensures Duration(took, log) == Seconds(t, log)
  {
    if log != [] {
      var n := |log| - 1;
      assert forall k :: 0 <= k < n ==> log[..n][k] == log[k];
      DurationAtTheLimit(took, t, log[..n]);
    }
  }

  lemma SecondsGrow(t: Timeouts, log: seq<Call>, call: Call)
    ensures Seconds(t, log + [call]) == Seconds(t, log) + Limit(t, call)
  {
    assert (log + [call])[..|log|] == log;
  }

  lemma {:induction false} SecondsConcat(t: Timeouts, a: seq<Call>, b: seq<Call>)
    ensures Seconds(t, a + b) == Seconds(t, a) + Seconds(t, b)
  {
    if b == [] {
      assert a + b == a;
    } else {
      var n := |b| - 1;
      assert a + b == (a + b[..n]) + [b[n]];
      SecondsGrow(t, a + b[..n], b[n]);
      SecondsConcat(t, a, b[..n]);
    }
  }

  /** So many waits for a connection, statements and calls to Silicon Accounts. */
  function Cost(t: Timeouts, connections: nat, statements: nat, accounts: nat): nat {
    connections * t.acquire + statements * t.statement + accounts * t.accounts
  }

  // ---- The steps --------------------------------------------------------------------------------

  lemma {:induction false} StatementsSeconds(t: Timeouts, r: Request, log: seq<Call>, n: nat)
    ensures var run := Statements(r, log, n);
      && Seconds(t, run.log) <= Seconds(t, log) + n * t.statement
      && (run.ok ==> Seconds(t, run.log) == Seconds(t, log) + n * t.statement)
  {
    if n > 0 {
      StatementsSeconds(t, r, log, n - 1);
      SecondsGrow(t, Statements(r, log, n - 1).log, Statement);
      assert n * t.statement == (n - 1) * t.statement + t.statement;
    }
  }

  lemma QuerySeconds(t: Timeouts, r: Request, log: seq<Call>)
    ensures var run := Query(r, log);
      && Seconds(t, run.log) <= Seconds(t, log) + Cost(t, 1, 1, 0)
      && (run.ok ==> Seconds(t, run.log) == Seconds(t, log) + Cost(t, 1, 1, 0))
  {
    hide Seconds;
    SecondsGrow(t, log, Connection);
    SecondsGrow(t, log + [Connection], Statement);
  }

  lemma {:induction false} BehindSeconds(t: Timeouts, n: nat)
    ensures Seconds(t, Behind(n)) == n * t.accounts
  {
    if n > 0 {
      BehindSeconds(t, n - 1);
      SecondsGrow(t, Behind(n - 1), OthersKeyFetch);
      assert n * t.accounts == (n - 1) * t.accounts + t.accounts;
    }
  }

  function Waited(r: Request): nat {
    r.keys.behind + r.keys.behindAgain
  }

  function BehindSum(t: Timeouts, r: Request): nat {
    Seconds(t, Behind(r.keys.behind)) + Seconds(t, Behind(r.keys.behindAgain))
  }

  lemma KeySetSeconds(t: Timeouts, r: Request, log: seq<Call>, behind: nat, fetches: bool)
    ensures Seconds(t, KeySet(r, log, behind, fetches).log)
            == Seconds(t, log) + Seconds(t, Behind(behind)) + if fetches then t.accounts else 0
  {
    hide Seconds;
    SecondsConcat(t, log, Behind(behind));
    SecondsGrow(t, log + Behind(behind), AccountsCall);
  }

  /** Two fetches at most, besides those of others. */
  lemma VerifyTokenSeconds(t: Timeouts, r: Request)
    ensures Seconds(t, VerifyToken(r).log) <= BehindSum(t, r) + Cost(t, 0, 0, 2)
    ensures VerifyToken(r).ok && SlowKeys(r.keys) ==>
      Seconds(t, VerifyToken(r).log) == BehindSum(t, r) + Cost(t, 0, 0, 2)
  {
    KeySetSeconds(t, r, [], r.keys.behind, r.keys.stale);
    KeySetSeconds(t, r, KeySet(r, [], r.keys.behind, r.keys.stale).log, r.keys.behindAgain, !r.keys.asked);
  }

  lemma EnsureSeconds(t: Timeouts, r: Request, log: seq<Call>)
    ensures var run := Ensure(r, log);
      && Seconds(t, run.log) <= Seconds(t, log) + (if r.account.purged then Cost(t, 2, 21, 0) else Cost(t, 2, 9, 0))
      && (run.ok ==> Seconds(t, run.log) == Seconds(t, log) + Cost(t, 2, 9, 0))
  {
    hide Seconds;
    var begun := Query(r, log);
    QuerySeconds(t, r, log);
    if r.account.purged {
      StatementsSeconds(t, r, begun.log, 19);
      QuerySeconds(t, r, Statements(r, begun.log, 19).log);
    } else {
      StatementsSeconds(t, r, begun.log, 7);
      QuerySeconds(t, r, Statements(r, begun.log, 7).log);
    }
  }

  lemma AdoptIdSeconds(t: Timeouts, r: Request, log: seq<Call>)
    ensures var run := AdoptId(r, log);
      && Seconds(t, run.log) <= Seconds(t, log) + Cost(t, 2, 5, 0)
      && (run.ok && r.account.adopted ==> Seconds(t, run.log) == Seconds(t, log) + Cost(t, 2, 5, 0))
  {
    hide Seconds;
    var begun := Query(r, log);
    QuerySeconds(t, r, log);
    if r.account.adopted {
      StatementsSeconds(t, r, begun.log, 3);
      QuerySeconds(t, r, Statements(r, begun.log, 3).log);
    } else {
      StatementsSeconds(t, r, begun.log, 2);
    }
  }

  lemma FirstLookupSeconds(t: Timeouts, r: Request, log: seq<Call>)
    ensures var run := FirstLookup(r, log);
      && Seconds(t, run.log) <= Seconds(t, log) + CUSTODIAN_WAIT + Cost(t, 1, 1, 0)
      && (run.ok ==> Seconds(t, run.log) <= Seconds(t, log) + CUSTODIAN_WAIT)
      && (run.ok && !r.account.custodian.Known? ==> Seconds(t, run.log) == Seconds(t, log) + CUSTODIAN_WAIT)
  {
    hide Seconds;
    SecondsGrow(t, log, CustodianLookup);
    QuerySeconds(t, r, log + [CustodianLookup]);
  }

  /** A Silicon Waveform has not seen, whose id changes meanwhile. */
  predicate SlowAccount(a: Account) {
    !a.known && !a.purged && a.newId && a.adopted && a.custodian.Named?
  }

  lemma SightingSeconds(t: Timeouts, r: Request, log: seq<Call>)
    ensures var run := Sighting(r, log);
      && Seconds(t, run.log) <= Seconds(t, log) + Cost(t, 6, 22, 0) + CUSTODIAN_WAIT
      && (run.ok ==> Seconds(t, run.log) <= Seconds(t, log) + Cost(t, 5, 15, 0) + CUSTODIAN_WAIT)
      && (run.ok && SlowAccount(r.account) ==>
            Seconds(t, run.log) == Seconds(t, log) + Cost(t, 5, 15, 0) + CUSTODIAN_WAIT)
  {
    hide Seconds;
    var loaded := Query(r, log);
    var there := if r.account.known then loaded else Ensure(r, loaded.log);
    var current := if r.account.newId then AdoptId(r, there.log) else there;
    QuerySeconds(t, r, log);
    EnsureSeconds(t, r, loaded.log);
    AdoptIdSeconds(t, r, there.log);
    FirstLookupSeconds(t, r, current.log);
  }

  predicate SlowKeys(k: Keys) {
    k.stale && k.lacking && !k.asked
  }

  lemma VerifiedSeconds(t: Timeouts, r: Request)
    ensures var verified := if r.direct then VerifyToken(r) else Await(r, [], AccountsCall);
      && Seconds(t, verified.log) <= BehindSum(t, r) + Cost(t, 0, 0, 2)
      && (verified.ok && r.direct && SlowKeys(r.keys) ==>
            Seconds(t, verified.log) == BehindSum(t, r) + Cost(t, 0, 0, 2))
  {
    if r.direct {
      VerifyTokenSeconds(t, r);
    } else {
      SecondsGrow(t, [], AccountsCall);
    }
  }

  lemma AuthorizeSeconds(t: Timeouts, r: Request)
    ensures var run := Authorize(r);
      && Seconds(t, run.log) <= BehindSum(t, r) + Cost(t, 7, 23, 2) + CUSTODIAN_WAIT
      && (run.ok ==> Seconds(t, run.log) <= BehindSum(t, r) + Cost(t, 6, 16, 2) + CUSTODIAN_WAIT)
      && (run.ok && r.direct && SlowKeys(r.keys) && SlowAccount(r.account) ==>
            Seconds(t, run.log) == BehindSum(t, r) + Cost(t, 6, 16, 2) + CUSTODIAN_WAIT)
  {
    hide Seconds;
    var verified := if r.direct then VerifyToken(r) else Await(r, [], AccountsCall);
    VerifiedSeconds(t, r);
    QuerySeconds(t, r, verified.log);
    SightingSeconds(t, r, Query(r, verified.log).log);
  }

  // ---- Proofs and storage -----------------------------------------------------------------------

  lemma ReplaceSeconds(t: Timeouts, r: Request, log: seq<Call>, proofs: Proofs)
    ensures var run := Replace(r, log, proofs);
      && Seconds(t, run.log) <= Seconds(t, log) + Cost(t, 0, 2, 1)
      && (run.ok ==> Seconds(t, run.log) == Seconds(t, log) + Cost(t, 0, 2, 1))
  {
    hide Seconds;
    SecondsGrow(t, log, Statement);
    SecondsGrow(t, log + [Statement], AccountsCall);
    SecondsGrow(t, log + [Statement] + [AccountsCall], Statement);
  }

  lemma InvalidatedSeconds(t: Timeouts, r: Request, log: seq<Call>, proofs: Proofs)
    ensures var run := Invalidated(r, log, proofs);
      && Seconds(t, run.log) <= Seconds(t, log) + Cost(t, 0, 3, 1)
      && (run.ok ==> Seconds(t, run.log) == Seconds(t, log) + Cost(t, 0, 3, 1))
  {
    hide Seconds;
    SecondsGrow(t, log, Statement);
    ReplaceSeconds(t, r, log + [Statement], proofs);
  }

  lemma CommittedSeconds(t: Timeouts, r: Request, run: Run)
    ensures Seconds(t, Committed(r, run).log) == Seconds(t, run.log) + t.statement
  {
    hide Seconds;
    SecondsGrow(t, run.log, Statement);
  }

  /** The refresh token was spent, so a second call to Silicon Accounts issues a new proof. */
  predicate SlowProof(proofs: Proofs) {
    proofs.standing == Refreshable(Spent) && !proofs.explicit
  }

  lemma BriefcaseProofSeconds(t: Timeouts, r: Request, log: seq<Call>, proofs: Proofs)
    ensures var run := BriefcaseProof(r, log, proofs);
      && Seconds(t, run.log) <= Seconds(t, log) + Cost(t, 1, 7, 2)
      && (run.ok && SlowProof(proofs) ==> Seconds(t, run.log) == Seconds(t, log) + Cost(t, 1, 7, 2))
  {
    hide Seconds;
    var begun := Query(r, log);
    var read := Statements(r, begun.log, 2);
    var refreshed := Await(r, read.log, AccountsCall);
    QuerySeconds(t, r, log);
    StatementsSeconds(t, r, begun.log, 2);
    SecondsGrow(t, read.log, AccountsCall);
    match proofs.standing
    case Missing =>
      ReplaceSeconds(t, r, read.log, proofs);
      CommittedSeconds(t, r, Replace(r, read.log, proofs));
    case Usable => CommittedSeconds(t, r, read);
    case Ended =>
      InvalidatedSeconds(t, r, read.log, proofs);
      CommittedSeconds(t, r, Invalidated(r, read.log, proofs));
    case Refreshable(answer) =>
      SecondsGrow(t, refreshed.log, Statement);
      CommittedSeconds(t, r, Await(r, refreshed.log, Statement));
      InvalidatedSeconds(t, r, refreshed.log, proofs);
      CommittedSeconds(t, r, Invalidated(r, refreshed.log, proofs));
  }

  lemma RenewedSeconds(t: Timeouts, r: Request, log: seq<Call>, proofs: Proofs)
    ensures var run := Renewed(r, log, proofs);
      && Seconds(t, run.log) <= Seconds(t, log) + Cost(t, 0, 4, 2)
      && (run.ok && SlowProof(proofs) ==> Seconds(t, run.log) == Seconds(t, log) + Cost(t, 0, 4, 2))
  {
    hide Seconds;
    var read := log + [Statement];
    var refreshed := read + [AccountsCall];
    SecondsGrow(t, log, Statement);
    SecondsGrow(t, read, AccountsCall);
    ReplaceSeconds(t, r, read, proofs);
    InvalidatedSeconds(t, r, read, proofs);
    SecondsGrow(t, refreshed, Statement);
    InvalidatedSeconds(t, r, refreshed, proofs);
  }

  lemma RenewSeconds(t: Timeouts, r: Request, log: seq<Call>, proofs: Proofs)
    ensures var run := RenewRefusedProof(r, log, proofs);
      && Seconds(t, run.log) <= Seconds(t, log) + Cost(t, 1, 7, 2)
      && (run.ok && SlowProof(proofs) ==> Seconds(t, run.log) == Seconds(t, log) + Cost(t, 1, 7, 2))
  {
    hide Seconds;
    var begun := Query(r, log);
    var locked := Await(r, begun.log, Statement);
    QuerySeconds(t, r, log);
    SecondsGrow(t, begun.log, Statement);
    RenewedSeconds(t, r, locked.log, proofs);
    CommittedSeconds(t, r, Renewed(r, locked.log, proofs));
  }

  lemma StoringAgainSeconds(t: Timeouts, r: Request, log: seq<Call>)
    ensures var kept := StoringAgain(r, log);
      && Seconds(t, kept.log) <= Seconds(t, log) + Cost(t, 2, 8, 2) + UploadLimit(t)
      && (SlowProof(r.renewal) && RenewRefusedProof(r, log, r.renewal).ok && r.second.Err? && kept.ok ==>
            Seconds(t, kept.log) == Seconds(t, log) + Cost(t, 2, 8, 2) + UploadLimit(t))
  {
    hide Seconds;
    var renewed := RenewRefusedProof(r, log, r.renewal);
    RenewSeconds(t, r, log, r.renewal);
    QuerySeconds(t, r, renewed.log);
    SecondsGrow(t, renewed.log, Uploading);
    QuerySeconds(t, r, renewed.log + [Uploading]);
  }

  /** Both proofs are spent, both uploads refused, and the audio is held. */
  predicate SlowStorage(r: Request) {
    r.direct && SlowProof(r.proofs) && r.first == Err(Unauthorized) && SlowProof(r.renewal) && r.second.Err?
  }

  lemma StoringSeconds(t: Timeouts, r: Request, log: seq<Call>)
    ensures var kept := Storing(r, log);
      Seconds(t, kept.log) <= Seconds(t, log) + Cost(t, 3, 15, 4) + 2 * UploadLimit(t)
  {
    hide Seconds;
    var proof := BriefcaseProof(r, log, r.proofs);
    QuerySeconds(t, r, log);
    BriefcaseProofSeconds(t, r, log, r.proofs);
    QuerySeconds(t, r, proof.log);
    SecondsGrow(t, proof.log, Uploading);
    QuerySeconds(t, r, proof.log + [Uploading]);
    StoringAgainSeconds(t, r, proof.log + [Uploading]);
  }

  // ---- Text to speech ---------------------------------------------------------------------------

  lemma PrepareSeconds(t: Timeouts, r: Request, log: seq<Call>)
    ensures var run := Prepare(r, log);
      && Seconds(t, run.log) <= Seconds(t, log) + Cost(t, 2, 3, 0)
      && (run.ok ==> Seconds(t, run.log) == Seconds(t, log) + Cost(t, 2, 3, 0))
  {
    hide Seconds;
    var ordered := Query(r, log);
    var keyed := Query(r, ordered.log);
    QuerySeconds(t, r, log);
    QuerySeconds(t, r, ordered.log);
    SecondsGrow(t, keyed.log, StoreOperation);
  }

  lemma VoiceSeconds(t: Timeouts, r: Request, log: seq<Call>)
    ensures var run := Voice(r, log);
      && Seconds(t, run.log) <= Seconds(t, log) + Cost(t, 3, 3, 0)
      && (run.ok ==> Seconds(t, run.log) == Seconds(t, log) + Cost(t, 3, 3, 0))
  {
    hide Seconds;
    var ensured := Query(r, log);
    QuerySeconds(t, r, log);
    QuerySeconds(t, r, ensured.log);
    QuerySeconds(t, r, Query(r, ensured.log).log);
  }

  function TurnLimit(t: Timeouts, p: Provider): nat {
    ProviderTimeout(t, p) + if p.Gemini? then t.audio else 0
  }

  lemma TurnSeconds(t: Timeouts, r: Request, p: Provider)
    ensures Seconds(t, TurnCalls(r, p)) <= TurnLimit(t, p)
    ensures !r.mp3 && !r.turns.attempt(p).ProviderError? ==> Seconds(t, TurnCalls(r, p)) == TurnLimit(t, p)
  {
    SecondsGrow(t, [], Speaking(p));
    SecondsGrow(t, [Speaking(p)], Codec);
    assert [] + [Speaking(p)] == [Speaking(p)];
  }

  lemma {:induction false} TurnsSeconds(t: Timeouts, r: Request, calls: seq<Provider>)
    requires Distinct(calls) && Within(calls, TTS_CHAIN)
    ensures Seconds(t, TurnsOf(r, calls))
            <= (if Gemini in calls then TurnLimit(t, Gemini) else 0)
             + (if ElevenLabs in calls then TurnLimit(t, ElevenLabs) else 0)
             + (if OpenAi in calls then TurnLimit(t, OpenAi) else 0)
  {
    if calls != [] {
      var before, last := calls[..|calls| - 1], calls[|calls| - 1];
      assert forall p :: p in calls <==> p in before || p == last;
      assert last !in before && last in TTS_CHAIN;
      TurnsSeconds(t, r, before);
      SecondsConcat(t, TurnsOf(r, before), TurnCalls(r, last));
      TurnSeconds(t, r, last);
    }
  }

  function SpeakingBudget(t: Timeouts): nat {
    TurnLimit(t, Gemini) + TurnLimit(t, ElevenLabs) + TurnLimit(t, OpenAi)
  }

  /** All turns yield audio, but only the last one's is any good. */
  predicate SlowTurns(r: Request) {
    && !r.mp3 && r.requested == [] && r.fallback && r.turns.configured == {Gemini, ElevenLabs, OpenAi}
    && r.turns.attempt(Gemini).InvalidAudio? && r.turns.attempt(ElevenLabs).InvalidAudio?
    && r.turns.attempt(OpenAi).Normalised?
  }

  lemma LoopSeconds(t: Timeouts, r: Request, log: seq<Call>)
    requires Distinct(r.requested) && Within(r.requested, TTS_CHAIN)
    ensures Seconds(t, log + TurnsOf(r, Called(Tried(r.requested, r.fallback), r.turns)))
            <= Seconds(t, log) + SpeakingBudget(t)
  {
    var calls := Called(Tried(r.requested, r.fallback), r.turns);
    CalledIsPart(r.requested, r.fallback, r.turns);
    TurnsSeconds(t, r, calls);
    SecondsConcat(t, log, TurnsOf(r, calls));
  }

  lemma EmptyRequest()
    ensures Tried([], true) == TTS_CHAIN && Resolved([], STT_CHAIN) == STT_CHAIN
  {
    ChainIsDistinct();
    ResolvingNothing(TTS_CHAIN, []);
    ResolvingNothing(STT_CHAIN, []);
    assert [] + TTS_CHAIN == TTS_CHAIN && [] + STT_CHAIN == STT_CHAIN;
  }

  lemma {:induction false} ResolvingNothing(base: seq<Provider>, seen: seq<Provider>)
    requires Distinct(base) && forall p :: p in base ==> p !in seen
    ensures Rest(base, seen) == base
  {
    if base != [] {
      assert base[0] in base;
      forall p | p in base[1..] ensures p !in seen + [base[0]] {
        var i :| 1 <= i < |base| && base[i] == p;
      }
      ResolvingNothing(base[1..], seen + [base[0]]);
    }
  }

  lemma SlowLoop(t: Timeouts, r: Request, log: seq<Call>)
    requires SlowTurns(r)
    ensures Speaks(r) && Called(Tried(r.requested, r.fallback), r.turns) == TTS_CHAIN
    ensures Seconds(t, log + TurnsOf(r, TTS_CHAIN)) == Seconds(t, log) + SpeakingBudget(t)
  {
    EmptyRequest();
    DecisiveIs(TTS_CHAIN, r.turns, 2);
    assert TTS_CHAIN[..3] == TTS_CHAIN;
    SlowTurnsSeconds(t, r);
    SecondsConcat(t, log, TurnsOf(r, TTS_CHAIN));
  }

  lemma SlowTurnsSeconds(t: Timeouts, r: Request)
    requires SlowTurns(r)
    ensures Seconds(t, TurnsOf(r, TTS_CHAIN)) == SpeakingBudget(t)
  {
    hide Seconds;
    OneMoreTurn(t, r, [], Gemini);
    OneMoreTurn(t, r, [Gemini], ElevenLabs);
    OneMoreTurn(t, r, [Gemini, ElevenLabs], OpenAi);
    assert [] + [Gemini] == [Gemini] && [Gemini] + [ElevenLabs] == [Gemini, ElevenLabs];
    assert [Gemini, ElevenLabs] + [OpenAi] == TTS_CHAIN;
    NoSeconds(t);
  }

  lemma NoSeconds(t: Timeouts)
    ensures Seconds(t, []) == 0
  {
  }

  lemma OneMoreTurn(t: Timeouts, r: Request, calls: seq<Provider>, p: Provider)
    requires !r.mp3 && !r.turns.attempt(p).ProviderError?
    ensures Seconds(t, TurnsOf(r, calls + [p])) == Seconds(t, TurnsOf(r, calls)) + TurnLimit(t, p)
  {
    assert (calls + [p])[..|calls|] == calls;
    SecondsConcat(t, TurnsOf(r, calls), TurnCalls(r, p));
    TurnSeconds(t, r, p);
  }

  lemma CompleteSeconds(t: Timeouts, r: Request, log: seq<Call>)
    ensures Seconds(t, Released(log).log) == Seconds(t, log) + t.statement
    ensures Seconds(t, Complete(r, log).log) <= Seconds(t, log) + 2 * t.statement
    ensures !r.completes ==> Seconds(t, Complete(r, log).log) == Seconds(t, log) + 2 * t.statement
  {
    hide Seconds;
    SecondsGrow(t, log, StoreOperation);
    SecondsGrow(t, log + [StoreOperation], StoreOperation);
    if r.completes {
      assert Complete(r, log).log == log + [StoreOperation];
    } else {
      assert Complete(r, log).log == log + [StoreOperation] + [StoreOperation];
    }
  }

  lemma SynthesizeFreshSeconds(t: Timeouts, r: Request, log: seq<Call>)
    requires Distinct(r.requested) && Within(r.requested, TTS_CHAIN)
    ensures Seconds(t, SynthesizeFresh(r, log).log)
            <= Seconds(t, log) + Cost(t, 6, 21, 4) + 2 * UploadLimit(t) + SpeakingBudget(t)
  {
    hide Seconds;
    var voiced := Voice(r, log);
    var started := Await(r, voiced.log, StoreOperation);
    var spoken := started.log + TurnsOf(r, Called(Tried(r.requested, r.fallback), r.turns));
    var kept := Storing(r, spoken);
    VoiceSeconds(t, r, log);
    CompleteSeconds(t, r, voiced.log);
    SecondsGrow(t, voiced.log, StoreOperation);
    LoopSeconds(t, r, started.log);
    CompleteSeconds(t, r, spoken);
    StoringSeconds(t, r, spoken);
    CompleteSeconds(t, r, kept.log);
  }

  lemma ReplayReadSeconds(t: Timeouts, r: Request, log: seq<Call>)
    ensures Seconds(t, ReplayRead(r, log).log) <= Seconds(t, log) + Cost(t, 2, 14, 4) + 2 * t.download
  {
    hide Seconds;
    var proof := BriefcaseProof(r, log, r.proofs);
    var once := proof.log + [Downloading];
    var renewed := RenewRefusedProof(r, once, r.renewal);
    BriefcaseProofSeconds(t, r, log, r.proofs);
    SecondsGrow(t, proof.log, Downloading);
    RenewSeconds(t, r, once, r.renewal);
    SecondsGrow(t, renewed.log, Downloading);
  }

  /** The longest a request to synthesize can take, behind so many other requests' key fetches. */
  function LongestSynthesis(t: Timeouts, behind: nat): nat {
    Cost(t, 14, 40, 6) + behind * t.accounts + CUSTODIAN_WAIT + 2 * UploadLimit(t) + SpeakingBudget(t)
  }

  ghost predicate Sound(r: Request, behind: nat, chain: seq<Provider>) {
    Waited(r) <= behind && Distinct(r.requested) && Within(r.requested, chain)
  }

  lemma Distributes(a: nat, b: nat, c: nat, x: nat)
    ensures (a + b + c) * x == a * x + b * x + c * x && c * x >= 0
  {
  }

  lemma BehindAtMost(t: Timeouts, r: Request, behind: nat)
    requires Waited(r) <= behind
    ensures BehindSum(t, r) <= behind * t.accounts
    ensures Waited(r) == behind ==> BehindSum(t, r) == behind * t.accounts
  {
    BehindSeconds(t, r.keys.behind);
    BehindSeconds(t, r.keys.behindAgain);
    Distributes(r.keys.behind, r.keys.behindAgain, behind - Waited(r), t.accounts);
  }

  lemma SynthesizeAtMost(t: Timeouts, r: Request, behind: nat)
    requires Sound(r, behind, TTS_CHAIN)
    ensures Seconds(t, Synthesize(r).log) <= LongestSynthesis(t, behind)
  {
    hide Seconds;
    var authorized := Authorize(r);
    var prepared := Prepare(r, authorized.log);
    BehindAtMost(t, r, behind);
    AuthorizeSeconds(t, r);
    PrepareSeconds(t, r, authorized.log);
    SynthesizeFreshSeconds(t, r, prepared.log);
    ReplayReadSeconds(t, r, prepared.log);
    QuerySeconds(t, r, prepared.log);
  }

  // ---- A request with every wait ----------------------------------------------------------------

  ghost predicate Smooth(r: Request) {
    forall k: nat :: !r.fails(k)
  }

  lemma {:induction false} SmoothStatements(r: Request, log: seq<Call>, n: nat)
    requires Smooth(r)
    ensures Statements(r, log, n).ok
  {
    if n > 0 {
      SmoothStatements(r, log, n - 1);
    }
  }

  lemma SmoothAuthorization(r: Request)
    requires Smooth(r) && r.direct && SlowAccount(r.account)
    ensures Authorize(r).ok
  {
    forall log, n: nat ensures Statements(r, log, n).ok {
      SmoothStatements(r, log, n);
    }
  }

  lemma SmoothProof(r: Request, log: seq<Call>, proofs: Proofs)
    requires Smooth(r) && r.direct && SlowProof(proofs)
    ensures BriefcaseProof(r, log, proofs).ok && RenewRefusedProof(r, log, proofs).ok
  {
    SmoothStatements(r, Query(r, log).log, 2);
  }

  /** Everything that can take long does; nothing fails until the result is to be recorded. */
  function SlowestRequest(behind: nat): Request {
    var spent := Proofs(Refreshable(Spent), false);
    Request(true, Keys(behind, true, true, 0, false), Account(false, false, true, true, Named), Acquired, [], true,
            Synthesis.World({Gemini, ElevenLabs, OpenAi}, p => if p == OpenAi then Normalised(1) else InvalidAudio,
                            p => 0), false,
            {Gemini, OpenAi, Deepgram}, {Deepgram},
            spent, Err(Unauthorized), NotAuthorized, spent, Err(OtherBriefcaseError), NotAuthorized, false, k => false)
  }

  lemma SlowStoring(t: Timeouts, r: Request, log: seq<Call>)
    requires Smooth(r) && SlowStorage(r)
    ensures Storing(r, log).ok && Uploads(Storing(r, log).events) == 2
    ensures Seconds(t, Storing(r, log).log) == Seconds(t, log) + Cost(t, 3, 15, 4) + 2 * UploadLimit(t)
  {
    hide Seconds;
    var proof := BriefcaseProof(r, log, r.proofs);
    SmoothProof(r, log, r.proofs);
    BriefcaseProofSeconds(t, r, log, r.proofs);
    SecondsGrow(t, proof.log, Uploading);
    SmoothProof(r, proof.log + [Uploading], r.renewal);
    StoringAgainSeconds(t, r, proof.log + [Uploading]);
    AtMostTwoUploads(1, 2, ReasonFor(ByBriefcase(r.second.error)));
  }

  lemma SlowFresh(t: Timeouts, r: Request, log: seq<Call>)
    requires Smooth(r) && SlowStorage(r) && SlowTurns(r) && !r.completes
    ensures Seconds(t, SynthesizeFresh(r, log).log)
            == Seconds(t, log) + Cost(t, 6, 21, 4) + 2 * UploadLimit(t) + SpeakingBudget(t)
  {
    hide Seconds;
    var voiced := Voice(r, log);
    var started := Await(r, voiced.log, StoreOperation);
    VoiceSeconds(t, r, log);
    SecondsGrow(t, voiced.log, StoreOperation);
    SlowLoop(t, r, started.log);
    var spoken := started.log + TurnsOf(r, TTS_CHAIN);
    SlowStoring(t, r, spoken);
    CompleteSeconds(t, r, Storing(r, spoken).log);
  }

  /** It takes exactly the longest. */
  lemma SlowestSynthesis(t: Timeouts, behind: nat)
    ensures Sound(SlowestRequest(behind), behind, TTS_CHAIN)
    ensures Seconds(t, Synthesize(SlowestRequest(behind)).log) == LongestSynthesis(t, behind)
  {
    hide Seconds;
    var r := SlowestRequest(behind);
    BehindAtMost(t, r, behind);
    SmoothAuthorization(r);
    AuthorizeSeconds(t, r);
    PrepareSeconds(t, r, Authorize(r).log);
    SlowFresh(t, r, Prepare(r, Authorize(r).log).log);
  }

  // ---- Which deadlines suffice ------------------------------------------------------------------

  /** Every request, however its calls are answered and however long they take, ends by the deadline. */
  ghost predicate SynthesisFits(t: Timeouts, behind: nat, deadline: nat) {
    forall r, took :: Sound(r, behind, TTS_CHAIN) && WithinLimits(took, t, Synthesize(r).log) ==>
      Duration(took, Synthesize(r).log) <= deadline
  }

  /** A deadline suffices if and only if it covers the longest request. */
  lemma SynthesisFitsIff(t: Timeouts, behind: nat, deadline: nat)
    ensures SynthesisFits(t, behind, deadline) <==> LongestSynthesis(t, behind) <= deadline
  {
    if LongestSynthesis(t, behind) <= deadline {
      forall r, took | Sound(r, behind, TTS_CHAIN) && WithinLimits(took, t, Synthesize(r).log)
        ensures Duration(took, Synthesize(r).log) <= deadline
      {
        DurationWithin(took, t, Synthesize(r).log);
        SynthesizeAtMost(t, r, behind);
      }
    } else {
      var log := Synthesize(SlowestRequest(behind)).log;
      SlowestSynthesis(t, behind);
      DurationAtTheLimit(AtTheLimit(t, log), t, log);
      assert WithinLimits(AtTheLimit(t, log), t, log);
    }
  }

  /** The check at start-up counts fewer calls, and more codec runs, than a request makes. Every deadline it
      lets through suffices if and only if what it leaves out fits its slack. */
  lemma TtsBudgetSufficesIff(t: Timeouts, behind: nat)
    ensures (forall deadline: nat :: TtsBudget(t) <= deadline ==> SynthesisFits(t, behind, deadline))
            <==> Cost(t, 14, 38, 3) + behind * t.accounts + CUSTODIAN_WAIT + 2 * UploadLimit(t)
                 <= t.briefcase + 2 * t.audio + ORCHESTRATION_HEADROOM
  {
    forall deadline: nat
      ensures SynthesisFits(t, behind, deadline) <==> LongestSynthesis(t, behind) <= deadline
    {
      SynthesisFitsIff(t, behind, deadline);
    }
    assert LongestSynthesis(t, behind) > TtsBudget(t) ==> !SynthesisFits(t, behind, TtsBudget(t));
  }

  // ---- Speech to text ---------------------------------------------------------------------------

  lemma {:induction false} HearingsSeconds(t: Timeouts, calls: seq<Provider>)
    requires Distinct(calls) && Within(calls, STT_CHAIN)
    ensures Seconds(t, HearingsOf(calls))
            <= (if Gemini in calls then t.geminiStt else 0)
             + (if OpenAi in calls then t.openAiStt else 0)
             + (if Deepgram in calls then t.deepgram else 0)
  {
    if calls != [] {
      var before, last := calls[..|calls| - 1], calls[|calls| - 1];
      assert forall p :: p in calls <==> p in before || p == last;
      assert last !in before && last in STT_CHAIN;
      HearingsSeconds(t, before);
      SecondsGrow(t, HearingsOf(before), Hearing(last));
    }
  }

  function HearingBudget(t: Timeouts): nat {
    t.geminiStt + t.openAiStt + t.deepgram
  }

  lemma {:induction false} AskedIsPart(order: seq<Provider>, r: Request)
    ensures Asked(order, r) <= order
  {
    if order != [] && order[0] in r.configured && order[0] !in r.hears {
      AskedIsPart(order[1..], r);
      assert order == [order[0]] + order[1..];
    }
  }

  lemma AskedSeconds(t: Timeouts, r: Request, log: seq<Call>)
    requires Distinct(r.requested) && Within(r.requested, STT_CHAIN)
    ensures Seconds(t, log + HearingsOf(Asked(Resolved(r.requested, STT_CHAIN), r)))
            <= Seconds(t, log) + HearingBudget(t)
  {
    var order := Resolved(r.requested, STT_CHAIN);
    var calls := Asked(order, r);
    ChainIsDistinct();
    ResolvedIsAPermutation(r.requested, STT_CHAIN);
    AskedIsPart(order, r);
    assert calls == order[..|calls|];
    assert forall p :: p in order[..|calls|] ==> p in order;
    HearingsSeconds(t, calls);
    SecondsConcat(t, log, HearingsOf(calls));
  }

  lemma TranscribeFreshSeconds(t: Timeouts, r: Request, log: seq<Call>)
    requires Distinct(r.requested) && Within(r.requested, STT_CHAIN)
    ensures Seconds(t, TranscribeFresh(r, log).log)
            <= Seconds(t, log) + Cost(t, 2, 17, 4) + 2 * t.download + t.audio + HearingBudget(t)
  {
    hide Seconds;
    var started := Await(r, log, StoreOperation);
    var read := ReplayRead(r, started.log);
    var measured := Await(r, read.log, Codec);
    var heard := measured.log + HearingsOf(Asked(Resolved(r.requested, STT_CHAIN), r));
    SecondsGrow(t, log, StoreOperation);
    ReplayReadSeconds(t, r, started.log);
    CompleteSeconds(t, r, read.log);
    SecondsGrow(t, read.log, Codec);
    CompleteSeconds(t, r, measured.log);
    AskedSeconds(t, r, measured.log);
    CompleteSeconds(t, r, heard);
  }

  function LongestTranscription(t: Timeouts, behind: nat): nat {
    Cost(t, 10, 36, 6) + behind * t.accounts + CUSTODIAN_WAIT + 2 * t.download + t.audio + HearingBudget(t)
  }

  lemma TranscribeAtMost(t: Timeouts, r: Request, behind: nat)
    requires Sound(r, behind, STT_CHAIN)
    ensures Seconds(t, Transcribe(r).log) <= LongestTranscription(t, behind)
  {
    hide Seconds;
    var authorized := Authorize(r);
    var prepared := Prepare(r, authorized.log);
    var proof := BriefcaseProof(r, prepared.log, r.proofs);
    BehindAtMost(t, r, behind);
    AuthorizeSeconds(t, r);
    PrepareSeconds(t, r, authorized.log);
    TranscribeFreshSeconds(t, r, prepared.log);
    BriefcaseProofSeconds(t, r, prepared.log, r.proofs);
    SecondsGrow(t, proof.log, Downloading);
  }

  /** The recording is read with the second proof, and the last provider hears it. */
  function SlowestRecording(behind: nat): Request {
    SlowestRequest(behind).(second := Ok(1))
  }

  lemma SlowRead(t: Timeouts, r: Request, log: seq<Call>)
    requires Smooth(r) && r.direct && SlowProof(r.proofs) && r.first == Err(Unauthorized)
    requires SlowProof(r.renewal) && r.second.Ok?
    ensures ReplayRead(r, log).ok
    ensures Seconds(t, ReplayRead(r, log).log) == Seconds(t, log) + Cost(t, 2, 14, 4) + 2 * t.download
  {
    hide Seconds;
    var proof := BriefcaseProof(r, log, r.proofs);
    var once := proof.log + [Downloading];
    var renewed := RenewRefusedProof(r, once, r.renewal);
    SmoothProof(r, log, r.proofs);
    BriefcaseProofSeconds(t, r, log, r.proofs);
    SecondsGrow(t, proof.log, Downloading);
    SmoothProof(r, once, r.renewal);
    RenewSeconds(t, r, once, r.renewal);
    SecondsGrow(t, renewed.log, Downloading);
  }

  lemma SlowHearing(t: Timeouts, r: Request, log: seq<Call>)
    requires r.requested == [] && r.configured == {Gemini, OpenAi, Deepgram} && r.hears == {Deepgram}
    ensures Resolved(r.requested, STT_CHAIN) == STT_CHAIN && Asked(STT_CHAIN, r) == STT_CHAIN && Heard(STT_CHAIN, r)
    ensures Seconds(t, log + HearingsOf(STT_CHAIN)) == Seconds(t, log) + HearingBudget(t)
  {
    EmptyRequest();
    assert STT_CHAIN[1..] == [OpenAi, Deepgram] && [OpenAi, Deepgram][1..] == [Deepgram];
    assert Asked([Deepgram], r) == [Deepgram];
    assert Asked([OpenAi, Deepgram], r) == [OpenAi, Deepgram];
    HearingChain(t);
    SecondsConcat(t, log, HearingsOf(STT_CHAIN));
  }

  lemma HearingChain(t: Timeouts)
    ensures Seconds(t, HearingsOf(STT_CHAIN)) == HearingBudget(t)
  {
    OneMoreHearing(t, [], Gemini);
    OneMoreHearing(t, [Gemini], OpenAi);
    OneMoreHearing(t, [Gemini, OpenAi], Deepgram);
    assert [] + [Gemini] == [Gemini] && [Gemini] + [OpenAi] == [Gemini, OpenAi];
    assert [Gemini, OpenAi] + [Deepgram] == STT_CHAIN;
  }

  lemma OneMoreHearing(t: Timeouts, calls: seq<Provider>, p: Provider)
    ensures Seconds(t, HearingsOf(calls + [p])) == Seconds(t, HearingsOf(calls)) + HearingLimit(t, p)
  {
    assert (calls + [p])[..|calls|] == calls;
    SecondsGrow(t, HearingsOf(calls), Hearing(p));
  }

  lemma SlowTranscribeFresh(t: Timeouts, r: Request, log: seq<Call>)
    requires Smooth(r) && r.direct && SlowProof(r.proofs) && r.first == Err(Unauthorized)
    requires SlowProof(r.renewal) && r.second.Ok? && !r.completes
    requires r.requested == [] && r.configured == {Gemini, OpenAi, Deepgram} && r.hears == {Deepgram}
    ensures Seconds(t, TranscribeFresh(r, log).log)
            == Seconds(t, log) + Cost(t, 2, 17, 4) + 2 * t.download + t.audio + HearingBudget(t)
  {
    hide Seconds;
    var started := Await(r, log, StoreOperation);
    var read := ReplayRead(r, started.log);
    var measured := Await(r, read.log, Codec);
    SecondsGrow(t, log, StoreOperation);
    SlowRead(t, r, started.log);
    SecondsGrow(t, read.log, Codec);
    SlowHearing(t, r, measured.log);
    CompleteSeconds(t, r, measured.log + HearingsOf(STT_CHAIN));
  }

  lemma SlowestTranscription(t: Timeouts, behind: nat)
    ensures Sound(SlowestRecording(behind), behind, STT_CHAIN)
    ensures Seconds(t, Transcribe(SlowestRecording(behind)).log) == LongestTranscription(t, behind)
  {
    hide Seconds;
    var r := SlowestRecording(behind);
    BehindAtMost(t, r, behind);
    SmoothAuthorization(r);
    AuthorizeSeconds(t, r);
    PrepareSeconds(t, r, Authorize(r).log);
    SlowTranscribeFresh(t, r, Prepare(r, Authorize(r).log).log);
  }

  ghost predicate TranscriptionFits(t: Timeouts, behind: nat, deadline: nat) {
    forall r, took :: Sound(r, behind, STT_CHAIN) && WithinLimits(took, t, Transcribe(r).log) ==>
      Duration(took, Transcribe(r).log) <= deadline
  }

  lemma TranscriptionFitsIff(t: Timeouts, behind: nat, deadline: nat)
    ensures TranscriptionFits(t, behind, deadline) <==> LongestTranscription(t, behind) <= deadline
  {
    if LongestTranscription(t, behind) <= deadline {
      forall r, took | Sound(r, behind, STT_CHAIN) && WithinLimits(took, t, Transcribe(r).log)
        ensures Duration(took, Transcribe(r).log) <= deadline
      {
        DurationWithin(took, t, Transcribe(r).log);
        TranscribeAtMost(t, r, behind);
      }
    } else {
      var log := Transcribe(SlowestRecording(behind)).log;
      SlowestTranscription(t, behind);
      DurationAtTheLimit(AtTheLimit(t, log), t, log);
      assert WithinLimits(AtTheLimit(t, log), t, log);
    }
  }

  /** The measuring of the recording and a second reading are in no budget either. */
  lemma SttBudgetSufficesIff(t: Timeouts, behind: nat)
    ensures (forall deadline: nat :: SttBudget(t) <= deadline ==> TranscriptionFits(t, behind, deadline))
            <==> Cost(t, 10, 34, 3) + behind * t.accounts + CUSTODIAN_WAIT + t.download + t.audio
                 <= t.briefcase + ORCHESTRATION_HEADROOM
  {
    forall deadline: nat
      ensures TranscriptionFits(t, behind, deadline) <==> LongestTranscription(t, behind) <= deadline
    {
      TranscriptionFitsIff(t, behind, deadline);
    }
    assert LongestTranscription(t, behind) > SttBudget(t) ==> !TranscriptionFits(t, behind, SttBudget(t));
  }

  // ---- Settings the service accepts -------------------------------------------------------------

  lemma DefaultsNeed()
    ensures LongestSynthesis(DEFAULTS.timeouts, 0) == 699 && LongestTranscription(DEFAULTS.timeouts, 0) == 932
  {
  }

  /** The built-in settings give a request 300 seconds and it may need 699. */
  lemma DefaultSynthesisIsTooShort()
    ensures Accepted(DEFAULTS) && DEFAULTS.server.ttsDeadline == 300
    ensures forall deadline: nat :: SynthesisFits(DEFAULTS.timeouts, 0, deadline) <==> 699 <= deadline
  {
    DefaultsNeed();
    forall deadline: nat ensures SynthesisFits(DEFAULTS.timeouts, 0, deadline) <==> 699 <= deadline {
      SynthesisFitsIff(DEFAULTS.timeouts, 0, deadline);
    }
  }

  /** With the built-in timeouts a transcription may need 932 seconds, longer than any deadline the service
      accepts. */
  lemma DefaultTranscriptionIsTooShort(s: Settings)
    requires Accepted(s) && s.timeouts == DEFAULTS.timeouts
    ensures !TranscriptionFits(s.timeouts, 0, s.server.sttDeadline)
  {
    DefaultsNeed();
    TranscriptionFitsIff(s.timeouts, 0, s.server.sttDeadline);
  }

  /** There are settings whose budgets suffice: a slow codec leaves the slack. */
  const ROOMY := Settings(
    Server(246, 106), Idempotency(86_400, 246, 2), Timeouts(1, 1, 1, 67, 1, 47, 1, 1, 1, 1, 1, 1))

  lemma RoomyBudgetsSuffice()
    ensures Accepted(ROOMY)
    ensures SynthesisFits(ROOMY.timeouts, 0, ROOMY.server.ttsDeadline)
    ensures TranscriptionFits(ROOMY.timeouts, 0, ROOMY.server.sttDeadline)
  {
    TtsBudgetSufficesIff(ROOMY.timeouts, 0);
    SttBudgetSufficesIff(ROOMY.timeouts, 0);
  }

  /** Another app's call for an account Waveform knows: nothing is renewed, retried or refused. */
  const DELEGATED_CALL := Request(
    false, Keys(0, false, false, 0, false), Account(true, false, false, false, Known), Acquired, [], true,
    Synthesis.World({Gemini, ElevenLabs, OpenAi}, p => if p == OpenAi then Normalised(1) else InvalidAudio, p => 0),
    false, {}, {}, Proofs(Missing, false), Err(Unauthorized), NotAuthorized, Proofs(Missing, false), Err(Unauthorized),
    NotAuthorized, true, k => false)

  /** Under the built-in settings even that call, answered at the last moment each time, succeeds only
      after its deadline. */
  lemma OrdinaryRequestMayBeTooLate()
    ensures Sound(DELEGATED_CALL, 0, TTS_CHAIN) && Synthesize(DELEGATED_CALL).ok
    ensures Seconds(DEFAULTS.timeouts, Synthesize(DELEGATED_CALL).log) == 304 > DEFAULTS.server.ttsDeadline
  {
    hide Seconds;
    var t, r := DEFAULTS.timeouts, DELEGATED_CALL;
    NoSeconds(t);
    SecondsGrow(t, [], AccountsCall);
    QuerySeconds(t, r, [] + [AccountsCall]);
    var current := Query(r, [] + [AccountsCall]);
    QuerySeconds(t, r, current.log);
    var authorized := Authorize(r);
    assert authorized == Query(r, current.log);
    PrepareSeconds(t, r, authorized.log);
    OrdinaryFresh(t, r, Prepare(r, authorized.log).log);
  }

  lemma OrdinaryFresh(t: Timeouts, r: Request, log: seq<Call>)
    requires Smooth(r) && !r.direct && SlowTurns(r) && r.completes
    ensures SynthesizeFresh(r, log).ok
    ensures Seconds(t, SynthesizeFresh(r, log).log) == Seconds(t, log) + Cost(t, 4, 6, 0) + SpeakingBudget(t)
  {
    hide Seconds;
    var voiced := Voice(r, log);
    var started := Await(r, voiced.log, StoreOperation);
    var spoken := started.log + TurnsOf(r, TTS_CHAIN);
    VoiceSeconds(t, r, log);
    SecondsGrow(t, voiced.log, StoreOperation);
    SlowLoop(t, r, started.log);
    QuerySeconds(t, r, spoken);
    SecondsGrow(t, Storing(r, spoken).log, StoreOperation);
  }
}
