/**
The text-to-speech pipeline behind a lease: providers tried in order until one yields audio that
normalises, and the storing of that audio, which only Waveform's own audio store can make fail.
*/
module Synthesis {
  import opened Wrappers
  import opened ProviderOrder
  import opened Settings

  type Audio = int

  // ---- The fallback loop ------------------------------------------------------------------------

  /** What one provider's turn comes to, codec included. */
  datatype Attempt =
    | ProviderError
    | InvalidAudio
    | NormalizationFailed
    | NormalizerSaturated
    | NormalizerUnavailable
    | NormalizerTimeout
    | Normalised(audio: Audio)
  {
    /** The next provider may still answer. */
    predicate Retryable() {
      ProviderError? || InvalidAudio? || NormalizationFailed?
    }
  }

  datatype Failure =
    | InvalidRequest
    | Internal
    | ProviderFailed(provider: Provider)
    | NormalizerDown
    | NormalizerTimedOut
    | ProvidersExhausted

  /** The error a decisive turn, or the only turn, ends with. */
  function ErrorOf(p: Provider, attempt: Attempt): Failure
    requires !attempt.Normalised?
  {
    match attempt
    case ProviderError => ProviderFailed(p)
    case InvalidAudio => ProviderFailed(p)
    case NormalizerTimeout => NormalizerTimedOut
    case _ => NormalizerDown
  }

  /** One request's providers: those configured, and how each turn would go and how long it takes. */
  datatype World = World(configured: set<Provider>, attempt: Provider -> Attempt, seconds: Provider -> nat)

  /** The providers the request may try, in order. */
  function Tried(requested: seq<Provider>, fallback: bool): seq<Provider> {
    var order := Resolved(requested, TTS_CHAIN);
    if fallback || order == [] then order else order[..1]
  }

  /** The position of the first turn that decides, or the end. */
  function Decisive(order: seq<Provider>, w: World): (n: nat)
    ensures n <= |order|
    ensures forall i :: 0 <= i < n ==> order[i] in w.configured && w.attempt(order[i]).Retryable()
    ensures n < |order| ==> order[n] !in w.configured || !w.attempt(order[n]).Retryable()
  {
    if order == [] || order[0] !in w.configured || !w.attempt(order[0]).Retryable() then 0
    else 1 + Decisive(order[1..], w)
  }

  lemma {:induction false} DecisiveIs(order: seq<Provider>, w: World, n: nat)
    requires n <= |order|
    requires forall i :: 0 <= i < n ==> order[i] in w.configured && w.attempt(order[i]).Retryable()
    requires n < |order| ==> order[n] !in w.configured || !w.attempt(order[n]).Retryable()
    ensures Decisive(order, w) == n
  {
  }

  function SumSeconds(calls: seq<Provider>, seconds: Provider -> nat): nat {
    if calls == [] then 0 else SumSeconds(calls[..|calls| - 1], seconds) + seconds(calls[|calls| - 1])
  }

  /** How trying the order ends: with the first decisive turn, or with the last one's failure. */
  function Answer(order: seq<Provider>, fallback: bool, w: World): Result<(Provider, Audio), Failure>
    requires order != []
  {
    var n := Decisive(order, w);
    if n == |order| then
      if fallback then Err(ProvidersExhausted) else Err(ErrorOf(order[0], w.attempt(order[0])))
    else if order[n] !in w.configured then Err(Internal)
    else if w.attempt(order[n]).Normalised? then Ok((order[n], w.attempt(order[n]).audio))
    else Err(ErrorOf(order[n], w.attempt(order[n])))
  }

  /** The providers called: up to and including the decisive one, if it is there to be called. */
  function Called(order: seq<Provider>, w: World): seq<Provider> {
    var n := Decisive(order, w);
    order[..if n < |order| && order[n] in w.configured then n + 1 else n]
  }

  /** A turn after which the next provider is tried, if there is one. */
  predicate PassedOn(attempt: Attempt) {
    attempt == ProviderError || attempt == InvalidAudio || attempt == NormalizationFailed
  }

  /** When turn `n` is the first that is not passed on: it is the last one made, and it alone gives the
      answer. A provider that is not configured is not called. */
  lemma DecidedMeans(order: seq<Provider>, fallback: bool, w: World, n: nat)
    requires n < |order| && forall i :: 0 <= i < n ==> order[i] in w.configured && PassedOn(w.attempt(order[i]))
    requires order[n] !in w.configured || !PassedOn(w.attempt(order[n]))
    ensures var answer, attempt := Answer(order, fallback, w), w.attempt(order[n]);
      && (order[n] !in w.configured ==> answer == Err(Internal) && Called(order, w) == order[..n])
      && (order[n] in w.configured ==>
            && Called(order, w) == order[..n + 1]
            && (attempt.Normalised? ==> answer == Ok((order[n], attempt.audio)))
            && (attempt == NormalizerTimeout ==> answer == Err(NormalizerTimedOut))
            && (attempt == NormalizerSaturated || attempt == NormalizerUnavailable ==> answer == Err(NormalizerDown)))
  {
    DecisiveIs(order, w, n);
  }

  /** When every turn is passed on, all are made; with fallback that is its own error, and without it the
      one provider's. */
  lemma ExhaustedMeans(order: seq<Provider>, fallback: bool, w: World)
    requires order != [] && forall p :: p in order ==> p in w.configured && PassedOn(w.attempt(p))
    ensures Called(order, w) == order
    ensures fallback ==> Answer(order, fallback, w) == Err(ProvidersExhausted)
    ensures !fallback ==>
      Answer(order, fallback, w) ==
      Err(if w.attempt(order[0]) == NormalizationFailed then NormalizerDown else ProviderFailed(order[0]))
  {
    DecisiveIs(order, w, |order|);
  }

  /** The request's own choices are tried first, in its order; without fallback only the first of all. */
  lemma TriedMeans(requested: seq<Provider>, fallback: bool)
    ensures requested == [] ==>
      Tried(requested, fallback) == if fallback then [Gemini, ElevenLabs, OpenAi] else [Gemini]
    ensures requested != [] && !fallback ==> Tried(requested, fallback) == [requested[0]]
    ensures requested != [] && fallback ==> requested <= Tried(requested, fallback)
    ensures Distinct(requested) && Within(requested, TTS_CHAIN) && fallback ==>
      SameProviders(Tried(requested, fallback), [Gemini, ElevenLabs, OpenAi])
  {
    ChainIsDistinct();
    if Distinct(requested) && Within(requested, TTS_CHAIN) {
      ResolvedIsAPermutation(requested, TTS_CHAIN);
    }
    RestOfNothing();
  }

  lemma RestOfNothing()
    ensures Resolved([], TTS_CHAIN) == [Gemini, ElevenLabs, OpenAi]
  {
    var two, one := [ElevenLabs, OpenAi], [OpenAi];
    assert TTS_CHAIN[1..] == two && two[1..] == one && one[1..] == [];
    var seen := [] + [Gemini];
    var more := seen + [ElevenLabs];
    assert Rest(one, more) == [OpenAi] + Rest([], more + [OpenAi]) == one;
    assert Rest(two, seen) == [ElevenLabs] + Rest(one, more) == two;
    assert Rest(TTS_CHAIN, []) == [Gemini] + Rest(two, seen);
  }

  /** `seconds` accumulates in `elapsed`; without fallback the order has one provider. */
  method TryInOrder(order: seq<Provider>, fallback: bool, w: World)
    returns (result: Result<(Provider, Audio), Failure>, calls: seq<Provider>, elapsed: nat)
    requires order != [] && (fallback || |order| == 1)
    ensures result == Answer(order, fallback, w) && calls == Called(order, w)
    ensures elapsed == SumSeconds(calls, w.seconds)
  {
    calls, elapsed := [], 0;
    for i := 0 to |order|
      invariant calls == order[..i] && elapsed == SumSeconds(calls, w.seconds)
      invariant forall k :: 0 <= k < i ==> order[k] in w.configured && w.attempt(order[k]).Retryable()
      invariant !fallback ==> i == 0
    {
      var p := order[i];
      DecisiveNow(order, w, i);
      if p !in w.configured {
        return Err(Internal), calls, elapsed;
      }
      assert (calls + [p])[..|calls|] == calls;
      calls, elapsed := calls + [p], elapsed + w.seconds(p);
      assert calls == order[..i + 1];
      match w.attempt(p)
      case Normalised(audio) =>
        return Ok((p, audio)), calls, elapsed;
      case ProviderError =>
        if !fallback {
          return Err(ProviderFailed(p)), calls, elapsed;
        }
      case InvalidAudio =>
        if !fallback {
          return Err(ProviderFailed(p)), calls, elapsed;
        }
      case NormalizationFailed =>
        if !fallback {
          return Err(NormalizerDown), calls, elapsed;
        }
      case NormalizerTimeout =>
        return Err(NormalizerTimedOut), calls, elapsed;
      case _ =>
        return Err(NormalizerDown), calls, elapsed;
    }
    DecisiveIs(order, w, |order|);
    return Err(ProvidersExhausted), calls, elapsed;
  }

  lemma DecisiveNow(order: seq<Provider>, w: World, i: nat)
    requires i < |order| && forall k :: 0 <= k < i ==> order[k] in w.configured && w.attempt(order[k]).Retryable()
    ensures order[i] !in w.configured || !w.attempt(order[i]).Retryable() ==> Decisive(order, w) == i
    ensures i == |order| - 1 && order[i] in w.configured && w.attempt(order[i]).Retryable() ==>
      Decisive(order, w) == |order|
  {
    if order[i] !in w.configured || !w.attempt(order[i]).Retryable() {
      DecisiveIs(order, w, i);
    } else if i == |order| - 1 {
      DecisiveIs(order, w, |order|);
    }
  }

  /** `calls` are the providers called, in order; `elapsed` is the time their turns took. */
  method ExecuteTts(requested: seq<Provider>, fallback: bool, w: World)
    returns (result: Result<(Provider, Audio), Failure>, calls: seq<Provider>, elapsed: nat)
    ensures !(Distinct(requested) && Within(requested, TTS_CHAIN)) ==>
      result == Err(Failure.InvalidRequest) && calls == []
    ensures Distinct(requested) && Within(requested, TTS_CHAIN) ==>
      var order := Tried(requested, fallback);
      order != [] && result == Answer(order, fallback, w) && calls == Called(order, w)
    ensures Distinct(calls) && calls <= Tried(requested, fallback)
    ensures elapsed == SumSeconds(calls, w.seconds)
  {
    var resolved := ResolveOrder(requested, TTS_CHAIN);
    if resolved.None? {
      return Err(Failure.InvalidRequest), [], 0;
    }
    ChainIsDistinct();
    ResolvedIsAPermutation(requested, TTS_CHAIN);
    var order := resolved.value;
    if !fallback {
      order := order[..1];
    }
    result, calls, elapsed := TryInOrder(order, fallback, w);
  }

  lemma ChainIsDistinct()
    ensures Distinct(TTS_CHAIN) && Distinct(STT_CHAIN)
  {
  }

  /** The loop answers with the first provider in resolved order that yields a normalised recording,
      provided nothing before it was final. */
  lemma FirstNormalisedWins(order: seq<Provider>, w: World, n: nat)
    requires n < |order| && (forall p :: p in order ==> p in w.configured)
    requires w.attempt(order[n]).Normalised? && forall i :: 0 <= i < n ==> !w.attempt(order[i]).Normalised?
    ensures Decisive(order, w) <= n
    ensures Decisive(order, w) == n <==> forall i :: 0 <= i < n ==> w.attempt(order[i]).Retryable()
  {
    assert !w.attempt(order[n]).Retryable();
    if forall i :: 0 <= i < n ==> w.attempt(order[i]).Retryable() {
      DecisiveIs(order, w, n);
    }
  }

  // ---- Time -------------------------------------------------------------------------------------

  function ProviderTimeout(t: Timeouts, p: Provider): nat {
    match p
    case Gemini => t.geminiTts
    case ElevenLabs => t.elevenLabs
    case OpenAi => t.openAiTts
    case Deepgram => t.deepgram
  }

  /** Every call is cut off at its configured timeout, and so is the codec. */
  ghost predicate WithinTimeouts(w: World, t: Timeouts) {
    forall p :: w.seconds(p) <= ProviderTimeout(t, p) + t.audio
  }

  function LoopBudget(t: Timeouts): nat {
    t.geminiTts + t.elevenLabs + t.openAiTts + 3 * t.audio
  }

  lemma {:induction false} SumOfPart(calls: seq<Provider>, w: World, t: Timeouts)
    requires Distinct(calls) && Within(calls, TTS_CHAIN) && WithinTimeouts(w, t)
    ensures SumSeconds(calls, w.seconds)
            <= (if Gemini in calls then t.geminiTts + t.audio else 0)
             + (if ElevenLabs in calls then t.elevenLabs + t.audio else 0)
             + (if OpenAi in calls then t.openAiTts + t.audio else 0)
  {
    if calls != [] {
      var before, last := calls[..|calls| - 1], calls[|calls| - 1];
      assert forall p :: p in calls <==> p in before || p == last;
      assert last !in before && last in TTS_CHAIN;
      SumOfPart(before, w, t);
    }
  }

  /** The loop of a request, whatever its order and its providers' answers, fits its part of the budget. */
  lemma CalledFitsTheLoop(t: Timeouts, requested: seq<Provider>, fallback: bool, w: World)
    requires WithinTimeouts(w, t) && Distinct(requested) && Within(requested, TTS_CHAIN)
    ensures SumSeconds(Called(Tried(requested, fallback), w), w.seconds) <= LoopBudget(t)
  {
    CalledIsPart(requested, fallback, w);
    SumOfPart(Called(Tried(requested, fallback), w), w, t);
  }

  lemma CalledIsPart(requested: seq<Provider>, fallback: bool, w: World)
    requires Distinct(requested) && Within(requested, TTS_CHAIN)
    ensures Distinct(Called(Tried(requested, fallback), w)) && Within(Called(Tried(requested, fallback), w), TTS_CHAIN)
  {
    ChainIsDistinct();
    ResolvedIsAPermutation(requested, TTS_CHAIN);
    var calls, order := Called(Tried(requested, fallback), w), Resolved(requested, TTS_CHAIN);
    assert calls == order[..|calls|];
    assert forall p :: p in order[..|calls|] ==> p in order;
  }

  /** In an accepted configuration the loop and the calls the budget names (three to Silicon Accounts, one
      to Briefcase, two statements) leave the headroom. What else a request waits for is not in it. */
  lemma CountedCallsFitTheDeadline(s: Settings, requested: seq<Provider>, fallback: bool, w: World)
    requires Accepted(s) && WithinTimeouts(w, s.timeouts)
    requires Distinct(requested) && Within(requested, TTS_CHAIN)
    ensures SumSeconds(Called(Tried(requested, fallback), w), w.seconds)
            + 3 * s.timeouts.accounts + s.timeouts.briefcase + 2 * s.timeouts.statement
            <= s.server.ttsDeadline - ORCHESTRATION_HEADROOM
  {
    CalledFitsTheLoop(s.timeouts, requested, fallback, w);
  }

  // ---- Storing the audio ------------------------------------------------------------------------

  type Proof = int
  type Url = int

  datatype AuthorityError = NotAuthorized | Refused | AuthorityUnavailable | AuthorityTimeout

  datatype BriefcaseError = Unauthorized | Forbidden | ContractUnavailable | BriefcaseTimeout | OtherBriefcaseError

  datatype HeldReason = DelegatedCall | StorageNotAuthorized | BriefcaseRefused | BriefcaseContractUnavailable
                      | BriefcaseTimedOut | BriefcaseUnavailable

  datatype Stored = InBriefcase(url: Url) | Held(reason: HeldReason)

  datatype Event = AskProof | Upload(proof: Proof) | Renew(refused: Proof) | Hold(reason: HeldReason)

  /** How the services answer: the first and the second upload may be answered differently. */
  datatype Services = Services(
    proof: Result<Proof, AuthorityError>,
    upload: Result<Url, BriefcaseError>,
    renewal: Result<Proof, AuthorityError>,
    secondUpload: Result<Url, BriefcaseError>,
    holds: bool)

  datatype Renewal = ByAuthority(authority: AuthorityError) | ByBriefcase(briefcase: BriefcaseError)

  /** One Briefcase operation, once more with a renewed proof when the first is refused. */
  method WithRenewal(proof: Proof, s: Services) returns (result: Result<Url, Renewal>, events: seq<Event>)
    ensures s.upload != Err(Unauthorized) ==> events == [Upload(proof)]
    ensures s.upload == Err(Unauthorized) ==>
      events == [Upload(proof), Renew(proof)] + if s.renewal.Ok? then [Upload(s.renewal.value)] else []
    ensures result.Ok? <==> s.upload.Ok? || (s.upload == Err(Unauthorized) && s.renewal.Ok? && s.secondUpload.Ok?)
    ensures result.Ok? ==> result.value == if s.upload.Ok? then s.upload.value else s.secondUpload.value
    ensures result.Err? ==>
      result.error == (if s.upload != Err(Unauthorized) then ByBriefcase(s.upload.error)
                       else if s.renewal.Err? then ByAuthority(s.renewal.error)
                       else ByBriefcase(s.secondUpload.error))
  {
    events := [Upload(proof)];
    match s.upload
    case Ok(url) => return Ok(url), events;
    case Err(Unauthorized) =>
      events := events + [Renew(proof)];
      if s.renewal.Err? {
        return Err(ByAuthority(s.renewal.error)), events;
      }
      events := events + [Upload(s.renewal.value)];
      if s.secondUpload.Err? {
        return Err(ByBriefcase(s.secondUpload.error)), events;
      }
      return Ok(s.secondUpload.value), events;
    case Err(error) => return Err(ByBriefcase(error)), events;
  }

  /** Why audio is held when Briefcase did not take it. */
  function ReasonFor(why: Renewal): HeldReason {
    match why
    case ByAuthority(NotAuthorized) => StorageNotAuthorized
    case ByAuthority(Refused) => StorageNotAuthorized
    case ByAuthority(_) => BriefcaseRefused
    case ByBriefcase(Unauthorized) => BriefcaseRefused
    case ByBriefcase(Forbidden) => BriefcaseRefused
    case ByBriefcase(ContractUnavailable) => BriefcaseContractUnavailable
    case ByBriefcase(BriefcaseTimeout) => BriefcaseTimedOut
    case ByBriefcase(OtherBriefcaseError) => BriefcaseUnavailable
  }

  /** Refused access is held as not authorized; a refusal Briefcase gave itself, or one that could not be
      renewed now, as refused; what Briefcase could not do, as what it could not do. */
  lemma ReasonMeans(why: Renewal)
    ensures ReasonFor(why) == StorageNotAuthorized <==>
      why == ByAuthority(NotAuthorized) || why == ByAuthority(Refused)
    ensures ReasonFor(why) == BriefcaseRefused <==>
      why in {ByAuthority(AuthorityUnavailable), ByAuthority(AuthorityTimeout),
              ByBriefcase(Unauthorized), ByBriefcase(Forbidden)}
    ensures ReasonFor(why) == BriefcaseContractUnavailable <==> why == ByBriefcase(ContractUnavailable)
    ensures ReasonFor(why) == BriefcaseTimedOut <==> why == ByBriefcase(BriefcaseTimeout)
    ensures ReasonFor(why) != DelegatedCall
  {
  }

  ghost function Uploads(events: seq<Event>): nat {
    if events == [] then 0 else Uploads(events[..|events| - 1]) + if events[|events| - 1].Upload? then 1 else 0
  }

  lemma UploadsAppend(events: seq<Event>, e: Event)
    ensures Uploads(events + [e]) == Uploads(events) + if e.Upload? then 1 else 0
  {
    assert (events + [e])[..|events|] == events;
  }

  /** An upload is counted at most twice, and twice only with a renewal between the two. */
  lemma AtMostTwoUploads(first: Proof, renewed: Proof, reason: HeldReason)
    ensures Uploads([AskProof, Upload(first), Renew(first), Upload(renewed), Hold(reason)]) == 2
    ensures Uploads([AskProof, Upload(first), Renew(first), Upload(renewed)]) == 2
    ensures Uploads([AskProof, Upload(first), Renew(first), Hold(reason)]) == 1
    ensures Uploads([AskProof, Upload(first), Hold(reason)]) == 1 && Uploads([AskProof, Upload(first)]) == 1
    ensures Uploads([AskProof, Hold(reason)]) == 0 && Uploads([Hold(reason)]) == 0
  {
    var asked := [] + [AskProof];
    var once := asked + [Upload(first)];
    var again := once + [Renew(first)];
    var twice := again + [Upload(renewed)];
    UploadsAppend([], AskProof);
    UploadsAppend([], Hold(reason));
    UploadsAppend(asked, Upload(first));
    UploadsAppend(asked, Hold(reason));
    UploadsAppend(once, Renew(first));
    UploadsAppend(once, Hold(reason));
    UploadsAppend(again, Upload(renewed));
    UploadsAppend(again, Hold(reason));
    UploadsAppend(twice, Hold(reason));
    assert [] + [Hold(reason)] == [Hold(reason)];
    assert asked + [Hold(reason)] == [AskProof, Hold(reason)];
    assert once == [AskProof, Upload(first)];
    assert once + [Hold(reason)] == [AskProof, Upload(first), Hold(reason)];
    assert again + [Hold(reason)] == [AskProof, Upload(first), Renew(first), Hold(reason)];
    assert twice == [AskProof, Upload(first), Renew(first), Upload(renewed)];
    assert twice + [Hold(reason)] == [AskProof, Upload(first), Renew(first), Upload(renewed), Hold(reason)];
  }

  /** Everything that is asked of other services to store the audio, in order. */
  function StoreTrace(delegated: bool, s: Services): seq<Event> {
    if delegated then [Hold(DelegatedCall)]
    else if s.proof.Err? then [AskProof, Hold(StorageNotAuthorized)]
    else
      [AskProof, Upload(s.proof.value)]
      + (if s.upload != Err(Unauthorized) then []
         else [Renew(s.proof.value)] + if s.renewal.Ok? then [Upload(s.renewal.value)] else [])
      + if Taken(s) then [] else [Hold(ReasonFor(NotTaken(s)))]
  }

  /** Why Briefcase did not take the audio. */
  function NotTaken(s: Services): Renewal
    requires s.proof.Ok? && !Taken(s)
  {
    if s.upload != Err(Unauthorized) then ByBriefcase(s.upload.error)
    else if s.renewal.Err? then ByAuthority(s.renewal.error)
    else ByBriefcase(s.secondUpload.error)
  }

  /** Briefcase took the audio, at the first or the second try. */
  predicate Taken(s: Services) {
    s.proof.Ok? && (s.upload.Ok? || (s.upload == Err(Unauthorized) && s.renewal.Ok? && s.secondUpload.Ok?))
  }

  /** Held audio is held for the last thing that went wrong, and asked of nobody before it is due. */
  lemma HeldMeans(delegated: bool, s: Services)
    ensures var events := StoreTrace(delegated, s);
      && (!delegated && s.proof.Err? ==> events == [AskProof, Hold(StorageNotAuthorized)])
      && (!delegated && s.proof.Ok? && s.upload.Err? && s.upload.error != Unauthorized ==>
            events == [AskProof, Upload(s.proof.value), Hold(ReasonFor(ByBriefcase(s.upload.error)))])
      && (!delegated && s.proof.Ok? && s.upload == Err(Unauthorized) && s.renewal.Err? ==>
            events == [AskProof, Upload(s.proof.value), Renew(s.proof.value),
                       Hold(ReasonFor(ByAuthority(s.renewal.error)))])
      && (!delegated && s.proof.Ok? && s.upload == Err(Unauthorized) && s.renewal.Ok? && s.secondUpload.Err? ==>
            events == [AskProof, Upload(s.proof.value), Renew(s.proof.value), Upload(s.renewal.value),
                       Hold(ReasonFor(ByBriefcase(s.secondUpload.error)))])
  {
  }

  /** Once there is audio, the request fails only when Waveform's own store cannot hold it. */
  method StoreAudio(delegated: bool, s: Services) returns (result: Option<Stored>, events: seq<Event>)
    ensures events == StoreTrace(delegated, s)
    ensures result.None? <==> (delegated || !Taken(s)) && !s.holds
    ensures result.Some? ==> (result.value.InBriefcase? <==> !delegated && Taken(s))
    // What Briefcase took is not held as well, and what it did not take is, last of all.
    ensures events != [] && (events[|events| - 1].Hold? <==> delegated || !Taken(s))
    ensures result.Some? && result.value.Held? ==> events[|events| - 1] == Hold(result.value.reason)
    ensures result.Some? && result.value.InBriefcase? ==>
      (if s.upload.Ok? then s.upload else s.secondUpload) == Ok(result.value.url)
    // A delegated call never asks for a proof and never writes to Briefcase.
    ensures delegated ==> events == [Hold(DelegatedCall)]
    // At most two uploads; the second only after a refusal, with the renewed proof.
    ensures Uploads(events) <= 2
    ensures Uploads(events) == 2 ==>
      && s.proof.Ok? && s.upload == Err(Unauthorized) && s.renewal.Ok? && |events| >= 4
      && events[..4] == [AskProof, Upload(s.proof.value), Renew(s.proof.value), Upload(s.renewal.value)]
  {
    if delegated {
      AtMostTwoUploads(0, 0, DelegatedCall);
      return HoldAudio(DelegatedCall, s), [Hold(DelegatedCall)];
    }
    if s.proof.Err? {
      AtMostTwoUploads(0, 0, StorageNotAuthorized);
      return HoldAudio(StorageNotAuthorized, s), [AskProof, Hold(StorageNotAuthorized)];
    }
    var uploaded, tried := WithRenewal(s.proof.value, s);
    events := [AskProof] + tried;
    ghost var renewed := if s.renewal.Ok? then s.renewal.value else 0;
    ghost var p := s.proof.value;
    assert events == if s.upload != Err(Unauthorized) then [AskProof, Upload(p)]
                     else if s.renewal.Err? then [AskProof, Upload(p), Renew(p)]
                     else [AskProof, Upload(p), Renew(p), Upload(renewed)];
    if uploaded.Ok? {
      AtMostTwoUploads(s.proof.value, renewed, BriefcaseRefused);
      return Some(InBriefcase(uploaded.value)), events;
    }
    var reason := ReasonFor(uploaded.error);
    AtMostTwoUploads(s.proof.value, renewed, reason);
    events := events + [Hold(reason)];
    assert events == if s.upload != Err(Unauthorized) then [AskProof, Upload(p), Hold(reason)]
                     else if s.renewal.Err? then [AskProof, Upload(p), Renew(p), Hold(reason)]
                     else [AskProof, Upload(p), Renew(p), Upload(renewed), Hold(reason)];
    return HoldAudio(reason, s), events;
  }

  function HoldAudio(reason: HeldReason, s: Services): Option<Stored> {
    if s.holds then Some(Held(reason)) else None
  }
}
