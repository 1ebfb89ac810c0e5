/**
Everything a speech request waits for, in order: what its authentication, its settings, its lease, its
providers and its storage ask of the database, Silicon Accounts, Briefcase and the codec. A request is
told by the answers it gets; any call may also fail, or answer what ends the step it is part of.
*/
module RequestCalls {
  import opened Wrappers
  import opened ProviderOrder
  import opened Settings
  import opened Synthesis

  /** One thing to wait for. A store operation is cut off as a whole, whatever statements it makes. */
  datatype Call =
    | OthersKeyFetch
    | AccountsCall
    | CustodianLookup
    | Connection
    | Statement
    | StoreOperation
    | Speaking(provider: Provider)
    | Hearing(provider: Provider)
    | Codec
    | Uploading
    | Downloading

  /** The calls made, and whether the last step can be followed by the next. */
  datatype Run = Run(log: seq<Call>, ok: bool)

  // ---- What a request finds ---------------------------------------------------------------------

  /** The cached signing keys: how many other requests' fetches are waited for, whether they are too old,
      whether the token names a key they lack, and whether that was asked for a moment ago. */
  datatype Keys = Keys(behind: nat, stale: bool, lacking: bool, behindAgain: nat, asked: bool)

  datatype Custodian = Known | Named | Gone | NotNamed

  /** The cached account: there with an id, deleted before it was first seen, or seen under another id;
      and, for a Silicon seen the first time, what the brief wait for its custodian comes to. */
  datatype Account = Account(known: bool, purged: bool, newId: bool, adopted: bool, custodian: Custodian)

  datatype Refresh = Rotated | RevokedOnPurpose | Spent

  datatype Standing = Missing | Usable | Refreshable(answer: Refresh) | Ended

  /** The stored proof, and whether somebody ended the last one on purpose. */
  datatype Proofs = Proofs(standing: Standing, explicit: bool)

  datatype Claimed = Acquired | ReplayOfBriefcase | ReplayOfHeld | Elsewhere

  datatype Request = Request(
    direct: bool, keys: Keys, account: Account, claimed: Claimed,
    requested: seq<Provider>, fallback: bool,
    // Text to speech: the providers' turns, and whether Gemini's audio is an MP3 already.
    turns: Synthesis.World, mp3: bool,
    // Speech to text: the providers there are, and those that would answer with a transcript.
    configured: set<Provider>, hears: set<Provider>,
    // Briefcase, before and after a refused proof.
    proofs: Proofs, first: Result<Url, BriefcaseError>, proofError: AuthorityError,
    renewal: Proofs, second: Result<Url, BriefcaseError>, renewalError: AuthorityError,
    completes: bool,
    // Whether the call at each position fails or ends its step.
    fails: nat -> bool)

  function Await(r: Request, log: seq<Call>, call: Call): Run {
    Run(log + [call], !r.fails(|log|))
  }

  function Statements(r: Request, log: seq<Call>, n: nat): Run {
    if n == 0 then Run(log, true)
    else
      var before := Statements(r, log, n - 1);
      if before.ok then Await(r, before.log, Statement) else before
  }

  /** One statement on a connection of its own; beginning a transaction is one too. */
  function Query(r: Request, log: seq<Call>): Run {
    var connected := Await(r, log, Connection);
    if connected.ok then Await(r, connected.log, Statement) else connected
  }

  // ---- Authentication ---------------------------------------------------------------------------

  function Behind(n: nat): seq<Call> {
    if n == 0 then [] else Behind(n - 1) + [OthersKeyFetch]
  }

  function KeySet(r: Request, log: seq<Call>, behind: nat, fetches: bool): Run {
    if fetches then Await(r, log + Behind(behind), AccountsCall) else Run(log + Behind(behind), true)
  }

  function VerifyToken(r: Request): Run {
    var keys := KeySet(r, [], r.keys.behind, r.keys.stale);
    if keys.ok && r.keys.lacking then KeySet(r, keys.log, r.keys.behindAgain, !r.keys.asked) else keys
  }

  /** The transaction that first creates an account's rows, with what was recorded for it before. */
  function Ensure(r: Request, log: seq<Call>): Run {
    var begun := Query(r, log);
    if !begun.ok then begun
    else
      var done := Statements(r, begun.log, 4 + (if r.account.purged then 14 else 2) + 1);
      if !done.ok then done
      else
        var loaded := Query(r, done.log);
        Run(loaded.log, loaded.ok && !r.account.purged)
  }

  function AdoptId(r: Request, log: seq<Call>): Run {
    var begun := Query(r, log);
    if !begun.ok then begun
    else
      var done := Statements(r, begun.log, if r.account.adopted then 3 else 2);
      if done.ok && r.account.adopted then Query(r, done.log) else done
  }

  function FirstLookup(r: Request, log: seq<Call>): Run {
    match r.account.custodian
    case Known => Run(log, true)
    case Gone =>
      var loaded := Query(r, log + [CustodianLookup]);
      Run(loaded.log, false)
    case _ => Run(log + [CustodianLookup], true)
  }

  function Sighting(r: Request, log: seq<Call>): Run {
    var loaded := Query(r, log);
    if !loaded.ok then loaded
    else
      var there := if r.account.known then loaded else Ensure(r, loaded.log);
      if !there.ok then there
      else
        var current := if r.account.newId then AdoptId(r, there.log) else there;
        if current.ok then FirstLookup(r, current.log) else current
  }

  /** A bearer token is verified here, a proof by Silicon Accounts; then the account is looked at. */
  function Authorize(r: Request): Run {
    var verified := if r.direct then VerifyToken(r) else Await(r, [], AccountsCall);
    if !verified.ok then verified
    else
      var current := Query(r, verified.log);
      if current.ok then Sighting(r, current.log) else current
  }

  // ---- The stored proof -------------------------------------------------------------------------

  /** A new proof, unless the request is delegated or somebody ended the last one on purpose. */
  function Replace(r: Request, log: seq<Call>, proofs: Proofs): Run {
    var latest := Await(r, log, Statement);
    if !latest.ok || !r.direct || proofs.explicit then Run(latest.log, false)
    else
      var issued := Await(r, latest.log, AccountsCall);
      if issued.ok then Await(r, issued.log, Statement) else issued
  }

  /** The ended proof is marked, then replaced. */
  function Invalidated(r: Request, log: seq<Call>, proofs: Proofs): Run {
    var marked := Await(r, log, Statement);
    if marked.ok then Replace(r, marked.log, proofs) else marked
  }

  function Committed(r: Request, run: Run): Run {
    var committed := Await(r, run.log, Statement);
    Run(committed.log, run.ok && committed.ok)
  }

  function BriefcaseProof(r: Request, log: seq<Call>, proofs: Proofs): Run {
    var begun := Query(r, log);
    if !begun.ok then begun
    else
      // The account's lock, then its row.
      var read := Statements(r, begun.log, 2);
      if !read.ok then read
      else
        match proofs.standing
        case Missing => Committed(r, Replace(r, read.log, proofs))
        case Usable => Committed(r, read)
        case Ended => StoredOrNot(r, Invalidated(r, read.log, proofs), |read.log|)
        case Refreshable(answer) =>
          var refreshed := Await(r, read.log, AccountsCall);
          if !refreshed.ok then refreshed
          else if answer.Rotated? then
            var saved := Await(r, refreshed.log, Statement);
            if saved.ok then Committed(r, saved) else saved
          else StoredOrNot(r, Invalidated(r, refreshed.log, proofs), |refreshed.log|)
  }

  /** The transaction is committed unless the mark itself could not be made. */
  function StoredOrNot(r: Request, run: Run, marked: nat): Run {
    if r.fails(marked) then run else Committed(r, run)
  }

  function Renewed(r: Request, log: seq<Call>, proofs: Proofs): Run {
    var read := Await(r, log, Statement);
    if !read.ok then read
    else
      match proofs.standing
      case Missing => Replace(r, read.log, proofs)
      case Usable => read
      case Ended => Invalidated(r, read.log, proofs)
      case Refreshable(answer) =>
        var refreshed := Await(r, read.log, AccountsCall);
        if !refreshed.ok then refreshed
        else
          match answer
          case Rotated => Await(r, refreshed.log, Statement)
          case RevokedOnPurpose => Run(Await(r, refreshed.log, Statement).log, false)
          case Spent => Invalidated(r, refreshed.log, proofs)
  }

  /** Whatever comes of renewing a refused proof, what was learnt is committed. */
  function RenewRefusedProof(r: Request, log: seq<Call>, proofs: Proofs): Run {
    var begun := Query(r, log);
    if !begun.ok then begun
    else
      var locked := Await(r, begun.log, Statement);
      if locked.ok then Committed(r, Renewed(r, locked.log, proofs)) else locked
  }

  // ---- Storing the audio ------------------------------------------------------------------------

  /** The calls made to store the audio, whether it is stored, and the events they make up. */
  datatype Kept = Kept(log: seq<Call>, ok: bool, events: seq<Event>)

  function Holding(r: Request, log: seq<Call>, events: seq<Event>, reason: HeldReason): Kept {
    var held := Query(r, log);
    Kept(held.log, held.ok, events + [Hold(reason)])
  }

  function Storing(r: Request, log: seq<Call>): Kept {
    if !r.direct then Holding(r, log, [], DelegatedCall)
    else
      var proof := BriefcaseProof(r, log, r.proofs);
      if !proof.ok then Holding(r, proof.log, [AskProof], StorageNotAuthorized)
      else
        var once := proof.log + [Uploading];
        match r.first
        case Ok(_) => Kept(once, true, [AskProof, Upload(1)])
        case Err(Unauthorized) => StoringAgain(r, once)
        case Err(error) => Holding(r, once, [AskProof, Upload(1)], ReasonFor(ByBriefcase(error)))
  }

  function StoringAgain(r: Request, log: seq<Call>): Kept {
    var renewed := RenewRefusedProof(r, log, r.renewal);
    if !renewed.ok then
      Holding(r, renewed.log, [AskProof, Upload(1), Renew(1)], ReasonFor(ByAuthority(r.renewalError)))
    else
      var twice := renewed.log + [Uploading];
      match r.second
      case Ok(_) => Kept(twice, true, [AskProof, Upload(1), Renew(1), Upload(2)])
      case Err(error) =>
        Holding(r, twice, [AskProof, Upload(1), Renew(1), Upload(2)], ReasonFor(ByBriefcase(error)))
  }

  /** How the services answered, as storing the audio sees them. */
  function Seen(r: Request, log: seq<Call>): Services {
    var proof := BriefcaseProof(r, log, r.proofs);
    Services(
      if proof.ok then Ok(1) else Err(r.proofError), r.first,
      if RenewRefusedProof(r, proof.log + [Uploading], r.renewal).ok then Ok(2) else Err(r.renewalError), r.second,
      Storing(r, log).ok)
  }

  /** The calls are those of `StoreAudio`: its events, in its order. */
  lemma StoringIsStoreAudio(r: Request, log: seq<Call>)
    ensures Storing(r, log).events == StoreTrace(!r.direct, Seen(r, log))
  {
  }

  // ---- Text to speech ---------------------------------------------------------------------------

  /** A turn is one exchange with the provider; only Gemini's audio may have to be encoded. */
  function TurnCalls(r: Request, p: Provider): seq<Call> {
    [Speaking(p)] + if p.Gemini? && !r.mp3 && !r.turns.attempt(p).ProviderError? then [Codec] else []
  }

  function TurnsOf(r: Request, calls: seq<Provider>): seq<Call> {
    if calls == [] then [] else TurnsOf(r, calls[..|calls| - 1]) + TurnCalls(r, calls[|calls| - 1])
  }

  predicate Speaks(r: Request) {
    var order := Tried(r.requested, r.fallback);
    order != [] && Answer(order, r.fallback, r.turns).Ok?
  }

  /** The saved order, the account's provider keys, and the claim. */
  function Prepare(r: Request, log: seq<Call>): Run {
    var ordered := Query(r, log);
    if !ordered.ok then ordered
    else
      var keyed := Query(r, ordered.log);
      if keyed.ok then Await(r, keyed.log, StoreOperation) else keyed
  }

  /** A failure under the lease asks for its release, and the answer waits for that. */
  function Released(log: seq<Call>): Run {
    Run(log + [StoreOperation], false)
  }

  function Complete(r: Request, log: seq<Call>): Run {
    if r.completes then Run(log + [StoreOperation], true) else Released(log + [StoreOperation])
  }

  /** The account's row of preferences, its voice, and the voice's profile. */
  function Voice(r: Request, log: seq<Call>): Run {
    var ensured := Query(r, log);
    if !ensured.ok then ensured
    else
      var chosen := Query(r, ensured.log);
      if chosen.ok then Query(r, chosen.log) else chosen
  }

  function SynthesizeFresh(r: Request, log: seq<Call>): Run {
    var voiced := Voice(r, log);
    if !voiced.ok then Released(voiced.log)
    else
      var started := Await(r, voiced.log, StoreOperation);
      // Here the release is left to the background.
      if !started.ok then started
      else
        var spoken := started.log + TurnsOf(r, Called(Tried(r.requested, r.fallback), r.turns));
        if !Speaks(r) then Released(spoken)
        else
          var kept := Storing(r, spoken);
          if kept.ok then Complete(r, kept.log) else Released(kept.log)
  }

  /** A replay checks that the account may still read its audio. */
  function ReplayRead(r: Request, log: seq<Call>): Run {
    var proof := BriefcaseProof(r, log, r.proofs);
    if !proof.ok then proof
    else
      var once := proof.log + [Downloading];
      if r.first != Err(Unauthorized) then Run(once, r.first.Ok?)
      else
        var renewed := RenewRefusedProof(r, once, r.renewal);
        if renewed.ok then Run(renewed.log + [Downloading], r.second.Ok?) else renewed
  }

  function Synthesize(r: Request): Run {
    var authorized := Authorize(r);
    if !authorized.ok then authorized
    else
      var prepared := Prepare(r, authorized.log);
      if !prepared.ok then prepared
      else
        match r.claimed
        case Acquired => SynthesizeFresh(r, prepared.log)
        case ReplayOfBriefcase => ReplayRead(r, prepared.log)
        case ReplayOfHeld => Query(r, prepared.log)
        case Elsewhere => Run(prepared.log, false)
  }

  // ---- Speech to text ---------------------------------------------------------------------------

  /** The providers asked: up to the first that is missing or hears. */
  function Asked(order: seq<Provider>, r: Request): seq<Provider> {
    if order == [] || order[0] !in r.configured then []
    else [order[0]] + if order[0] in r.hears then [] else Asked(order[1..], r)
  }

  function HearingsOf(calls: seq<Provider>): seq<Call> {
    if calls == [] then [] else HearingsOf(calls[..|calls| - 1]) + [Hearing(calls[|calls| - 1])]
  }

  predicate Heard(order: seq<Provider>, r: Request) {
    var asked := Asked(order, r);
    asked != [] && asked[|asked| - 1] in r.hears
  }

  /** The recording is read as a replay's audio is checked; then its length is measured. */
  function TranscribeFresh(r: Request, log: seq<Call>): Run {
    var started := Await(r, log, StoreOperation);
    if !started.ok then started
    else
      var read := ReplayRead(r, started.log);
      if !read.ok then Released(read.log)
      else
        var measured := Await(r, read.log, Codec);
        if !measured.ok then Released(measured.log)
        else
          var order := Resolved(r.requested, STT_CHAIN);
          var heard := measured.log + HearingsOf(Asked(order, r));
          if Heard(order, r) then Complete(r, heard) else Released(heard)
  }

  /** A replayed transcript is checked once, without renewing a refused proof. */
  function Transcribe(r: Request): Run {
    var authorized := Authorize(r);
    if !authorized.ok then authorized
    else
      var prepared := Prepare(r, authorized.log);
      if !prepared.ok then prepared
      else
        match r.claimed
        case Acquired => TranscribeFresh(r, prepared.log)
        case Elsewhere => Run(prepared.log, false)
        case _ =>
          var proof := BriefcaseProof(r, prepared.log, r.proofs);
          if proof.ok then Run(proof.log + [Downloading], r.first.Ok?) else proof
  }
}
