/**
The calls of a request one by one, when none of them fails: what each answer it may get makes it wait for,
and which of its parts then let it go on.
*/
module RequestMeaning {
  import opened Wrappers
  import opened ProviderOrder
  import opened Settings
  import opened Synthesis
  import opened RequestCalls

  /** No call of the request fails. */
  ghost predicate Smooth(r: Request) {
    forall n: nat :: !r.fails(n)
  }

  lemma {:induction false} BehindMeans(n: nat)
    ensures |Behind(n)| == n && forall k :: 0 <= k < n ==> Behind(n)[k] == OthersKeyFetch
  {
    if n > 0 {
      BehindMeans(n - 1);
    }
  }

  lemma QueryMeans(r: Request, log: seq<Call>)
    requires Smooth(r)
    ensures Query(r, log) == Run(log + [Connection, Statement], true)
  {
  }

  lemma TwoStatements(r: Request, log: seq<Call>)
    requires Smooth(r)
    ensures Statements(r, log, 2) == Run(log + [Statement, Statement], true)
  {
    assert Statements(r, log, 0) == Run(log, true);
    assert Statements(r, log, 1) == Run(log + [Statement], true);
    assert log + [Statement] + [Statement] == log + [Statement, Statement];
  }

  /** The keys are fetched when they are too old, and again when they lack the token's unless that was asked
      for a moment ago; the fetches of others are waited for either way. */
  lemma VerifyTokenMeans(r: Request)
    requires Smooth(r)
    ensures var first := Behind(r.keys.behind) + if r.keys.stale then [AccountsCall] else [];
      var again := Behind(r.keys.behindAgain) + if r.keys.asked then [] else [AccountsCall];
      VerifyToken(r) == Run(if r.keys.lacking then first + again else first, true)
  {
  }

  /** Only a Silicon seen the first time waits for its custodian, and one whose custodian is gone is looked at
      once more and refused. */
  lemma FirstLookupMeans(r: Request, log: seq<Call>)
    requires Smooth(r)
    ensures r.account.custodian == Known ==> FirstLookup(r, log) == Run(log, true)
    ensures r.account.custodian == Gone ==>
      FirstLookup(r, log) == Run(log + [CustodianLookup, Connection, Statement], false)
    ensures r.account.custodian in {Named, NotNamed} ==> FirstLookup(r, log) == Run(log + [CustodianLookup], true)
  {
    assert log + [CustodianLookup] + [Connection, Statement] == log + [CustodianLookup, Connection, Statement];
  }

  /** What replacing a proof asks: whether it may be, and then a new one to be saved. */
  function Replacing(r: Request, proofs: Proofs): seq<Call> {
    if r.direct && !proofs.explicit then [Statement, AccountsCall, Statement] else [Statement]
  }

  lemma ReplaceMeans(r: Request, log: seq<Call>, proofs: Proofs)
    requires Smooth(r)
    ensures Replace(r, log, proofs) == Run(log + Replacing(r, proofs), r.direct && !proofs.explicit)
  {
  }

  lemma InvalidatedMeans(r: Request, log: seq<Call>, proofs: Proofs)
    requires Smooth(r)
    ensures Invalidated(r, log, proofs) == Run(log + [Statement] + Replacing(r, proofs), r.direct && !proofs.explicit)
  {
    ReplaceMeans(r, log + [Statement], proofs);
  }

  /** A stored proof is locked and read; one that works is used, one that can be refreshed is, and one that is
      over is marked and replaced, if the request may do that. What was learnt is committed. */
  lemma BriefcaseProofMeans(r: Request, log: seq<Call>, proofs: Proofs)
    requires Smooth(r)
    ensures var read := log + [Connection, Statement] + [Statement, Statement];
      var done := BriefcaseProof(r, log, proofs);
      match proofs.standing
      case Usable => done == Run(read + [Statement], true)
      case Missing => done == Run(read + Replacing(r, proofs) + [Statement], r.direct && !proofs.explicit)
      case Ended => done == Run(read + [Statement] + Replacing(r, proofs) + [Statement], r.direct && !proofs.explicit)
      case Refreshable(Rotated) => done == Run(read + [AccountsCall] + [Statement] + [Statement], true)
      case Refreshable(_) =>
        done == Run(read + [AccountsCall] + [Statement] + Replacing(r, proofs) + [Statement],
                    r.direct && !proofs.explicit)
  {
    QueryMeans(r, log);
    TwoStatements(r, log + [Connection, Statement]);
    var read := log + [Connection, Statement] + [Statement, Statement];
    ReplaceMeans(r, read, proofs);
    InvalidatedMeans(r, read, proofs);
    InvalidatedMeans(r, read + [AccountsCall], proofs);
  }

  /** A replay reads its audio under the stored proof, and once more under a renewed one if that is refused. */
  lemma ReplayReadMeans(r: Request, log: seq<Call>)
    ensures var proof := BriefcaseProof(r, log, r.proofs);
      var once := proof.log + [Downloading];
      var renewed := RenewRefusedProof(r, once, r.renewal);
      && (!proof.ok ==> ReplayRead(r, log) == proof)
      && (proof.ok && r.first.Ok? ==> ReplayRead(r, log) == Run(once, true))
      && (proof.ok && r.first.Err? && r.first != Err(Unauthorized) ==> ReplayRead(r, log) == Run(once, false))
      && (proof.ok && r.first == Err(Unauthorized) && !renewed.ok ==> ReplayRead(r, log) == renewed)
      && (proof.ok && r.first == Err(Unauthorized) && renewed.ok && r.second.Ok? ==>
            ReplayRead(r, log) == Run(renewed.log + [Downloading], true))
      && (proof.ok && r.first == Err(Unauthorized) && renewed.ok && r.second.Err? ==>
            ReplayRead(r, log) == Run(renewed.log + [Downloading], false))
  {
  }

  /** There is audio exactly when some turn in order gives it and every turn before was passed on. */
  lemma SpeaksMeans(r: Request, n: nat)
    requires var order := Tried(r.requested, r.fallback);
      && n < |order|
      && (forall i :: 0 <= i < n ==> order[i] in r.turns.configured && PassedOn(r.turns.attempt(order[i])))
      && (order[n] !in r.turns.configured || !PassedOn(r.turns.attempt(order[n])))
    ensures var p := Tried(r.requested, r.fallback)[n];
      Speaks(r) <==> p in r.turns.configured && r.turns.attempt(p).Normalised?
  {
    DecidedMeans(Tried(r.requested, r.fallback), r.fallback, r.turns, n);
  }

  lemma NobodySpeaks(r: Request)
    requires var order := Tried(r.requested, r.fallback);
      order != [] && forall p :: p in order ==> p in r.turns.configured && PassedOn(r.turns.attempt(p))
    ensures !Speaks(r)
  {
    ExhaustedMeans(Tried(r.requested, r.fallback), r.fallback, r.turns);
  }

  /** What the claim comes to decides what a request to synthesize waits for, */
  lemma SynthesizeMeans(r: Request)
    requires Authorize(r).ok && Prepare(r, Authorize(r).log).ok
    ensures var log := Prepare(r, Authorize(r).log).log;
      && (r.claimed == Acquired ==> Synthesize(r) == SynthesizeFresh(r, log))
      && (r.claimed == ReplayOfBriefcase ==> Synthesize(r) == ReplayRead(r, log))
      && (r.claimed == ReplayOfHeld ==> Synthesize(r) == Query(r, log))
      && (r.claimed == Elsewhere ==> Synthesize(r) == Run(log, false))
  {
  }

  /** ... and one to transcribe: a stored transcript is given if the account may still read its recording. */
  lemma TranscribeMeans(r: Request)
    requires Authorize(r).ok && Prepare(r, Authorize(r).log).ok
    ensures var log := Prepare(r, Authorize(r).log).log;
      var proof := BriefcaseProof(r, log, r.proofs);
      && (r.claimed == Acquired ==> Transcribe(r) == TranscribeFresh(r, log))
      && (r.claimed == Elsewhere ==> Transcribe(r) == Run(log, false))
      && (r.claimed in {ReplayOfBriefcase, ReplayOfHeld} ==>
            && (!proof.ok ==> Transcribe(r) == proof)
            && (proof.ok && r.first.Ok? ==> Transcribe(r) == Run(proof.log + [Downloading], true))
            && (proof.ok && r.first.Err? ==> Transcribe(r) == Run(proof.log + [Downloading], false)))
  {
  }
}
