/**
What each command on the saved sign-in writes, ends and leaves alone, field by field and in whatever
interleaving, stated without the functions that compute it.
*/
module SavedSignInEffects {
  import opened Wrappers
  import opened SavedSignIn
  import opened SavedSignInLaws

  /** Both tokens of the saved session come from one answer of Silicon Accounts. */
  ghost predicate FilePaired(s: System) {
    s.file.Saved? ==> s.file.session.access == s.file.session.refresh
  }

  ghost predicate CarriedPaired(s: System) {
    forall p: nat :: Doing(s.procs, p).NewSignIn().Some? ==>
                       Doing(s.procs, p).NewSignIn().value.access == Doing(s.procs, p).NewSignIn().value.refresh
  }

  ghost predicate Paired(s: System) {
    FilePaired(s) && CarriedPaired(s)
  }

  lemma StepKeepsFilePaired(s: System, step: Step)
    requires Inv(s) && Paired(s)
    ensures FilePaired(Next(s, step))
  {
    if Next(s, step).file != s.file {
      WritersAreInside(s, step);
      assert Doing(s.procs, Actor(step).value).InCritical();
      if !Saves(step) { OthersOnlyRemove(s, step); }
    }
  }

  /** Only `login` brings a session from outside. */
  lemma StepCarries(s: System, step: Step, q: nat)
    requires Next(s, step).At(q).NewSignIn().Some?
    ensures Next(s, step).At(q).NewSignIn() == s.At(q).NewSignIn() || (step.BeginLogin? && step.p == q)
  {
  }

  lemma StepKeepsCarriedPaired(s: System, step: Step)
    requires Paired(s)
    ensures CarriedPaired(Next(s, step))
  {
    var s' := Next(s, step);
    forall p: nat | Doing(s'.procs, p).NewSignIn().Some?
      ensures Doing(s'.procs, p).NewSignIn().value.access == Doing(s'.procs, p).NewSignIn().value.refresh
    {
      StepCarries(s, step, p);
      assert s'.At(p) == Doing(s'.procs, p) && s.At(p) == Doing(s.procs, p);
    }
  }

  lemma {:induction false} RunKeepsPaired(s: System, steps: seq<Step>)
    requires Inv(s) && Paired(s)
    ensures Paired(Run(s, steps)) && Inv(Run(s, steps))
    decreases |steps|
  {
    if steps != [] {
      StepKeepsInv(s, steps[0]);
      StepKeepsFilePaired(s, steps[0]);
      StepKeepsCarriedPaired(s, steps[0]);
      RunKeepsPaired(Next(s, steps[0]), steps[1..]);
    }
  }

  // ---- A refresh ----------------------------------------------------------------------------

  /** A refresh begins if and only if the saved sign-in is not over and either the service refused the
      access token or at most a minute of it is left; nothing else changes. */
  lemma RefreshBeginsIff(s: System, p: nat, refused: Option<Token>, now: int)
    requires s.At(p).Idle?
    ensures var s' := Next(s, BeginRefresh(p, refused, now));
            && (s'.At(p) != Idle <==>
                  && s.file.Saved?
                  && (s.file.session.refreshExpiresAt.None? || now < s.file.session.refreshExpiresAt.value)
                  && (refused.Some?
                      || (s.file.session.expiresAt - now <= 60
                          && s.file.session.expiresAt <= 9_223_372_036_854_775_807)))
            && (s'.At(p) != Idle ==> s'.At(p) == Waiting(Refresh(s.file.session, refused)))
            && s' == s.(procs := s'.procs) && forall q: nat :: q != p ==> s'.At(q) == s.At(q)
  {
  }

  /** Under the lock the token in the file is presented if and only if the same account is still signed
      in and nobody has refreshed since: the refused access token is still there, or time is short. */
  lemma PresentsIff(s: System, p: nat, now: int)
    requires s.At(p).Holding? && s.At(p).task.Refresh?
    ensures var task := s.At(p).task;
            var s' := Next(s, Present(p, now));
            && (|s'.log| > |s.log| <==>
                  && s.file.Saved? && s.file.session.account.uuid == task.current.account.uuid
                  && ((task.refused.Some? && s.file.session.access == task.refused.value)
                      || (s.file.session.expiresAt - now <= 60
                          && s.file.session.expiresAt <= 9_223_372_036_854_775_807)))
            && (if |s'.log| > |s.log| then
                  && s'.log == s.log + [Presentation(s.file.session.refresh, None, Open)]
                  && s'.At(p) == Presenting(s.file.session, |s.log|) && s'.lock == s.lock
                else s'.log == s.log && s'.At(p) == Idle && s'.lock != Some(p))
            && s'.file == s.file && s'.stored == s.stored && s'.ended == s.ended
            && s'.current == s.current && s'.reused == s.reused
            && forall q: nat :: q != p ==> s'.At(q) == s.At(q)
  {
  }

  /** The answer Silicon Accounts gives to a token of its own that was not answered yet. */
  lemma HandledMeans(s: System, k: nat, grant: Grant)
    requires k < |s.log| && s.log[k].answer.None? && s.Issued(s.log[k].token)
    ensures var t := s.log[k].token;
            var s' := Next(s, Handle(k, grant));
            && |s'.log| == |s.log| && s'.log[k].token == t && s'.log[k].fate == s.log[k].fate
            && (forall i :: 0 <= i < |s.log| && i != k ==> s'.log[i] == s.log[i])
            && (s'.log[k].answer == Some(SignInEnded) <==> t.family in s.ended || t.serial < s.current[t.family])
            && (s'.log[k].answer == Some(Refused) <==>
                  t.family !in s.ended && t.serial == s.current[t.family] && grant.Unavailable?)
            && (s'.log[k].answer.Some? && s'.log[k].answer.value.Granted? ==>
                  && s'.log[k].answer.value.tokens
                     == Tokens(Token(t.family, t.serial + 1), grant.expiresAt, grant.refreshExpiresAt, grant.account)
                  && |s'.current| == |s.current| && s'.current[t.family] == t.serial + 1
                  && forall f :: 0 <= f < |s.current| && f != t.family ==> s'.current[f] == s.current[f])
            && s'.log[k].answer.Some?
            && (var again := if t.family !in s.ended && t.serial < s.current[t.family] then {t.family} else {};
                s'.reused == s.reused + again && s'.ended == s.ended + again)
            && s'.file == s.file && s'.lock == s.lock && s'.procs == s.procs && s'.stored == s.stored
  {
  }

  /** Where every field of a refreshed session comes from: both tokens, the expiry and the account are
      the granted ones, and the end of the sign-in is too unless the answer leaves it out. The access
      token is a new one. */
  lemma RefreshSavesTheGrant(steps: seq<Step>, p: nat)
    requires Run(Start, steps).At(p).Saving?
    ensures var s := Run(Start, steps);
            var k := s.At(p).k;
            var s' := Next(s, FinishSave(p, true));
            && k < |s.log| && s.log[k].answer.Some? && s.log[k].answer.value.Granted?
            && s.file.Saved? && s'.file.Saved?
            && (var tokens, before, after := s.log[k].answer.value.tokens, s.file.session, s'.file.session;
                && after.access == after.refresh == tokens.pair
                && after.refresh == Token(before.refresh.family, before.refresh.serial + 1)
                && after.access != before.access
                && after.expiresAt == tokens.expiresAt && after.account == tokens.account
                && (tokens.refreshExpiresAt.Some? ==> after.refreshExpiresAt == tokens.refreshExpiresAt)
                && (tokens.refreshExpiresAt.None? ==> after.refreshExpiresAt == before.refreshExpiresAt))
  {
    RunKeepsPaired(Start, steps);
    var s := Run(Start, steps);
    assert Doing(s.procs, p).InCritical();
    assert s.lock == Some(p) && ReadStillTrue(s, s.At(p));
    SaveOrNot(s, FinishSave(p, true));
    hide Next, Naming, Counting;
  }

  /** The session in the file carries the pair and the expiry of one and the same answer. */
  ghost predicate GrantedTogether(s: System, session: Session) {
    session.refresh.serial > 0 ==>
      exists k :: 0 <= k < |s.log| && s.log[k].answer.Some? && s.log[k].answer.value.Granted?
                  && s.log[k].answer.value.tokens.pair == session.refresh == session.access
                  && s.log[k].answer.value.tokens.expiresAt == session.expiresAt
  }

  ghost predicate FileGranted(s: System) {
    s.file.Saved? ==> GrantedTogether(s, s.file.session)
  }

  lemma AnswersStay(s: System, step: Step, k: nat)
    requires k < |s.log| && s.log[k].answer.Some?
    ensures k < |Next(s, step).log| && Next(s, step).log[k].answer == s.log[k].answer
  {
  }

  lemma StepKeepsGranted(s: System, step: Step, session: Session)
    requires GrantedTogether(s, session)
    ensures GrantedTogether(Next(s, step), session)
  {
    if session.refresh.serial > 0 {
      var k :| 0 <= k < |s.log| && s.log[k].answer.Some? && s.log[k].answer.value.Granted?
               && s.log[k].answer.value.tokens.pair == session.refresh == session.access
               && s.log[k].answer.value.tokens.expiresAt == session.expiresAt;
      AnswersStay(s, step, k);
    }
  }

  /** What a step may write: the granted session, a sign-in's first, or the file's own with new details. */
  lemma WrittenSession(s: System, step: Step)
    requires Inv(s) && Next(s, step).file != s.file && Next(s, step).file.Saved?
    ensures var after := Next(s, step).file.session;
            || after.refresh.serial == 0
            || (s.file.Saved? && OnlyDetailsDiffer(s.file.session, after))
            || GrantedTogether(s, after)
  {
    WritersAreInside(s, step);
    assert Doing(s.procs, Actor(step).value).InCritical();
    if !Saves(step) { OthersOnlyRemove(s, step); }
  }

  lemma StepKeepsFileGranted(s: System, step: Step)
    requires Inv(s) && FileGranted(s)
    ensures FileGranted(Next(s, step))
  {
    var s' := Next(s, step);
    if s'.file.Saved? {
      if s'.file != s.file { WrittenSession(s, step); }
      if s.file.Saved? { StepKeepsGranted(s, step, s.file.session); }
      if GrantedTogether(s, s'.file.session) { StepKeepsGranted(s, step, s'.file.session); }
    }
  }

  lemma {:induction false} RunKeepsFileGranted(s: System, steps: seq<Step>)
    requires Inv(s) && FileGranted(s)
    ensures FileGranted(Run(s, steps))
    decreases |steps|
  {
    if steps != [] {
      StepKeepsInv(s, steps[0]);
      StepKeepsFileGranted(s, steps[0]);
      RunKeepsFileGranted(Next(s, steps[0]), steps[1..]);
    }
  }

  /** In every run, a refreshed session in the file has the tokens and the expiry that Silicon Accounts
      gave in one answer, however often details were updated or other processes wrote since. */
  lemma SavedTogether(steps: seq<Step>)
    requires Run(Start, steps).file.Saved? && Run(Start, steps).file.session.refresh.serial > 0
    ensures var s := Run(Start, steps);
            exists k :: 0 <= k < |s.log| && s.log[k].answer.Some? && s.log[k].answer.value.Granted?
                        && s.log[k].answer.value.tokens.pair == s.file.session.refresh == s.file.session.access
                        && s.log[k].answer.value.tokens.expiresAt == s.file.session.expiresAt
  {
    RunKeepsFileGranted(Start, steps);
    assert GrantedTogether(Run(Start, steps), Run(Start, steps).file.session);
  }

  /** A refresh whose save fails, or whose answer is lost, leaves the file as it is. */
  lemma SaveOrNot(s: System, step: Step)
    requires (step.FinishSave? && s.At(step.p).Saving?) || (step.LoseAnswer? && s.At(step.p).Presenting?)
    requires s.At(step.p).k < |s.log|
    ensures var s' := Next(s, step);
            var k := s.At(step.p).k;
            var saved := step.FinishSave? && step.ok;
            && s'.file == (if saved then Saved(s.At(step.p).rotated) else s.file)
            && s'.stored == (if saved then s.stored + {s.At(step.p).rotated.refresh} else s.stored)
            && s'.log == s.log[k := s.log[k].(fate := if saved then Settled else Excused)]
            && s'.ended == s.ended && s'.current == s.current
            && s'.At(step.p) == Idle && s'.lock != Some(step.p)
            && forall q: nat :: q != step.p ==> s'.At(q) == s.At(q)
  {
  }

  /** What the answer to a refresh leads to. */
  lemma ReceivedMeans(s: System, p: nat)
    requires s.At(p).Presenting? && s.At(p).k < |s.log|
    ensures var s' := Next(s, Receive(p));
            var k, latest := s.At(p).k, s.At(p).latest;
            && (s.log[k].answer == None ==> s' == s)
            && (s.log[k].answer == Some(SignInEnded) ==> s'.At(p) == Ending(latest, k))
            && (s.log[k].answer == Some(Refused) ==> s'.At(p) == Idle && s'.lock != Some(p))
            && (s.log[k].answer != None && s.log[k].answer.value.Granted? ==> s'.At(p).Saving? && s'.At(p).k == k)
            && (s'.At(p) != Idle ==> s'.log == s.log && s'.lock == s.lock)
            && (s'.At(p) == Idle ==> s'.log == s.log[k := s.log[k].(fate := Excused)])
            && s'.file == s.file && s'.stored == s.stored && s'.ended == s.ended && s'.current == s.current
            && s'.reused == s.reused && forall q: nat :: q != p ==> s'.At(q) == s.At(q)
  {
  }

  /** The end of a sign-in removes the file only while it holds the refused token. */
  lemma EndedRemovesIff(s: System, p: nat, ok: bool)
    requires s.At(p).Ending? && s.At(p).k < |s.log|
    ensures var s' := Next(s, FinishEnd(p, ok));
            var k := s.At(p).k;
            var mine := s.file.Saved? && s.file.session.refresh == s.At(p).latest.refresh;
            && s'.file == (if mine && ok then Missing else s.file)
            && s'.log == s.log[k := s.log[k].(fate := if mine && !ok then Excused else Settled)]
            && s'.At(p) == Idle && s'.lock != Some(p)
            && s'.stored == s.stored && s'.ended == s.ended && s'.current == s.current
            && forall q: nat :: q != p ==> s'.At(q) == s.At(q)
  {
  }

  // ---- The lock -----------------------------------------------------------------------------

  /** The lock is taken only from nobody, and given up, crashing included, without touching the file. */
  lemma LockingMeans(s: System, p: nat)
    ensures var s' := Next(s, Acquire(p));
            && (s'.lock != s.lock ==> s.lock == None && s'.lock == Some(p) && s.At(p).Waiting?
                                      && s'.At(p) == Holding(s.At(p).task))
            && (s'.lock == s.lock ==> s' == s)
            && (s.lock == None && s.At(p).Waiting? ==> s'.lock == Some(p))
            && s' == s.(lock := s'.lock, procs := s'.procs) && forall q: nat :: q != p ==> s'.At(q) == s.At(q)
    ensures var s' := Next(s, GiveUp(p));
            && s' == s.(procs := s'.procs)
            && forall q: nat :: s'.At(q) == if q == p && s.At(q).Waiting? then Idle else s.At(q)
    ensures var s' := Next(s, Crash(p));
            && s' == s.(lock := s'.lock, procs := s'.procs, log := s'.log)
            && s'.lock == (if s.lock == Some(p) then None else s.lock)
            && (forall q: nat :: s'.At(q) == if q == p then Idle else s.At(q))
            && |s'.log| == |s.log|
            && forall k :: 0 <= k < |s.log| ==>
                 s'.log[k] == if (s.At(p).Presenting? || s.At(p).Saving? || s.At(p).Ending?) && s.At(p).k == k
                              then s.log[k].(fate := Excused) else s.log[k]
  {
  }

  /** Silicon Accounts may end a sign-in at any time; nobody here learns of it then. */
  lemma EndSignInMeans(s: System, family: nat)
    ensures var s' := Next(s, EndSignIn(family));
            s'.ended == s.ended + {family} && s' == s.(ended := s'.ended)
  {
  }

  // ---- Signing in, out, and the account's details -------------------------------------------

  /** A login brings the first pair of a sign-in of its own. */
  lemma LoginBrings(s: System, p: nat, expiresAt: int, refreshExpiresAt: Option<int>, account: Account)
    requires s.At(p).Idle?
    ensures var s' := Next(s, BeginLogin(p, expiresAt, refreshExpiresAt, account));
            && (s'.At(p)
                == Waiting(SignIn(Session(Token(|s.current|, 0), Token(|s.current|, 0), expiresAt, refreshExpiresAt,
                                          account))))
            && s'.current == s.current + [0] && s' == s.(current := s'.current, procs := s'.procs)
            && forall q: nat :: q != p ==> s'.At(q) == s.At(q)
  {
  }

  /** It saves exactly the session it brought, remembers the one it replaces as it was read under the
      lock, and ends that one's sign-in only if it is another. */
  lemma LoginMeans(s: System, p: nat, ok: bool)
    ensures s.At(p).Holding? && s.At(p).task.SignIn? ==>
              var s' := Next(s, LoginRead(p));
              && s' == s.(procs := s'.procs) && s'.At(p).Replacing? && s'.At(p).session == s.At(p).task.session
              && (s'.At(p).previous.Some? <==> s.file.Saved?)
              && (s.file.Saved? ==> s'.At(p).previous == Some(s.file.session))
              && forall q: nat :: q != p ==> s'.At(q) == s.At(q)
    ensures s.At(p).Replacing? ==>
              var s' := Next(s, LoginSave(p, ok));
              && s'.file == (if ok then Saved(s.At(p).session) else s.file)
              && s'.stored == (if ok then s.stored + {s.At(p).session.refresh} else s.stored)
              && s'.lock != Some(p)
              && (s'.At(p) != Idle <==>
                    ok && s.At(p).previous.Some? && s.At(p).previous.value.refresh != s.At(p).session.refresh)
              && (s'.At(p) != Idle ==> s'.At(p) == LateRevoke(s.At(p).previous.value))
              && s'.ended == s.ended && s'.log == s.log && s'.current == s.current
              && forall q: nat :: q != p ==> s'.At(q) == s.At(q)
    ensures s.At(p).LateRevoke? ==>
              var s' := Next(s, LoginRevoke(p, ok));
              && s'.ended == (if ok then s.ended + {s.At(p).replaced.refresh.family} else s.ended)
              && s' == s.(ended := s'.ended, procs := s'.procs) && s'.At(p) == Idle
              && forall q: nat :: q != p ==> s'.At(q) == s.At(q)
  {
  }

  /** `remember_account` goes to the file only for the same account with another id, name or custodian,
      and then sets these three, keeping a name the service did not report. */
  lemma RememberMeans(s: System, p: nat, known: Account, me: Account)
    ensures s.At(p).Idle? ==>
              var s' := Next(s, BeginRemember(p, known, me));
              && (s'.At(p) != Idle <==>
                    me.uuid == known.uuid
                    && (me.publicId != known.publicId || me.displayName != known.displayName
                        || me.custodian != known.custodian))
              && (s'.At(p) != Idle ==> s'.At(p) == Waiting(Remember(me)))
              && s' == s.(procs := s'.procs) && forall q: nat :: q != p ==> s'.At(q) == s.At(q)
    ensures s.At(p) == Holding(Remember(me)) ==>
              var s' := Next(s, RememberRead(p));
              && (s'.At(p) != Idle <==> s.file.Saved? && s.file.session.account.uuid == me.uuid)
              && (s'.At(p) != Idle ==>
                    && s'.At(p).Updating? && s'.lock == s.lock
                    && OnlyDetailsDiffer(s.file.session, s'.At(p).updated)
                    && s'.At(p).updated.account.publicId == me.publicId
                    && s'.At(p).updated.account.custodian == me.custodian
                    && (me.displayName.Some? ==> s'.At(p).updated.account.displayName == me.displayName)
                    && (me.displayName.None? ==>
                          s'.At(p).updated.account.displayName == s.file.session.account.displayName))
              && (s'.At(p) == Idle ==> s'.lock != Some(p))
              && s' == s.(lock := s'.lock, procs := s'.procs) && forall q: nat :: q != p ==> s'.At(q) == s.At(q)
  {
  }

  lemma RememberSaves(s: System, p: nat, ok: bool)
    requires s.At(p).Updating?
    ensures var s' := Next(s, RememberSave(p, ok));
            && s'.file == (if ok then Saved(s.At(p).updated) else s.file)
            && s'.stored == (if ok then s.stored + {s.At(p).updated.refresh} else s.stored)
            && s'.At(p) == Idle && s'.lock != Some(p)
            && s'.ended == s.ended && s'.log == s.log && s'.current == s.current
            && forall q: nat :: q != p ==> s'.At(q) == s.At(q)
  {
  }

  /** `logout` ends the saved sign-in at Silicon Accounts, if that can be reached, and deletes the file
      either way. */
  lemma LogoutMeans(s: System, p: nat, ok: bool)
    ensures s.At(p).Idle? ==>
              var s' := Next(s, BeginLogout(p));
              && (s'.At(p) != Idle <==> s.file != Missing)
              && (s'.At(p) != Idle ==> s'.At(p) == Waiting(SignOut))
              && s' == s.(procs := s'.procs) && forall q: nat :: q != p ==> s'.At(q) == s.At(q)
    ensures s.At(p) == Holding(SignOut) ==>
              var s' := Next(s, LogoutRead(p));
              && s'.At(p) == (if s.file.Saved? then Revoking(s.file.session) else Deleting)
              && s' == s.(procs := s'.procs) && forall q: nat :: q != p ==> s'.At(q) == s.At(q)
    ensures s.At(p).Revoking? ==>
              var s' := Next(s, LogoutRevoke(p, ok));
              && s'.ended == (if ok then s.ended + {s.At(p).session.refresh.family} else s.ended)
              && s'.At(p) == Deleting
              && s' == s.(ended := s'.ended, procs := s'.procs) && forall q: nat :: q != p ==> s'.At(q) == s.At(q)
    ensures s.At(p).Deleting? ==>
              var s' := Next(s, LogoutRemove(p, ok));
              && s'.file == (if ok then Missing else s.file) && s'.At(p) == Idle && s'.lock != Some(p)
              && s'.ended == s.ended && s'.log == s.log && s'.current == s.current && s'.stored == s.stored
              && forall q: nat :: q != p ==> s'.At(q) == s.At(q)
  {
  }
}
