/**
What holds in every run of the CLI processes that share a saved sign-in: an invariant kept by every
step, and the promises that follow from it.
*/
module SavedSignInLaws {
  import opened Wrappers
  import opened SavedSignIn

  // ---- What every step keeps ----------------------------------------------------------------

  /** The lock is held exactly by the process inside its critical section. */
  ghost predicate LockMeansCritical(s: System) {
    forall p: nat :: Doing(s.procs, p).InCritical() <==> s.lock == Some(p)
  }

  /** What a process read under the lock is still what the file holds. */
  ghost predicate ReadStillTrue(s: System, process: Process) {
    match process
    case Presenting(latest, k) => OpenFor(s, latest, k)
    case Saving(latest, rotated, k) =>
      && OpenFor(s, latest, k)
      && s.log[k].answer.Some? && s.log[k].answer.value.Granted?
      && rotated == latest.Rotated(s.log[k].answer.value.tokens)
    case Ending(latest, k) => OpenFor(s, latest, k) && s.log[k].answer == Some(SignInEnded)
    case Replacing(_, previous) => if previous.Some? then s.file == Saved(previous.value) else !s.file.Saved?
    case Updating(updated) => s.file.Saved? && OnlyDetailsDiffer(s.file.session, updated)
    case Revoking(session) => s.file == Saved(session)
    case _ => true
  }

  /** The same tokens, times and account uuid. */
  ghost predicate OnlyDetailsDiffer(session: Session, updated: Session) {
    && updated.access == session.access && updated.refresh == session.refresh
    && updated.expiresAt == session.expiresAt && updated.refreshExpiresAt == session.refreshExpiresAt
    && updated.account.uuid == session.account.uuid
  }

  ghost predicate OpenFor(s: System, latest: Session, k: nat) {
    && s.file == Saved(latest)
    && k < |s.log| && s.log[k].token == latest.refresh && s.log[k].fate == Open
    && (s.log[k].answer.Some? && s.log[k].answer.value.Granted? ==>
          FreshRotation(s, latest.refresh, s.log[k].answer.value.tokens.pair))
  }

  ghost predicate FreshRotation(s: System, used: Token, new_: Token) {
    new_ == Token(used.family, used.serial + 1) && s.Issued(new_) && new_ !in s.stored
  }

  ghost predicate ReadsStillTrue(s: System) {
    s.lock.Some? ==> ReadStillTrue(s, s.At(s.lock.value))
  }

  ghost predicate StoredTokensIssued(s: System) {
    && (forall t :: t in s.stored ==> s.Issued(t))
    && (s.file.Saved? ==> s.file.session.refresh in s.stored)
    && (forall k :: 0 <= k < |s.log| ==> s.log[k].token in s.stored)
  }

  /** A login not yet saved carries the untouched first pair of a sign-in of its own. */
  ghost predicate UnsavedSignIn(s: System, t: Token) {
    && t.family < |s.current| && t.serial == 0 == s.current[t.family]
    && forall u :: u in s.stored ==> u.family != t.family
  }

  ghost predicate SignInsSeparate(s: System) {
    && (forall p: nat :: Doing(s.procs, p).NewSignIn().Some? ==>
          UnsavedSignIn(s, Doing(s.procs, p).NewSignIn().value.refresh))
    && (forall p: nat, q: nat ::
          p != q && Doing(s.procs, p).NewSignIn().Some? && Doing(s.procs, q).NewSignIn().Some? ==>
            Doing(s.procs, p).NewSignIn().value.refresh.family != Doing(s.procs, q).NewSignIn().value.refresh.family)
    && (forall p: nat :: Doing(s.procs, p).LateRevoke? ==>
          Doing(s.procs, p).replaced.refresh in s.stored
          && (s.file.Saved? ==> s.file.session.refresh.family != Doing(s.procs, p).replaced.refresh.family))
  }

  /** An open presentation belongs to the holder of the lock; the token of a settled one is gone. */
  ghost predicate LogFates(s: System) {
    forall k :: 0 <= k < |s.log| ==>
      && (s.log[k].fate == Open ==> s.lock.Some? && s.At(s.lock.value).OpenRequest() == Some(k))
      && (s.log[k].fate == Settled ==> s.log[k].answer.Some? && !s.Holds(s.log[k].token))
  }

  ghost predicate PresentedOnce(s: System) {
    forall i, j :: 0 <= i < j < |s.log| && s.log[i].token == s.log[j].token ==> s.log[i].fate == Excused
  }

  ghost predicate NoFault(s: System) {
    forall k :: 0 <= k < |s.log| ==> s.log[k].fate != Excused
  }

  /** True while a granted rotation has not reached the file. */
  ghost predicate RotationUnderWay(s: System) {
    s.lock.Some? &&
    var open := s.At(s.lock.value).OpenRequest();
    open.Some? && open.value < |s.log| && s.log[open.value].answer.Some? && s.log[open.value].answer.value.Granted?
  }

  /** Without faults the file never falls behind Silicon Accounts, and no reuse is ever seen. */
  ghost predicate NeverBehind(s: System) {
    NoFault(s) ==>
      && s.reused == {}
      && (s.file.Saved? ==>
            var t := s.file.session.refresh;
            s.Issued(t) && s.current[t.family] == t.serial + if RotationUnderWay(s) then 1 else 0)
  }

  ghost predicate Inv(s: System) {
    && Locking(s)
    && Naming(s)
    && Counting(s)
  }

  ghost predicate Locking(s: System) {
    LockMeansCritical(s) && ReadsStillTrue(s) && LogFates(s)
  }

  ghost predicate Naming(s: System) {
    StoredTokensIssued(s) && SignInsSeparate(s)
  }

  ghost predicate Counting(s: System) {
    PresentedOnce(s) && NeverBehind(s)
  }

  lemma FaultsRemain(s: System, s': System)
    requires |s.log| <= |s'.log|
    requires forall k :: 0 <= k < |s.log| && s.log[k].fate == Excused ==> s'.log[k].fate == Excused
    ensures NoFault(s') ==> NoFault(s)
  {
    if NoFault(s') {
      forall k | 0 <= k < |s.log| ensures s.log[k].fate != Excused {
        assert s'.log[k].fate != Excused;
      }
    }
  }

  /** Only `p` moves; the file, the log, the tokens and the history stay as they are. */
  ghost predicate OnlyMoves(s: System, s': System, p: nat, process: Process) {
    && s' == s.With(p, process).(lock := s'.lock, ended := s'.ended)
    && (if process.InCritical() then s'.lock == Some(p) && (s.lock.None? || s.lock == Some(p))
        else s'.lock == if s.lock == Some(p) then None else s.lock)
    && (process.InCritical() ==> ReadStillTrue(s, process))
    && process.OpenRequest() == s.At(p).OpenRequest()
    && (process.NewSignIn().Some? ==> process.NewSignIn() == s.At(p).NewSignIn())
    && !process.LateRevoke?
  }

  lemma MoveKeepsLocking(s: System, s': System, p: nat, process: Process)
    requires Inv(s) && OnlyMoves(s, s', p, process)
    ensures Locking(s')
  {
  }

  lemma MoveKeepsNaming(s: System, s': System, p: nat, process: Process)
    requires Inv(s) && OnlyMoves(s, s', p, process)
    ensures Naming(s')
  {
  }

  lemma MoveKeepsCounting(s: System, s': System, p: nat, process: Process)
    requires Inv(s) && OnlyMoves(s, s', p, process)
    ensures Counting(s')
  {
    FaultsRemain(s, s');
  }

  lemma MoveKeepsInv(s: System, s': System, p: nat, process: Process)
    requires Inv(s) && OnlyMoves(s, s', p, process)
    ensures Inv(s')
  {
    MoveKeepsLocking(s, s', p, process);
    MoveKeepsNaming(s, s', p, process);
    MoveKeepsCounting(s, s', p, process);
  }

  /** `p` closes its open presentation and leaves: with an excuse, or with its file change done. */
  ghost predicate Closes(s: System, s': System, p: nat, k: nat, fate: Fate) {
    && s.At(p).OpenRequest() == Some(k) && k < |s.log|
    && s' == s.(file := s'.file, stored := s'.stored).Fated(k, fate).Leave(p, Idle)
    && (match fate
        case Open => false
        case Excused => s'.file == s.file && s'.stored == s.stored
        case Settled =>
          && s.log[k].answer.Some?
          && ((s'.file == Missing && s'.stored == s.stored)
              || (s.At(p).Saving? && s'.file == Saved(s.At(p).rotated)
                  && s'.stored == s.stored + {s.At(p).rotated.refresh})))
  }

  lemma CloseKeepsLocking(s: System, s': System, p: nat, k: nat, fate: Fate)
    requires Inv(s) && Closes(s, s', p, k, fate)
    ensures Locking(s')
  {
    assert s.lock == Some(p) && s.file.Saved? && s.file.session.refresh == s.log[k].token;
  }

  lemma CloseKeepsNaming(s: System, s': System, p: nat, k: nat, fate: Fate)
    requires Inv(s) && Closes(s, s', p, k, fate)
    ensures Naming(s')
  {
    assert s.lock == Some(p) && s.file.Saved? && s.file.session.refresh == s.log[k].token;
  }

  lemma CloseKeepsCounting(s: System, s': System, p: nat, k: nat, fate: Fate)
    requires Inv(s) && Closes(s, s', p, k, fate)
    ensures Counting(s')
  {
    assert s.lock == Some(p) && s.file.Saved? && s.file.session.refresh == s.log[k].token;
    assert s.log[k].fate == Open;
    if fate.Excused? {
      assert s'.log[k].fate == Excused;
    } else {
      FaultsRemain(s, s');
    }
  }

  lemma CloseKeepsInv(s: System, s': System, p: nat, k: nat, fate: Fate)
    requires Inv(s) && Closes(s, s', p, k, fate)
    ensures Inv(s')
  {
    CloseKeepsLocking(s, s', p, k, fate);
    CloseKeepsNaming(s, s', p, k, fate);
    CloseKeepsCounting(s, s', p, k, fate);
  }

  /** The lock's holder writes or deletes the file outside a refresh, and leaves. */
  ghost predicate Writes(s: System, s': System, p: nat, after: Process) {
    && s.lock == Some(p) && s.At(p).OpenRequest().None?
    && s' == s.(file := s'.file, stored := s'.stored).Leave(p, after)
    && (match s.At(p)
        case Updating(updated) =>
          s'.file == Saved(updated) && s'.stored == s.stored + {updated.refresh} && after == Idle
        case Replacing(session, previous) =>
          && s'.file == Saved(session) && s'.stored == s.stored + {session.refresh}
          && after == (if previous.Some? then LateRevoke(previous.value) else Idle)
        case Deleting => s'.file == Missing && s'.stored == s.stored && after == Idle
        case _ => false)
  }

  lemma WriteKeepsLocking(s: System, s': System, p: nat, after: Process)
    requires Inv(s) && Writes(s, s', p, after)
    ensures Locking(s')
  {
  }

  lemma WriteKeepsNaming(s: System, s': System, p: nat, after: Process)
    requires Inv(s) && Writes(s, s', p, after)
    ensures Naming(s')
  {
  }

  lemma WriteKeepsCounting(s: System, s': System, p: nat, after: Process)
    requires Inv(s) && Writes(s, s', p, after)
    ensures Counting(s')
  {
    FaultsRemain(s, s');
  }

  lemma WriteKeepsInv(s: System, s': System, p: nat, after: Process)
    requires Inv(s) && Writes(s, s', p, after)
    ensures Inv(s')
  {
    WriteKeepsLocking(s, s', p, after);
    WriteKeepsNaming(s, s', p, after);
    WriteKeepsCounting(s, s', p, after);
  }

  lemma PresentKeepsInv(s: System, p: nat, latest: Session)
    requires Inv(s) && s.At(p).Holding? && s.file == Saved(latest) && s.At(p).task.Refresh?
    ensures Inv(s.(log := s.log + [Presentation(latest.refresh, None, Open)]).With(p, Presenting(latest, |s.log|)))
  {
    var s' := s.(log := s.log + [Presentation(latest.refresh, None, Open)]).With(p, Presenting(latest, |s.log|));
    FaultsRemain(s, s');
    assert Locking(s');
    assert Naming(s');
  }

  /** Silicon Accounts answers request `k`. */
  ghost predicate Answers(s: System, s': System, k: nat) {
    && k < |s.log| && s.log[k].answer.None? && |s'.log| == |s.log| && s'.log[k].answer.Some?
    && s' == Answered(s.(current := s'.current, ended := s'.ended, reused := s'.reused), k, s'.log[k].answer.value)
    && var t := s.log[k].token;
    && s.Issued(t)
    && (if s'.log[k].answer.value.Granted? then
          && s.current[t.family] == t.serial && s'.reused == s.reused
          && s'.current == s.current[t.family := t.serial + 1]
          && s'.log[k].answer.value.tokens.pair == Token(t.family, t.serial + 1)
        else s'.current == s.current && (s'.reused == s.reused || s.current[t.family] != t.serial))
  }

  lemma AnswerKeepsLocking(s: System, s': System, k: nat)
    requires Inv(s) && Answers(s, s', k)
    ensures Locking(s')
  {
  }

  lemma AnswerKeepsNaming(s: System, s': System, k: nat)
    requires Inv(s) && Answers(s, s', k)
    ensures Naming(s')
  {
  }

  lemma AnswerKeepsCounting(s: System, s': System, k: nat)
    requires Inv(s) && Answers(s, s', k)
    ensures Counting(s')
  {
    FaultsRemain(s, s');
    assert s.log[k].fate != Settled;
  }

  lemma HandleKeepsInv(s: System, k: nat, grant: Grant)
    requires Inv(s) && k < |s.log|
    ensures Inv(HandleRequest(s, k, grant))
  {
    var s' := HandleRequest(s, k, grant);
    if s' != s {
      AnswerKeepsLocking(s, s', k);
      AnswerKeepsNaming(s, s', k);
      AnswerKeepsCounting(s, s', k);
    }
  }

  lemma BeginLoginKeepsLocking(s: System, p: nat, expiresAt: int, refreshExpiresAt: Option<int>, account: Account)
    requires Inv(s) && s.At(p).Idle?
    ensures Locking(BeginSigningIn(s, p, expiresAt, refreshExpiresAt, account))
  {
  }

  lemma BeginLoginKeepsNaming(s: System, p: nat, expiresAt: int, refreshExpiresAt: Option<int>, account: Account)
    requires Inv(s) && s.At(p).Idle?
    ensures Naming(BeginSigningIn(s, p, expiresAt, refreshExpiresAt, account))
  {
  }

  lemma BeginLoginKeepsCounting(s: System, p: nat, expiresAt: int, refreshExpiresAt: Option<int>, account: Account)
    requires Inv(s) && s.At(p).Idle?
    ensures Counting(BeginSigningIn(s, p, expiresAt, refreshExpiresAt, account))
  {
    FaultsRemain(s, BeginSigningIn(s, p, expiresAt, refreshExpiresAt, account));
  }

  lemma BeginLoginKeepsInv(s: System, p: nat, expiresAt: int, refreshExpiresAt: Option<int>, account: Account)
    requires Inv(s) && s.At(p).Idle?
    ensures Inv(BeginSigningIn(s, p, expiresAt, refreshExpiresAt, account))
  {
    BeginLoginKeepsLocking(s, p, expiresAt, refreshExpiresAt, account);
    BeginLoginKeepsNaming(s, p, expiresAt, refreshExpiresAt, account);
    BeginLoginKeepsCounting(s, p, expiresAt, refreshExpiresAt, account);
  }

  lemma EnterKeepsInv(s: System, step: Step)
    requires Inv(s) && (step.BeginRefresh? || step.BeginRemember? || step.BeginLogout?)
    ensures Inv(Next(s, step))
  {
    if Next(s, step) != s {
      MoveKeepsInv(s, Next(s, step), step.p, Next(s, step).At(step.p));
    }
  }

  lemma LockKeepsInv(s: System, step: Step)
    requires Inv(s) && (step.Acquire? || step.GiveUp?)
    ensures Inv(Next(s, step))
  {
    if Next(s, step) != s {
      MoveKeepsInv(s, Next(s, step), step.p, Next(s, step).At(step.p));
    }
  }

  lemma PresentStepKeepsInv(s: System, p: nat, now: int)
    requires Inv(s)
    ensures Inv(Next(s, Present(p, now)))
  {
    var s' := Next(s, Present(p, now));
    if |s'.log| != |s.log| {
      PresentKeepsInv(s, p, s.file.session);
    } else if s' != s {
      MoveKeepsInv(s, s', p, Idle);
    }
  }

  lemma ReceiveKeepsInv(s: System, p: nat)
    requires Inv(s)
    ensures Inv(Next(s, Receive(p)))
  {
    var s' := Next(s, Receive(p));
    if s' != s {
      if s.log[s.At(p).k].answer == Some(Refused) {
        CloseKeepsInv(s, s', p, s.At(p).k, Excused);
      } else {
        MoveKeepsInv(s, s', p, s'.At(p));
      }
    }
  }

  lemma CloseStepKeepsInv(s: System, step: Step)
    requires Inv(s) && (step.LoseAnswer? || step.FinishSave? || step.FinishEnd?)
    ensures Inv(Next(s, step))
  {
    var s' := Next(s, step);
    if s' != s {
      var k := s.At(step.p).k;
      CloseKeepsInv(s, s', step.p, k, s'.log[k].fate);
    }
  }

  lemma ReadKeepsInv(s: System, step: Step)
    requires Inv(s) && (step.LoginRead? || step.RememberRead? || step.LogoutRead?)
    ensures Inv(Next(s, step))
  {
    if Next(s, step) != s {
      MoveKeepsInv(s, Next(s, step), step.p, Next(s, step).At(step.p));
    }
  }

  lemma WriteStepKeepsInv(s: System, step: Step)
    requires Inv(s) && (step.LoginSave? || step.RememberSave? || step.LogoutRemove?)
    ensures Inv(Next(s, step))
  {
    var s' := Next(s, step);
    if s' != s {
      if step.ok { WriteKeepsInv(s, s', step.p, s'.At(step.p)); } else { MoveKeepsInv(s, s', step.p, Idle); }
    }
  }

  lemma RevokeKeepsInv(s: System, step: Step)
    requires Inv(s) && (step.LoginRevoke? || step.LogoutRevoke?)
    ensures Inv(Next(s, step))
  {
    if Next(s, step) != s {
      MoveKeepsInv(s, Next(s, step), step.p, Next(s, step).At(step.p));
    }
  }

  lemma CrashKeepsInv(s: System, p: nat)
    requires Inv(s)
    ensures Inv(Next(s, Crash(p)))
  {
    var open := s.At(p).OpenRequest();
    if open.Some? {
      CloseKeepsInv(s, Next(s, Crash(p)), p, open.value, Excused);
    } else {
      MoveKeepsInv(s, Next(s, Crash(p)), p, Idle);
    }
  }

  lemma EndSignInKeepsInv(s: System, family: nat)
    requires Inv(s)
    ensures Inv(Next(s, EndSignIn(family)))
  {
    FaultsRemain(s, Next(s, EndSignIn(family)));
  }

  lemma StepKeepsInv(s: System, step: Step)
    requires Inv(s)
    ensures Inv(Next(s, step))
  {
    match step
    case BeginRefresh(_, _, _) => EnterKeepsInv(s, step);
    case BeginRemember(_, _, _) => EnterKeepsInv(s, step);
    case BeginLogout(_) => EnterKeepsInv(s, step);
    case BeginLogin(p, expiresAt, refreshExpiresAt, account) =>
      if s.At(p).Idle? { BeginLoginKeepsInv(s, p, expiresAt, refreshExpiresAt, account); }
    case Acquire(_) => LockKeepsInv(s, step);
    case GiveUp(_) => LockKeepsInv(s, step);
    case Present(p, now) => PresentStepKeepsInv(s, p, now);
    case Handle(k, grant) => if k < |s.log| { HandleKeepsInv(s, k, grant); }
    case Receive(p) => ReceiveKeepsInv(s, p);
    case LoseAnswer(_) => CloseStepKeepsInv(s, step);
    case FinishSave(_, _) => CloseStepKeepsInv(s, step);
    case FinishEnd(_, _) => CloseStepKeepsInv(s, step);
    case LoginRead(_) => ReadKeepsInv(s, step);
    case RememberRead(_) => ReadKeepsInv(s, step);
    case LogoutRead(_) => ReadKeepsInv(s, step);
    case LoginSave(_, _) => WriteStepKeepsInv(s, step);
    case RememberSave(_, _) => WriteStepKeepsInv(s, step);
    case LogoutRemove(_, _) => WriteStepKeepsInv(s, step);
    case LoginRevoke(_, _) => RevokeKeepsInv(s, step);
    case LogoutRevoke(_, _) => RevokeKeepsInv(s, step);
    case Crash(p) => CrashKeepsInv(s, p);
    case EndSignIn(family) => EndSignInKeepsInv(s, family);
  }

  lemma {:induction false} RunKeepsInv(s: System, steps: seq<Step>)
    requires Inv(s)
    ensures Inv(Run(s, steps))
    decreases |steps|
  {
    if steps != [] {
      StepKeepsInv(s, steps[0]);
      RunKeepsInv(Next(s, steps[0]), steps[1..]);
    }
  }

  // ---- The promises -------------------------------------------------------------------------

  /** In every run, a refresh token is presented again only after a presentation of it that was
      excused: its answer lost or not final, or the save or removal after it not done. */
  lemma PresentedAgainOnlyAfterFault(steps: seq<Step>, i: nat, j: nat)
    requires i < j < |Run(Start, steps).log|
    requires Run(Start, steps).log[i].token == Run(Start, steps).log[j].token
    ensures Run(Start, steps).log[i].fate == Excused
  {
    RunKeepsInv(Start, steps);
  }

  /** In a run without such a fault, Silicon Accounts never sees a used token, and the file holds
      the token it accepts next whenever no refresh is under way. */
  lemma NoReuseWithoutFault(steps: seq<Step>)
    requires NoFault(Run(Start, steps))
    ensures Run(Start, steps).reused == {}
    ensures var s := Run(Start, steps);
            s.file.Saved? && s.lock.None? ==>
              s.Issued(s.file.session.refresh)
              && s.current[s.file.session.refresh.family] == s.file.session.refresh.serial
  {
    RunKeepsInv(Start, steps);
  }

  function Actor(step: Step): Option<nat> {
    if step.Handle? || step.EndSignIn? then None else Some(step.p)
  }

  /** The steps that may write a session. */
  predicate Saves(step: Step) {
    step.FinishSave? || step.LoginSave? || step.RememberSave?
  }

  lemma OthersOnlyRemove(s: System, step: Step)
    requires !Saves(step)
    ensures Next(s, step).file == s.file || Next(s, step).file == Missing
  {
  }

  /** A step that changes the file is one inside the critical section. */
  lemma WritersAreInside(s: System, step: Step)
    ensures Next(s, step).file != s.file ==> Actor(step).Some? && s.At(Actor(step).value).InCritical()
  {
  }

  /** The token the file holds, the next rotation of that one, or the first of a sign-in no file held. */
  ghost predicate FollowsTheFile(s: System, t: Token) {
    || s.Holds(t)
    || (t !in s.stored && t.serial > 0 && s.Holds(Token(t.family, t.serial - 1)))
    || (t.serial == 0 && forall u :: u in s.stored ==> u.family != t.family)
  }

  lemma SavesFollowTheFile(s: System, step: Step)
    requires Inv(s) && Saves(step) && Next(s, step).file != s.file
    ensures Next(s, step).file == Missing
            || (Next(s, step).file.Saved? && FollowsTheFile(s, Next(s, step).file.session.refresh))
  {
  }

  /** Every change of the file is made by the holder of the lock. The token it writes is the one
      the file holds, the next rotation of that one, or the first of a sign-in no file ever held. */
  lemma WritesFollowTheirRead(s: System, step: Step)
    requires Inv(s) && Next(s, step).file != s.file
    ensures Actor(step).Some? && s.lock == Actor(step)
    ensures Next(s, step).file == Missing
            || (Next(s, step).file.Saved? && FollowsTheFile(s, Next(s, step).file.session.refresh))
  {
    WritersAreInside(s, step);
    assert Doing(s.procs, Actor(step).value).InCritical();
    if Saves(step) {
      SavesFollowTheFile(s, step);
    } else {
      OthersOnlyRemove(s, step);
    }
  }

  /** `remember_account` changes the account's id, name and custodian and nothing else in the file. */
  lemma RememberKeepsThePair(steps: seq<Step>, p: nat, ok: bool)
    requires Run(Start, steps).At(p).Updating?
    ensures var s := Run(Start, steps);
            var s' := Next(s, RememberSave(p, ok));
            && s.file.Saved? && s'.file.Saved?
            && OnlyDetailsDiffer(s.file.session, s'.file.session)
  {
    RunKeepsInv(Start, steps);
  }

  lemma StoredGrows(s: System, step: Step)
    ensures s.stored <= Next(s, step).stored
  {
  }

  lemma StepKeepsGone(s: System, step: Step, t: Token)
    requires Inv(s) && t in s.stored && !s.Holds(t)
    ensures t in Next(s, step).stored && !Next(s, step).Holds(t)
  {
    StoredGrows(s, step);
    if Next(s, step).file != s.file {
      WritesFollowTheirRead(s, step);
      assert Next(s, step).Holds(t) ==> FollowsTheFile(s, t);
    }
  }

  lemma {:induction false} GoneStaysGone(s: System, steps: seq<Step>, t: Token)
    requires Inv(s) && t in s.stored && !s.Holds(t)
    ensures !Run(s, steps).Holds(t)
    decreases |steps|
  {
    if steps != [] {
      StepKeepsGone(s, steps[0], t);
      StepKeepsInv(s, steps[0]);
      GoneStaysGone(Next(s, steps[0]), steps[1..], t);
    }
  }

  lemma {:induction false} StoredGrowsOverRun(s: System, steps: seq<Step>)
    ensures s.stored <= Run(s, steps).stored
    decreases |steps|
  {
    if steps != [] {
      StoredGrows(s, steps[0]);
      StoredGrowsOverRun(Next(s, steps[0]), steps[1..]);
    }
  }

  /** A refresh token that left the file is never in it again, whatever the processes do. */
  lemma NoTokenComesBack(before: seq<Step>, between: seq<Step>, after: seq<Step>, t: Token)
    requires Run(Start, before).Holds(t)
    requires !Run(Run(Start, before), between).Holds(t)
    ensures !Run(Run(Run(Start, before), between), after).Holds(t)
  {
    RunKeepsInv(Start, before);
    RunKeepsInv(Run(Start, before), between);
    StoredGrowsOverRun(Run(Start, before), between);
    GoneStaysGone(Run(Run(Start, before), between), after, t);
  }

  /** The late revoke of a login never ends the sign-in the file holds by then. */
  lemma LateRevokeSparesTheFile(steps: seq<Step>, p: nat, ok: bool)
    requires Run(Start, steps).At(p).LateRevoke? && Run(Start, steps).file.Saved?
    ensures var s := Run(Start, steps);
            var s' := Next(s, LoginRevoke(p, ok));
            s'.file == s.file
            && (s.file.session.refresh.family in s'.ended ==> s.file.session.refresh.family in s.ended)
  {
    RunKeepsInv(Start, steps);
  }

  lemma {:induction false} RunThenStep(s: System, steps: seq<Step>, step: Step)
    ensures Run(s, steps + [step]) == Next(Run(s, steps), step)
    decreases |steps|
  {
    if steps == [] {
      assert [step][1..] == [];
    } else {
      assert (steps + [step])[1..] == steps[1..] + [step];
      RunThenStep(Next(s, steps[0]), steps[1..], step);
    }
  }

  lemma Then(steps: seq<Step>, s: System, step: Step) returns (steps': seq<Step>, s': System)
    requires s == Run(Start, steps)
    ensures s' == Next(s, step) == Run(Start, steps')
  {
    RunThenStep(Start, steps, step);
    steps', s' := steps + [step], Next(s, step);
  }

  const FIRST := Token(0, 0)

  function FirstSession(account: Account): Session {
    Session(FIRST, FIRST, 1000, None, account)
  }

  lemma SignInUnderWay(account: Account) returns (steps: seq<Step>, s: System)
    ensures s == Run(Start, steps)
    ensures s.file == Missing && s.lock == Some(0) && s.At(0) == Holding(SignIn(FirstSession(account)))
    ensures s.log == [] && s.current == [0] && s.ended == s.reused == {}
  {
    steps, s := Then([], Start, BeginLogin(0, 1000, None, account));
    steps, s := Then(steps, s, Acquire(0));
  }

  /** One login, from the start. */
  lemma SignedInOnce(account: Account) returns (steps: seq<Step>, s: System)
    ensures s == Run(Start, steps)
    ensures s.file == Saved(FirstSession(account))
    ensures s.lock == None && s.At(0) == Idle && s.log == [] && s.current == [0] && s.ended == s.reused == {}
  {
    steps, s := SignInUnderWay(account);
    steps, s := Then(steps, s, LoginRead(0));
    steps, s := Then(steps, s, LoginSave(0, true));
  }

  /** From a saved first session, a refused access token makes the process present its refresh token. */
  lemma PresentsFirst(steps: seq<Step>, s: System, account: Account) returns (steps': seq<Step>, s': System)
    requires s == Run(Start, steps) && s.file == Saved(FirstSession(account)) && s.lock == None && s.At(0) == Idle
    ensures s' == Run(Start, steps')
    ensures s'.At(0) == Presenting(FirstSession(account), |s.log|) && s'.lock == Some(0) && s'.file == s.file
    ensures s'.log == s.log + [Presentation(FIRST, None, Open)]
    ensures s'.current == s.current && s'.ended == s.ended && s'.reused == s.reused
  {
    steps', s' := Then(steps, s, BeginRefresh(0, Some(FIRST), 0));
    steps', s' := Then(steps', s', Acquire(0));
    steps', s' := Then(steps', s', Present(0, 0));
  }

  /** A refresh whose answer never arrives. */
  lemma AnswerLostOnce(account: Account) returns (steps: seq<Step>, s: System)
    ensures s == Run(Start, steps)
    ensures s.file == Saved(FirstSession(account))
    ensures s.lock == None && s.At(0) == Idle && s.current == [1] && s.ended == s.reused == {}
    ensures |s.log| == 1 && s.log[0].token == FIRST
  {
    steps, s := SignedInOnce(account);
    steps, s := PresentsFirst(steps, s, account);
    steps, s := Then(steps, s, Handle(0, Grant(2000, None, account)));
    steps, s := Then(steps, s, LoseAnswer(0));
  }

  /** The same token was presented twice, and that ended the sign-in. */
  predicate EndedByReuse(s: System) {
    s.reused == {0} && |s.log| == 2 && s.log[0].token == s.log[1].token
  }

  /** The exception is real: when the answer to a refresh is lost, the next one presents the used
      token and Silicon Accounts ends the sign-in. */
  lemma LostAnswerEndsTheSignIn(account: Account)
    ensures exists steps :: EndedByReuse(Run(Start, steps))
  {
    var steps, s := AnswerLostOnce(account);
    steps, s := PresentsFirst(steps, s, account);
    steps, s := Then(steps, s, Handle(1, Unavailable));
  }
}
