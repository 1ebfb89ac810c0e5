/**
The saved sign-in of the CLI, shared by any number of `waveform` processes: the session file, the
file lock, what each process is doing, and Silicon Accounts. A run is a sequence of `Step`s taken
in any order by any process; a step that is not possible in a state changes nothing.

A token pair is identified by the sign-in it belongs to (`family`) and how many rotations came
before it (`serial`). No process looks inside a token; only Silicon Accounts does.
*/
module SavedSignIn {
  import opened Wrappers

  /** Text that is only compared. */
  type Text = int

  const REFRESH_MARGIN_SECONDS := 60
  const MAX_TIME := 0x7FFF_FFFF_FFFF_FFFF

  datatype Token = Token(family: nat, serial: nat)

  datatype Account = Account(uuid: Text, publicId: Option<Text>, displayName: Option<Text>,
                             custodian: Option<Text>)

  /** What Silicon Accounts answers to a sign-in or a refresh. */
  datatype Tokens = Tokens(pair: Token, expiresAt: int, refreshExpiresAt: Option<int>, account: Account)

  datatype Session = Session(access: Token, refresh: Token, expiresAt: int, refreshExpiresAt: Option<int>,
                             account: Account)
  {
    predicate NeedsRefresh(now: int) {
      expiresAt <= (if now + REFRESH_MARGIN_SECONDS > MAX_TIME then MAX_TIME else now + REFRESH_MARGIN_SECONDS)
    }

    predicate Ended(now: int) {
      refreshExpiresAt.Some? && refreshExpiresAt.value <= now
    }

    function Rotated(tokens: Tokens): Session {
      Session(tokens.pair, tokens.pair, tokens.expiresAt,
              if tokens.refreshExpiresAt.Some? then tokens.refreshExpiresAt else refreshExpiresAt,
              tokens.account)
    }

    /** The account details Waveform reported; an absent display name keeps the saved one. */
    function WithDetails(me: Account): Session {
      this.(account := account.(publicId := me.publicId,
                                displayName := if me.displayName.Some? then me.displayName else account.displayName,
                                custodian := me.custodian))
    }
  }

  function FromTokens(tokens: Tokens): Session {
    Session(tokens.pair, tokens.pair, tokens.expiresAt, tokens.refreshExpiresAt, tokens.account)
  }

  datatype File = Missing | Unreadable | Saved(session: Session)

  /** Silicon Accounts' verdict on one presentation: new tokens, a final refusal, or another error. */
  datatype Answer = Granted(tokens: Tokens) | SignInEnded | Refused

  /** How a presentation ended for the process that made it. `Excused`: the answer was lost, was an
      error that is not final, or the save or removal that had to follow did not happen. */
  datatype Fate = Open | Settled | Excused

  datatype Presentation = Presentation(token: Token, answer: Option<Answer>, fate: Fate)

  datatype Task =
    | Refresh(current: Session, refused: Option<Token>)
    | SignIn(session: Session)
    | Remember(me: Account)
    | SignOut

  datatype Process =
    | Idle
    | Waiting(task: Task)                                      // for the lock
    | Holding(task: Task)                                      // the lock, nothing read yet
    | Presenting(latest: Session, k: nat)                      // refresh request k is under way
    | Saving(latest: Session, rotated: Session, k: nat)
    | Ending(latest: Session, k: nat)                          // told that the sign-in is over
    | Replacing(session: Session, previous: Option<Session>)   // login, after its read
    | Updating(updated: Session)                               // remember_account, after its read
    | Revoking(session: Session)                               // logout, after its read
    | Deleting                                                 // logout, about to delete
    | LateRevoke(replaced: Session)                            // login, the lock released again
  {
    predicate InCritical() {
      !Idle? && !Waiting? && !LateRevoke?
    }

    /** The presentation this process answers for. */
    function OpenRequest(): Option<nat> {
      if Presenting? || Saving? || Ending? then Some(k) else None
    }

    /** The session a login carries until it is saved. */
    function NewSignIn(): Option<Session> {
      match this
      case Waiting(SignIn(s)) => Some(s)
      case Holding(SignIn(s)) => Some(s)
      case Replacing(s, _) => Some(s)
      case _ => None
    }
  }

  function Doing(procs: map<nat, Process>, p: nat): Process {
    if p in procs then procs[p] else Idle
  }

  function Moved(procs: map<nat, Process>, p: nat, process: Process): (moved: map<nat, Process>)
    ensures forall q: nat {:trigger Doing(moved, q)} :: Doing(moved, q) == if q == p then process else Doing(procs, q)
  {
    procs[p := process]
  }

  /** `current[f]` is the serial Silicon Accounts accepts for sign-in `f`. `ended` and `reused` are
      the sign-ins that are over, and those it ended because a used token came back. `stored` is a
      history variable: every token ever written to the file. */
  datatype System = System(file: File, lock: Option<nat>, procs: map<nat, Process>, current: seq<nat>,
                           ended: set<nat>, reused: set<nat>, log: seq<Presentation>, stored: set<Token>)
  {
    function At(p: nat): Process {
      Doing(procs, p)
    }

    function With(p: nat, process: Process): System {
      this.(procs := Moved(procs, p, process))
    }

    /** The lock is released with the end of its holder's critical section. */
    function Leave(p: nat, process: Process): System {
      With(p, process).(lock := if lock == Some(p) then None else lock)
    }

    function Fated(k: nat, fate: Fate): System
      requires k < |log|
    {
      this.(log := log[k := log[k].(fate := fate)])
    }

    predicate Issued(t: Token) {
      t.family < |current| && t.serial <= current[t.family]
    }

    predicate Holds(t: Token) {
      file.Saved? && file.session.refresh == t
    }
  }

  const Start := System(Missing, None, map[], [], {}, {}, [], {})

  datatype Grant = Grant(expiresAt: int, refreshExpiresAt: Option<int>, account: Account) | Unavailable

  datatype Step =
    | BeginRefresh(p: nat, refused: Option<Token>, now: int)
    | BeginLogin(p: nat, expiresAt: int, refreshExpiresAt: Option<int>, account: Account)
    | BeginRemember(p: nat, known: Account, me: Account)
    | BeginLogout(p: nat)
    | Acquire(p: nat)
    | GiveUp(p: nat)
    | Present(p: nat, now: int)
    | Handle(k: nat, grant: Grant)
    | Receive(p: nat)
    | LoseAnswer(p: nat)
    | FinishSave(p: nat, ok: bool)
    | FinishEnd(p: nat, ok: bool)
    | LoginRead(p: nat)
    | LoginSave(p: nat, ok: bool)
    | LoginRevoke(p: nat, ok: bool)
    | RememberRead(p: nat)
    | RememberSave(p: nat, ok: bool)
    | LogoutRead(p: nat)
    | LogoutRevoke(p: nat, ok: bool)
    | LogoutRemove(p: nat, ok: bool)
    | Crash(p: nat)
    | EndSignIn(family: nat)

  // ---- The steps of each command ------------------------------------------------------------

  /** The unlocked read of `ensure_fresh`. */
  function BeginRefreshing(s: System, p: nat, refused: Option<Token>, now: int): System {
    if !s.file.Saved? then s
    else
      var current := s.file.session;
      if current.Ended(now) then s
      else if refused.None? && !current.NeedsRefresh(now) then s
      else s.With(p, Waiting(Refresh(current, refused)))
  }

  /** `ensure_fresh` under the lock: re-read, use what another process refreshed, or present. */
  function PresentLatest(s: System, p: nat, current: Session, refused: Option<Token>, now: int): System {
    if !s.file.Saved? then s.Leave(p, Idle)
    else
      var latest := s.file.session;
      var someoneElseRefreshed :=
        (refused.Some? ==> latest.access != refused.value) && !latest.NeedsRefresh(now);
      if latest.account.uuid != current.account.uuid || someoneElseRefreshed then s.Leave(p, Idle)
      else s.(log := s.log + [Presentation(latest.refresh, None, Open)]).With(p, Presenting(latest, |s.log|))
  }

  /** Silicon Accounts handles request `k`, possibly after the process that sent it is gone. A
      current token is rotated; a token that was already rotated ends its whole sign-in. */
  function HandleRequest(s: System, k: nat, grant: Grant): System
    requires k < |s.log|
  {
    var t := s.log[k].token;
    if s.log[k].answer.Some? || !s.Issued(t) then s
    else if t.family in s.ended then Answered(s, k, SignInEnded)
    else if t.serial != s.current[t.family] then
      Answered(s.(ended := s.ended + {t.family}, reused := s.reused + {t.family}), k, SignInEnded)
    else match grant
      case Unavailable => Answered(s, k, Refused)
      case Grant(expiresAt, refreshExpiresAt, account) =>
        var next := Token(t.family, t.serial + 1);
        Answered(s.(current := s.current[t.family := next.serial]), k,
                 Granted(Tokens(next, expiresAt, refreshExpiresAt, account)))
  }

  function Answered(s: System, k: nat, answer: Answer): System
    requires k < |s.log|
  {
    s.(log := s.log[k := s.log[k].(answer := Some(answer))])
  }

  function ReceiveAnswer(s: System, p: nat, latest: Session, k: nat): System
    requires k < |s.log|
  {
    match s.log[k].answer
    case None => s
    case Some(Granted(tokens)) => s.With(p, Saving(latest, latest.Rotated(tokens), k))
    case Some(SignInEnded) => s.With(p, Ending(latest, k))
    case Some(Refused) => s.Fated(k, Excused).Leave(p, Idle)
  }

  function SaveRotated(s: System, p: nat, rotated: Session, k: nat, ok: bool): System
    requires k < |s.log|
  {
    if ok then
      s.(file := Saved(rotated), stored := s.stored + {rotated.refresh}).Fated(k, Settled).Leave(p, Idle)
    else s.Fated(k, Excused).Leave(p, Idle)
  }

  /** The sign-in is over: delete the file, but only if it still holds the refused token. */
  function RemoveEnded(s: System, p: nat, latest: Session, k: nat, ok: bool): System
    requires k < |s.log|
  {
    if s.Holds(latest.refresh) then
      if ok then s.(file := Missing).Fated(k, Settled).Leave(p, Idle)
      else s.Fated(k, Excused).Leave(p, Idle)
    else s.Fated(k, Settled).Leave(p, Idle)
  }

  /** A new sign-in: the tokens exist before the lock is asked for. */
  function BeginSigningIn(s: System, p: nat, expiresAt: int, refreshExpiresAt: Option<int>, account: Account): System {
    var tokens := Tokens(Token(|s.current|, 0), expiresAt, refreshExpiresAt, account);
    s.(current := s.current + [0]).With(p, Waiting(SignIn(FromTokens(tokens))))
  }

  function SaveSignIn(s: System, p: nat, session: Session, previous: Option<Session>, ok: bool): System {
    if !ok then s.Leave(p, Idle)
    else
      s.(file := Saved(session), stored := s.stored + {session.refresh})
      .Leave(p, if previous.Some? && previous.value.refresh != session.refresh
                then LateRevoke(previous.value) else Idle)
  }

  function BeginRemembering(s: System, p: nat, known: Account, me: Account): System {
    if me.uuid != known.uuid
       || (me.publicId == known.publicId && me.displayName == known.displayName && me.custodian == known.custodian)
    then s
    else s.With(p, Waiting(Remember(me)))
  }

  function ReadForUpdate(s: System, p: nat, me: Account): System {
    if s.file.Saved? && s.file.session.account.uuid == me.uuid
    then s.With(p, Updating(s.file.session.WithDetails(me)))
    else s.Leave(p, Idle)
  }

  /** A process can stop anywhere; the operating system then releases its lock. */
  function StopProcess(s: System, p: nat): System {
    var open := s.At(p).OpenRequest();
    (if open.Some? && open.value < |s.log| then s.Fated(open.value, Excused) else s).Leave(p, Idle)
  }

  function Next(s: System, step: Step): System {
    match step
    case BeginRefresh(p, refused, now) =>
      if s.At(p).Idle? then BeginRefreshing(s, p, refused, now) else s
    case BeginLogin(p, expiresAt, refreshExpiresAt, account) =>
      if s.At(p).Idle? then BeginSigningIn(s, p, expiresAt, refreshExpiresAt, account) else s
    case BeginRemember(p, known, me) =>
      if s.At(p).Idle? then BeginRemembering(s, p, known, me) else s
    case BeginLogout(p) =>
      if s.At(p).Idle? && !s.file.Missing? then s.With(p, Waiting(SignOut)) else s
    case Acquire(p) =>
      if s.At(p).Waiting? && s.lock.None? then s.(lock := Some(p)).With(p, Holding(s.At(p).task)) else s
    case GiveUp(p) =>
      if s.At(p).Waiting? then s.With(p, Idle) else s
    case Present(p, now) =>
      (match s.At(p)
       case Holding(Refresh(current, refused)) => PresentLatest(s, p, current, refused, now)
       case _ => s)
    case Handle(k, grant) =>
      if k < |s.log| then HandleRequest(s, k, grant) else s
    case Receive(p) =>
      (match s.At(p)
       case Presenting(latest, k) => if k < |s.log| then ReceiveAnswer(s, p, latest, k) else s
       case _ => s)
    case LoseAnswer(p) =>
      (match s.At(p)
       case Presenting(latest, k) => if k < |s.log| then s.Fated(k, Excused).Leave(p, Idle) else s
       case _ => s)
    case FinishSave(p, ok) =>
      (match s.At(p)
       case Saving(latest, rotated, k) => if k < |s.log| then SaveRotated(s, p, rotated, k, ok) else s
       case _ => s)
    case FinishEnd(p, ok) =>
      (match s.At(p)
       case Ending(latest, k) => if k < |s.log| then RemoveEnded(s, p, latest, k, ok) else s
       case _ => s)
    case LoginRead(p) =>
      (match s.At(p)
       case Holding(SignIn(session)) =>
         s.With(p, Replacing(session, if s.file.Saved? then Some(s.file.session) else None))
       case _ => s)
    case LoginSave(p, ok) =>
      (match s.At(p)
       case Replacing(session, previous) => SaveSignIn(s, p, session, previous, ok)
       case _ => s)
    case LoginRevoke(p, ok) =>
      (match s.At(p)
       case LateRevoke(previous) =>
         (if ok then s.(ended := s.ended + {previous.refresh.family}) else s).With(p, Idle)
       case _ => s)
    case RememberRead(p) =>
      (match s.At(p)
       case Holding(Remember(me)) => ReadForUpdate(s, p, me)
       case _ => s)
    case RememberSave(p, ok) =>
      (match s.At(p)
       case Updating(updated) =>
         (if ok then s.(file := Saved(updated), stored := s.stored + {updated.refresh}) else s).Leave(p, Idle)
       case _ => s)
    case LogoutRead(p) =>
      (match s.At(p)
       case Holding(SignOut) => s.With(p, if s.file.Saved? then Revoking(s.file.session) else Deleting)
       case _ => s)
    case LogoutRevoke(p, ok) =>
      (match s.At(p)
       case Revoking(session) =>
         (if ok then s.(ended := s.ended + {session.refresh.family}) else s).With(p, Deleting)
       case _ => s)
    case LogoutRemove(p, ok) =>
      if s.At(p).Deleting? then (if ok then s.(file := Missing) else s).Leave(p, Idle) else s
    case Crash(p) => StopProcess(s, p)
    case EndSignIn(family) => s.(ended := s.ended + {family})
  }

  function Run(s: System, steps: seq<Step>): System
    decreases |steps|
  {
    if steps == [] then s else Run(Next(s, steps[0]), steps[1..])
  }
}
