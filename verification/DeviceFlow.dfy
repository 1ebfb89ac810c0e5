/**
The client's side of a device sign-in (section 3.5 of RFC 8628): polling until the Carbon decides or
the code expires, and the form posts that are only repeated when nothing can have been applied.
Times are milliseconds on one clock; the program's own clock reads whole seconds of it.
*/
module DeviceFlow {
  import opened Wrappers

  const U32_MAX := 0xffff_ffff
  const U64_MAX := 0xffff_ffff_ffff_ffff

  type Tokens = int

  datatype Answer =
    | Approved(tokens: Tokens)
    | Pending
    | SlowDown
    | Denied
    | ExpiredAtAccounts
    | TransportError
    | Refused(status: Option<nat>)
  {
    /** Worth polling again: still pending, slower, or a passing failure. */
    predicate Passing() {
      || Pending? || SlowDown? || TransportError?
      || (Refused? && status.Some? && (status.value >= 500 || status.value == 429))
    }

    predicate Slows() {
      SlowDown? || (Refused? && status == Some(429))
    }
  }

  /** The answers that leave the sign-in open. */
  predicate PollsOn(answer: Answer) {
    match answer
    case Pending => true
    case SlowDown => true
    case TransportError => true
    case Refused(Some(status)) => status == 429 || 500 <= status
    case _ => false
  }

  datatype Outcome = SignedIn(tokens: Tokens) | DeviceDenied | DeviceExpired | PermanentFailure

  datatype Device = Device(interval: nat, expiresAt: int)

  /** The n-th answer, and how much longer than asked the sleep and the poll before it took. */
  datatype World = World(answer: nat -> Answer, oversleep: nat -> nat, latency: nat -> nat)

  /** A poll: when its wait began, how long it was to wait, and when it was sent. */
  datatype Poll = Poll(began: int, wait: nat, sent: int)

  function SatAdd(a: nat, b: nat): nat {
    if a + b > U64_MAX then U64_MAX else a + b
  }

  function Min(a: nat, b: nat): nat {
    if a < b then a else b
  }

  function Slowdowns(w: World, n: nat): nat {
    if n == 0 then 0 else Slowdowns(w, n - 1) + if w.answer(n - 1).Slows() then 1 else 0
  }

  /** The interval before the n-th poll: five seconds more for every slow-down or rate limit so far. */
  function IntervalAt(start: nat, w: World, n: nat): nat
    requires start <= U64_MAX
  {
    Min(start + 5 * Slowdowns(w, n), U64_MAX)
  }

  /** The sleep before a poll; a longer interval than fits 32 bits is cut off there. */
  function Wait(unit: nat, interval: nat): (wait: nat)
    ensures unit > 0 && interval > 0 ==> wait > 0
  {
    unit * Min(interval, U32_MAX)
  }

  function First(device: Device): nat {
    if device.interval == 0 then 1 else device.interval
  }

  function Waited(log: seq<Poll>): nat {
    if log == [] then 0 else Waited(log[..|log| - 1]) + log[|log| - 1].wait
  }

  /** What the program reads of a clock showing `ms`. */
  function Seconds(ms: int): int {
    ms / 1000
  }

  predicate TimedAt(log: seq<Poll>, k: nat, device: Device, start: int, unit: nat, w: World)
    requires device.interval <= U64_MAX && k < |log|
  {
    && log[k].wait == Wait(unit, IntervalAt(First(device), w, k))
    && log[k].sent == log[k].began + log[k].wait + w.oversleep(k)
    && log[k].began == (if k == 0 then start else log[k - 1].sent + w.latency(k - 1))
    && Seconds(log[k].began) < device.expiresAt
  }

  ghost predicate Timed(log: seq<Poll>, device: Device, start: int, unit: nat, w: World)
    requires device.interval <= U64_MAX
  {
    forall k :: 0 <= k < |log| ==> TimedAt(log, k, device, start, unit, w)
  }

  /** The polls of a sign-in from its start until it ends. */
  ghost predicate Polls(log: seq<Poll>, device: Device, start: int, unit: nat, w: World)
    requires device.interval <= U64_MAX
  {
    && Timed(log, device, start, unit, w)
    && (forall k :: 0 <= k < |log| - 1 ==> w.answer(k).Passing())
    && (log == [] || w.answer(|log| - 1).Passing() ==>
          Seconds(if log == [] then start else log[|log| - 1].sent + w.latency(|log| - 1)) >= device.expiresAt)
  }

  /** Ends on the first decisive answer or when the code has expired. */
  method WaitForDevice(device: Device, start: int, unit: nat, w: World) returns (outcome: Outcome, log: seq<Poll>)
    requires device.interval <= U64_MAX && unit > 0
    ensures Polls(log, device, start, unit, w)
    ensures outcome.SignedIn? ==> log != [] && w.answer(|log| - 1) == Approved(outcome.tokens)
    ensures outcome.DeviceDenied? ==> log != [] && w.answer(|log| - 1) == Denied
    // It polls on after "pending", "slow down", a failed connection, a rate limit and a server error, and
    // after nothing else.
    ensures forall k :: 0 <= k < |log| - 1 ==> PollsOn(w.answer(k))
    ensures outcome.PermanentFailure? ==>
      log != [] && w.answer(|log| - 1).Refused? && !PollsOn(w.answer(|log| - 1))
    ensures log != [] && PollsOn(w.answer(|log| - 1)) ==> outcome == DeviceExpired
    ensures log != [] ==>
      (outcome.DeviceDenied? <==> w.answer(|log| - 1) == Denied)
      && (outcome.PermanentFailure? <==> w.answer(|log| - 1).Refused? && !PollsOn(w.answer(|log| - 1)))
    ensures outcome.DeviceExpired? ==>
      || (log != [] && w.answer(|log| - 1) == ExpiredAtAccounts)
      || Seconds(if log == [] then start else log[|log| - 1].sent + w.latency(|log| - 1)) >= device.expiresAt
    ensures log != [] && !w.answer(|log| - 1).Passing() ==>
      (outcome.SignedIn? <==> w.answer(|log| - 1).Approved?)
  {
    var interval := First(device);
    var clock := start;
    log := [];
    while true
      invariant 1 <= interval <= U64_MAX && interval == IntervalAt(First(device), w, |log|)
      invariant Timed(log, device, start, unit, w)
      invariant clock == if log == [] then start else log[|log| - 1].sent + w.latency(|log| - 1)
      invariant forall k :: 0 <= k < |log| ==> w.answer(k).Passing()
      decreases 1000 * device.expiresAt - clock
    {
      if Seconds(clock) >= device.expiresAt {
        return DeviceExpired, log;
      }
      var n := |log|;
      var wait := Wait(unit, interval);
      var sent := clock + wait + w.oversleep(n);
      TimedGrows(log, device, start, unit, w, Poll(clock, wait, sent));
      log := log + [Poll(clock, wait, sent)];
      IntervalGrows(First(device), w, n);
      clock := sent + w.latency(n);
      match w.answer(n)
      case Approved(tokens) => return SignedIn(tokens), log;
      case Pending =>
      case SlowDown => interval := SatAdd(interval, 5);
      case Denied => return DeviceDenied, log;
      case ExpiredAtAccounts => return DeviceExpired, log;
      case TransportError =>
      case Refused(status) =>
        if !w.answer(n).Passing() {
          return PermanentFailure, log;
        }
        if status == Some(429) {
          interval := SatAdd(interval, 5);
        }
    }
  }

  lemma TimedGrows(log: seq<Poll>, device: Device, start: int, unit: nat, w: World, poll: Poll)
    requires device.interval <= U64_MAX && Timed(log, device, start, unit, w)
    requires poll.wait == Wait(unit, IntervalAt(First(device), w, |log|))
    requires poll.sent == poll.began + poll.wait + w.oversleep(|log|)
    requires poll.began == if log == [] then start else log[|log| - 1].sent + w.latency(|log| - 1)
    requires Seconds(poll.began) < device.expiresAt
    ensures Timed(log + [poll], device, start, unit, w)
  {
    var all := log + [poll];
    forall k | 0 <= k < |all| ensures TimedAt(all, k, device, start, unit, w) {
      assert k < |log| ==> TimedAt(log, k, device, start, unit, w);
    }
  }

  lemma IntervalGrows(start: nat, w: World, n: nat)
    requires start <= U64_MAX
    ensures IntervalAt(start, w, n + 1)
            == if w.answer(n).Slows() then SatAdd(IntervalAt(start, w, n), 5) else IntervalAt(start, w, n)
  {
  }

  /** The polls from the m-th up to the n-th whose answers slow down. */
  function Slowed(w: World, m: nat, n: nat): set<nat> {
    set k | m <= k < n && (w.answer(k) == SlowDown || w.answer(k) == Refused(Some(429)))
  }

  lemma {:induction false} SlowdownsCount(w: World, m: nat, n: nat)
    requires m <= n
    ensures Slowdowns(w, n) - Slowdowns(w, m) == |Slowed(w, m, n)|
    decreases n
  {
    if m == n {
      assert Slowed(w, m, n) == {};
    } else {
      SlowdownsCount(w, m, n - 1);
      OneMoreSlowdown(w, m, n - 1);
    }
  }

  lemma OneMoreSlowdown(w: World, m: nat, n: nat)
    requires m <= n
    ensures |Slowed(w, m, n + 1)| == |Slowed(w, m, n)| + if w.answer(n).Slows() then 1 else 0
  {
    assert Slowed(w, m, n + 1) == if w.answer(n).Slows() then Slowed(w, m, n) + {n} else Slowed(w, m, n);
  }

  /** Between two polls the interval grows by five seconds for every answer in between that slows down,
      up to the largest number; so it never shrinks. */
  lemma IntervalGrowsByFive(start: nat, w: World, m: nat, n: nat)
    requires start <= U64_MAX && m <= n
    ensures IntervalAt(start, w, n) == Min(IntervalAt(start, w, m) + 5 * |Slowed(w, m, n)|, U64_MAX)
    ensures IntervalAt(start, w, m) <= IntervalAt(start, w, n)
  {
    SlowdownsCount(w, m, n);
  }

  /** How long each poll waits: the device's interval, or a second if it gives none, and five seconds more for
      every earlier answer that slows down; no longer than fits 32 bits. */
  lemma WaitsMean(log: seq<Poll>, device: Device, start: int, unit: nat, w: World, k: nat)
    requires device.interval <= U64_MAX && Timed(log, device, start, unit, w) && k < |log|
    ensures var interval := (if device.interval == 0 then 1 else device.interval) + 5 * |Slowed(w, 0, k)|;
      log[k].wait == unit * if interval <= 4_294_967_295 then interval else 4_294_967_295
  {
    assert TimedAt(log, k, device, start, unit, w);
    IntervalGrowsByFive(First(device), w, 0, k);
  }

  /** All waits but the last fit in the remaining lifetime of the code. */
  lemma {:induction false} WaitsFitTheLifetime(log: seq<Poll>, device: Device, start: int, unit: nat, w: World)
    requires device.interval <= U64_MAX && Timed(log, device, start, unit, w) && log != []
    ensures start + Waited(log[..|log| - 1]) <= log[|log| - 1].began
    ensures start + Waited(log[..|log| - 1]) < 1000 * device.expiresAt
    decreases |log|
  {
    var before, last := log[..|log| - 1], log[|log| - 1];
    assert TimedAt(log, |log| - 1, device, start, unit, w);
    if before != [] {
      forall k | 0 <= k < |before| ensures TimedAt(before, k, device, start, unit, w) {
        assert TimedAt(log, k, device, start, unit, w);
      }
      WaitsFitTheLifetime(before, device, start, unit, w);
      assert TimedAt(log, |log| - 2, device, start, unit, w);
    }
  }

  /** Every poll but the last is sent before the code expires, and any poll is if and only if its wait, as
      slept, fits what is left when the wait begins. */
  lemma InTimeIffTheWaitFits(log: seq<Poll>, device: Device, start: int, unit: nat, w: World, k: nat)
    requires device.interval <= U64_MAX && Timed(log, device, start, unit, w) && k < |log|
    ensures Seconds(log[k].sent) < device.expiresAt <==>
      Wait(unit, IntervalAt(First(device), w, k)) + w.oversleep(k) < 1000 * device.expiresAt - log[k].began
    ensures k < |log| - 1 ==> Seconds(log[k].sent) < device.expiresAt
    // However late, it is by less than the one wait that was not checked.
    ensures log[k].sent < 1000 * device.expiresAt + Wait(unit, IntervalAt(First(device), w, k)) + w.oversleep(k)
  {
    assert TimedAt(log, k, device, start, unit, w);
    if k < |log| - 1 {
      assert TimedAt(log, k + 1, device, start, unit, w);
    }
  }

  /** For the first poll the caller knows all of this before it starts. */
  lemma FirstPollInTimeIff(log: seq<Poll>, device: Device, start: int, unit: nat, w: World)
    requires device.interval <= U64_MAX && Timed(log, device, start, unit, w) && log != []
    ensures Seconds(log[0].sent) < device.expiresAt <==>
      start + Wait(unit, First(device)) + w.oversleep(0) < 1000 * device.expiresAt
  {
    InTimeIffTheWaitFits(log, device, start, unit, w, 0);
    assert TimedAt(log, 0, device, start, unit, w);
  }

  /** The last wait is not checked against the expiry: with a code that lives one second and the usual
      five-second interval, the only poll is sent four seconds after the code expired. */
  method LatePoll() returns (outcome: Outcome, log: seq<Poll>)
    ensures outcome == SignedIn(7) && |log| == 1 && log[0].sent == 5000
  {
    var w := World(n => Approved(7), n => 0, n => 0);
    outcome, log := WaitForDevice(Device(5, 1), 0, 1000, w);
    assert !w.answer(0).Passing();
    assert IntervalAt(5, w, 0) == 5;
    assert TimedAt(log, 0, Device(5, 1), 0, 1000, w);
  }

  /** Sleeps and polls take no longer than they must. */
  ghost predicate Prompt(w: World) {
    forall n: nat :: w.oversleep(n) == 0 && w.latency(n) == 0
  }

  /** Even then a sign-in may succeed by a poll sent after the code expired: it can if and only if there is
      any time left when it starts. */
  lemma LateSignInIff(device: Device, start: int, unit: nat)
    requires device.interval <= U64_MAX && unit > 0
    ensures (exists w, log :: Prompt(w) && Polls(log, device, start, unit, w) && SignsInLate(log, device, w))
            <==> Seconds(start) < device.expiresAt
  {
    if w, log :| Prompt(w) && Polls(log, device, start, unit, w) && SignsInLate(log, device, w) {
      assert TimedAt(log, 0, device, start, unit, w);
    }
    if Seconds(start) < device.expiresAt {
      var wait := Wait(unit, First(device));
      var n := PassingPolls(start, wait, 1000 * device.expiresAt);
      PatientPolls(device, start, unit, n);
      assert Prompt(Patient(n));
    }
  }

  predicate SignsInLate(log: seq<Poll>, device: Device, w: World) {
    log != [] && w.answer(|log| - 1).Approved? && Seconds(log[|log| - 1].sent) >= device.expiresAt
  }

  /** Pending until the n-th poll, which is approved. */
  function Patient(n: nat): World {
    World(k => if k < n then Pending else Approved(7), k => 0, k => 0)
  }

  /** How many waits end before the code expires. */
  function PassingPolls(from: int, wait: nat, end: int): (n: nat)
    requires wait > 0 && from < end
    ensures from + n * wait < end <= from + n * wait + wait
    decreases end - from
  {
    if from + wait >= end then 0
    else
      var n := PassingPolls(from + wait, wait, end);
      assert (n + 1) * wait == n * wait + wait;
      n + 1
  }

  function PatientLog(start: int, wait: nat, n: nat): seq<Poll> {
    seq(n + 1, (k: nat) => Poll(start + k * wait, wait, start + k * wait + wait))
  }

  lemma {:induction false} PatientSlowdowns(n: nat, k: nat)
    requires k <= n
    ensures Slowdowns(Patient(n), k) == 0
  {
    if k > 0 {
      PatientSlowdowns(n, k - 1);
    }
  }

  lemma PatientPolls(device: Device, start: int, unit: nat, n: nat)
    requires device.interval <= U64_MAX && unit > 0 && Seconds(start) < device.expiresAt
    requires n == PassingPolls(start, Wait(unit, First(device)), 1000 * device.expiresAt)
    ensures var log := PatientLog(start, Wait(unit, First(device)), n);
      Polls(log, device, start, unit, Patient(n)) && SignsInLate(log, device, Patient(n))
  {
    var wait := Wait(unit, First(device));
    var log := PatientLog(start, wait, n);
    forall k | 0 <= k < |log| ensures TimedAt(log, k, device, start, unit, Patient(n)) {
      PatientSlowdowns(n, k);
      Stretches(k, n, wait);
      if k > 0 {
        assert k * wait == (k - 1) * wait + wait;
      }
    }
  }

  lemma Stretches(k: nat, n: nat, wait: nat)
    requires k <= n
    ensures k * wait <= n * wait
  {
  }

  // ---- Posting a form ---------------------------------------------------------------------------

  /** `NotConnected` is the one failure after which the request certainly was not applied. */
  datatype Sending = Answered(status: nat) | NotConnected | Lost

  datatype Posted = Accepted | RefusedWith(status: nat) | Transport

  predicate MayHaveBeenApplied(s: Sending) {
    !s.NotConnected?
  }

  /** `sends` is how each attempt would go; `slept` the pauses before the repeats. */
  method PostForm(sends: nat -> Sending) returns (result: Posted, tries: nat, slept: seq<nat>)
    ensures 1 <= tries <= 3 && slept == [200, 400][..tries - 1]
    ensures forall i :: 0 <= i < tries - 1 ==> sends(i) == NotConnected
    ensures result.Accepted? <==> sends(tries - 1).Answered? && 200 <= sends(tries - 1).status < 300
    ensures result.RefusedWith? ==> sends(tries - 1) == Answered(result.status)
    ensures result.Transport? ==> sends(tries - 1) == Lost || (tries == 3 && sends(2) == NotConnected)
  {
    var attempt := 0;
    slept := [];
    while true
      invariant 0 <= attempt <= 2 && slept == [200, 400][..attempt]
      invariant forall i :: 0 <= i < attempt ==> sends(i) == NotConnected
      decreases 2 - attempt
    {
      tries := attempt + 1;
      match sends(attempt)
      case Answered(status) =>
        return if 200 <= status < 300 then Accepted else RefusedWith(status), tries, slept;
      case NotConnected =>
        if attempt == 2 {
          return Transport, tries, slept;
        }
        attempt := attempt + 1;
        slept := slept + [200 * attempt];
      case Lost =>
        return Transport, tries, slept;
    }
  }

  /** However it goes, at most one attempt may have been applied: the last. */
  method PostFormAppliesOnce(sends: nat -> Sending) returns (tries: nat)
    ensures forall i, j ::
      0 <= i < tries && 0 <= j < tries && MayHaveBeenApplied(sends(i)) && MayHaveBeenApplied(sends(j)) ==> i == j
  {
    var result, slept;
    result, tries, slept := PostForm(sends);
  }
}
