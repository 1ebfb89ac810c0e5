/**
The lifecycle of API versions. Three writers change one table: the operator deprecates a version in
favour of an active successor, every request records itself, and a worker retires what has been quiet
for seven days. Each of them works in one transaction that locks the rows it changes.

Times are seconds of the database clock.
*/
module ApiContracts {
  import opened Wrappers

  /** An API version's name, only compared. */
  type Version = int

  const QUIET_SECONDS := 7 * 86_400

  datatype State = Active | Deprecated | Sunset

  datatype Contract = Contract(state: State, successor: Option<Version>, deprecatedAt: Option<int>,
                               lastRequestAt: Option<int>, sunsetAt: Option<int>)
  {
    /** The start of the quiet period; NULLs count for nothing in GREATEST. */
    function QuietSince(): Option<int> {
      if lastRequestAt.None? then deprecatedAt
      else if deprecatedAt.None? || deprecatedAt.value <= lastRequestAt.value then lastRequestAt
      else deprecatedAt
    }

    function Retired(now: int): Contract {
      this.(state := Sunset, sunsetAt := Some(now))
    }
  }

  type Table = map<Version, Contract>

  predicate IsActive(rows: Table, version: Version) {
    version in rows && rows[version].state == Active
  }

  predicate Due(rows: Table, version: Version, now: int) {
    && version in rows && rows[version].state == Deprecated
    && rows[version].QuietSince().Some? && rows[version].QuietSince().value <= now - QUIET_SECONDS
    && rows[version].successor.Some? && IsActive(rows, rows[version].successor.value)
  }

  function Retire(rows: Table, due: set<Version>, now: int): Table {
    map version | version in rows ::
      if version in due && Due(rows, version, now) then rows[version].Retired(now) else rows[version]
  }

  function SunsetAll(rows: Table, now: int): Table {
    Retire(rows, rows.Keys, now)
  }

  datatype Answer = Unsupported | Gone | Served(state: State)

  function Request(rows: Table, version: Version, now: int): (Table, Answer) {
    if version !in rows then (rows, Unsupported)
    else if Due(rows, version, now) then (rows[version := rows[version].Retired(now)], Gone)
    else if rows[version].state == Sunset then (rows, Gone)
    else (rows[version := rows[version].(lastRequestAt := Some(now))], Served(rows[version].state))
  }

  /** The deprecating statement when its look at the successor may be older than the rows it changes: the
      row of the successor is read without a lock. */
  function DeprecateSeeing(rows: Table, seen: Table, version: Version, successor: Version, now: int): (Table, bool) {
    if version == successor || version !in rows || rows[version].state == Sunset || !IsActive(seen, successor)
    then (rows, false)
    else
      var deprecatedAt := if rows[version].deprecatedAt.Some? then rows[version].deprecatedAt else Some(now);
      (rows[version := rows[version].(state := Deprecated, successor := Some(successor),
                                      deprecatedAt := deprecatedAt)], true)
  }

  function Deprecate(rows: Table, version: Version, successor: Version, now: int): (Table, bool) {
    DeprecateSeeing(rows, rows, version, successor, now)
  }

  // ---- What each operation means for a row ------------------------------------------------------

  /** A version is due when it is deprecated, its successor is active, and seven days have passed since
      both its deprecation and its last request, one of which is known. */
  lemma DueMeans(rows: Table, version: Version, now: int)
    ensures Due(rows, version, now) <==>
      && version in rows && rows[version].state == Deprecated
      && rows[version].successor.Some? && rows[version].successor.value in rows
      && rows[rows[version].successor.value].state == Active
      && (rows[version].deprecatedAt.Some? || rows[version].lastRequestAt.Some?)
      && (rows[version].deprecatedAt.Some? ==> rows[version].deprecatedAt.value + 604_800 <= now)
      && (rows[version].lastRequestAt.Some? ==> rows[version].lastRequestAt.value + 604_800 <= now)
  {
  }

  /** Nothing but the two fields that say a row is retired, and when, has changed. */
  predicate RetiredAt(before: Contract, after: Contract, now: int) {
    && after.state == Sunset && after.sunsetAt == Some(now)
    && after.successor == before.successor && after.deprecatedAt == before.deprecatedAt
    && after.lastRequestAt == before.lastRequestAt
  }

  lemma SunsetAllMeans(rows: Table, now: int)
    ensures var after := SunsetAll(rows, now);
      && after.Keys == rows.Keys
      && forall v :: v in rows ==> if Due(rows, v, now) then RetiredAt(rows[v], after[v], now) else after[v] == rows[v]
  {
  }

  /** A request is unsupported, served in the state of its version, or told that the version is gone; it
      leaves its time on a version it is served on, and retires one that is due. */
  lemma RequestMeans(rows: Table, version: Version, now: int)
    ensures var (after, answer) := Request(rows, version, now);
      && (answer == Unsupported <==> version !in rows)
      && (answer.Served? <==> version in rows && rows[version].state != Sunset && !Due(rows, version, now))
      && after.Keys == rows.Keys && (forall v :: v in rows && v != version ==> after[v] == rows[v])
      && (answer == Unsupported ==> after == rows)
      && (answer.Served? ==>
            && answer.state == rows[version].state == after[version].state
            && after[version].lastRequestAt == Some(now)
            && after[version].successor == rows[version].successor
            && after[version].deprecatedAt == rows[version].deprecatedAt
            && after[version].sunsetAt == rows[version].sunsetAt)
      && (answer == Gone ==>
            if rows[version].state == Sunset then after[version] == rows[version]
            else RetiredAt(rows[version], after[version], now))
  {
  }

  /** A version that is not sunset is deprecated in favour of another one that was seen active; its first
      deprecation time stays. */
  lemma DeprecateMeans(rows: Table, seen: Table, version: Version, successor: Version, now: int)
    ensures var (after, ok) := DeprecateSeeing(rows, seen, version, successor, now);
      && (ok <==> version != successor && version in rows && rows[version].state in {Active, Deprecated}
                  && successor in seen && seen[successor].state == Active)
      && (!ok ==> after == rows)
      && after.Keys == rows.Keys && (forall v :: v in rows && v != version ==> after[v] == rows[v])
      && (ok ==>
            && after[version].state == Deprecated && after[version].successor == Some(successor)
            && (rows[version].deprecatedAt == None ==> after[version].deprecatedAt == Some(now))
            && (rows[version].deprecatedAt != None ==> after[version].deprecatedAt == rows[version].deprecatedAt)
            && after[version].lastRequestAt == rows[version].lastRequestAt
            && after[version].sunsetAt == rows[version].sunsetAt)
      && Deprecate(rows, version, successor, now) == DeprecateSeeing(rows, rows, version, successor, now)
  {
  }

  class Contracts {
    var rows: Table

    constructor (rows: Table)
      ensures this.rows == rows
    {
      this.rows := rows;
    }

    /** The worker: one statement over every row, all conditions read before any row changes. */
    method SunsetContracts(now: int) returns (affected: nat)
      modifies this
      ensures rows == SunsetAll(old(rows), now)
      ensures affected == |set version | version in old(rows) && Due(old(rows), version, now)|
      ensures rows.Keys == old(rows).Keys && (old(Acyclic(rows)) ==> Acyclic(rows))
    {
      if Acyclic(rows) {
        StepKeepsAcyclic(World(rows, now, []), Worker);
      }
      var due := set version | version in rows && Due(rows, version, now);
      rows := map version | version in rows :: if version in due then rows[version].Retired(now) else rows[version];
      affected := |due|;
    }

    method ContractRequest(version: Version, now: int) returns (answer: Answer)
      modifies this
      ensures (rows, answer) == Request(old(rows), version, now)
      ensures rows.Keys == old(rows).Keys && (old(Acyclic(rows)) ==> Acyclic(rows))
    {
      if Acyclic(rows) {
        StepKeepsAcyclic(World(rows, now, []), Ask(version));
      }
      if version !in rows {
        return Unsupported;
      }
      var state := rows[version].state;
      if state == Deprecated {
        var sunset := Due(rows, version, now);
        if sunset {
          rows := rows[version := rows[version].(state := Sunset, sunsetAt := Some(now))];
          state := Sunset;
        }
      }
      if state != Sunset {
        rows := rows[version := rows[version].(lastRequestAt := Some(now))];
      }
      answer := if state == Sunset then Gone else Served(state);
    }

    method DeprecateVersion(version: Version, successor: Version, now: int) returns (ok: bool)
      modifies this
      ensures (rows, ok) == Deprecate(old(rows), version, successor, now)
      ensures rows.Keys == old(rows).Keys && (old(Acyclic(rows)) ==> Acyclic(rows))
    {
      if Acyclic(rows) {
        DeprecateKeepsAcyclic(rows, version, successor, now);
      }
      if version == successor {
        return false;
      }
      if version in rows && rows[version].state in {Active, Deprecated} && IsActive(rows, successor) {
        var contract := rows[version];
        if contract.deprecatedAt.None? {
          contract := contract.(deprecatedAt := Some(now));
        }
        rows := rows[version := contract.(state := Deprecated, successor := Some(successor))];
        return true;
      }
      ok := false;
    }
  }

  // ---- The worker against requests, and against itself ----------------------------------------

  /** A worker pass just before a request, at the same instant, changes neither the answer nor the
      row of that request. */
  lemma WorkerFirstChangesNothing(rows: Table, version: Version, now: int)
    ensures Request(SunsetAll(rows, now), version, now).1 == Request(rows, version, now).1
    ensures version in rows ==>
              Request(SunsetAll(rows, now), version, now).0[version] == Request(rows, version, now).0[version]
  {
    var swept := SunsetAll(rows, now);
    if version in rows && rows[version].state == Deprecated && !Due(rows, version, now) {
      assert swept[version] == rows[version];
      if rows[version].successor.Some? {
        assert IsActive(swept, rows[version].successor.value) <==> IsActive(rows, rows[version].successor.value);
      }
    }
  }

  function SunsetOne(rows: Table, version: Version, now: int): Table {
    if Due(rows, version, now) then rows[version := rows[version].Retired(now)] else rows
  }

  function SunsetEach(rows: Table, order: seq<Version>, now: int): Table {
    if order == [] then rows else SunsetEach(SunsetOne(rows, order[0], now), order[1..], now)
  }

  lemma RetireOneMore(rows: Table, done: set<Version>, version: Version, now: int)
    ensures SunsetOne(Retire(rows, done, now), version, now) == Retire(rows, done + {version}, now)
  {
    var some := Retire(rows, done, now);
    if version in rows {
      if rows[version].successor.Some? {
        assert IsActive(some, rows[version].successor.value) <==> IsActive(rows, rows[version].successor.value);
      }
      assert Due(some, version, now) <==> Due(rows, version, now) && version !in done;
    }
  }

  lemma {:induction false} SunsetEachRetires(rows: Table, done: set<Version>, order: seq<Version>, now: int)
    ensures SunsetEach(Retire(rows, done, now), order, now) == Retire(rows, done + (set v | v in order), now)
    decreases |order|
  {
    if order == [] {
      assert done + (set v | v in order) == done;
    } else {
      RetireOneMore(rows, done, order[0], now);
      SunsetEachRetires(rows, done + {order[0]}, order[1..], now);
      assert done + {order[0]} + (set v | v in order[1..]) == done + (set v | v in order) by {
        assert order == [order[0]] + order[1..];
      }
    }
  }

  /** The one statement does what retiring row by row would do, in any order. */
  lemma BatchIsRowByRow(rows: Table, order: seq<Version>, now: int)
    requires rows.Keys <= set v | v in order
    ensures SunsetEach(rows, order, now) == SunsetAll(rows, now)
  {
    assert Retire(rows, {}, now) == rows;
    SunsetEachRetires(rows, {}, order, now);
    assert Retire(rows, {} + (set v | v in order), now) == Retire(rows, rows.Keys, now);
  }

  // ---- Runs -----------------------------------------------------------------------------------

  /** The table under its writers, with every request that was served (a history variable). */
  datatype World = World(rows: Table, now: int, served: seq<(Version, int)>)

  datatype Step = Wait(seconds: nat) | Worker | Ask(version: Version) | Supersede(version: Version, successor: Version)

  function Next(w: World, step: Step): World {
    match step
    case Wait(seconds) => w.(now := w.now + seconds)
    case Worker => w.(rows := SunsetAll(w.rows, w.now))
    case Ask(version) =>
      var (rows, answer) := Request(w.rows, version, w.now);
      w.(rows := rows, served := if answer.Served? then w.served + [(version, w.now)] else w.served)
    case Supersede(version, successor) => w.(rows := Deprecate(w.rows, version, successor, w.now).0)
  }

  /** Time passes only by waiting; each other step is its operation on the table, and a request that is
      served is remembered with its time. */
  lemma NextMeans(w: World, seconds: nat, version: Version, successor: Version)
    ensures Next(w, Wait(seconds)) == World(w.rows, w.now + seconds, w.served)
    ensures Next(w, Worker) == World(SunsetAll(w.rows, w.now), w.now, w.served)
    ensures var (rows, answer) := Request(w.rows, version, w.now);
      && Next(w, Ask(version)).rows == rows && Next(w, Ask(version)).now == w.now
      && (answer.Served? ==> Next(w, Ask(version)).served == w.served + [(version, w.now)])
      && (!answer.Served? ==> Next(w, Ask(version)).served == w.served)
    ensures Next(w, Supersede(version, successor))
            == World(Deprecate(w.rows, version, successor, w.now).0, w.now, w.served)
  {
  }

  function Run(w: World, steps: seq<Step>): World
    decreases |steps|
  {
    if steps == [] then w else Run(Next(w, steps[0]), steps[1..])
  }

  /** Before any operator action: active versions without successors, no request yet. */
  predicate Initial(w: World) {
    w.served == [] && forall v :: v in w.rows ==> w.rows[v] == Contract(Active, None, None, None, None)
  }

  /** Every link out of a version that is not active leads to a version of smaller rank. */
  ghost predicate Ranked(rows: Table, rank: map<Version, nat>) {
    && rank.Keys == rows.Keys
    && forall v :: v in rows && rows[v].state != Active ==>
         rows[v].successor.Some? && rows[v].successor.value in rows && rank[rows[v].successor.value] < rank[v]
  }

  ghost predicate Acyclic(rows: Table) {
    exists rank: map<Version, nat> :: Ranked(rows, rank)
  }

  /** Requests are remembered by their row; a retired row was quiet for the whole period. */
  ghost predicate RequestsRemembered(w: World) {
    && (forall i :: 0 <= i < |w.served| ==>
          var (v, at) := w.served[i];
          v in w.rows && w.rows[v].lastRequestAt.Some? && at <= w.rows[v].lastRequestAt.value)
    && (forall v :: v in w.rows && w.rows[v].lastRequestAt.Some? ==> w.rows[v].lastRequestAt.value <= w.now)
    && (forall v :: v in w.rows && w.rows[v].deprecatedAt.Some? ==> w.rows[v].deprecatedAt.value <= w.now)
    && (forall v :: v in w.rows && w.rows[v].state != Active ==> w.rows[v].deprecatedAt.Some?)
    && (forall v :: v in w.rows && w.rows[v].state == Sunset ==>
          w.rows[v].sunsetAt.Some? && w.rows[v].QuietSince().value + QUIET_SECONDS <= w.rows[v].sunsetAt.value)
  }

  ghost predicate Inv(w: World) {
    Acyclic(w.rows) && RequestsRemembered(w)
  }

  lemma DeprecateKeepsAcyclic(rows: Table, version: Version, successor: Version, now: int)
    requires Acyclic(rows)
    ensures Acyclic(Deprecate(rows, version, successor, now).0)
  {
    var rank: map<Version, nat> :| Ranked(rows, rank);
    var (rows', ok) := Deprecate(rows, version, successor, now);
    if ok {
      // The successor is active: put it below everything else.
      var lifted: map<Version, nat> := map v | v in rows :: if v == successor then 0 else rank[v] + 1;
      assert Ranked(rows', lifted);
    }
  }

  lemma StepKeepsAcyclic(w: World, step: Step)
    requires Acyclic(w.rows)
    ensures Acyclic(Next(w, step).rows)
  {
    match step
    case Supersede(version, successor) => DeprecateKeepsAcyclic(w.rows, version, successor, w.now);
    case _ =>
      var rank: map<Version, nat> :| Ranked(w.rows, rank);
      assert Ranked(Next(w, step).rows, rank);
  }

  lemma AskKeepsRequests(w: World, version: Version)
    requires RequestsRemembered(w)
    ensures RequestsRemembered(Next(w, Ask(version)))
  {
  }

  lemma SupersedeKeepsRequests(w: World, version: Version, successor: Version)
    requires RequestsRemembered(w)
    ensures RequestsRemembered(Next(w, Supersede(version, successor)))
  {
  }

  lemma WorkerKeepsRequests(w: World)
    requires RequestsRemembered(w)
    ensures RequestsRemembered(Next(w, Worker))
  {
  }

  lemma StepKeepsInv(w: World, step: Step)
    requires Inv(w)
    ensures Inv(Next(w, step))
  {
    StepKeepsAcyclic(w, step);
    match step
    case Ask(version) => AskKeepsRequests(w, version);
    case Supersede(version, successor) => SupersedeKeepsRequests(w, version, successor);
    case Worker => WorkerKeepsRequests(w);
    case Wait(_) =>
  }

  lemma {:induction false} RunKeepsInv(w: World, steps: seq<Step>)
    requires Inv(w)
    ensures Inv(Run(w, steps))
    decreases |steps|
  {
    if steps != [] {
      StepKeepsInv(w, steps[0]);
      RunKeepsInv(Next(w, steps[0]), steps[1..]);
    }
  }

  lemma InitialKeepsInv(w: World)
    requires Initial(w)
    ensures Inv(w)
  {
    assert Ranked(w.rows, map v | v in w.rows :: 0);
  }

  // ---- Successors lead to an active version ---------------------------------------------------

  /** Follows `n` successor links, stopping at an active version. */
  function Follow(rows: Table, version: Version, n: nat): Version
    decreases n
  {
    if n == 0 || version !in rows || rows[version].state == Active || rows[version].successor.None? then version
    else Follow(rows, rows[version].successor.value, n - 1)
  }

  ghost predicate LeadsToActive(rows: Table, version: Version, n: nat) {
    && IsActive(rows, Follow(rows, version, n))
    && forall i, j :: 0 <= i < j <= n ==> Follow(rows, version, i) != Follow(rows, version, j)
  }

  lemma {:induction false} FollowedRanksFall(rows: Table, rank: map<Version, nat>, version: Version, i: nat)
    requires Ranked(rows, rank) && version in rows
    ensures Follow(rows, version, i) in rows && rank[Follow(rows, version, i)] <= rank[version]
    ensures i > 0 && rows[version].state != Active ==> rank[Follow(rows, version, i)] < rank[version]
    decreases i
  {
    if i > 0 && rows[version].state != Active {
      FollowedRanksFall(rows, rank, rows[version].successor.value, i - 1);
    }
  }

  lemma {:induction false} RankedLeadsToActive(rows: Table, rank: map<Version, nat>, version: Version) returns (n: nat)
    requires Ranked(rows, rank) && version in rows
    ensures LeadsToActive(rows, version, n)
    decreases rank[version]
  {
    if rows[version].state == Active {
      n := 0;
    } else {
      var next := rows[version].successor.value;
      var m := RankedLeadsToActive(rows, rank, next);
      n := m + 1;
      forall i, j | 0 <= i < j <= n ensures Follow(rows, version, i) != Follow(rows, version, j) {
        FollowedRanksFall(rows, rank, version, j);
        if i > 0 {
          assert Follow(rows, version, i) == Follow(rows, next, i - 1);
          assert Follow(rows, version, j) == Follow(rows, next, j - 1);
        }
      }
    }
  }

  /** After every sequence of operator, request and worker steps, the successor links from any version
      never come back on themselves and end at an active version. So one version always is active. */
  lemma SuccessorsEndActive(w: World, steps: seq<Step>, version: Version)
    requires Initial(w) && version in w.rows
    ensures exists n :: LeadsToActive(Run(w, steps).rows, version, n)
    ensures exists v :: IsActive(Run(w, steps).rows, v)
  {
    InitialKeepsInv(w);
    RunKeepsInv(w, steps);
    RunKeepsVersions(w, steps);
    var rows := Run(w, steps).rows;
    var rank: map<Version, nat> :| Ranked(rows, rank);
    var n := RankedLeadsToActive(rows, rank, version);
    assert IsActive(rows, Follow(rows, version, n));
  }

  lemma {:induction false} RunKeepsVersions(w: World, steps: seq<Step>)
    ensures Run(w, steps).rows.Keys == w.rows.Keys
    decreases |steps|
  {
    if steps != [] {
      assert Next(w, steps[0]).rows.Keys == w.rows.Keys;
      RunKeepsVersions(Next(w, steps[0]), steps[1..]);
    }
  }

  // ---- Two operators at once --------------------------------------------------------------------

  /** Two commands that name each other's version and start together leave no version active, and the
      links between the two go round. */
  lemma DeprecatingEachOtherMayCycle(a: Version, b: Version, now: int)
    requires a != b
    ensures var plain := Contract(Active, None, None, None, None);
      var rows := map[a := plain, b := plain];
      var first := DeprecateSeeing(rows, rows, a, b, now);
      var second := DeprecateSeeing(first.0, rows, b, a, now);
      first.1 && second.1 && !Acyclic(second.0) && forall v :: !IsActive(second.0, v)
  {
    var plain := Contract(Active, None, None, None, None);
    var rows := map[a := plain, b := plain];
    var both := DeprecateSeeing(DeprecateSeeing(rows, rows, a, b, now).0, rows, b, a, now).0;
    assert both[a].successor == Some(b) && both[b].successor == Some(a);
    forall rank: map<Version, nat> ensures !Ranked(both, rank) {
      assert a in both && b in both;
    }
  }

  /** Some number of successor links leads from one version to the other. */
  ghost predicate Reaches(rows: Table, from: Version, to: Version) {
    exists n: nat :: Follow(rows, from, n) == to
  }

  lemma {:induction false} FollowOneMore(rows: Table, from: Version, n: nat)
    ensures var v := Follow(rows, from, n);
      v in rows && rows[v].state != Active && rows[v].successor.Some? ==>
        Follow(rows, from, n + 1) == rows[v].successor.value
    decreases n
  {
    if n > 0 && from in rows && rows[from].state != Active && rows[from].successor.Some? {
      FollowOneMore(rows, rows[from].successor.value, n - 1);
    }
  }

  /** A new link to a version that does not lead back leaves the links acyclic: what the successor leads
      to keeps its rank, everything else is lifted above the successor. */
  lemma NoWayBackIsEnough(rows: Table, seen: Table, version: Version, successor: Version, now: int)
    requires Acyclic(rows) && successor in rows && !Reaches(rows, successor, version)
    ensures Acyclic(DeprecateSeeing(rows, seen, version, successor, now).0)
  {
    var (rows', ok) := DeprecateSeeing(rows, seen, version, successor, now);
    if ok {
      var rank: map<Version, nat> :| Ranked(rows, rank);
      var lift := rank[successor] + 1;
      var lifted: map<Version, nat> :=
        map v | v in rows :: if Reaches(rows, successor, v) then rank[v] else rank[v] + lift;
      assert Follow(rows, successor, 0) == successor;
      assert Reaches(rows, successor, successor);
      forall v | v in rows' && rows'[v].state != Active
        ensures rows'[v].successor.Some? && rows'[v].successor.value in rows'
                && lifted[rows'[v].successor.value] < lifted[v]
      {
        if v == version {
          RankFallsAlong(rows, rank, successor, successor);
        } else {
          LiftedFalls(rows, rank, lifted, lift, successor, v);
        }
      }
      assert Ranked(rows', lifted);
    }
  }

  lemma RankFallsAlong(rows: Table, rank: map<Version, nat>, from: Version, to: Version)
    requires Ranked(rows, rank) && from in rows && Reaches(rows, from, to)
    ensures to in rows && rank[to] <= rank[from]
  {
    var n: nat :| Follow(rows, from, n) == to;
    FollowedRanksFall(rows, rank, from, n);
  }

  lemma LiftedFalls(rows: Table, rank: map<Version, nat>, lifted: map<Version, nat>, lift: nat,
                    successor: Version, v: Version)
    requires Ranked(rows, rank) && successor in rows && lift == rank[successor] + 1
    requires lifted.Keys == rows.Keys
    requires forall x :: x in rows ==> lifted[x] == if Reaches(rows, successor, x) then rank[x] else rank[x] + lift
    requires v in rows && rows[v].state != Active
    ensures lifted[rows[v].successor.value] < lifted[v]
  {
    var next := rows[v].successor.value;
    if Reaches(rows, successor, v) {
      var n: nat :| Follow(rows, successor, n) == v;
      FollowOneMore(rows, successor, n);
      assert Follow(rows, successor, n + 1) == next;
    }
  }

  /** With a new link from `version`, every version that led to it still ranks at least as high. */
  lemma {:induction false} StillLeadsBack(rows: Table, rows': Table, rank: map<Version, nat>, version: Version,
                                          from: Version, n: nat)
    requires Ranked(rows', rank) && from in rows' && Follow(rows, from, n) == version
    requires version in rows' && rows'.Keys == rows.Keys
    requires forall v :: v in rows && v != version ==> rows'[v] == rows[v]
    ensures rank[version] <= rank[from]
    decreases n
  {
    if from != version {
      StillLeadsBack(rows, rows', rank, version, rows[from].successor.value, n - 1);
    }
  }

  /** When an overlapping command goes through, the links stay acyclic if and only if the successor does
      not lead back to the version at the moment the row changes. */
  lemma AcyclicIffNoWayBack(rows: Table, seen: Table, version: Version, successor: Version, now: int)
    requires Acyclic(rows) && successor in rows && DeprecateSeeing(rows, seen, version, successor, now).1
    ensures Acyclic(DeprecateSeeing(rows, seen, version, successor, now).0) <==> !Reaches(rows, successor, version)
  {
    var rows' := DeprecateSeeing(rows, seen, version, successor, now).0;
    if !Reaches(rows, successor, version) {
      NoWayBackIsEnough(rows, seen, version, successor, now);
    } else {
      var n: nat :| Follow(rows, successor, n) == version;
      forall rank: map<Version, nat> ensures !Ranked(rows', rank) {
        if Ranked(rows', rank) {
          StillLeadsBack(rows, rows', rank, version, successor, n);
        }
      }
    }
  }

  /** In particular they do as long as the successor is still active when the row changes. */
  lemma StillActiveIsEnough(rows: Table, seen: Table, version: Version, successor: Version, now: int)
    requires Acyclic(rows) && IsActive(rows, successor)
    ensures Acyclic(DeprecateSeeing(rows, seen, version, successor, now).0)
  {
    if DeprecateSeeing(rows, seen, version, successor, now).1 {
      forall n: nat ensures Follow(rows, successor, n) == successor {
      }
      AcyclicIffNoWayBack(rows, seen, version, successor, now);
    }
  }

  // ---- Sunset -----------------------------------------------------------------------------------

  predicate InState(rows: Table, version: Version, state: State) {
    version in rows && rows[version].state == state
  }

  /** A step that retires a version finds it deprecated for seven full days, its successor active, and
      no request served in those days. */
  lemma SunsetNeedsQuiet(w: World, steps: seq<Step>, step: Step, version: Version)
    requires Initial(w)
    requires !InState(Run(w, steps).rows, version, Sunset)
    requires InState(Next(Run(w, steps), step).rows, version, Sunset)
    ensures var s := Run(w, steps);
            && InState(s.rows, version, Deprecated)
            && s.rows[version].deprecatedAt.Some? && s.rows[version].deprecatedAt.value + QUIET_SECONDS <= s.now
            && s.rows[version].successor.Some? && IsActive(s.rows, s.rows[version].successor.value)
            && forall i :: 0 <= i < |s.served| && s.served[i].0 == version ==> s.served[i].1 + QUIET_SECONDS <= s.now
  {
    InitialKeepsInv(w);
    RunKeepsInv(w, steps);
  }

  /** Sunset is final: the row never changes again and no later request is served. */
  lemma {:induction false} SunsetIsFinal(w: World, steps: seq<Step>, version: Version)
    requires version in w.rows && w.rows[version].state == Sunset
    ensures version in Run(w, steps).rows && Run(w, steps).rows[version] == w.rows[version]
    ensures Request(Run(w, steps).rows, version, Run(w, steps).now).1 == Gone
    decreases |steps|
  {
    if steps != [] {
      SunsetIsFinal(Next(w, steps[0]), steps[1..], version);
    }
  }
}
