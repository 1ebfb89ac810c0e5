/**
The one-time cutover of the native host to Silicon Accounts: effectful steps that may each fail before
or after taking effect, and the rollback that answers any failure. `Host` is what the steps change.
*/
module Cutover {
  type Path = int
  type Bytes = int
  type Contents = int
  type Database = int

  const LIVE: Database := 0

  datatype Fault = Fine | Before | After

  datatype Step =
    | StopApi | WriteEnv | WriteUnit | MakeLink | MoveLink | DropLink | Reload | Prepare | Migrate | LinkAccounts
    | ClearFailure | StartApi | LocalReady | PublicReady
    | UndoStop | UndoMakeLink | UndoMoveLink | UndoDropLink | UndoEnv | UndoUnit | UndoReload
    | UndoDisconnect | UndoRename | UndoCreate | UndoLoad
    | UndoClearFailure | UndoStart | UndoLocalReady | UndoPublicReady

  /** What goes wrong at each step, and what the live database holds after the steps that write it. */
  datatype Plan = Plan(fault: Step -> Fault, written: Step -> Contents)

  datatype Outcome = Done | Failed(rolledBack: bool)

  /** The steps of the first half: nothing of the database is touched yet. */
  predicate Prepares(s: Step) {
    || s.StopApi? || s.WriteEnv? || s.WriteUnit? || s.MakeLink? || s.MoveLink? || s.DropLink? || s.Reload? || s.Prepare?
  }

  /** Every step before the failure handler, linking the earlier data only when there is a mapping. */
  predicate Forwards(s: Step, mapped: bool) {
    || Prepares(s) || s.Migrate? || (mapped && s.LinkAccounts?)
    || s.ClearFailure? || s.StartApi? || s.LocalReady? || s.PublicReady?
  }

  /** The last step that wrote the live database, when it is touched. */
  function LastWriter(plan: Plan, mapped: bool): Step {
    if !plan.fault(Migrate).Fine? then Migrate
    else
      var linked := if mapped then LinkAccounts else Migrate;
      if (mapped && !plan.fault(LinkAccounts).Fine?) || !plan.fault(ClearFailure).Fine? || plan.fault(StartApi).Before?
      then linked else StartApi
  }

  predicate UndoesFiles(s: Step) {
    s.UndoMakeLink? || s.UndoMoveLink? || s.UndoDropLink? || s.UndoEnv? || s.UndoUnit? || s.UndoReload?
  }

  predicate UndoesDatabase(s: Step) {
    s.UndoDisconnect? || s.UndoRename? || s.UndoCreate? || s.UndoLoad?
  }

  predicate UndoesService(s: Step, touched: bool) {
    s.UndoClearFailure? || s.UndoStart? || s.UndoLocalReady? || s.UndoPublicReady? || (touched && UndoesDatabase(s))
  }

  predicate LinkRestored(plan: Plan) {
    plan.fault(UndoMakeLink).Fine? && plan.fault(UndoMoveLink).Fine? && plan.fault(UndoDropLink).Fine?
  }

  /** The handler gets from the database, if it was touched, to starting the API. */
  predicate Restarts(touched: bool, free: bool, plan: Plan) {
    && (touched ==> free && forall s :: UndoesDatabase(s) ==> plan.fault(s).Fine?)
    && plan.fault(UndoClearFailure).Fine? && !plan.fault(UndoStart).Before?
  }

  /** The steps of the handler that must succeed for it to reach its end. */
  predicate Undo(s: Step, touched: bool) {
    UndoesFiles(s) || UndoesService(s, touched)
  }

  /** Removing the temporary link fails while it stands. */
  predicate SwitchLitters(make: Fault, move: Fault, drop: Fault) {
    drop.Before? && (make.After? || (make.Fine? && move.Before?))
  }

  /** The forward switch is reached. */
  predicate Written(plan: Plan) {
    plan.fault(StopApi).Fine? && plan.fault(WriteEnv).Fine? && plan.fault(WriteUnit).Fine?
  }

  /** The forward switch is reached and leaves its temporary link behind. */
  predicate ForwardLitters(plan: Plan) {
    Written(plan) && SwitchLitters(plan.fault(MakeLink), plan.fault(MoveLink), plan.fault(DropLink))
  }

  class Host {
    var link: Path
    /** Whether a `.current-upgrade` entry stands beside the release link. */
    var leftover: bool
    var env: Bytes
    var unit: Bytes
    var running: bool
    var databases: map<Database, Contents>

    /** The file is replaced by a complete new one or not at all. */
    method WriteEnvFile(data: Bytes, fault: Fault) returns (ok: bool)
      modifies this`env
      ensures ok == fault.Fine? && env == if fault.Before? then old(env) else data
    {
      if fault.Before? {
        return false;
      }
      env := data;
      return fault.Fine?;
    }

    method WriteUnitFile(data: Bytes, fault: Fault) returns (ok: bool)
      modifies this`unit
      ensures ok == fault.Fine? && unit == if fault.Before? then old(unit) else data
    {
      if fault.Before? {
        return false;
      }
      unit := data;
      return fault.Fine?;
    }

    /** Points the release link at `target` through a temporary link, which is removed on every way out. */
    method SwitchCurrent(target: Path, make: Fault, move: Fault, drop: Fault) returns (ok: bool)
      modifies this`link, this`leftover
      ensures link == if !old(leftover) && make.Fine? && !move.Before? then target else old(link)
      ensures ok ==> link == target && !leftover
      ensures ok <==> !old(leftover) && make.Fine? && move.Fine? && drop.Fine?
      ensures leftover == (old(leftover) || SwitchLitters(make, move, drop))
      ensures leftover ==> link == old(link)
    {
      if leftover {
        return false;
      }
      ok := true;
      if make.Before? {
        ok := false;
      } else {
        leftover := true;
        ok := make.Fine?;
      }
      if ok {
        if move.Before? {
          ok := false;
        } else {
          link, leftover := target, false;
          ok := move.Fine?;
        }
      }
      if drop.Before? {
        ok := false;
      } else {
        leftover := false;
        ok := ok && drop.Fine?;
      }
    }

    /** Renames the live database away, creates an empty one and loads the dump into it. */
    method RestoreDatabase(dump: Contents, kept: Database, plan: Plan) returns (ok: bool)
      requires LIVE in databases && kept != LIVE
      modifies this`databases
      ensures ok ==> databases == old(databases)[kept := old(databases)[LIVE]][LIVE := dump]
      ensures ok <==> kept !in old(databases) && forall s :: UndoesDatabase(s) ==> plan.fault(s).Fine?
      // As far as it gets: nothing, the name moved, an empty database in its place, the dump in it.
      ensures
        var renames := kept !in old(databases) && plan.fault(UndoDisconnect).Fine? && !plan.fault(UndoRename).Before?;
        var creates := renames && plan.fault(UndoRename).Fine? && !plan.fault(UndoCreate).Before?;
        var loads := creates && plan.fault(UndoCreate).Fine? && !plan.fault(UndoLoad).Before?;
        var moved := (old(databases) - {LIVE})[kept := old(databases)[LIVE]];
        databases == if loads then moved[LIVE := dump] else if creates then moved[LIVE := plan.written(UndoCreate)]
                     else if renames then moved else old(databases)
      ensures forall d :: d in old(databases) && d != LIVE ==> d in databases && databases[d] == old(databases)[d]
      ensures (LIVE in databases && databases[LIVE] == old(databases)[LIVE])
              || (kept in databases && databases[kept] == old(databases)[LIVE])
    {
      if !plan.fault(UndoDisconnect).Fine? {
        return false;
      }
      if kept in databases || plan.fault(UndoRename).Before? {
        return false;
      }
      databases := (databases - {LIVE})[kept := databases[LIVE]];
      if !plan.fault(UndoRename).Fine? || plan.fault(UndoCreate).Before? {
        return false;
      }
      databases := databases[LIVE := plan.written(UndoCreate)];
      if !plan.fault(UndoCreate).Fine? || plan.fault(UndoLoad).Before? {
        return false;
      }
      databases := databases[LIVE := dump];
      return plan.fault(UndoLoad).Fine?;
    }

    /** Stops the API and puts the new files and link in place. */
    method SwitchRelease(release: Path, newEnv: Bytes, newUnit: Bytes, plan: Plan) returns (ok: bool)
      modifies this`link, this`leftover, this`env, this`unit, this`running
      ensures ok <==> !old(leftover) && forall s :: Prepares(s) ==> plan.fault(s).Fine?
      // As far as it gets: the API, then the environment, the unit and the link.
      ensures running == (plan.fault(StopApi).Before? && old(running))
      ensures env == if plan.fault(StopApi).Fine? && !plan.fault(WriteEnv).Before? then newEnv else old(env)
      ensures unit == if plan.fault(StopApi).Fine? && plan.fault(WriteEnv).Fine? && !plan.fault(WriteUnit).Before?
                      then newUnit else old(unit)
      ensures link == if !old(leftover) && Written(plan) && plan.fault(MakeLink).Fine? && !plan.fault(MoveLink).Before?
                      then release else old(link)
      ensures leftover == (old(leftover) || ForwardLitters(plan))
    {
      running := if plan.fault(StopApi).Before? then running else false;
      if !plan.fault(StopApi).Fine? {
        return false;
      }
      ok := WriteEnvFile(newEnv, plan.fault(WriteEnv));
      if !ok {
        return;
      }
      ok := WriteUnitFile(newUnit, plan.fault(WriteUnit));
      if !ok {
        return;
      }
      ok := SwitchCurrent(release, plan.fault(MakeLink), plan.fault(MoveLink), plan.fault(DropLink));
      ok := ok && plan.fault(Reload).Fine? && plan.fault(Prepare).Fine?;
    }

    /** Migrates the database, links the earlier data if there is a mapping, and starts the new API. */
    method MigrateAndStart(mapped: bool, plan: Plan) returns (ok: bool)
      requires LIVE in databases
      modifies this`databases, this`running
      ensures ok <==> forall s :: Forwards(s, mapped) && !Prepares(s) ==> plan.fault(s).Fine?
      ensures databases == old(databases)[LIVE := plan.written(LastWriter(plan, mapped))]
      ensures running == (old(running) || LastWriter(plan, mapped).StartApi?)
    {
      databases := databases[LIVE := plan.written(Migrate)];
      if !plan.fault(Migrate).Fine? {
        return false;
      }
      if mapped {
        databases := databases[LIVE := plan.written(LinkAccounts)];
        if !plan.fault(LinkAccounts).Fine? {
          return false;
        }
      }
      if !plan.fault(ClearFailure).Fine? {
        return false;
      }
      if !plan.fault(StartApi).Before? {
        running := true;
        databases := databases[LIVE := plan.written(StartApi)];
      }
      ok := plan.fault(StartApi).Fine? && plan.fault(LocalReady).Fine? && plan.fault(PublicReady).Fine?;
    }

    /** The steps after every check passed, up to the first failure. */
    method Forward(release: Path, newEnv: Bytes, newUnit: Bytes, mapped: bool, plan: Plan)
      returns (ok: bool, touched: bool)
      requires LIVE in databases
      modifies this
      // Any failing step makes it fail, and nothing else does.
      ensures ok <==> !old(leftover) && forall s :: Forwards(s, mapped) ==> plan.fault(s).Fine?
      ensures ok ==> link == release && env == newEnv && unit == newUnit && running && touched && !leftover
      ensures touched <==> !old(leftover) && forall s :: Prepares(s) ==> plan.fault(s).Fine?
      ensures running ==
        if touched then LastWriter(plan, mapped).StartApi? else plan.fault(StopApi).Before? && old(running)
      ensures databases ==
        if touched then old(databases)[LIVE := plan.written(LastWriter(plan, mapped))] else old(databases)
      ensures ok ==> databases[LIVE] == plan.written(StartApi)
      ensures leftover == (old(leftover) || ForwardLitters(plan))
      ensures leftover ==> !ok && !touched && link == old(link)
      ensures (old(leftover) && Written(plan)) || ForwardLitters(plan) ==> env == newEnv && unit == newUnit && !running
    {
      touched := SwitchRelease(release, newEnv, newUnit, plan);
      ok := touched;
      if touched {
        ok := MigrateAndStart(mapped, plan);
      }
    }

    /** The handler's first half: the previous link, environment and unit, in that order. */
    method RestoreFiles(oldLink: Path, oldEnv: Bytes, oldUnit: Bytes, plan: Plan) returns (ok: bool)
      modifies this`link, this`leftover, this`env, this`unit
      ensures ok ==> link == oldLink && env == oldEnv && unit == oldUnit && !leftover
      ensures ok <==> !old(leftover) && forall s :: UndoesFiles(s) ==> plan.fault(s).Fine?
      // As far as it gets: the link, then the environment, then the unit.
      ensures link == if !old(leftover) && plan.fault(UndoMakeLink).Fine? && !plan.fault(UndoMoveLink).Before?
                      then oldLink else old(link)
      ensures env == if !old(leftover) && LinkRestored(plan) && !plan.fault(UndoEnv).Before? then oldEnv else old(env)
      ensures unit == if !old(leftover) && LinkRestored(plan) && plan.fault(UndoEnv).Fine?
                         && !plan.fault(UndoUnit).Before? then oldUnit else old(unit)
      ensures old(leftover) ==> leftover && link == old(link) && env == old(env) && unit == old(unit)
    {
      ok := SwitchCurrent(oldLink, plan.fault(UndoMakeLink), plan.fault(UndoMoveLink), plan.fault(UndoDropLink));
      if !ok {
        return;
      }
      ok := WriteEnvFile(oldEnv, plan.fault(UndoEnv));
      if !ok {
        return;
      }
      ok := WriteUnitFile(oldUnit, plan.fault(UndoUnit));
      ok := ok && plan.fault(UndoReload).Fine?;
    }

    /** The handler's second half: the database, if it was touched, and the previous API. */
    method RestoreService(touched: bool, dump: Contents, kept: Database, plan: Plan) returns (ok: bool)
      requires LIVE in databases && kept != LIVE
      modifies this`running, this`databases
      ensures ok ==> running
      // The API is started once the database is restored, if it has to be.
      ensures running == (old(running) || Restarts(touched, kept !in old(databases), plan))
      ensures ok && touched ==> databases == old(databases)[kept := old(databases)[LIVE]][LIVE := dump]
      ensures !touched ==> databases == old(databases)
      ensures ok <==> (touched ==> kept !in old(databases))
                      && forall s :: UndoesService(s, touched) ==> plan.fault(s).Fine?
      ensures forall d :: d in old(databases) && d != LIVE ==> d in databases && databases[d] == old(databases)[d]
      ensures (LIVE in databases && databases[LIVE] == old(databases)[LIVE])
              || (kept in databases && databases[kept] == old(databases)[LIVE])
    {
      if touched {
        ok := RestoreDatabase(dump, kept, plan);
        if !ok {
          return;
        }
      }
      if !plan.fault(UndoClearFailure).Fine? {
        return false;
      }
      running := if plan.fault(UndoStart).Before? then running else true;
      ok := plan.fault(UndoStart).Fine? && plan.fault(UndoLocalReady).Fine? && plan.fault(UndoPublicReady).Fine?;
    }

    /** The handler of any failure: it stops at its own first failure. */
    method Rollback(oldLink: Path, oldEnv: Bytes, oldUnit: Bytes, touched: bool, dump: Contents, kept: Database,
                    plan: Plan)
      returns (ok: bool)
      requires LIVE in databases && kept != LIVE
      modifies this
      ensures ok ==> link == oldLink && env == oldEnv && unit == oldUnit && running && !leftover
      ensures ok && touched ==> databases == old(databases)[kept := old(databases)[LIVE]][LIVE := dump]
      ensures !touched ==> databases == old(databases)
      ensures ok <==> !old(leftover) && (touched ==> kept !in old(databases))
                      && forall s :: Undo(s, touched) ==> plan.fault(s).Fine?
      ensures forall d :: d in old(databases) && d != LIVE ==> d in databases && databases[d] == old(databases)[d]
      ensures (LIVE in databases && databases[LIVE] == old(databases)[LIVE])
              || (kept in databases && databases[kept] == old(databases)[LIVE])
      ensures old(leftover) ==> leftover && link == old(link) && env == old(env) && unit == old(unit)
      ensures old(leftover) ==> databases == old(databases) && (running ==> old(running))
      // As far as it gets: it stops the API if it can, and restores the link, the environment and the unit in
      // that order; only with all of them back does it restore the database and start the API.
      ensures link == if !old(leftover) && plan.fault(UndoMakeLink).Fine? && !plan.fault(UndoMoveLink).Before?
                      then oldLink else old(link)
      ensures env == if !old(leftover) && LinkRestored(plan) && !plan.fault(UndoEnv).Before? then oldEnv else old(env)
      ensures unit == if !old(leftover) && LinkRestored(plan) && plan.fault(UndoEnv).Fine?
                         && !plan.fault(UndoUnit).Before? then oldUnit else old(unit)
      ensures var restored := !old(leftover) && forall s :: UndoesFiles(s) ==> plan.fault(s).Fine?;
        && (!restored ==> databases == old(databases))
        && running == ((plan.fault(UndoStop).Before? && old(running))
                       || (restored && Restarts(touched, kept !in old(databases), plan)))
    {
      // A failed stop is ignored.
      running := if plan.fault(UndoStop).Before? then running else false;
      ok := RestoreFiles(oldLink, oldEnv, oldUnit, plan);
      if ok {
        ok := RestoreService(touched, dump, kept, plan);
      }
    }

    /** `reached` is what the live database held when the forward steps ended. */
    method Run(release: Path, newEnv: Bytes, newUnit: Bytes, mapped: bool, dump: Contents, kept: Database, plan: Plan)
      returns (outcome: Outcome, touched: bool, ghost reached: Contents)
      requires LIVE in databases && kept != LIVE
      modifies this
      // It succeeds if and only if no step fails, and success is complete.
      ensures outcome.Done? <==> !old(leftover) && forall s :: Forwards(s, mapped) ==> plan.fault(s).Fine?
      ensures outcome.Done? ==> link == release && env == newEnv && unit == newUnit && running && !leftover && touched
      ensures outcome.Done? ==> databases == old(databases)[LIVE := plan.written(StartApi)]
      // The database is touched once everything before its migration has succeeded.
      ensures touched <==> !old(leftover) && forall s :: Prepares(s) ==> plan.fault(s).Fine?
      ensures reached == if touched then plan.written(LastWriter(plan, mapped)) else old(databases)[LIVE]
      // A completed rollback restores the release, the environment and the unit.
      ensures outcome.Failed? && outcome.rolledBack ==>
        link == old(link) && env == old(env) && unit == old(unit) && running && !leftover
      // The live database is untouched, or exactly as dumped with the migrated one kept beside it.
      ensures outcome.Failed? && !touched ==> databases == old(databases)
      ensures outcome.Failed? && outcome.rolledBack && touched ==>
        databases == old(databases)[kept := reached][LIVE := dump]
      // No outcome loses the database the forward steps reached, nor any other database.
      ensures (LIVE in databases && databases[LIVE] == reached) || (kept in databases && databases[kept] == reached)
      ensures forall d :: d in old(databases) && d != LIVE ==> d in databases && databases[d] == old(databases)[d]
      // When the rollback completes.
      ensures outcome.Failed? ==>
        (outcome.rolledBack <==>
           && !old(leftover) && !ForwardLitters(plan)
           && (touched ==> kept !in old(databases)) && forall s :: Undo(s, touched) ==> plan.fault(s).Fine?)
      // Whether an API runs after a failure: one the handler could not stop, or the one it started again.
      ensures outcome.Failed? ==>
        var left := if touched then LastWriter(plan, mapped).StartApi? else plan.fault(StopApi).Before? && old(running);
        var restored := && !old(leftover) && !ForwardLitters(plan)
                        && forall s :: UndoesFiles(s) ==> plan.fault(s).Fine?;
        running == ((plan.fault(UndoStop).Before? && left)
                    || (restored && Restarts(touched, kept !in old(databases), plan)))
      // An entry left by an interrupted upgrade, or by this very switch, stops the rollback at its first
      // step: the new environment and unit stay, and nothing runs.
      ensures old(leftover) || ForwardLitters(plan) ==>
        outcome == Failed(false) && leftover && link == old(link) && databases == old(databases)
      ensures (old(leftover) && Written(plan)) || ForwardLitters(plan) ==> env == newEnv && unit == newUnit && !running
    {
      var oldLink, oldEnv, oldUnit := link, env, unit;
      var ok;
      ok, touched := Forward(release, newEnv, newUnit, mapped, plan);
      reached := databases[LIVE];
      if ok {
        return Done, touched, reached;
      }
      ghost var failing := databases;
      var undone := Rollback(oldLink, oldEnv, oldUnit, touched, dump, kept, plan);
      outcome := Failed(undone);
      assert failing[kept := reached][LIVE := dump] == old(databases)[kept := reached][LIVE := dump];
    }
  }
}
