/**
The guard a speech workflow keeps over its lease: on every way out that is not a recorded success,
including being dropped at a suspension point, it asks the store to release the lease.
*/
module LeaseGuard {
  import opened Wrappers

  type Code = int

  /** How one awaited step of the workflow ends; `Cancelled` when the request is dropped there. */
  datatype Step = Fine | Fails(code: Code) | Cancelled

  /** The awaited steps after the lease is taken, and whether a drop also hits a release under way. */
  datatype Plan = Plan(voice: Step, job: Step, work: Step, build: Step, complete: Step, dropInRelease: bool)

  datatype Outcome = Succeeded | FailedWith(code: Code) | Dropped

  /** A release sent to the store, by the workflow itself or by a background task after a drop. */
  datatype Release = Release(lease: nat, code: Option<Code>, background: bool)

  /** The first step that does not go well, if any. */
  function Trouble(plan: Plan): Option<Step> {
    if !plan.voice.Fine? then Some(plan.voice)
    else if !plan.job.Fine? then Some(plan.job)
    else if !plan.work.Fine? then Some(plan.work)
    else if !plan.build.Fine? then Some(plan.build)
    else if !plan.complete.Fine? then Some(plan.complete)
    else None
  }

  class Guard {
    const lease: nat
    var armed: bool
    var code: Option<Code>
    var sent: seq<Release>

    constructor (lease: nat)
      ensures armed && code == None && sent == [] && this.lease == lease
    {
      this.lease := lease;
      armed, code, sent := true, None, [];
    }

    method Disarm()
      modifies this`armed
      ensures !armed
    {
      armed := false;
    }

    /** Sends the release; being dropped while it is under way leaves the guard armed. */
    method Fail(why: Code, dropped: bool)
      modifies this
      ensures sent == if old(armed) then old(sent) + [Release(lease, Some(why), false)] else old(sent)
      ensures code == if old(armed) then Some(why) else old(code)
      ensures armed == (old(armed) && dropped)
    {
      if armed {
        code := Some(why);
        sent := sent + [Release(lease, code, false)];
        if dropped {
          return;
        }
      }
      Disarm();
    }

    /** Runs when the guard goes out of scope, however that happens. */
    method Drop()
      modifies this
      ensures sent == if old(armed) then old(sent) + [Release(lease, old(code), true)] else old(sent)
      ensures !armed && code == old(code)
    {
      if armed {
        sent := sent + [Release(lease, code, true)];
        armed := false;
      }
    }

    /** The workflow from the acquired lease to its end. */
    method Run(plan: Plan) returns (outcome: Outcome)
      requires armed && sent == [] && code == None
      modifies this
      ensures !armed
      // A success releases nothing; every other way out asks for the release of this lease.
      ensures outcome.Succeeded? <==> Trouble(plan).None?
      ensures outcome.Succeeded? ==> sent == []
      ensures !outcome.Succeeded? ==> 1 <= |sent| <= 2 && forall r :: r in sent ==> r.lease == lease
      // It asks twice only when it is dropped while its first release is under way.
      ensures |sent| == 2 ==> outcome.Dropped? && plan.dropInRelease && Trouble(plan).value.Fails?
                              && !sent[0].background && sent[1] == Release(lease, sent[0].code, true)
      // A failed start of the job leaves the release to the background, without a code.
      ensures plan.voice.Fine? && plan.job.Fails? ==> sent == [Release(lease, None, true)]
      ensures outcome.FailedWith? && !(plan.voice.Fine? && plan.job.Fails?) ==>
        sent == [Release(lease, Some(outcome.code), false)]
      ensures Trouble(plan) == Some(Cancelled) ==> outcome == Dropped && sent == [Release(lease, None, true)]
    {
      outcome := Work(plan);
      Drop();
    }

    method Work(plan: Plan) returns (outcome: Outcome)
      requires armed && sent == [] && code == None
      modifies this
      ensures outcome.Succeeded? <==> Trouble(plan).None?
      ensures outcome.Succeeded? ==> !armed && sent == []
      ensures Trouble(plan) == Some(Cancelled) ==> outcome == Dropped && armed && sent == [] && code == None
      ensures plan.voice.Fine? && plan.job.Fails? ==>
        outcome == FailedWith(plan.job.code) && armed && sent == [] && code == None
      ensures Trouble(plan).Some? && Trouble(plan).value.Fails? && !(plan.voice.Fine? && plan.job.Fails?) ==>
        && sent == [Release(lease, Some(Trouble(plan).value.code), false)] && code == Some(Trouble(plan).value.code)
        && armed == plan.dropInRelease
        && outcome == if plan.dropInRelease then Dropped else FailedWith(Trouble(plan).value.code)
    {
      if plan.voice.Fails? {
        outcome := Failing(plan.voice.code, plan.dropInRelease);
        return;
      }
      if plan.voice.Cancelled? {
        return Dropped;
      }
      if plan.job.Fails? {
        return FailedWith(plan.job.code);
      }
      if plan.job.Cancelled? {
        return Dropped;
      }
      if plan.work.Fails? {
        outcome := Failing(plan.work.code, plan.dropInRelease);
        return;
      }
      if plan.work.Cancelled? {
        return Dropped;
      }
      if plan.build.Fails? {
        outcome := Failing(plan.build.code, plan.dropInRelease);
        return;
      }
      if plan.build.Cancelled? {
        return Dropped;
      }
      if plan.complete.Fails? {
        outcome := Failing(plan.complete.code, plan.dropInRelease);
        return;
      }
      if plan.complete.Cancelled? {
        return Dropped;
      }
      Disarm();
      return Succeeded;
    }

    method Failing(why: Code, dropped: bool) returns (outcome: Outcome)
      requires armed && sent == []
      modifies this
      ensures sent == [Release(lease, Some(why), false)] && code == Some(why) && armed == dropped
      ensures outcome == if dropped then Dropped else FailedWith(why)
    {
      Fail(why, dropped);
      outcome := if dropped then Dropped else FailedWith(why);
    }
  }
}
