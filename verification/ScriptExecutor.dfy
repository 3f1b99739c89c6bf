/**
  The base object of the executors, with the current step, the delay of the next request and the state of the retry
  layer, and an executor object built on it, driven by responses as HelperBase does.
*/
module ScriptExecutor {
  import opened Wrappers

  import opened ExecutorModel

  class ExecutorBase<N(==)> {
    var nextStep: Step<N>
    var delay: int
    var autoRetry: AutoRetry<N>

    constructor (first: Step<N>, delay: int, limit: int)
      ensures nextStep == first && this.delay == delay && autoRetry == InitRetry(limit)
    {
      nextStep, this.delay, autoRetry := first, delay, InitRetry(limit);
    }

    /** The executor whose data are `data`. */
    ghost function With<D>(data: D): Executor<N, D>
      reads this
    {
      Executor(nextStep, data, delay, autoRetry)
    }

    method SetStep(next: Step<N>)
      modifies this`nextStep
      ensures nextStep == next
    {
      nextStep := next;
    }

    method DisableRetry()
      modifies this`autoRetry
      ensures autoRetry == old(autoRetry).(enable := false)
    {
      autoRetry := autoRetry.(enable := false);
    }

    method StopRetrying()
      modifies this`delay, this`autoRetry
      ensures With(0) == StopRetry(old(With(0)))
    {
      if autoRetry.originDelay.Some? {
        delay := autoRetry.originDelay.value;
      }
      autoRetry := InitRetry(autoRetry.limit);
    }

    method TryRetry() returns (retried: bool)
      modifies this
      ensures retried == CanRetry(old(autoRetry))
      ensures With(0) == if retried then Retry(old(With(0))) else old(With(0))
    {
      if !autoRetry.enable || autoRetry.times >= autoRetry.limit {
        return false;
      }
      autoRetry := autoRetry.(originDelay := Some(delay));
      autoRetry := autoRetry.(originStep := Some(nextStep));
      autoRetry := autoRetry.(times := autoRetry.times + 1);
      autoRetry := autoRetry.(inRetry := true);
      delay := RETRY_DELAY;
      SetStep(DoRetry);
      return true;
    }

    method DoRetryStep()
      modifies this`nextStep
      ensures nextStep == if autoRetry.originStep.Some? then autoRetry.originStep.value else End
    {
      SetStep(if autoRetry.originStep.Some? then autoRetry.originStep.value else End);
    }

    /** What happens to a result before the script sees it: another try, or the end of the tries. */
    method TakeResult(transient: bool) returns (retried: bool)
      modifies this
      ensures retried == (transient && CanRetry(old(autoRetry)))
      ensures With(0) == if retried then Retry(old(With(0)))
                         else if old(autoRetry).inRetry then StopRetry(old(With(0)))
                         else old(With(0))
    {
      if transient {
        retried := TryRetry();
        if retried {
          return;
        }
      }
      retried := false;
      if autoRetry.inRetry {
        StopRetrying();
      }
    }
  }

  class ExecutorObject<N(==), D, R> {
    const base: ExecutorBase<N>
    const behaviour: Behaviour<N, D, R>
    var data: D

    constructor (behaviour: Behaviour<N, D, R>, first: N, data: D, delay: int, limit: int)
      ensures this.behaviour == behaviour && fresh(base)
      ensures Value() == Executor(Script(first), data, delay, InitRetry(limit))
    {
      this.base := new ExecutorBase(Script(first), delay, limit);
      this.behaviour, this.data := behaviour, data;
    }

    ghost function Value(): Executor<N, D>
      reads this, base
    {
      base.With(data)
    }

    /** The effects of a script step. */
    method Apply(next: Next<N, D>)
      modifies this, base
      ensures Value() == Goto(old(Value()), next)
    {
      data := next.data;
      if next.delay.Some? {
        base.delay := next.delay.value;
      }
      if next.enable.Some? {
        base.autoRetry := base.autoRetry.(enable := next.enable.value);
      }
      base.SetStep(next.step);
    }

    method ExecRequest()
      modifies this, base
      ensures Value() == MakeRequest(behaviour, old(Value()))
    {
      match base.nextStep
      case Script(name) => Apply(behaviour.request(name, data));
      case DoRetry => base.DoRetryStep();
      case End =>
    }

    method ExecResult(result: Result<R>)
      modifies this, base
      ensures Value() == MakeResult(behaviour, old(Value()), result)
    {
      var retried := base.TakeResult(result.transient);
      if !retried {
        match base.nextStep
        case Script(name) => Apply(behaviour.respond(name, data, result.reply));
        case _ => base.SetStep(End);
      }
    }

    /** What the scheduler does with a response: the result and, unless the script has ended, the next request. */
    method OnResult(result: Result<R>)
      modifies this, base
      ensures Value() == Round(behaviour, old(Value()), result)
    {
      ExecResult(result);
      if base.nextStep != End {
        ExecRequest();
      }
    }

    /** Handles responses for as long as the script has not ended. */
    method HandleAll(results: seq<Result<R>>) returns (handled: nat)
      modifies this, base
      ensures handled <= |results| && Consumes(behaviour, old(Value()), results[..handled])
      ensures Value() == Run(behaviour, old(Value()), results[..handled])
      ensures handled < |results| ==> base.nextStep == End
    {
      handled := 0;
      while handled < |results| && base.nextStep != End
        invariant handled <= |results| && Consumes(behaviour, old(Value()), results[..handled])
        invariant Value() == Run(behaviour, old(Value()), results[..handled])
      {
        RunGrows(behaviour, old(Value()), results, handled);
        OnResult(results[handled]);
        handled := handled + 1;
      }
    }
  }
}
