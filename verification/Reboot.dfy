/** The objects that run the reboot scripts: one method for each step, and the driver that hands them the responses. */
module Reboot {
  import opened Wrappers

  import opened ExecutorModel
  import opened RebootModel
  import opened RebootOutcome
  import opened ScriptExecutor

  class AvalonDeviceCgi {
    const base: ExecutorBase<AvalonStep>
    const hasLogin: bool
    var finishTimes: int
    var outcome: Outcome

    constructor (hasLogin: bool, limit: int, delay: int)
      ensures fresh(base)
      ensures MakeRequest(AvalonScript(), Value()) == AvalonStarted(hasLogin, limit, delay)
    {
      this.base := new ExecutorBase(Script(AvalonStep.Begin), delay, limit);
      this.hasLogin := hasLogin;
      finishTimes, outcome := 0, Unknown;
    }

    ghost function Value(): Executor<AvalonStep, Avalon>
      reads this, base
    {
      base.With(Avalon(hasLogin, finishTimes, outcome))
    }

    method DoReboot(r: PageReply)
      modifies this, base
      ensures Value() == Goto(old(Value()), AvalonRespond(AvalonStep.DoReboot, old(Value()).data, r))
    {
      base.delay := 20;
      finishTimes := 0;
      base.SetStep(Script(AvalonStep.WaitFinish));
      base.DisableRetry();
    }

    method DoWaitFinish(r: PageReply)
      modifies this, base
      ensures Value() == Goto(old(Value()), AvalonRespond(AvalonStep.DoWaitFinish, old(Value()).data, r))
    {
      if r.success {
        outcome := Rebooted;
        base.SetStep(End);
        return;
      }
      if finishTimes > 30 {
        outcome := TimedOut;
        base.SetStep(End);
        return;
      }
      finishTimes := finishTimes + 1;
      base.SetStep(Script(AvalonStep.WaitFinish));
      base.delay := 5;
    }

    /** A request step makes its request and awaits the response. */
    method ExecRequest()
      modifies this, base
      ensures Value() == MakeRequest(AvalonScript(), old(Value()))
    {
      match base.nextStep
      case Script(Begin) => base.SetStep(if hasLogin then Script(AvalonStep.DoLogin) else End);
      case Script(CgConf) => base.SetStep(Script(AvalonStep.DoCgConf));
      case Script(Reboot) => base.SetStep(Script(AvalonStep.DoReboot));
      case Script(WaitFinish) => base.SetStep(Script(AvalonStep.DoWaitFinish));
      case Script(_) => base.SetStep(End);
      case DoRetry => base.DoRetryStep();
      case End =>
    }

    method ExecResponse(r: PageReply)
      modifies this, base
      ensures Value() == ExecutorModel.ExecResponse(AvalonScript(), old(Value()), r)
    {
      match base.nextStep
      case Script(DoLogin) => base.SetStep(if r.accepted then Script(AvalonStep.CgConf) else End);
      case Script(DoCgConf) => base.SetStep(if r.accepted then Script(AvalonStep.Reboot) else End);
      case Script(DoReboot) => DoReboot(r);
      case Script(DoWaitFinish) => DoWaitFinish(r);
      case _ => base.SetStep(End);
    }

    method OnResult(result: Result<PageReply>)
      modifies this, base
      ensures Value() == Round(AvalonScript(), old(Value()), result)
    {
      var retried := base.TakeResult(result.transient);
      if !retried {
        ExecResponse(result.reply);
      }
      if base.nextStep != End {
        ExecRequest();
      }
    }
  }

  /** Configures an Avalon with the responses at hand; it ends within so many of them, and goes on as they say. */
  method ConfigureAvalon(hasLogin: bool, limit: int, delay: int, results: seq<Result<PageReply>>)
    returns (executor: AvalonDeviceCgi, handled: nat)
    ensures fresh(executor) && handled <= |results| && (handled < |results| ==> executor.base.nextStep == End)
    ensures Consumes(AvalonScript(), AvalonStarted(hasLogin, limit, delay), results[..handled])
    ensures executor.Value() == Run(AvalonScript(), AvalonStarted(hasLogin, limit, delay), results[..handled])
    ensures handled <= 3 * (Max(0, limit) + 1) + MOST_POLLS
    ensures |results| >= 3 * (Max(0, limit) + 1) + MOST_POLLS ==> executor.base.nextStep == End
    ensures executor.base.nextStep ==
            if hasLogin then
              AvalonStage(Executed(AvalonScript(), AvalonStarted(hasLogin, limit, delay), results[..handled]))
            else End
  {
    executor := new AvalonDeviceCgi(hasLogin, limit, delay);
    executor.ExecRequest();
    ghost var x := executor.Value();
    handled := 0;
    while handled < |results| && executor.base.nextStep != End
      invariant handled <= |results| && fresh(executor) && fresh(executor.base)
      invariant Consumes(AvalonScript(), x, results[..handled])
      invariant executor.Value() == Run(AvalonScript(), x, results[..handled])
    {
      RunGrows(AvalonScript(), x, results, handled);
      executor.OnResult(results[handled]);
      handled := handled + 1;
    }
    AvalonEnds(hasLogin, limit, delay, results[..handled]);
    AvalonFollows(hasLogin, limit, delay, results[..handled]);
  }

  class AntminerHttpCgi {
    const base: ExecutorBase<AntminerStep>
    var authorization: Authorization
    var authorized: bool
    var finishTimes: int
    var outcome: Outcome

    constructor (limit: int, delay: int)
      ensures fresh(base)
      ensures MakeRequest(AntminerScript(), Value()) == AntminerStarted(limit, delay)
    {
      this.base := new ExecutorBase(Script(AntminerStep.Start), delay, limit);
      authorization, authorized, finishTimes, outcome := Refused, false, 0, Unknown;
    }

    ghost function Value(): Executor<AntminerStep, Antminer>
      reads this, base
    {
      base.With(Antminer(authorization, authorized, finishTimes, outcome))
    }

    /** Whether it raised an error; a refusal only sets the end. */
    method MakeAuthRequest() returns (raised: bool)
      modifies this`authorized, base`nextStep
      ensures raised == (authorization == Raised)
      ensures authorized == (old(authorized) || authorization == Added)
    {
      if authorization == Raised {
        return true;
      }
      if authorization == Refused {
        base.SetStep(End);
        return false;
      }
      authorized := true;
      return false;
    }

    method SendReboot()
      modifies this, base
      ensures Value() == Goto(old(Value()), AntminerRequest(AntminerStep.SendReboot, old(Value()).data))
    {
      var raised := MakeAuthRequest();
      base.SetStep(if raised then End else Script(AntminerStep.OnReboot));
    }

    /** The response, if it is HTTP and no rejection; otherwise the end is set. */
    method ParseResponse(r: AntminerReply) returns (response: Option<AntminerReply>)
      modifies base`nextStep
      ensures response == if r.parsed && r.code != 401 then Some(r) else None
    {
      if !r.parsed || r.code == 401 {
        base.SetStep(End);
        return None;
      }
      return Some(r);
    }

    method OnReboot(r: AntminerReply)
      modifies this, base
      ensures Value() == Goto(old(Value()), AntminerRespond(AntminerStep.OnReboot, old(Value()).data, r))
    {
      authorization := r.authorization;
      var response := ParseResponse(r);
      // The branch for a rejected login, which would end the script here, is never taken:
      assert !(response.Some? && response.value.code == 401);
      finishTimes := 0;
      base.SetStep(Script(AntminerStep.Wait));
      base.DisableRetry();
    }

    method Wait()
      modifies this, base
      ensures Value() == Goto(old(Value()), AntminerRequest(AntminerStep.Wait, old(Value()).data))
    {
      base.delay := 5;
      var raised := MakeAuthRequest();
      base.SetStep(if raised then End else Script(AntminerStep.OnWait));
    }

    method OnWait(r: AntminerReply)
      modifies this, base
      ensures Value() == Goto(old(Value()), AntminerRespond(AntminerStep.OnWait, old(Value()).data, r))
    {
      authorization := r.authorization;
      if r.success {
        outcome := Rebooted;
        base.SetStep(End);
        return;
      }
      if finishTimes > 30 {
        outcome := TimedOut;
        base.SetStep(End);
        return;
      }
      finishTimes := finishTimes + 1;
      base.SetStep(Script(AntminerStep.Wait));
    }

    method ExecRequest()
      modifies this, base
      ensures Value() == MakeRequest(AntminerScript(), old(Value()))
    {
      match base.nextStep
      case Script(Start) =>
        authorized := false;
        base.SetStep(Script(AntminerStep.Auth));
      case Script(SendReboot) => SendReboot();
      case Script(Wait) => Wait();
      case Script(_) => base.SetStep(End);
      case DoRetry => base.DoRetryStep();
      case End =>
    }

    method ExecResponse(r: AntminerReply)
      modifies this, base
      ensures Value() == ExecutorModel.ExecResponse(AntminerScript(), old(Value()), r)
    {
      match base.nextStep
      case Script(OnReboot) => OnReboot(r);
      case Script(OnWait) => OnWait(r);
      case Script(Auth) =>
        authorization := r.authorization;
        base.SetStep(if !r.parsed || r.code != 401 then End else Script(AntminerStep.SendReboot));
      case Script(_) =>
        authorization := r.authorization;
        base.SetStep(End);
      case _ => base.SetStep(End);
    }

    method OnResult(result: Result<AntminerReply>)
      modifies this, base
      ensures Value() == Round(AntminerScript(), old(Value()), result)
    {
      var retried := base.TakeResult(result.transient);
      if !retried {
        ExecResponse(result.reply);
      }
      if base.nextStep != End {
        ExecRequest();
      }
    }
  }

  /** Reboots an Antminer with the responses at hand; it ends within so many of them, and goes on as they say. */
  method RebootAntminer(limit: int, delay: int, results: seq<Result<AntminerReply>>)
    returns (executor: AntminerHttpCgi, handled: nat)
    ensures fresh(executor) && handled <= |results| && (handled < |results| ==> executor.base.nextStep == End)
    ensures Consumes(AntminerScript(), AntminerStarted(limit, delay), results[..handled])
    ensures executor.Value() == Run(AntminerScript(), AntminerStarted(limit, delay), results[..handled])
    ensures handled <= 2 * (Max(0, limit) + 1) + MOST_POLLS
    ensures |results| >= 2 * (Max(0, limit) + 1) + MOST_POLLS ==> executor.base.nextStep == End
    ensures executor.base.nextStep ==
            AntminerStage(Executed(AntminerScript(), AntminerStarted(limit, delay), results[..handled]))
  {
    executor := new AntminerHttpCgi(limit, delay);
    executor.ExecRequest();
    ghost var x := executor.Value();
    handled := 0;
    while handled < |results| && executor.base.nextStep != End
      invariant handled <= |results| && fresh(executor) && fresh(executor.base)
      invariant Consumes(AntminerScript(), x, results[..handled])
      invariant executor.Value() == Run(AntminerScript(), x, results[..handled])
    {
      RunGrows(AntminerScript(), x, results, handled);
      executor.OnResult(results[handled]);
      handled := handled + 1;
    }
    AntminerEnds(limit, delay, results[..handled]);
    AntminerFollows(limit, delay, results[..handled]);
  }
}
