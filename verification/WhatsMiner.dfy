/**
  The object that configures a WhatsMiner: one method for each step of the script, and the driver that hands it the
  responses. An error raised in a step is caught by the caller, which ends the script.
*/
module WhatsMiner {
  import opened Wrappers

  import opened ExecutorModel
  import opened MiningProgramModel
  import opened ScriptExecutor
  import opened WhatsMinerModel
  import opened WhatsMinerOutcome

  class WhatsMinerHttpsLuci {
    const base: ExecutorBase<Name>
    const program: MiningProgram
    const login: WhatsMinerModel.Login
    var request: Request
    var token: Option<string>
    var nameMissing: bool
    var ok: bool

    constructor (best: Option<string>, login: WhatsMinerModel.Login, limit: int, delay: int)
      ensures fresh(base) && fresh(program)
      ensures MakeRequest(LuciScript(), Value()) == Started(best, login, limit, delay)
    {
      this.base := new ExecutorBase(Script(Name.GetSession), delay, limit);
      this.program := new MiningProgram(DEFAULT_PROGRAMS, best);
      this.login := login;
      request, token, nameMissing, ok := Nothing, None, false, false;
    }

    ghost function Data(): Luci
      reads this, program
    {
      Luci(program.Value(), request, token, login, nameMissing, ok)
    }

    ghost function Value(): Executor<Name, Luci>
      reads this, base, program
    {
      base.With(Data())
    }

    method MakeSessionRequest(withPassword: bool) returns (raised: bool)
      modifies this`request, base`nextStep
      ensures raised == login.Broken?
      ensures request == if login.Complete? then Request.Login(withPassword) else old(request)
    {
      if login.Missing? {
        base.SetStep(End);
        return false;
      }
      if login.Broken? {
        return true;
      }
      request := Request.Login(withPassword);
      return false;
    }

    method GetSession()
      modifies this, base
      ensures Value() == Goto(old(Value()), Make(Name.GetSession, old(Data())))
    {
      var raised := MakeSessionRequest(true);
      base.SetStep(if raised then End else Script(Name.ParseSession));
    }

    method GetNoPswdSession()
      modifies this, base
      ensures Value() == Goto(old(Value()), Make(Name.GetNoPswdSession, old(Data())))
    {
      var raised := MakeSessionRequest(false);
      base.SetStep(if raised then End else Script(Name.ParseNoPswdSession));
    }

    /** The parts the two login handlers share: whether there is a session, and whether reading it raises an error. */
    method ParseSessionResponse(r: Reply) returns (session: bool, raised: bool)
      modifies base`nextStep
      ensures session == (LoggedIn(r) && !r.raises) && raised == (LoggedIn(r) && r.raises)
      ensures !LoggedIn(r) ==> base.nextStep == End
      ensures LoggedIn(r) ==> base.nextStep == old(base.nextStep)
    {
      if !r.parsed || r.code != 302 || !r.cookie {
        base.SetStep(End);
        return false, false;
      }
      return !r.raises, r.raises;
    }

    method ParseSession(r: Reply)
      modifies this, base, program
      ensures Value() == Goto(old(Value()), Handle(Name.ParseSession, old(Data()), r))
    {
      var session, raised := ParseSessionResponse(r);
      if raised {
        base.SetStep(End);
      } else if !session {
        base.SetStep(Script(Name.GetNoPswdSession));
      } else {
        program.ResetPrograms();
        base.SetStep(Script(Name.GetToken));
      }
    }

    method ParseNoPswdSession(r: Reply)
      modifies this, base, program
      ensures Value() == Goto(old(Value()), Handle(Name.ParseNoPswdSession, old(Data()), r))
    {
      var session, raised := ParseSessionResponse(r);
      if raised {
        base.SetStep(End);
      } else if session {
        program.ResetPrograms();
        base.SetStep(Script(Name.GetToken));
      }
    }

    method NextName() returns (name: Option<string>)
      modifies program, this`nameMissing, base`nextStep
      ensures program.Value() == TakeNext(old(program.Value())) && name == program.currentProgram
      ensures nameMissing == (old(nameMissing) || name.None?)
      ensures base.nextStep == if name.None? then End else old(base.nextStep)
    {
      name := program.GetNext();
      if name.None? {
        nameMissing := true;
        base.SetStep(End);
      }
    }

    method GetToken()
      modifies this, base, program
      ensures Value() == Goto(old(Value()), Make(Name.GetToken, old(Data())))
    {
      var name := NextName();
      if name.Some? {
        request := TokenPage(name.value);
        base.SetStep(Script(Name.ParseToken));
      }
    }

    method ParseToken(r: Reply)
      modifies this, base
      ensures Value() == Goto(old(Value()), Handle(Name.ParseToken, old(Data()), r))
    {
      if !r.parsed {
        base.SetStep(End);
        return;
      }
      var hasNext := program.HasNext();
      if r.code == 404 && hasNext {
        base.SetStep(Script(Name.GetToken));
        return;
      }
      if r.code != 200 || !r.token || r.raises {
        base.SetStep(End);
        return;
      }
      token := if request.TokenPage? then Some(request.program) else token;
      base.SetStep(Script(Name.SetMinerConf));
    }

    method SetMinerConf()
      modifies this, base
      ensures Value() == Goto(old(Value()), Make(Name.SetMinerConf, old(Data())))
    {
      var name := program.GetCurrent();
      if name.None? {
        nameMissing := true;
        base.SetStep(End);
        return;
      }
      request := Config(name.value, token);
      base.SetStep(Script(Name.ParseSetMinerConf));
    }

    method ParseSetMinerConf(r: Reply)
      modifies this, base, program
      ensures Value() == Goto(old(Value()), Handle(Name.ParseSetMinerConf, old(Data()), r))
    {
      if !r.parsed || r.code != 200 || r.raises {
        base.SetStep(End);
        return;
      }
      program.ResetPrograms();
      base.SetStep(Script(if r.newPowerMode then Name.SetPowerMode else Name.RestartCGMiner));
    }

    method SetPowerMode()
      modifies this, base, program
      ensures Value() == Goto(old(Value()), Make(Name.SetPowerMode, old(Data())))
    {
      var name := NextName();
      if name.Some? {
        request := Power(name.value, token);
        base.SetStep(Script(Name.ParseSetPowerMode));
      }
    }

    method ParseSetPowerMode(r: Reply)
      modifies this, base, program
      ensures Value() == Goto(old(Value()), Handle(Name.ParseSetPowerMode, old(Data()), r))
    {
      if !r.parsed {
        base.SetStep(End);
        return;
      }
      var hasNext := program.HasNext();
      if r.code == 404 && hasNext {
        base.SetStep(Script(Name.SetPowerMode));
        return;
      }
      program.ResetPrograms();
      base.SetStep(Script(Name.RestartCGMiner));
    }

    method RestartCGMiner()
      modifies this, base, program
      ensures Value() == Goto(old(Value()), Make(Name.RestartCGMiner, old(Data())))
    {
      var name := NextName();
      if name.Some? {
        request := Restart(name.value);
        base.SetStep(Script(Name.ParseRestartCGMiner));
      }
    }

    method ParseRestartCGMiner(r: Reply)
      modifies this, base
      ensures Value() == Goto(old(Value()), Handle(Name.ParseRestartCGMiner, old(Data()), r))
    {
      if !r.parsed {
        ok := false;
        base.SetStep(End);
        return;
      }
      var hasNext := program.HasNext();
      if r.code == 404 && hasNext {
        base.SetStep(Script(Name.RestartCGMiner));
        return;
      }
      ok := r.code == 302;
      base.SetStep(End);
    }

    /** Executes a step of the script. */
    method Exec(name: Name, r: Reply)
      modifies this, base, program
      ensures Value() == Goto(old(Value()), Perform(name, old(Data()), r))
    {
      match name
      case GetSession => GetSession();
      case ParseSession => ParseSession(r);
      case GetNoPswdSession => GetNoPswdSession();
      case ParseNoPswdSession => ParseNoPswdSession(r);
      case GetToken => GetToken();
      case ParseToken => ParseToken(r);
      case SetMinerConf => SetMinerConf();
      case ParseSetMinerConf => ParseSetMinerConf(r);
      case SetPowerMode => SetPowerMode();
      case ParseSetPowerMode => ParseSetPowerMode(r);
      case RestartCGMiner => RestartCGMiner();
      case ParseRestartCGMiner => ParseRestartCGMiner(r);
    }

    method ExecRequest()
      modifies this, base, program
      ensures Value() == MakeRequest(LuciScript(), old(Value()))
    {
      match base.nextStep
      case Script(name) => Exec(name, NO_REPLY);
      case DoRetry => base.DoRetryStep();
      case End =>
    }

    method OnResult(result: Result<Reply>)
      modifies this, base, program
      ensures Value() == Round(LuciScript(), old(Value()), result)
    {
      var retried := base.TakeResult(result.transient);
      if !retried {
        match base.nextStep {
          case Script(name) => Exec(name, result.reply);
          case _ => base.SetStep(End);
        }
      }
      if base.nextStep != End {
        ExecRequest();
      }
    }

    /** Handles responses for as long as the script has not ended. */
    method HandleAll(results: seq<Result<Reply>>) returns (handled: nat)
      modifies this, base, program
      ensures handled <= |results| && Consumes(LuciScript(), old(Value()), results[..handled])
      ensures Value() == Run(LuciScript(), old(Value()), results[..handled])
      ensures handled < |results| ==> base.nextStep == End
    {
      ghost var x := Value();
      handled := 0;
      while handled < |results| && base.nextStep != End
        invariant handled <= |results| && Consumes(LuciScript(), x, results[..handled])
        invariant Value() == Run(LuciScript(), x, results[..handled])
      {
        RunGrows(LuciScript(), x, results, handled);
        OnResult(results[handled]);
        handled := handled + 1;
      }
    }
  }

  /**
    Configures a WhatsMiner with the responses at hand.  It ends within so many of them, never looks for a program name
    where there is none, and says that all went well exactly when the miner acknowledged a restart, which it does only
    after it acknowledged the configuration.
   */
  method Configure(best: Option<string>, login: WhatsMinerModel.Login, limit: int, delay: int,
                   results: seq<Result<Reply>>)
    returns (executor: WhatsMinerHttpsLuci, handled: nat)
    ensures fresh(executor) && handled <= |results|
    ensures handled < |results| ==> executor.base.nextStep == End
    ensures Consumes(LuciScript(), Started(best, login, limit, delay), results[..handled])
    ensures executor.Value() == Run(LuciScript(), Started(best, login, limit, delay), results[..handled])
    ensures handled <= (Max(0, limit) + 1) * (3 + 3 * |Initial(DEFAULT_PROGRAMS, best).all|)
    ensures |results| >= (Max(0, limit) + 1) * (3 + 3 * |Initial(DEFAULT_PROGRAMS, best).all|) ==>
              executor.base.nextStep == End
    ensures !executor.nameMissing
    ensures executor.ok <==> Restarts(CoreOf(Started(best, login, limit, delay)),
                                      Executed(LuciScript(), Started(best, login, limit, delay), results[..handled]))
    ensures executor.ok ==>
              exists i: nat :: Acknowledged(CoreOf(Started(best, login, limit, delay)),
                                            Executed(LuciScript(), Started(best, login, limit, delay),
                                                     results[..handled]), i)
  {
    executor := new WhatsMinerHttpsLuci(best, login, limit, delay);
    executor.ExecRequest();
    handled := executor.HandleAll(results);
    ConfigurationEnds(best, login, limit, delay, results[..handled]);
    OkIffRestartsInRun(best, login, limit, delay, results[..handled]);
    if executor.ok {
      ghost var i := OkIsAcknowledgedInRun(best, login, limit, delay, results[..handled]);
    }
  }
}
