/**
  What the WhatsMiner script asks for next, exactly when, and that a miner which answers gets configured.
*/
module WhatsMinerOutcome {
  import opened Wrappers

  import opened ExecutorModel
  import opened MiningProgramModel
  import opened Retries
  import opened WhatsMinerModel

  type LuciCore = Core<Name, Luci>

  function Next(c: LuciCore, r: Reply): LuciCore {
    PlainRound(LuciScript(), c, r)
  }

  predicate NotFound(r: Reply) {
    r.parsed && r.code == 404
  }

  /** There are names left to try when a page is not found. */
  predicate TriesOn(c: LuciCore, r: Reply) {
    NotFound(r) && c.data.programs.working != []
  }

  /** The name that is tried next, or first. */
  function NextName(p: Programs): string {
    if p.working != [] then p.working[|p.working| - 1] else ""
  }

  function FirstName(p: Programs): string {
    NextName(Reset(p))
  }

  /** A login is accepted by a redirection with a cookie. */
  predicate Accepts(r: Reply) {
    r.parsed && r.code == 302 && r.cookie
  }

  predicate Acknowledges(r: Reply) {
    r.parsed && r.code == 200 && !r.raises
  }

  // ---- what follows what ----

  /** The first request is the login with the password; a login without a user name ends the script instead. */
  lemma LoginIsFirst(best: Option<string>, login: WhatsMinerModel.Login, limit: int, delay: int)
    ensures var c := CoreOf(Started(best, login, limit, delay));
            && c.step == (if login == Broken then End else Script(ParseSession))
            && c.data.request == (if login == Complete then Login(true) else Nothing)
  {
  }

  /** The login is first tried with the password; it is tried again, without one, exactly when that failed. */
  lemma SecondLoginIff(c: LuciCore, r: Reply, n: nat)
    requires Sound(c, n) && c.step.Script?
    ensures Next(c, r).step != Script(ParseSession)
    ensures Next(c, r).step == Script(ParseNoPswdSession)
       <==> c.step == Script(ParseSession) && !Accepts(r) && c.data.login != Broken
    ensures c.step == Script(ParseSession) && c.data.login == Complete ==> c.data.request == Login(true)
    ensures c.step == Script(ParseNoPswdSession) && c.data.login == Complete ==> c.data.request == Login(false)
  {
  }

  /**
    A token page is asked for after a login, under the first name, and after a page that was not found, under the next;
    and at no other time.
   */
  lemma TokenPageIff(c: LuciCore, r: Reply, n: nat)
    requires Sound(c, n) && c.step.Script?
    ensures var login := c.step == Script(ParseSession) || c.step == Script(ParseNoPswdSession);
            var c' := Next(c, r);
            && (c'.step == Script(ParseToken)
                <==> (login && Accepts(r) && !r.raises) || (c.step == Script(ParseToken) && TriesOn(c, r)))
            && (c'.step == Script(ParseToken) ==>
                  c'.data.request
                  == TokenPage(if login then FirstName(c.data.programs) else NextName(c.data.programs)))
  {
  }

  /** The power mode is posted after an acknowledged configuration, exactly when another mode was asked for. */
  lemma PowerModeIff(c: LuciCore, r: Reply, n: nat)
    requires Sound(c, n) && c.step.Script?
    ensures var configured := c.step == Script(ParseSetMinerConf) && Acknowledges(r);
            var c' := Next(c, r);
            && (c'.step == Script(ParseSetPowerMode)
                <==> (configured && r.newPowerMode) || (c.step == Script(ParseSetPowerMode) && TriesOn(c, r)))
            && (c'.step == Script(ParseSetPowerMode) ==>
                  c'.data.request
                  == Power(if configured then FirstName(c.data.programs) else NextName(c.data.programs), c.data.token))
  {
  }

  /**
    The restart is asked for after an acknowledged configuration when no other power mode was, and otherwise after the
    power mode, whether that could be set or not.
   */
  lemma RestartIff(c: LuciCore, r: Reply, n: nat)
    requires Sound(c, n) && c.step.Script?
    ensures var configured := c.step == Script(ParseSetMinerConf) && Acknowledges(r) && !r.newPowerMode;
            var powered := c.step == Script(ParseSetPowerMode) && r.parsed && !TriesOn(c, r);
            var c' := Next(c, r);
            && (c'.step == Script(ParseRestartCGMiner)
                <==> configured || powered || (c.step == Script(ParseRestartCGMiner) && TriesOn(c, r)))
            && (c'.step == Script(ParseRestartCGMiner) ==>
                  c'.data.request
                  == Restart(if configured || powered then FirstName(c.data.programs) else NextName(c.data.programs)))
  {
  }

  // ---- what the user is told ----

  /** One of the replies acknowledges a restart. */
  predicate Restarts(c: LuciCore, replies: seq<Reply>)
    decreases |replies|
  {
    replies != []
    && ((c.step == Script(ParseRestartCGMiner) && replies[0].parsed && replies[0].code == 302)
        || Restarts(Next(c, replies[0]), replies[1..]))
  }

  lemma OkIffRestarting(c: LuciCore, r: Reply, n: nat)
    requires Sound(c, n) && c.step.Script?
    ensures Next(c, r).data.ok <==> c.step == Script(ParseRestartCGMiner) && r.parsed && r.code == 302
  {
  }

  lemma {:induction false} EndedStays(c: LuciCore, replies: seq<Reply>)
    requires c.step == End
    ensures PlainRun(LuciScript(), c, replies) == c && !Restarts(c, replies)
    decreases |replies|
  {
    if replies != [] {
      EndedStays(Next(c, replies[0]), replies[1..]);
    }
  }

  /** The user is told that all went well exactly when the miner acknowledged a restart. */
  lemma {:induction false} OkIffRestarts(c: LuciCore, replies: seq<Reply>, n: nat)
    requires Sound(c, n) && !c.data.ok
    ensures PlainRun(LuciScript(), c, replies).data.ok <==> Restarts(c, replies)
    decreases |replies|
  {
    if replies != [] {
      if c.step == End {
        EndedStays(c, replies);
      } else {
        var c' := Next(c, replies[0]);
        HandledSoundly(c, replies[0], n);
        OkIffRestarting(c, replies[0], n);
        if c'.data.ok {
          EndedStays(c', replies[1..]);
        } else {
          OkIffRestarts(c', replies[1..], n);
        }
      }
    }
  }

  lemma OkIffRestartsInRun(best: Option<string>, login: WhatsMinerModel.Login, limit: int, delay: int,
                           results: seq<Result<Reply>>)
    requires Consumes(LuciScript(), Started(best, login, limit, delay), results)
    ensures var x := Started(best, login, limit, delay);
            Run(LuciScript(), x, results).data.ok <==> Restarts(CoreOf(x), Executed(LuciScript(), x, results))
  {
    var x := Started(best, login, limit, delay);
    StartedIsSound(best, login, limit, delay);
    RetryIsTransparent(LuciScript(), x, results);
    OkIffRestarts(CoreOf(x), Executed(LuciScript(), x, results), |Initial(DEFAULT_PROGRAMS, best).all|);
  }

  // ---- a miner that answers ----

  /**
    How a miner answers that accepts the login and whose pages are under the name `own` only; `mode` says whether
    another power mode was asked for.
   */
  predicate Answers(own: string, mode: bool, request: Request, r: Reply) {
    match request
    case Nothing => true
    case Login(_) => Accepts(r) && !r.raises
    case TokenPage(name) => if name == own then Acknowledges(r) && r.token else NotFound(r)
    case Config(_, _) => Acknowledges(r) && r.newPowerMode == mode
    case Power(name, _) => if name == own then Acknowledges(r) else NotFound(r)
    case Restart(name) => if name == own then r.parsed && r.code == 302 else NotFound(r)
  }

  /** It answers all requests like this. */
  predicate Served(own: string, mode: bool, c: LuciCore, replies: seq<Reply>)
    decreases |replies|
  {
    replies == []
    || ((c.step == End || Answers(own, mode, c.data.request, replies[0]))
        && Served(own, mode, Next(c, replies[0]), replies[1..]))
  }

  /** Its name is the one being tried or is still to come. */
  predicate Ahead(p: Programs, own: string) {
    |p.working| < |p.all| && own in p.all[..|p.working| + 1]
  }

  /** A run with such a miner is on the way to success: the token is the one of its own page. */
  predicate OnTrack(own: string, mode: bool, c: LuciCore) {
    && c.data.login == Complete && own in c.data.programs.all
    && match c.step
       case End => c.data.ok
       case Script(ParseSession) => true
       case Script(ParseToken) => Ahead(c.data.programs, own)
       case Script(ParseSetMinerConf) => c.data.token == Some(own) && c.data.request == Config(own, Some(own))
       case Script(ParseSetPowerMode) =>
         && mode && Ahead(c.data.programs, own) && c.data.token == Some(own)
         && c.data.request.Power? && c.data.request.token == Some(own)
       case Script(ParseRestartCGMiner) => Ahead(c.data.programs, own)
       case _ => false
  }

  /** Trying the next name, or the first, does not pass the miner's by. */
  lemma StillAhead(p: Programs, own: string)
    requires Ahead(p, own) && Trying(p, p.all[|p.working|]) && p.all[|p.working|] != own
    ensures p.working != [] && Ahead(TakeNext(p), own)
  {
    var k := |p.working|;
    assert p.all[..k + 1] == p.all[..k] + [p.all[k]];
    assert p.all[..k] == p.all[..|TakeNext(p).working| + 1];
  }

  lemma AheadFromStart(p: Programs, own: string)
    requires own in p.all
    ensures Ahead(TakeNext(Reset(p)), own)
  {
    assert p.all[..|p.all|] == p.all;
  }

  lemma StaysOnTrack(own: string, mode: bool, c: LuciCore, r: Reply, n: nat)
    requires Sound(c, n) && c.step.Script? && OnTrack(own, mode, c) && Answers(own, mode, c.data.request, r)
    ensures OnTrack(own, mode, Next(c, r))
  {
    AheadFromStart(c.data.programs, own);
    if c.step.name in {ParseToken, ParseSetPowerMode, ParseRestartCGMiner} && c.data.request.program != own {
      StillAhead(c.data.programs, own);
    }
  }

  /** A miner that answers like this is configured, and the user is told so, within the responses that are left. */
  lemma {:induction false} ServedIsConfigured(own: string, mode: bool, c: LuciCore, replies: seq<Reply>, n: nat)
    requires Sound(c, n) && OnTrack(own, mode, c) && Served(own, mode, c, replies)
    ensures OnTrack(own, mode, PlainRun(LuciScript(), c, replies))
    ensures |replies| >= Left(c) ==> PlainRun(LuciScript(), c, replies).step == End
    decreases |replies|
  {
    if c.step == End {
      EndedStays(c, replies);
    } else if replies == [] {
      UnendedIsLeft(c, n);
    } else {
      HandledSoundly(c, replies[0], n);
      StaysOnTrack(own, mode, c, replies[0], n);
      ServedIsConfigured(own, mode, Next(c, replies[0]), replies[1..], n);
    }
  }

  /** Whether the reply now due is to a power mode posted to the miner's own page. */
  predicate Posted(own: string, c: LuciCore) {
    c.step == Script(ParseSetPowerMode) && c.data.request == Power(own, Some(own))
  }

  /** One of the replies acknowledges a power mode that was posted to the miner's own page with its own token. */
  predicate Powers(own: string, c: LuciCore, replies: seq<Reply>)
    decreases |replies|
  {
    replies != []
    && ((Posted(own, c) && Acknowledges(replies[0]))
        || Powers(own, Next(c, replies[0]), replies[1..]))
  }

  lemma {:induction false} EndedPowersNot(own: string, c: LuciCore, replies: seq<Reply>)
    requires c.step == End
    ensures !Powers(own, c, replies)
    decreases |replies|
  {
    if replies != [] {
      EndedPowersNot(own, Next(c, replies[0]), replies[1..]);
    }
  }

  /** The power mode is still to be set, if one is. */
  predicate BeforeRestart(c: LuciCore) {
    c.step != End && c.step != Script(ParseRestartCGMiner)
  }

  /** Posting it to the miner is the last thing before the restart. */
  lemma PostedIsLast(own: string, mode: bool, c: LuciCore, r: Reply, n: nat)
    requires Sound(c, n) && OnTrack(own, mode, c) && Answers(own, mode, c.data.request, r) && Posted(own, c)
    ensures mode && Acknowledges(r) && !BeforeRestart(Next(c, r))
  {
  }

  lemma OtherwiseNotLast(own: string, mode: bool, c: LuciCore, r: Reply, n: nat)
    requires Sound(c, n) && c.step.Script? && OnTrack(own, mode, c) && Answers(own, mode, c.data.request, r)
    requires !Posted(own, c)
    ensures mode ==> (BeforeRestart(Next(c, r)) <==> BeforeRestart(c))
    ensures BeforeRestart(Next(c, r)) ==> BeforeRestart(c)
  {
    if c.step.name in {ParseToken, ParseSetPowerMode, ParseRestartCGMiner} && c.data.request.program != own {
      StillAhead(c.data.programs, own);
    }
  }

  /** By the time such a run is over, the miner has been given the power mode exactly when one was asked for. */
  lemma {:induction false} ServedPowersIff(own: string, mode: bool, c: LuciCore, replies: seq<Reply>, n: nat)
    requires Sound(c, n) && OnTrack(own, mode, c) && Served(own, mode, c, replies)
    requires PlainRun(LuciScript(), c, replies).step == End
    ensures Powers(own, c, replies) <==> mode && BeforeRestart(c)
    decreases |replies|
  {
    if c.step == End {
      EndedPowersNot(own, c, replies);
    } else {
      HandledSoundly(c, replies[0], n);
      StaysOnTrack(own, mode, c, replies[0], n);
      ServedPowersIff(own, mode, Next(c, replies[0]), replies[1..], n);
      if Posted(own, c) {
        PostedIsLast(own, mode, c, replies[0], n);
      } else {
        OtherwiseNotLast(own, mode, c, replies[0], n);
      }
    }
  }

  // ---- the whole of it ----

  lemma PerformLeavesRetrying(name: Name, d: Luci, r: Reply)
    ensures Perform(name, d, r).step != DoRetry && Perform(name, d, r).enable == None
  {
  }

  lemma LuciRetries()
    ensures OwnSteps(LuciScript()) && NeverDisables(LuciScript())
  {
    forall name, d, r
      ensures LuciScript().respond(name, d, r) == Perform(name, d, r)
      ensures Perform(name, d, r).step != DoRetry && Perform(name, d, r).enable == None
    {
      PerformLeavesRetrying(name, d, r);
    }
    forall name, d ensures LuciScript().request(name, d) == Perform(name, d, NO_REPLY) {
    }
  }

  /** The names a miner may have: the defaults, and the best one. */
  lemma NamesListed(best: Option<string>, own: string)
    requires own in DEFAULT_PROGRAMS || (best.Some? && own == Trim(best.value) && own != "")
    ensures own in Initial(DEFAULT_PROGRAMS, best).all
  {
    if best.Some? && Trim(best.value) != "" && own != Trim(best.value) {
      RemovesOne(DEFAULT_PROGRAMS, Trim(best.value));
      assert own in multiset(DEFAULT_PROGRAMS);
      assert own in multiset(RemoveByValue(DEFAULT_PROGRAMS, Trim(best.value)));
    }
  }

  /**
    A miner whose login is stored, which accepts it, and which answers under one of the names tried, is configured and
    given the power mode asked for, and the user is told that all went well: however many of its sessions fail, provided
    that none fails more often than is made up for.
   */
  lemma HealthyIsConfigured(best: Option<string>, limit: int, delay: int, own: string, mode: bool,
                            results: seq<Result<Reply>>)
    requires own in DEFAULT_PROGRAMS || (best.Some? && own == Trim(best.value) && own != "")
    requires Consumes(LuciScript(), Started(best, Complete, limit, delay), results)
    requires var x := Started(best, Complete, limit, delay);
             Served(own, mode, CoreOf(x), Passed(results, Max(0, limit), 0))
    ensures var x := Started(best, Complete, limit, delay);
            var n := |Initial(DEFAULT_PROGRAMS, best).all|;
            var replies := Passed(results, Max(0, limit), 0);
            var x' := Run(LuciScript(), x, results);
            && (x'.step == End ==> x'.data.ok && (Powers(own, CoreOf(x), replies) <==> mode))
            && (|replies| >= 3 + 3 * n ==> x'.step == End)
  {
    var x := Started(best, Complete, limit, delay);
    var n := |Initial(DEFAULT_PROGRAMS, best).all|;
    var replies := Passed(results, Max(0, limit), 0);
    StartedIsSound(best, Complete, limit, delay);
    LuciRetries();
    NamesListed(best, own);
    RunIsPassed(LuciScript(), x, results);
    ServedIsConfigured(own, mode, CoreOf(x), replies, n);
    if PlainRun(LuciScript(), CoreOf(x), replies).step == End {
      ServedPowersIff(own, mode, CoreOf(x), replies, n);
    }
  }
}
