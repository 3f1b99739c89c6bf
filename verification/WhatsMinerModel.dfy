/**
  The script that configures a WhatsMiner: log in, fetch a token page, post the configuration, possibly set the power
  mode, restart the mining program. Every page but the login's is looked for under one program name after another.
*/
module WhatsMinerModel {
  import opened Wrappers

  import opened ExecutorModel
  import opened MiningProgramModel

  datatype Name =
    | GetSession | ParseSession | GetNoPswdSession | ParseNoPswdSession | GetToken | ParseToken
    | SetMinerConf | ParseSetMinerConf | SetPowerMode | ParseSetPowerMode | RestartCGMiner | ParseRestartCGMiner

  /** The login the settings hold for the miner: complete, none, or one without a user name. */
  datatype Login = Complete | Missing | Broken

  /** The request to send. A form carries the token last fetched, identified here by the program whose page had it. */
  datatype Request =
    | Nothing
    | Login(withPassword: bool)
    | TokenPage(program: string)
    | Config(program: string, token: Option<string>)
    | Power(program: string, token: Option<string>)
    | Restart(program: string)

  /**
    `nameMissing`: a path was to be built from a program name where there was none, which raises an error.
    `ok`: the user is told that all went well.
   */
  datatype Luci = Luci(programs: Programs, request: Request, token: Option<string>, login: Login, nameMissing: bool,
                       ok: bool)

  /**
    What a handler finds in a response: whether it is HTTP at all, its code, a cookie, a token, whether another power
    mode is asked for, and whether something in it makes the handler raise an error.
   */
  datatype Reply = Reply(parsed: bool, code: nat, cookie: bool, token: bool, newPowerMode: bool, raises: bool)

  const NO_REPLY := Reply(false, 0, false, false, false, false)

  function Go(name: Name, d: Luci): ExecutorModel.Next<Name, Luci> {
    ExecutorModel.Next(Script(name), d, None, None)
  }

  function Stop(d: Luci): ExecutorModel.Next<Name, Luci> {
    ExecutorModel.Next(End, d, None, None)
  }

  function ResetPrograms(d: Luci): Luci {
    d.(programs := Reset(d.programs))
  }

  /** Without a login the request stays as it was, and the step that follows replaces the end that was set. */
  function MakeLogin(d: Luci, withPassword: bool, next: Name): ExecutorModel.Next<Name, Luci> {
    match d.login
    case Complete => Go(next, d.(request := Login(withPassword)))
    case Missing => Go(next, d)
    case Broken => Stop(d)
  }

  /** A request for a page under the next program name. */
  function MakePage(d: Luci, page: string -> Request, next: Name): ExecutorModel.Next<Name, Luci> {
    var programs := TakeNext(d.programs);
    if programs.current.None? then Stop(d.(programs := programs, nameMissing := true))
    else Go(next, d.(programs := programs, request := page(programs.current.value)))
  }

  predicate IsRequest(name: Name) {
    name.GetSession? || name.GetNoPswdSession? || name.GetToken? || name.SetMinerConf? || name.SetPowerMode?
      || name.RestartCGMiner?
  }

  function Make(name: Name, d: Luci): ExecutorModel.Next<Name, Luci>
    requires IsRequest(name)
  {
    match name
    case GetSession => MakeLogin(d, true, ParseSession)
    case GetNoPswdSession => MakeLogin(d, false, ParseNoPswdSession)
    case GetToken => MakePage(d, p => TokenPage(p), ParseToken)
    case SetMinerConf =>
      if d.programs.current.None? then Stop(d.(nameMissing := true))
      else Go(ParseSetMinerConf, d.(request := Config(d.programs.current.value, d.token)))
    case SetPowerMode => MakePage(d, p => Power(p, d.token), ParseSetPowerMode)
    case RestartCGMiner => MakePage(d, p => Restart(p), ParseRestartCGMiner)
  }

  predicate LoggedIn(r: Reply) {
    r.parsed && r.code == 302 && r.cookie
  }

  function PageOwner(d: Luci): Option<string> {
    if d.request.TokenPage? then Some(d.request.program) else d.token
  }

  function Handle(name: Name, d: Luci, r: Reply): ExecutorModel.Next<Name, Luci>
    requires !IsRequest(name)
  {
    match name
    case ParseSession =>
      if !LoggedIn(r) then Go(GetNoPswdSession, d)
      else if r.raises then Stop(d)
      else Go(GetToken, ResetPrograms(d))
    case ParseNoPswdSession =>
      if !LoggedIn(r) || r.raises then Stop(d) else Go(GetToken, ResetPrograms(d))
    case ParseToken =>
      if !r.parsed then Stop(d)
      else if r.code == 404 && d.programs.working != [] then Go(GetToken, d)
      else if r.code != 200 || !r.token || r.raises then Stop(d)
      else Go(SetMinerConf, d.(token := PageOwner(d)))
    case ParseSetMinerConf =>
      if !r.parsed || r.code != 200 || r.raises then Stop(d)
      else if r.newPowerMode then Go(SetPowerMode, ResetPrograms(d))
      else Go(RestartCGMiner, ResetPrograms(d))
    case ParseSetPowerMode =>
      if !r.parsed then Stop(d)
      else if r.code == 404 && d.programs.working != [] then Go(SetPowerMode, d)
      else Go(RestartCGMiner, ResetPrograms(d))
    case ParseRestartCGMiner =>
      if r.parsed && r.code == 404 && d.programs.working != [] then Go(RestartCGMiner, d)
      else Stop(d.(ok := r.parsed && r.code == 302))
  }

  /** Performs a step, a request or a handler, in whichever half of a round it is called. */
  function Perform(name: Name, d: Luci, r: Reply): ExecutorModel.Next<Name, Luci> {
    if IsRequest(name) then Make(name, d) else Handle(name, d, r)
  }

  /** The script as a behaviour. */
  function LuciScript(): Behaviour<Name, Luci, Reply> {
    Behaviour((name, d) => Perform(name, d, NO_REPLY), (name, d, r) => Perform(name, d, r))
  }

  /** The executor before its first call: the login is still to be requested. */
  function Fresh(best: Option<string>, login: Login, limit: int, delay: int): Executor<Name, Luci> {
    Executor(Script(GetSession), Luci(Initial(DEFAULT_PROGRAMS, best), Nothing, None, login, false, false), delay,
             InitRetry(limit))
  }

  /** The executor once its first request is made. */
  function Started(best: Option<string>, login: Login, limit: int, delay: int): Executor<Name, Luci> {
    MakeRequest(LuciScript(), Fresh(best, login, limit, delay))
  }

  // ---- what holds whenever a response is due ----

  /** What is left to try is a prefix of the list. */
  predicate Pending(p: Programs) {
    |p.working| <= |p.all| && p.working == p.all[..|p.working|]
  }

  /** `name` is the one taken last: the names after it are tried, those before it are not. */
  predicate Trying(p: Programs, name: string) {
    Pending(p) && |p.working| < |p.all| && p.current == Some(name) && name == p.all[|p.working|]
  }

  /** The login is out, with the password or without; without a stored login nothing is. */
  predicate LoginSent(d: Luci, withPassword: bool) {
    d.request == if d.login == Complete then Login(withPassword) else Nothing
  }

  predicate Sound(c: Core<Name, Luci>, n: nat) {
    var d := c.data;
    && |d.programs.all| == n > 0 && !d.nameMissing
    && (c.step.Script? ==> !IsRequest(c.step.name))
    && c.step != DoRetry && (d.ok ==> c.step == End)
    && (c.step == Script(ParseSession) ==> LoginSent(d, true))
    && (c.step == Script(ParseNoPswdSession) ==> LoginSent(d, false))
    && (c.step == Script(ParseToken) ==> d.request.TokenPage? && Trying(d.programs, d.request.program))
    && (c.step == Script(ParseSetMinerConf) ==> d.request.Config? && d.request.token == Some(d.request.program))
    && (c.step == Script(ParseSetPowerMode) ==> d.request.Power? && Trying(d.programs, d.request.program))
    && (c.step == Script(ParseRestartCGMiner) ==> d.request.Restart? && Trying(d.programs, d.request.program))
  }

  /** How many responses the script itself can still take. */
  function Left(c: Core<Name, Luci>): nat {
    var n, w := |c.data.programs.all|, |c.data.programs.working|;
    match c.step
    case Script(ParseSession) => 3 + 3 * n
    case Script(ParseNoPswdSession) => 2 + 3 * n
    case Script(ParseToken) => 2 + w + 2 * n
    case Script(ParseSetMinerConf) => 1 + 2 * n
    case Script(ParseSetPowerMode) => 1 + w + n
    case Script(ParseRestartCGMiner) => 1 + w
    case _ => 0
  }

  lemma TakenInOrder(p: Programs)
    requires Pending(p) && p.working != []
    ensures var p' := TakeNext(p);
            Trying(p', p'.current.value) && |p'.working| == |p.working| - 1 && p'.all == p.all
  {
  }

  /** What a request step relies on. */
  predicate Ready(name: Name, d: Luci, n: nat) {
    && |d.programs.all| == n > 0 && !d.nameMissing && !d.ok && IsRequest(name)
    && (name.GetSession? || name.GetNoPswdSession? ==> d.login == Complete || d.request == Nothing)
    && (name.GetToken? || name.SetPowerMode? || name.RestartCGMiner? ==>
          Pending(d.programs) && d.programs.working != [])
    && (name.SetMinerConf? ==> d.programs.current.Some? && d.token == d.programs.current)
  }

  function LeftBefore(name: Name, d: Luci): nat {
    var n, w := |d.programs.all|, |d.programs.working|;
    match name
    case GetNoPswdSession => 2 + 3 * n
    case GetToken => 1 + w + 2 * n
    case SetMinerConf => 1 + 2 * n
    case SetPowerMode => w + n
    case RestartCGMiner => w
    case _ => 3 + 3 * n
  }

  lemma RequestedSoundly(name: Name, d: Luci, n: nat)
    requires Ready(name, d, n)
    ensures var next := Make(name, d);
            Sound(Core(next.step, next.data), n) && Left(Core(next.step, next.data)) <= LeftBefore(name, d)
  {
    if name.GetToken? || name.SetPowerMode? || name.RestartCGMiner? {
      TakenInOrder(d.programs);
    }
  }

  lemma HandlerIsReady(name: Name, d: Luci, r: Reply, n: nat)
    requires Sound(Core(Script(name), d), n)
    ensures var next := Handle(name, d, r);
            next.step != DoRetry && |next.data.programs.all| == n && !next.data.nameMissing
            && (next.step.Script? ==>
                  Ready(next.step.name, next.data, n)
                  && LeftBefore(next.step.name, next.data) < Left(Core(Script(name), d)))
  {
  }

  lemma HandledSoundly(c: Core<Name, Luci>, r: Reply, n: nat)
    requires Sound(c, n) && c.step.Script?
    ensures Sound(PlainRound(LuciScript(), c, r), n)
    ensures Left(PlainRound(LuciScript(), c, r)) < Left(c)
  {
    var next := Handle(c.step.name, c.data, r);
    HandlerIsReady(c.step.name, c.data, r, n);
    assert LuciScript().respond(c.step.name, c.data, r) == next;
    if next.step.Script? {
      assert LuciScript().request(next.step.name, next.data) == Make(next.step.name, next.data);
      RequestedSoundly(next.step.name, next.data, n);
    }
  }

  /** The configuration is posted exactly when a token page answers, to the program of that page and with its token. */
  lemma ConfigFollowsToken(c: Core<Name, Luci>, r: Reply, n: nat)
    requires Sound(c, n) && c.step.Script?
    ensures var c' := PlainRound(LuciScript(), c, r);
            var answered := c.step == Script(ParseToken) && r.parsed && r.code == 200 && r.token && !r.raises;
            (c'.step == Script(ParseSetMinerConf) <==> answered)
            && (answered ==>
                  c.data.request.TokenPage?
                  && c'.data.request == Config(c.data.request.program, Some(c.data.request.program)))
  {
  }

  lemma StartedIsSound(best: Option<string>, login: Login, limit: int, delay: int)
    ensures var x := Started(best, login, limit, delay);
            var n := |Initial(DEFAULT_PROGRAMS, best).all|;
            AtRest(x) && Sound(CoreOf(x), n) && Left(CoreOf(x)) <= 3 + 3 * n && !Late(CoreOf(x))
            && x.retry == InitRetry<Name>(limit)
            && OwnSteps(LuciScript())
  {
    DefaultsAndBest(best);
  }

  lemma {:induction false} RunIsSound(x: Executor<Name, Luci>, results: seq<Result<Reply>>, n: nat)
    requires OwnSteps(LuciScript()) && AtRest(x) && Sound(CoreOf(x), n) && Consumes(LuciScript(), x, results)
    ensures var c := CoreOf(Run(LuciScript(), x, results));
            Sound(c, n) && |Executed(LuciScript(), x, results)| + Left(c) <= Left(CoreOf(x))
    decreases |results|
  {
    if results != [] {
      var b := LuciScript();
      var x' := Round(b, x, results[0]);
      RoundKeepsRest(b, x, results[0]);
      if results[0].transient && CanRetry(x.retry) {
        RetryResends(b, x, results[0]);
      } else {
        assert CoreOf(x') == PlainRound(b, CoreOf(x), results[0].reply);
        HandledSoundly(CoreOf(x), results[0].reply, n);
      }
      RunIsSound(x', results[1..], n);
    }
  }

  lemma UnendedIsLeft(c: Core<Name, Luci>, n: nat)
    requires Sound(c, n) && c.step != End
    ensures Left(c) > 0
  {
  }

  /** `count` responses for `reached` handled ones, with `extra` failures of the request now out. */
  lemma Bounded(count: nat, limit: nat, reached: nat, extra: nat, left: nat, all: nat)
    requires count <= (limit + 1) * reached + extra && extra <= limit && reached + left <= all
    requires left == 0 ==> extra == 0
    ensures count <= (limit + 1) * all && (left > 0 ==> count < (limit + 1) * all)
  {
    var most := if left > 0 then reached + 1 else reached;
    assert (limit + 1) * most <= (limit + 1) * all;
    assert (limit + 1) * (reached + 1) == (limit + 1) * reached + (limit + 1);
  }

  lemma RunIsBounded(x: Executor<Name, Luci>, results: seq<Result<Reply>>, n: nat, all: nat)
    requires OwnSteps(LuciScript()) && AtRest(x) && Sound(CoreOf(x), n) && Consumes(LuciScript(), x, results)
    requires x.retry.times == 0 && Left(CoreOf(x)) <= all
    ensures |results| <= (Max(0, x.retry.limit) + 1) * all
    ensures Run(LuciScript(), x, results).step != End ==> |results| < (Max(0, x.retry.limit) + 1) * all
  {
    RunIsSound(x, results, n);
    RetryIsBounded(LuciScript(), x, results);
    var x' := Run(LuciScript(), x, results);
    if x'.step != End {
      UnendedIsLeft(CoreOf(x'), n);
    }
    Bounded(|results|, Max(0, x.retry.limit), |Executed(LuciScript(), x, results)|, x'.retry.times, Left(CoreOf(x')),
            all);
  }

  lemma RunIsSettled(x: Executor<Name, Luci>, results: seq<Result<Reply>>, limit: int, n: nat)
    requires OwnSteps(LuciScript()) && AtRest(x) && Sound(CoreOf(x), n) && Consumes(LuciScript(), x, results)
    requires x.retry == InitRetry<Name>(limit) && Left(CoreOf(x)) <= 3 + 3 * n
    ensures var x' := Run(LuciScript(), x, results);
            && |results| <= (Max(0, limit) + 1) * (3 + 3 * n)
            && (x'.step != End ==> |results| < (Max(0, limit) + 1) * (3 + 3 * n))
            && Sound(CoreOf(x'), n)
  {
    RunIsSound(x, results, n);
    RunIsBounded(x, results, n, 3 + 3 * n);
  }

  /**
    Every configuration ends, within so many responses, whatever they are and however many sessions fail; no name is
    ever missing on the way, and the configuration goes to the program whose token page answered, with its token.
   */
  lemma ConfigurationEnds(best: Option<string>, login: Login, limit: int, delay: int, results: seq<Result<Reply>>)
    requires Consumes(LuciScript(), Started(best, login, limit, delay), results)
    ensures var n := |Initial(DEFAULT_PROGRAMS, best).all|;
            var x' := Run(LuciScript(), Started(best, login, limit, delay), results);
            && |results| <= (Max(0, limit) + 1) * (3 + 3 * n)
            && (x'.step != End ==> |results| < (Max(0, limit) + 1) * (3 + 3 * n))
            && !x'.data.nameMissing
            && (x'.step == Script(ParseSetMinerConf) ==>
                  x'.data.request.Config? && x'.data.request.token == Some(x'.data.request.program))
  {
    StartedIsSound(best, login, limit, delay);
    RunIsSettled(Started(best, login, limit, delay), results, limit, |Initial(DEFAULT_PROGRAMS, best).all|);
  }

  // ---- what "ok" means ----

  /** The `i`-th reply acknowledges a configuration that carried the right token. */
  predicate Acknowledged(c: Core<Name, Luci>, replies: seq<Reply>, i: nat) {
    i < |replies| && replies[i].parsed && replies[i].code == 200
    && var at := PlainRun(LuciScript(), c, replies[..i]);
       at.step == Script(ParseSetMinerConf) && at.data.request.Config?
       && at.data.request.token == Some(at.data.request.program)
  }

  predicate Late(c: Core<Name, Luci>) {
    c.data.ok || c.step == Script(ParseSetPowerMode) || c.step == Script(ParseRestartCGMiner)
  }

  lemma {:induction false} PlainRunAppend(c: Core<Name, Luci>, replies: seq<Reply>, last: Reply)
    ensures PlainRun(LuciScript(), c, replies + [last])
         == PlainRound(LuciScript(), PlainRun(LuciScript(), c, replies), last)
    decreases |replies|
  {
    if replies == [] {
      assert replies + [last] == [last] && [last][1..] == [];
    } else {
      assert (replies + [last])[1..] == replies[1..] + [last];
      PlainRunAppend(PlainRound(LuciScript(), c, replies[0]), replies[1..], last);
    }
  }

  lemma {:induction false} PlainRunIsSound(c: Core<Name, Luci>, replies: seq<Reply>, n: nat)
    requires Sound(c, n)
    ensures Sound(PlainRun(LuciScript(), c, replies), n)
    decreases |replies|
  {
    if replies != [] {
      if c.step.Script? {
        HandledSoundly(c, replies[0], n);
      }
      PlainRunIsSound(PlainRound(LuciScript(), c, replies[0]), replies[1..], n);
    }
  }

  lemma LateIsAcknowledged(c: Core<Name, Luci>, r: Reply, n: nat)
    requires Sound(c, n) && !Late(c) && Late(PlainRound(LuciScript(), c, r))
    ensures r.parsed && r.code == 200 && c.step == Script(ParseSetMinerConf)
    ensures c.data.request.Config? && c.data.request.token == Some(c.data.request.program)
  {
  }

  /** The user is told that all went well only if the miner acknowledged a configuration with the right token. */
  lemma {:induction false} OkIsAcknowledged(c: Core<Name, Luci>, replies: seq<Reply>, n: nat) returns (i: nat)
    requires Sound(c, n) && !Late(c) && Late(PlainRun(LuciScript(), c, replies))
    ensures Acknowledged(c, replies, i)
    decreases |replies|
  {
    var m := |replies| - 1;
    var first := replies[..m];
    assert replies == first + [replies[m]];
    PlainRunAppend(c, first, replies[m]);
    PlainRunIsSound(c, first, n);
    if Late(PlainRun(LuciScript(), c, first)) {
      i := OkIsAcknowledged(c, first, n);
      assert first[..i] == replies[..i];
    } else {
      LateIsAcknowledged(PlainRun(LuciScript(), c, first), replies[m], n);
      i := m;
    }
  }

  /** Through the retry layer too: one of the replies that reached the script acknowledged the configuration. */
  lemma OkIsAcknowledgedInRun(best: Option<string>, login: Login, limit: int, delay: int, results: seq<Result<Reply>>)
    returns (i: nat)
    requires Consumes(LuciScript(), Started(best, login, limit, delay), results)
    requires Run(LuciScript(), Started(best, login, limit, delay), results).data.ok
    ensures var x := Started(best, login, limit, delay);
            Acknowledged(CoreOf(x), Executed(LuciScript(), x, results), i)
  {
    var x := Started(best, login, limit, delay);
    StartedIsSound(best, login, limit, delay);
    RetryIsTransparent(LuciScript(), x, results);
    i := OkIsAcknowledged(CoreOf(x), Executed(LuciScript(), x, results), |Initial(DEFAULT_PROGRAMS, best).all|);
  }
}
