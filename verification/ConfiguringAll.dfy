/**
  The scheduler and the WhatsMiner script together: configuring a whole source of miners, whatever they reply.
*/
module ConfiguringAll {
  import opened Wrappers

  import opened ExecutorModel
  import opened MiningProgramModel
  import R = SchedulerRounds
  import S = SchedulerModel
  import T = Scanning
  import W = WhatsMinerModel

  type Outcome = ExecutorModel.Result<W.Reply>

  /** A miner to configure; `results` are what its sessions will end with, one after the other. */
  datatype Miner = Miner(best: Option<string>, login: W.Login, limit: int, delay: int, results: nat -> Outcome)

  function Started(m: Miner): Executor<W.Name, W.Luci> {
    W.Started(m.best, m.login, m.limit, m.delay)
  }

  function Fresh(m: Miner): Executor<W.Name, W.Luci> {
    W.Fresh(m.best, m.login, m.limit, m.delay)
  }

  /** Whether the `j`-th call for the `k`-th miner leaves its step at the end. */
  predicate EndsAt(miners: seq<Miner>, k: nat, j: nat) {
    k < |miners| && AfterCalls(W.LuciScript(), Fresh(miners[k]), miners[k].results, j + 1).step == End
  }

  /** The scheduler with these scripts. */
  function Setup(miners: seq<Miner>, stepSize: int): S.Config {
    S.Config(|miners|, stepSize, (k: nat, j: nat) => EndsAt(miners, k, j))
  }

  function Limit(m: Miner): nat {
    (Max(0, m.limit) + 1) * (3 + 3 * |Initial(DEFAULT_PROGRAMS, m.best).all|)
  }

  lemma RunEnds(m: Miner, results: seq<Outcome>)
    requires Consumes(W.LuciScript(), Started(m), results)
    ensures Run(W.LuciScript(), Started(m), results).step == End || |results| < Limit(m)
  {
    W.ConfigurationEnds(m.best, m.login, m.limit, m.delay, results);
  }

  /** The script of a miner has ended after so many responses. */
  lemma ScriptEnds(m: Miner)
    ensures After(W.LuciScript(), Started(m), m.results, Limit(m)).step == End
  {
    if After(W.LuciScript(), Started(m), m.results, Limit(m)).step != End {
      AfterIsRun(W.LuciScript(), Started(m), m.results, Limit(m));
      RunEnds(m, First(m.results, Limit(m)));
    }
  }

  /** How long the contexts live. */
  function Lives(miners: seq<Miner>): (lives: seq<nat>)
    ensures |lives| == |miners| && forall k :: 0 <= k < |miners| ==> lives[k] == 2 * Limit(miners[k])
  {
    if miners == [] then [] else Lives(miners[..|miners| - 1]) + [2 * Limit(miners[|miners| - 1])]
  }

  lemma EndsInTime(miners: seq<Miner>, k: nat)
    requires k < |miners|
    ensures EndsAt(miners, k, 2 * Limit(miners[k]))
  {
    var m := miners[k];
    ScriptEnds(m);
    CallsAreRounds(W.LuciScript(), Fresh(m), m.results, Limit(m));
  }

  lemma ScriptsAreFinite(miners: seq<Miner>, stepSize: int)
    ensures S.Finite(Setup(miners, stepSize), Lives(miners))
  {
    forall k: nat | k < |miners| ensures Setup(miners, stepSize).script(k, Lives(miners)[k]) {
      EndsInTime(miners, k);
    }
  }

  /** The sum of the script calls that the first `n` miners can take. */
  function Total(miners: seq<Miner>, n: nat): nat
    requires n <= |miners|
  {
    if n == 0 then 0 else Total(miners, n - 1) + 2 * Limit(miners[n - 1]) + 1
  }

  lemma {:induction false} RemainingIsLess(c: S.Config, miners: seq<Miner>, lives: seq<nat>, s: S.State, n: nat)
    requires n <= |miners| == |lives| && forall k :: 0 <= k < n ==> lives[k] == 2 * Limit(miners[k])
    ensures S.Remaining(c, lives, s, n) <= Total(miners, n)
    decreases n
  {
    if n > 0 {
      RemainingIsLess(c, miners, lives, s, n - 1);
    }
  }

  lemma RunsEnd(c: S.Config, miners: seq<Miner>, lives: seq<nat>, ss: seq<S.State>, n: nat)
    requires c.size == |miners| && lives == Lives(miners) && S.Finite(c, lives) && S.IsRun(c, ss) && n < |ss|
    ensures n <= Total(miners, |miners|)
  {
    S.RunsAreBounded(c, lives, ss, n);
    RemainingIsLess(c, miners, lives, ss[0], |miners|);
  }

  /** The script of a miner after `calls` calls, requests and results in turn. */
  function Called(m: Miner, calls: nat): Executor<W.Name, W.Luci> {
    AfterCalls(W.LuciScript(), Fresh(m), m.results, calls)
  }

  /** Where its responses bring it. */
  function Responded(m: Miner, responses: nat): Executor<W.Name, W.Luci> {
    After(W.LuciScript(), Started(m), m.results, responses)
  }

  lemma CalledIsResponded(m: Miner, calls: nat, responses: nat)
    requires calls == 2 * responses + 1
    ensures Called(m, calls) == Responded(m, responses)
  {
    CallsAreRounds(W.LuciScript(), Fresh(m), m.results, responses);
  }

  ghost predicate Awaits(x: Executor<W.Name, W.Luci>) {
    x.step.Script? && !W.IsRequest(x.step.name)
  }

  /** A script that has not ended awaits a response after each of its rounds. */
  lemma RespondedAwaits(m: Miner, responses: nat)
    requires Responded(m, responses).step != End
    ensures Awaits(Responded(m, responses))
  {
    AfterIsRun(W.LuciScript(), Started(m), m.results, responses);
    W.StartedIsSound(m.best, m.login, m.limit, m.delay);
    W.RunIsSound(Started(m), First(m.results, responses), |Initial(DEFAULT_PROGRAMS, m.best).all|);
  }

  /** What one call that does not end the script says about the whole of it. */
  lemma NotEndedAwaits(miners: seq<Miner>, k: nat, calls: nat, responses: nat)
    requires k < |miners| && calls == 2 * responses + 1 && !EndsAt(miners, k, calls - 1)
    ensures Called(miners[k], calls) == Responded(miners[k], responses) && Awaits(Responded(miners[k], responses))
  {
    CalledIsResponded(miners[k], calls, responses);
    RespondedAwaits(miners[k], responses);
  }

  lemma InFlightHasNotEnded(miners: seq<Miner>, stepSize: int, c: S.Config, ks: seq<nat>, ss: seq<S.State>, n: nat,
                            k: nat)
    requires c == Setup(miners, stepSize) && R.Answers(c, ks, ss) && n <= |ks| && k in ss[n].inFlight
    ensures k < |miners| && S.Calls(ss[n], k) == 2 * R.Count(ks, k, n) + 1
    ensures !EndsAt(miners, k, S.Calls(ss[n], k) - 1)
  {
    R.InFlightHasNotEnded(c, ks, ss, n, k);
  }

  /**
    The script of a miner in flight is where its responses so far have brought it, and awaits another one: no response
    is ever handed to a request step, and no call is skipped.
   */
  lemma InFlightAwaits(miners: seq<Miner>, stepSize: int, c: S.Config, ks: seq<nat>, ss: seq<S.State>, n: nat, k: nat)
    requires c == Setup(miners, stepSize) && R.Answers(c, ks, ss) && n <= |ks| && k in ss[n].inFlight
    ensures k < |miners| && Called(miners[k], S.Calls(ss[n], k)) == Responded(miners[k], R.Count(ks, k, n))
    ensures Awaits(Responded(miners[k], R.Count(ks, k, n)))
  {
    InFlightHasNotEnded(miners, stepSize, c, ks, ss, n, k);
    NotEndedAwaits(miners, k, S.Calls(ss[n], k), R.Count(ks, k, n));
  }

  /**
    Configuring a source of WhatsMiners, whatever they reply and in whatever order: the scheduler handles no more
    responses than this, and once nothing is in flight every miner has been dealt with exactly once.
   */
  lemma ConfiguringEnds(miners: seq<Miner>, stepSize: int, ss: seq<S.State>, n: nat)
    requires S.IsRun(Setup(miners, stepSize), ss) && n < |ss|
    ensures n <= Total(miners, |miners|)
    ensures ss[n].inFlight == {} && stepSize >= 1 ==>
              |ss[n].deleted| == |miners| && forall k: nat :: k in ss[n].deleted <==> k < |miners|
  {
    var c := Setup(miners, stepSize);
    ScriptsAreFinite(miners, stepSize);
    RunsEnd(c, miners, Lives(miners), ss, n);
    if ss[n].inFlight == {} {
      S.DrainedMeansDone(c, ss, n);
    }
  }

  /**
    The same with the sessions of the client: they deliver no more responses than this, and when nothing can happen any
    more every miner has been dealt with, unless a request was one that is never answered.
   */
  lemma ConfiguringScanEnds(miners: seq<Miner>, p: T.Plan, ss: seq<T.State>, n: nat)
    requires p.config == Setup(miners, p.config.stepSize) && p.config.stepSize >= 1
    requires T.Buffered(p) && T.IsRun(p, ss) && n < |ss|
    ensures T.Answered(ss[n].sessions) <= Total(miners, |miners|)
    ensures T.Ended(ss[n]) ==> (T.Done(p.config, ss[n].now) <==> T.NoneMute(ss[n].sessions))
  {
    ScriptsAreFinite(miners, p.config.stepSize);
    T.ResponsesAreBounded(p, Lives(miners), ss, n);
    RemainingIsLess(p.config, miners, Lives(miners), S.Fill(p.config, S.START, 0), |miners|);
    T.ScanIsDoneIff(p, ss, n);
  }
}
