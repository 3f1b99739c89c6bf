/**
  The step protocol of the script executors: request and response steps in turn, with a layer that repeats a request
  whose session failed.

  A script is a function from step to step, given by the executor class; `N` names its steps, `D` is whatever it keeps,
  the request to be sent included, and `R` is what a response brings.
*/
module ExecutorModel {
  import opened Wrappers

  /** A step: one of the script's own, the step that repeats a request, or the end. */
  datatype Step<N> = Script(name: N) | DoRetry | End

  /** What a script step leaves: the next step, its data, and a delay or a switch of the retry layer if it sets one. */
  datatype Next<N, D> = Next(step: Step<N>, data: D, delay: Option<int>, enable: Option<bool>)

  datatype Behaviour<!N, !D, !R> = Behaviour(request: (N, D) -> Next<N, D>, respond: (N, D, R) -> Next<N, D>)

  const RETRY_DELAY := 1

  datatype AutoRetry<N> = AutoRetry(
    enable: bool, inRetry: bool, limit: int, times: nat, originDelay: Option<int>, originStep: Option<Step<N>>)

  /** `delay` is the delay of the request about to be sent. */
  datatype Executor<N, D> = Executor(step: Step<N>, data: D, delay: int, retry: AutoRetry<N>)

  /** How a session ended: `transient` for anything but success, a timeout or a truncated stream. */
  datatype Result<R> = Result(transient: bool, reply: R)

  function InitRetry<N>(limit: int): AutoRetry<N> {
    AutoRetry(true, false, limit, 0, None, None)
  }

  predicate CanRetry<N>(retry: AutoRetry<N>) {
    retry.enable && retry.times < retry.limit
  }

  /** `retry`: remembers the delay and the step and makes `doRetry` the next one. */
  function Retry<N, D>(x: Executor<N, D>): Executor<N, D> {
    x.(step := DoRetry, delay := RETRY_DELAY,
       retry := x.retry.(originDelay := Some(x.delay), originStep := Some(x.step), times := x.retry.times + 1,
                         inRetry := true))
  }

  function StopRetry<N, D>(x: Executor<N, D>): Executor<N, D> {
    x.(delay := if x.retry.originDelay.Some? then x.retry.originDelay.value else x.delay,
       retry := InitRetry(x.retry.limit))
  }

  function Goto<N, D>(x: Executor<N, D>, next: Next<N, D>): Executor<N, D> {
    x.(step := next.step, data := next.data, delay := if next.delay.Some? then next.delay.value else x.delay,
       retry := if next.enable.Some? then x.retry.(enable := next.enable.value) else x.retry)
  }

  /** `makeRequest`: executes the current step. */
  function MakeRequest<N, D, R>(b: Behaviour<N, D, R>, x: Executor<N, D>): Executor<N, D> {
    match x.step
    case Script(name) => Goto(x, b.request(name, x.data))
    case DoRetry => x.(step := if x.retry.originStep.Some? then x.retry.originStep.value else End)
    case End => x
  }

  function ExecResponse<N, D, R>(b: Behaviour<N, D, R>, x: Executor<N, D>, reply: R): Executor<N, D> {
    match x.step
    case Script(name) => Goto(x, b.respond(name, x.data, reply))
    case _ => x.(step := End)
  }

  /** `makeResult`: repeats a failed request as often as allowed, and otherwise executes the current step. */
  function MakeResult<N, D, R>(b: Behaviour<N, D, R>, x: Executor<N, D>, result: Result<R>): Executor<N, D> {
    if result.transient && CanRetry(x.retry) then Retry(x)
    else ExecResponse(b, if x.retry.inRetry then StopRetry(x) else x, result.reply)
  }

  /** One response and, unless the script ends, the next request. */
  function Round<N, D, R>(b: Behaviour<N, D, R>, x: Executor<N, D>, result: Result<R>): Executor<N, D> {
    var x' := MakeResult(b, x, result);
    if x'.step == End then x' else MakeRequest(b, x')
  }

  /** A response is due only while the script has not ended; `results` are all handled. */
  predicate Consumes<N(==), D, R>(b: Behaviour<N, D, R>, x: Executor<N, D>, results: seq<Result<R>>)
    decreases |results|
  {
    results == [] || (x.step != End && Consumes(b, Round(b, x, results[0]), results[1..]))
  }

  function Run<N(==), D, R>(b: Behaviour<N, D, R>, x: Executor<N, D>, results: seq<Result<R>>): Executor<N, D>
    requires Consumes(b, x, results)
    decreases |results|
  {
    if results == [] then x else Run(b, Round(b, x, results[0]), results[1..])
  }

  /** The replies that reach the script. */
  function Executed<N(==), D, R>(b: Behaviour<N, D, R>, x: Executor<N, D>, results: seq<Result<R>>): seq<R>
    requires Consumes(b, x, results)
    decreases |results|
  {
    if results == [] then []
    else
      (if results[0].transient && CanRetry(x.retry) then [] else [results[0].reply])
      + Executed(b, Round(b, x, results[0]), results[1..])
  }

  // ---- the script on its own ----

  /** The step and the data, which is all that the script sees. */
  datatype Core<N, D> = Core(step: Step<N>, data: D)

  function CoreOf<N, D>(x: Executor<N, D>): Core<N, D> {
    Core(x.step, x.data)
  }

  function PlainRequest<N, D, R>(b: Behaviour<N, D, R>, c: Core<N, D>): Core<N, D> {
    match c.step
    case Script(name) => var next := b.request(name, c.data); Core(next.step, next.data)
    case _ => c.(step := End)
  }

  /** One response and the next request, without any retrying. */
  function PlainRound<N(==), D, R>(b: Behaviour<N, D, R>, c: Core<N, D>, reply: R): Core<N, D> {
    match c.step
    case Script(name) =>
      var next := b.respond(name, c.data, reply);
      if next.step == End then Core(End, next.data) else PlainRequest(b, Core(next.step, next.data))
    case _ => c.(step := End)
  }

  function PlainRun<N(==), D, R>(b: Behaviour<N, D, R>, c: Core<N, D>, replies: seq<R>): Core<N, D>
    decreases |replies|
  {
    if replies == [] then c else PlainRun(b, PlainRound(b, c, replies[0]), replies[1..])
  }

  /** The script uses no step of the retry layer. */
  ghost predicate OwnSteps<N(!new), D(!new), R(!new)>(b: Behaviour<N, D, R>) {
    && (forall n, d :: b.request(n, d).step != DoRetry)
    && (forall n, d, r :: b.respond(n, d, r).step != DoRetry)
  }

  /** Between two requests: the retry layer counts the repeats of the current request and is at rest otherwise. */
  ghost predicate AtRest<N, D>(x: Executor<N, D>) {
    && x.step != DoRetry
    && (x.retry.inRetry <==> x.retry.times > 0)
    && (x.retry.inRetry ==>
          x.step != End && x.retry.times <= x.retry.limit
          && x.retry.originStep == Some(x.step) && x.retry.originDelay.Some?)
  }

  lemma RoundKeepsRest<N(!new), D(!new), R(!new)>(b: Behaviour<N, D, R>, x: Executor<N, D>, result: Result<R>)
    requires OwnSteps(b) && AtRest(x) && x.step != End
    ensures AtRest(Round(b, x, result)) && Round(b, x, result).retry.limit == x.retry.limit
  {
  }

  /** A repeated request: the same data to the same step; the delay is the layer's own. */
  lemma RetryResends<N(!new), D(!new), R(!new)>(b: Behaviour<N, D, R>, x: Executor<N, D>, result: Result<R>)
    requires OwnSteps(b) && AtRest(x) && x.step != End && result.transient && CanRetry(x.retry)
    ensures var x' := Round(b, x, result);
            CoreOf(x') == CoreOf(x) && x'.delay == RETRY_DELAY && x'.retry.times == x.retry.times + 1
            && x'.retry.originDelay == Some(x.delay)
  {
  }

  /**
    Retrying is transparent: however failures are interspersed, the script is where it would be had it seen only the
    replies that reached it.
   */
  lemma {:induction false} RetryIsTransparent<N(!new), D(!new), R(!new)>(b: Behaviour<N, D, R>, x: Executor<N, D>,
                                                                         results: seq<Result<R>>)
    requires OwnSteps(b) && AtRest(x) && Consumes(b, x, results)
    ensures CoreOf(Run(b, x, results)) == PlainRun(b, CoreOf(x), Executed(b, x, results))
    decreases |results|
  {
    if results != [] {
      var x' := Round(b, x, results[0]);
      var rest := Executed(b, x', results[1..]);
      RoundKeepsRest(b, x, results[0]);
      RetryIsTransparent(b, x', results[1..]);
      if results[0].transient && CanRetry(x.retry) {
        RetryResends(b, x, results[0]);
        assert Executed(b, x, results) == rest;
      } else {
        assert Executed(b, x, results) == [results[0].reply] + rest;
        assert CoreOf(x') == PlainRound(b, CoreOf(x), results[0].reply);
      }
    }
  }

  function Max(a: int, b: int): int {
    if a > b then a else b
  }

  /** Retrying is bounded: between two replies that reach the script there are at most `limit` failures. */
  lemma {:induction false} RetryIsBounded<N(!new), D(!new), R(!new)>(b: Behaviour<N, D, R>, x: Executor<N, D>,
                                                                     results: seq<Result<R>>)
    requires OwnSteps(b) && AtRest(x) && Consumes(b, x, results)
    ensures var x' := Run(b, x, results);
            |results| + x.retry.times <= (Max(0, x.retry.limit) + 1) * |Executed(b, x, results)| + x'.retry.times
            && x'.retry.times <= Max(0, x.retry.limit) && AtRest(x')
    decreases |results|
  {
    if results != [] {
      var x' := Round(b, x, results[0]);
      RoundKeepsRest(b, x, results[0]);
      RetryIsBounded(b, x', results[1..]);
      var reached := |Executed(b, x', results[1..])|;
      assert |Executed(b, x, results)| == reached + if results[0].transient && CanRetry(x.retry) then 0 else 1;
      OneMoreReached(Max(0, x.retry.limit) + 1, reached);
    }
  }

  lemma OneMoreReached(most: nat, reached: nat)
    ensures most * (reached + 1) == most * reached + most
  {
  }

  /**
    A burst of failures before a reply that reaches the script: no more than `limit` of them, and the script takes the
    reply with the delay it had set after one failure, but with the layer's own delay after two or more.
   */
  lemma {:induction false} DelayAfterRetries<N(!new), D(!new), R(!new)>(b: Behaviour<N, D, R>, x: Executor<N, D>,
                                                                        failures: seq<Result<R>>)
    requires OwnSteps(b) && AtRest(x) && !x.retry.inRetry && x.step.Script? && x.retry.enable
    requires |failures| <= x.retry.limit && forall i :: 0 <= i < |failures| ==> failures[i].transient
    ensures Consumes(b, x, failures) && Executed(b, x, failures) == []
    ensures var x' := Run(b, x, failures);
            AtRest(x') && CoreOf(x') == CoreOf(x) && x'.retry.times == |failures| && x'.retry.enable
            && x'.retry.limit == x.retry.limit
            && (failures != [] ==>
                  x'.retry.inRetry && x'.delay == RETRY_DELAY
                  && StopRetry(x').delay == if |failures| == 1 then x.delay else RETRY_DELAY)
    decreases |failures|
  {
    if failures != [] {
      var n := |failures| - 1;
      DelayAfterRetries(b, x, failures[..n]);
      RunAppend(b, x, failures[..n], failures[n]);
      assert failures == failures[..n] + [failures[n]];
      RetryResends(b, RestAfter(b, x, failures[..n]), failures[n]);
    }
  }

  ghost function RestAfter<N, D, R>(b: Behaviour<N, D, R>, x: Executor<N, D>, results: seq<Result<R>>): Executor<N, D> {
    if Consumes(b, x, results) then Run(b, x, results) else x
  }

  lemma {:induction false} RunAppend<N, D, R>(b: Behaviour<N, D, R>, x: Executor<N, D>, results: seq<Result<R>>,
                                              last: Result<R>)
    requires Consumes(b, x, results) && Run(b, x, results).step != End
    ensures Consumes(b, x, results + [last])
    ensures Run(b, x, results + [last]) == Round(b, Run(b, x, results), last)
    ensures Executed(b, x, results + [last]) ==
            Executed(b, x, results)
            + if last.transient && CanRetry(Run(b, x, results).retry) then [] else [last.reply]
    decreases |results|
  {
    if results == [] {
      assert results + [last] == [last] && [last][1..] == [];
    } else {
      assert (results + [last])[1..] == results[1..] + [last];
      RunAppend(b, Round(b, x, results[0]), results[1..], last);
    }
  }

  /** One more response of those to come. */
  lemma RunGrows<N, D, R>(b: Behaviour<N, D, R>, x: Executor<N, D>, results: seq<Result<R>>, n: nat)
    requires n < |results| && Consumes(b, x, results[..n]) && Run(b, x, results[..n]).step != End
    ensures Consumes(b, x, results[..n + 1])
    ensures Run(b, x, results[..n + 1]) == Round(b, Run(b, x, results[..n]), results[n])
  {
    assert results[..n + 1] == results[..n] + [results[n]];
    RunAppend(b, x, results[..n], results[n]);
  }

  // ---- results that keep coming ----

  function First<R>(results: nat -> Result<R>, n: nat): (rs: seq<Result<R>>)
    ensures |rs| == n
  {
    if n == 0 then [] else First(results, n - 1) + [results(n - 1)]
  }

  /** After `n` results, each with the request that follows it; a script that has ended takes no more. */
  function After<N(==), D, R>(b: Behaviour<N, D, R>, x: Executor<N, D>, results: nat -> Result<R>, n: nat)
    : Executor<N, D>
    decreases n
  {
    if n == 0 then x
    else
      var x' := After(b, x, results, n - 1);
      if x'.step == End then x' else Round(b, x', results(n - 1))
  }

  /** Unless the script has ended, that is where the run leaves it. */
  lemma {:induction false} AfterIsRun<N, D, R>(b: Behaviour<N, D, R>, x: Executor<N, D>, results: nat -> Result<R>,
                                               n: nat)
    requires After(b, x, results, n).step != End
    ensures Consumes(b, x, First(results, n)) && After(b, x, results, n) == Run(b, x, First(results, n))
    decreases n
  {
    if n > 0 {
      AfterIsRun(b, x, results, n - 1);
      RunAppend(b, x, First(results, n - 1), results(n - 1));
    }
  }

  /** After `n` calls, requests and results in turn; a script that has ended is not called. */
  function AfterCalls<N(==), D, R>(b: Behaviour<N, D, R>, x: Executor<N, D>, results: nat -> Result<R>, n: nat)
    : Executor<N, D>
    decreases n
  {
    if n == 0 then x
    else
      var x' := AfterCalls(b, x, results, n - 1);
      if x'.step == End then x'
      else if n % 2 == 1 then MakeRequest(b, x')
      else MakeResult(b, x', results(n / 2 - 1))
  }

  lemma {:induction false} CallsAreRounds<N, D, R>(b: Behaviour<N, D, R>, x: Executor<N, D>, results: nat -> Result<R>,
                                                   n: nat)
    ensures AfterCalls(b, x, results, 2 * n + 1) == After(b, MakeRequest(b, x), results, n)
    decreases n
  {
    if n == 0 {
      assert AfterCalls(b, x, results, 0) == x;
    } else {
      CallsAreRounds(b, x, results, n - 1);
      assert (2 * n) % 2 == 0 && (2 * n) / 2 - 1 == n - 1 && (2 * n + 1) % 2 == 1;
      assert 2 * n - 1 == 2 * (n - 1) + 1;
    }
  }

  // ---- switching the layer off ----

  /** The script never switches retrying on. */
  ghost predicate NeverEnables<N(!new), D(!new), R(!new)>(b: Behaviour<N, D, R>) {
    && (forall n, d :: b.request(n, d).enable != Some(true))
    && (forall n, d, r :: b.respond(n, d, r).enable != Some(true))
  }

  /** Switched off, and not in the middle of a retry whose end would switch it on again. */
  ghost predicate SwitchedOff<N, D>(x: Executor<N, D>) {
    !x.retry.enable && !x.retry.inRetry
  }

  /** When a response step switches retrying off, no retry is under way: `stopRetry` has been and gone. */
  lemma SwitchingOffHolds<N(!new), D(!new), R(!new)>(b: Behaviour<N, D, R>, x: Executor<N, D>, result: Result<R>)
    requires NeverEnables(b) && x.step.Script? && !(result.transient && CanRetry(x.retry))
    requires b.respond(x.step.name, x.data, result.reply).enable == Some(false)
    ensures SwitchedOff(Round(b, x, result))
  {
  }

  /** From then on every result of every session reaches the script. */
  lemma {:induction false} SwitchedOffForGood<N(!new), D(!new), R(!new)>(b: Behaviour<N, D, R>, x: Executor<N, D>,
                                                                         results: seq<Result<R>>)
    requires OwnSteps(b) && NeverEnables(b) && AtRest(x) && SwitchedOff(x) && Consumes(b, x, results)
    ensures SwitchedOff(Run(b, x, results))
    ensures |Executed(b, x, results)| == |results|
    ensures forall i :: 0 <= i < |results| ==> Executed(b, x, results)[i] == results[i].reply
    decreases |results|
  {
    if results != [] {
      RoundKeepsRest(b, x, results[0]);
      SwitchedOffForGood(b, Round(b, x, results[0]), results[1..]);
    }
  }
}
