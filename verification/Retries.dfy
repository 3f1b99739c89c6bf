/**
  Which results reach a script that leaves retrying switched on: the results alone decide it.
*/
module Retries {
  import opened Wrappers

  import opened ExecutorModel

  /** The script never switches retrying off. */
  ghost predicate NeverDisables<N(!new), D(!new), R(!new)>(b: Behaviour<N, D, R>) {
    && (forall n, d :: b.request(n, d).enable != Some(false))
    && (forall n, d, r :: b.respond(n, d, r).enable != Some(false))
  }

  /**
    The replies handed on when up to `most` failures of a request are made up for by another try, and the one now out
    has had `tried` of them.
   */
  function Passed<R>(results: seq<Result<R>>, most: nat, tried: nat): seq<R>
    decreases |results|
  {
    if results == [] then []
    else if results[0].transient && tried < most then Passed(results[1..], most, tried + 1)
    else [results[0].reply] + Passed(results[1..], most, 0)
  }

  lemma RoundStaysEnabled<N(!new), D(!new), R(!new)>(b: Behaviour<N, D, R>, x: Executor<N, D>, result: Result<R>)
    requires OwnSteps(b) && NeverDisables(b) && AtRest(x) && x.step != End && x.retry.enable
    ensures var x' := Round(b, x, result);
            && x'.retry.enable && x'.retry.limit == x.retry.limit
            && x'.retry.times == if result.transient && x.retry.times < x.retry.limit then x.retry.times + 1 else 0
  {
  }

  /** A failed session reaches the script exactly when its request has been sent again as often as the limit allows. */
  lemma {:induction false} ExecutedIsPassed<N(!new), D(!new), R(!new)>(b: Behaviour<N, D, R>, x: Executor<N, D>,
                                                                       results: seq<Result<R>>)
    requires OwnSteps(b) && NeverDisables(b) && AtRest(x) && x.retry.enable && Consumes(b, x, results)
    ensures Executed(b, x, results) == Passed(results, Max(0, x.retry.limit), x.retry.times)
    ensures Run(b, x, results).retry.enable
    decreases |results|
  {
    if results != [] {
      RoundKeepsRest(b, x, results[0]);
      RoundStaysEnabled(b, x, results[0]);
      ExecutedIsPassed(b, Round(b, x, results[0]), results[1..]);
    }
  }

  /** From a fresh start too: the script is where the replies that are handed on bring it, and nowhere else. */
  lemma RunIsPassed<N(!new), D(!new), R(!new)>(b: Behaviour<N, D, R>, x: Executor<N, D>, results: seq<Result<R>>)
    requires OwnSteps(b) && NeverDisables(b) && x.step != DoRetry && x.retry == InitRetry<N>(x.retry.limit)
    requires Consumes(b, x, results)
    ensures CoreOf(Run(b, x, results)) == PlainRun(b, CoreOf(x), Passed(results, Max(0, x.retry.limit), 0))
  {
    ExecutedIsPassed(b, x, results);
    RetryIsTransparent(b, x, results);
  }

  /** A fresh layer makes up for as many failures in a row as the limit says, one second after each. */
  lemma BurstIsAbsorbed<N(!new), D(!new), R(!new)>(b: Behaviour<N, D, R>, x: Executor<N, D>, failures: seq<Result<R>>)
    requires OwnSteps(b) && x.retry == InitRetry<N>(x.retry.limit) && x.step.Script?
    requires |failures| <= x.retry.limit && forall i :: 0 <= i < |failures| ==> failures[i].transient
    ensures Consumes(b, x, failures) && Executed(b, x, failures) == []
    ensures var x' := Run(b, x, failures);
            CoreOf(x') == CoreOf(x) && x'.delay == if failures == [] then x.delay else 1
  {
    DelayAfterRetries(b, x, failures);
  }

  /** One failure more, and the script gets to see it. */
  lemma {:induction false} BurstPasses<R>(failures: seq<Result<R>>, most: nat, tried: nat)
    requires tried <= most && forall i :: 0 <= i < |failures| ==> failures[i].transient
    ensures |failures| <= most - tried ==> Passed(failures, most, tried) == []
    ensures |failures| == most - tried + 1 ==> Passed(failures, most, tried) == [failures[most - tried].reply]
    decreases |failures|
  {
    if failures != [] && tried < most {
      BurstPasses(failures[1..], most, tried + 1);
    }
  }
}
