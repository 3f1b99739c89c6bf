/**
  How often the scheduler calls a script: once when it takes a context, and twice for each response, for the result and
  for the next request.
*/
module SchedulerRounds {
  import opened SchedulerModel

  /** `ss` are the states of a run in which the responses are for the contexts `ks`, in this order. */
  ghost predicate Answers(c: Config, ks: seq<nat>, ss: seq<State>) {
    && |ss| == |ks| + 1 && ss[0] == Fill(c, START, 0)
    && forall i :: 0 <= i < |ks| ==> Answer(c, ss[i], ks[i], ss[i + 1])
  }

  predicate Answer(c: Config, s: State, k: nat, s': State) {
    k in s.inFlight && s' == Respond(c, s, k)
  }

  /** Every run is one of these. */
  lemma {:induction false} RunHasAnswers(c: Config, ss: seq<State>) returns (ks: seq<nat>)
    requires IsRun(c, ss)
    ensures Answers(c, ks, ss)
    decreases |ss|
  {
    if |ss| == 1 {
      ks := [];
    } else {
      var n := |ss| - 1;
      forall i | 0 <= i < n - 1 ensures Responds(c, ss[..n][i], ss[..n][i + 1]) {
        assert Responds(c, ss[i], ss[i + 1]);
      }
      var ks' := RunHasAnswers(c, ss[..n]);
      var k := StepOf(c, ss, n - 1);
      ks := ks' + [k];
      forall i | 0 <= i < n ensures Answer(c, ss[i], ks[i], ss[i + 1]) {
        assert i < n - 1 ==> Answer(c, ss[..n][i], ks'[i], ss[..n][i + 1]);
      }
    }
  }

  lemma AnswersAreRun(c: Config, ks: seq<nat>, ss: seq<State>)
    requires Answers(c, ks, ss)
    ensures IsRun(c, ss)
  {
    forall i | 0 <= i < |ss| - 1 ensures Responds(c, ss[i], ss[i + 1]) {
      assert Answer(c, ss[i], ks[i], ss[i + 1]);
    }
  }

  lemma AnswersGrow(c: Config, ks: seq<nat>, ss: seq<State>, k: nat)
    requires Answers(c, ks, ss) && k in ss[|ks|].inFlight
    ensures Answers(c, ks + [k], ss + [Respond(c, ss[|ks|], k)])
  {
    var ks', ss' := ks + [k], ss + [Respond(c, ss[|ks|], k)];
    forall i | 0 <= i < |ks'| ensures Answer(c, ss'[i], ks'[i], ss'[i + 1]) {
      assert i < |ks| ==> Answer(c, ss[i], ks[i], ss[i + 1]);
    }
  }

  /** The responses for `k` among the first `n`. */
  function Count(ks: seq<nat>, k: nat, n: nat): nat
    requires n <= |ks|
  {
    if n == 0 then 0 else Count(ks, k, n - 1) + if ks[n - 1] == k then 1 else 0
  }

  /**
    With `m` responses handled, a context in flight has been called once and twice for each of them; one that has been
    deleted ended with the last response or with the request after it; one not taken has not been called.
   */
  predicate Called(s: State, k: nat, m: nat) {
    && (k in s.inFlight ==> Calls(s, k) == 2 * m + 1)
    && (k in s.deleted ==> Calls(s, k) == 2 * m || Calls(s, k) == 2 * m + 1)
    && (k >= s.next ==> m == 0)
  }

  /** The refill does not call contexts that have been taken, and calls others once or not at all. */
  lemma {:induction false} RefillCalls(c: Config, s: State, x: nat)
    requires Conserved(c, s)
    ensures var s' := Refill(c, s);
            if x < s.next then
              Calls(s', x) == Calls(s, x) && (x in s'.inFlight <==> x in s.inFlight)
              && (x in s'.deleted <==> x in s.deleted) && x < s'.next
            else Called(s', x, 0)
    decreases c.size - s.next
  {
    if s.next < c.size {
      TakeKeeps(c, s);
      var k := s.next;
      if Ends(c, s, k) {
        RefillCalls(c, Take(Delete(Call(s, k), k)), x);
      }
    }
  }

  lemma {:induction false} FillCalls(c: Config, s: State, i: int, x: nat)
    requires Conserved(c, s) && Called(s, x, 0)
    ensures Called(Fill(c, s, i), x, 0)
    decreases c.size - s.next
  {
    if i < c.stepSize && s.next < c.size {
      TakeKeeps(c, s);
      var k := s.next;
      var s' := Call(s, k);
      if Ends(c, s, k) {
        FillCalls(c, Take(Delete(s', k)), i, x);
      } else {
        FillCalls(c, Take(s'.(inFlight := s'.inFlight + {k})), i + 1, x);
      }
    }
  }

  /** After an end the refill leaves the calls made so far as they are. */
  lemma RefilledCalls(c: Config, s: State, x: nat, m: nat)
    requires Conserved(c, s) && Called(s, x, m)
    ensures Called(Refill(c, s), x, m)
  {
    RefillCalls(c, s, x);
  }

  lemma RespondCalls(c: Config, s: State, k: nat, x: nat, m: nat)
    requires Conserved(c, s) && k in s.inFlight && Called(s, x, m)
    ensures Called(Respond(c, s, k), x, if x == k then m + 1 else m)
  {
    var m' := if x == k then m + 1 else m;
    if Ends(c, s, k) {
      DeleteKeeps(c, s, k);
      RefilledCalls(c, Delete(Call(s, k), k), x, m');
    } else {
      CallKeeps(c, s, k);
      var s' := Call(s, k);
      if Ends(c, s', k) {
        DeleteKeeps(c, s', k);
        RefilledCalls(c, Delete(Call(s', k), k), x, m');
      }
    }
  }

  /** At every point of every run: one call for taking a context and two for each response it has had. */
  lemma {:induction false} CallsMatchResponses(c: Config, ks: seq<nat>, ss: seq<State>, n: nat, k: nat)
    requires Answers(c, ks, ss) && n <= |ks|
    ensures Called(ss[n], k, Count(ks, k, n))
    decreases n
  {
    if n == 0 {
      FillCalls(c, START, 0, k);
    } else {
      CallsMatchResponses(c, ks, ss, n - 1, k);
      AnswersAreRun(c, ks, ss);
      RunsAreConserved(c, ss, n - 1);
      assert Answer(c, ss[n - 1], ks[n - 1], ss[n]);
      RespondCalls(c, ss[n - 1], ks[n - 1], k, Count(ks, k, n - 1));
    }
  }

  /** A context in flight has not ended with any of these calls, the last one included. */
  lemma InFlightHasNotEnded(c: Config, ks: seq<nat>, ss: seq<State>, n: nat, k: nat)
    requires Answers(c, ks, ss) && n <= |ks| && k in ss[n].inFlight
    ensures k < c.size && Calls(ss[n], k) == 2 * Count(ks, k, n) + 1 && !c.script(k, 2 * Count(ks, k, n))
  {
    AnswersAreRun(c, ks, ss);
    RunsAreConserved(c, ss, n);
    CallsMatchResponses(c, ks, ss, n, k);
  }
}
