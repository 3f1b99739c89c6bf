/**
  The scanner and the configurator: one scheduler over a source of addresses or of miners, driven by a script.

  The TCP client is a set of sessions of which any one may answer next.
*/
module Scheduler {
  import opened SchedulerModel
  import opened SchedulerRounds

  class MinerScheduler {
    const size: nat
    const stepSize: int
    const script: (nat, nat) -> bool
    var next: nat
    var inFlight: set<nat>
    var calls: map<nat, nat>
    var deleted: seq<nat>

    constructor (size: nat, stepSize: int, script: (nat, nat) -> bool)
      ensures this.size == size && this.stepSize == stepSize && this.script == script
      ensures Value() == START
    {
      this.size, this.stepSize, this.script := size, stepSize, script;
      next, inFlight, calls, deleted := 0, {}, map[], [];
    }

    ghost function Value(): State
      reads this
    {
      State(next, inFlight, calls, deleted)
    }

    ghost function Setup(): Config {
      Config(size, stepSize, script)
    }

    /** `makeRequest` or `makeResult` on a context: one script call. */
    method CallScript(k: nat) returns (ended: bool)
      modifies this`calls
      ensures Value() == Call(old(Value()), k) && ended == Ends(Setup(), old(Value()), k)
    {
      var made := if k in calls then calls[k] else 0;
      calls := calls[k := made + 1];
      ended := script(k, made);
    }

    method DeleteContext(k: nat)
      modifies this`inFlight, this`deleted
      ensures Value() == Delete(old(Value()), k)
    {
      inFlight := inFlight - {k};
      deleted := deleted + [k];
    }

    /** The request source: hands the client requests until the window is full or the items are used up. */
    method FillWindow()
      modifies this
      ensures Value() == Fill(Setup(), old(Value()), 0)
    {
      var i := 0;
      while i < stepSize && next < size
        invariant Fill(Setup(), Value(), i) == Fill(Setup(), old(Value()), 0)
        decreases size - next
      {
        var context := next;
        var ended := CallScript(context);
        if ended {
          DeleteContext(context);
          i := i - 1;
        } else {
          inFlight := inFlight + {context};
        }
        next := next + 1;
        i := i + 1;
      }
    }

    method DoNextWork()
      modifies this
      ensures Value() == Refill(Setup(), old(Value()))
      decreases size - next
    {
      if next < size {
        var context := next;
        var ended := CallScript(context);
        if ended {
          DeleteContext(context);
          next := next + 1;
          DoNextWork();
        } else {
          inFlight := inFlight + {context};
          next := next + 1;
        }
      }
    }

    /** The body of the response loop. */
    method OnResponse(context: nat)
      modifies this
      ensures Value() == Respond(Setup(), old(Value()), context)
    {
      var ended := CallScript(context);
      if ended {
        DeleteContext(context);
        DoNextWork();
      } else {
        ended := CallScript(context);
        if ended {
          DeleteContext(context);
          DoNextWork();
        }
      }
    }

    /** The next response of a run with the responses `ks`. */
    method HandleResponse(ghost lives: seq<nat>, ghost ks: seq<nat>, ghost ss: seq<State>, context: nat)
      requires Answers(Setup(), ks, ss) && ss[|ks|] == Value()
      requires Finite(Setup(), lives) && context in inFlight
      modifies this
      ensures Answers(Setup(), ks + [context], ss + [Value()])
      ensures Remaining(Setup(), lives, Value(), size) < Remaining(Setup(), lives, old(Value()), size)
    {
      AnswersAreRun(Setup(), ks, ss);
      RunsAreConserved(Setup(), ss, |ks|);
      RespondUses(Setup(), lives, Value(), context);
      AnswersGrow(Setup(), ks, ss, context);
      OnResponse(context);
    }

    /**
      A whole run, with scripts of which context `k` ends at the latest with call `lives[k]`: it has no more responses
      than there are script calls left to make after the fill, and calls the script of a context once and then twice for
      each of them.
     */
    method Run(ghost lives: seq<nat>) returns (ghost ks: seq<nat>, ghost ss: seq<State>)
      requires Value() == START && Finite(Setup(), lives)
      modifies this
      ensures inFlight == {} && Conserved(Setup(), Value())
      ensures stepSize >= 1 ==> next == size && |deleted| == size && forall k: nat :: k in deleted <==> k < size
      ensures stepSize < 1 ==> next == 0 && deleted == []
      ensures Answers(Setup(), ks, ss) && ss[|ks|] == Value()
      ensures |ks| <= Remaining(Setup(), lives, ss[0], size)
      ensures forall k :: Called(Value(), k, Count(ks, k, |ks|))
    {
      FillWindow();
      ks, ss := [], [Value()];
      while inFlight != {}
        invariant Answers(Setup(), ks, ss) && ss[|ks|] == Value()
        decreases Remaining(Setup(), lives, Value(), size)
      {
        var context :| context in inFlight;
        HandleResponse(lives, ks, ss, context);
        ks, ss := ks + [context], ss + [Value()];
      }
      AnswersAreRun(Setup(), ks, ss);
      DrainedRun(Setup(), lives, ss);
      forall k ensures Called(Value(), k, Count(ks, k, |ks|)) {
        CallsMatchResponses(Setup(), ks, ss, |ks|, k);
      }
    }
  }
}
