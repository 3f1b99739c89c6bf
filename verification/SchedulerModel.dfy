/**
  The window of work contexts that the scanner and the configurator keep filled, as a value.

  Contexts are numbered by the position of their item in the source.  `script(k, j)` says whether the `j`-th script call
  made for context `k` (requests and results counted together) leaves its step at "end"; it is arbitrary.
*/
module SchedulerModel {

  datatype Config = Config(size: nat, stepSize: int, script: (nat, nat) -> bool)

  /**
    `next` items have been taken from the source; the client holds a session for each context in `inFlight`;
    `calls` counts the script calls of each context and `deleted` logs the deletions.
   */
  datatype State = State(next: nat, inFlight: set<nat>, calls: map<nat, nat>, deleted: seq<nat>)

  const START := State(0, {}, map[], [])

  function Calls(s: State, k: nat): nat {
    if k in s.calls then s.calls[k] else 0
  }

  /** One script call for context `k`, and whether it ends there. */
  function Call(s: State, k: nat): State {
    s.(calls := s.calls[k := Calls(s, k) + 1])
  }

  function Ends(c: Config, s: State, k: nat): bool {
    c.script(k, Calls(s, k))
  }

  function Delete(s: State, k: nat): State {
    s.(inFlight := s.inFlight - {k}, deleted := s.deleted + [k])
  }

  function Take(s: State): State {
    s.(next := s.next + 1)
  }

  /** `doNextWork`: takes items until one has a request to send or the source is exhausted. */
  function Refill(c: Config, s: State): State
    decreases c.size - s.next
  {
    if s.next >= c.size then s
    else
      var k := s.next;
      var s' := Call(s, k);
      if Ends(c, s, k) then Refill(c, Take(Delete(s', k)))
      else Take(s'.(inFlight := s'.inFlight + {k}))
  }

  /** The initial fill, `i` requests having been handed to the client. */
  function Fill(c: Config, s: State, i: int): State
    decreases c.size - s.next
  {
    if i >= c.stepSize || s.next >= c.size then s
    else
      var k := s.next;
      var s' := Call(s, k);
      if Ends(c, s, k) then Fill(c, Take(Delete(s', k)), i)
      else Fill(c, Take(s'.(inFlight := s'.inFlight + {k})), i + 1)
  }

  /** A response for context `k`: its result is made and, unless that ends it, its next request. */
  function Respond(c: Config, s: State, k: nat): State {
    var s' := Call(s, k);
    if Ends(c, s, k) then Refill(c, Delete(s', k))
    else
      var s'' := Call(s', k);
      if Ends(c, s', k) then Refill(c, Delete(s'', k)) else s''
  }

  // ---- what every step keeps ----

  /** The context has made `n` script calls and none of them ended it. */
  ghost predicate Runs(c: Config, k: nat, n: nat) {
    forall j :: 0 <= j < n ==> !c.script(k, j)
  }

  /**
    The items taken are split between the contexts in flight and the deletions, each deleted once, at its first end.
   */
  ghost predicate Conserved(c: Config, s: State) {
    && s.next <= c.size
    && (forall k: nat :: k in s.calls <==> k < s.next)
    && (forall k: nat :: k < s.next <==> k in s.inFlight || k in s.deleted)
    && (forall k :: k in s.inFlight ==> k !in s.deleted)
    && Distinct(s.deleted)
    && (forall k :: k in s.inFlight ==> k in s.calls && s.calls[k] >= 1 && Runs(c, k, s.calls[k]))
    && (forall k {:trigger k in s.deleted} :: k in s.deleted ==> k in s.calls && EndedAt(c, k, s.calls[k]))
  }

  ghost predicate Distinct(xs: seq<nat>) {
    forall i, j :: 0 <= i < j < |xs| ==> xs[i] != xs[j]
  }

  /** The `n`-th script call was the first to end the context. */
  ghost predicate EndedAt(c: Config, k: nat, n: nat) {
    n >= 1 && Runs(c, k, n - 1) && c.script(k, n - 1)
  }

  /** The window is never overfull, and after the fill it is short only when the source is exhausted. */
  ghost predicate Windowed(c: Config, s: State) {
    && |s.inFlight| <= (if c.stepSize > 0 then c.stepSize else 0)
    && (|s.inFlight| < c.stepSize ==> s.next == c.size)
  }

  /** One context runs on: all but its call count stays. */
  lemma CallKeeps(c: Config, s: State, k: nat)
    requires Conserved(c, s) && k in s.inFlight && !Ends(c, s, k)
    ensures Conserved(c, Call(s, k))
  {
  }

  lemma DeleteKeeps(c: Config, s: State, k: nat)
    requires Conserved(c, s) && k in s.inFlight && Ends(c, s, k)
    ensures Conserved(c, Delete(Call(s, k), k))
  {
    var s' := Delete(Call(s, k), k);
    assert forall x: nat :: x in s'.deleted <==> x in s.deleted || x == k;
    assert k !in s.deleted && Distinct(s'.deleted);
  }

  lemma TakeKeeps(c: Config, s: State)
    requires Conserved(c, s) && s.next < c.size
    ensures var k := s.next;
            Conserved(c, Take(if Ends(c, s, k) then Delete(Call(s, k), k)
                              else Call(s, k).(inFlight := s.inFlight + {k})))
    ensures s.next !in s.inFlight
  {
    var k := s.next;
    assert k !in s.calls && k !in s.inFlight && k !in s.deleted;
    if Ends(c, s, k) {
      var s' := Take(Delete(Call(s, k), k));
      assert forall x: nat :: x in s'.deleted <==> x in s.deleted || x == k;
      assert Distinct(s'.deleted);
    }
  }

  lemma {:induction false} RefillKeeps(c: Config, s: State)
    requires Conserved(c, s) && |s.inFlight| + 1 <= c.stepSize
    ensures var s' := Refill(c, s);
            Conserved(c, s') && |s.inFlight| <= |s'.inFlight| <= |s.inFlight| + 1
            && (|s'.inFlight| == |s.inFlight| ==> s'.next == c.size)
    decreases c.size - s.next
  {
    if s.next < c.size {
      TakeKeeps(c, s);
      if Ends(c, s, s.next) {
        var s' := Take(Delete(Call(s, s.next), s.next));
        assert s'.inFlight == s.inFlight;
        RefillKeeps(c, s');
      }
    }
  }

  lemma TakenInFlight(c: Config, s: State)
    requires Conserved(c, s) && s.next < c.size
    ensures Take(Delete(Call(s, s.next), s.next)).inFlight == s.inFlight
    ensures |s.inFlight + {s.next}| == |s.inFlight| + 1
  {
    assert s.next !in s.calls;
  }

  /** The fill has handed `i` requests to the client. */
  ghost predicate Filling(c: Config, s: State, i: int) {
    Conserved(c, s) && i == |s.inFlight| && (i <= c.stepSize || i == 0)
  }

  lemma TakenIsFilling(c: Config, s: State, i: int)
    requires Filling(c, s, i) && i < c.stepSize && s.next < c.size
    ensures var k := s.next;
            var s' := Call(s, k);
            if Ends(c, s, k) then Filling(c, Take(Delete(s', k)), i)
            else Filling(c, Take(s'.(inFlight := s'.inFlight + {k})), i + 1)
  {
    TakeKeeps(c, s);
    TakenInFlight(c, s);
  }

  lemma FilledIsWindowed(c: Config, s: State, i: int)
    requires Filling(c, s, i) && (i >= c.stepSize || s.next >= c.size)
    ensures Windowed(c, s)
  {
  }

  lemma {:induction false} FillKeeps(c: Config, s: State, i: int)
    requires Filling(c, s, i)
    ensures Conserved(c, Fill(c, s, i)) && Windowed(c, Fill(c, s, i))
    decreases c.size - s.next
  {
    if i >= c.stepSize || s.next >= c.size {
      FilledIsWindowed(c, s, i);
    } else {
      TakenIsFilling(c, s, i);
      var s' := Call(s, s.next);
      if Ends(c, s, s.next) {
        FillKeeps(c, Take(Delete(s', s.next)), i);
      } else {
        FillKeeps(c, Take(s'.(inFlight := s'.inFlight + {s.next})), i + 1);
      }
    }
  }

  /**
    A response, and the refill that follows an end, keep the split and keep the window as full as the source allows.
   */
  lemma RespondKeeps(c: Config, s: State, k: nat)
    requires Conserved(c, s) && Windowed(c, s) && k in s.inFlight
    ensures Conserved(c, Respond(c, s, k)) && Windowed(c, Respond(c, s, k))
  {
    if Ends(c, s, k) {
      DeleteKeeps(c, s, k);
      RefillKeeps(c, Delete(Call(s, k), k));
    } else {
      CallKeeps(c, s, k);
      var s' := Call(s, k);
      if Ends(c, s', k) {
        DeleteKeeps(c, s', k);
        RefillKeeps(c, Delete(Call(s', k), k));
      } else {
        CallKeeps(c, s', k);
      }
    }
  }

  // ---- whole runs ----

  /** `ss` are the states of a run: the fill, then a response for one of the contexts in flight at a time. */
  ghost predicate IsRun(c: Config, ss: seq<State>) {
    && ss != [] && ss[0] == Fill(c, START, 0)
    && forall i :: 0 <= i < |ss| - 1 ==> Responds(c, ss[i], ss[i + 1])
  }

  /** One response. */
  ghost predicate Responds(c: Config, s: State, s': State) {
    exists k :: k in s.inFlight && s' == Respond(c, s, k)
  }

  lemma StepOf(c: Config, ss: seq<State>, n: nat) returns (k: nat)
    requires IsRun(c, ss) && n + 1 < |ss|
    ensures k in ss[n].inFlight && ss[n + 1] == Respond(c, ss[n], k)
  {
    assert Responds(c, ss[n], ss[n + 1]);
    k :| k in ss[n].inFlight && ss[n + 1] == Respond(c, ss[n], k);
  }

  /** For every source, every script and every order of responses. */
  lemma {:induction false} RunsAreConserved(c: Config, ss: seq<State>, n: nat)
    requires IsRun(c, ss) && n < |ss|
    ensures Conserved(c, ss[n]) && Windowed(c, ss[n])
  {
    if n == 0 {
      FillKeeps(c, START, 0);
    } else {
      RunsAreConserved(c, ss, n - 1);
      var k := StepOf(c, ss, n - 1);
      RespondKeeps(c, ss[n - 1], k);
    }
  }

  /**
    With nothing in flight the run is over.  Everything has then been taken and deleted, exactly once each, precisely
    when the window is at least one wide or there was nothing to take.
   */
  lemma DrainedMeansDone(c: Config, ss: seq<State>, n: nat)
    requires IsRun(c, ss) && n < |ss| && ss[n].inFlight == {}
    ensures c.stepSize >= 1 || c.size == 0 <==>
            ss[n].next == c.size && |ss[n].deleted| == c.size && forall k: nat :: k in ss[n].deleted <==> k < c.size
  {
    RunsAreConserved(c, ss, n);
    if c.stepSize >= 1 || c.size == 0 {
      DistinctBelow(ss[n].deleted, c.size);
    } else {
      WithoutWindow(c, ss);
    }
  }

  /** Without a window nothing ever happens. */
  lemma WithoutWindow(c: Config, ss: seq<State>)
    requires IsRun(c, ss) && c.stepSize < 1
    ensures ss == [START]
  {
    assert |ss| > 1 ==> Responds(c, ss[0], ss[1]);
  }

  lemma {:induction false} DistinctBelow(xs: seq<nat>, n: nat)
    requires Distinct(xs)
    requires forall k: nat :: k in xs <==> k < n
    ensures |xs| == n
    decreases n
  {
    if xs == [] {
      assert 0 in xs <==> 0 < n;
    } else {
      assert xs[0] in xs && n - 1 in xs;
      var i :| 0 <= i < |xs| && xs[i] == n - 1;
      var ys := xs[..i] + xs[i + 1..];
      forall k: nat ensures k in ys <==> k < n - 1 {
        if k in xs && k != n - 1 {
          var j :| 0 <= j < |xs| && xs[j] == k;
          assert ys[if j < i then j else j - 1] == k;
        }
        if k in ys {
          assert k in xs && k != n - 1;
        }
      }
      DistinctBelow(ys, n - 1);
    }
  }

  // ---- termination ----

  /** Context `k` ends at the latest with script call `lives[k]`. */
  ghost predicate Finite(c: Config, lives: seq<nat>) {
    |lives| == c.size && forall k :: 0 <= k < c.size ==> c.script(k, lives[k])
  }

  /** The script calls that the first `n` contexts can still make. */
  ghost function Remaining(c: Config, lives: seq<nat>, s: State, n: nat): nat
    requires n <= |lives|
  {
    if n == 0 then 0
    else Remaining(c, lives, s, n - 1) + Rest(lives, s, n - 1)
  }

  ghost function Rest(lives: seq<nat>, s: State, k: nat): nat
    requires k < |lives|
  {
    if k in s.deleted || Calls(s, k) > lives[k] then 0 else lives[k] + 1 - Calls(s, k)
  }

  lemma {:induction false} RemainingShrinks(c: Config, lives: seq<nat>, s: State, s': State, n: nat, k: nat)
    requires n <= |lives|
    requires forall x :: 0 <= x < n ==> Rest(lives, s', x) <= Rest(lives, s, x)
    ensures Remaining(c, lives, s', n) <= Remaining(c, lives, s, n)
    ensures k < n && Rest(lives, s', k) < Rest(lives, s, k) ==> Remaining(c, lives, s', n) < Remaining(c, lives, s, n)
    decreases n
  {
    if n > 0 {
      RemainingShrinks(c, lives, s, s', n - 1, k);
    }
  }

  /** No step makes calls undone or deletions unmade. */
  ghost predicate Later(s: State, s': State) {
    && (forall k :: k in s.deleted ==> k in s'.deleted)
    && (forall k :: Calls(s, k) <= Calls(s', k))
  }

  lemma {:induction false} RefillIsLater(c: Config, s: State)
    ensures Later(s, Refill(c, s))
    decreases c.size - s.next
  {
    if s.next < c.size && Ends(c, s, s.next) {
      RefillIsLater(c, Take(Delete(Call(s, s.next), s.next)));
    }
  }

  /** Every response uses up at least one of the script calls that remain. */
  lemma RespondUses(c: Config, lives: seq<nat>, s: State, k: nat)
    requires Conserved(c, s) && Windowed(c, s) && Finite(c, lives) && k in s.inFlight
    ensures Remaining(c, lives, Respond(c, s, k), c.size) < Remaining(c, lives, s, c.size)
  {
    var s' := Respond(c, s, k);
    var s1 := Call(s, k);
    assert c.script(k, lives[k]);
    assert s.calls[k] <= lives[k];
    if Ends(c, s, k) {
      RefillIsLater(c, Delete(s1, k));
    } else if Ends(c, s1, k) {
      RefillIsLater(c, Delete(Call(s1, k), k));
    }
    assert Later(s, s') && (k in s'.deleted || Calls(s', k) > Calls(s, k));
    RemainingShrinks(c, lives, s, s', c.size, k);
  }

  lemma StepUses(c: Config, lives: seq<nat>, ss: seq<State>, n: nat)
    requires Finite(c, lives) && IsRun(c, ss) && n + 1 < |ss|
    ensures Remaining(c, lives, ss[n + 1], c.size) < Remaining(c, lives, ss[n], c.size)
  {
    RunsAreConserved(c, ss, n);
    var k := StepOf(c, ss, n);
    RespondUses(c, lives, ss[n], k);
  }

  lemma RunGrows(c: Config, ss: seq<State>, k: nat)
    requires IsRun(c, ss) && k in ss[|ss| - 1].inFlight
    ensures IsRun(c, ss + [Respond(c, ss[|ss| - 1], k)])
  {
    var ss' := ss + [Respond(c, ss[|ss| - 1], k)];
    forall i | 0 <= i < |ss'| - 1 ensures Responds(c, ss'[i], ss'[i + 1]) {
      assert i < |ss| - 1 ==> Responds(c, ss[i], ss[i + 1]);
    }
  }

  /** A run with finite scripts has no more responses than script calls to make. */
  lemma {:induction false} RunsAreBounded(c: Config, lives: seq<nat>, ss: seq<State>, n: nat)
    requires Finite(c, lives) && IsRun(c, ss) && n < |ss|
    ensures n + Remaining(c, lives, ss[n], c.size) <= Remaining(c, lives, ss[0], c.size)
    decreases n
  {
    if n > 0 {
      RunsAreBounded(c, lives, ss, n - 1);
      StepUses(c, lives, ss, n - 1);
    }
  }

  /** What a run comes to that has nothing left in flight. */
  lemma DrainedRun(c: Config, lives: seq<nat>, ss: seq<State>)
    requires Finite(c, lives) && IsRun(c, ss) && ss[|ss| - 1].inFlight == {}
    ensures var s := ss[|ss| - 1];
            && Conserved(c, s)
            && (c.stepSize >= 1 ==>
                  s.next == c.size && |s.deleted| == c.size && forall k: nat :: k in s.deleted <==> k < c.size)
            && (c.stepSize < 1 ==> s.next == 0 && s.deleted == [])
    ensures |ss| - 1 <= Remaining(c, lives, ss[0], c.size)
  {
    RunsAreBounded(c, lives, ss, |ss| - 1);
    RunsAreConserved(c, ss, |ss| - 1);
    DrainedMeansDone(c, ss, |ss| - 1);
    if c.stepSize < 1 {
      WithoutWindow(c, ss);
    }
  }
}
