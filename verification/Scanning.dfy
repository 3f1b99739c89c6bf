/**
  The scheduler and its sessions together: the client of `Client.cpp` gives each request a session of its own, any of
  which may have the next event, and the scheduler goes on when one of them delivers.

  Sessions that have delivered stay, so that their late completions and timers are among the events.
*/
module Scanning {
  import N = SessionModel
  import S = SchedulerModel
  import R = SchedulerRounds

  /** `request(k, n)` is what context `k` asks for after `n` script calls. */
  datatype Plan = Plan(config: S.Config, request: (nat, nat) -> N.Request)

  datatype Session = Session(context: nat, request: N.Request, state: N.State)

  /** `past` are the states of the scheduler before each response, `now` its present one. */
  datatype State = State(past: seq<S.State>, now: S.State, sessions: seq<Session>)

  predicate Open(t: Session) {
    t.state.delivered == []
  }

  /** `addWork`: the session of a context's request. */
  function Submitted(p: Plan, now: S.State, k: nat): Session {
    var r := p.request(k, S.Calls(now, k));
    Session(k, r, N.Run(r, N.IDLE))
  }

  /** The sessions of the contexts in flight below `n` that do not have one, in the order of the source. */
  function Submit(p: Plan, now: S.State, served: set<nat>, n: nat): seq<Session> {
    if n == 0 then []
    else if n - 1 in now.inFlight && n - 1 !in served then
      Submit(p, now, served, n - 1) + [Submitted(p, now, n - 1)]
    else Submit(p, now, served, n - 1)
  }

  function Begin(p: Plan): State {
    var now := S.Fill(p.config, S.START, 0);
    State([], now, Submit(p, now, {}, now.next))
  }

  /** An error of the host lookup has left `run`, and with it the scan. */
  predicate Aborted(s: State) {
    exists i :: 0 <= i < |s.sessions| && s.sessions[i].state.raised
  }

  predicate Possible(s: State, i: nat, e: N.Event) {
    i < |s.sessions| && N.Possible(s.sessions[i].state, e) && !Aborted(s)
  }

  function After(t: Session, e: N.Event): Session {
    t.(state := N.Handle(t.request, t.state, e))
  }

  /** Session `i`, now `t`, has delivered: the scheduler handles the response, and its new requests get sessions. */
  function Delivered(p: Plan, s: State, i: nat, t: Session): State
    requires i < |s.sessions|
  {
    var now := S.Respond(p.config, s.now, t.context);
    State(s.past + [s.now], now,
          s.sessions[i := t] + Submit(p, now, s.now.inFlight - {t.context}, now.next))
  }

  /** Session `i` handles an event. */
  function Step(p: Plan, s: State, i: nat, e: N.Event): State
    requires i < |s.sessions|
  {
    var t := After(s.sessions[i], e);
    if Open(s.sessions[i]) && !Open(t) then Delivered(p, s, i, t) else s.(sessions := s.sessions[i := t])
  }

  ghost predicate Steps(p: Plan, s: State, s': State) {
    exists i: nat, e :: Possible(s, i, e) && s' == Step(p, s, i, e)
  }

  /** `ss` are the states of a scan. */
  ghost predicate IsRun(p: Plan, ss: seq<State>) {
    ss != [] && ss[0] == Begin(p) && forall i :: 0 <= i < |ss| - 1 ==> Steps(p, ss[i], ss[i + 1])
  }

  // ---- one session ----

  /** The sessions have room for what they read. */
  ghost predicate Buffered(p: Plan) {
    forall k, n :: p.request(k, n).bufferSize >= 1
  }

  /** A session is in order; a mute one has nothing to say and nothing to wait for; only those raise. */
  ghost predicate Sound(t: Session) {
    && t.request.bufferSize >= 1
    && N.Ordered(t.request, t.state)
    && (N.Mute(t.request) ==> Open(t) && t.state.io == multiset{} && t.state.timers == 0)
    && (t.state.raised ==> N.Mute(t.request))
  }

  lemma SubmittedIsSound(p: Plan, now: S.State, k: nat)
    requires Buffered(p)
    ensures Sound(Submitted(p, now, k)) && Open(Submitted(p, now, k))
  {
    var t := Submitted(p, now, k);
    N.RunsAreOrdered(t.request, [], [t.state], 0);
  }

  lemma AfterIsSound(t: Session, e: N.Event)
    requires Sound(t) && N.Possible(t.state, e)
    ensures Sound(After(t, e))
    ensures !Open(t) ==> !Open(After(t, e))
  {
    N.HandleKeepsOrdered(t.request, t.state, e);
    if N.Mute(t.request) {
      MuteStaysMute(t, e);
    } else {
      OthersDoNotRaise(t, e);
    }
    if !Open(t) {
      N.ClosedStaysClosed(t.request, t.state, e);
    }
  }

  lemma MuteStaysMute(t: Session, e: N.Event)
    requires Sound(t) && N.Mute(t.request) && N.Possible(t.state, e)
    ensures Open(After(t, e)) && After(t, e).state.io == multiset{} && After(t, e).state.timers == 0
  {
    assert e.DelayTimer?;
  }

  lemma OthersDoNotRaise(t: Session, e: N.Event)
    requires Sound(t) && !N.Mute(t.request) && N.Possible(t.state, e)
    ensures !After(t, e).state.raised
  {
    match e
    case Completed(op, outcome) => CompletionsDoNotRaise(t.request, t.state, op, outcome);
    case SessionTimer(_) =>
    case DelayTimer =>
    case Resume =>
  }

  lemma CompletionsDoNotRaise(r: N.Request, s: N.State, op: N.Operation, outcome: N.Outcome)
    ensures N.Complete(r, s, op, outcome).raised == s.raised
  {
  }

  // ---- all of them ----

  ghost predicate AllSound(sessions: seq<Session>) {
    forall i :: 0 <= i < |sessions| ==> Sound(sessions[i])
  }

  ghost predicate Serves(sessions: seq<Session>, k: nat) {
    exists i :: 0 <= i < |sessions| && Open(sessions[i]) && sessions[i].context == k
  }

  /** No context has two open sessions. */
  ghost predicate Apart(sessions: seq<Session>) {
    forall i, j :: 0 <= i < j < |sessions| && Open(sessions[i]) && Open(sessions[j])
                   ==> sessions[i].context != sessions[j].context
  }

  /** The contexts in flight are those with an open session, one each. */
  ghost predicate Matched(sessions: seq<Session>, inFlight: set<nat>) {
    AllSound(sessions) && Apart(sessions) && forall k: nat :: Serves(sessions, k) <==> k in inFlight
  }

  /** How many sessions have delivered. */
  function Answered(sessions: seq<Session>): nat {
    if sessions == [] then 0
    else Answered(sessions[..|sessions| - 1]) + if Open(sessions[|sessions| - 1]) then 0 else 1
  }

  /** Every response that a session delivers is one response for the scheduler. */
  ghost predicate Paired(p: Plan, s: State) {
    && Matched(s.sessions, s.now.inFlight)
    && S.IsRun(p.config, s.past + [s.now])
    && Answered(s.sessions) == |s.past|
  }

  lemma {:induction false} SubmitAt(p: Plan, now: S.State, served: set<nat>, n: nat, i: nat)
    requires i < |Submit(p, now, served, n)|
    ensures var t := Submit(p, now, served, n)[i];
            t == Submitted(p, now, t.context) && t.context < n && t.context in now.inFlight && t.context !in served
    decreases n
  {
    if i < |Submit(p, now, served, n - 1)| {
      SubmitAt(p, now, served, n - 1, i);
    }
  }

  lemma {:induction false} SubmitIsApart(p: Plan, now: S.State, served: set<nat>, n: nat, i: nat, j: nat)
    requires i < j < |Submit(p, now, served, n)|
    ensures Submit(p, now, served, n)[i].context < Submit(p, now, served, n)[j].context
    decreases n
  {
    if j < |Submit(p, now, served, n - 1)| {
      SubmitIsApart(p, now, served, n - 1, i, j);
    } else {
      SubmitAt(p, now, served, n - 1, i);
    }
  }

  lemma {:induction false} SubmitServes(p: Plan, now: S.State, served: set<nat>, n: nat, k: nat)
    requires Buffered(p) && k < n && k in now.inFlight && k !in served
    ensures Serves(Submit(p, now, served, n), k)
    decreases n
  {
    if k < n - 1 {
      SubmitServes(p, now, served, n - 1, k);
      JoinServes(Submit(p, now, served, n - 1), [Submitted(p, now, n - 1)], k);
    } else {
      SubmittedIsSound(p, now, k);
      var ts := Submit(p, now, served, n);
      assert ts[|ts| - 1] == Submitted(p, now, k);
    }
  }

  lemma SubmitServesAll(p: Plan, now: S.State, served: set<nat>)
    requires Buffered(p) && S.Conserved(p.config, now)
    ensures Matched(Submit(p, now, served, now.next), now.inFlight - served)
    ensures Answered(Submit(p, now, served, now.next)) == 0
  {
    var ts := Submit(p, now, served, now.next);
    forall i | 0 <= i < |ts| ensures Sound(ts[i]) && Open(ts[i]) && ts[i].context in now.inFlight - served {
      SubmitAt(p, now, served, now.next, i);
      SubmittedIsSound(p, now, ts[i].context);
    }
    forall i, j | 0 <= i < j < |ts| ensures ts[i].context != ts[j].context {
      SubmitIsApart(p, now, served, now.next, i, j);
    }
    forall k: nat ensures Serves(ts, k) <==> k in now.inFlight - served {
      if k in now.inFlight - served {
        assert k in now.calls;
        SubmitServes(p, now, served, now.next, k);
      }
    }
    NoneAnswered(ts);
  }

  lemma {:induction false} NoneAnswered(ts: seq<Session>)
    requires forall i :: 0 <= i < |ts| ==> Open(ts[i])
    ensures Answered(ts) == 0
  {
    if ts != [] {
      NoneAnswered(ts[..|ts| - 1]);
    }
  }

  lemma {:induction false} AnsweredAdds(ts: seq<Session>, us: seq<Session>)
    ensures Answered(ts + us) == Answered(ts) + Answered(us)
    decreases |us|
  {
    if us == [] {
      assert ts + us == ts;
    } else {
      AnsweredAdds(ts, us[..|us| - 1]);
      assert (ts + us)[..|ts + us| - 1] == ts + us[..|us| - 1];
    }
  }

  lemma {:induction false} AnsweredChanges(ts: seq<Session>, i: nat, t: Session)
    requires i < |ts| && (!Open(ts[i]) ==> !Open(t))
    ensures Answered(ts[i := t]) == Answered(ts) + if Open(ts[i]) && !Open(t) then 1 else 0
    decreases |ts|
  {
    var last := |ts| - 1;
    if i < last {
      AnsweredChanges(ts[..last], i, t);
      assert ts[i := t][..last] == ts[..last][i := t];
    } else {
      assert ts[i := t][..last] == ts[..last];
    }
  }

  lemma BeginIsPaired(p: Plan)
    requires Buffered(p)
    ensures Paired(p, Begin(p))
  {
    var s := Begin(p);
    assert s.past + [s.now] == [s.now];
    S.RunsAreConserved(p.config, [s.now], 0);
    SubmitServesAll(p, s.now, {});
    assert s.now.inFlight - {} == s.now.inFlight;
  }

  /** An event that delivers nothing leaves the same sessions open. */
  lemma QuietKeepsMatched(sessions: seq<Session>, inFlight: set<nat>, i: nat, t: Session)
    requires Matched(sessions, inFlight) && i < |sessions|
    requires Sound(t) && t.context == sessions[i].context && Open(t) == Open(sessions[i])
    ensures Matched(sessions[i := t], inFlight)
  {
    var ts := sessions[i := t];
    forall k: nat ensures Serves(ts, k) <==> Serves(sessions, k) {
      if Serves(ts, k) {
        var j :| 0 <= j < |ts| && Open(ts[j]) && ts[j].context == k;
        assert Open(sessions[j]) && sessions[j].context == k;
      }
      if Serves(sessions, k) {
        var j :| 0 <= j < |sessions| && Open(sessions[j]) && sessions[j].context == k;
        assert Open(ts[j]) && ts[j].context == k;
      }
    }
  }

  /** A delivery takes its context away from those that are served. */
  lemma DeliveryFreesContext(sessions: seq<Session>, inFlight: set<nat>, i: nat, t: Session)
    requires Matched(sessions, inFlight) && i < |sessions|
    requires Sound(t) && Open(sessions[i]) && !Open(t)
    ensures sessions[i].context in inFlight
    ensures Matched(sessions[i := t], inFlight - {sessions[i].context})
  {
    var ts := sessions[i := t];
    var context := sessions[i].context;
    assert Serves(sessions, context);
    forall k: nat ensures Serves(ts, k) <==> k in inFlight - {context} {
      if Serves(ts, k) {
        var j :| 0 <= j < |ts| && Open(ts[j]) && ts[j].context == k;
        assert j != i && Open(sessions[j]) && sessions[j].context == k;
        assert Serves(sessions, k);
      }
      if k in inFlight - {context} {
        assert Serves(sessions, k);
        var j :| 0 <= j < |sessions| && Open(sessions[j]) && sessions[j].context == k;
        assert Open(ts[j]) && ts[j].context == k;
      }
    }
  }

  lemma SubmitKeepsMatched(p: Plan, now: S.State, served: set<nat>, sessions: seq<Session>)
    requires Buffered(p) && S.Conserved(p.config, now)
    requires Matched(sessions, served) && served <= now.inFlight
    ensures Matched(sessions + Submit(p, now, served, now.next), now.inFlight)
  {
    var ts := Submit(p, now, served, now.next);
    SubmitServesAll(p, now, served);
    JoinsApart(sessions, ts, served, now.inFlight - served);
    forall k: nat ensures Serves(sessions + ts, k) <==> k in now.inFlight {
      JoinServes(sessions, ts, k);
    }
  }

  lemma JoinsApart(ts: seq<Session>, us: seq<Session>, xs: set<nat>, ys: set<nat>)
    requires Matched(ts, xs) && Matched(us, ys) && xs !! ys
    ensures Apart(ts + us)
  {
    forall i, j | 0 <= i < |ts| && 0 <= j < |us| && Open(ts[i]) && Open(us[j])
      ensures ts[i].context != us[j].context
    {
      assert Serves(ts, ts[i].context) && Serves(us, us[j].context);
    }
  }

  lemma JoinServes(ts: seq<Session>, us: seq<Session>, k: nat)
    ensures Serves(ts + us, k) <==> Serves(ts, k) || Serves(us, k)
  {
    if Serves(ts, k) {
      var i :| 0 <= i < |ts| && Open(ts[i]) && ts[i].context == k;
      assert (ts + us)[i] == ts[i];
    }
    if Serves(us, k) {
      var i :| 0 <= i < |us| && Open(us[i]) && us[i].context == k;
      assert (ts + us)[|ts| + i] == us[i];
    }
  }

  /** A response frees no context but its own. */
  lemma OthersStay(c: S.Config, s: S.State, k: nat)
    requires S.Conserved(c, s)
    ensures s.inFlight - {k} <= S.Respond(c, s, k).inFlight
  {
    var s' := S.Call(s, k);
    if S.Ends(c, s, k) {
      RefillStays(c, S.Delete(s', k));
    } else if S.Ends(c, s', k) {
      RefillStays(c, S.Delete(S.Call(s', k), k));
    }
  }

  /** Contexts in flight stay so, when all of them have been taken. */
  lemma {:induction false} RefillStays(c: S.Config, s: S.State)
    requires forall k :: k in s.inFlight ==> k < s.next
    ensures s.inFlight <= S.Refill(c, s).inFlight
    decreases c.size - s.next
  {
    if s.next < c.size && S.Ends(c, s, s.next) {
      RefillStays(c, S.Take(S.Delete(S.Call(s, s.next), s.next)));
    }
  }

  // ---- whole scans ----

  lemma StepKeepsPaired(p: Plan, s: State, i: nat, e: N.Event)
    requires Buffered(p) && Paired(p, s) && Possible(s, i, e)
    ensures Paired(p, Step(p, s, i, e))
  {
    var t := s.sessions[i];
    AfterIsSound(t, e);
    AnsweredChanges(s.sessions, i, After(t, e));
    if Open(t) && !Open(After(t, e)) {
      DeliveryIsResponse(p, s, i, After(t, e));
    } else {
      QuietKeepsMatched(s.sessions, s.now.inFlight, i, After(t, e));
    }
  }

  lemma DeliveryIsResponse(p: Plan, s: State, i: nat, t: Session)
    requires Buffered(p) && Paired(p, s) && i < |s.sessions| && t.context == s.sessions[i].context
    requires Sound(t) && Open(s.sessions[i]) && !Open(t)
    requires Answered(s.sessions[i := t]) == Answered(s.sessions) + 1
    ensures Paired(p, Delivered(p, s, i, t))
  {
    var k := t.context;
    var s' := Delivered(p, s, i, t);
    var served := s.now.inFlight - {k};
    DeliveryFreesContext(s.sessions, s.now.inFlight, i, t);
    var h := s.past + [s.now];
    assert h[|h| - 1] == s.now;
    S.RunsAreConserved(p.config, h, |h| - 1);
    S.RespondKeeps(p.config, s.now, k);
    S.RunGrows(p.config, h, k);
    OthersStay(p.config, s.now, k);
    SubmitKeepsMatched(p, s'.now, served, s.sessions[i := t]);
    SubmitServesAll(p, s'.now, served);
    AnsweredAdds(s.sessions[i := t], Submit(p, s'.now, served, s'.now.next));
  }

  /**
    At every point of every scan: the contexts in flight are those with an open session, one each; and the scheduler has
    had one response from each session that delivered, for a context that was in flight.
   */
  lemma {:induction false} ScansArePaired(p: Plan, ss: seq<State>, n: nat)
    requires Buffered(p) && IsRun(p, ss) && n < |ss|
    ensures Paired(p, ss[n])
  {
    if n == 0 {
      BeginIsPaired(p);
    } else {
      ScansArePaired(p, ss, n - 1);
      assert Steps(p, ss[n - 1], ss[n]);
      var i: nat, e :| Possible(ss[n - 1], i, e) && ss[n] == Step(p, ss[n - 1], i, e);
      StepKeepsPaired(p, ss[n - 1], i, e);
    }
  }

  // ---- what is asked ----

  /** The open sessions are about what their contexts asked for last. */
  ghost predicate Current(p: Plan, now: S.State, sessions: seq<Session>) {
    forall i :: 0 <= i < |sessions| && Open(sessions[i]) ==> IsCurrent(p, now, sessions[i])
  }

  /** A response changes the number of calls for no other context in flight. */
  lemma OthersCalled(c: S.Config, s: S.State, k: nat, x: nat)
    requires S.Conserved(c, s) && k in s.inFlight && x in s.inFlight && x != k
    ensures S.Calls(S.Respond(c, s, k), x) == S.Calls(s, x)
  {
    if S.Ends(c, s, k) {
      S.DeleteKeeps(c, s, k);
      R.RefillCalls(c, S.Delete(S.Call(s, k), k), x);
    } else {
      S.CallKeeps(c, s, k);
      var s' := S.Call(s, k);
      if S.Ends(c, s', k) {
        S.DeleteKeeps(c, s', k);
        R.RefillCalls(c, S.Delete(S.Call(s', k), k), x);
      }
    }
  }

  ghost predicate IsCurrent(p: Plan, now: S.State, t: Session) {
    t.request == p.request(t.context, S.Calls(now, t.context))
  }

  /** Another session that is still open. */
  lemma OtherStaysCurrent(p: Plan, s: State, i: nat, j: nat)
    requires Matched(s.sessions, s.now.inFlight) && S.Conserved(p.config, s.now)
    requires i < |s.sessions| && j < |s.sessions| && i != j && Open(s.sessions[i]) && Open(s.sessions[j])
    requires IsCurrent(p, s.now, s.sessions[j])
    ensures IsCurrent(p, S.Respond(p.config, s.now, s.sessions[i].context), s.sessions[j])
  {
    assert Serves(s.sessions, s.sessions[i].context) && Serves(s.sessions, s.sessions[j].context);
    OthersCalled(p.config, s.now, s.sessions[i].context, s.sessions[j].context);
  }

  lemma SubmitIsCurrent(p: Plan, now: S.State, served: set<nat>)
    ensures Current(p, now, Submit(p, now, served, now.next))
  {
    var ts := Submit(p, now, served, now.next);
    forall i | 0 <= i < |ts| ensures IsCurrent(p, now, ts[i]) {
      SubmitAt(p, now, served, now.next, i);
    }
  }

  lemma OthersStayCurrent(p: Plan, s: State, i: nat, t: Session)
    requires Matched(s.sessions, s.now.inFlight) && S.Conserved(p.config, s.now) && Current(p, s.now, s.sessions)
    requires i < |s.sessions| && Open(s.sessions[i]) && !Open(t)
    ensures Current(p, S.Respond(p.config, s.now, s.sessions[i].context), s.sessions[i := t])
  {
    var now := S.Respond(p.config, s.now, s.sessions[i].context);
    forall j | 0 <= j < |s.sessions| && j != i && Open(s.sessions[j]) ensures IsCurrent(p, now, s.sessions[j]) {
      OtherStaysCurrent(p, s, i, j);
    }
  }

  lemma DeliveryKeepsCurrent(p: Plan, s: State, i: nat, t: Session)
    requires Matched(s.sessions, s.now.inFlight) && S.Conserved(p.config, s.now) && Current(p, s.now, s.sessions)
    requires i < |s.sessions| && t.context == s.sessions[i].context && Open(s.sessions[i]) && !Open(t)
    ensures var s' := Delivered(p, s, i, t);
            Current(p, s'.now, s'.sessions)
  {
    var now := S.Respond(p.config, s.now, t.context);
    OthersStayCurrent(p, s, i, t);
    SubmitIsCurrent(p, now, s.now.inFlight - {t.context});
  }

  lemma StepKeepsCurrent(p: Plan, s: State, i: nat, e: N.Event)
    requires Buffered(p) && Paired(p, s) && Current(p, s.now, s.sessions) && Possible(s, i, e)
    ensures var s' := Step(p, s, i, e);
            Current(p, s'.now, s'.sessions)
  {
    AfterIsSound(s.sessions[i], e);
    if Open(s.sessions[i]) && !Open(After(s.sessions[i], e)) {
      var h := s.past + [s.now];
      assert h[|h| - 1] == s.now;
      S.RunsAreConserved(p.config, h, |h| - 1);
      DeliveryKeepsCurrent(p, s, i, After(s.sessions[i], e));
    }
  }

  /** At every point of every scan a session that has not delivered is about what its context asked for last. */
  lemma {:induction false} ScansAreCurrent(p: Plan, ss: seq<State>, n: nat)
    requires Buffered(p) && IsRun(p, ss) && n < |ss|
    ensures Current(p, ss[n].now, ss[n].sessions)
  {
    if n == 0 {
      SubmitIsCurrent(p, ss[0].now, {});
    } else {
      ScansArePaired(p, ss, n - 1);
      ScansAreCurrent(p, ss, n - 1);
      assert Steps(p, ss[n - 1], ss[n]);
      var i: nat, e :| Possible(ss[n - 1], i, e) && ss[n] == Step(p, ss[n - 1], i, e);
      StepKeepsCurrent(p, ss[n - 1], i, e);
    }
  }

  /** A scan with finite scripts brings no more responses than there are script calls left after the fill. */
  lemma ResponsesAreBounded(p: Plan, lives: seq<nat>, ss: seq<State>, n: nat)
    requires Buffered(p) && S.Finite(p.config, lives) && IsRun(p, ss) && n < |ss|
    ensures Answered(ss[n].sessions) <= S.Remaining(p.config, lives, S.Fill(p.config, S.START, 0), p.config.size)
  {
    ScansArePaired(p, ss, n);
    S.RunsAreBounded(p.config, lives, ss[n].past + [ss[n].now], |ss[n].past|);
  }

  /** Nothing can happen any more, other than attempts to resume a session that has delivered. */
  ghost predicate Ended(s: State) {
    forall i: nat, e :: Possible(s, i, e) ==> e.Resume?
  }

  lemma EndedIsExhausted(s: State, i: nat)
    requires Ended(s) && !Aborted(s) && i < |s.sessions|
    ensures N.Exhausted(s.sessions[i].state)
  {
    var state := s.sessions[i].state;
    forall op ensures op !in state.io {
      assert Possible(s, i, N.Completed(op, N.Done(""))) <==> op in state.io;
    }
    assert Possible(s, i, N.SessionTimer(false)) <==> state.timers > 0;
    assert Possible(s, i, N.DelayTimer) <==> state.delayed;
  }

  /** Of the sessions submitted, those of mute requests are the ones that never deliver. */
  lemma ExhaustedIsMute(t: Session)
    requires Sound(t) && N.Exhausted(t.state)
    ensures Open(t) <==> N.Mute(t.request)
  {
  }

  /** No session was given a request that is never answered. */
  ghost predicate NoneMute(sessions: seq<Session>) {
    forall i :: 0 <= i < |sessions| ==> !N.Mute(sessions[i].request)
  }

  lemma MuteKeepsServing(sessions: seq<Session>, inFlight: set<nat>)
    requires Matched(sessions, inFlight) && !NoneMute(sessions)
    ensures inFlight != {}
  {
    var i :| 0 <= i < |sessions| && N.Mute(sessions[i].request);
    assert Serves(sessions, sessions[i].context);
  }

  /** An ended scan has nothing in flight exactly when every request could be answered. */
  lemma EndedIsDrained(p: Plan, s: State)
    requires Paired(p, s) && Ended(s)
    ensures s.now.inFlight == {} <==> NoneMute(s.sessions)
  {
    if !NoneMute(s.sessions) {
      MuteKeepsServing(s.sessions, s.now.inFlight);
    } else {
      assert !Aborted(s);
      forall k: nat ensures k !in s.now.inFlight {
        if k in s.now.inFlight {
          assert Serves(s.sessions, k);
          var i :| 0 <= i < |s.sessions| && Open(s.sessions[i]) && s.sessions[i].context == k;
          EndedIsExhausted(s, i);
          ExhaustedIsMute(s.sessions[i]);
        }
      }
    }
  }

  /** Every item has been taken and its context deleted, once each. */
  ghost predicate Done(c: S.Config, s: S.State) {
    s.next == c.size && |s.deleted| == c.size && s.inFlight == {} && forall k: nat :: k in s.deleted <==> k < c.size
  }

  /** To deal with every item a scan needs a window, or nothing to scan, and requests that can be answered. */
  ghost predicate CanBeDone(c: S.Config, sessions: seq<Session>) {
    (c.stepSize >= 1 || c.size == 0) && NoneMute(sessions)
  }

  /**
    Whatever the peers do and in whatever order: a scan in which nothing can happen any more has dealt with every item
    exactly when it had what it needs, and no scan has dealt with every item without that.
   */
  lemma ScanIsDoneIff(p: Plan, ss: seq<State>, n: nat)
    requires Buffered(p) && IsRun(p, ss) && n < |ss|
    ensures Done(p.config, ss[n].now) ==> CanBeDone(p.config, ss[n].sessions)
    ensures Ended(ss[n]) ==> (Done(p.config, ss[n].now) <==> CanBeDone(p.config, ss[n].sessions))
  {
    ScansArePaired(p, ss, n);
    if !NoneMute(ss[n].sessions) {
      MuteKeepsServing(ss[n].sessions, ss[n].now.inFlight);
    }
    if Ended(ss[n]) {
      EndedIsDrained(p, ss[n]);
    }
    if ss[n].now.inFlight == {} {
      var h := ss[n].past + [ss[n].now];
      assert h[|h| - 1] == ss[n].now;
      S.DrainedMeansDone(p.config, h, |h| - 1);
    }
  }
}
