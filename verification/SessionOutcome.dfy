/**
  What a session waits for before it goes on, and what its response tells: over whole runs, whatever completes and in
  whatever order.
*/
module SessionOutcome {
  import opened Wrappers

  import opened SessionModel

  // ---- the session timer ----

  /** How many timers a session sets when it starts. */
  function Timers(r: Request): nat {
    if r.resolves && r.sessionTimeout > 0 then 1 else 0
  }

  /** The timer runs for as long as the session does, and not before. */
  predicate Timed(r: Request, s: State) {
    && (s.running ==> s.timers == Timers(r))
    && (s.delayed ==> s.timers == 0)
  }

  lemma ProceedKeepsTimers(r: Request, s: State, op: Operation, data: string)
    ensures Proceed(r, s, op, data).timers == s.timers && Proceed(r, s, op, data).delayed == s.delayed
    ensures Proceed(r, s, op, data).running ==> s.running
  {
  }

  lemma HandleKeepsTimed(r: Request, s: State, e: Event)
    requires Ordered(r, s) && Timed(r, s) && Possible(s, e)
    ensures Timed(r, Handle(r, s, e))
  {
    if e.Completed? && e.outcome.Done? {
      ProceedKeepsTimers(r, s.(io := s.io - multiset{e.op}, wire := s.wire + Sent(r, e.op)), e.op, e.outcome.data);
    }
  }

  lemma StartsTimed(r: Request)
    ensures Timed(r, Run(r, IDLE))
  {
  }

  /** At every point of every run a session that was given a timeout has its timer set for as long as it runs. */
  lemma {:induction false} TimerIsSet(r: Request, es: seq<Event>, ss: seq<State>, n: nat)
    requires IsRun(r, es, ss) && n <= |es| && r.bufferSize >= 1
    ensures Timed(r, ss[n])
  {
    if n == 0 {
      StartsTimed(r);
    } else {
      TimerIsSet(r, es, ss, n - 1);
      RunsAreOrdered(r, es, ss, n - 1);
      HandleKeepsTimed(r, ss[n - 1], es[n - 1]);
    }
  }

  /** So it can always be cut short, and then says that it timed out, with what had been read so far. */
  lemma TimeoutAnswers(r: Request, es: seq<Event>, ss: seq<State>, n: nat)
    requires IsRun(r, es, ss) && n <= |es| && r.bufferSize >= 1
    requires ss[n].running && r.resolves && r.sessionTimeout > 0
    ensures Possible(ss[n], SessionTimer(false))
    ensures var s := Handle(r, ss[n], SessionTimer(false));
            !s.running && s.delivered == [Response(Received(es, ss, n), TimedOut, true)]
  {
    TimerIsSet(r, es, ss, n);
    RunsAreOrdered(r, es, ss, n);
    ContentIsReceived(r, es, ss, n);
  }

  // ---- the delay ----

  lemma DelayEnds(r: Request, s: State, e: Event)
    requires Possible(s, e)
    ensures Handle(r, s, e).delayed <==> s.delayed && e != DelayTimer
  {
    if e.Completed? && e.outcome.Done? {
      ProceedKeepsTimers(r, s.(io := s.io - multiset{e.op}, wire := s.wire + Sent(r, e.op)), e.op, e.outcome.data);
    }
  }

  lemma StartsDelayed(r: Request)
    ensures Run(r, IDLE).delayed <==> r.delayTimeout > 0
  {
  }

  /** The delay timer has not fired yet. */
  predicate Waiting(es: seq<Event>, n: nat)
    requires n <= |es|
  {
    forall i :: 0 <= i < n ==> es[i] != DelayTimer
  }

  /** A session with a delay waits for its delay timer, and one without does not. */
  lemma {:induction false} DelayIsWaited(r: Request, es: seq<Event>, ss: seq<State>, n: nat)
    requires IsRun(r, es, ss) && n <= |es|
    ensures ss[n].delayed <==> r.delayTimeout > 0 && Waiting(es, n)
  {
    if n == 0 {
      StartsDelayed(r);
    } else {
      DelayIsWaited(r, es, ss, n - 1);
      DelayEnds(r, ss[n - 1], es[n - 1]);
    }
  }

  /** Until then nothing is under way. */
  lemma NothingBeforeDelay(r: Request, es: seq<Event>, ss: seq<State>, n: nat)
    requires IsRun(r, es, ss) && n <= |es| && r.bufferSize >= 1
    requires r.delayTimeout > 0 && Waiting(es, n)
    ensures !ss[n].running && ss[n].io == multiset{} && ss[n].timers == 0 && ss[n].wire == ""
  {
    DelayIsWaited(r, es, ss, n);
    RunsAreOrdered(r, es, ss, n);
  }

  // ---- what comes first ----

  predicate Pending(s: State, op: Operation) {
    op in s.io
  }

  predicate Succeeded(es: seq<Event>, n: nat, op: Operation)
    requires n <= |es|
  {
    exists i :: 0 <= i < n && es[i].Completed? && es[i].op == op && es[i].outcome.Done?
  }

  /** There is a connection, and a handshake where the scheme asks for one. */
  ghost predicate Ready(r: Request, es: seq<Event>, n: nat, op: Operation)
    requires n <= |es|
  {
    op != Connect ==> Succeeded(es, n, Connect) && (r.scheme == Tls && op != Handshake ==> Succeeded(es, n, Handshake))
  }

  /** What is pending has been prepared for. */
  ghost predicate Prepared(r: Request, s: State, es: seq<Event>, n: nat)
    requires n <= |es|
  {
    s.running ==> forall op :: Pending(s, op) ==> Ready(r, es, n, op)
  }

  /** A handler launches what follows the operation that completed. */
  lemma LaunchedNext(r: Request, s: State, op: Operation, data: string, next: Operation)
    requires Between(s) && next in Succeed(r, s, op, data).io
    ensures next != Connect
    ensures op == Connect && r.scheme == Tls ==> next == Handshake
  {
  }

  lemma StartsPrepared(r: Request, es: seq<Event>)
    ensures Prepared(r, Run(r, IDLE), es, 0)
  {
  }

  lemma Later(es: seq<Event>, n: nat, op: Operation)
    requires n < |es| && Succeeded(es, n, op)
    ensures Succeeded(es, n + 1, op)
  {
  }

  lemma ReadyLater(r: Request, es: seq<Event>, n: nat, op: Operation)
    requires n < |es| && Ready(r, es, n, op)
    ensures Ready(r, es, n + 1, op)
  {
    forall x | Succeeded(es, n, x) ensures Succeeded(es, n + 1, x) {
      Later(es, n, x);
    }
  }

  /** The operation that follows a success is one for which that success was needed. */
  lemma NextIsReady(r: Request, es: seq<Event>, n: nat, s: State, op: Operation, data: string, next: Operation)
    requires n < |es| && es[n] == Completed(op, Done(data)) && Ready(r, es, n, op)
    requires Between(s) && Pending(Succeed(r, s, op, data), next)
    ensures Ready(r, es, n + 1, next)
  {
    LaunchedNext(r, s, op, data, next);
    ReadyLater(r, es, n, op);
    assert es[n].Completed? && es[n].op == op && es[n].outcome.Done?;
    assert Succeeded(es, n + 1, op);
  }

  lemma PreparedByStep(r: Request, es: seq<Event>, n: nat, s: State)
    requires n < |es| && Ordered(r, s) && Possible(s, es[n]) && Prepared(r, s, es, n) && r.bufferSize >= 1
    ensures Prepared(r, Handle(r, s, es[n]), es, n + 1)
  {
    var e := es[n];
    var s' := Handle(r, s, e);
    if s'.running && s.running {
      forall op | Pending(s', op) ensures Ready(r, es, n + 1, op) {
        if Pending(s, op) {
          ReadyLater(r, es, n, op);
        } else {
          LaunchedBySuccess(r, s, e, op);
          assert Pending(s, e.op);
          NextIsReady(r, es, n, s.(io := s.io - multiset{e.op}), e.op, e.outcome.data, op);
        }
      }
    }
  }

  /** What was not pending before was launched by a success, with nothing else pending. */
  lemma LaunchedBySuccess(r: Request, s: State, e: Event, op: Operation)
    requires Ordered(r, s) && Possible(s, e) && s.running
    requires Pending(Handle(r, s, e), op) && !Pending(s, op)
    ensures e.Completed? && e.outcome.Done? && Between(s.(io := s.io - multiset{e.op}))
  {
    if e.Completed? {
      var only :| s.io == multiset{only} && OnWire(r, s.wire, only);
      assert e.op == only && s.io - multiset{only} == multiset{};
    }
  }

  /** At every point of every run: a session sends and reads only after it has connected and, with TLS, shaken hands. */
  lemma {:induction false} PreparedInTurn(r: Request, es: seq<Event>, ss: seq<State>, n: nat)
    requires IsRun(r, es, ss) && n <= |es| && r.bufferSize >= 1
    ensures Prepared(r, ss[n], es, n)
  {
    if n == 0 {
      StartsPrepared(r, es);
    } else {
      PreparedInTurn(r, es, ss, n - 1);
      RunsAreOrdered(r, es, ss, n - 1);
      PreparedByStep(r, es, n - 1, ss[n - 1]);
    }
  }

  // ---- what the response tells ----

  /** The operation after which a missing file would be opened. */
  predicate OpensFile(r: Request, op: Operation) {
    r.fileUpload
    && match TagAt(r)
       case Some(pos) => op == WriteBefore(pos)
       case None => op == if r.scheme == Tls then Handshake else Connect
  }

  /** Why a session that runs ends with an event, if it does. */
  function Reason(r: Request, e: Event): Option<Error> {
    match e
    case Completed(op, Failed(code)) => Some(Failure(code))
    case Completed(op, Done(_)) => if OpensFile(r, op) && r.file.None? then Some(NotFound) else None
    case Completed(op, Aborted) => None
    case SessionTimer(aborted) => if aborted then None else Some(TimedOut)
    case _ => None
  }

  /** It ends exactly with such an event, and its response gives that reason and what has been read. */
  predicate EndsFor(r: Request, s: State, s': State, reason: Option<Error>) {
    && (s'.running <==> reason.None?)
    && s'.delivered == if reason.None? then [] else [Response(s.content, reason.value, true)]
  }

  lemma CompletionEndsForReason(r: Request, s: State, op: Operation, outcome: Outcome)
    requires Ordered(r, s) && Possible(s, Completed(op, outcome)) && s.running
    ensures EndsFor(r, s, Complete(r, s, op, outcome), Reason(r, Completed(op, outcome)))
  {
    if outcome.Done? {
      var only :| s.io == multiset{only} && OnWire(r, s.wire, only);
      assert op == only;
      SuccessEndsForReason(r, s.(io := s.io - multiset{op}), op, outcome.data, s.wire);
    }
  }

  lemma SuccessEndsForReason(r: Request, s: State, op: Operation, data: string, wire: string)
    requires s.running && s.delivered == [] && OnWire(r, wire, op)
    ensures EndsFor(r, s, Succeed(r, s, op, data), Reason(r, Completed(op, Done(data))))
  {
  }

  lemma EndsForReason(r: Request, s: State, e: Event)
    requires Ordered(r, s) && Possible(s, e) && s.running
    ensures EndsFor(r, s, Handle(r, s, e), Reason(r, e))
  {
    match e
    case Completed(op, outcome) => CompletionEndsForReason(r, s, op, outcome);
    case SessionTimer(_) =>
    case DelayTimer =>
    case Resume =>
  }

  /** Only a session that runs can deliver. */
  lemma StillRuns(r: Request, s: State, e: Event)
    requires Ordered(r, s) && Possible(s, e) && s.delivered == [] && Handle(r, s, e).delivered != []
    ensures s.running
  {
  }

  /** The response delivered at point `n` ended the session at point `i`. */
  predicate EndedAt(r: Request, es: seq<Event>, ss: seq<State>, n: nat, i: nat)
    requires |ss| == |es| + 1 && n <= |es|
  {
    && i < n && ss[i].running && Reason(r, es[i]).Some?
    && ss[n].delivered == [Response(ss[i].content, Reason(r, es[i]).value, true)]
  }

  lemma EndsAtStep(r: Request, s: State, e: Event)
    requires Ordered(r, s) && Possible(s, e) && s.delivered == [] && Handle(r, s, e).delivered != []
    ensures s.running && Reason(r, e).Some?
    ensures Handle(r, s, e).delivered == [Response(s.content, Reason(r, e).value, true)]
  {
    StillRuns(r, s, e);
    EndsForReason(r, s, e);
  }

  /** A response that has been delivered gives the reason for which the session ended, and what it had read by then. */
  lemma {:induction false} ResponseGivesReason(r: Request, es: seq<Event>, ss: seq<State>, n: nat) returns (i: nat)
    requires IsRun(r, es, ss) && n <= |es| && r.bufferSize >= 1 && ss[n].delivered != []
    ensures EndedAt(r, es, ss, n, i)
  {
    if n == 0 {
      RunsAreOrdered(r, es, ss, 0);
      assert false;
    }
    if ss[n - 1].delivered != [] {
      i := ResponseGivesReason(r, es, ss, n - 1);
      AfterwardsNothing(r, es, ss, n - 1, n);
    } else {
      i := n - 1;
      RunsAreOrdered(r, es, ss, i);
      EndsAtStep(r, ss[i], es[i]);
    }
  }

  // ---- what is left afterwards ----

  /** How much can still happen to a session, attempts to resume it aside. */
  function Outstanding(s: State): nat {
    |s.io| + s.timers + if s.delayed then 1 else 0
  }

  /** A session that has ended runs out of events: each completion and each timer that is late is one less. */
  lemma LateEventsRunOut(r: Request, s: State, e: Event)
    requires Ordered(r, s) && Possible(s, e) && !s.running && !s.delayed
    ensures Outstanding(Handle(r, s, e)) == if e.Resume? then Outstanding(s) else Outstanding(s) - 1
  {
  }

  /**
    A session resumed while it ran would start its answer over: the content again, or an error where there is no
    connection to send it on.
   */
  lemma ResumingStartsOver(r: Request, s: State)
    requires Between(s) && r.bufferSize >= 1 && s.wire == ""
    ensures var s' := ResumeSession(r, s);
            && s'.content == "" && s'.timers == s.timers + (if r.delayTimeout > 0 then 1 else 0)
            && if r.scheme == Unknown then !s'.running && s'.delivered == [Response("", ServiceNotFound, true)]
               else Launched(r, s')
  {
    var s' := SetTimeout(s.(content := ""), r.delayTimeout);
    WriteContentIsLaunched(r, s');
    WritingKeepsContent(r, s');
  }

  lemma WritingKeepsContent(r: Request, s: State)
    ensures WriteContent(r, s).content == s.content && WriteContent(r, s).timers == s.timers
  {
  }
}
