/**
  Rebooting a miner and polling until it answers again: the script that configures an Avalon, which ends with a reboot,
  and the one that reboots an Antminer.
*/
module RebootModel {
  import opened Wrappers

  import opened ExecutorModel

  const MOST_POLLS := 32

  /**
    A measure for whole runs: if every round keeps an invariant and lowers a number, the number bounds the responses.
   */
  lemma {:induction false} RunFalls<N(!new), D(!new), R(!new)>(b: Behaviour<N, D, R>, x: Executor<N, D>,
                                                               results: seq<Result<R>>,
                                                               inv: Executor<N, D> -> bool, left: Executor<N, D> -> nat)
    requires forall y, r {:trigger Round(b, y, r)} :: inv(y) && y.step != End ==>
               inv(Round(b, y, r)) && left(Round(b, y, r)) < left(y)
    requires inv(x) && Consumes(b, x, results)
    ensures inv(Run(b, x, results)) && |results| + left(Run(b, x, results)) <= left(x)
    decreases |results|
  {
    if results != [] {
      RunFalls(b, Round(b, x, results[0]), results[1..], inv, left);
    }
  }

  /** What the user is told at the end. */
  datatype Outcome = Unknown | Rebooted | TimedOut

  /** A further poll is due unless the miner answered or too many went unanswered. */
  predicate PollsOn(polls: int, success: bool) {
    !success && polls <= 30
  }

  function PollOutcome(success: bool): Outcome {
    if success then Rebooted else TimedOut
  }

  // ---- Avalon ----

  datatype AvalonStep = Begin | DoLogin | CgConf | DoCgConf | Reboot | DoReboot | WaitFinish | DoWaitFinish

  datatype Avalon = Avalon(hasLogin: bool, polls: int, outcome: Outcome)

  /** How the session ended, and whether a handler finds what it looks for in the page. */
  datatype PageReply = PageReply(success: bool, accepted: bool)

  function Go<N, D>(name: N, d: D): Next<N, D> {
    Next(Script(name), d, None, None)
  }

  function Stop<N, D>(d: D): Next<N, D> {
    Next(End, d, None, None)
  }

  function AvalonRequest(name: AvalonStep, d: Avalon): Next<AvalonStep, Avalon> {
    match name
    case Begin => if d.hasLogin then Go(DoLogin, d) else Stop(d)
    case CgConf => Go(DoCgConf, d)
    case Reboot => Go(DoReboot, d)
    case WaitFinish => Go(DoWaitFinish, d)
    case _ => Stop(d)
  }

  function AvalonRespond(name: AvalonStep, d: Avalon, r: PageReply): Next<AvalonStep, Avalon> {
    match name
    case DoLogin => if r.accepted then Go(CgConf, d) else Stop(d)
    case DoCgConf => if r.accepted then Go(Reboot, d) else Stop(d)
    case DoReboot => Next(Script(WaitFinish), d.(polls := 0), Some(20), Some(false))
    case DoWaitFinish =>
      if PollsOn(d.polls, r.success) then Next(Script(WaitFinish), d.(polls := d.polls + 1), Some(5), None)
      else Stop(d.(outcome := PollOutcome(r.success)))
    case _ => Stop(d)
  }

  function AvalonScript(): Behaviour<AvalonStep, Avalon, PageReply> {
    Behaviour((name, d) => AvalonRequest(name, d), (name, d, r) => AvalonRespond(name, d, r))
  }

  function AvalonStarted(hasLogin: bool, limit: int, delay: int): Executor<AvalonStep, Avalon> {
    MakeRequest(AvalonScript(), Executor(Script(Begin), Avalon(hasLogin, 0, Unknown), delay, InitRetry(limit)))
  }

  /**
    While it polls, retrying is off, and until then it is on; the wait before a poll is 20 seconds for the first and 5
    for the others.
   */
  ghost predicate AvalonSound(x: Executor<AvalonStep, Avalon>, limit: int) {
    && AtRest(x) && x.retry.limit == limit
    && (x.step.Script? ==> x.step.name in {DoLogin, DoCgConf, DoReboot, DoWaitFinish})
    && (x.step.Script? && x.step.name != DoWaitFinish ==> x.retry.enable)
    && (x.step == Script(DoWaitFinish) ==>
          SwitchedOff(x) && 0 <= x.data.polls < MOST_POLLS && x.delay == if x.data.polls == 0 then 20 else 5)
  }

  function AvalonLeft(x: Executor<AvalonStep, Avalon>): nat {
    var tries := Max(0, x.retry.limit) + 1;
    var more := Max(0, tries - x.retry.times);
    match x.step
    case Script(DoLogin) => more + 2 * tries + MOST_POLLS
    case Script(DoCgConf) => more + tries + MOST_POLLS
    case Script(DoReboot) => more + MOST_POLLS
    case Script(DoWaitFinish) => Max(0, MOST_POLLS - x.data.polls)
    case _ => 0
  }

  lemma AvalonRound(x: Executor<AvalonStep, Avalon>, r: Result<PageReply>, limit: int)
    requires AvalonSound(x, limit) && x.step != End
    ensures AvalonSound(Round(AvalonScript(), x, r), limit)
    ensures AvalonLeft(Round(AvalonScript(), x, r)) < AvalonLeft(x)
  {
  }

  lemma AvalonFalls(x: Executor<AvalonStep, Avalon>, results: seq<Result<PageReply>>, limit: int)
    requires AvalonSound(x, limit) && Consumes(AvalonScript(), x, results)
    ensures AvalonSound(Run(AvalonScript(), x, results), limit)
    ensures |results| + AvalonLeft(Run(AvalonScript(), x, results)) <= AvalonLeft(x)
  {
    forall y, r {:trigger Round(AvalonScript(), y, r)} | AvalonSound(y, limit) && y.step != End
      ensures AvalonSound(Round(AvalonScript(), y, r), limit)
      ensures AvalonLeft(Round(AvalonScript(), y, r)) < AvalonLeft(y)
    {
      AvalonRound(y, r, limit);
    }
    RunFalls(AvalonScript(), x, results, (y: Executor<AvalonStep, Avalon>) => AvalonSound(y, limit),
             y => AvalonLeft(y));
  }

  /** Configuring an Avalon ends, within so many responses. */
  lemma AvalonEnds(hasLogin: bool, limit: int, delay: int, results: seq<Result<PageReply>>)
    requires Consumes(AvalonScript(), AvalonStarted(hasLogin, limit, delay), results)
    ensures var x' := Run(AvalonScript(), AvalonStarted(hasLogin, limit, delay), results);
            |results| + (if x'.step == End then 0 else 1) <= 3 * (Max(0, limit) + 1) + MOST_POLLS
  {
    AvalonFalls(AvalonStarted(hasLogin, limit, delay), results, limit);
  }

  /**
    The polls of an Avalon: none is repeated, they go on until one is answered or there were 32, and the user is told
    which it was.
   */
  lemma {:induction false} AvalonPolls(x: Executor<AvalonStep, Avalon>, results: seq<Result<PageReply>>, limit: int)
    requires AvalonSound(x, limit) && x.step == Script(DoWaitFinish) && Consumes(AvalonScript(), x, results)
    ensures |results| <= MOST_POLLS - x.data.polls && |Executed(AvalonScript(), x, results)| == |results|
    ensures var x' := Run(AvalonScript(), x, results);
            var answered := results != [] && results[|results| - 1].reply.success;
            && (x'.step == End <==> answered || |results| == MOST_POLLS - x.data.polls)
            && (x'.step == End ==> x'.data.outcome == if answered then Rebooted else TimedOut)
            && (x'.step != End ==> x'.step == Script(DoWaitFinish) && x'.data.polls == x.data.polls + |results|)
    decreases |results|
  {
    if results != [] {
      var x' := Round(AvalonScript(), x, results[0]);
      AvalonRound(x, results[0], limit);
      if x'.step != End {
        AvalonPolls(x', results[1..], limit);
      }
    }
  }

  /**
    Whatever the answer to the reboot request, and however often it was repeated, the polls follow from the first on.
   */
  lemma AvalonRebootIsPolled(x: Executor<AvalonStep, Avalon>, r: Result<PageReply>, limit: int)
    requires AvalonSound(x, limit) && x.step == Script(DoReboot) && !(r.transient && CanRetry(x.retry))
    ensures var x' := Round(AvalonScript(), x, r);
            AvalonSound(x', limit) && x'.step == Script(DoWaitFinish) && x'.data.polls == 0
  {
    AvalonRound(x, r, limit);
  }

  // ---- Antminer ----

  datatype AntminerStep = Start | Auth | SendReboot | OnReboot | Wait | OnWait

  /** What adding the authorization to the next request comes to. */
  datatype Authorization = Added | Refused | Raised

  datatype Antminer = Antminer(authorization: Authorization, authorized: bool, polls: int, outcome: Outcome)

  datatype AntminerReply = AntminerReply(success: bool, parsed: bool, code: nat, authorization: Authorization)

  /** A refused authorization sets the end, which the step set next replaces; the request goes out as it was. */
  function Authorize(d: Antminer, next: AntminerStep, delay: Option<int>): Next<AntminerStep, Antminer> {
    match d.authorization
    case Added => Next(Script(next), d.(authorized := true), delay, None)
    case Refused => Next(Script(next), d, delay, None)
    case Raised => Next(End, d, delay, None)
  }

  function AntminerRequest(name: AntminerStep, d: Antminer): Next<AntminerStep, Antminer> {
    match name
    case Start => Go(Auth, d.(authorized := false))
    case SendReboot => Authorize(d, OnReboot, None)
    case Wait => Authorize(d, OnWait, Some(5))
    case _ => Stop(d)
  }

  function AntminerRespond(name: AntminerStep, was: Antminer, r: AntminerReply): Next<AntminerStep, Antminer> {
    var d := was.(authorization := r.authorization);
    match name
    case Auth => if r.parsed && r.code == 401 then Go(SendReboot, d) else Stop(d)
    case OnReboot => Next(Script(Wait), d.(polls := 0), None, Some(false))
    case OnWait =>
      if PollsOn(d.polls, r.success) then Go(Wait, d.(polls := d.polls + 1))
      else Stop(d.(outcome := PollOutcome(r.success)))
    case _ => Stop(d)
  }

  function AntminerScript(): Behaviour<AntminerStep, Antminer, AntminerReply> {
    Behaviour((name, d) => AntminerRequest(name, d), (name, d, r) => AntminerRespond(name, d, r))
  }

  function AntminerStarted(limit: int, delay: int): Executor<AntminerStep, Antminer> {
    MakeRequest(AntminerScript(),
                Executor(Script(Start), Antminer(Refused, false, 0, Unknown), delay, InitRetry(limit)))
  }

  ghost predicate AntminerSound(x: Executor<AntminerStep, Antminer>, limit: int) {
    && AtRest(x) && x.retry.limit == limit
    && (x.step.Script? ==> x.step.name in {Auth, OnReboot, OnWait})
    && (x.step.Script? && x.step.name != OnWait ==> x.retry.enable)
    && (x.step == Script(OnWait) ==> SwitchedOff(x) && 0 <= x.data.polls < MOST_POLLS && x.delay == 5)
  }

  function AntminerLeft(x: Executor<AntminerStep, Antminer>): nat {
    var tries := Max(0, x.retry.limit) + 1;
    var more := Max(0, tries - x.retry.times);
    match x.step
    case Script(Auth) => more + tries + MOST_POLLS
    case Script(OnReboot) => more + MOST_POLLS
    case Script(OnWait) => Max(0, MOST_POLLS - x.data.polls)
    case _ => 0
  }

  lemma AntminerRound(x: Executor<AntminerStep, Antminer>, r: Result<AntminerReply>, limit: int)
    requires AntminerSound(x, limit) && x.step != End
    ensures AntminerSound(Round(AntminerScript(), x, r), limit)
    ensures AntminerLeft(Round(AntminerScript(), x, r)) < AntminerLeft(x)
  {
  }

  /** Rebooting an Antminer ends, within so many responses. */
  lemma AntminerEnds(limit: int, delay: int, results: seq<Result<AntminerReply>>)
    requires Consumes(AntminerScript(), AntminerStarted(limit, delay), results)
    ensures var x' := Run(AntminerScript(), AntminerStarted(limit, delay), results);
            |results| + (if x'.step == End then 0 else 1) <= 2 * (Max(0, limit) + 1) + MOST_POLLS
  {
    forall y, r {:trigger Round(AntminerScript(), y, r)} | AntminerSound(y, limit) && y.step != End
      ensures AntminerSound(Round(AntminerScript(), y, r), limit)
      ensures AntminerLeft(Round(AntminerScript(), y, r)) < AntminerLeft(y)
    {
      AntminerRound(y, r, limit);
    }
    RunFalls(AntminerScript(), AntminerStarted(limit, delay), results,
             (y: Executor<AntminerStep, Antminer>) => AntminerSound(y, limit), y => AntminerLeft(y));
  }

  /**
    The polls of an Antminer: none is repeated, and unless an authorization raises an error they go on until one is
    answered or there were 32.
   */
  lemma {:induction false} AntminerPolls(x: Executor<AntminerStep, Antminer>, results: seq<Result<AntminerReply>>,
                                         limit: int)
    requires AntminerSound(x, limit) && x.step == Script(OnWait) && Consumes(AntminerScript(), x, results)
    ensures |results| <= MOST_POLLS - x.data.polls && |Executed(AntminerScript(), x, results)| == |results|
    ensures var x' := Run(AntminerScript(), x, results);
            var answered := results != [] && results[|results| - 1].reply.success;
            var raised := results != [] && results[|results| - 1].reply.authorization == Raised;
            && (x'.step == End <==> answered || |results| == MOST_POLLS - x.data.polls || raised)
            && (x'.step == End && (answered || |results| == MOST_POLLS - x.data.polls) ==>
                  x'.data.outcome == if answered then Rebooted else TimedOut)
            && (x'.step != End ==> x'.step == Script(OnWait) && x'.data.polls == x.data.polls + |results|)
    decreases |results|
  {
    if results != [] {
      var x' := Round(AntminerScript(), x, results[0]);
      AntminerRound(x, results[0], limit);
      if x'.step != End {
        AntminerPolls(x', results[1..], limit);
      }
    }
  }

  /**
    The reboot request is polled for whatever the answer, a rejection with code 401 included: the end that the parser of
    the response sets is replaced, and the branch meant for a rejection sees no response. Only an error in authorizing
    the first poll stops the script.
   */
  lemma RejectionIsPolled(x: Executor<AntminerStep, Antminer>, r: Result<AntminerReply>, limit: int)
    requires AntminerSound(x, limit) && x.step == Script(OnReboot) && !(r.transient && CanRetry(x.retry))
    ensures var x' := Round(AntminerScript(), x, r);
            AntminerSound(x', limit) && x'.data.polls == 0
            && x'.step == if r.reply.authorization == Raised then End else Script(OnWait)
  {
    AntminerRound(x, r, limit);
  }
}
