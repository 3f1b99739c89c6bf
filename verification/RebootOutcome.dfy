/**
  What the reboot scripts come to: where each of them is after any replies, as a function of these alone.
*/
module RebootOutcome {
  import opened ExecutorModel
  import opened RebootModel

  /** A script that has ended takes no notice of what comes. */
  lemma {:induction false} EndStays<N, D, R>(b: Behaviour<N, D, R>, c: Core<N, D>, replies: seq<R>)
    requires c.step == End
    ensures PlainRun(b, c, replies) == c
    decreases |replies|
  {
    if replies != [] {
      EndStays(b, c, replies[1..]);
    }
  }

  // ---- Avalon ----

  type AvalonCore = Core<AvalonStep, Avalon>

  function AvalonRun(c: AvalonCore, replies: seq<PageReply>): AvalonCore {
    PlainRun(AvalonScript(), c, replies)
  }

  /** The polls are over: one was answered, or there were as many as are left. */
  predicate AvalonOver(polls: seq<PageReply>, left: int) {
    |polls| >= left || exists i :: 0 <= i < |polls| && polls[i].success
  }

  /** Where an Avalon's script is after these replies, the login being out. */
  function AvalonStage(replies: seq<PageReply>): Step<AvalonStep> {
    if replies == [] then Script(DoLogin)
    else if !replies[0].accepted then End
    else AvalonConfiguring(replies[1..])
  }

  /** The configuration being out. */
  function AvalonConfiguring(replies: seq<PageReply>): Step<AvalonStep> {
    if replies == [] then Script(DoCgConf)
    else if !replies[0].accepted then End
    else AvalonRebooting(replies[1..])
  }

  /** The reboot request being out: its answer does not matter, and the polls follow. */
  function AvalonRebooting(replies: seq<PageReply>): Step<AvalonStep> {
    if replies == [] then Script(DoReboot)
    else if AvalonOver(replies[1..], MOST_POLLS) then End
    else Script(DoWaitFinish)
  }

  lemma {:induction false} AvalonPollsOn(c: AvalonCore, polls: seq<PageReply>)
    requires c.step == Script(DoWaitFinish) && 0 <= c.data.polls < MOST_POLLS
    ensures AvalonRun(c, polls).step ==
            if AvalonOver(polls, MOST_POLLS - c.data.polls) then End else Script(DoWaitFinish)
    decreases |polls|
  {
    if polls != [] {
      var c' := PlainRound(AvalonScript(), c, polls[0]);
      if PollsOn(c.data.polls, polls[0].success) {
        AvalonPollsOn(c', polls[1..]);
        assert AvalonOver(polls, MOST_POLLS - c.data.polls) <==> AvalonOver(polls[1..], MOST_POLLS - c'.data.polls);
      } else {
        EndStays(AvalonScript(), c', polls[1..]);
      }
    }
  }

  lemma AvalonRebootsOn(c: AvalonCore, replies: seq<PageReply>)
    requires c.step == Script(DoReboot)
    ensures AvalonRun(c, replies).step == AvalonRebooting(replies)
  {
    if replies != [] {
      AvalonPollsOn(PlainRound(AvalonScript(), c, replies[0]), replies[1..]);
    }
  }

  lemma AvalonConfiguresOn(c: AvalonCore, replies: seq<PageReply>)
    requires c.step == Script(DoCgConf)
    ensures AvalonRun(c, replies).step == AvalonConfiguring(replies)
  {
    if replies != [] {
      var c' := PlainRound(AvalonScript(), c, replies[0]);
      if replies[0].accepted {
        AvalonRebootsOn(c', replies[1..]);
      } else {
        EndStays(AvalonScript(), c', replies[1..]);
      }
    }
  }

  lemma AvalonIsAt(c: AvalonCore, replies: seq<PageReply>)
    requires c.step == Script(DoLogin)
    ensures AvalonRun(c, replies).step == AvalonStage(replies)
  {
    if replies != [] {
      var c' := PlainRound(AvalonScript(), c, replies[0]);
      if replies[0].accepted {
        AvalonConfiguresOn(c', replies[1..]);
      } else {
        EndStays(AvalonScript(), c', replies[1..]);
      }
    }
  }

  /**
    Configuring an Avalon, whatever its sessions come to: after a login it is configured, after that it is sent the
    reboot request, and then polled; a refusal of either, or no login to send, ends it there.
   */
  lemma AvalonFollows(hasLogin: bool, limit: int, delay: int, results: seq<Result<PageReply>>)
    requires Consumes(AvalonScript(), AvalonStarted(hasLogin, limit, delay), results)
    ensures var x := AvalonStarted(hasLogin, limit, delay);
            Run(AvalonScript(), x, results).step ==
            if hasLogin then AvalonStage(Executed(AvalonScript(), x, results)) else End
  {
    var x := AvalonStarted(hasLogin, limit, delay);
    RetryIsTransparent(AvalonScript(), x, results);
    if hasLogin {
      AvalonIsAt(CoreOf(x), Executed(AvalonScript(), x, results));
    } else {
      EndStays(AvalonScript(), CoreOf(x), Executed(AvalonScript(), x, results));
    }
  }

  /** It is sent the reboot request, at some point, exactly when it accepts the login and the configuration. */
  lemma AvalonRebootsIff(replies: seq<PageReply>)
    ensures (exists n :: 0 <= n <= |replies| && AvalonStage(replies[..n]) == Script(DoReboot))
       <==> |replies| >= 2 && replies[0].accepted && replies[1].accepted
  {
    if |replies| >= 2 {
      assert replies[..2][1..] == [replies[1]] && [replies[1]][1..] == [];
      assert replies[0].accepted && replies[1].accepted ==> AvalonStage(replies[..2]) == Script(DoReboot);
    }
    forall n | 0 <= n <= |replies| && AvalonStage(replies[..n]) == Script(DoReboot)
      ensures |replies| >= 2 && replies[0].accepted && replies[1].accepted
    {
      assert n > 0 && replies[..n][0] == replies[0];
      assert n > 1 && replies[..n][1..][0] == replies[1];
    }
  }

  // ---- Antminer ----

  type AntminerCore = Core<AntminerStep, Antminer>

  function AntminerRun(c: AntminerCore, replies: seq<AntminerReply>): AntminerCore {
    PlainRun(AntminerScript(), c, replies)
  }

  /** The polls are over: one was answered, authorizing one raised an error, or there were as many as are left. */
  predicate AntminerOver(polls: seq<AntminerReply>, left: int) {
    |polls| >= left || exists i :: 0 <= i < |polls| && (polls[i].success || polls[i].authorization == Raised)
  }

  /** A challenge that the script can answer, with or without an authorization. */
  predicate Challenge(r: AntminerReply) {
    r.parsed && r.code == 401 && r.authorization != Raised
  }

  /** Where an Antminer's script is after these replies, the first request being out. */
  function AntminerStage(replies: seq<AntminerReply>): Step<AntminerStep> {
    if replies == [] then Script(Auth)
    else if !Challenge(replies[0]) then End
    else AntminerRebooting(replies[1..])
  }

  /** The reboot request being out: its answer matters only for the authorization of the poll that follows. */
  function AntminerRebooting(replies: seq<AntminerReply>): Step<AntminerStep> {
    if replies == [] then Script(OnReboot)
    else if replies[0].authorization == Raised || AntminerOver(replies[1..], MOST_POLLS) then End
    else Script(OnWait)
  }

  /** One of the replies asked for an authorization that could be given. */
  predicate Granted(replies: seq<AntminerReply>) {
    exists i :: 0 <= i < |replies| && replies[i].authorization == Added
  }

  lemma {:induction false} AntminerPollsOn(c: AntminerCore, polls: seq<AntminerReply>)
    requires c.step == Script(OnWait) && 0 <= c.data.polls < MOST_POLLS
    ensures AntminerRun(c, polls).step == if AntminerOver(polls, MOST_POLLS - c.data.polls) then End else Script(OnWait)
    ensures AntminerRun(c, polls).step != End ==>
              (AntminerRun(c, polls).data.authorized <==> c.data.authorized || Granted(polls))
    decreases |polls|
  {
    if polls != [] {
      var c' := PlainRound(AntminerScript(), c, polls[0]);
      if c'.step != End {
        AntminerPollsOn(c', polls[1..]);
        assert AntminerOver(polls, MOST_POLLS - c.data.polls)
          <==> AntminerOver(polls[1..], MOST_POLLS - c'.data.polls);
        assert Granted(polls) <==> polls[0].authorization == Added || Granted(polls[1..]);
      } else {
        EndStays(AntminerScript(), c', polls[1..]);
      }
    }
  }

  /** Where the script is, and whether its request is authorized. */
  predicate AntminerAt(c: AntminerCore, stage: Step<AntminerStep>, authorized: bool) {
    c.step == stage && (stage != End ==> c.data.authorized == authorized)
  }

  lemma GrantedFirst(replies: seq<AntminerReply>)
    requires replies != []
    ensures Granted(replies) <==> replies[0].authorization == Added || Granted(replies[1..])
  {
  }

  lemma AntminerRebootsOn(c: AntminerCore, replies: seq<AntminerReply>)
    requires c.step == Script(OnReboot)
    ensures AntminerAt(AntminerRun(c, replies), AntminerRebooting(replies), c.data.authorized || Granted(replies))
  {
    if replies != [] {
      var c' := PlainRound(AntminerScript(), c, replies[0]);
      GrantedFirst(replies);
      if c'.step == End {
        EndStays(AntminerScript(), c', replies[1..]);
      } else {
        AntminerPollsOn(c', replies[1..]);
      }
    }
  }

  lemma AntminerIsAt(c: AntminerCore, replies: seq<AntminerReply>)
    requires c.step == Script(Auth) && !c.data.authorized
    ensures AntminerAt(AntminerRun(c, replies), AntminerStage(replies), Granted(replies))
  {
    if replies != [] {
      var c' := PlainRound(AntminerScript(), c, replies[0]);
      GrantedFirst(replies);
      if Challenge(replies[0]) {
        AntminerRebootsOn(c', replies[1..]);
      } else {
        EndStays(AntminerScript(), c', replies[1..]);
      }
    }
  }

  /**
    Rebooting an Antminer, whatever its sessions come to: the reboot request is sent again after a challenge, with an
    authorization if one could be given, and then polled for; anything but a challenge ends it there.
   */
  lemma AntminerFollows(limit: int, delay: int, results: seq<Result<AntminerReply>>)
    requires Consumes(AntminerScript(), AntminerStarted(limit, delay), results)
    ensures var x := AntminerStarted(limit, delay);
            var replies := Executed(AntminerScript(), x, results);
            AntminerAt(CoreOf(Run(AntminerScript(), x, results)), AntminerStage(replies), Granted(replies))
  {
    var x := AntminerStarted(limit, delay);
    RetryIsTransparent(AntminerScript(), x, results);
    AntminerIsAt(CoreOf(x), Executed(AntminerScript(), x, results));
  }

  /** It is sent the reboot request, at some point, exactly when the first reply is a challenge. */
  lemma AntminerRebootsIff(replies: seq<AntminerReply>)
    ensures (exists n :: 0 <= n <= |replies| && AntminerStage(replies[..n]) == Script(OnReboot))
       <==> replies != [] && Challenge(replies[0])
  {
    if replies != [] {
      assert replies[..1][0] == replies[0] && replies[..1][1..] == [];
      assert Challenge(replies[0]) ==> AntminerStage(replies[..1]) == Script(OnReboot);
    }
    forall n | 0 <= n <= |replies| && AntminerStage(replies[..n]) == Script(OnReboot)
      ensures replies != [] && Challenge(replies[0])
    {
      assert n > 0 && replies[..n][0] == replies[0];
    }
  }
}
