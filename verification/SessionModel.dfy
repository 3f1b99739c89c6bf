/**
  One TCP session as a state machine: the completions of its operations and timers arrive one at a time, in any order
  that the pending operations allow, with any outcome.
*/
module SessionModel {
  import opened Wrappers

  datatype Scheme = Tcp | Tls | Unknown

  /**
    What a session is asked to do.  `resolves` says whether the host has an address; `file` is the content of the file
    to upload, `None` when it cannot be opened; `bufferSize` is the size of the session's buffer.
   */
  datatype Request = Request(
    scheme: Scheme, resolves: bool, content: string, fileUpload: bool, replaceTag: string, file: Option<string>,
    sessionTimeout: int, delayTimeout: int, isFinal: bool, bufferSize: nat)

  datatype Error = NoError | TimedOut | NotFound | ServiceNotFound | Failure(code: nat)

  datatype Response = Response(content: string, error: Error, isFinal: bool)

  /** An operation that has been started and whose completion has not been handled. */
  datatype Operation =
    | Connect
    | Handshake
    | WriteAll
    | WriteBefore(pos: nat)
    | WriteChunk(offset: nat, size: nat, eof: bool, tag: Option<nat>)
    | WriteAfter(pos: nat)
    | Read

  /** How an operation completes; `data` is what a read has put into the buffer. */
  datatype Outcome = Done(data: string) | Failed(code: nat) | Aborted

  datatype Event =
    | Completed(op: Operation, outcome: Outcome)
    | SessionTimer(aborted: bool)
    | DelayTimer
    | Resume

  /**
    `wire` is what completed writes have sent, `delivered` the responses handed to the client, and `raised` says that
    looking up the host raised an error, which leaves `run` and whoever called it.
   */
  datatype State = State(
    running: bool, raised: bool, io: multiset<Operation>, timers: nat, delayed: bool,
    content: string, wire: string, delivered: seq<Response>)

  const IDLE := State(false, false, multiset{}, 0, false, "", "", [])

  predicate Matches(text: string, tag: string, p: nat) {
    p + |tag| <= |text| && text[p..p + |tag|] == tag
  }

  /** The first position at which `tag` occurs in `text`, at or after `from`. */
  function Find(text: string, tag: string, from: nat): (r: Option<nat>)
    ensures r.Some? ==> from <= r.value && Matches(text, tag, r.value)
    ensures r.Some? ==> forall p :: from <= p < r.value ==> !Matches(text, tag, p)
    ensures r.None? ==> forall p :: from <= p ==> !Matches(text, tag, p)
    decreases |text| - from
  {
    if from + |tag| > |text| then None
    else if text[from..from + |tag|] == tag then Some(from)
    else
      assert !Matches(text, tag, from);
      Find(text, tag, from + 1)
  }

  // ---- the parts of the handlers ----

  function Launch(s: State, op: Operation): State {
    s.(io := s.io + multiset{op})
  }

  function SetTimeout(s: State, timeout: int): State {
    if timeout > 0 then s.(timers := s.timers + 1) else s
  }

  /** `yield`: a final response closes the session. */
  function Yield(r: Request, s: State, error: Error): State {
    var isFinal := r.isFinal || error != NoError;
    s.(running := s.running && !isFinal, delivered := s.delivered + [Response(s.content, error, isFinal)])
  }

  function WriteContent(r: Request, s: State): State {
    if !r.fileUpload then Launch(s, WriteAll)
    else if r.content == "" || r.replaceTag == "" then UploadFile(r, s, None)
    else match Find(r.content, r.replaceTag, 0)
         case None => UploadFile(r, s, None)
         case Some(pos) => Launch(s, WriteBefore(pos))
  }

  function UploadFile(r: Request, s: State, tag: Option<nat>): State {
    if r.file.None? then Yield(r, s, NotFound) else UploadChunk(r, s, 0, tag)
  }

  /** Reads the next bufferful; the stream is at its end when the buffer could not be filled. */
  function UploadChunk(r: Request, s: State, offset: nat, tag: Option<nat>): State
    requires r.file.Some?
  {
    var left := if offset <= |r.file.value| then |r.file.value| - offset else 0;
    var size := if left < r.bufferSize then left else r.bufferSize;
    if size == 0 then UploadRest(r, s, tag) else Launch(s, WriteChunk(offset, size, left < r.bufferSize, tag))
  }

  function UploadRest(r: Request, s: State, tag: Option<nat>): State {
    match tag
    case None => Launch(s, Read)
    case Some(pos) => Launch(s, WriteAfter(pos))
  }

  /** The host has an address and the session knows how to talk to it. */
  predicate Connects(r: Request) {
    r.resolves && r.scheme != Unknown
  }

  /** `run` without a delay: the session is running and connects, if it can. */
  function Start(r: Request, s: State): State {
    if !r.resolves then s.(running := true, raised := true)
    else
      var s' := SetTimeout(s.(running := true), r.sessionTimeout);
      if r.scheme == Unknown then s' else Launch(s', Connect)
  }

  function Run(r: Request, s: State): State {
    if r.delayTimeout > 0 then s.(delayed := true) else Start(r, s)
  }

  /** What a completed write has sent. */
  function Sent(r: Request, op: Operation): string {
    match op
    case WriteAll => r.content
    case WriteBefore(pos) => if pos <= |r.content| then r.content[..pos] else ""
    case WriteChunk(offset, size, _, _) =>
      if r.file.Some? && offset + size <= |r.file.value| then r.file.value[offset..offset + size] else ""
    case WriteAfter(pos) => if pos + |r.replaceTag| <= |r.content| then r.content[pos + |r.replaceTag|..] else ""
    case _ => ""
  }

  /** What a successful completion leads to. */
  function Proceed(r: Request, s: State, op: Operation, data: string): State {
    match op
    case Connect => if r.scheme == Tls then Launch(s, Handshake) else WriteContent(r, s)
    case Handshake => WriteContent(r, s)
    case WriteAll => Launch(s, Read)
    case WriteBefore(pos) => UploadFile(r, s, Some(pos))
    case WriteChunk(offset, size, eof, tag) =>
      if eof || r.file.None? then UploadRest(r, s, tag) else UploadChunk(r, s, offset + size, tag)
    case WriteAfter(_) => Launch(s, Read)
    case Read => Launch(s.(content := s.content + data), Read)
  }

  /** A successful completion. */
  function Succeed(r: Request, s: State, op: Operation, data: string): State {
    Proceed(r, s.(wire := s.wire + Sent(r, op)), op, data)
  }

  /** The handler of an operation: nothing once the session is closed or the operation was aborted. */
  function Complete(r: Request, s: State, op: Operation, outcome: Outcome): State {
    var s' := s.(io := s.io - multiset{op});
    if !s.running || outcome.Aborted? then s'
    else match outcome
         case Failed(code) => Yield(r, s', Failure(code))
         case Done(data) => Succeed(r, s', op, data)
         case Aborted => s'
  }

  function ResumeSession(r: Request, s: State): State {
    if !s.running then s
    else
      var s' := SetTimeout(s.(content := ""), r.delayTimeout);
      if r.scheme == Unknown then Yield(r, s', ServiceNotFound) else WriteContent(r, s')
  }

  function Handle(r: Request, s: State, e: Event): State {
    match e
    case Completed(op, outcome) => Complete(r, s, op, outcome)
    case SessionTimer(aborted) =>
      var s' := if s.timers > 0 then s.(timers := s.timers - 1) else s;
      if !s.running || aborted then s' else Yield(r, s', TimedOut)
    case DelayTimer => Start(r, s.(delayed := false))
    case Resume => ResumeSession(r, s)
  }

  /**
    What can happen next: a pending operation completes, aborted only after the session was closed; a timer fires;
    whoever has received a response, and with it the session, resumes it.
   */
  predicate Possible(s: State, e: Event) {
    match e
    case Completed(op, outcome) => op in s.io && (outcome.Aborted? ==> !s.running)
    case SessionTimer(aborted) => s.timers > 0 && (aborted ==> !s.running)
    case DelayTimer => s.delayed
    case Resume => s.delivered != []
  }

  // ---- the upload ----

  /** What the peer must receive: the content, or the content with the file in place of the first tag, or the file. */
  function Expected(r: Request): string {
    if !r.fileUpload then r.content
    else if r.file.None? then ""
    else if r.content == "" || r.replaceTag == "" then r.file.value
    else match Find(r.content, r.replaceTag, 0)
         case None => r.file.value
         case Some(pos) => r.content[..pos] + r.file.value + r.content[pos + |r.replaceTag|..]
  }

  /** The tag position that an upload works with. */
  function TagAt(r: Request): Option<nat> {
    if r.content == "" || r.replaceTag == "" then None else Find(r.content, r.replaceTag, 0)
  }

  /** What is still to be sent once the pending operation is under way; none of it while the session connects. */
  ghost predicate OnWire(r: Request, wire: string, op: Operation) {
    match op
    case Connect => wire == ""
    case Handshake => wire == "" && r.scheme == Tls
    case WriteAll => wire == "" && !r.fileUpload
    case WriteBefore(pos) => wire == "" && r.fileUpload && TagAt(r) == Some(pos)
    case WriteChunk(offset, size, eof, tag) =>
      && r.fileUpload && r.file.Some? && tag == TagAt(r)
      && size >= 1 && offset + size <= |r.file.value| && (eof ==> offset + size == |r.file.value|)
      && (eof <==> size < r.bufferSize)
      && wire == Head(r) + r.file.value[..offset]
    case WriteAfter(pos) => r.fileUpload && r.file.Some? && TagAt(r) == Some(pos) && wire == Head(r) + r.file.value
    case Read => wire == Expected(r) && (r.fileUpload ==> r.file.Some?)
  }

  function Head(r: Request): string {
    match TagAt(r)
    case None => ""
    case Some(pos) => r.content[..pos]
  }

  // ---- what every event keeps ----

  /**
    While the session runs it has one operation pending and nothing delivered, and the wire is as far as that operation
    says; once it has ended it has delivered one response, a final one.
   */
  ghost predicate Ordered(r: Request, s: State) {
    && (s.delayed ==>
          !s.running && s.io == multiset{} && s.timers == 0 && s.delivered == [] && s.wire == "" && s.content == "")
    && (s.running ==> s.delivered == [])
    && (s.running && Connects(r) ==> exists op :: s.io == multiset{op} && OnWire(r, s.wire, op))
    && (s.running && !Connects(r) ==>
          s.io == multiset{} && s.timers == if r.resolves && r.sessionTimeout > 0 then 1 else 0)
    && (!s.running && !s.delayed ==>
          |s.delivered| == 1 && s.delivered[0].isFinal && s.delivered[0].content == s.content)
  }

  /** A handler's tail is in order when it leaves one operation pending, or has delivered. */
  ghost predicate Launched(r: Request, s: State) {
    && !s.delayed
    && (s.running ==> s.delivered == [] && exists op :: s.io == multiset{op} && OnWire(r, s.wire, op))
    && (!s.running ==> |s.delivered| == 1 && s.delivered[0].isFinal && s.delivered[0].content == s.content)
  }

  lemma LaunchIsLaunched(r: Request, s: State, op: Operation)
    requires s.running && s.io == multiset{} && s.delivered == [] && !s.delayed && OnWire(r, s.wire, op)
    ensures Launched(r, Launch(s, op))
  {
    assert Launch(s, op).io == multiset{op};
  }

  lemma UploadRestIsLaunched(r: Request, s: State)
    requires s.running && s.io == multiset{} && s.delivered == [] && !s.delayed
    requires r.fileUpload && r.file.Some? && s.wire == Head(r) + r.file.value
    ensures Launched(r, UploadRest(r, s, TagAt(r)))
  {
    match TagAt(r)
    case None =>
      assert s.wire == Expected(r);
      LaunchIsLaunched(r, s, Read);
    case Some(pos) => LaunchIsLaunched(r, s, WriteAfter(pos));
  }

  lemma UploadChunkIsLaunched(r: Request, s: State, offset: nat)
    requires s.running && s.io == multiset{} && s.delivered == [] && !s.delayed && r.bufferSize >= 1
    requires r.fileUpload && r.file.Some? && offset <= |r.file.value| && s.wire == Head(r) + r.file.value[..offset]
    ensures Launched(r, UploadChunk(r, s, offset, TagAt(r)))
  {
    var left := |r.file.value| - offset;
    var size := if left < r.bufferSize then left else r.bufferSize;
    if size == 0 {
      assert r.file.value[..offset] == r.file.value;
      UploadRestIsLaunched(r, s);
    } else {
      LaunchIsLaunched(r, s, WriteChunk(offset, size, left < r.bufferSize, TagAt(r)));
    }
  }

  lemma UploadFileIsLaunched(r: Request, s: State)
    requires s.running && s.io == multiset{} && s.delivered == [] && !s.delayed && r.bufferSize >= 1
    requires r.fileUpload && s.wire == Head(r)
    ensures Launched(r, UploadFile(r, s, TagAt(r)))
  {
    if r.file.Some? {
      assert Head(r) + r.file.value[..0] == Head(r);
      UploadChunkIsLaunched(r, s, 0);
    }
  }

  lemma WriteContentIsLaunched(r: Request, s: State)
    requires s.running && s.io == multiset{} && s.delivered == [] && !s.delayed && r.bufferSize >= 1 && s.wire == ""
    ensures Launched(r, WriteContent(r, s))
  {
    if !r.fileUpload {
      LaunchIsLaunched(r, s, WriteAll);
    } else if TagAt(r).None? {
      UploadFileIsLaunched(r, s);
    } else {
      LaunchIsLaunched(r, s, WriteBefore(TagAt(r).value));
    }
  }

  /** Nothing pending, nothing delivered: the state in which the tail of a handler starts. */
  predicate Between(s: State) {
    s.running && s.io == multiset{} && s.delivered == [] && !s.delayed
  }

  lemma ChunkWrittenIsLaunched(r: Request, s: State, offset: nat, size: nat, eof: bool)
    requires Between(s) && r.bufferSize >= 1 && OnWire(r, s.wire, WriteChunk(offset, size, eof, TagAt(r)))
    ensures Launched(r, Succeed(r, s, WriteChunk(offset, size, eof, TagAt(r)), ""))
  {
    var s' := s.(wire := s.wire + Sent(r, WriteChunk(offset, size, eof, TagAt(r))));
    assert r.file.value[..offset] + r.file.value[offset..offset + size] == r.file.value[..offset + size];
    assert s'.wire == Head(r) + r.file.value[..offset + size];
    if eof {
      assert r.file.value[..offset + size] == r.file.value;
      UploadRestIsLaunched(r, s');
    } else {
      UploadChunkIsLaunched(r, s', offset + size);
    }
  }

  lemma ConnectedIsLaunched(r: Request, s: State, op: Operation)
    requires Between(s) && r.bufferSize >= 1 && OnWire(r, s.wire, op) && (op.Connect? || op.Handshake?)
    ensures Launched(r, Succeed(r, s, op, ""))
  {
    assert s.wire + "" == s.wire;
    if op.Connect? && r.scheme == Tls {
      LaunchIsLaunched(r, s, Handshake);
    } else {
      WriteContentIsLaunched(r, s);
    }
  }

  lemma WrittenIsLaunched(r: Request, s: State, op: Operation)
    requires Between(s) && r.bufferSize >= 1 && OnWire(r, s.wire, op)
    requires op.WriteAll? || op.WriteBefore? || op.WriteAfter?
    ensures Launched(r, Succeed(r, s, op, ""))
  {
    var s' := s.(wire := s.wire + Sent(r, op));
    if op.WriteBefore? {
      assert s'.wire == Head(r);
      UploadFileIsLaunched(r, s');
    } else {
      assert s'.wire == Expected(r);
      LaunchIsLaunched(r, s', Read);
    }
  }

  lemma ReadIsLaunched(r: Request, s: State, data: string)
    requires Between(s) && OnWire(r, s.wire, Read)
    ensures Launched(r, Succeed(r, s, Read, data))
  {
    assert s.wire + "" == s.wire;
    LaunchIsLaunched(r, s.(content := s.content + data), Read);
  }

  lemma SucceedIsLaunched(r: Request, s: State, op: Operation, data: string)
    requires Between(s) && r.bufferSize >= 1 && OnWire(r, s.wire, op)
    ensures Launched(r, Succeed(r, s, op, data))
  {
    match op
    case Connect => ConnectedIsLaunched(r, s, op);
    case Handshake => ConnectedIsLaunched(r, s, op);
    case WriteChunk(offset, size, eof, tag) => ChunkWrittenIsLaunched(r, s, offset, size, eof);
    case Read => ReadIsLaunched(r, s, data);
    case _ => WrittenIsLaunched(r, s, op);
  }

  lemma HandleKeepsOrdered(r: Request, s: State, e: Event)
    requires Ordered(r, s) && Possible(s, e) && r.bufferSize >= 1
    ensures Ordered(r, Handle(r, s, e))
  {
    match e
    case Completed(op, outcome) =>
      if s.running {
        var only :| s.io == multiset{only} && OnWire(r, s.wire, only);
        assert op == only;
        var s' := s.(io := s.io - multiset{op});
        assert s'.io == multiset{};
        if outcome.Done? { SucceedIsLaunched(r, s', op, outcome.data); }
      }
    case SessionTimer(_) =>
    case DelayTimer =>
      var s' := SetTimeout(s.(delayed := false, running := true), r.sessionTimeout);
      if Connects(r) { LaunchIsLaunched(r, s', Connect); }
    case Resume =>
  }

  // ---- whole runs ----

  /** `ss` are the states of a session that handles the events `es` in turn. */
  ghost predicate IsRun(r: Request, es: seq<Event>, ss: seq<State>) {
    && |ss| == |es| + 1 && ss[0] == Run(r, IDLE)
    && forall i :: 0 <= i < |es| ==> Possible(ss[i], es[i]) && ss[i + 1] == Handle(r, ss[i], es[i])
  }

  lemma RunGrows(r: Request, es: seq<Event>, ss: seq<State>, n: nat, s: State)
    requires n < |es| && IsRun(r, es[..n], ss) && Possible(ss[n], es[n]) && s == Handle(r, ss[n], es[n])
    ensures IsRun(r, es[..n + 1], ss + [s])
  {
    var es', ss' := es[..n + 1], ss + [s];
    forall i | 0 <= i < |es'| ensures Possible(ss'[i], es'[i]) && ss'[i + 1] == Handle(r, ss'[i], es'[i]) {
      assert i < n ==> es'[i] == es[..n][i] && Possible(ss[i], es[..n][i]) && ss[i + 1] == Handle(r, ss[i], es[..n][i]);
    }
  }

  lemma {:induction false} RunsAreOrdered(r: Request, es: seq<Event>, ss: seq<State>, n: nat)
    requires IsRun(r, es, ss) && n <= |es| && r.bufferSize >= 1
    ensures Ordered(r, ss[n])
  {
    if n > 0 {
      RunsAreOrdered(r, es, ss, n - 1);
      HandleKeepsOrdered(r, ss[n - 1], es[n - 1]);
    } else if r.delayTimeout <= 0 && Connects(r) {
      LaunchIsLaunched(r, SetTimeout(IDLE.(running := true), r.sessionTimeout), Connect);
    }
  }

  /**
    At every point of every run: at most one response, a final one, and while running exactly one pending operation.
   */
  lemma AtMostOneResponse(r: Request, es: seq<Event>, ss: seq<State>, n: nat)
    requires IsRun(r, es, ss) && n <= |es| && r.bufferSize >= 1
    ensures |ss[n].delivered| <= 1 && forall i :: 0 <= i < |ss[n].delivered| ==> ss[n].delivered[i].isFinal
    ensures ss[n].running && Connects(r) ==> |ss[n].io| == 1
    ensures ss[n].delivered != [] ==> !ss[n].running && !ss[n].delayed
  {
    RunsAreOrdered(r, es, ss, n);
  }

  /** Nothing can happen any more, other than attempts to resume. */
  predicate Exhausted(s: State) {
    s.io == multiset{} && s.timers == 0 && !s.delayed
  }

  /** Neither a connection nor a timer will ever bring an answer. */
  predicate Mute(r: Request) {
    !r.resolves || (r.scheme == Unknown && r.sessionTimeout <= 0)
  }

  /**
    A run that has nothing left to handle has answered, unless the host has no address, or the scheme is unknown and no
    timeout was set.
   */
  lemma ExhaustedHasAnswered(r: Request, es: seq<Event>, ss: seq<State>, n: nat)
    requires IsRun(r, es, ss) && n <= |es| && r.bufferSize >= 1 && Exhausted(ss[n])
    ensures |ss[n].delivered| == 1 <==> !Mute(r)
  {
    RunsAreOrdered(r, es, ss, n);
    if Mute(r) {
      MuteStaysSilent(r, es, ss, n);
    }
  }

  lemma {:induction false} MuteStaysSilent(r: Request, es: seq<Event>, ss: seq<State>, n: nat)
    requires IsRun(r, es, ss) && n <= |es| && Mute(r)
    ensures ss[n].delivered == [] && ss[n].io == multiset{} && ss[n].timers == 0
  {
    if n > 0 {
      MuteStaysSilent(r, es, ss, n - 1);
    }
  }

  /** A closed session ignores whatever still arrives. */
  lemma ClosedStaysClosed(r: Request, s: State, e: Event)
    requires !s.running && !s.delayed && Possible(s, e)
    ensures var s' := Handle(r, s, e);
            s'.(io := s.io, timers := s.timers) == s && s'.io <= s.io && s'.timers <= s.timers
  {
  }

  /** Once a response has been delivered, late completions, timers and attempts to resume do nothing. */
  lemma {:induction false} AfterwardsNothing(r: Request, es: seq<Event>, ss: seq<State>, m: nat, n: nat)
    requires IsRun(r, es, ss) && m <= n <= |es| && r.bufferSize >= 1 && ss[m].delivered != []
    ensures ss[n].(io := ss[m].io, timers := ss[m].timers) == ss[m]
    ensures !ss[n].running && ss[n].io <= ss[m].io && ss[n].timers <= ss[m].timers
    decreases n - m
  {
    AtMostOneResponse(r, es, ss, m);
    if m < n {
      AfterwardsNothing(r, es, ss, m, n - 1);
      ClosedStaysClosed(r, ss[n - 1], es[n - 1]);
    }
  }

  /** The chunks read while the session was running, in order. */
  ghost function Received(es: seq<Event>, ss: seq<State>, n: nat): string
    requires n <= |es| && |ss| == |es| + 1
  {
    if n == 0 then ""
    else Received(es, ss, n - 1)
         + (if ss[n - 1].running && es[n - 1].Completed? && es[n - 1].op == Read && es[n - 1].outcome.Done?
            then es[n - 1].outcome.data else "")
  }

  lemma {:induction false} ReadsAddUp(r: Request, es: seq<Event>, ss: seq<State>, n: nat)
    requires IsRun(r, es, ss) && n <= |es| && r.bufferSize >= 1
    ensures ss[n].content == Received(es, ss, n)
  {
    if n > 0 {
      ReadsAddUp(r, es, ss, n - 1);
      RunsAreOrdered(r, es, ss, n - 1);
      HandleContent(r, ss[n - 1], es[n - 1]);
    }
  }

  /** The content of the response is the concatenation of the chunks read. */
  lemma ContentIsReceived(r: Request, es: seq<Event>, ss: seq<State>, n: nat)
    requires IsRun(r, es, ss) && n <= |es| && r.bufferSize >= 1
    ensures ss[n].content == Received(es, ss, n)
    ensures ss[n].delivered != [] ==> ss[n].delivered[0].content == Received(es, ss, n)
  {
    ReadsAddUp(r, es, ss, n);
    RunsAreOrdered(r, es, ss, n);
  }

  /** Only a read changes the content, in a session that has not been resumed. */
  lemma HandleContent(r: Request, s: State, e: Event)
    requires Ordered(r, s) && Possible(s, e)
    ensures Handle(r, s, e).content ==
            s.content + if s.running && e.Completed? && e.op == Read && e.outcome.Done? then e.outcome.data else ""
  {
    assert s.content + "" == s.content;
    if e.Completed? {
      CompleteContent(r, s, e.op, e.outcome);
    }
  }

  lemma CompleteContent(r: Request, s: State, op: Operation, outcome: Outcome)
    requires Ordered(r, s) && Possible(s, Completed(op, outcome))
    ensures Complete(r, s, op, outcome).content ==
            s.content + if s.running && op == Read && outcome.Done? then outcome.data else ""
  {
    assert s.content + "" == s.content;
  }

  /** As soon as a response is being read, the peer has been sent exactly what was to be uploaded. */
  lemma UploadIsComplete(r: Request, es: seq<Event>, ss: seq<State>, n: nat)
    requires IsRun(r, es, ss) && n < |es| && r.bufferSize >= 1
    requires ss[n].running && es[n].Completed? && es[n].op == Read
    ensures ss[n].wire == ss[n + 1].wire == Expected(r)
  {
    RunsAreOrdered(r, es, ss, n);
    assert ss[n].wire + "" == ss[n].wire;
  }

  /** What is to be uploaded: the content with the file in place of the first occurrence of the tag. */
  lemma ExpectedReplacesFirstTag(r: Request, before: string, rest: string)
    requires r.fileUpload && r.file.Some? && r.replaceTag != "" && r.content == before + r.replaceTag + rest
    requires forall p :: 0 <= p < |before| ==> !Matches(r.content, r.replaceTag, p)
    ensures Expected(r) == before + r.file.value + rest
  {
    assert r.content[|before|..|before| + |r.replaceTag|] == r.replaceTag;
    assert Matches(r.content, r.replaceTag, |before|);
    var pos := Find(r.content, r.replaceTag, 0);
    assert pos == Some(|before|);
    assert r.content[..|before|] == before && r.content[|before| + |r.replaceTag|..] == rest;
  }

  /** Without a tag to replace, or with an empty content, it is exactly the file. */
  lemma ExpectedIsFile(r: Request)
    requires r.fileUpload && r.file.Some?
    requires r.replaceTag == "" || forall p: nat :: !Matches(r.content, r.replaceTag, p)
    ensures Expected(r) == r.file.value
  {
  }
}
