/**
  The session as an object whose handlers update its fields; every handler computes the transition of the state machine.

  `io`, `timers` and `delayed` stand for what the event loop holds for this session.
*/
module Session {
  import opened Wrappers

  import opened SessionModel
  import opened SessionOutcome

  class TcpSession {
    const request: Request
    var running: bool
    var raised: bool
    var io: multiset<Operation>
    var timers: nat
    var delayed: bool
    var content: string
    var wire: string
    var delivered: seq<Response>

    constructor (request: Request)
      ensures this.request == request && Value() == IDLE
    {
      this.request := request;
      running, raised, io, timers, delayed := false, false, multiset{}, 0, false;
      content, wire, delivered := "", "", [];
    }

    function Value(): State
      reads this
    {
      State(running, raised, io, timers, delayed, content, wire, delivered)
    }

    method AsyncStart(op: Operation)
      modifies this`io
      ensures Value() == Launch(old(Value()), op)
    {
      io := io + multiset{op};
    }

    method StartTimer(timeout: int)
      modifies this`timers
      ensures Value() == SetTimeout(old(Value()), timeout)
    {
      if timeout > 0 {
        timers := timers + 1;
      }
    }

    method Clean()
      modifies this`running
      ensures !running
    {
      running := false;
    }

    method YieldResponse(error: Error)
      modifies this`running, this`delivered
      ensures Value() == Yield(request, old(Value()), error)
    {
      var isFinal := request.isFinal || error != NoError;
      if isFinal {
        Clean();
      }
      delivered := delivered + [Response(content, error, isFinal)];
    }

    method RunNow()
      modifies this
      ensures Value() == Start(request, old(Value()))
    {
      running := true;
      if !request.resolves {
        raised := true;
        return;
      }
      StartTimer(request.sessionTimeout);
      if request.scheme != Unknown {
        AsyncStart(Connect);
      }
    }

    method RunSession()
      modifies this
      ensures Value() == Run(request, old(Value()))
    {
      if request.delayTimeout > 0 {
        delayed := true;
      } else {
        RunNow();
      }
    }

    method Write()
      modifies this
      ensures Value() == WriteContent(request, old(Value()))
    {
      if !request.fileUpload {
        AsyncStart(WriteAll);
      } else if request.content == "" || request.replaceTag == "" {
        WriteFile(None);
      } else {
        var pos := Find(request.content, request.replaceTag, 0);
        if pos.None? {
          WriteFile(None);
        } else {
          AsyncStart(WriteBefore(pos.value));
        }
      }
    }

    method WriteFile(tag: Option<nat>)
      modifies this
      ensures Value() == UploadFile(request, old(Value()), tag)
    {
      if request.file.None? {
        YieldResponse(NotFound);
      } else {
        WriteNextChunk(0, tag);
      }
    }

    method WriteNextChunk(offset: nat, tag: Option<nat>)
      requires request.file.Some?
      modifies this
      ensures Value() == UploadChunk(request, old(Value()), offset, tag)
    {
      var left := if offset <= |request.file.value| then |request.file.value| - offset else 0;
      var size := if left < request.bufferSize then left else request.bufferSize;
      if size == 0 {
        WriteRest(tag);
      } else {
        AsyncStart(WriteChunk(offset, size, left < request.bufferSize, tag));
      }
    }

    method WriteRest(tag: Option<nat>)
      modifies this
      ensures Value() == UploadRest(request, old(Value()), tag)
    {
      if tag.None? {
        AsyncStart(Read);
      } else {
        AsyncStart(WriteAfter(tag.value));
      }
    }

    method OnChunkWritten(offset: nat, eof: bool, tag: Option<nat>)
      modifies this
      ensures Value() == if eof || request.file.None? then UploadRest(request, old(Value()), tag)
                         else UploadChunk(request, old(Value()), offset, tag)
    {
      if eof || request.file.None? {
        WriteRest(tag);
      } else {
        WriteNextChunk(offset, tag);
      }
    }

    method OnSuccess(op: Operation, data: string)
      modifies this
      ensures Value() == Succeed(request, old(Value()), op, data)
    {
      wire := wire + Sent(request, op);
      Continue(op, data);
    }

    method Continue(op: Operation, data: string)
      modifies this
      ensures Value() == Proceed(request, old(Value()), op, data)
    {
      match op {
        case Connect =>
          if request.scheme == Tls {
            AsyncStart(Handshake);
          } else {
            Write();
          }
        case Handshake => Write();
        case WriteAll => AsyncStart(Read);
        case WriteBefore(pos) => WriteFile(Some(pos));
        case WriteChunk(offset, size, eof, tag) =>
          OnChunkWritten(offset + size, eof, tag);
        case WriteAfter(_) => AsyncStart(Read);
        case Read =>
          content := content + data;
          AsyncStart(Read);
      }
    }

    method OnCompleted(op: Operation, outcome: Outcome)
      modifies this
      ensures Value() == Complete(request, old(Value()), op, outcome)
    {
      io := io - multiset{op};
      if !running || outcome.Aborted? {
        return;
      }
      if outcome.Failed? {
        YieldResponse(Failure(outcome.code));
        return;
      }
      OnSuccess(op, outcome.data);
    }

    method OnSessionTimer(aborted: bool)
      modifies this
      ensures Value() == Handle(request, old(Value()), SessionTimer(aborted))
    {
      if timers > 0 {
        timers := timers - 1;
      }
      if !running || aborted {
        return;
      }
      YieldResponse(TimedOut);
    }

    method OnDelayTimer()
      modifies this
      ensures Value() == Handle(request, old(Value()), DelayTimer)
    {
      delayed := false;
      RunNow();
    }

    method OnResume()
      modifies this
      ensures Value() == Handle(request, old(Value()), Resume)
    {
      if !running {
        return;
      }
      content := "";
      StartTimer(request.delayTimeout);
      if request.scheme == Unknown {
        YieldResponse(ServiceNotFound);
      } else {
        Write();
      }
    }

    method OnEvent(e: Event)
      modifies this
      ensures Value() == Handle(request, old(Value()), e)
    {
      match e
      case Completed(op, outcome) => OnCompleted(op, outcome);
      case SessionTimer(aborted) => OnSessionTimer(aborted);
      case DelayTimer => OnDelayTimer();
      case Resume => OnResume();
    }

    /**
      Starts the session and lets it handle events for as long as they can happen to it.  Whatever they are, the client
      gets at most one response, a final one with what was read and the reason for the end; and exactly one if nothing
      is left to happen, provided the session could ever answer.  While it runs, its timer is set if it has one.
     */
    method Serve(es: seq<Event>) returns (handled: nat, ghost ss: seq<State>)
      requires Value() == IDLE && request.bufferSize >= 1
      modifies this
      ensures handled <= |es| && IsRun(request, es[..handled], ss) && Value() == ss[handled]
      ensures handled < |es| ==> !Possible(Value(), es[handled])
      ensures |delivered| <= 1 && (delivered != [] ==> !running && delivered[0].isFinal)
      ensures delivered != [] ==> delivered[0].content == Received(es[..handled], ss, handled)
      ensures running && Connects(request) ==> |io| == 1
      ensures running ==> timers == Timers(request)
      ensures delivered != [] ==> exists i: nat :: EndedAt(request, es[..handled], ss, handled, i)
      ensures Exhausted(Value()) ==> (|delivered| == 1 <==> !Mute(request))
    {
      RunSession();
      handled, ss := 0, [Value()];
      while handled < |es| && Possible(Value(), es[handled])
        invariant handled <= |es| && IsRun(request, es[..handled], ss) && Value() == ss[handled]
      {
        OnEvent(es[handled]);
        RunGrows(request, es, ss, handled, Value());
        ss := ss + [Value()];
        handled := handled + 1;
      }
      AtMostOneResponse(request, es[..handled], ss, handled);
      ContentIsReceived(request, es[..handled], ss, handled);
      TimerIsSet(request, es[..handled], ss, handled);
      if delivered != [] {
        ghost var i := ResponseGivesReason(request, es[..handled], ss, handled);
      }
      if Exhausted(Value()) {
        ExhaustedHasAnswered(request, es[..handled], ss, handled);
      }
    }
  }
}
