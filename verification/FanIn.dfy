/** The fan-in loop of StreamJobOutput as imperative code: what its goroutine does with the
    messages and results that reach it. */
module FanIn {
  import opened Basics
  import opened JobSystem

  /** A ready case of the loop's select: a message from a stream and whether it can be sent on,
      the result of a stream, or the closed context. */
  datatype Event = Response(msg: Message, ok: bool) | Result(stream: Stream, result: StreamResult) | CtxClosed

  /** What the goroutine owns of a call: its error channels, its position and what it sent. */
  datatype Fan = Fan(open: Both<bool>, handler: Handler, log: seq<Message>)

  function FanOf(z: Session): Fan { Fan(z.open, z.handler, z.log) }

  function NextPass(f: Fan): Fan {
    if f.open.stdout || f.open.stderr then f.(handler := Receiving) else f.(handler := Finishing)
  }

  /** One pass of the loop; a result on a nil channel is never received. */
  function Taken(f: Fan, e: Event): Fan {
    if !f.handler.Receiving? then f
    else
      match e
      case Response(m, ok) =>
        if ok then NextPass(f.(log := f.log + [m])) else f.(handler := HandlerReturned(HandlerSendErr))
      case Result(s, r) =>
        if !f.open.At(s) then f
        else if r.StreamOk? then NextPass(f.(open := f.open.Set(s, false)))
        else f.(handler := HandlerReturned(HandlerErr(r)))
      case CtxClosed => f.(handler := HandlerReturned(HandlerErr(StreamCtxErr)))
  }

  /** The final send of the exit code, from the job's field as it is then. */
  function Exited(f: Fan, code: Option<int>, ok: bool): Fan {
    match code
    case None => f.(handler := HandlerReturned(HandlerPanic))
    case Some(c) =>
      if ok then f.(log := f.log + [Completed(Int32(c))], handler := HandlerReturned(HandlerOk))
      else f.(handler := HandlerReturned(HandlerSendErr))
  }

  /** A result is received only from a channel that is not nil. */
  predicate Ready(f: Fan, e: Event) { f.handler.Receiving? && (e.Result? ==> f.open.At(e.stream)) }

  function TakenAll(f: Fan, events: seq<Event>): Fan
    decreases |events|
  {
    if events == [] then f else TakenAll(Taken(f, events[0]), events[1..])
  }

  /** The events received before the loop ends. */
  function Received(f: Fan, events: seq<Event>): seq<Event>
    decreases |events|
  {
    if events == [] then []
    else (if Ready(f, events[0]) then [events[0]] else []) + Received(Taken(f, events[0]), events[1..])
  }

  /** The messages among the events, in order. */
  function Messages(events: seq<Event>): seq<Message> {
    if events == [] then []
    else Messages(events[..|events| - 1]) + if events[|events| - 1].Response? then [events[|events| - 1].msg] else []
  }

  /** Nothing that makes the loop return: every send works, every result is nil. */
  ghost predicate Smooth(events: seq<Event>) {
    forall i :: 0 <= i < |events| ==>
      match events[i]
      case Response(_, ok) => ok
      case Result(_, r) => r == StreamOk
      case CtxClosed => false
  }

  /** The stream's nil result is among the events. */
  ghost predicate Ended(events: seq<Event>, s: Stream) { Result(s, StreamOk) in events }

  /** The call goes on after these events: all their messages were sent, in order, and an error
      channel is nil exactly if its stream was not started or has returned nil. */
  ghost predicate Forwards(limit: Limit, events: seq<Event>, f: Fan) {
    && Smooth(events) && f.log == Messages(events)
    && (forall s: Stream :: f.open.At(s) <==> Started(limit, s) && !Ended(events, s))
    && f.handler == (if f.open.stdout || f.open.stderr then Receiving else Finishing)
  }

  lemma ReadyForwards(limit: Limit, seen: seq<Event>, f: Fan, e: Event)
    requires Forwards(limit, seen, f) && Ready(f, e) && !Taken(f, e).handler.HandlerReturned?
    ensures Forwards(limit, seen + [e], Taken(f, e))
  {
    var more, g := seen + [e], Taken(f, e);
    assert more[..|seen|] == seen && more[|seen|] == e;
    forall s: Stream
      ensures g.open.At(s) <==> Started(limit, s) && !Ended(more, s)
    {
      assert f.open.At(s) <==> Started(limit, s) && !Ended(seen, s);
      assert Ended(more, s) <==> Ended(seen, s) || e == Result(s, StreamOk);
    }
  }

  lemma {:induction false} ReturnedStays(f: Fan, events: seq<Event>)
    requires !f.handler.Receiving?
    ensures TakenAll(f, events) == f && Received(f, events) == []
    decreases |events|
  {
    if events != [] {
      ReturnedStays(f, events[1..]);
    }
  }

  lemma {:induction false} AllForwards(limit: Limit, seen: seq<Event>, f: Fan, events: seq<Event>)
    requires Forwards(limit, seen, f) && !TakenAll(f, events).handler.HandlerReturned?
    ensures Forwards(limit, seen + Received(f, events), TakenAll(f, events))
    decreases |events|
  {
    if events == [] {
      assert seen + [] == seen;
    } else {
      var e, g := events[0], Taken(f, events[0]);
      if g.handler.HandlerReturned? {
        ReturnedStays(g, events[1..]);
      } else if Ready(f, e) {
        ReadyForwards(limit, seen, f, e);
        AllForwards(limit, seen + [e], g, events[1..]);
        assert seen + [e] + Received(g, events[1..]) == seen + Received(f, events);
      } else {
        AllForwards(limit, seen, g, events[1..]);
        assert seen + Received(g, events[1..]) == seen + Received(f, events);
      }
    }
  }

  /** The loop itself never returns cleanly. */
  lemma {:induction false} NotOkYet(f: Fan, events: seq<Event>)
    requires f.handler != HandlerReturned(HandlerOk)
    ensures TakenAll(f, events).handler != HandlerReturned(HandlerOk)
    decreases |events|
  {
    if events != [] {
      NotOkYet(Taken(f, events[0]), events[1..]);
    }
  }

  lemma MessagesPush(events: seq<Event>, e: Event)
    ensures Messages(events + [e]) == Messages(events) + if e.Response? then [e.msg] else []
  {
    assert (events + [e])[..|events|] == events;
  }

  /** However the loop goes, it has sent no more than it received, in order. */
  lemma {:induction false} SendsReceived(f: Fan, seen: seq<Event>, events: seq<Event>)
    requires f.log <= Messages(seen) && (f.handler.Receiving? ==> f.log == Messages(seen))
    ensures TakenAll(f, events).log <= Messages(seen + Received(f, events))
    decreases |events|
  {
    if events == [] {
      assert seen + [] == seen;
    } else if f.handler.Receiving? {
      var e, g := events[0], Taken(f, events[0]);
      var more := if Ready(f, e) then seen + [e] else seen;
      MessagesPush(seen, e);
      SendsReceived(g, more, events[1..]);
      assert more + Received(g, events[1..]) == seen + Received(f, events);
    } else {
      ReturnedStays(f, events);
      assert seen + [] == seen;
    }
  }

  /** The goroutine when its streams have been started. */
  function Start(limit: Limit): Fan {
    Fan(Both(Started(limit, Stdout), Started(limit, Stderr)), Receiving, [])
  }

  lemma StartForwards(limit: Limit)
    ensures Forwards(limit, [], Start(limit))
  {}

  lemma ClosedEnded(limit: Limit, events: seq<Event>, f: Fan)
    requires Forwards(limit, events, f) && f.handler.Finishing?
    ensures forall s: Stream :: Started(limit, s) ==> Ended(events, s)
  {
    forall s: Stream | Started(limit, s)
      ensures Ended(events, s)
    {
      assert f.open.At(s) <==> Started(limit, s) && !Ended(events, s);
    }
  }

  /** The loop over its two channels, which become nil one by one. It does what the goroutine's
      steps in the job system do. */
  method Loop(limit: Limit, events: seq<Event>)
    returns (stdoutErrCh: bool, stderrErrCh: bool, handler: Handler, log: seq<Message>)
    ensures Fan(Both(stdoutErrCh, stderrErrCh), handler, log) == TakenAll(Start(limit), events)
  {
    stdoutErrCh, stderrErrCh := limit != OnlyStderr, limit != OnlyStdout;
    handler, log := Receiving, [];
    var i := 0;
    while (stdoutErrCh || stderrErrCh) && handler.Receiving? && i < |events|
      invariant i <= |events|
      invariant handler.Receiving? || handler.HandlerReturned?
      invariant
        var f := Fan(Both(stdoutErrCh, stderrErrCh), handler, log);
        TakenAll(if handler.Receiving? then NextPass(f) else f, events[i..]) == TakenAll(Start(limit), events)
    {
      assert events[i..][1..] == events[i + 1..];
      match events[i] {
        case CtxClosed =>
          handler := HandlerReturned(HandlerErr(StreamCtxErr));
        case Response(m, ok) =>
          if ok { log := log + [m]; } else { handler := HandlerReturned(HandlerSendErr); }
        case Result(s, r) =>
          if s == Stdout && stdoutErrCh {
            if r.StreamOk? { stdoutErrCh := false; } else { handler := HandlerReturned(HandlerErr(r)); }
          } else if s == Stderr && stderrErrCh {
            if r.StreamOk? { stderrErrCh := false; } else { handler := HandlerReturned(HandlerErr(r)); }
          }
      }
      i := i + 1;
    }
    if handler.Receiving? && !stdoutErrCh && !stderrErrCh {
      handler := Finishing;
    }
    if !handler.Receiving? {
      ReturnedStays(Fan(Both(stdoutErrCh, stderrErrCh), handler, log), events[i..]);
    }
  }

  /** The clean return: every send worked, all started streams returned nil, and the log is the
      messages received, in order, and then the exit code. */
  ghost predicate CleanLog(limit: Limit, received: seq<Event>, code: Option<int>, log: seq<Message>) {
    && Smooth(received) && code.Some? && log == Messages(received) + [Completed(Int32(code.value))]
    && (forall s: Stream :: Started(limit, s) ==> Ended(received, s))
  }

  /** The loop and the final send, over any events. A call that has not returned has sent all
      messages received so far, one returns cleanly only with a complete log, and one that fails
      has sent some of what it received, in order. */
  method StreamJobOutput(limit: Limit, events: seq<Event>, code: Option<int>, exitOk: bool)
    returns (handler: Handler, log: seq<Message>)
    ensures
      var f := TakenAll(Start(limit), events);
      var g := if f.handler.Finishing? then Exited(f, code, exitOk) else f;
      handler == g.handler && log == g.log
    ensures !handler.HandlerReturned? ==> handler.Receiving? && log == Messages(Received(Start(limit), events))
    ensures handler == HandlerReturned(HandlerOk) ==> CleanLog(limit, Received(Start(limit), events), code, log)
    ensures handler != HandlerReturned(HandlerOk) ==> log <= Messages(Received(Start(limit), events))
  {
    var stdoutErrCh, stderrErrCh;
    stdoutErrCh, stderrErrCh, handler, log := Loop(limit, events);
    ghost var f := TakenAll(Start(limit), events);
    SendsReceived(Start(limit), [], events);
    assert [] + Received(Start(limit), events) == Received(Start(limit), events);
    if !handler.HandlerReturned? {
      StartForwards(limit);
      AllForwards(limit, [], Start(limit), events);
    }
    if handler.Finishing? {
      ClosedEnded(limit, Received(Start(limit), events), f);
      match code {
        case None => handler := HandlerReturned(HandlerPanic);
        case Some(c) =>
          if exitOk { log := log + [Completed(Int32(c))]; }
          handler := HandlerReturned(if exitOk then HandlerOk else HandlerSendErr);
      }
    } else {
      NotOkYet(Start(limit), events);
    }
  }
}
