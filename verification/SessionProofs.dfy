/** Invariant of a StreamJobOutput call: the sent log against what the streams handed over. */
module SessionProofs {
  import opened Basics
  import opened JobData
  import opened JobSystem
  import opened JobCoreProofs
  import opened StreamProofs

  /** The messages of one stream in a log, in order. */
  function Project(log: seq<Message>, s: Stream): seq<Message> {
    if log == [] then []
    else
      var m := log[|log| - 1];
      Project(log[..|log| - 1], s) + if m.Output? && m.stream == s then [m] else []
  }

  lemma ProjectPush(log: seq<Message>, m: Message, s: Stream)
    ensures Project(log + [m], s) == Project(log, s) + if m.Output? && m.stream == s then [m] else []
  {
    assert (log + [m])[..|log|] == log;
  }

  /** `log` is some interleaving of `a` and `b`, each kept in its own order. */
  ghost predicate Interleaves(log: seq<Message>, a: seq<Message>, b: seq<Message>) {
    if log == [] then a == [] && b == []
    else
      var rest, m := log[..|log| - 1], log[|log| - 1];
      || (a != [] && a[|a| - 1] == m && Interleaves(rest, a[..|a| - 1], b))
      || (b != [] && b[|b| - 1] == m && Interleaves(rest, a, b[..|b| - 1]))
  }

  ghost predicate OnlyOutput(log: seq<Message>) { forall i :: 0 <= i < |log| ==> log[i].Output? }

  lemma InterleavesPush(log: seq<Message>, a: seq<Message>, b: seq<Message>, m: Message)
    requires Interleaves(log, a, b)
    ensures Interleaves(log + [m], a + [m], b) && Interleaves(log + [m], a, b + [m])
  {
    assert (log + [m])[..|log|] == log && (a + [m])[..|a|] == a && (b + [m])[..|b|] == b;
  }

  /** A log of output messages interleaves its two projections. */
  lemma {:induction false} ProjectionsInterleave(log: seq<Message>)
    requires OnlyOutput(log)
    ensures Interleaves(log, Project(log, Stdout), Project(log, Stderr))
  {
    if log != [] {
      var rest, m := log[..|log| - 1], log[|log| - 1];
      ProjectionsInterleave(rest);
      InterleavesPush(rest, Project(rest, Stdout), Project(rest, Stderr), m);
      ProjectPush(rest, m, Stdout);
      ProjectPush(rest, m, Stderr);
      assert rest + [m] == log;
      assert Project(rest, m.stream.Other()) + [] == Project(rest, m.stream.Other());
    }
  }

  ghost predicate Failed(h: Handler) { h.HandlerReturned? && h.result != HandlerOk }

  /** Everything sent so far, the message in hand included, the final exit code excluded. */
  function Body(z: Session): seq<Message> {
    if z.handler.Sending? then z.log + [z.handler.msg]
    else if z.handler == HandlerReturned(HandlerOk) && z.log != [] then z.log[..|z.log| - 1]
    else z.log
  }

  ghost predicate Forwarded(z: Session, s: Stream) {
    if Failed(z.handler) then Project(Body(z), s) <= z.streams.At(s).sent
    else Project(Body(z), s) == z.streams.At(s).sent
  }

  ghost predicate OpenInv(z: Session, s: Stream) {
    && (Started(z.limit, s) <==> !z.streams.At(s).pc.NotStarted?)
    && (z.open.At(s) ==> Started(z.limit, s))
    && (Started(z.limit, s) && !z.open.At(s) ==> z.streams.At(s).pc == Returned(StreamOk))
  }

  ghost predicate HandlerInv(j: JobState, z: Session) {
    match z.handler
    case Receiving => z.open.stdout || z.open.stderr
    case Sending(m) => (z.open.stdout || z.open.stderr) && m.Output?
    case Finishing => !z.open.stdout && !z.open.stderr
    case HandlerReturned(r) =>
      match r
      case HandlerOk =>
        && !z.open.stdout && !z.open.stderr
        && j.exitCode.Some? && z.log != [] && z.log[|z.log| - 1] == Completed(Int32(j.exitCode.value))
      case HandlerErr(e) => e == StreamCtxErr && z.ctxClosed
      case HandlerSendErr => true
      case HandlerPanic => false
  }

  ghost predicate FanInv(j: JobState, z: Session) {
    && OnlyOutput(Body(z))
    && Forwarded(z, Stdout) && Forwarded(z, Stderr)
    && OpenInv(z, Stdout) && OpenInv(z, Stderr)
    && HandlerInv(j, z)
  }

  ghost predicate StreamsInv(cfg: Config, k: Core, id: nat, z: Session, s: Stream) {
    StreamInv(cfg, k, ChanId(id, s), z.fromBeginning, z.ctxClosed, z.streams.At(s))
  }

  ghost predicate SessionInv(cfg: Config, k: Core, id: nat, z: Session) {
    StreamsInv(cfg, k, id, z, Stdout) && StreamsInv(cfg, k, id, z, Stderr) && FanInv(k.job, z)
  }

  lemma SessionStable(cfg: Config, k: Core, k': Core, id: nat, z: Session)
    requires SessionInv(cfg, k, id, z)
    requires Rely(k, k', ChanId(id, Stdout)) && Rely(k, k', ChanId(id, Stderr))
    ensures SessionInv(cfg, k', id, z)
  {
    StreamStable(cfg, k, k', ChanId(id, Stdout), z.fromBeginning, z.ctxClosed, z.ctxClosed, z.streams.stdout);
    StreamStable(cfg, k, k', ChanId(id, Stderr), z.fromBeginning, z.ctxClosed, z.ctxClosed, z.streams.stderr);
  }

  lemma NewSessionInv(cfg: Config, k: Core, id: nat, fb: bool, limit: Limit)
    requires forall c :: c in k.listeners ==> c.owner != id
    ensures SessionInv(cfg, k, id, NewSession(fb, limit))
  {
    var z := NewSession(fb, limit);
    assert ChanId(id, Stdout).owner == id && ChanId(id, Stderr).owner == id;
  }

  lemma StreamStepFan(cfg: Config, k: Core, c: ChanId, fb: bool, ctx: bool, x: Streamer, a: StreamAct,
                      k': Core, x': Streamer)
    requires StreamStep(cfg, k, c, fb, ctx, x, a) == Some((k', x'))
    ensures k'.job == k.job && x'.sent == x.sent
    ensures !x.pc.NotStarted? && !x'.pc.NotStarted? && !x.pc.Returned?
  {}

  /** A stream's own step, seen from the fan-in loop, changes nothing it has received. */
  lemma StreamDoFan(j: JobState, z: Session, s: Stream, x': Streamer)
    requires FanInv(j, z)
    requires x'.sent == z.streams.At(s).sent
    requires !z.streams.At(s).pc.NotStarted? && !x'.pc.NotStarted? && !z.streams.At(s).pc.Returned?
    ensures FanInv(j, z.(streams := z.streams.Set(s, x')))
  {
    var z' := z.(streams := z.streams.Set(s, x'));
    assert Body(z') == Body(z);
  }

  lemma StreamDoInv(cfg: Config, k: Core, id: nat, z: Session, s: Stream, a: StreamAct, k': Core, x': Streamer)
    requires CoreInv(cfg, k) && StreamsInv(cfg, k, id, z, s) && StreamsInv(cfg, k, id, z, s.Other())
    requires StreamStep(cfg, k, ChanId(id, s), z.fromBeginning, z.ctxClosed, z.streams.At(s), a) == Some((k', x'))
    ensures StreamInv(cfg, k', ChanId(id, s), z.fromBeginning, z.ctxClosed, x') && CoreInv(cfg, k')
    ensures StreamsInv(cfg, k', id, z, s.Other())
    ensures forall d :: d != ChanId(id, s) ==> Rely(k, k', d)
    ensures k'.listeners <= k.listeners + {ChanId(id, s)}
  {
    var o := s.Other();
    StreamStepInv(cfg, k, ChanId(id, s), z.fromBeginning, z.ctxClosed, z.streams.At(s), a, k', x');
    assert Rely(k, k', ChanId(id, o));
    StreamStable(cfg, k, k', ChanId(id, o), z.fromBeginning, z.ctxClosed, z.ctxClosed, z.streams.At(o));
  }

  lemma StreamDoSession(cfg: Config, k: Core, id: nat, z: Session, s: Stream, a: StreamAct, k': Core, x': Streamer)
    requires FanInv(k.job, z)
    requires StreamStep(cfg, k, ChanId(id, s), z.fromBeginning, z.ctxClosed, z.streams.At(s), a) == Some((k', x'))
    requires StreamInv(cfg, k', ChanId(id, s), z.fromBeginning, z.ctxClosed, x')
    requires StreamsInv(cfg, k', id, z, s.Other())
    ensures SessionInv(cfg, k', id, z.(streams := z.streams.Set(s, x')))
  {
    var z' := z.(streams := z.streams.Set(s, x'));
    StreamStepFan(cfg, k, ChanId(id, s), z.fromBeginning, z.ctxClosed, z.streams.At(s), a, k', x');
    StreamDoFan(k.job, z, s, x');
    assert z'.streams.At(s) == x' && z'.streams.At(s.Other()) == z.streams.At(s.Other());
    assert StreamsInv(cfg, k', id, z', s) && StreamsInv(cfg, k', id, z', s.Other());
  }

  lemma HandoverFan(j: JobState, z: Session, s: Stream, m: Message)
    requires FanInv(j, z) && z.handler.Receiving? && Offered(z.streams.At(s), s) == Some(m)
    ensures FanInv(j, z.(streams := z.streams.Set(s, HandedOver(z.streams.At(s), m)), handler := Sending(m)))
  {
    var x := z.streams.At(s);
    var z' := z.(streams := z.streams.Set(s, HandedOver(x, m)), handler := Sending(m));
    assert HandedOver(x, m).sent == x.sent + [m] && m.stream == s;
    ProjectPush(z.log, m, Stdout);
    ProjectPush(z.log, m, Stderr);
    assert Body(z') == Body(z) + [m];
    assert Forwarded(z', s) && Forwarded(z', s.Other());
  }

  lemma HandoverInv(cfg: Config, k: Core, id: nat, z: Session, s: Stream, m: Message)
    requires SessionInv(cfg, k, id, z)
    requires z.handler.Receiving? && Offered(z.streams.At(s), s) == Some(m)
    ensures
      var streams := z.streams.Set(s, HandedOver(z.streams.At(s), m));
      SessionInv(cfg, k, id, z.(streams := streams, handler := Sending(m)))
  {
    HandedOverInv(cfg, k, ChanId(id, s), z.fromBeginning, z.ctxClosed, z.streams.At(s), m);
    HandoverFan(k.job, z, s, m);
  }

  lemma SendDoneFan(cfg: Config, k: Core, id: nat, z: Session, ok: bool, z': Session)
    requires FanInv(k.job, z)
    requires SessionStep(cfg, k, id, z, SendDone(ok)) == Some((k, z'))
    ensures FanInv(k.job, z')
  {
    ProjectPush(z.log, z.handler.msg, Stdout);
    ProjectPush(z.log, z.handler.msg, Stderr);
    if !ok {
      assert forall i :: 0 <= i < |z.log| ==> Body(z)[i] == z.log[i];
    }
  }

  lemma CollectFan(cfg: Config, k: Core, id: nat, z: Session, s: Stream, z': Session)
    requires FanInv(k.job, z)
    requires SessionStep(cfg, k, id, z, Collect(s)) == Some((k, z'))
    requires z.streams.At(s).pc.result == StreamCtxErr ==> z.ctxClosed
    requires z.streams.At(s).pc.result != StreamOutOfBounds
    ensures FanInv(k.job, z')
  {
    assert Body(z') == Body(z);
    assert OpenInv(z', s) && OpenInv(z', s.Other());
  }

  lemma SendExitFan(cfg: Config, k: Core, id: nat, z: Session, ok: bool, z': Session)
    requires FanInv(k.job, z) && k.job.exitCode.Some?
    requires SessionStep(cfg, k, id, z, SendExit(ok)) == Some((k, z'))
    ensures FanInv(k.job, z')
  {
    assert Body(z') == Body(z);
  }

  /** When the fan-in loop ends, some stream has ended cleanly, so the exit code is set. */
  lemma FinishingHasExit(cfg: Config, k: Core, id: nat, z: Session)
    requires SessionInv(cfg, k, id, z) && z.handler.Finishing?
    ensures k.job.exitCode.Some?
  {
    var s := if Started(z.limit, Stdout) then Stdout else Stderr;
    assert z.streams.At(s).pc == Returned(StreamOk);
  }

  lemma CtxFan(cfg: Config, k: Core, id: nat, z: Session, a: SessionAct, z': Session)
    requires FanInv(k.job, z) && (a.CloseCtx? || a.HandlerCtx?)
    requires SessionStep(cfg, k, id, z, a) == Some((k, z'))
    ensures FanInv(k.job, z')
  {
    assert Body(z') == Body(z);
  }

  /** The handler's own steps touch neither the job nor the streams. */
  lemma HandlerStepFan(cfg: Config, k: Core, id: nat, z: Session, a: SessionAct, k': Core, z': Session)
    requires FanInv(k.job, z) && !a.StreamDo? && !a.Handover?
    requires SessionStep(cfg, k, id, z, a) == Some((k', z'))
    requires a.SendExit? ==> k.job.exitCode.Some?
    requires a.Collect? ==>
      var r := z.streams.At(a.stream).pc.result;
      r != StreamOutOfBounds && (r == StreamCtxErr ==> z.ctxClosed)
    ensures k' == k && z'.streams == z.streams && z'.fromBeginning == z.fromBeginning
    ensures z.ctxClosed ==> z'.ctxClosed
    ensures FanInv(k.job, z')
  {
    match a {
      case SendDone(ok) => SendDoneFan(cfg, k, id, z, ok, z');
      case Collect(s) => CollectFan(cfg, k, id, z, s, z');
      case SendExit(ok) => SendExitFan(cfg, k, id, z, ok, z');
      case _ => CtxFan(cfg, k, id, z, a, z');
    }
  }

  lemma ReturnedResult(cfg: Config, k: Core, id: nat, z: Session, s: Stream)
    requires StreamsInv(cfg, k, id, z, s) && z.streams.At(s).pc.Returned?
    ensures
      var r := z.streams.At(s).pc.result;
      r != StreamOutOfBounds && (r == StreamCtxErr ==> z.ctxClosed)
  {}

  lemma HandlerStepInv(cfg: Config, k: Core, id: nat, z: Session, a: SessionAct, k': Core, z': Session)
    requires SessionInv(cfg, k, id, z) && !a.StreamDo? && !a.Handover?
    requires SessionStep(cfg, k, id, z, a) == Some((k', z'))
    ensures k' == k && z'.streams == z.streams && z'.fromBeginning == z.fromBeginning
    ensures z.ctxClosed ==> z'.ctxClosed
    ensures FanInv(k.job, z')
  {
    if a.Collect? {
      assert StreamsInv(cfg, k, id, z, a.stream);
      ReturnedResult(cfg, k, id, z, a.stream);
    } else if a.SendExit? {
      FinishingHasExit(cfg, k, id, z);
    }
    HandlerStepFan(cfg, k, id, z, a, k', z');
  }

  lemma HandlerStepStreams(cfg: Config, k: Core, id: nat, z: Session, s: Stream, z': Session)
    requires StreamsInv(cfg, k, id, z, s)
    requires z'.streams == z.streams && z'.fromBeginning == z.fromBeginning && (z.ctxClosed ==> z'.ctxClosed)
    ensures StreamsInv(cfg, k, id, z', s)
  {
    StreamStable(cfg, k, k, ChanId(id, s), z.fromBeginning, z.ctxClosed, z'.ctxClosed, z.streams.At(s));
  }

  lemma StreamDoShape(cfg: Config, k: Core, id: nat, z: Session, s: Stream, a: StreamAct, k': Core, z': Session)
    requires SessionStep(cfg, k, id, z, StreamDo(s, a)) == Some((k', z'))
    ensures
      var x' := z'.streams.At(s);
      && StreamStep(cfg, k, ChanId(id, s), z.fromBeginning, z.ctxClosed, z.streams.At(s), a) == Some((k', x'))
      && z' == z.(streams := z.streams.Set(s, x'))
  {}

  lemma StreamDoStepInv(cfg: Config, k: Core, id: nat, z: Session, s: Stream, a: StreamAct, k': Core, z': Session)
    requires CoreInv(cfg, k) && SessionInv(cfg, k, id, z)
    requires SessionStep(cfg, k, id, z, StreamDo(s, a)) == Some((k', z'))
    ensures SessionInv(cfg, k', id, z') && CoreInv(cfg, k')
    ensures forall d :: d != ChanId(id, s) ==> Rely(k, k', d)
    ensures k'.listeners <= k.listeners + {ChanId(id, s)}
  {
    var x' := z'.streams.At(s);
    StreamDoShape(cfg, k, id, z, s, a, k', z');
    assert StreamsInv(cfg, k, id, z, s) && StreamsInv(cfg, k, id, z, s.Other());
    StreamDoInv(cfg, k, id, z, s, a, k', x');
    StreamDoSession(cfg, k, id, z, s, a, k', x');
  }

  /** Steps of the handler alone, and the hand-over, leave the job untouched. */
  lemma HandlerDoInv(cfg: Config, k: Core, id: nat, z: Session, a: SessionAct, k': Core, z': Session)
    requires SessionInv(cfg, k, id, z) && !a.StreamDo?
    requires SessionStep(cfg, k, id, z, a) == Some((k', z'))
    ensures k' == k && SessionInv(cfg, k, id, z')
  {
    if a.Handover? {
      HandoverInv(cfg, k, id, z, a.stream, z'.handler.msg);
    } else {
      HandlerStepInv(cfg, k, id, z, a, k', z');
      HandlerStepStreams(cfg, k, id, z, Stdout, z');
      HandlerStepStreams(cfg, k, id, z, Stderr, z');
    }
  }
}
