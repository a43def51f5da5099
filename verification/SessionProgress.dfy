/** Streaming calls get on: while the lock is free, a call whose context stays open takes steps
    of its own until it has sent everything there is, and every step uses up a bounded amount
    of work. If the job has its exit code, the call ends by sending it. */
module SessionProgress {
  import opened Basics
  import opened JobData
  import opened JobSystem
  import opened JobCoreProofs
  import opened StreamProofs
  import opened SessionProofs
  import opened SystemProofs

  function Queued(k: Core, c: ChanId): nat { if c in k.chans then |k.chans[c].buf| else 0 }

  function PcWork(pc: StreamPc): nat {
    match pc
    case NotStarted => 0
    case Eager => 8
    case PastSend(_) => 7
    case Past => 6
    case Register => 5
    case DrainSend(_, final) => if final then 2 else 4
    case Drain => 3
    case Park => 2
    case Unregister(_) => 1
    case Returned(_) => 0
  }

  /** Work left to a stream: unread bytes, queued updates, and the rest of its current round. */
  function StreamWork(k: Core, c: ChanId, x: Streamer): nat {
    var o := |k.job.output.At(c.stream)|;
    PcWork(x.pc) + 4 * Queued(k, c) + 4 * (if x.cursor <= o then o - x.cursor else 0)
  }

  function OpenCount(z: Session): nat { (if z.open.stdout then 1 else 0) + (if z.open.stderr then 1 else 0) }

  function HandlerWork(z: Session): nat {
    match z.handler
    case Receiving => 3 * OpenCount(z) + 1
    case Sending(_) => 3 * OpenCount(z) + 2
    case Finishing => 1
    case HandlerReturned(_) => 0
  }

  function SessionWork(k: Core, id: nat, z: Session): nat {
    2 * StreamWork(k, ChanId(id, Stdout), z.streams.stdout)
    + 2 * StreamWork(k, ChanId(id, Stderr), z.streams.stderr) + HandlerWork(z)
  }

  /** Steps other than a context closing, a context being noticed, or a failed send. */
  ghost predicate Undisturbed(a: SessionAct) {
    match a
    case StreamDo(_, b) => !b.CtxDone?
    case SendDone(ok) => ok
    case SendExit(ok) => ok
    case HandlerCtx => false
    case CloseCtx => false
    case _ => true
  }

  // ---------------------------------------------------------------- every step uses up work

  lemma DrainReadWork(cfg: Config, k: Core, c: ChanId, fb: bool, ctx: bool, x: Streamer, k': Core, x': Streamer)
    requires StreamStep(cfg, k, c, fb, ctx, x, ReadDrain) == Some((k', x'))
    requires x.cursor <= |k.job.output.At(c.stream)|
    ensures k' == k && StreamWork(k, c, x') < StreamWork(k, c, x)
  {}

  lemma PastReadWork(cfg: Config, k: Core, c: ChanId, fb: bool, ctx: bool, x: Streamer, k': Core, x': Streamer)
    requires StreamInv(cfg, k, c, fb, ctx, x)
    requires StreamStep(cfg, k, c, fb, ctx, x, ReadPast) == Some((k', x'))
    ensures k' == k && StreamWork(k, c, x') < StreamWork(k, c, x)
  {
    PastReadFills(cfg, k, c, fb, ctx, x);
  }

  lemma StreamStepWork(cfg: Config, k: Core, c: ChanId, fb: bool, ctx: bool, x: Streamer, a: StreamAct,
                       k': Core, x': Streamer)
    requires StreamInv(cfg, k, c, fb, ctx, x)
    requires StreamStep(cfg, k, c, fb, ctx, x, a) == Some((k', x')) && !a.CtxDone?
    ensures StreamWork(k', c, x') < StreamWork(k, c, x)
    ensures k'.job == k.job && forall d :: d != c ==> Queued(k', d) == Queued(k, d)
  {
    if a.ReadPast? {
      PastReadWork(cfg, k, c, fb, ctx, x, k', x');
    } else if a.ReadDrain? {
      DrainReadWork(cfg, k, c, fb, ctx, x, k', x');
    }
  }

  lemma HandoverWork(cfg: Config, k: Core, c: ChanId, fb: bool, ctx: bool, x: Streamer, m: Message)
    requires StreamInv(cfg, k, c, fb, ctx, x) && Offered(x, c.stream) == Some(m)
    ensures StreamWork(k, c, HandedOver(x, m)) < StreamWork(k, c, x)
  {}

  /** Work falls when one stream's does and all else is as before. */
  lemma OneStreamWork(k: Core, id: nat, z: Session, s: Stream, k': Core, z': Session)
    requires z'.open == z.open && z'.handler == z.handler
    requires StreamWork(k', ChanId(id, s), z'.streams.At(s)) < StreamWork(k, ChanId(id, s), z.streams.At(s))
    requires StreamWork(k', ChanId(id, s.Other()), z'.streams.At(s.Other()))
          == StreamWork(k, ChanId(id, s.Other()), z.streams.At(s.Other()))
    ensures SessionWork(k', id, z') < SessionWork(k, id, z)
  {}

  lemma StreamDoWork(cfg: Config, k: Core, id: nat, z: Session, s: Stream, b: StreamAct, k': Core, z': Session)
    requires StreamsInv(cfg, k, id, z, s) && !b.CtxDone?
    requires SessionStep(cfg, k, id, z, StreamDo(s, b)) == Some((k', z'))
    ensures SessionWork(k', id, z') < SessionWork(k, id, z)
  {
    StreamDoShape(cfg, k, id, z, s, b, k', z');
    StreamStepWork(cfg, k, ChanId(id, s), z.fromBeginning, z.ctxClosed, z.streams.At(s), b, k', z'.streams.At(s));
    assert Queued(k', ChanId(id, s.Other())) == Queued(k, ChanId(id, s.Other()));
    OneStreamWork(k, id, z, s, k', z');
  }

  lemma HandoverSessionWork(cfg: Config, k: Core, id: nat, z: Session, s: Stream, k': Core, z': Session)
    requires StreamsInv(cfg, k, id, z, s)
    requires SessionStep(cfg, k, id, z, Handover(s)) == Some((k', z'))
    ensures SessionWork(k', id, z') < SessionWork(k, id, z)
  {
    HandoverWork(cfg, k, ChanId(id, s), z.fromBeginning, z.ctxClosed, z.streams.At(s), z'.handler.msg);
  }

  lemma HandlerStepWork(cfg: Config, k: Core, id: nat, z: Session, a: SessionAct, k': Core, z': Session)
    requires Undisturbed(a) && !a.StreamDo? && !a.Handover?
    requires SessionStep(cfg, k, id, z, a) == Some((k', z'))
    ensures SessionWork(k', id, z') < SessionWork(k, id, z)
  {}

  /** Every undisturbed step of a call lowers its work: what is left to read, queued or sent. */
  lemma SessionStepWork(cfg: Config, k: Core, id: nat, z: Session, a: SessionAct, k': Core, z': Session)
    requires StreamsInv(cfg, k, id, z, Stdout) && StreamsInv(cfg, k, id, z, Stderr)
    requires Undisturbed(a)
    requires SessionStep(cfg, k, id, z, a) == Some((k', z'))
    ensures SessionWork(k', id, z') < SessionWork(k, id, z)
  {
    if a.StreamDo? {
      StreamDoWork(cfg, k, id, z, a.stream, a.act, k', z');
    } else if a.Handover? {
      HandoverSessionWork(cfg, k, id, z, a.stream, k', z');
    } else {
      HandlerStepWork(cfg, k, id, z, a, k', z');
    }
  }

  // ---------------------------------------------------------------- some step is enabled

  /** A stream that waits for an update, with none in its channel. */
  ghost predicate StreamIdle(k: Core, c: ChanId, x: Streamer) { x.pc.Park? && Queued(k, c) == 0 }

  /** The call is at its select and every stream it still has waits. */
  ghost predicate Resting(k: Core, id: nat, z: Session) {
    && z.handler.Receiving?
    && (z.open.stdout ==> StreamIdle(k, ChanId(id, Stdout), z.streams.stdout))
    && (z.open.stderr ==> StreamIdle(k, ChanId(id, Stderr), z.streams.stderr))
  }

  /** A stream that has not returned and does not wait can act or has a message to hand over. */
  lemma StreamEnabled(cfg: Config, k: Core, c: ChanId, fb: bool, ctx: bool, x: Streamer) returns (a: StreamAct)
    requires k.lock.Unlocked? && StreamInv(cfg, k, c, fb, ctx, x) && !StreamIdle(k, c, x)
    requires !x.pc.NotStarted? && !x.pc.Returned? && Offered(x, c.stream).None?
    ensures !a.CtxDone? && StreamStep(cfg, k, c, fb, ctx, x, a).Some?
  {
    match x.pc {
      case Eager => a := ReadEager;
      case Past => a := ReadPast;
      case Register => a := AddListener;
      case Drain => a := ReadDrain;
      case Park => a := Receive;
      case Unregister(_) => a := RemoveListener;
    }
  }

  lemma ReceivingEnabled(cfg: Config, k: Core, id: nat, z: Session, s: Stream) returns (a: SessionAct)
    requires k.lock.Unlocked? && StreamsInv(cfg, k, id, z, s)
    requires !StreamIdle(k, ChanId(id, s), z.streams.At(s))
    requires z.handler.Receiving? && z.open.At(s) && !z.streams.At(s).pc.NotStarted?
    ensures Undisturbed(a) && SessionStep(cfg, k, id, z, a).Some?
  {
    var x := z.streams.At(s);
    if x.pc.Returned? {
      a := Collect(s);
    } else if Offered(x, s).Some? {
      a := Handover(s);
    } else {
      var b := StreamEnabled(cfg, k, ChanId(id, s), z.fromBeginning, z.ctxClosed, x);
      a := StreamDo(s, b);
    }
  }

  /** While the lock is free, a call that has not returned and does not rest always has an
      undisturbed step. */
  lemma SessionEnabled(cfg: Config, k: Core, id: nat, z: Session) returns (a: SessionAct)
    requires k.lock.Unlocked? && FanInv(k.job, z)
    requires StreamsInv(cfg, k, id, z, Stdout) && StreamsInv(cfg, k, id, z, Stderr)
    requires !z.handler.HandlerReturned? && !Resting(k, id, z)
    ensures Undisturbed(a) && SessionStep(cfg, k, id, z, a).Some?
  {
    assert OpenInv(z, Stdout) && OpenInv(z, Stderr);
    if z.handler.Sending? {
      a := SendDone(true);
    } else if z.handler.Finishing? {
      a := SendExit(true);
    } else if z.open.stdout && !StreamIdle(k, ChanId(id, Stdout), z.streams.stdout) {
      a := ReceivingEnabled(cfg, k, id, z, Stdout);
    } else {
      a := ReceivingEnabled(cfg, k, id, z, Stderr);
    }
  }

  // ---------------------------------------------------------------- what resting means

  /** All output of a stream the call was asked for has been sent, and the stream waits. */
  ghost predicate StreamSent(j: JobState, z: Session, st: Stream) {
    var x, o := z.streams.At(st), j.output.At(st);
    && z.open.At(st) && x.pc.Park? && x.cursor == |o| && From(x, z.fromBeginning) <= |o|
    && Bytes(Project(z.log, st)) == o[From(x, z.fromBeginning)..]
  }

  /** The call is at its select, there is no exit code, and all there is has been sent. */
  ghost predicate AllSent(j: JobState, z: Session) {
    && z.handler.Receiving? && j.exitCode.None?
    && forall st: Stream :: Started(z.limit, st) ==> StreamSent(j, z, st)
  }

  /** No lost wake-up, seen from the stream: one that waits with the lock free and its channel
      empty has read everything, and there is no exit code. */
  lemma IdleIsCaughtUp(cfg: Config, k: Core, c: ChanId, fb: bool, ctx: bool, x: Streamer)
    requires CoreInv(cfg, k) && k.lock.Unlocked? && StreamInv(cfg, k, c, fb, ctx, x) && StreamIdle(k, c, x)
    ensures x.cursor == |k.job.output.At(c.stream)| && k.job.exitCode.None?
    ensures
      var o := k.job.output.At(c.stream);
      From(x, fb) <= |o| && Bytes(x.sent) == o[From(x, fb)..]
  {
    var o := k.job.output.At(c.stream);
    assert !Wake(k, c);
    assert Bytes(x.sent) + [] == o[From(x, fb)..x.cursor];
    assert o[From(x, fb)..|o|] == o[From(x, fb)..];
  }

  lemma RestingStreamSent(cfg: Config, k: Core, id: nat, z: Session, st: Stream)
    requires CoreInv(cfg, k) && k.lock.Unlocked? && FanInv(k.job, z) && StreamsInv(cfg, k, id, z, st)
    requires Resting(k, id, z) && z.open.At(st)
    ensures k.job.exitCode.None? && StreamSent(k.job, z, st)
  {
    assert StreamIdle(k, ChanId(id, st), z.streams.At(st));
    IdleIsCaughtUp(cfg, k, ChanId(id, st), z.fromBeginning, z.ctxClosed, z.streams.At(st));
    assert Forwarded(z, st) && Body(z) == z.log;
  }

  /** A stream that was asked for and has ended would have seen the exit code. */
  lemma StartedIsOpen(cfg: Config, k: Core, id: nat, z: Session, st: Stream)
    requires OpenInv(z, st) && StreamsInv(cfg, k, id, z, st) && Started(z.limit, st) && k.job.exitCode.None?
    ensures z.open.At(st)
  {
    assert z.streams.At(st).pc == Returned(StreamOk) ==> EndedAt(cfg, k.job, st, z.streams.At(st));
  }

  lemma RestingIsAllSent(cfg: Config, k: Core, id: nat, z: Session)
    requires CoreInv(cfg, k) && k.lock.Unlocked? && FanInv(k.job, z) && Resting(k, id, z)
    requires StreamsInv(cfg, k, id, z, Stdout) && StreamsInv(cfg, k, id, z, Stderr)
    ensures AllSent(k.job, z)
  {
    assert OpenInv(z, Stdout) && OpenInv(z, Stderr) && (z.open.stdout || z.open.stderr);
    if z.open.stdout {
      RestingStreamSent(cfg, k, id, z, Stdout);
    }
    if z.open.stderr {
      RestingStreamSent(cfg, k, id, z, Stderr);
    }
    if Started(z.limit, Stdout) {
      StartedIsOpen(cfg, k, id, z, Stdout);
    }
    if Started(z.limit, Stderr) {
      StartedIsOpen(cfg, k, id, z, Stderr);
    }
  }

  // ---------------------------------------------------------------- the call catches up

  /** A handler that a step of its own has not made fail to send. */
  ghost predicate NoSendFailed(h: Handler, h': Handler) {
    h'.HandlerReturned? ==> h' == h || h'.result != HandlerSendErr
  }

  lemma UndisturbedKeeps(cfg: Config, k: Core, id: nat, z: Session, a: SessionAct, k': Core, z': Session)
    requires SessionStep(cfg, k, id, z, a) == Some((k', z')) && Undisturbed(a)
    ensures ClientWrites(k, k') && z'.ctxClosed == z.ctxClosed
    ensures NoSendFailed(z.handler, z'.handler)
  {
    SessionWrites(cfg, k, id, z, a, k', z');
    if a.StreamDo? {
      StreamDoShape(cfg, k, id, z, a.stream, a.act, k', z');
    }
  }

  lemma StepLifts(cfg: Config, s: State, id: nat, a: SessionAct, k': Core, z': Session)
    requires id in s.clients && s.clients[id].Streams?
    requires SessionStep(cfg, s.core, id, s.clients[id].session, a) == Some((k', z'))
    ensures Step(cfg, s, SessionDo(id, a)) == Some(State(k', s.clients[id := Streams(z')]))
  {}

  lemma PartsOf(cfg: Config, s: State, id: nat)
    requires Inv(cfg, s) && id in s.clients && s.clients[id].Streams?
    ensures
      var z := s.clients[id].session;
      && CoreInv(cfg, s.core) && FanInv(s.core.job, z)
      && StreamsInv(cfg, s.core, id, z, Stdout) && StreamsInv(cfg, s.core, id, z, Stderr)
  {
    assert ClientInv(cfg, s.core, id, s.clients[id]);
  }

  /** An unreturned or cleanly returned call whose context is open. */
  ghost predicate Undecided(s: State, id: nat) {
    && id in s.clients && s.clients[id].Streams? && !s.clients[id].session.ctxClosed
    && (s.clients[id].session.handler.HandlerReturned? ==> s.clients[id].session.handler.result == HandlerOk)
  }

  lemma HandlerResultOf(j: JobState, z: Session)
    requires FanInv(j, z) && !z.ctxClosed
    requires z.handler.HandlerReturned? && z.handler.result != HandlerSendErr
    ensures z.handler.result == HandlerOk
  {}

  /** One undisturbed step: it leaves the job and the lock alone, keeps the call undecided and
      lowers its work. */
  lemma CallAdvances(cfg: Config, s: State, id: nat) returns (a: SessionAct, u: State)
    requires Inv(cfg, s) && s.core.lock.Unlocked? && Undecided(s, id)
    requires
      var z := s.clients[id].session;
      !z.handler.HandlerReturned? && !Resting(s.core, id, z)
    ensures Undisturbed(a) && Step(cfg, s, SessionDo(id, a)) == Some(u)
    ensures Inv(cfg, u) && u.core.lock.Unlocked? && u.core.job == s.core.job && Undecided(u, id)
    ensures SessionWork(u.core, id, u.clients[id].session) < SessionWork(s.core, id, s.clients[id].session)
  {
    var z := s.clients[id].session;
    PartsOf(cfg, s, id);
    a := SessionEnabled(cfg, s.core, id, z);
    var (k', z') := SessionStep(cfg, s.core, id, z, a).value;
    SessionStepWork(cfg, s.core, id, z, a, k', z');
    UndisturbedKeeps(cfg, s.core, id, z, a, k', z');
    StepLifts(cfg, s, id, a, k', z');
    u := State(k', s.clients[id := Streams(z')]);
    StepInv(cfg, s, SessionDo(id, a), u);
    PartsOf(cfg, u, id);
    if z'.handler.HandlerReturned? {
      HandlerResultOf(k'.job, z');
    }
  }

  ghost predicate OwnStep(a: Act, id: nat) { a.SessionDo? && a.id == id && Undisturbed(a.session) }

  /** The call has returned cleanly, its last message being the job's exit code. */
  ghost predicate ReturnedWith(t: State, id: nat, code: int) {
    && id in t.clients && t.clients[id].Streams?
    && var z := t.clients[id].session;
      && z.handler == HandlerReturned(HandlerOk)
      && z.log != [] && z.log[|z.log| - 1] == Completed(Int32(code))
  }

  /** Where the steps of a call lead: to its clean return if the job has its exit code, and
      otherwise to its select with everything sent. */
  ghost predicate CaughtUp(t: State, id: nat) {
    && id in t.clients && t.clients[id].Streams?
    && match t.core.job.exitCode
       case Some(code) => ReturnedWith(t, id, code)
       case None => AllSent(t.core.job, t.clients[id].session)
  }

  lemma CaughtUpAt(cfg: Config, s: State, id: nat)
    requires Inv(cfg, s) && s.core.lock.Unlocked? && Undecided(s, id)
    requires
      var z := s.clients[id].session;
      z.handler.HandlerReturned? || Resting(s.core, id, z)
    ensures CaughtUp(s, id)
  {
    PartsOf(cfg, s, id);
    if !s.clients[id].session.handler.HandlerReturned? {
      RestingIsAllSent(cfg, s.core, id, s.clients[id].session);
    }
  }

  ghost predicate OwnSteps(acts: seq<Act>, id: nat) { forall i :: 0 <= i < |acts| ==> OwnStep(acts[i], id) }

  lemma Prepend(cfg: Config, s: State, id: nat, a: SessionAct, u: State, rest: seq<Act>, t: State)
    returns (acts: seq<Act>)
    requires Step(cfg, s, SessionDo(id, a)) == Some(u) && Undisturbed(a)
    requires Run(cfg, u, rest) == Some(t) && OwnSteps(rest, id)
    ensures Run(cfg, s, acts) == Some(t) && OwnSteps(acts, id) && |acts| == |rest| + 1
  {
    acts := [SessionDo(id, a)] + rest;
    RunCons(cfg, s, SessionDo(id, a), u, rest, t);
  }

  /** From any state of the invariant in which the lock is free, a call with an open context and
      unfailing sends catches up by its own steps alone, at most as many as its work: with the
      job as it is, it returns cleanly, or comes to rest with all output there is sent. */
  lemma {:induction false} CatchUp(cfg: Config, s: State, id: nat) returns (acts: seq<Act>, t: State)
    requires Inv(cfg, s) && s.core.lock.Unlocked? && Undecided(s, id)
    ensures Run(cfg, s, acts) == Some(t) && OwnSteps(acts, id)
    ensures |acts| <= SessionWork(s.core, id, s.clients[id].session)
    ensures t.core.job == s.core.job && CaughtUp(t, id)
    decreases SessionWork(s.core, id, s.clients[id].session)
  {
    var z := s.clients[id].session;
    if z.handler.HandlerReturned? || Resting(s.core, id, z) {
      acts, t := [], s;
      CaughtUpAt(cfg, s, id);
    } else {
      var a, u := CallAdvances(cfg, s, id);
      var rest;
      rest, t := CatchUp(cfg, u, id);
      acts := Prepend(cfg, s, id, a, u, rest, t);
    }
  }

  lemma FinishedCore(cfg: Config, k: Core)
    requires CoreInv(cfg, k) && k.waiter.Finished?
    ensures k.lock.Unlocked? && k.job.exitCode == Some(k.waiter.code)
  {}

  /** In particular a call on a finished job returns cleanly, with the exit code as its last
      message, also when the job was complete before the call was made. */
  lemma CallCompletes(cfg: Config, s: State, id: nat) returns (acts: seq<Act>, t: State)
    requires Inv(cfg, s) && s.core.waiter.Finished? && Undecided(s, id)
    ensures Run(cfg, s, acts) == Some(t) && OwnSteps(acts, id)
    ensures |acts| <= SessionWork(s.core, id, s.clients[id].session)
    ensures ReturnedWith(t, id, s.core.waiter.code)
  {
    FinishedCore(cfg, s.core);
    acts, t := CatchUp(cfg, s, id);
  }
}
