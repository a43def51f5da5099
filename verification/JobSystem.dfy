/** The concurrent system around one job, as a labelled step function.

    One lock section or one channel operation is one step, except that the
    sections that notify listeners are split further: the append, the cancellation
    of the done context and every single non-blocking send are steps of their own,
    during which the write lock stays held and receivers may already drain their
    channels. The number of clients is unbounded. */
module JobSystem {
  import opened Basics
  import opened JobData

  /** Which of the places where the code departs from its stated intent are corrected.
      All false is the code as written. */
  datatype Config = Config(
    returnOnShortRead: bool,   // stream returns only when the exit-code read was short
    selectNilableForce: bool,  // signal loop selects on the local, nil-able force channel
    directStreams: bool)       // direct-exec drains stdout to stdout and stderr to stderr

  const AS_WRITTEN := Config(false, false, false)

  // ---------------------------------------------------------------- the job's own goroutines

  /** Update channels are named by the client that owns them. */
  datatype ChanId = ChanId(owner: nat, stream: Stream)

  datatype LockOwner = ByPipe(stream: Stream) | ByWaiter

  /** The write side of updateLock. `Cancelling` is markDone between setting the exit
      code and cancelling the done context; `pending` are the listeners still to be
      notified by the current owner. */
  datatype Lock = Unlocked | Cancelling | Notifying(owner: LockOwner, pending: set<ChanId>)

  datatype Pipe = Reading | Got(chunk: seq<byte>, last: bool) | Publishing(last: bool) | Ended

  datatype Waiter =
    | AwaitStdout
    | AwaitStderr
    | AwaitExit
    | HasCode(code: int)
    | Marking(code: int)
    | Finished(code: int)

  datatype Signal = SIGTERM | SIGKILL

  /** The signal goroutine: whether it runs, which local channels are non-nil, and
      every signal delivered so far. */
  datatype SignalLoop = SignalLoop(running: bool, stopCh: bool, forceCh: bool, sent: seq<Signal>)

  datatype Core = Core(
    job: JobState,
    read: Both<seq<byte>>,     // everything Read ever returned, per pipe
    pipes: Both<Pipe>,
    waiter: Waiter,
    lock: Lock,
    done: bool,                // doneCtx, stopCtx and forceStopCtx closed
    stop: bool,
    force: bool,
    signals: SignalLoop,
    listeners: set<ChanId>,
    chans: map<ChanId, Chan>)

  const INIT_CORE := Core(EMPTY_JOB, Both([], []), Both(Reading, Reading), AwaitStdout, Unlocked,
                         false, false, false, SignalLoop(true, true, true, []), {}, map[])

  datatype CoreAct =
    | PipeRead(stream: Stream, chunk: seq<byte>, last: bool)
    | PipeAppend(stream: Stream)
    | Notify(chan: ChanId)
    | Release
    | PipeJoined
    | Reap(code: int)
    | SetExit
    | CancelDone
    | SigDone | SigTerm | SigKill

  function UpdateBy(o: LockOwner): JobUpdate {
    match o case ByPipe(s) => UpdateOf(s) case ByWaiter => UpdateExitCode
  }

  /** The loop condition of the signal goroutine, after `sig` was sent. */
  function Signalled(l: SignalLoop, sig: Signal): SignalLoop {
    var m := l.(sent := l.sent + [sig],
                stopCh := l.stopCh && sig != SIGTERM,
                forceCh := l.forceCh && sig != SIGKILL);
    m.(running := m.stopCh || m.forceCh)
  }

  function CoreStep(cfg: Config, k: Core, a: CoreAct): Option<Core> {
    match a
    case PipeRead(s, chunk, last) =>
      if k.pipes.At(s).Reading? && |chunk| <= CHUNK then
        var p := if |chunk| > 0 then Got(chunk, last) else if last then Ended else Reading;
        Some(k.(read := k.read.Set(s, k.read.At(s) + chunk), pipes := k.pipes.Set(s, p)))
      else None
    case PipeAppend(s) =>
      if k.pipes.At(s).Got? && k.lock.Unlocked? then
        Some(k.(job := Append(k.job, s, k.pipes.At(s).chunk),
                pipes := k.pipes.Set(s, Publishing(k.pipes.At(s).last)),
                lock := Notifying(ByPipe(s), k.listeners)))
      else None
    case Notify(c) =>
      if k.lock.Notifying? && c in k.lock.pending && c in k.chans then
        Some(k.(chans := k.chans[c := TrySend(k.chans[c], UpdateBy(k.lock.owner))],
                lock := k.lock.(pending := k.lock.pending - {c})))
      else None
    case Release =>
      if k.lock.Notifying? && k.lock.pending == {} then
        match k.lock.owner
        case ByPipe(s) =>
          if k.pipes.At(s).Publishing? then
            Some(k.(lock := Unlocked,
                    pipes := k.pipes.Set(s, if k.pipes.At(s).last then Ended else Reading)))
          else None
        case ByWaiter =>
          if k.waiter.Marking? then Some(k.(lock := Unlocked, waiter := Finished(k.waiter.code))) else None
      else None
    case PipeJoined =>
      if k.waiter.AwaitStdout? && k.pipes.stdout.Ended? then Some(k.(waiter := AwaitStderr))
      else if k.waiter.AwaitStderr? && k.pipes.stderr.Ended? then Some(k.(waiter := AwaitExit))
      else None
    case Reap(code) =>
      if k.waiter.AwaitExit? then Some(k.(waiter := HasCode(code))) else None
    case SetExit =>
      if k.waiter.HasCode? && k.lock.Unlocked? then
        Some(k.(job := k.job.(exitCode := Some(k.waiter.code)), waiter := Marking(k.waiter.code), lock := Cancelling))
      else None
    case CancelDone =>
      if k.lock.Cancelling? then Some(k.(done := true, lock := Notifying(ByWaiter, k.listeners))) else None
    case SigDone =>
      if k.signals.running && k.done then Some(k.(signals := k.signals.(running := false))) else None
    case SigTerm =>
      if k.signals.running && k.signals.stopCh && k.stop
      then Some(k.(signals := Signalled(k.signals, SIGTERM))) else None
    case SigKill =>
      // As written the select names the context itself, so this branch stays ready.
      if k.signals.running && k.force && (cfg.selectNilableForce ==> k.signals.forceCh)
      then Some(k.(signals := Signalled(k.signals, SIGKILL))) else None
  }

  // ---------------------------------------------------------------- streaming clients

  datatype Message = Output(stream: Stream, data: seq<byte>, past: bool) | Completed(code: int)

  datatype StreamResult = StreamOk | StreamCtxErr | StreamOutOfBounds

  datatype StreamPc =
    | NotStarted
    | Eager
    | Past
    | PastSend(chunk: seq<byte>)
    | Register
    | Drain
    | DrainSend(chunk: seq<byte>, final: bool)
    | Park
    | Unregister(result: StreamResult)
    | Returned(result: StreamResult)

  /** One streamOutput goroutine. `sent` are the messages it has handed over, `start` the
      initial total, `pastCount` how many past messages were handed over, and `seenAt` the
      cursor of the read that carried the exit code. */
  datatype Streamer = Streamer(
    pc: StreamPc, start: nat, cursor: nat, sent: seq<Message>, pastCount: nat, seenAt: Option<nat>)

  const IDLE_STREAMER := Streamer(NotStarted, 0, 0, [], 0, None)

  datatype StreamAct = ReadEager | ReadPast | AddListener | ReadDrain | Receive | CtxDone | RemoveListener

  /** A message buffer of `want` bytes after `data` was copied to its front. */
  function Padded(data: seq<byte>, want: nat): seq<byte> {
    if |data| < want then data + seq(want - |data|, i => 0 as byte) else data
  }

  function AfterPast(x: Streamer): StreamPc { if x.cursor < x.start then Past else Register }

  function StreamStep(cfg: Config, k: Core, c: ChanId, fromBeginning: bool, ctxClosed: bool,
                      x: Streamer, a: StreamAct): Option<(Core, Streamer)> {
    match a
    case ReadEager =>
      if x.pc.Eager? && k.lock.Unlocked? then
        var r := ReadOutput(k.job, c.stream, 0, 0);
        if r.outOfBounds then Some((k, x.(pc := Returned(StreamOutOfBounds))))
        else
          var y := x.(start := r.total, cursor := if fromBeginning then 0 else r.total);
          Some((k, y.(pc := AfterPast(y))))
      else None
    case ReadPast =>
      if x.pc.Past? && k.lock.Unlocked? && x.cursor < x.start then
        var want := Min(CHUNK, x.start - x.cursor);
        var r := ReadOutput(k.job, c.stream, want, x.cursor);
        if r.outOfBounds then Some((k, x.(pc := Returned(StreamOutOfBounds))))
        else Some((k, x.(cursor := x.cursor + |r.data|, pc := PastSend(Padded(r.data, want)))))
      else None
    case AddListener =>
      if x.pc.Register? && k.lock.Unlocked? then
        Some((k.(listeners := k.listeners + {c}, chans := k.chans[c := Chan(2, [])]),
              x.(cursor := x.start, pc := Drain)))
      else None
    case ReadDrain =>
      if x.pc.Drain? && k.lock.Unlocked? then
        var r := ReadOutput(k.job, c.stream, CHUNK, x.cursor);
        if r.outOfBounds then Some((k, x.(pc := Unregister(StreamOutOfBounds))))
        else
          var final := r.exitCode.Some? && (cfg.returnOnShortRead ==> |r.data| < CHUNK);
          var y := x.(cursor := x.cursor + |r.data|,
                      seenAt := if r.exitCode.Some? then Some(x.cursor) else x.seenAt);
          var pc := if |r.data| > 0 then DrainSend(r.data, final)
                    else if final then Unregister(StreamOk) else Park;
          Some((k, y.(pc := pc)))
      else None
    case Receive =>
      if x.pc.Park? && c in k.chans && |k.chans[c].buf| > 0 then
        Some((k.(chans := k.chans[c := k.chans[c].(buf := k.chans[c].buf[1..])]), x.(pc := Drain)))
      else None
    case CtxDone =>
      if !ctxClosed then None
      else if x.pc.PastSend? then Some((k, x.(pc := Returned(StreamCtxErr))))
      else if x.pc.DrainSend? || x.pc.Park? then Some((k, x.(pc := Unregister(StreamCtxErr))))
      else None
    case RemoveListener =>
      if x.pc.Unregister? && k.lock.Unlocked? then
        Some((k.(listeners := k.listeners - {c}), x.(pc := Returned(x.pc.result))))
      else None
  }

  /** The message a stream is trying to hand over, if any. */
  function Offered(x: Streamer, s: Stream): Option<Message> {
    match x.pc
    case PastSend(b) => Some(Output(s, b, true))
    case DrainSend(b, _) => Some(Output(s, b, false))
    case _ => None
  }

  /** The stream after the fan-in loop took its message. */
  function HandedOver(x: Streamer, m: Message): Streamer {
    var y := x.(sent := x.sent + [m]);
    match x.pc
    case PastSend(_) => y.(pc := AfterPast(x), pastCount := x.pastCount + 1)
    case DrainSend(_, final) => y.(pc := if final then Unregister(StreamOk) else Drain)
    case _ => y
  }

  /** stream_limit is a oneof, so at most one restriction holds. */
  datatype Limit = NoLimit | OnlyStdout | OnlyStderr

  predicate Started(l: Limit, s: Stream) {
    if s == Stdout then l != OnlyStderr else l != OnlyStdout
  }

  datatype HandlerResult = HandlerOk | HandlerErr(err: StreamResult) | HandlerSendErr | HandlerPanic

  datatype Handler = Receiving | Sending(msg: Message) | Finishing | HandlerReturned(result: HandlerResult)

  /** One StreamJobOutput call: its streams, which of its error channels are still
      non-nil, the fan-in loop and everything it has sent. */
  datatype Session = Session(
    fromBeginning: bool, limit: Limit, streams: Both<Streamer>, open: Both<bool>,
    handler: Handler, log: seq<Message>, ctxClosed: bool)

  datatype SessionAct =
    | StreamDo(stream: Stream, act: StreamAct)
    | Handover(stream: Stream)
    | SendDone(ok: bool)
    | Collect(stream: Stream)
    | HandlerCtx
    | SendExit(ok: bool)
    | CloseCtx

  function NewSession(fromBeginning: bool, limit: Limit): Session {
    var first := s => if Started(limit, s) then IDLE_STREAMER.(pc := Eager) else IDLE_STREAMER;
    Session(fromBeginning, limit, Both(first(Stdout), first(Stderr)),
            Both(Started(limit, Stdout), Started(limit, Stderr)), Receiving, [], false)
  }

  /** The loop test: once both error channels are nil the exit code is sent. */
  function Looped(z: Session): Session {
    if z.open.stdout || z.open.stderr then z.(handler := Receiving) else z.(handler := Finishing)
  }

  function SessionStep(cfg: Config, k: Core, id: nat, z: Session, a: SessionAct): Option<(Core, Session)> {
    match a
    case StreamDo(s, b) => (
      match StreamStep(cfg, k, ChanId(id, s), z.fromBeginning, z.ctxClosed, z.streams.At(s), b)
      case None => None
      case Some((k', x)) => Some((k', z.(streams := z.streams.Set(s, x)))))
    case Handover(s) => (
      match Offered(z.streams.At(s), s)
      case None => None
      case Some(m) =>
        if z.handler.Receiving? then
          Some((k, z.(streams := z.streams.Set(s, HandedOver(z.streams.At(s), m)), handler := Sending(m))))
        else None)
    case SendDone(ok) =>
      if !z.handler.Sending? then None
      else if ok then Some((k, Looped(z.(log := z.log + [z.handler.msg]))))
      else Some((k, z.(handler := HandlerReturned(HandlerSendErr))))
    case Collect(s) =>
      if z.handler.Receiving? && z.open.At(s) && z.streams.At(s).pc.Returned? then
        var r := z.streams.At(s).pc.result;
        if r.StreamOk? then Some((k, Looped(z.(open := z.open.Set(s, false)))))
        else Some((k, z.(handler := HandlerReturned(HandlerErr(r)))))
      else None
    case HandlerCtx =>
      if z.handler.Receiving? && z.ctxClosed
      then Some((k, z.(handler := HandlerReturned(HandlerErr(StreamCtxErr))))) else None
    case SendExit(ok) =>
      if z.handler.Finishing? && k.lock.Unlocked? then
        match k.job.exitCode
        case None => Some((k, z.(handler := HandlerReturned(HandlerPanic))))
        case Some(code) =>
          if ok then Some((k, z.(log := z.log + [Completed(Int32(code))], handler := HandlerReturned(HandlerOk))))
          else Some((k, z.(handler := HandlerReturned(HandlerSendErr))))
      else None
    case CloseCtx => Some((k, z.(ctxClosed := true)))
  }

  // ---------------------------------------------------------------- toProtoJob

  datatype SnapPc = SnapExit | SnapRead(stream: Stream) | SnapDone | SnapFailed

  /** One toProtoJob call: exit code first, then the requested outputs chunk by chunk. */
  datatype Snapshot = Snapshot(want: Both<bool>, pc: SnapPc, exitCode: Option<int>, acc: Both<seq<byte>>)

  function NextSnap(want: Both<bool>, after: SnapPc): SnapPc {
    if after.SnapExit? && want.stdout then SnapRead(Stdout)
    else if (after.SnapExit? || after == SnapRead(Stdout)) && want.stderr then SnapRead(Stderr)
    else SnapDone
  }

  function SnapStep(k: Core, p: Snapshot): Option<Snapshot> {
    if !k.lock.Unlocked? then None
    else
      match p.pc
      case SnapExit => Some(p.(exitCode := k.job.exitCode, pc := NextSnap(p.want, SnapExit)))
      case SnapRead(s) =>
        var r := ReadOutput(k.job, s, CHUNK, |p.acc.At(s)|);
        if r.outOfBounds then Some(p.(pc := SnapFailed))
        else if r.data == [] then Some(p.(pc := NextSnap(p.want, p.pc)))
        else Some(p.(acc := p.acc.Set(s, p.acc.At(s) + r.data)))
      case SnapDone => None
      case SnapFailed => None
  }

  // ---------------------------------------------------------------- Stop and StopJob

  datatype StopResult =
    | AlreadyStopped
    | StopCtxErr
    | Stopped(code: int, response: Option<int>)
    | NilDeref

  datatype StopPc =
    | StopCheck
    | StopCancel
    | StopWait
    | StopDeref
    | StopProto(code: int)
    | StopReturned(result: StopResult)

  datatype Stopper = Stopper(force: bool, pc: StopPc, ctxClosed: bool)

  datatype StopAct = StopGo | StopCtx | StopCloseCtx

  function StopStep(k: Core, p: Stopper, a: StopAct): Option<(Core, Stopper)> {
    match a
    case StopCloseCtx => Some((k, p.(ctxClosed := true)))
    case StopCtx => if p.pc.StopWait? && p.ctxClosed then Some((k, p.(pc := StopReturned(StopCtxErr)))) else None
    case StopGo =>
      match p.pc
      case StopCheck =>
        if !k.lock.Unlocked? then None
        else if k.job.exitCode.Some? then Some((k, p.(pc := StopReturned(AlreadyStopped))))
        else Some((k, p.(pc := StopCancel)))
      case StopCancel =>
        Some((if p.force then k.(force := true) else k.(stop := true), p.(pc := StopWait)))
      case StopWait => if k.done then Some((k, p.(pc := StopDeref))) else None
      case StopDeref =>
        if !k.lock.Unlocked? then None
        else
          var r := match k.job.exitCode case None => StopReturned(NilDeref) case Some(c) => StopProto(c);
          Some((k, p.(pc := r)))
      case StopProto(code) =>
        if !k.lock.Unlocked? then None
        else
          var e := match k.job.exitCode case None => None case Some(c) => Some(Int32(c));
          Some((k, p.(pc := StopReturned(Stopped(code, e)))))
      case StopReturned(_) => None
  }

  // ---------------------------------------------------------------- direct-exec

  datatype ExecPc =
    | ExecListen
    | ExecSample
    | ExecDrain(file: Stream)
    | ExecWrite(file: Stream, chunk: seq<byte>)
    | ExecPark
    | ExecExited(code: int)
    | ExecSignalled
    | ExecFailed

  /** The runDirectExec loop. Offsets and written bytes are per destination file. */
  datatype Exec = Exec(pc: ExecPc, sample: Option<int>, off: Both<nat>, files: Both<seq<byte>>)

  const NEW_EXEC := Exec(ExecListen, None, Both(0, 0), Both([], []))

  datatype ExecAct = ExecGo | ExecWrote | ExecWriteFails(n: nat) | ExecReceive | ExecSignal

  /** The job stream that drainOutput copies to a file. As written they are crossed. */
  function Source(cfg: Config, file: Stream): Stream {
    if cfg.directStreams then file else file.Other()
  }

  function ExecStep(cfg: Config, k: Core, id: nat, p: Exec, a: ExecAct): Option<(Core, Exec)> {
    var c := ChanId(id, Stdout);
    match a
    case ExecGo => (
      if !k.lock.Unlocked? then None
      else
        match p.pc
        case ExecListen =>
          Some((k.(listeners := k.listeners + {c}, chans := k.chans[c := Chan(5, [])]), p.(pc := ExecSample)))
        case ExecSample => Some((k, p.(sample := k.job.exitCode, pc := ExecDrain(Stdout))))
        case ExecDrain(f) =>
          var r := ReadOutput(k.job, Source(cfg, f), CHUNK, p.off.At(f));
          if r.outOfBounds then Some((k, p.(pc := ExecFailed)))
          else if r.data != [] then Some((k, p.(pc := ExecWrite(f, r.data))))
          else if f == Stdout then Some((k, p.(pc := ExecDrain(Stderr))))
          else Some((k, p.(pc := match p.sample case None => ExecPark case Some(code) => ExecExited(code))))
        case _ => None)
    case ExecWrote =>
      if p.pc.ExecWrite? then
        var f := p.pc.file;
        Some((k, p.(files := p.files.Set(f, p.files.At(f) + p.pc.chunk),
                    off := p.off.Set(f, p.off.At(f) + |p.pc.chunk|),
                    pc := ExecDrain(f))))
      else None
    case ExecWriteFails(n) =>
      // A failed write may leave part of the chunk in the file.
      if p.pc.ExecWrite? && n <= |p.pc.chunk| then
        var f := p.pc.file;
        Some((k, p.(files := p.files.Set(f, p.files.At(f) + p.pc.chunk[..n]), pc := ExecFailed)))
      else None
    case ExecReceive =>
      if p.pc.ExecPark? && c in k.chans && |k.chans[c].buf| > 0 then
        Some((k.(chans := k.chans[c := k.chans[c].(buf := k.chans[c].buf[1..])]), p.(pc := ExecSample)))
      else None
    case ExecSignal => if p.pc.ExecPark? then Some((k, p.(pc := ExecSignalled))) else None
  }

  // ---------------------------------------------------------------- the whole system

  datatype Client = Streams(session: Session) | Snap(snapshot: Snapshot) | Stops(stopper: Stopper) | Execs(exec: Exec)

  datatype State = State(core: Core, clients: map<nat, Client>)

  const INIT := State(INIT_CORE, map[])

  datatype Act =
    | CoreDo(core: CoreAct)
    | SpawnStream(id: nat, fromBeginning: bool, limit: Limit)
    | SpawnSnapshot(id: nat, want: Both<bool>)
    | SpawnStop(id: nat, viaRpc: bool, force: bool)
    | SpawnExec(id: nat)
    | SessionDo(id: nat, session: SessionAct)
    | SnapDo(id: nat)
    | StopDo(id: nat, stop: StopAct)
    | ExecDo(id: nat, exec: ExecAct)

  function Spawn(s: State, id: nat, c: Client): Option<State> {
    if id in s.clients then None else Some(s.(clients := s.clients[id := c]))
  }

  function Step(cfg: Config, s: State, a: Act): Option<State> {
    match a
    case CoreDo(b) => (
      match CoreStep(cfg, s.core, b) case None => None case Some(k) => Some(s.(core := k)))
    case SpawnStream(id, fb, limit) => Spawn(s, id, Streams(NewSession(fb, limit)))
    case SpawnSnapshot(id, want) => Spawn(s, id, Snap(Snapshot(want, SnapExit, None, Both([], []))))
    case SpawnStop(id, rpc, force) =>
      Spawn(s, id, Stops(Stopper(force, if rpc then StopCheck else StopCancel, false)))
    case SpawnExec(id) => Spawn(s, id, Execs(NEW_EXEC))
    case SessionDo(id, b) =>
      if id in s.clients && s.clients[id].Streams? then
        match SessionStep(cfg, s.core, id, s.clients[id].session, b)
        case None => None
        case Some((k, z)) => Some(State(k, s.clients[id := Streams(z)]))
      else None
    case SnapDo(id) =>
      if id in s.clients && s.clients[id].Snap? then
        match SnapStep(s.core, s.clients[id].snapshot)
        case None => None
        case Some(p) => Some(s.(clients := s.clients[id := Snap(p)]))
      else None
    case StopDo(id, b) =>
      if id in s.clients && s.clients[id].Stops? then
        match StopStep(s.core, s.clients[id].stopper, b)
        case None => None
        case Some((k, p)) => Some(State(k, s.clients[id := Stops(p)]))
      else None
    case ExecDo(id, b) =>
      if id in s.clients && s.clients[id].Execs? then
        match ExecStep(cfg, s.core, id, s.clients[id].exec, b)
        case None => None
        case Some((k, p)) => Some(State(k, s.clients[id := Execs(p)]))
      else None
  }

  /** The state after a schedule, or None when some step of it was not enabled. */
  function Run(cfg: Config, s: State, acts: seq<Act>): Option<State>
    decreases |acts|
  {
    if acts == [] then Some(s)
    else
      match Step(cfg, s, acts[0])
      case None => None
      case Some(t) => Run(cfg, t, acts[1..])
  }
}
