/** When a caller of StreamJobOutput gets all output: while the job runs, and at the clean end,
    where the exact condition is one on the state in which the call is made. */
module DeliveryTheorems {
  import opened Basics
  import opened JobSystem
  import opened JobCoreProofs
  import opened JobProgress
  import opened JobTheorems
  import opened SessionProgress
  import opened SessionProofs
  import opened StreamProofs
  import opened SystemProofs

  // ---------------------------------------------------------------- live

  /** Live delivery: from every reachable state, whatever the child and all other clients leave
      undone, the steps of the lock holder, if there is one, and then the call's own bring it
      up to date with the output there is, or to its clean return if the exit code is set. */
  lemma LiveCallCatchesUp(cfg: Config, s: State, id: nat)
    returns (holder: seq<Act>, u: State, own: seq<Act>, t: State)
    requires Reachable(cfg, s) && Undecided(s, id)
    ensures Leads(cfg, s, holder, u) && |holder| <= LockWork(s.core) && u.clients == s.clients
    ensures Run(cfg, u, own) == Some(t) && OwnSteps(own, id)
    ensures |own| <= SessionWork(u.core, id, u.clients[id].session)
    ensures t.core.job == s.core.job && CaughtUp(t, id)
  {
    assert Inv(cfg, s) by { ReachableInv(cfg, s); }
    holder, u := FreeLock(cfg, s);
    own, t := CatchUp(cfg, u, id);
  }

  // ---------------------------------------------------------------- at the clean end

  ghost predicate ReturnedOk(t: State, id: nat) {
    id in t.clients && t.clients[id].Streams? && t.clients[id].session.handler == HandlerReturned(HandlerOk)
  }

  /** The bytes of one stream in the log of a returned call are the output from its start. */
  ghost predicate GotAll(t: State, id: nat, st: Stream)
    requires ReturnedOk(t, id)
  {
    var z, o := t.clients[id].session, t.core.job.output.At(st);
    var from := if z.fromBeginning then 0 else z.streams.At(st).start;
    z.log != [] && from <= |o| && Bytes(Project(z.log[..|z.log| - 1], st)) == o[from..]
  }

  /** Over all runs from `s`, a clean return of the call has sent all of the stream. */
  ghost predicate AlwaysGetsAll(s: State, id: nat, st: Stream) {
    forall acts, t :: Run(AS_WRITTEN, s, acts) == Some(t) && ReturnedOk(t, id) ==> GotAll(t, id, st)
  }

  // ---------------------------------------------------------------- enough: the pipe has read its last

  /** What is still to come fits in one read from the stream's start. */
  ghost predicate Covered(k: Core, z: Session, st: Stream) {
    && LastRead(k.pipes.At(st)) && Started(z.limit, st)
    && var x := z.streams.At(st);
       (!x.pc.NotStarted? && !x.pc.Eager? ==>
          |k.job.output.At(st)| + |Held(k.pipes.At(st))| <= x.start + CHUNK)
  }

  ghost predicate CoveredAt(s: State, id: nat, st: Stream) {
    id in s.clients && s.clients[id].Streams? && Covered(s.core, s.clients[id].session, st)
  }

  lemma CoveredCore(cfg: Config, k: Core, a: CoreAct, k': Core, z: Session, st: Stream)
    requires CoreInv(cfg, k) && Covered(k, z, st) && CoreStep(cfg, k, a) == Some(k')
    ensures Covered(k', z, st)
  {
    assert PipeInv(k, st);
  }

  lemma StartKept(cfg: Config, k: Core, c: ChanId, fb: bool, ctx: bool, x: Streamer, a: StreamAct,
                  k': Core, x': Streamer)
    requires CoreInv(cfg, k) && StreamStep(cfg, k, c, fb, ctx, x, a) == Some((k', x'))
    ensures x.pc.Eager? && !x'.pc.Returned? ==> x'.start == |k.job.output.At(c.stream)|
    ensures !x.pc.Eager? ==> x'.start == x.start && !x'.pc.Eager?
    ensures x.pc.Eager? ==> !x'.pc.Returned?
    ensures !x.pc.NotStarted? && !x'.pc.NotStarted?
  {}

  /** No step of the call moves the start of a stream once its total was read. */
  lemma CoveredSession(cfg: Config, k: Core, id: nat, z: Session, a: SessionAct, k': Core, z': Session, st: Stream)
    requires CoreInv(cfg, k) && Covered(k, z, st) && SessionStep(cfg, k, id, z, a) == Some((k', z'))
    ensures Covered(k', z', st)
  {
    assert PipeInv(k, st);
    SessionWrites(cfg, k, id, z, a, k', z');
    if a.StreamDo? {
      StreamDoShape(cfg, k, id, z, a.stream, a.act, k', z');
      StartKept(cfg, k, ChanId(id, a.stream), z.fromBeginning, z.ctxClosed, z.streams.At(a.stream), a.act,
                k', z'.streams.At(a.stream));
    }
  }

  lemma CoveredStep(s: State, id: nat, st: Stream, a: Act, t: State)
    requires CoreInv(AS_WRITTEN, s.core) && CoveredAt(s, id, st) && Step(AS_WRITTEN, s, a) == Some(t)
    ensures CoveredAt(t, id, st)
  {
    if a.SessionDo? && a.id == id {
      CoveredSession(AS_WRITTEN, s.core, id, s.clients[id].session, a.session, t.core, t.clients[id].session, st);
    } else {
      CallKept(AS_WRITTEN, s, id, a, t);
      if a.CoreDo? {
        CoveredCore(AS_WRITTEN, s.core, a.core, t.core, s.clients[id].session, st);
      } else {
        ClientKeepsJob(AS_WRITTEN, s, a, t);
      }
    }
  }

  lemma {:induction false} CoveredRun(s: State, id: nat, st: Stream, acts: seq<Act>, t: State)
    requires Inv(AS_WRITTEN, s) && CoveredAt(s, id, st) && Run(AS_WRITTEN, s, acts) == Some(t)
    ensures Inv(AS_WRITTEN, t) && CoveredAt(t, id, st)
    decreases |acts|
  {
    if acts != [] {
      var u := Step(AS_WRITTEN, s, acts[0]).value;
      StepInv(AS_WRITTEN, s, acts[0], u);
      CoveredStep(s, id, st, acts[0], u);
      CoveredRun(u, id, st, acts[1..], t);
    }
  }

  lemma EnoughFor(s: State, id: nat, st: Stream, t: State, acts: seq<Act>)
    requires Reachable(AS_WRITTEN, s) && CoveredAt(s, id, st) && Run(AS_WRITTEN, s, acts) == Some(t)
    requires ReturnedOk(t, id)
    ensures GotAll(t, id, st)
  {
    ReachableInv(AS_WRITTEN, s);
    CoveredRun(s, id, st, acts, t);
    ReachableRun(AS_WRITTEN, s, acts, t);
    var q := CleanReturnDelivers(AS_WRITTEN, t, id, st);
    CleanReturn(AS_WRITTEN, t, id);
    CoreOf(AS_WRITTEN, t);
  }

  lemma LateCallGetsAll(s: State, id: nat, st: Stream)
    requires Reachable(AS_WRITTEN, s) && CoveredAt(s, id, st)
    ensures AlwaysGetsAll(s, id, st)
  {
    forall acts, t | Run(AS_WRITTEN, s, acts) == Some(t) && ReturnedOk(t, id)
      ensures GotAll(t, id, st)
    {
      EnoughFor(s, id, st, t, acts);
    }
  }

  // ---------------------------------------------------------------- needed: otherwise a run loses output

  /** With the exit code set: the stream's first live read will be its last, and will start
      where the past ended. */
  ghost predicate Doomed(x: Streamer, start: nat) {
    && x.start == start
    && match x.pc
       case Past => true
       case PastSend(_) => true
       case Register => true
       case Drain => x.cursor == start
       case DrainSend(_, final) => final && x.seenAt == Some(start)
       case Unregister(_) => x.seenAt == Some(start)
       case Returned(_) => x.seenAt == Some(start)
       case _ => false
  }

  lemma DoomedStream(k: Core, c: ChanId, fb: bool, ctx: bool, x: Streamer, a: StreamAct,
                     k': Core, x': Streamer, start: nat)
    requires StreamStep(AS_WRITTEN, k, c, fb, ctx, x, a) == Some((k', x')) && !a.CtxDone?
    requires Doomed(x, start) && k.job.exitCode.Some?
    requires StreamInv(AS_WRITTEN, k, c, fb, ctx, x)
    ensures Doomed(x', start)
  {}

  lemma DoomedSession(k: Core, id: nat, z: Session, a: SessionAct, k': Core, z': Session, st: Stream, start: nat)
    requires SessionStep(AS_WRITTEN, k, id, z, a) == Some((k', z')) && Undisturbed(a)
    requires Doomed(z.streams.At(st), start) && k.job.exitCode.Some? && StreamsInv(AS_WRITTEN, k, id, z, st)
    ensures Doomed(z'.streams.At(st), start) && z'.limit == z.limit
  {
    if a.StreamDo? {
      StreamDoShape(AS_WRITTEN, k, id, z, a.stream, a.act, k', z');
      if a.stream == st {
        DoomedStream(k, ChanId(id, st), z.fromBeginning, z.ctxClosed, z.streams.At(st), a.act,
                     k', z'.streams.At(st), start);
      }
    }
  }

  ghost predicate DoomedAt(s: State, id: nat, st: Stream, start: nat) {
    && id in s.clients && s.clients[id].Streams? && s.core.job.exitCode.Some?
    && Started(s.clients[id].session.limit, st) && Doomed(s.clients[id].session.streams.At(st), start)
  }

  lemma DoomedStep(s: State, id: nat, st: Stream, start: nat, a: Act, t: State)
    requires Reachable(AS_WRITTEN, s) && DoomedAt(s, id, st, start) && OwnStep(a, id)
    requires Step(AS_WRITTEN, s, a) == Some(t)
    ensures DoomedAt(t, id, st, start) && t.core.job == s.core.job
  {
    StreamOf(AS_WRITTEN, s, id, st);
    ClientKeepsJob(AS_WRITTEN, s, a, t);
    DoomedSession(s.core, id, s.clients[id].session, a.session, t.core, t.clients[id].session, st, start);
  }

  lemma {:induction false} DoomedRun(s: State, id: nat, st: Stream, start: nat, acts: seq<Act>, t: State)
    requires Reachable(AS_WRITTEN, s) && DoomedAt(s, id, st, start) && OwnSteps(acts, id)
    requires Run(AS_WRITTEN, s, acts) == Some(t)
    ensures DoomedAt(t, id, st, start) && t.core.job == s.core.job
    decreases |acts|
  {
    if acts != [] {
      var u := Step(AS_WRITTEN, s, acts[0]).value;
      DoomedStep(s, id, st, start, acts[0], u);
      ReachableStep(AS_WRITTEN, s, acts[0], u);
      DoomedRun(u, id, st, start, acts[1..], t);
    }
  }

  lemma DoomedEnd(t: State, id: nat, st: Stream, start: nat)
    requires Reachable(AS_WRITTEN, t) && ReturnedOk(t, id) && DoomedAt(t, id, st, start)
    requires start + CHUNK < |t.core.job.output.At(st)|
    ensures !GotAll(t, id, st)
  {
    var q := CleanReturnDelivers(AS_WRITTEN, t, id, st);
    CleanReturn(AS_WRITTEN, t, id);
    assert EndedOrUnused(t.clients[id].session, st);
  }

  /** A call that has read a total more than one read short of the final one: run to its end on
      the finished job, it loses output. */
  lemma DoomedLoses(s: State, id: nat, st: Stream, start: nat) returns (acts: seq<Act>, t: State)
    requires Reachable(AS_WRITTEN, s) && s.core.waiter.Finished? && Undecided(s, id)
    requires DoomedAt(s, id, st, start) && start + CHUNK < |s.core.job.output.At(st)|
    ensures Run(AS_WRITTEN, s, acts) == Some(t) && ReturnedOk(t, id) && !GotAll(t, id, st)
  {
    assert Inv(AS_WRITTEN, s) by { ReachableInv(AS_WRITTEN, s); }
    acts, t := CallCompletes(AS_WRITTEN, s, id);
    DoomedRun(s, id, st, start, acts, t);
    ReachableRun(AS_WRITTEN, s, acts, t);
    DoomedEnd(t, id, st, start);
  }

  /** The eager read of a fresh call: its total is the output of that moment. */
  lemma EagerRead(s: State, id: nat, st: Stream) returns (t: State)
    requires id in s.clients && s.clients[id].Streams? && s.core.lock.Unlocked?
    requires s.clients[id].session.streams.At(st).pc.Eager?
    ensures Step(AS_WRITTEN, s, SessionDo(id, StreamDo(st, ReadEager))) == Some(t)
    ensures t.core == s.core && id in t.clients && t.clients[id].Streams?
    ensures
      var z, z' := s.clients[id].session, t.clients[id].session;
      && z' == z.(streams := z'.streams)
      && z'.streams.At(st).start == |s.core.job.output.At(st)|
      && (z'.streams.At(st).pc.Past? || z'.streams.At(st).pc.Register?)
  {
    var z, c := s.clients[id].session, ChanId(id, st);
    var (k, x) := StreamStep(AS_WRITTEN, s.core, c, z.fromBeginning, z.ctxClosed, z.streams.At(st), ReadEager).value;
    t := State(k, s.clients[id := Streams(z.(streams := z.streams.Set(st, x)))]);
  }

  lemma OutputGrows(s: State, st: Stream) returns (acts: seq<Act>, t: State)
    requires Inv(AS_WRITTEN, s) && s.core.lock.Unlocked? && s.core.pipes.At(st).Reading?
    ensures Run(AS_WRITTEN, s, acts) == Some(t) && t.clients == s.clients
    ensures t.core.waiter.Finished? && t.core.job.exitCode.Some?
    ensures |s.core.job.output.At(st)| + CHUNK < |t.core.job.output.At(st)|
  {
    var full := seq(CHUNK, i => 0 as byte);
    var a1, s1 := Grow(AS_WRITTEN, s, st, full);
    var a2, s2 := Grow(AS_WRITTEN, s1, st, [0]);
    var a3;
    a3, t := JobFinishes(AS_WRITTEN, s2, 0);
    RunJoin(AS_WRITTEN, s1, a2, s2, a3, t);
    RunJoin(AS_WRITTEN, s, a1, s1, a2 + a3, t);
    acts := a1 + (a2 + a3);
    assert s2.core.job.output.At(st) <= t.core.job.output.At(st);
  }

  /** The eager read happens, the child writes two more chunks and exits. */
  lemma ChildOutruns(s: State, id: nat, st: Stream) returns (acts: seq<Act>, t: State, start: nat)
    requires Reachable(AS_WRITTEN, s) && Undecided(s, id) && !s.clients[id].session.handler.HandlerReturned?
    requires s.clients[id].session.streams.At(st).pc.Eager? && Started(s.clients[id].session.limit, st)
    requires !LastRead(s.core.pipes.At(st))
    ensures Run(AS_WRITTEN, s, acts) == Some(t)
    ensures t.core.waiter.Finished? && Undecided(t, id)
    ensures DoomedAt(t, id, st, start) && start + CHUNK < |t.core.job.output.At(st)|
  {
    assert Inv(AS_WRITTEN, s) by { ReachableInv(AS_WRITTEN, s); }
    var a1, s1 := Settle(AS_WRITTEN, s, st);
    var s2 := EagerRead(s1, id, st);
    var read := SessionDo(id, StreamDo(st, ReadEager));
    StepInv(AS_WRITTEN, s1, read, s2);
    start := |s1.core.job.output.At(st)|;
    var a2;
    a2, t := OutputGrows(s2, st);
    RunCons(AS_WRITTEN, s1, read, s2, a2, t);
    RunJoin(AS_WRITTEN, s, a1, s1, [read] + a2, t);
    acts := a1 + ([read] + a2);
  }

  lemma EarlyCallMayLose(s: State, id: nat, st: Stream)
    requires Reachable(AS_WRITTEN, s) && Undecided(s, id) && !s.clients[id].session.handler.HandlerReturned?
    requires s.clients[id].session.streams.At(st).pc.Eager? && Started(s.clients[id].session.limit, st)
    requires !LastRead(s.core.pipes.At(st))
    ensures !AlwaysGetsAll(s, id, st)
  {
    var a1, s1, start := ChildOutruns(s, id, st);
    ReachableRun(AS_WRITTEN, s, a1, s1);
    var a2, t := DoomedLoses(s1, id, st, start);
    RunJoin(AS_WRITTEN, s, a1, s1, a2, t);
    assert Run(AS_WRITTEN, s, a1 + a2) == Some(t) && ReturnedOk(t, id) && !GotAll(t, id, st);
  }

  // ---------------------------------------------------------------- the exact condition

  /** As written, a call is bound to get all of a stream it asks for, over every run and for
      every clean return, if and only if the pipe of that stream had returned its last bytes
      by the time the call was made. */
  lemma CallGetsAllIff(s: State, id: nat, fromBeginning: bool, limit: Limit, st: Stream, s1: State)
    requires Reachable(AS_WRITTEN, s) && Started(limit, st)
    requires Step(AS_WRITTEN, s, SpawnStream(id, fromBeginning, limit)) == Some(s1)
    ensures AlwaysGetsAll(s1, id, st) <==> LastRead(s.core.pipes.At(st))
  {
    ReachableStep(AS_WRITTEN, s, SpawnStream(id, fromBeginning, limit), s1);
    assert s1.clients[id] == Streams(NewSession(fromBeginning, limit)) && s1.core == s.core;
    if LastRead(s.core.pipes.At(st)) {
      LateCallGetsAll(s1, id, st);
    } else {
      EarlyCallMayLose(s1, id, st);
    }
  }

  /** In particular a call made once the job's exit code is set: a caller who has seen the
      code before asking gets everything. */
  lemma CallOnDoneJobGetsAll(s: State, id: nat, fromBeginning: bool, limit: Limit, st: Stream, s1: State)
    requires Reachable(AS_WRITTEN, s) && Started(limit, st) && s.core.job.exitCode.Some?
    requires Step(AS_WRITTEN, s, SpawnStream(id, fromBeginning, limit)) == Some(s1)
    ensures AlwaysGetsAll(s1, id, st)
  {
    CoreOf(AS_WRITTEN, s);
    CallGetsAllIff(s, id, fromBeginning, limit, st, s1);
  }
}
