/** Main results about the job system: they hold in every state any schedule can reach,
    for any number of streaming calls, snapshots, stop callers and direct-exec loops. */
module JobTheorems {
  import opened Basics
  import opened JobData
  import opened JobSystem
  import opened JobCoreProofs
  import opened StreamProofs
  import opened SessionProofs
  import opened ClientProofs
  import opened SystemProofs

  // ---------------------------------------------------------------- storage and finality

  /** The stored stream is everything Read ever returned on its pipe, in order, except a
      chunk that is still on its way; nothing is on its way once the pipe has ended. */
  lemma PipeConservation(cfg: Config, s: State, st: Stream)
    requires Reachable(cfg, s)
    ensures s.core.job.output.At(st) + Held(s.core.pipes.At(st)) == s.core.read.At(st)
    ensures s.core.pipes.At(st).Ended? ==> s.core.job.output.At(st) == s.core.read.At(st)
  {
    ReachableInv(cfg, s);
  }

  lemma StepGrew(cfg: Config, s: State, a: Act, t: State)
    requires CoreInv(cfg, s.core) && Step(cfg, s, a) == Some(t)
    ensures Grew(s.core.job, t.core.job)
  {
    if a.CoreDo? {
      CoreStepRely(cfg, s.core, a.core, t.core, ChanId(0, Stdout));
    } else {
      ClientKeepsJob(cfg, s, a, t);
    }
  }

  /** Storage is append-only: every earlier output is a prefix of every later one, and once
      the exit code is set neither output nor the code ever changes. */
  lemma {:induction false} RunGrew(cfg: Config, s: State, acts: seq<Act>, t: State)
    requires Inv(cfg, s) && Run(cfg, s, acts) == Some(t)
    ensures Grew(s.core.job, t.core.job)
    decreases |acts|
  {
    if acts != [] {
      var u := Step(cfg, s, acts[0]).value;
      StepInv(cfg, s, acts[0], u);
      StepGrew(cfg, s, acts[0], u);
      RunGrew(cfg, u, acts[1..], t);
      GrewTransitive(s.core.job, u.core.job, t.core.job);
    }
  }

  /** Exit finality: a set exit code means both pipe goroutines have ended with everything
      they read stored, and it is the code the child was reaped with. From then on both
      outputs and the code stay as they are. */
  lemma ExitFinality(cfg: Config, s: State, acts: seq<Act>, t: State)
    requires Reachable(cfg, s) && Run(cfg, s, acts) == Some(t)
    requires s.core.job.exitCode.Some?
    ensures s.core.pipes.stdout.Ended? && s.core.pipes.stderr.Ended?
    ensures s.core.job.output == s.core.read
    ensures (s.core.waiter.Marking? || s.core.waiter.Finished?) && s.core.job.exitCode == Some(s.core.waiter.code)
    ensures t.core.job == s.core.job
  {
    ReachableInv(cfg, s);
    RunGrew(cfg, s, acts, t);
    PipeConservation(cfg, s, Stdout);
    PipeConservation(cfg, s, Stderr);
    assert s.core.job.output.At(Stdout) == s.core.read.At(Stdout);
    assert s.core.job.output.At(Stderr) == s.core.read.At(Stderr);
  }

  // ---------------------------------------------------------------- wake-ups

  /** No lost wake-up: a parked stream has read every byte and there is no exit code, or its
      channel holds an update, or the goroutine that holds the lock has still to notify it. */
  lemma NoLostWakeup(cfg: Config, s: State, id: nat, st: Stream)
    requires Reachable(cfg, s)
    requires id in s.clients && s.clients[id].Streams? && s.clients[id].session.streams.At(st).pc.Park?
    ensures
      var x, k, c := s.clients[id].session.streams.At(st), s.core, ChanId(id, st);
      && c in k.chans
      && (|| (x.cursor == |k.job.output.At(st)| && k.job.exitCode.None?)
          || 0 < |k.chans[c].buf|
          || (!k.lock.Unlocked? && Pending(k, c)))
  {
    CoreOf(cfg, s);
    StreamOf(cfg, s, id, st);
  }

  /** Work left to the goroutine that holds the write lock. */
  function LockWork(k: Core): nat {
    match k.lock
    case Unlocked => 0
    case Cancelling => |k.listeners| + 2
    case Notifying(_, pending) => |pending| + 1
  }

  predicate HolderStep(a: CoreAct) { a.Notify? || a.Release? || a.CancelDone? }

  lemma HolderActs(cfg: Config, k: Core) returns (a: CoreAct)
    requires CoreInv(cfg, k) && !k.lock.Unlocked?
    ensures HolderStep(a) && CoreStep(cfg, k, a).Some?
  {
    if k.lock.Cancelling? {
      a := CancelDone;
    } else if k.lock.pending == {} {
      a := Release;
    } else {
      var c :| c in k.lock.pending;
      a := Notify(c);
      assert c in k.chans;
    }
  }

  /** The lock holder never waits for a client: it always has a step of its own. */
  lemma LockHolderProgress(cfg: Config, s: State) returns (a: CoreAct)
    requires Reachable(cfg, s) && !s.core.lock.Unlocked?
    ensures HolderStep(a) && CoreStep(cfg, s.core, a).Some?
  {
    CoreOf(cfg, s);
    a := HolderActs(cfg, s.core);
  }

  lemma CoreLockWork(cfg: Config, k: Core, a: CoreAct, k': Core)
    requires CoreStep(cfg, k, a) == Some(k') && !k.lock.Unlocked?
    ensures HolderStep(a) ==> LockWork(k') < LockWork(k)
    ensures !HolderStep(a) ==> LockWork(k') == LockWork(k)
  {
    if a.Notify? {
      assert k'.lock.pending == k.lock.pending - {a.chan};
    }
  }

  /** While the lock is held, each step of the holder brings the release closer and no step
      of anybody else puts it off. With LockHolderProgress: a pending wake-up arrives. */
  lemma LockWorkFalls(cfg: Config, s: State, a: Act, t: State)
    requires Step(cfg, s, a) == Some(t) && !s.core.lock.Unlocked?
    ensures
      if a.CoreDo? && HolderStep(a.core) then LockWork(t.core) < LockWork(s.core)
      else LockWork(t.core) == LockWork(s.core)
  {
    if a.CoreDo? {
      CoreLockWork(cfg, s.core, a.core, t.core);
    } else {
      ClientKeepsJob(cfg, s, a, t);
    }
  }

  // ---------------------------------------------------------------- delivery

  /** Exact delivery: what a stream has handed over, followed by the one chunk it is about
      to hand over, is the output from its start to its cursor. A past message never follows
      a live one, and every message carries 1 to 1024 bytes of its own stream. */
  lemma ExactDelivery(cfg: Config, s: State, id: nat, st: Stream)
    requires Reachable(cfg, s) && id in s.clients && s.clients[id].Streams?
    requires
      var pc := s.clients[id].session.streams.At(st).pc;
      !pc.NotStarted? && !pc.Eager? && !Aborted(pc)
    ensures
      var z := s.clients[id].session;
      var x, o := z.streams.At(st), s.core.job.output.At(st);
      && From(x, z.fromBeginning) <= x.cursor <= |o|
      && Bytes(x.sent) + InFlight(x.pc) == o[From(x, z.fromBeginning)..x.cursor]
      && Tagged(x.sent, st, x.pastCount)
  {
    StreamOf(cfg, s, id, st);
  }

  /** A stream cut off by its context has delivered a prefix of that, and cannot fail in
      any other way: the out-of-bounds error is never returned. */
  lemma AbortedDelivery(cfg: Config, s: State, id: nat, st: Stream)
    requires Reachable(cfg, s) && id in s.clients && s.clients[id].Streams?
    requires Aborted(s.clients[id].session.streams.At(st).pc)
    ensures
      var z := s.clients[id].session;
      var x, o := z.streams.At(st), s.core.job.output.At(st);
      && x.pc.result == StreamCtxErr && z.ctxClosed
      && From(x, z.fromBeginning) <= x.cursor <= |o|
      && Bytes(x.sent) <= o[From(x, z.fromBeginning)..x.cursor]
  {
    StreamOf(cfg, s, id, st);
  }

  /** The past phase sends exactly ceil(start / 1024) messages, and none when the caller did
      not ask for the beginning. */
  lemma PastMessageCount(cfg: Config, s: State, id: nat, st: Stream)
    requires Reachable(cfg, s) && id in s.clients && s.clients[id].Streams?
    requires PastDone(s.clients[id].session.streams.At(st).pc)
    ensures
      var z := s.clients[id].session;
      var x := z.streams.At(st);
      && x.pastCount == (if z.fromBeginning then (x.start + 1023) / 1024 else 0)
      && x.pastCount <= |x.sent|
      && (forall i :: 0 <= i < |x.sent| ==> (x.sent[i].Output? && (x.sent[i].past <==> i < x.pastCount)))
  {
    StreamOf(cfg, s, id, st);
  }

  /** Every past read comes back full, so nothing but output is sent and the distance to the
      initial total shrinks. */
  lemma PastReadProgress(cfg: Config, s: State, id: nat, st: Stream, t: State)
    requires Reachable(cfg, s) && id in s.clients && s.clients[id].Streams?
    requires Step(cfg, s, SessionDo(id, StreamDo(st, ReadPast))) == Some(t)
    ensures
      var x, y := s.clients[id].session.streams.At(st), t.clients[id].session.streams.At(st);
      && y.pc.PastSend? && y.cursor <= y.start == x.start && x.cursor < y.cursor
      && y.pc.chunk == s.core.job.output.At(st)[x.cursor..y.cursor]
  {
    StreamOf(cfg, s, id, st);
    var z := s.clients[id].session;
    StreamDoShape(cfg, s.core, id, z, st, ReadPast, t.core, t.clients[id].session);
    PastReadFills(cfg, s.core, ChanId(id, st), z.fromBeginning, z.ctxClosed, z.streams.At(st));
  }

  lemma SliceIsRest<T>(o: seq<T>, lo: nat, hi: nat)
    requires lo <= hi <= |o|
    ensures o[lo..hi] == o[lo..] <==> hi == |o|
  {
    assert |o[lo..]| == |o| - lo && |o[lo..hi]| == hi - lo;
  }

  /** A clean end of a stream. With q the cursor of the read that carried the exit code, the
      stream delivered the output up to min(q + 1024, total); that is all of it exactly when
      at most 1024 bytes were left at that read. Returning only on a short read always
      delivers everything. */
  lemma CleanEndDelivers(cfg: Config, s: State, id: nat, st: Stream) returns (q: nat)
    requires Reachable(cfg, s) && id in s.clients && s.clients[id].Streams?
    requires s.clients[id].session.streams.At(st).pc == Returned(StreamOk)
    ensures
      var z := s.clients[id].session;
      var x, o := z.streams.At(st), s.core.job.output.At(st);
      var from := From(x, z.fromBeginning);
      && s.core.job.exitCode.Some?
      && x.seenAt == Some(q) && from <= q <= |o| && x.start <= q
      && Bytes(x.sent) == o[from..Min(q + 1024, |o|)]
      && (Bytes(x.sent) == o[from..] <==> |o| - q <= 1024)
      && (cfg.returnOnShortRead ==> Bytes(x.sent) == o[from..])
  {
    StreamOf(cfg, s, id, st);
    var z := s.clients[id].session;
    var x, o := z.streams.At(st), s.core.job.output.At(st);
    q := x.seenAt.value;
    SliceIsRest(o, From(x, z.fromBeginning), x.cursor);
  }

  // ---------------------------------------------------------------- fan-in

  /** Whenever the fan-in loop is at its select, every message a stream has handed over is
      already in the sent log, in the stream's order: in particular before the stream's
      result is consumed. */
  lemma NothingHandedOverIsLost(cfg: Config, s: State, id: nat)
    requires Reachable(cfg, s) && id in s.clients && s.clients[id].Streams?
    requires s.clients[id].session.handler.Receiving? || s.clients[id].session.handler.Finishing?
    ensures
      var z := s.clients[id].session;
      && Project(z.log, Stdout) == z.streams.stdout.sent
      && Project(z.log, Stderr) == z.streams.stderr.sent
      && Interleaves(z.log, z.streams.stdout.sent, z.streams.stderr.sent)
  {
    ReachableInv(cfg, s);
    assert ClientInv(cfg, s.core, id, s.clients[id]);
    ProjectionsInterleave(s.clients[id].session.log);
  }

  /** A started stream has ended cleanly; one that was not asked for has sent nothing. */
  ghost predicate EndedOrUnused(z: Session, st: Stream) {
    if Started(z.limit, st) then z.streams.At(st).pc == Returned(StreamOk) else z.streams.At(st).sent == []
  }

  lemma SessionParts(cfg: Config, k: Core, id: nat, z: Session)
    requires SessionInv(cfg, k, id, z)
    ensures FanInv(k.job, z) && StreamsInv(cfg, k, id, z, Stdout) && StreamsInv(cfg, k, id, z, Stderr)
  {}

  lemma WaiterOf(cfg: Config, s: State)
    requires Reachable(cfg, s) && s.core.job.exitCode.Some?
    ensures (s.core.waiter.Marking? || s.core.waiter.Finished?) && s.core.job.exitCode == Some(s.core.waiter.code)
  {
    CoreOf(cfg, s);
  }

  lemma CleanLogEnds(j: JobState, z: Session)
    requires FanInv(j, z) && z.handler == HandlerReturned(HandlerOk)
    ensures
      var n := |z.log| - 1;
      && n >= 0 && (forall i :: 0 <= i < n ==> z.log[i].Output?)
      && Interleaves(z.log[..n], z.streams.stdout.sent, z.streams.stderr.sent)
      && j.exitCode.Some? && z.log[n] == Completed(Int32(j.exitCode.value))
  {
    ProjectionsInterleave(Body(z));
    assert Body(z) == z.log[..|z.log| - 1];
  }

  lemma EndedOrUnusedOf(cfg: Config, k: Core, id: nat, z: Session, st: Stream)
    requires FanInv(k.job, z) && StreamsInv(cfg, k, id, z, st)
    requires z.handler == HandlerReturned(HandlerOk)
    ensures EndedOrUnused(z, st)
  {
    assert OpenInv(z, st);
  }

  /** Clean return of StreamJobOutput: the log is an interleaving of what the streams handed
      over, followed by exactly one exit-code message that carries the code given to
      markDone. Started streams have ended cleanly, others sent nothing. */
  lemma CleanReturn(cfg: Config, s: State, id: nat)
    requires Reachable(cfg, s) && id in s.clients && s.clients[id].Streams?
    requires s.clients[id].session.handler == HandlerReturned(HandlerOk)
    ensures
      var z, w := s.clients[id].session, s.core.waiter;
      var n := |z.log| - 1;
      && n >= 0 && (forall i :: 0 <= i < n ==> z.log[i].Output?)
      && Interleaves(z.log[..n], z.streams.stdout.sent, z.streams.stderr.sent)
      && (w.Marking? || w.Finished?) && z.log[n] == Completed(Int32(w.code))
      && s.core.job.exitCode == Some(w.code)
    ensures EndedOrUnused(s.clients[id].session, Stdout) && EndedOrUnused(s.clients[id].session, Stderr)
  {
    SessionOf(cfg, s, id);
    SessionParts(cfg, s.core, id, s.clients[id].session);
    CleanLogEnds(s.core.job, s.clients[id].session);
    WaiterOf(cfg, s);
    EndedOrUnusedOf(cfg, s.core, id, s.clients[id].session, Stdout);
    EndedOrUnusedOf(cfg, s.core, id, s.clients[id].session, Stderr);
  }

  lemma CleanProjection(j: JobState, z: Session, st: Stream)
    requires FanInv(j, z) && z.handler == HandlerReturned(HandlerOk)
    ensures z.log != [] && Project(z.log[..|z.log| - 1], st) == z.streams.At(st).sent
  {
    assert Forwarded(z, st);
  }

  /** What a caller gets from a call that returned cleanly. For each stream asked for, with q
      the cursor of the read that carried the exit code, the bytes in the log are the output
      from the stream's start up to min(q + 1024, total); that is everything exactly when at
      most 1024 bytes were left at q, and always when streams return only on a short read. */
  lemma CleanReturnDelivers(cfg: Config, s: State, id: nat, st: Stream) returns (q: nat)
    requires Reachable(cfg, s) && id in s.clients && s.clients[id].Streams?
    requires s.clients[id].session.handler == HandlerReturned(HandlerOk) && Started(s.clients[id].session.limit, st)
    ensures
      var z, o := s.clients[id].session, s.core.job.output.At(st);
      var x := z.streams.At(st);
      var from := From(x, z.fromBeginning);
      && z.log != [] && s.core.job.exitCode.Some?
      && x.seenAt == Some(q) && from <= q <= |o| && x.start <= q
      && var got := Bytes(Project(z.log[..|z.log| - 1], st));
        && got == o[from..Min(q + 1024, |o|)]
        && (got == o[from..] <==> |o| - q <= 1024)
        && (cfg.returnOnShortRead ==> got == o[from..])
  {
    CleanReturn(cfg, s, id);
    assert EndedOrUnused(s.clients[id].session, st);
    SessionOf(cfg, s, id);
    SessionParts(cfg, s.core, id, s.clients[id].session);
    CleanProjection(s.core.job, s.clients[id].session, st);
    q := CleanEndDelivers(cfg, s, id, st);
  }

  /** The handler never dereferences a nil exit code, and the only error it takes from a
      stream is the context's. */
  lemma HandlerSafe(cfg: Config, s: State, id: nat)
    requires Reachable(cfg, s) && id in s.clients && s.clients[id].Streams?
    ensures
      var z := s.clients[id].session;
      && z.handler != HandlerReturned(HandlerPanic)
      && (forall e :: z.handler == HandlerReturned(HandlerErr(e)) ==> e == StreamCtxErr && z.ctxClosed)
      && (z.handler.Finishing? ==> s.core.job.exitCode.Some?)
  {
    ReachableInv(cfg, s);
    assert ClientInv(cfg, s.core, id, s.clients[id]);
    if s.clients[id].session.handler.Finishing? {
      FinishingHasExit(cfg, s.core, id, s.clients[id].session);
    }
  }

  // ---------------------------------------------------------------- snapshots and stops

  /** A finished toProtoJob result. With an exit code it holds the complete, final output of
      every requested stream, as any later state confirms; without one, a prefix. It never
      fails out of bounds. */
  lemma SnapshotGuarantee(cfg: Config, s: State, id: nat, acts: seq<Act>, t: State, st: Stream)
    requires Reachable(cfg, s) && Run(cfg, s, acts) == Some(t)
    requires id in s.clients && s.clients[id].Snap?
    ensures
      var p := s.clients[id].snapshot;
      && !p.pc.SnapFailed?
      && p.acc.At(st) <= t.core.job.output.At(st)
      && (!p.want.At(st) ==> p.acc.At(st) == [])
      && (p.pc.SnapDone? && p.exitCode.Some? ==>
            t.core.job.exitCode == p.exitCode
            && (p.want.At(st) ==> p.acc.At(st) == t.core.job.output.At(st)))
  {
    ReachableInv(cfg, s);
    assert ClientInv(cfg, s.core, id, s.clients[id]);
    RunGrew(cfg, s, acts, t);
    assert s.core.job.output.At(st) <= t.core.job.output.At(st);
  }

  /** Done handshake: a closed done context implies an exit code. So Stop never dereferences
      nil, and every successful StopJob response carries the job's exit code. A Stop that
      waits has closed the context of its own kind, and fails only when its context closed. */
  lemma DoneHandshake(cfg: Config, s: State, id: nat)
    requires Reachable(cfg, s)
    ensures s.core.done ==> s.core.job.exitCode.Some?
    ensures id in s.clients && s.clients[id].Stops? ==>
      match s.clients[id].stopper.pc
      case StopWait => if s.clients[id].stopper.force then s.core.force else s.core.stop
      case StopDeref => s.core.job.exitCode.Some?
      case StopReturned(r) =>
        && r != NilDeref
        && (r == StopCtxErr ==> s.clients[id].stopper.ctxClosed)
        && (r.Stopped? ==> s.core.job.exitCode == Some(r.code) && r.response == Some(Int32(r.code)))
      case _ => true
  {
    ReachableInv(cfg, s);
    assert id in s.clients ==> ClientInv(cfg, s.core, id, s.clients[id]);
  }

  /** The exit code survives the conversion to the wire type exactly when it fits it. */
  lemma Int32Exact(code: int)
    ensures -0x8000_0000 <= Int32(code) < 0x8000_0000
    ensures Int32(code) == code <==> -0x8000_0000 <= code < 0x8000_0000
  {}

  // ---------------------------------------------------------------- direct-exec

  /** Each file holds the prefix of its source that its offset says, and, once a write has
      failed, perhaps part of the chunk of that write. Leaving by the exit-code path, every
      byte of both outputs has been written exactly once and in order, and the process exits
      with the job's code. */
  lemma DirectExecDrains(cfg: Config, s: State, id: nat, f: Stream)
    requires Reachable(cfg, s) && id in s.clients && s.clients[id].Execs?
    ensures
      var p := s.clients[id].exec;
      var o := s.core.job.output.At(Source(cfg, f));
      && p.off.At(f) <= |o| && o[..p.off.At(f)] <= p.files.At(f) <= o
      && (!p.pc.ExecFailed? ==> p.files.At(f) == o[..p.off.At(f)])
      && (p.pc.ExecExited? ==> p.files.At(f) == o && s.core.job.exitCode == Some(p.pc.code))
  {
    ExecOf(cfg, s, id);
    assert ExecFile(cfg, s.core.job, s.clients[id].exec, f);
  }

  /** As written the two files are crossed: on exit os.Stdout holds the job's stderr, so it
      holds the job's stdout only when the two outputs are equal. */
  lemma DirectExecCrossed(s: State, id: nat)
    requires Reachable(AS_WRITTEN, s) && id in s.clients && s.clients[id].Execs? && s.clients[id].exec.pc.ExecExited?
    ensures
      var p, o := s.clients[id].exec, s.core.job.output;
      && p.files == Both(o.stderr, o.stdout)
      && (p.files == o <==> o.stdout == o.stderr)
  {
    DirectExecDrains(AS_WRITTEN, s, id, Stdout);
    DirectExecDrains(AS_WRITTEN, s, id, Stderr);
  }

  /** The parked loop has written everything and no exit code is set, or its five-slot
      channel holds an update or is about to get one. */
  lemma DirectExecNeverMissesExit(cfg: Config, s: State, id: nat)
    requires Reachable(cfg, s) && id in s.clients && s.clients[id].Execs? && s.clients[id].exec.pc.ExecPark?
    ensures
      var p, k, c := s.clients[id].exec, s.core, ChanId(id, Stdout);
      && c in k.chans
      && (|| (k.job.exitCode.None?
              && p.files == Both(k.job.output.At(Source(cfg, Stdout)), k.job.output.At(Source(cfg, Stderr))))
          || 0 < |k.chans[c].buf|
          || (!k.lock.Unlocked? && Pending(k, c)))
  {
    CoreOf(cfg, s);
    ExecOf(cfg, s, id);
    var p, j := s.clients[id].exec, s.core.job;
    assert CaughtUp(cfg, j, p.off, Stdout) ==> p.files.stdout == j.output.At(Source(cfg, Stdout));
    assert CaughtUp(cfg, j, p.off, Stderr) ==> p.files.stderr == j.output.At(Source(cfg, Stderr));
  }
}
