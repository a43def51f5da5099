/** Invariants of the other clients of a job: toProtoJob snapshots, Stop callers and the
    direct-exec loop. */
module ClientProofs {
  import opened Basics
  import opened JobData
  import opened JobSystem
  import opened JobCoreProofs

  // ---------------------------------------------------------------- toProtoJob

  /** The snapshot has finished reading this stream. */
  ghost predicate SnapPassed(p: Snapshot, s: Stream) {
    p.want.At(s) && (p.pc.SnapDone? || (s == Stdout && p.pc == SnapRead(Stderr)))
  }

  ghost predicate SnapStreamInv(j: JobState, p: Snapshot, s: Stream) {
    && p.acc.At(s) <= j.output.At(s)
    && (!p.want.At(s) || p.pc.SnapExit? ==> p.acc.At(s) == [])
    && (SnapPassed(p, s) && p.exitCode.Some? ==> p.acc.At(s) == j.output.At(s))
  }

  ghost predicate SnapInv(j: JobState, p: Snapshot) {
    && SnapStreamInv(j, p, Stdout) && SnapStreamInv(j, p, Stderr)
    && (p.pc.SnapExit? ==> p.exitCode.None?)
    && (p.exitCode.Some? ==> j.exitCode == p.exitCode)
    && (p.pc.SnapRead? ==> p.want.At(p.pc.stream))
    && !p.pc.SnapFailed?
  }

  lemma SnapStable(j: JobState, j': JobState, p: Snapshot)
    requires SnapInv(j, p) && Grew(j, j')
    ensures SnapInv(j', p)
  {}

  lemma SnapReadExtends(j: JobState, s: Stream, acc: seq<byte>)
    requires acc <= j.output.At(s)
    ensures
      var r := ReadOutput(j, s, CHUNK, |acc|);
      && !r.outOfBounds && acc + r.data <= j.output.At(s)
      && (r.data == [] ==> acc == j.output.At(s))
  {
    var o, n := j.output.At(s), |acc|;
    var r := ReadOutput(j, s, CHUNK, n);
    assert o[..n] + r.data == o[..n + |r.data|];
    assert r.data == [] ==> o[..n] == o;
  }

  lemma SnapStepInv(k: Core, p: Snapshot, p': Snapshot)
    requires SnapInv(k.job, p) && SnapStep(k, p) == Some(p')
    ensures SnapInv(k.job, p')
  {
    if p.pc.SnapRead? {
      SnapReadExtends(k.job, p.pc.stream, p.acc.At(p.pc.stream));
    }
  }

  // ---------------------------------------------------------------- Stop

  ghost predicate StopInv(k: Core, p: Stopper) {
    match p.pc
    case StopCheck => true
    case StopCancel => true
    case StopWait => if p.force then k.force else k.stop
    case StopDeref => k.done && if p.force then k.force else k.stop
    case StopProto(code) => k.done && k.job.exitCode == Some(code)
    case StopReturned(r) =>
      match r
      case AlreadyStopped => k.job.exitCode.Some?
      case StopCtxErr => p.ctxClosed
      case Stopped(code, e) => k.done && k.job.exitCode == Some(code) && e == Some(Int32(code))
      case NilDeref => false
  }

  lemma StopStable(k: Core, k': Core, p: Stopper)
    requires StopInv(k, p) && Evolves(k, k')
    ensures StopInv(k', p)
  {}

  /** A stop request touches nothing but the two request flags. */
  lemma StopWrites(k: Core, p: Stopper, a: StopAct, k': Core, p': Stopper)
    requires StopStep(k, p, a) == Some((k', p'))
    ensures k' == k.(stop := k'.stop, force := k'.force) && (k.stop ==> k'.stop) && (k.force ==> k'.force)
  {}

  lemma StopStepInv(cfg: Config, k: Core, p: Stopper, a: StopAct, k': Core, p': Stopper)
    requires CoreInv(cfg, k) && StopInv(k, p) && StopStep(k, p, a) == Some((k', p'))
    ensures StopInv(k', p')
  {}

  lemma StopStepCore(cfg: Config, k: Core, p: Stopper, a: StopAct, k': Core, p': Stopper)
    requires CoreInv(cfg, k) && StopStep(k, p, a) == Some((k', p'))
    ensures CoreInv(cfg, k') && k'.listeners == k.listeners
    ensures forall d :: Rely(k, k', d)
  {
    StopWrites(k, p, a, k', p');
  }

  // ---------------------------------------------------------------- direct-exec

  /** A file holds the prefix of its source that its offset says. */
  ghost predicate Copied(cfg: Config, j: JobState, off: Both<nat>, files: Both<seq<byte>>, f: Stream) {
    var o := j.output.At(Source(cfg, f));
    off.At(f) <= |o| && files.At(f) == o[..off.At(f)]
  }

  /** It may hold more of its source: part of the chunk whose write failed. */
  ghost predicate Partly(cfg: Config, j: JobState, off: Both<nat>, files: Both<seq<byte>>, f: Stream) {
    var o := j.output.At(Source(cfg, f));
    off.At(f) <= |o| && o[..off.At(f)] <= files.At(f) <= o
  }

  ghost predicate CaughtUp(cfg: Config, j: JobState, off: Both<nat>, f: Stream) {
    off.At(f) == |j.output.At(Source(cfg, f))|
  }

  ghost predicate ExecFile(cfg: Config, j: JobState, p: Exec, f: Stream) {
    if p.pc.ExecFailed? then Partly(cfg, j, p.off, p.files, f) else Copied(cfg, j, p.off, p.files, f)
  }

  /** Files the current round has drained. */
  ghost predicate Passed(pc: ExecPc, f: Stream) {
    match pc
    case ExecDrain(g) => f == Stdout && g == Stderr
    case ExecWrite(g, _) => f == Stdout && g == Stderr
    case ExecPark => true
    case ExecExited(_) => true
    case _ => false
  }

  ghost predicate Looping(pc: ExecPc) { pc.ExecDrain? || pc.ExecWrite? || pc.ExecPark? || pc.ExecExited? }

  ghost predicate ExecInv(cfg: Config, k: Core, c: ChanId, p: Exec) {
    && ExecFile(cfg, k.job, p, Stdout) && ExecFile(cfg, k.job, p, Stderr)
    && (c in k.listeners <==> !p.pc.ExecListen?)
    && (p.pc.ExecWrite? ==>
          var f := p.pc.file;
          var o := k.job.output.At(Source(cfg, f));
          p.pc.chunk <= o[p.off.At(f)..])
    && (Looping(p.pc) && p.sample.Some? ==> k.job.exitCode == p.sample)
    && (Looping(p.pc) && p.sample.None? ==> k.job.exitCode.None? || Wake(k, c))
    && (Passed(p.pc, Stdout) ==> CaughtUp(cfg, k.job, p.off, Stdout) || (p.sample.None? && Wake(k, c)))
    && (Passed(p.pc, Stderr) ==> CaughtUp(cfg, k.job, p.off, Stderr) || (p.sample.None? && Wake(k, c)))
    && (p.pc.ExecPark? ==> p.sample.None?)
    && (p.pc.ExecExited? ==> p.sample == Some(p.pc.code))
  }

  lemma ExecFileStable(cfg: Config, j: JobState, j': JobState, p: Exec, f: Stream)
    requires ExecFile(cfg, j, p, f) && Grew(j, j')
    ensures ExecFile(cfg, j', p, f)
  {
    assert j.output.At(Source(cfg, f)) <= j'.output.At(Source(cfg, f));
  }

  lemma ExecStable(cfg: Config, k: Core, k': Core, c: ChanId, p: Exec)
    requires ExecInv(cfg, k, c, p) && Rely(k, k', c)
    ensures ExecInv(cfg, k', c, p)
  {
    ExecFileStable(cfg, k.job, k'.job, p, Stdout);
    ExecFileStable(cfg, k.job, k'.job, p, Stderr);
    if p.pc.ExecWrite? {
      assert k.job.output.At(Source(cfg, p.pc.file)) <= k'.job.output.At(Source(cfg, p.pc.file));
    }
  }

  lemma ExecListenInv(cfg: Config, k: Core, id: nat, p: Exec, k': Core, p': Exec)
    requires CoreInv(cfg, k) && ExecInv(cfg, k, ChanId(id, Stdout), p) && p.pc.ExecListen?
    requires ExecStep(cfg, k, id, p, ExecGo) == Some((k', p'))
    ensures ExecInv(cfg, k', ChanId(id, Stdout), p') && CoreInv(cfg, k')
    ensures forall d :: d != ChanId(id, Stdout) ==> Rely(k, k', d)
    ensures k'.listeners <= k.listeners + {ChanId(id, Stdout)}
  {
    AddListenerChange(cfg, k, ChanId(id, Stdout), 5, k');
  }

  lemma ExecReceiveInv(cfg: Config, k: Core, id: nat, p: Exec, k': Core, p': Exec)
    requires CoreInv(cfg, k) && ExecInv(cfg, k, ChanId(id, Stdout), p)
    requires ExecStep(cfg, k, id, p, ExecReceive) == Some((k', p'))
    ensures ExecInv(cfg, k', ChanId(id, Stdout), p') && CoreInv(cfg, k')
    ensures forall d :: d != ChanId(id, Stdout) ==> Rely(k, k', d)
    ensures k'.listeners <= k.listeners + {ChanId(id, Stdout)}
  {
    ReceiveChange(cfg, k, ChanId(id, Stdout), k');
  }

  lemma ExecWriteFile(cfg: Config, j: JobState, p: Exec, p': Exec)
    requires p.pc.ExecWrite? && ExecFile(cfg, j, p, Stdout) && ExecFile(cfg, j, p, Stderr)
    requires p.pc.chunk <= j.output.At(Source(cfg, p.pc.file))[p.off.At(p.pc.file)..]
    requires p'.files == p.files.Set(p.pc.file, p.files.At(p.pc.file) + p.pc.chunk)
    requires p'.off == p.off.Set(p.pc.file, p.off.At(p.pc.file) + |p.pc.chunk|) && !p'.pc.ExecFailed?
    ensures ExecFile(cfg, j, p', Stdout) && ExecFile(cfg, j, p', Stderr)
  {
    var f, b := p.pc.file, p.pc.chunk;
    var o, n := j.output.At(Source(cfg, f)), p.off.At(f);
    assert o[n..][..|b|] == o[n..n + |b|];
    assert o[..n] + b == o[..n + |b|];
    assert ExecFile(cfg, j, p', f) && ExecFile(cfg, j, p', f.Other());
  }

  lemma ExecWriteFailsFile(cfg: Config, j: JobState, p: Exec, n: nat, p': Exec)
    requires p.pc.ExecWrite? && ExecFile(cfg, j, p, Stdout) && ExecFile(cfg, j, p, Stderr) && n <= |p.pc.chunk|
    requires p.pc.chunk <= j.output.At(Source(cfg, p.pc.file))[p.off.At(p.pc.file)..]
    requires p' == p.(files := p.files.Set(p.pc.file, p.files.At(p.pc.file) + p.pc.chunk[..n]), pc := ExecFailed)
    ensures ExecFile(cfg, j, p', Stdout) && ExecFile(cfg, j, p', Stderr)
  {
    var f, b := p.pc.file, p.pc.chunk;
    var o, m := j.output.At(Source(cfg, f)), p.off.At(f);
    assert b[..n] == o[m..m + n];
    assert p'.files.At(f) == o[..m + n];
    assert ExecFile(cfg, j, p', f) && ExecFile(cfg, j, p', f.Other());
  }

  lemma ExecWriteInv(cfg: Config, k: Core, id: nat, p: Exec, a: ExecAct, k': Core, p': Exec)
    requires ExecInv(cfg, k, ChanId(id, Stdout), p) && p.pc.ExecWrite?
    requires ExecStep(cfg, k, id, p, a) == Some((k', p'))
    ensures k' == k && ExecInv(cfg, k, ChanId(id, Stdout), p')
  {
    if a.ExecWrote? {
      ExecWriteFile(cfg, k.job, p, p');
    } else {
      ExecWriteFailsFile(cfg, k.job, p, a.n, p');
    }
  }

  lemma ExecDrainInv(cfg: Config, k: Core, id: nat, p: Exec, a: ExecAct, k': Core, p': Exec)
    requires ExecInv(cfg, k, ChanId(id, Stdout), p) && p.pc.ExecDrain?
    requires ExecStep(cfg, k, id, p, a) == Some((k', p'))
    ensures k' == k && ExecInv(cfg, k, ChanId(id, Stdout), p')
  {
    var f := p.pc.file;
    var o, n := k.job.output.At(Source(cfg, f)), p.off.At(f);
    var r := ReadOutput(k.job, Source(cfg, f), CHUNK, n);
    assert o[n..][..|r.data|] == r.data;
    assert r.data == [] ==> CaughtUp(cfg, k.job, p'.off, f);
    assert ExecFile(cfg, k.job, p', f) && ExecFile(cfg, k.job, p', f.Other());
  }

  /** Sampling, draining, writing and leaving do not touch the job. */
  lemma ExecLocalInv(cfg: Config, k: Core, id: nat, p: Exec, a: ExecAct, k': Core, p': Exec)
    requires ExecInv(cfg, k, ChanId(id, Stdout), p) && !p.pc.ExecListen? && !a.ExecReceive?
    requires ExecStep(cfg, k, id, p, a) == Some((k', p'))
    ensures k' == k && ExecInv(cfg, k, ChanId(id, Stdout), p')
  {
    if p.pc.ExecWrite? {
      ExecWriteInv(cfg, k, id, p, a, k', p');
    } else if p.pc.ExecDrain? {
      ExecDrainInv(cfg, k, id, p, a, k', p');
    }
  }
}
