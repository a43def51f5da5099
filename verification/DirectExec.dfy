/** The direct-exec loop as imperative code: poll the exit code, drain both outputs, wait. */
module DirectExec {
  import opened Basics
  import opened ClientProofs
  import opened JobData
  import opened JobObject
  import opened JobSystem
  import opened Streaming

  /** What a drain from `lo` has written when it is at `next`: the output up to there, and
      after a failed write perhaps part of the next chunk. */
  ghost predicate WrittenOut(o: seq<byte>, lo: nat, next: nat, w: seq<byte>, failed: bool) {
    && lo <= next <= |o| && next - lo <= |w| <= |o| - lo
    && w == o[lo..lo + |w|]
    && (!failed ==> |w| == next - lo)
  }

  lemma WrittenOutMore(o0: seq<byte>, o: seq<byte>, lo: nat, offset: nat, w: seq<byte>, n: nat, chunk: seq<byte>,
                       k: nat)
    requires WrittenOut(o0, lo, offset, w, false) && o0 <= o && offset + n <= |o| && k <= n
    requires chunk == o[offset..offset + n]
    ensures WrittenOut(o, lo, offset, w + chunk[..k], true)
    ensures WrittenOut(o, lo, offset + k, w + chunk[..k], false)
  {
    assert chunk[..k] == o[offset..offset + k];
    NextChunk(o0, o, lo, offset, k, w, chunk[..k]);
  }

  /** One round of drainOutput: a read and, unless it is empty, a write that may fail. */
  method DrainStep(job: Job, from: Stream, buf: array<byte>, lo: nat, offset: nat, written: seq<byte>, world: World,
                   ghost ch: UpdateChan)
    returns (n: nat, more: seq<byte>, failed: bool)
    requires job.Valid() && buf !in job.Repr() && 0 < buf.Length && ch in job.listeners
    requires WrittenOut(job.State().output.At(from), lo, offset, written, false)
    modifies world, job.Repr(), buf
    ensures job.Valid() && Grew(old(job.State()), job.State())
    ensures job.listeners == old(job.listeners)
    ensures fresh(job.Repr() - old(job.Repr())) && buf !in job.Repr()
    ensures WrittenOut(job.State().output.At(from), lo, offset + n, more, failed)
    ensures n == 0 && !failed ==> offset == |job.State().output.At(from)|
    ensures failed ==> n == 0
    ensures job.Notified(ch, old(ch.buf), job.State() != old(job.State()))
    ensures old(world.plan) == [] ==> world.plan == [] && job.State() == old(job.State()) && ch.buf == old(ch.buf)
    ensures old(world.plan) != [] ==> |world.plan| < |old(world.plan)|
  {
    ghost var o := job.State().output.At(from);
    var code, k;
    n, code, failed := ReadNext(job, from, world, buf, offset);
    k, failed := n, false;
    if n > 0 {
      k, failed := world.Write(n);
    }
    WrittenOutMore(o, job.State().output.At(from), lo, offset, written, n, buf[..n], k);
    more := written + buf[..n][..k];
    n := if failed then 0 else n;
  }

  /** drainOutput from one job stream, up to an empty read or a failed write. What it writes is
      exactly the output from the start offset to the offset it returns, which without a
      failure is the end of the output; a failed write may add part of one more chunk. */
  method DrainOutput(job: Job, from: Stream, buf: array<byte>, startOffset: nat, world: World, ghost ch: UpdateChan)
    returns (nextOffset: nat, written: seq<byte>, failed: bool)
    requires job.Valid() && buf !in job.Repr() && 0 < buf.Length && ch in job.listeners
    requires startOffset <= |job.State().output.At(from)|
    modifies world, job.Repr(), buf
    ensures job.Valid() && Grew(old(job.State()), job.State())
    ensures job.listeners == old(job.listeners)
    ensures fresh(job.Repr() - old(job.Repr())) && buf !in job.Repr()
    ensures WrittenOut(job.State().output.At(from), startOffset, nextOffset, written, failed)
    ensures !failed ==> nextOffset == |job.State().output.At(from)|
    ensures job.Notified(ch, old(ch.buf), job.State() != old(job.State()))
    ensures |world.plan| <= |old(world.plan)|
    ensures old(world.plan) == [] ==> job.State() == old(job.State()) && ch.buf == old(ch.buf)
  {
    nextOffset := startOffset;
    var n;
    n, written, failed := DrainStep(job, from, buf, startOffset, nextOffset, [], world, ch);
    nextOffset := nextOffset + n;
    while n != 0
      invariant job.Valid() && job.listeners == old(job.listeners)
      invariant fresh(job.Repr() - old(job.Repr())) && buf !in job.Repr()
      invariant Grew(old(job.State()), job.State())
      invariant WrittenOut(job.State().output.At(from), startOffset, nextOffset, written, failed)
      invariant n == 0 && !failed ==> nextOffset == |job.State().output.At(from)|
      invariant failed ==> n == 0
      invariant job.Notified(ch, old(ch.buf), job.State() != old(job.State()))
      invariant |world.plan| <= |old(world.plan)|
      invariant old(world.plan) == [] ==> job.State() == old(job.State()) && ch.buf == old(ch.buf)
      decreases n != 0, |world.plan|, |job.State().output.At(from)| - nextOffset
    {
      n, written, failed := DrainStep(job, from, buf, startOffset, nextOffset, written, world, ch);
      nextOffset := nextOffset + n;
    }
  }

  // ---------------------------------------------------------------- both files

  /** What both files hold, after a failed write or without one. */
  ghost predicate Files(cfg: Config, j: JobState, off: Both<nat>, files: Both<seq<byte>>, failed: bool) {
    if failed then Partly(cfg, j, off, files, Stdout) && Partly(cfg, j, off, files, Stderr)
    else Copied(cfg, j, off, files, Stdout) && Copied(cfg, j, off, files, Stderr)
  }

  ghost predicate Complete(cfg: Config, j: JobState, files: Both<seq<byte>>) {
    files == Both(j.output.At(Source(cfg, Stdout)), j.output.At(Source(cfg, Stderr)))
  }

  lemma FilesGrow(cfg: Config, j: JobState, j': JobState, off: Both<nat>, files: Both<seq<byte>>)
    requires Files(cfg, j, off, files, false) && Grew(j, j')
    ensures Files(cfg, j', off, files, false)
  {
    assert j.output.At(Source(cfg, Stdout)) <= j'.output.At(Source(cfg, Stdout));
    assert j.output.At(Source(cfg, Stderr)) <= j'.output.At(Source(cfg, Stderr));
  }

  lemma FilesMore(cfg: Config, j: JobState, f: Stream, off: Both<nat>, files: Both<seq<byte>>, next: nat, w: seq<byte>,
                  failed: bool)
    requires Files(cfg, j, off, files, false)
    requires WrittenOut(j.output.At(Source(cfg, f)), off.At(f), next, w, failed)
    ensures Files(cfg, j, off.Set(f, next), files.Set(f, files.At(f) + w), failed)
  {
    var o, g := j.output.At(Source(cfg, f)), f.Other();
    var off', files' := off.Set(f, next), files.Set(f, files.At(f) + w);
    assert files'.At(f) == o[..off.At(f) + |w|];
    assert Copied(cfg, j, off, files, g) && off'.At(g) == off.At(g) && files'.At(g) == files.At(g);
    if failed {
      assert Partly(cfg, j, off', files', f) && Partly(cfg, j, off', files', g);
    } else {
      assert Copied(cfg, j, off', files', f) && Copied(cfg, j, off', files', g);
    }
  }

  lemma CompleteWhen(cfg: Config, j: JobState, off: Both<nat>, files: Both<seq<byte>>)
    requires Files(cfg, j, off, files, false) && CaughtUp(cfg, j, off, Stdout) && CaughtUp(cfg, j, off, Stderr)
    ensures Complete(cfg, j, files)
  {
    var o, e := j.output.At(Source(cfg, Stdout)), j.output.At(Source(cfg, Stderr));
    assert files.At(Stdout) == o[..off.At(Stdout)] && files.At(Stderr) == e[..off.At(Stderr)];
    assert o[..|o|] == o && e[..|e|] == e;
  }

  /** drainOutput for one file, in terms of what both files hold. */
  method DrainFile(cfg: Config, job: Job, f: Stream, buf: array<byte>, off: Both<nat>, files: Both<seq<byte>>,
                   world: World, ghost ch: UpdateChan)
    returns (nextOff: Both<nat>, nextFiles: Both<seq<byte>>, failed: bool)
    requires job.Valid() && buf !in job.Repr() && 0 < buf.Length && ch in job.listeners
    requires Files(cfg, job.State(), off, files, false)
    modifies world, job.Repr(), buf
    ensures job.Valid() && Grew(old(job.State()), job.State())
    ensures job.listeners == old(job.listeners)
    ensures fresh(job.Repr() - old(job.Repr())) && buf !in job.Repr()
    ensures Files(cfg, job.State(), nextOff, nextFiles, failed)
    ensures nextOff.At(f.Other()) == off.At(f.Other())
    ensures !failed ==> CaughtUp(cfg, job.State(), nextOff, f)
    ensures ch.buf == [] ==> old(ch.buf) == []
    ensures ch.buf == [] || old(job.State()).exitCode.Some? ==> job.State() == old(job.State())
    ensures |world.plan| <= |old(world.plan)|
    ensures old(world.plan) == [] ==> job.State() == old(job.State()) && ch.buf == old(ch.buf)
  {
    var next, w;
    assert off.At(f) <= |job.State().output.At(Source(cfg, f))|;
    next, w, failed := DrainOutput(job, Source(cfg, f), buf, off.At(f), world, ch);
    FilesGrow(cfg, old(job.State()), job.State(), off, files);
    FilesMore(cfg, job.State(), f, off, files, next, w, failed);
    nextOff, nextFiles := off.Set(f, next), files.Set(f, files.At(f) + w);
  }

  /** The second drain leaves the first file as it was. */
  lemma BothCaughtUp(cfg: Config, j0: JobState, j: JobState, off1: Both<nat>, off: Both<nat>, files: Both<seq<byte>>)
    requires j == j0 && CaughtUp(cfg, j0, off1, Stdout) && off.At(Stdout) == off1.At(Stdout)
    requires CaughtUp(cfg, j, off, Stderr) && Files(cfg, j, off, files, false)
    ensures Complete(cfg, j, files)
  {
    CompleteWhen(cfg, j, off, files);
  }

  /** Both drains. If the exit code was set before, or if no update has come in since, both
      files are complete. */
  method DrainFiles(cfg: Config, job: Job, buf: array<byte>, off: Both<nat>, files: Both<seq<byte>>,
                    world: World, ghost ch: UpdateChan)
    returns (nextOff: Both<nat>, nextFiles: Both<seq<byte>>, failed: bool)
    requires job.Valid() && buf !in job.Repr() && 0 < buf.Length && ch in job.listeners
    requires Files(cfg, job.State(), off, files, false)
    modifies world, job.Repr(), buf
    ensures job.Valid() && Grew(old(job.State()), job.State())
    ensures job.listeners == old(job.listeners)
    ensures fresh(job.Repr() - old(job.Repr())) && buf !in job.Repr()
    ensures Files(cfg, job.State(), nextOff, nextFiles, failed)
    ensures !failed && (old(job.State()).exitCode.Some? || ch.buf == []) ==>
      job.State() == old(job.State()) && Complete(cfg, job.State(), nextFiles)
    ensures |world.plan| <= |old(world.plan)|
    ensures old(world.plan) == [] ==> job.State() == old(job.State()) && ch.buf == old(ch.buf)
  {
    ghost var j0 := job.State();
    nextOff, nextFiles, failed := DrainFile(cfg, job, Stdout, buf, off, files, world, ch);
    ghost var off1 := nextOff;
    if !failed {
      nextOff, nextFiles, failed := DrainFile(cfg, job, Stderr, buf, nextOff, nextFiles, world, ch);
      if !failed && (j0.exitCode.Some? || ch.buf == []) {
        BothCaughtUp(cfg, j0, job.State(), off1, nextOff, nextFiles);
      }
    }
  }

  // ---------------------------------------------------------------- the loop

  /** How runDirectExec ends; Parked is a schedule that leaves it waiting for good. */
  datatype ExecEnd = Exits(code: int) | Fails | Interrupted | Parked

  /** Sample the exit code, after whatever the job did meanwhile. */
  method Sample(cfg: Config, job: Job, world: World, ghost ch: UpdateChan, ghost buf: array<byte>,
                ghost off: Both<nat>, ghost files: Both<seq<byte>>)
    returns (sample: Option<int>)
    requires job.Valid() && buf !in job.Repr() && ch in job.listeners && Files(cfg, job.State(), off, files, false)
    modifies world, job.Repr()
    ensures job.Valid() && Grew(old(job.State()), job.State()) && sample == job.State().exitCode
    ensures job.listeners == old(job.listeners)
    ensures fresh(job.Repr() - old(job.Repr())) && buf !in job.Repr()
    ensures Files(cfg, job.State(), off, files, false)
    ensures |world.plan| <= |old(world.plan)|
    ensures old(world.plan) == [] ==> job.State() == old(job.State()) && ch.buf == old(ch.buf)
    ensures old(world.plan) != [] ==> |world.plan| < |old(world.plan)|
  {
    world.Step(job);
    sample := job.ExitCode();
    FilesGrow(cfg, old(job.State()), job.State(), off, files);
  }

  /** One round of the loop: the exit code is sampled before the two drains, so if it was
      set, or if no update has come in since, both files are complete. */
  method Round(cfg: Config, job: Job, buf: array<byte>, off: Both<nat>, files: Both<seq<byte>>, world: World,
               ghost ch: UpdateChan)
    returns (sample: Option<int>, nextOff: Both<nat>, nextFiles: Both<seq<byte>>, failed: bool)
    requires job.Valid() && buf !in job.Repr() && 0 < buf.Length && ch in job.listeners
    requires Files(cfg, job.State(), off, files, false)
    modifies world, job.Repr(), buf
    ensures job.Valid() && Grew(old(job.State()), job.State())
    ensures job.listeners == old(job.listeners)
    ensures fresh(job.Repr() - old(job.Repr())) && buf !in job.Repr()
    ensures Files(cfg, job.State(), nextOff, nextFiles, failed)
    ensures old(world.plan) == [] ==> world.plan == [] && job.State() == old(job.State()) && ch.buf == old(ch.buf)
    ensures old(world.plan) != [] ==> |world.plan| < |old(world.plan)|
    ensures !failed && (sample.Some? || ch.buf == []) ==>
      job.State().exitCode == sample && Complete(cfg, job.State(), nextFiles)
  {
    sample := Sample(cfg, job, world, ch, buf, off, files);
    nextOff, nextFiles, failed := DrainFiles(cfg, job, buf, off, files, world, ch);
  }

  /** The select of the loop: any update leads to another round, a signal leaves it. */
  method AwaitAny(cfg: Config, job: Job, ch: UpdateChan, world: World, ghost buf: array<byte>, ghost off: Both<nat>,
                  ghost files: Both<seq<byte>>)
    returns (end: WaitEnd)
    requires job.Valid() && ch in job.listeners && buf !in job.Repr() && Files(cfg, job.State(), off, files, false)
    modifies world, job.Repr()
    ensures job.Valid() && Grew(old(job.State()), job.State()) && buf !in job.Repr()
    ensures job.listeners == old(job.listeners) && fresh(job.Repr() - old(job.Repr()))
    ensures Files(cfg, job.State(), off, files, false)
    ensures |world.plan| <= |old(world.plan)|
    ensures old(world.plan) == [] && end == Woken ==> |ch.buf| < |old(ch.buf)|
    ensures end == WaitBlocked ==> job.State() == old(job.State()) && old(ch.buf) == []
  {
    end := AwaitUpdate(job, ch, world);
    FilesGrow(cfg, old(job.State()), job.State(), off, files);
  }

  /** What the way the loop was left says about the job and the files. */
  ghost predicate ExecResult(cfg: Config, end: ExecEnd, j: JobState, files: Both<seq<byte>>) {
    match end
    case Exits(code) => j.exitCode == Some(code) && Complete(cfg, j, files)
    case Parked => j.exitCode.None? && Complete(cfg, j, files)
    case _ => true
  }

  /** The body of the loop. None means another iteration follows. */
  method Iterate(cfg: Config, job: Job, buf: array<byte>, off: Both<nat>, files: Both<seq<byte>>, world: World,
                 ch: UpdateChan)
    returns (end: Option<ExecEnd>, nextOff: Both<nat>, nextFiles: Both<seq<byte>>)
    requires job.Valid() && buf !in job.Repr() && 0 < buf.Length && ch in job.listeners
    requires Files(cfg, job.State(), off, files, false)
    modifies world, job.Repr(), buf
    ensures job.Valid() && Grew(old(job.State()), job.State()) && buf !in job.Repr()
    ensures job.listeners == old(job.listeners) && fresh(job.Repr() - old(job.Repr()))
    ensures Files(cfg, job.State(), nextOff, nextFiles, end == Some(Fails))
    ensures end.Some? ==> ExecResult(cfg, end.value, job.State(), nextFiles)
    ensures old(world.plan) == [] ==> world.plan == []
    ensures old(world.plan) != [] ==> |world.plan| < |old(world.plan)|
    ensures old(world.plan) == [] && end.None? ==> |ch.buf| < |old(ch.buf)|
  {
    var sample, failed;
    sample, nextOff, nextFiles, failed := Round(cfg, job, buf, off, files, world, ch);
    if failed {
      end := Some(Fails);
    } else if sample.Some? {
      end := Some(Exits(sample.value));
    } else {
      var woken := AwaitAny(cfg, job, ch, world, buf, nextOff, nextFiles);
      end := if woken == WaitCtx then Some(Interrupted) else if woken == WaitBlocked then Some(Parked) else None;
    }
  }

  lemma PrefixFiles(cfg: Config, j: JobState, off: Both<nat>, files: Both<seq<byte>>, failed: bool)
    requires Files(cfg, j, off, files, failed)
    ensures forall f: Stream :: files.At(f) <= j.output.At(Source(cfg, f))
  {
    forall f: Stream
      ensures files.At(f) <= j.output.At(Source(cfg, f))
    {
      assert if failed then Partly(cfg, j, off, files, f) else Copied(cfg, j, off, files, f);
    }
  }

  /** runDirectExec, under any interference. The files hold prefixes of their sources however
      it ends. Leaving with the exit code, they hold all of them and the code is the job's.
      Parked for good, they hold everything and there is no exit code: the five-slot channel
      never misses it. */
  method RunDirectExec(cfg: Config, job: Job, world: World) returns (end: ExecEnd, files: Both<seq<byte>>)
    requires job.Valid()
    modifies world, job.Repr()
    ensures job.Valid() && Grew(old(job.State()), job.State())
    ensures end.Exits? ==> job.State().exitCode == Some(end.code)
    ensures end == Parked ==> job.State().exitCode.None?
    ensures end.Exits? || end == Parked ==> Complete(cfg, job.State(), files)
    ensures forall f: Stream :: files.At(f) <= job.State().output.At(Source(cfg, f))
  {
    var updateCh := new UpdateChan(5);
    job.AddUpdateListener(updateCh);
    var buf := new byte[CHUNK];
    var off := Both(0, 0);
    files := Both([], []);
    var left: Option<ExecEnd> := None;
    while left.None?
      invariant job.Valid() && job.listeners == old(job.listeners) + {updateCh}
      invariant fresh(job.Repr() - old(job.Repr())) && buf !in job.Repr()
      invariant Grew(old(job.State()), job.State())
      invariant Files(cfg, job.State(), off, files, left == Some(Fails))
      invariant left.Some? ==> ExecResult(cfg, left.value, job.State(), files)
      decreases left.None?, |world.plan|, |updateCh.buf|
    {
      left, off, files := Iterate(cfg, job, buf, off, files, world, updateCh);
    }
    end := left.value;
    PrefixFiles(cfg, job.State(), off, files, end == Fails);
  }
}
