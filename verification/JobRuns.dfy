/** Pieces of concrete runs of the job system, for the lemmas that exhibit a reachable state. */
module JobRuns {
  import opened Basics
  import opened JobData
  import opened JobSystem
  import opened SystemProofs

  /** A pipe reads a chunk, stores it and, with nobody listening, releases the lock. */
  lemma Publish(cfg: Config, s: State, st: Stream, chunk: seq<byte>, last: bool) returns (t: State)
    requires Reachable(cfg, s) && s.core.lock.Unlocked? && s.core.listeners == {}
    requires s.core.pipes.At(st).Reading? && 1 <= |chunk| <= CHUNK
    ensures Reachable(cfg, t)
    ensures t == s.(core := s.core.(
                      job := Append(s.core.job, st, chunk),
                      read := s.core.read.Set(st, s.core.read.At(st) + chunk),
                      pipes := s.core.pipes.Set(st, if last then Ended else Reading)))
  {
    var k0 := s.core;
    var k1 := k0.(read := k0.read.Set(st, k0.read.At(st) + chunk), pipes := k0.pipes.Set(st, Got(chunk, last)));
    var k2 := k1.(job := Append(k0.job, st, chunk), pipes := k0.pipes.Set(st, Publishing(last)),
                  lock := Notifying(ByPipe(st), {}));
    var k3 := k2.(lock := Unlocked, pipes := k0.pipes.Set(st, if last then Ended else Reading));
    ReachableStep(cfg, s, CoreDo(PipeRead(st, chunk, last)), s.(core := k1));
    ReachableStep(cfg, s.(core := k1), CoreDo(PipeAppend(st)), s.(core := k2));
    ReachableStep(cfg, s.(core := k2), CoreDo(Release), s.(core := k3));
    t := s.(core := k3);
  }

  /** Both pipes have ended: the child is reaped and the job marked done. */
  lemma Finish(cfg: Config, s: State, code: int) returns (t: State)
    requires Reachable(cfg, s) && s.core.lock.Unlocked? && s.core.listeners == {} && s.core.waiter.AwaitStdout?
    requires s.core.pipes == Both(Ended, Ended)
    ensures Reachable(cfg, t)
    ensures t == s.(core := s.core.(
                      job := s.core.job.(exitCode := Some(code)), waiter := Finished(code), done := true))
  {
    var k0 := s.core;
    var k1 := k0.(waiter := AwaitExit);
    var k2 := k0.(waiter := HasCode(code));
    var k3 := k0.(job := k0.job.(exitCode := Some(code)), waiter := Marking(code), lock := Cancelling);
    var k4 := k3.(done := true, lock := Notifying(ByWaiter, {}));
    ReachableStep(cfg, s, CoreDo(PipeJoined), s.(core := k0.(waiter := AwaitStderr)));
    ReachableStep(cfg, s.(core := k0.(waiter := AwaitStderr)), CoreDo(PipeJoined), s.(core := k1));
    ReachableStep(cfg, s.(core := k1), CoreDo(Reap(code)), s.(core := k2));
    ReachableStep(cfg, s.(core := k2), CoreDo(SetExit), s.(core := k3));
    ReachableStep(cfg, s.(core := k3), CoreDo(CancelDone), s.(core := k4));
    t := s.(core := k4.(lock := Unlocked, waiter := Finished(code)));
    ReachableStep(cfg, s.(core := k4), CoreDo(Release), t);
  }

  /** The child has closed its stdout and writes nothing to stderr: it exits. */
  lemma FinishQuiet(cfg: Config, s: State, code: int) returns (t: State)
    requires Reachable(cfg, s) && s.core.lock.Unlocked? && s.core.listeners == {} && s.core.waiter.AwaitStdout?
    requires s.core.pipes == Both(Ended, Reading)
    ensures Reachable(cfg, t)
    ensures t == s.(core := s.core.(
                      job := s.core.job.(exitCode := Some(code)), waiter := Finished(code), done := true,
                      pipes := Both(Ended, Ended)))
  {
    var u := s.(core := s.core.(pipes := Both(Ended, Ended)));
    assert s.core.read.stderr + [] == s.core.read.stderr;
    ReachableStep(cfg, s, CoreDo(PipeRead(Stderr, [], true)), u);
    t := Finish(cfg, u, code);
  }
}
