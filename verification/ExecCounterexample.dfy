/** direct-exec as written crosses the two streams: a concrete family of runs. */
module ExecCounterexample {
  import opened Basics
  import opened JobData
  import opened JobRuns
  import opened JobSystem
  import opened SystemProofs

  /** A system whose only client is direct-exec loop 0. */
  function Loop(k: Core, p: Exec): State { State(k, map[0 := Execs(p)]) }

  /** One step of loop 0. */
  lemma Advance(k: Core, p: Exec, a: ExecAct, k': Core, p': Exec)
    requires Reachable(AS_WRITTEN, Loop(k, p)) && ExecStep(AS_WRITTEN, k, 0, p, a) == Some((k', p'))
    ensures Reachable(AS_WRITTEN, Loop(k', p'))
  {
    assert map[0 := Execs(p)][0 := Execs(p')] == map[0 := Execs(p')];
    ReachableStep(AS_WRITTEN, Loop(k, p), ExecDo(0, a), Loop(k', p'));
  }

  /** The child writes one chunk to its stdout and exits. */
  lemma ChildRuns(a: seq<byte>, code: int) returns (k: Core)
    requires 1 <= |a| <= 1024
    ensures Reachable(AS_WRITTEN, State(k, map[])) && k.lock.Unlocked?
    ensures k.job == JobState(Both(a, []), Some(code))
  {
    assert Run(AS_WRITTEN, INIT, []) == Some(INIT);
    var s := Publish(AS_WRITTEN, INIT, Stdout, a, true);
    assert [] + a == a;
    s := FinishQuiet(AS_WRITTEN, s, code);
    k := s.core;
    assert s == State(k, map[]);
  }

  /** The loop registers, samples the exit code and finds nothing for os.Stdout. */
  lemma Begins(k0: Core, a: seq<byte>, code: int) returns (k: Core)
    requires Reachable(AS_WRITTEN, State(k0, map[])) && k0.lock.Unlocked?
    requires k0.job == JobState(Both(a, []), Some(code))
    ensures k.lock.Unlocked? && k.job == k0.job
    ensures Reachable(AS_WRITTEN, Loop(k, NEW_EXEC.(sample := Some(code), pc := ExecDrain(Stderr))))
  {
    var c := ChanId(0, Stdout);
    assert map[][0 := Execs(NEW_EXEC)] == map[0 := Execs(NEW_EXEC)];
    ReachableStep(AS_WRITTEN, State(k0, map[]), SpawnExec(0), Loop(k0, NEW_EXEC));
    k := k0.(listeners := k0.listeners + {c}, chans := k0.chans[c := Chan(5, [])]);
    var p1 := NEW_EXEC.(pc := ExecSample);
    var p2 := NEW_EXEC.(sample := Some(code), pc := ExecDrain(Stdout));
    Advance(k0, NEW_EXEC, ExecGo, k, p1);
    Advance(k, p1, ExecGo, k, p2);
    Advance(k, p2, ExecGo, k, p2.(pc := ExecDrain(Stderr)));
  }

  /** For every chunk the child writes to its stdout there is a run in which direct-exec exits
      with the child's code, having written that chunk to os.Stderr and nothing to os.Stdout. */
  lemma StdoutEndsOnStderr(a: seq<byte>, code: int) returns (t: State)
    requires 1 <= |a| <= 1024
    ensures Reachable(AS_WRITTEN, t) && t.core.job == JobState(Both(a, []), Some(code))
    ensures 0 in t.clients && t.clients[0].Execs?
    ensures t.clients[0].exec.pc == ExecExited(code) && t.clients[0].exec.files == Both([], a)
  {
    var k0 := ChildRuns(a, code);
    var k := Begins(k0, a, code);
    var p0 := NEW_EXEC.(sample := Some(code), pc := ExecDrain(Stderr));
    var p1 := p0.(pc := ExecWrite(Stderr, a));
    var p2 := p0.(off := Both(0, |a|), files := Both([], a));
    assert a[0..|a|] == a && [] + a == a;
    Advance(k, p0, ExecGo, k, p1);
    Advance(k, p1, ExecWrote, k, p2);
    Advance(k, p2, ExecGo, k, p2.(pc := ExecExited(code)));
    t := Loop(k, p2.(pc := ExecExited(code)));
  }
}
