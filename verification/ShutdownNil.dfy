/** What a nil result of Shutdown means for the code as written: when it may be returned with
    jobs still running, and when it may not. */
module ShutdownNil {
  import opened Basics
  import opened JobMap
  import opened Registry
  import opened RegistryProofs
  import opened RegistryTheorems

  ghost predicate Waiting(cfg: Config, s: State, t: nat) {
    Inv(cfg, s) && ShutAt(s, t) == Some(ShutWait)
  }

  function RunningStops(stops: map<JobRef, StopState>): set<JobRef> { set j | j in stops && stops[j].StopRunning? }

  ghost predicate NoClose(acts: seq<Act>, t: nat) { CloseCtx(t) !in acts }

  /** One enabled step, then the rest of a schedule. */
  lemma Then(s: State, t: nat, a: Act, u: State, rest: seq<Act>, v: State) returns (acts: seq<Act>)
    requires !s.panicked && IsShut(a) && a != CloseCtx(t) && ShutStep(AS_WRITTEN, s, a) == Some(u)
    requires Run(AS_WRITTEN, u, rest) == Some(v) && NoClose(rest, t)
    ensures Run(AS_WRITTEN, s, acts) == Some(v) && NoClose(acts, t)
  {
    acts := [a] + rest;
    RunCons(AS_WRITTEN, s, a, u, rest, v);
  }

  /** The call wakes up with the wait group done, and returns nil. */
  lemma WakesToNil(s: State, t: nat) returns (acts: seq<Act>, u: State)
    requires !s.panicked && ShutAt(s, t) == Some(ShutWait) && s.calls[t].wgDone
    ensures Run(AS_WRITTEN, s, acts) == Some(u) && NoClose(acts, t)
    ensures ShutAt(u, t) == Some(ShutReturned(ShutNil)) && u.finished == s.finished && u.taken == s.taken
  {
    var v := SetShut(s, t, ShutCheck);
    u := SetShut(v, t, ShutReturned(ShutNil));
    acts := Then(v, t, ShutReturn(t), u, [], u);
    acts := Then(s, t, ShutWake(t), v, acts, u);
  }

  lemma ReturnsNil(s: State, t: nat) returns (acts: seq<Act>, u: State)
    requires !s.panicked && ShutAt(s, t) == Some(ShutWait) && AllReturned(s.calls[t].stops)
    ensures Run(AS_WRITTEN, s, acts) == Some(u) && NoClose(acts, t)
    ensures ShutAt(u, t) == Some(ShutReturned(ShutNil)) && u.finished == s.finished && u.taken == s.taken
  {
    var v := s.(calls := s.calls[t := s.calls[t].(wgDone := true)]);
    acts, u := WakesToNil(v, t);
    acts := Then(s, t, WaitGroupDone(t), v, acts, u);
  }

  /** With the context closed, one more Stop returns because of it. */
  lemma OneMoreStop(s: State, t: nat, j: JobRef) returns (u: State)
    requires Waiting(AS_WRITTEN, s, t) && s.calls[t].ctxClosed && j in RunningStops(s.calls[t].stops)
    ensures ShutStep(AS_WRITTEN, s, StopReturns(t, j, true)) == Some(u)
    ensures Waiting(AS_WRITTEN, u, t) && u.calls[t].ctxClosed && u.finished == s.finished && u.taken == s.taken
    ensures RunningStops(u.calls[t].stops) == RunningStops(s.calls[t].stops) - {j}
  {
    var c := s.calls[t];
    u := s.(calls := s.calls[t := c.(stops := c.stops[j := StopByCtx])]);
    assert Step(AS_WRITTEN, s, StopReturns(t, j, true)) == Some(u);
    StepInv(AS_WRITTEN, s, StopReturns(t, j, true), u);
  }

  /** As written, once the context is closed every Stop may return because of it, and the
      call then returns nil whatever the jobs are doing. */
  lemma {:induction false} NilDespiteRunning(s: State, t: nat) returns (acts: seq<Act>, u: State)
    requires Waiting(AS_WRITTEN, s, t) && s.calls[t].ctxClosed
    ensures Run(AS_WRITTEN, s, acts) == Some(u) && NoClose(acts, t)
    ensures ShutAt(u, t) == Some(ShutReturned(ShutNil)) && u.finished == s.finished && u.taken == s.taken
    decreases RunningStops(s.calls[t].stops)
  {
    var stops := s.calls[t].stops;
    if RunningStops(stops) == {} {
      assert forall j :: j in stops ==> j !in RunningStops(stops);
      acts, u := ReturnsNil(s, t);
    } else {
      var j :| j in RunningStops(stops);
      var v := OneMoreStop(s, t, j);
      acts, u := NilDespiteRunning(v, t);
      acts := Then(s, t, StopReturns(t, j, true), v, acts, u);
    }
  }

  /** The passing call while its context is open, or after all its jobs have finished. */
  ghost predicate Trustworthy(cfg: Config, s: State, t: nat) {
    && Inv(cfg, s) && s.taken.Some? && ShutAt(s, t).Some?
    && (!s.calls[t].ctxClosed || AllFinished(s))
  }

  lemma CtxKeptByShut(cfg: Config, s: State, t: nat, a: Act, s': State)
    requires ShutAt(s, t).Some? && a != CloseCtx(t) && IsShut(a) && ShutStep(cfg, s, a) == Some(s')
    ensures ShutAt(s', t).Some? && s'.calls[t].ctxClosed == s.calls[t].ctxClosed
  {
    ShutShape(cfg, s, a, s');
  }

  lemma CtxKept(cfg: Config, s: State, t: nat, a: Act, s': State)
    requires Inv(cfg, s) && s.taken.Some? && ShutAt(s, t).Some? && a != CloseCtx(t) && Step(cfg, s, a) == Some(s')
    ensures ShutAt(s', t).Some? && s'.calls[t].ctxClosed == s.calls[t].ctxClosed
  {
    if IsSubmit(a) {
      SubmitSafe(cfg, s, a, s');
      SubmitShape(s, a, s');
    } else if IsGet(a) {
      GetSafe(cfg, s, a, s');
      GetShape(cfg, s, a, s');
    } else if IsShut(a) {
      CtxKeptByShut(cfg, s, t, a, s');
    }
  }

  lemma {:induction false} TrustworthyRun(cfg: Config, s: State, t: nat, acts: seq<Act>, u: State)
    requires Trustworthy(cfg, s, t) && Run(cfg, s, acts) == Some(u) && NoClose(acts, t)
    ensures Trustworthy(cfg, u, t)
    decreases |acts|
  {
    if acts != [] {
      var v := Step(cfg, s, acts[0]).value;
      StepInv(cfg, s, acts[0], v);
      FrozenStep(cfg, s, acts[0], v);
      CtxKept(cfg, s, t, acts[0], v);
      assert NoClose(acts[1..], t);
      TrustworthyRun(cfg, v, t, acts[1..], u);
    }
  }

  /** The exact condition for the documented meaning of nil, for the code as written. From a
      call that waits for its jobs, and over all continuations that do not close its context,
      nil implies that all jobs have finished if and only if the context is open or they have
      finished already. */
  lemma NilMeansFinishedIff(s: State, t: nat)
    requires Reachable(AS_WRITTEN, s) && ShutAt(s, t) == Some(ShutWait)
    ensures
      (forall acts, u |
         Run(AS_WRITTEN, s, acts) == Some(u) && NoClose(acts, t)
         && ShutAt(u, t) == Some(ShutReturned(ShutNil)) :: AllFinished(u))
      <==> (!s.calls[t].ctxClosed || AllFinished(s))
  {
    ReachableInv(AS_WRITTEN, s);
    assert ShutInv(AS_WRITTEN, s, t, s.calls[t]);
    if !s.calls[t].ctxClosed || AllFinished(s) {
      forall acts, u | Run(AS_WRITTEN, s, acts) == Some(u) && NoClose(acts, t)
                       && ShutAt(u, t) == Some(ShutReturned(ShutNil))
        ensures AllFinished(u)
      {
        TrustworthyRun(AS_WRITTEN, s, t, acts, u);
        assert ShutInv(AS_WRITTEN, u, t, u.calls[t]);
      }
    } else {
      var acts, u := NilDespiteRunning(s, t);
      assert Run(AS_WRITTEN, s, acts) == Some(u) && NoClose(acts, t) && !AllFinished(u);
    }
  }
}
