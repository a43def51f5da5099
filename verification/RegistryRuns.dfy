/** Concrete runs of the registry as written: the failing inputs of its properties. */
module RegistryRuns {
  import opened Basics
  import opened JobMap
  import opened LockTheorems
  import opened Registry
  import opened RegistryProofs
  import opened RegistryTheorems
  import opened ShutdownNil

  const REF := JobRef("", "a", 0)

  lemma SubmitReaches(s: State, a: Act, t: State)
    requires Reachable(AS_WRITTEN, s) && !s.panicked && IsSubmit(a) && SubmitStep(s, a) == Some(t)
    ensures Reachable(AS_WRITTEN, t)
  {
    ReachableStep(AS_WRITTEN, s, a, t);
  }

  lemma GetReaches(s: State, a: Act, t: State)
    requires Reachable(AS_WRITTEN, s) && !s.panicked && IsGet(a) && GetStep(AS_WRITTEN, s, a) == Some(t)
    ensures Reachable(AS_WRITTEN, t)
  {
    ReachableStep(AS_WRITTEN, s, a, t);
  }

  lemma ShutReaches(s: State, a: Act, t: State)
    requires Reachable(AS_WRITTEN, s) && !s.panicked && IsShut(a) && ShutStep(AS_WRITTEN, s, a) == Some(t)
    ensures Reachable(AS_WRITTEN, t)
  {
    ReachableStep(AS_WRITTEN, s, a, t);
  }

  /** Submission 0 of "a" holds its placeholder. */
  lemma OneIdHeld() returns (s: State)
    ensures Reachable(AS_WRITTEN, s) && !s.panicked && Sub(s, 0) == Some(SubReserved("a"))
    ensures s.calls == map[0 := s.calls[0]] && s.calls[0].ns == "" && s.jobs.Some? && "" in s.jobs.value
    ensures !s.shutdown && s.writer.None? && s.readers == 1 && s.finished == {} && s.gets == 0
    ensures s.passed.None? && s.taken.None?
  {
    assert Run(AS_WRITTEN, INIT, []) == Some(INIT);
    var s0 := INIT.(calls := INIT.calls[0 := Submit("", "a", SubStart)]);
    ReachableStep(AS_WRITTEN, INIT, NewSubmit(0, "", "a"), s0);
    var s1 := SetSub(s0.(readers := 1), 0, SubLocked);
    SubmitReaches(s0, SubLock(0), s1);
    var s2 := SetSub(s1, 0, SubReserve("a"));
    SubmitReaches(s1, SubPickId(0, ""), s2);
    var m := Put(WithNamespace(map[], ""), "", "a", None);
    s := SetSub(s2.(jobs := Some(m), owner := s2.owner[Key("", "a") := 0]), 0, SubReserved("a"));
    SubmitReaches(s2, SubHold(0), s);
  }

  /** It has started its job. */
  lemma OneJobStarted() returns (s: State)
    ensures Reachable(AS_WRITTEN, s) && !s.panicked && Sub(s, 0) == Some(SubStarted("a"))
    ensures s.calls == map[0 := s.calls[0]] && s.calls[0].ns == "" && s.jobs.Some? && "" in s.jobs.value
    ensures !s.shutdown && s.writer.None? && s.readers == 1 && s.finished == {} && s.gets == 0
    ensures s.passed.None? && s.taken.None?
  {
    var s3 := OneIdHeld();
    s := SetSub(s3.(started := s3.started + {REF}), 0, SubStarted("a"));
    SubmitReaches(s3, SubLaunch(0, true), s);
  }

  /** The submission publishes its job and returns it. */
  lemma OneJobSubmitted() returns (s: State)
    ensures Reachable(AS_WRITTEN, s) && !s.panicked && s.calls.Keys == {0} && REF in s.published
    ensures !s.shutdown && s.writer.None? && s.readers == 0 && s.finished == {} && s.gets == 0
    ensures s.jobs.Some? && "" in s.jobs.value && s.taken.None? && s.passed.None?
  {
    var s4 := OneJobStarted();
    var s5 := SetSub(s4.(jobs := Some(Put(s4.jobs.value, "", "a", Some(REF))), published := s4.published + [REF],
                         owner := s4.owner - {Key("", "a")}),
                     0, SubRelease(SubOk(REF)));
    SubmitReaches(s4, SubPublish(0), s5);
    s := SetSub(s5.(readers := 0), 0, SubReturned(SubOk(REF)));
    SubmitReaches(s5, SubUnlock(0), s);
    assert s.published[|s4.published|] == REF;
  }

  /** A new Shutdown call announces itself while no other one waits for the lock. */
  lemma Announces(s: State, t: nat) returns (u: State)
    requires Reachable(AS_WRITTEN, s) && !s.panicked && t !in s.calls && s.writer.None?
    ensures Reachable(AS_WRITTEN, u)
    ensures u == s.(calls := s.calls[t := Shut(ShutPending, false, map[], false)], writer := Some(t))
  {
    var v := s.(calls := s.calls[t := Shut(ShutStart, false, map[], false)]);
    ReachableStep(AS_WRITTEN, s, NewShutdown(t), v);
    u := SetShut(v.(writer := Some(t)), t, ShutPending);
    ShutReaches(v, ShutAnnounce(t), u);
    assert v.calls[t := Shut(ShutPending, false, map[], false)]
        == s.calls[t := Shut(ShutPending, false, map[], false)];
  }

  /** Shutdown call 1 has set the flag and is about to take the map. */
  lemma FlipsWithRunningJob() returns (s: State)
    ensures Reachable(AS_WRITTEN, s) && !s.panicked && ShutAt(s, 1) == Some(ShutSteal) && s.shutdown
    ensures s.writer.None? && s.readers == 0 && s.calls.Keys == {0, 1}
    ensures s.jobs.Some? && s.jobs.value != map[] && REF in s.published && s.finished == {} && s.gets == 0
  {
    var s0 := OneJobSubmitted();
    var s1 := Announces(s0, 1);
    s := SetShut(s1.(writer := None, shutdown := true, passed := Some(1)), 1, ShutSteal);
    ShutReaches(s1, ShutFlip(1), s);
    assert "" in s.jobs.value;
  }

  lemma NoPlaceholdersAt(s: State)
    requires Reachable(AS_WRITTEN, s) && s.shutdown && s.jobs.Some?
    ensures !HasNil(s.jobs.value)
  {
    ReachableInv(AS_WRITTEN, s);
    NoPlaceholders(AS_WRITTEN, s);
  }

  /** It takes the map and waits; its context closes. */
  lemma WaitsForRunningJob() returns (s: State)
    ensures Reachable(AS_WRITTEN, s) && !s.panicked && ShutAt(s, 1) == Some(ShutWait)
    ensures s.calls[1].ctxClosed && !s.calls[1].wgDone
    ensures s.shutdown && s.writer.None? && s.readers == 0 && s.calls.Keys == {0, 1}
    ensures REF in s.published && s.finished == {} && s.gets == 0
  {
    var s3 := FlipsWithRunningJob();
    var m := s3.jobs.value;
    NoPlaceholdersAt(s3);
    var c := Shut(ShutWait, s3.calls[1].ctxClosed, NewStops(m), false);
    var s4 := s3.(jobs := None, taken := Some(m), calls := s3.calls[1 := c]);
    ShutReaches(s3, ShutTake(1), s4);
    s := s4.(calls := s4.calls[1 := c.(ctxClosed := true)]);
    ShutReaches(s4, CloseCtx(1), s);
  }

  /** A concrete failure of the documented meaning of nil: one job is running, the context
      closes, and Shutdown returns nil. */
  lemma NilWithRunningJob() returns (u: State)
    ensures Reachable(AS_WRITTEN, u) && ShutAt(u, 1) == Some(ShutReturned(ShutNil))
    ensures REF in u.published && u.finished == {}
  {
    var s := WaitsForRunningJob();
    ReachableInv(AS_WRITTEN, s);
    var acts;
    acts, u := NilDespiteRunning(s, 1);
    ReachableRun(AS_WRITTEN, s, acts, u);
    NothingPublishedAfterFlag(AS_WRITTEN, s, acts, u);
  }

  /** It wakes up because of the context. */
  lemma Wakes() returns (s: State)
    ensures Reachable(AS_WRITTEN, s) && !s.panicked && ShutAt(s, 1) == Some(ShutCheck)
    ensures s.calls[1].ctxClosed && !s.calls[1].wgDone
    ensures s.shutdown && s.writer.None? && s.readers == 0 && s.calls.Keys == {0, 1}
    ensures REF in s.published && s.finished == {} && s.gets == 0
  {
    var s0 := WaitsForRunningJob();
    s := SetShut(s0, 1, ShutCheck);
    ShutReaches(s0, ShutWake(1), s);
  }

  /** The wait group is not done: the call gives up with the context's error. */
  lemma GivesUp() returns (s: State)
    ensures Reachable(AS_WRITTEN, s) && !s.panicked && ShutAt(s, 1) == Some(ShutReturned(ShutCtxErr))
    ensures s.shutdown && s.writer.None? && s.readers == 0 && s.calls.Keys == {0, 1}
    ensures REF in s.published && s.finished == {} && s.gets == 0
  {
    var s0 := Wakes();
    s := SetShut(s0, 1, ShutReturned(ShutCtxErr));
    ShutReaches(s0, ShutReturn(1), s);
  }

  /** A concrete run of the server's two attempts: the first Shutdown ends with the context's
      error, the second with ErrShutdown, and the job is still running. */
  lemma SecondAttemptFails() returns (s: State)
    ensures Reachable(AS_WRITTEN, s)
    ensures ShutAt(s, 1) == Some(ShutReturned(ShutCtxErr)) && ShutAt(s, 2) == Some(ShutReturned(ShutErrShutdown))
    ensures REF in s.published && REF !in s.finished
  {
    var s0 := GivesUp();
    var s1 := Announces(s0, 2);
    s := SetShut(s1.(writer := None), 2, ShutReturned(ShutErrShutdown));
    ShutReaches(s1, ShutFlip(2), s);
  }

  /** After the flag is set, GetJob call 3 is turned away and still takes the read lock a second
      time as it returns. */
  lemma RefusedGetLeaks() returns (s: State)
    ensures Reachable(AS_WRITTEN, s) && !s.panicked && ShutAt(s, 1) == Some(ShutReturned(ShutCtxErr))
    ensures GetAt(s, 3) == Some(GetReturned(GetErrShutdown))
    ensures s.shutdown && s.writer.None? && s.gets == 1 && 2 !in s.calls
  {
    var s0 := GivesUp();
    var s1 := s0.(calls := s0.calls[3 := Get("", "a", GetStart)]);
    ReachableStep(AS_WRITTEN, s0, NewGet(3, "", "a"), s1);
    var s2 := SetGet(s1.(readers := 1), 3, GetLocked);
    GetReaches(s1, GetLock(3), s2);
    var s3 := SetGet(s2, 3, GetRelease(GetErrShutdown));
    GetReaches(s2, GetTest(3), s3);
    s := SetGet(s3.(readers := 2, gets := 1), 3, GetReturned(GetErrShutdown));
    GetReaches(s3, GetUnlock(3), s);
  }

  /** A concrete run in which the server's second attempt gets no result at all: between the
      two a client has asked for a job, and the second Shutdown waits for the lock forever. */
  lemma SecondAttemptStuck() returns (s: State)
    ensures Reachable(AS_WRITTEN, s) && ShutAt(s, 1) == Some(ShutReturned(ShutCtxErr))
    ensures s.shutdown && s.gets == 1 && ShutAt(s, 2) == Some(ShutPending) && s.writer == Some(2)
    ensures Clogged(s)
  {
    var s0 := RefusedGetLeaks();
    s := Announces(s0, 2);
  }

  /** GetJob call 0 is about to look the ID up. */
  lemma OneGetReads(id: string) returns (s: State)
    ensures Reachable(AS_WRITTEN, s) && s.calls == map[0 := Get("", id, GetReading)]
    ensures s.readers == 1 && s.gets == 0 && !s.panicked && s.writer.None? && s.jobs == Some(map[])
  {
    assert Run(AS_WRITTEN, INIT, []) == Some(INIT);
    var s0 := INIT.(calls := INIT.calls[0 := Get("", id, GetStart)]);
    ReachableStep(AS_WRITTEN, INIT, NewGet(0, "", id), s0);
    var s1 := SetGet(s0.(readers := 1), 0, GetLocked);
    GetReaches(s0, GetLock(0), s1);
    s := SetGet(s1, 0, GetReading);
    GetReaches(s1, GetTest(0), s);
    assert s.calls == map[0 := Get("", id, GetReading)];
  }

  /** A concrete leak: one GetJob on an idle worker returns and leaves the reader count at
      two, with no call inside the lock. */
  lemma OneGetLeaks(id: string) returns (s: State)
    ensures Reachable(AS_WRITTEN, s) && s.gets == 1 && s.readers == 2 && Holders(s) == {}
    ensures GetAt(s, 0) == Some(GetReturned(GetFound(None)))
  {
    var s2 := OneGetReads(id);
    var s3 := SetGet(s2, 0, GetRelease(GetFound(None)));
    GetReaches(s2, GetRead(0), s3);
    s := SetGet(s3.(readers := 2, gets := 1), 0, GetReturned(GetFound(None)));
    GetReaches(s3, GetUnlock(0), s);
    assert Holders(s) == {};
  }
}
