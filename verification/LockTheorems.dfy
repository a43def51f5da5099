/** The balance of the shutdown lock, and who can be kept out by it. */
module LockTheorems {
  import opened Basics
  import opened Registry
  import opened RegistryProofs
  import opened RegistryTheorems

  /** The shutdown lock's reader count is the number of calls in flight that hold it; as
      written every completed GetJob adds two that are never released. */
  lemma LockBalance(cfg: Config, s: State)
    requires Reachable(cfg, s)
    ensures s.readers == |Holders(s)| + if cfg.releaseOnGet then 0 else 2 * s.gets
  {
    ReachableInv(cfg, s);
  }

  /** A waiting Shutdown can take the lock exactly when no call is inside it and, as written,
      no GetJob has ever completed. */
  lemma FlipEnabledIff(cfg: Config, s: State, t: nat)
    requires Reachable(cfg, s) && ShutAt(s, t) == Some(ShutPending)
    ensures Step(cfg, s, ShutFlip(t)).Some? <==> Holders(s) == {} && (cfg.releaseOnGet || s.gets == 0)
  {
    ReachableInv(cfg, s);
    LockBalance(cfg, s);
    assert s.writer == Some(t);
    assert |Holders(s)| == 0 <==> Holders(s) == {};
  }

  // ---------------------------------------------------------------- as written

  /** A GetJob call has completed or is inside the lock: as written it never gives the lock back. */
  ghost predicate Clogged(s: State) {
    0 < s.gets || exists t :: t in s.calls && s.calls[t].Get? && InLock(s.calls[t])
  }

  lemma CloggedReaders(s: State)
    requires LockInv(AS_WRITTEN, s) && Clogged(s)
    ensures s.readers != 0
  {
    if s.gets == 0 {
      var t :| t in s.calls && s.calls[t].Get? && InLock(s.calls[t]);
      assert t in Holders(s);
    }
  }

  /** Entering the lock, leaving it by GetJob's deferred call, and the writer's own steps. */
  predicate Blocked(a: Act) { a.SubLock? || a.GetLock? || a.GetUnlock? || a.ShutAnnounce? || a.ShutFlip? }

  /** Nobody takes the write lock, and an announced writer goes on waiting with nobody let in. */
  ghost predicate Stuck(s: State, a: Act, s': State) {
    && !a.ShutFlip? && s'.shutdown == s.shutdown && s.gets <= s'.gets && s.published <= s'.published
    && (s.writer.Some? ==> s'.writer == s.writer && !Blocked(a))
  }

  lemma StuckShut(s: State, a: Act, s': State)
    requires IsShut(a) && ShutStep(AS_WRITTEN, s, a) == Some(s') && s.readers != 0
    ensures Stuck(s, a, s')
  {
    ShutShape(AS_WRITTEN, s, a, s');
  }

  lemma StuckGet(s: State, a: Act, s': State)
    requires IsGet(a) && GetStep(AS_WRITTEN, s, a) == Some(s')
    ensures Stuck(s, a, s')
  {}

  lemma StuckSubmit(s: State, a: Act, s': State)
    requires IsSubmit(a) && SubmitStep(s, a) == Some(s') && SubFrame(s, a.t, s')
    ensures Stuck(s, a, s')
  {}

  lemma FrameOf(cfg: Config, s: State, a: Act, s': State)
    requires Inv(cfg, s) && IsSubmit(a) && SubmitStep(s, a) == Some(s')
    ensures SubFrame(s, a.t, s')
  {
    SubmitSafe(cfg, s, a, s');
    SubmitShape(s, a, s');
  }

  /** While the lock is clogged no step flips the flag or ends the wait of an announced writer,
      and an announced writer lets no reader in. */
  lemma FlipImpossible(s: State, a: Act, s': State)
    requires Inv(AS_WRITTEN, s) && Clogged(s) && Step(AS_WRITTEN, s, a) == Some(s')
    ensures Stuck(s, a, s')
  {
    assert s.readers != 0 by { CloggedReaders(s); }
    if IsSubmit(a) {
      FrameOf(AS_WRITTEN, s, a, s');
      StuckSubmit(s, a, s');
    } else if IsGet(a) {
      StuckGet(s, a, s');
    } else if IsShut(a) {
      StuckShut(s, a, s');
    }
  }

  lemma GetInside(s: State, a: Act, s': State, t: nat)
    requires IsGet(a) && GetStep(AS_WRITTEN, s, a) == Some(s')
    requires t in s.calls && s.calls[t].Get? && InLock(s.calls[t])
    ensures 0 < s'.gets || (t in s'.calls && s'.calls[t].Get? && InLock(s'.calls[t]))
  {}

  /** A call inside the lock is touched by its own steps only. */
  lemma OtherGetKept(s: State, a: Act, s': State, t: nat)
    requires Inv(AS_WRITTEN, s) && Step(AS_WRITTEN, s, a) == Some(s') && !IsGet(a)
    requires t in s.calls && s.calls[t].Get?
    ensures t in s'.calls && s'.calls[t] == s.calls[t]
  {
    if IsSubmit(a) {
      SubmitSafe(AS_WRITTEN, s, a, s');
      SubmitShape(s, a, s');
    } else if IsShut(a) {
      ShutShape(AS_WRITTEN, s, a, s');
    }
  }

  /** A clogged lock stays clogged. */
  lemma CloggedStep(s: State, a: Act, s': State)
    requires Inv(AS_WRITTEN, s) && Clogged(s) && Step(AS_WRITTEN, s, a) == Some(s')
    ensures Clogged(s')
  {
    FlipImpossible(s, a, s');
    if s.gets == 0 {
      var t :| t in s.calls && s.calls[t].Get? && InLock(s.calls[t]);
      if IsGet(a) {
        GetInside(s, a, s', t);
      } else {
        OtherGetKept(s, a, s', t);
      }
    }
  }

  /** As written, once a GetJob call has entered the lock no Shutdown call ever takes it, before
      or after the flag is set: the flag stays as it is over every continuation. */
  lemma {:induction false} GetBlocksShutdownForever(s: State, acts: seq<Act>, s': State)
    requires Inv(AS_WRITTEN, s) && Clogged(s) && Run(AS_WRITTEN, s, acts) == Some(s')
    ensures Clogged(s') && s'.shutdown == s.shutdown && s.published <= s'.published
    ensures forall i :: 0 <= i < |acts| ==> !acts[i].ShutFlip?
    decreases |acts|
  {
    if acts != [] {
      var u := Step(AS_WRITTEN, s, acts[0]).value;
      StepInv(AS_WRITTEN, s, acts[0], u);
      FlipImpossible(s, acts[0], u);
      CloggedStep(s, acts[0], u);
      GetBlocksShutdownForever(u, acts[1..], s');
      assert forall i :: 1 <= i < |acts| ==> acts[i] == acts[1..][i - 1];
    }
  }

  /** And with a Shutdown waiting, the worker is stuck: over every continuation the writer
      keeps waiting, no call enters and no GetJob in flight returns. */
  lemma {:induction false} WaitingShutdownBlocksAll(s: State, acts: seq<Act>, s': State)
    requires Inv(AS_WRITTEN, s) && Clogged(s) && s.writer.Some?
    requires Run(AS_WRITTEN, s, acts) == Some(s')
    ensures s'.writer == s.writer && s'.shutdown == s.shutdown
    ensures forall i :: 0 <= i < |acts| ==> !Blocked(acts[i])
    decreases |acts|
  {
    if acts != [] {
      var u := Step(AS_WRITTEN, s, acts[0]).value;
      StepInv(AS_WRITTEN, s, acts[0], u);
      FlipImpossible(s, acts[0], u);
      CloggedStep(s, acts[0], u);
      WaitingShutdownBlocksAll(u, acts[1..], s');
      assert forall i :: 1 <= i < |acts| ==> acts[i] == acts[1..][i - 1];
    }
  }

  // ---------------------------------------------------------------- the calls inside leave

  /** Steps a call inside the lock has left before it is out. */
  function InsideWork(c: Call): nat {
    match c
    case Submit(_, _, SubLocked) => 5
    case Submit(_, _, SubReserve(_)) => 4
    case Submit(_, _, SubReserved(_)) => 3
    case Submit(_, _, SubStarted(_)) => 2
    case Submit(_, _, SubRollback(_)) => 2
    case Submit(_, _, SubRelease(_)) => 1
    case Get(_, _, GetLocked) => 3
    case Get(_, _, GetReading) => 2
    case Get(_, _, GetRelease(_)) => 1
    case _ => 0
  }

  lemma InsideIsHolding(c: Call)
    ensures InLock(c) <==> 0 < InsideWork(c)
  {}

  lemma HoldAdvances(s: State, t: nat, s': State)
    requires Sub(s, t).Some? && SubHoldStep(s, t) == Some(s') && !s'.panicked && s.jobs.Some?
    ensures t in s'.calls && InsideWork(s'.calls[t]) < InsideWork(s.calls[t])
  {}

  lemma SubmitAdvances(s: State, a: Act, s': State)
    requires s.writer.Some? && IsSubmit(a) && SubmitStep(s, a) == Some(s') && !s'.panicked
    requires a.t in s.calls && a.t in s'.calls
    ensures InsideWork(s'.calls[a.t]) < InsideWork(s.calls[a.t])
  {
    if a.SubHold? {
      HoldAdvances(s, a.t, s');
    }
  }

  lemma SubmitInsideFalls(cfg: Config, s: State, a: Act, s': State)
    requires Inv(cfg, s) && s.writer.Some? && IsSubmit(a) && SubmitStep(s, a) == Some(s')
    ensures a.t in s.calls && a.t in s'.calls && s'.calls == s.calls[a.t := s'.calls[a.t]]
    ensures s.calls[a.t].Submit? && s'.calls[a.t].Submit? && s'.gets == s.gets
    ensures InsideWork(s'.calls[a.t]) < InsideWork(s.calls[a.t])
  {
    SubmitSafe(cfg, s, a, s');
    SubmitShape(s, a, s');
    SubmitAdvances(s, a, s');
  }

  lemma GetInsideFalls(cfg: Config, s: State, a: Act, s': State)
    requires Inv(cfg, s) && s.writer.Some? && IsGet(a) && GetStep(cfg, s, a) == Some(s')
    ensures a.t in s.calls && a.t in s'.calls && s'.calls == s.calls[a.t := s'.calls[a.t]]
    ensures s.calls[a.t].Get? && s'.calls[a.t].Get?
    ensures InsideWork(s'.calls[a.t]) < InsideWork(s.calls[a.t])
  {
    GetSafe(cfg, s, a, s');
    GetShape(cfg, s, a, s');
  }

  function WorkOf(s: State, t: nat): nat { if t in s.calls then InsideWork(s.calls[t]) else 0 }

  /** While a Shutdown waits for the lock, every step of a GetJob or SubmitJob call brings that
      call closer to leaving, and no step takes any call in or further from leaving. */
  lemma InsideWorkFalls(cfg: Config, s: State, a: Act, s': State)
    requires Reachable(cfg, s) && s.writer.Some? && Step(cfg, s, a) == Some(s')
    ensures forall t :: WorkOf(s', t) <= WorkOf(s, t)
    ensures IsSubmit(a) || IsGet(a) ==> WorkOf(s', a.t) < WorkOf(s, a.t)
  {
    ReachableInv(cfg, s);
    if IsSubmit(a) {
      SubmitInsideFalls(cfg, s, a, s');
    } else if IsGet(a) {
      GetInsideFalls(cfg, s, a, s');
    } else if IsShut(a) {
      ShutShape(cfg, s, a, s');
    }
  }

  /** The next step of a call inside the lock. */
  function NextInside(c: Call, t: nat): Act {
    match c
    case Submit(_, _, SubLocked) => SubPickId(t, "generated")
    case Submit(_, _, SubReserve(_)) => SubHold(t)
    case Submit(_, _, SubReserved(_)) => SubLaunch(t, true)
    case Submit(_, _, SubStarted(_)) => SubPublish(t)
    case Submit(_, _, SubRollback(_)) => SubUndo(t)
    case Submit(_, _, _) => SubUnlock(t)
    case Get(_, _, GetLocked) => GetTest(t)
    case Get(_, _, GetReading) => GetRead(t)
    case _ => GetUnlock(t)
  }

  /** A call inside the lock that will give it back always has a step. */
  lemma InsideEnabled(cfg: Config, s: State, t: nat) returns (a: Act)
    requires Inv(cfg, s) && t in s.calls && InLock(s.calls[t]) && (cfg.releaseOnGet || s.calls[t].Submit?)
    ensures (IsSubmit(a) || (IsGet(a) && cfg.releaseOnGet)) && a.t == t && Step(cfg, s, a).Some?
  {
    a := NextInside(s.calls[t], t);
    assert "generated" != "";
  }

  ghost predicate Inside(acts: seq<Act>) { forall i :: 0 <= i < |acts| ==> IsSubmit(acts[i]) || IsGet(acts[i]) }

  /** The lock can become free: GetJob releases it, or none has entered it. */
  ghost predicate CanDrain(cfg: Config, s: State) { cfg.releaseOnGet || !Clogged(s) }

  /** A Shutdown that waits for a lock that can become free. */
  ghost predicate WaitsForLock(cfg: Config, s: State, w: nat) {
    Reachable(cfg, s) && ShutAt(s, w) == Some(ShutPending) && CanDrain(cfg, s)
  }

  /** Shutdown calls other than `w` are where they were. */
  ghost predicate OtherShutsKept(s: State, u: State, w: nat) {
    forall x :: x != w && x in s.calls && s.calls[x].Shut? ==> x in u.calls && u.calls[x] == s.calls[x]
  }

  /** A step of a call that is no GetJob keeps the lock unclogged. */
  lemma CallDrains(cfg: Config, s: State, t: nat, u: State)
    requires CanDrain(cfg, s) && t in s.calls && !s.calls[t].Get? && t in u.calls && !u.calls[t].Get?
    requires u.calls == s.calls[t := u.calls[t]] && u.gets == s.gets
    ensures CanDrain(cfg, u)
  {
    if Clogged(u) && u.gets == 0 {
      var x :| x in u.calls && u.calls[x].Get? && InLock(u.calls[x]);
      assert s.calls[x] == u.calls[x];
    }
  }

  /** What a step of a call inside the lock does to the others. */
  lemma InsideFrame(s: State, t: nat, u: State, w: nat)
    requires t in s.calls && !s.calls[t].Shut? && t in u.calls && !u.calls[t].Shut?
    requires u.calls == s.calls[t := u.calls[t]]
    ensures ShutAt(u, w) == ShutAt(s, w) && OtherShutsKept(s, u, w)
    ensures Holders(u) - {t} == Holders(s) - {t}
  {
    HoldersUpdate(s, t, u.calls[t], u);
  }

  lemma InsideCall(cfg: Config, s: State, a: Act, u: State)
    requires Inv(cfg, s) && s.writer.Some? && CanDrain(cfg, s) && Step(cfg, s, a) == Some(u)
    requires IsSubmit(a) || (IsGet(a) && cfg.releaseOnGet)
    ensures a.t in s.calls && !s.calls[a.t].Shut? && a.t in u.calls && !u.calls[a.t].Shut?
    ensures u.calls == s.calls[a.t := u.calls[a.t]] && CanDrain(cfg, u)
    ensures InsideWork(u.calls[a.t]) < InsideWork(s.calls[a.t])
  {
    if IsSubmit(a) {
      SubmitInsideFalls(cfg, s, a, u);
      CallDrains(cfg, s, a.t, u);
    } else {
      GetInsideFalls(cfg, s, a, u);
    }
  }

  lemma GetIsClogged(s: State, t: nat)
    requires t in s.calls && s.calls[t].Get? && InLock(s.calls[t])
    ensures Clogged(s)
  {}

  /** The lock's writer, seen from a waiting call. */
  lemma WriterOf(cfg: Config, s: State, w: nat)
    requires Reachable(cfg, s) && ShutAt(s, w) == Some(ShutPending)
    ensures s.writer == Some(w)
  {
    ReachableInv(cfg, s);
  }

  lemma InsideStep(cfg: Config, s: State, w: nat, t: nat) returns (a: Act, u: State)
    requires WaitsForLock(cfg, s, w) && t in s.calls && InLock(s.calls[t])
    ensures (IsSubmit(a) || IsGet(a)) && Step(cfg, s, a) == Some(u) && WaitsForLock(cfg, u, w)
    ensures t in u.calls && InsideWork(u.calls[t]) < InsideWork(s.calls[t])
    ensures Holders(u) - {t} == Holders(s) - {t} && OtherShutsKept(s, u, w)
  {
    if s.calls[t].Get? {
      GetIsClogged(s, t);
    }
    WriterOf(cfg, s, w);
    assert Inv(cfg, s) by { ReachableInv(cfg, s); }
    a := InsideEnabled(cfg, s, t);
    u := Step(cfg, s, a).value;
    InsideCall(cfg, s, a, u);
    InsideFrame(s, t, u, w);
    ReachableStep(cfg, s, a, u);
  }

  /** One call inside the lock leaves it by its own steps. */
  lemma {:induction false} Leaves(cfg: Config, s: State, w: nat, t: nat) returns (acts: seq<Act>, u: State)
    requires WaitsForLock(cfg, s, w) && t in s.calls
    ensures Run(cfg, s, acts) == Some(u) && Inside(acts) && |acts| <= InsideWork(s.calls[t])
    ensures WaitsForLock(cfg, u, w) && Holders(u) == Holders(s) - {t} && OtherShutsKept(s, u, w)
    decreases InsideWork(s.calls[t])
  {
    InsideIsHolding(s.calls[t]);
    if InLock(s.calls[t]) {
      var a, v := InsideStep(cfg, s, w, t);
      acts, u := Leaves(cfg, v, w, t);
      RunCons(cfg, s, a, v, acts, u);
      acts := [a] + acts;
    } else {
      assert t !in Holders(s);
      acts, u := [], s;
    }
  }

  lemma {:induction false} AllLeave(cfg: Config, s: State, w: nat) returns (acts: seq<Act>, u: State)
    requires WaitsForLock(cfg, s, w)
    ensures Run(cfg, s, acts) == Some(u) && Inside(acts) && |acts| <= 5 * |Holders(s)|
    ensures WaitsForLock(cfg, u, w) && Holders(u) == {} && OtherShutsKept(s, u, w)
    decreases |Holders(s)|
  {
    if Holders(s) == {} {
      acts, u := [], s;
    } else {
      var t :| t in Holders(s);
      var first, v := Leaves(cfg, s, w, t);
      assert |Holders(s) - {t}| == |Holders(s)| - 1;
      var rest;
      rest, u := AllLeave(cfg, v, w);
      RunJoin(cfg, s, first, v, rest, u);
      acts := first + rest;
    }
  }

  /** The call has had the lock. */
  ghost predicate HasLocked(s: State, w: nat) {
    ShutAt(s, w).Some? && ShutAt(s, w) != Some(ShutStart) && ShutAt(s, w) != Some(ShutPending)
  }

  lemma EmptyLock(cfg: Config, s: State)
    requires Reachable(cfg, s) && CanDrain(cfg, s) && Holders(s) == {}
    ensures s.readers == 0
  {
    ReachableInv(cfg, s);
  }

  /** With nobody inside, the waiting Shutdown takes the lock. */
  lemma Flips(cfg: Config, s: State, w: nat) returns (u: State)
    requires WaitsForLock(cfg, s, w) && Holders(s) == {}
    ensures Step(cfg, s, ShutFlip(w)) == Some(u) && Reachable(cfg, u)
    ensures u.writer.None? && HasLocked(u, w) && CanDrain(cfg, u) && OtherShutsKept(s, u, w)
  {
    WriterOf(cfg, s, w);
    EmptyLock(cfg, s);
    assert !s.panicked by { ReachableInv(cfg, s); }
    u := ShutFlipStep(s, w).value;
    ReachableStep(cfg, s, ShutFlip(w), u);
    CallDrains(cfg, s, w, u);
  }

  /** A waiting Shutdown gets a lock that can become free: the calls inside leave by their own
      steps, at most five each, and then the writer's step is enabled. In particular whenever
      GetJob releases the lock. */
  lemma WaitingShutdownGetsLock(cfg: Config, s: State, w: nat) returns (acts: seq<Act>, u: State)
    requires Reachable(cfg, s) && CanDrain(cfg, s) && ShutAt(s, w) == Some(ShutPending)
    ensures Run(cfg, s, acts) == Some(u) && Inside(acts) && |acts| <= 5 * |Holders(s)|
    ensures Step(cfg, u, ShutFlip(w)).Some?
  {
    acts, u := AllLeave(cfg, s, w);
    var v := Flips(cfg, u, w);
  }

  // ---------------------------------------------------------------- who can ever take the lock

  ghost predicate BeforeLock(s: State, w: nat) {
    ShutAt(s, w) == Some(ShutStart) || ShutAt(s, w) == Some(ShutPending)
  }

  /** Over some run the call takes the lock. */
  ghost predicate CanLock(s: State, w: nat) {
    exists acts, u :: Run(AS_WRITTEN, s, acts) == Some(u) && HasLocked(u, w)
  }

  lemma BeforeLockShut(s: State, w: nat, a: Act, u: State)
    requires BeforeLock(s, w) && IsShut(a) && !a.ShutFlip? && ShutStep(AS_WRITTEN, s, a) == Some(u)
    ensures BeforeLock(u, w)
  {
    ShutShape(AS_WRITTEN, s, a, u);
  }

  lemma BeforeLockGet(s: State, w: nat, a: Act, u: State)
    requires BeforeLock(s, w) && IsGet(a) && GetStep(AS_WRITTEN, s, a) == Some(u)
    ensures BeforeLock(u, w)
  {}

  lemma BeforeLockSubmit(s: State, w: nat, t: nat, u: State)
    requires BeforeLock(s, w) && SubFrame(s, t, u)
    ensures BeforeLock(u, w)
  {}

  lemma BeforeLockStep(s: State, w: nat, a: Act, u: State)
    requires Inv(AS_WRITTEN, s) && BeforeLock(s, w) && !a.ShutFlip? && Step(AS_WRITTEN, s, a) == Some(u)
    ensures BeforeLock(u, w)
  {
    if IsSubmit(a) {
      FrameOf(AS_WRITTEN, s, a, u);
      BeforeLockSubmit(s, w, a.t, u);
    } else if IsGet(a) {
      BeforeLockGet(s, w, a, u);
    } else if IsShut(a) {
      BeforeLockShut(s, w, a, u);
    }
  }

  lemma {:induction false} NeverLocks(s: State, w: nat, acts: seq<Act>, u: State)
    requires Inv(AS_WRITTEN, s) && Clogged(s) && BeforeLock(s, w) && Run(AS_WRITTEN, s, acts) == Some(u)
    ensures BeforeLock(u, w)
    decreases |acts|
  {
    if acts != [] {
      var v := Step(AS_WRITTEN, s, acts[0]).value;
      FlipImpossible(s, acts[0], v);
      CloggedStep(s, acts[0], v);
      BeforeLockStep(s, w, acts[0], v);
      StepInv(AS_WRITTEN, s, acts[0], v);
      NeverLocks(v, w, acts[1..], u);
    }
  }

  /** A Shutdown that waits takes the lock, at the end of some run. */
  lemma PendingLocks(s: State, w: nat) returns (acts: seq<Act>, u: State)
    requires WaitsForLock(AS_WRITTEN, s, w)
    ensures Run(AS_WRITTEN, s, acts) == Some(u) && Reachable(AS_WRITTEN, u)
    ensures u.writer.None? && HasLocked(u, w) && CanDrain(AS_WRITTEN, u) && OtherShutsKept(s, u, w)
  {
    var first, v := AllLeave(AS_WRITTEN, s, w);
    u := Flips(AS_WRITTEN, v, w);
    RunCons(AS_WRITTEN, v, ShutFlip(w), u, [], u);
    RunJoin(AS_WRITTEN, s, first, v, [ShutFlip(w)] + [], u);
    acts := first + ([ShutFlip(w)] + []);
  }

  /** With no other writer waiting, a Shutdown that has just begun does too. */
  lemma StartedLocks(s: State, w: nat) returns (acts: seq<Act>, u: State)
    requires Reachable(AS_WRITTEN, s) && s.writer.None? && CanDrain(AS_WRITTEN, s)
    requires ShutAt(s, w) == Some(ShutStart)
    ensures Run(AS_WRITTEN, s, acts) == Some(u) && HasLocked(u, w)
  {
    var v := SetShut(s.(writer := Some(w)), w, ShutPending);
    assert !s.panicked by { ReachableInv(AS_WRITTEN, s); }
    ReachableStep(AS_WRITTEN, s, ShutAnnounce(w), v);
    CallDrains(AS_WRITTEN, s, w, v);
    var rest;
    rest, u := PendingLocks(v, w);
    RunCons(AS_WRITTEN, s, ShutAnnounce(w), v, rest, u);
    acts := [ShutAnnounce(w)] + rest;
  }

  /** The writer that waits first. */
  lemma WriterWaits(s: State)
    requires Reachable(AS_WRITTEN, s) && s.writer.Some?
    ensures ShutAt(s, s.writer.value) == Some(ShutPending)
  {
    ReachableInv(AS_WRITTEN, s);
  }

  lemma Locks(s: State, w: nat)
    requires Reachable(AS_WRITTEN, s) && BeforeLock(s, w) && !Clogged(s)
    ensures CanLock(s, w)
  {
    if ShutAt(s, w) == Some(ShutPending) {
      var acts, u := PendingLocks(s, w);
    } else if s.writer.None? {
      var acts, u := StartedLocks(s, w);
    } else {
      WriterWaits(s);
      var first, v := PendingLocks(s, s.writer.value);
      var rest, u := StartedLocks(v, w);
      RunJoin(AS_WRITTEN, s, first, v, rest, u);
      assert Run(AS_WRITTEN, s, first + rest) == Some(u) && HasLocked(u, w);
    }
  }

  lemma CannotLock(s: State, w: nat)
    requires Reachable(AS_WRITTEN, s) && BeforeLock(s, w) && Clogged(s)
    ensures !CanLock(s, w)
  {
    assert Inv(AS_WRITTEN, s) by { ReachableInv(AS_WRITTEN, s); }
    forall acts, u | Run(AS_WRITTEN, s, acts) == Some(u)
      ensures !HasLocked(u, w)
    {
      NeverLocks(s, w, acts, u);
    }
  }

  /** As written, the exact condition for a Shutdown call that has not had the lock, the first
      or a later one, ever to take it: no GetJob call has entered the lock so far. */
  lemma CanLockIff(s: State, w: nat)
    requires Reachable(AS_WRITTEN, s) && BeforeLock(s, w)
    ensures CanLock(s, w) <==> !Clogged(s)
  {
    if Clogged(s) {
      CannotLock(s, w);
    } else {
      Locks(s, w);
    }
  }

  /** Over some run the call returns with this result. */
  ghost predicate CanReturn(s: State, w: nat, r: ShutResult) {
    exists acts, u :: Run(AS_WRITTEN, s, acts) == Some(u) && ShutAt(u, w) == Some(ShutReturned(r))
  }

  lemma LockedTooLate(s: State, w: nat, acts: seq<Act>, u: State)
    requires Reachable(AS_WRITTEN, s) && s.shutdown && BeforeLock(s, w) && Run(AS_WRITTEN, s, acts) == Some(u)
    ensures HasLocked(u, w) <==> ShutAt(u, w) == Some(ShutReturned(ShutErrShutdown))
    ensures forall r :: ShutAt(u, w) == Some(ShutReturned(r)) ==> r == ShutErrShutdown
  {
    assert Inv(AS_WRITTEN, s) by { ReachableInv(AS_WRITTEN, s); }
    TooLateRun(AS_WRITTEN, s, w, acts, u);
  }

  lemma ReturnsIfLocks(s: State, w: nat)
    requires Reachable(AS_WRITTEN, s) && s.shutdown && BeforeLock(s, w)
    ensures CanReturn(s, w, ShutErrShutdown) <==> CanLock(s, w)
  {
    if CanLock(s, w) {
      var acts, u :| Run(AS_WRITTEN, s, acts) == Some(u) && HasLocked(u, w);
      LockedTooLate(s, w, acts, u);
    } else if CanReturn(s, w, ShutErrShutdown) {
      var acts, u :| Run(AS_WRITTEN, s, acts) == Some(u) && ShutAt(u, w) == Some(ShutReturned(ShutErrShutdown));
      LockedTooLate(s, w, acts, u);
    }
  }

  /** A later attempt to shut down, as written: it can return nothing but ErrShutdown, and it
      can return at all if and only if no GetJob call has entered the lock so far. */
  lemma SecondShutdownReturnsIff(s: State, w: nat)
    requires Reachable(AS_WRITTEN, s) && s.shutdown && BeforeLock(s, w)
    ensures forall r :: CanReturn(s, w, r) ==> r == ShutErrShutdown
    ensures CanReturn(s, w, ShutErrShutdown) <==> !Clogged(s)
  {
    forall r | CanReturn(s, w, r)
      ensures r == ShutErrShutdown
    {
      var acts, u :| Run(AS_WRITTEN, s, acts) == Some(u) && ShutAt(u, w) == Some(ShutReturned(r));
      LockedTooLate(s, w, acts, u);
    }
    ReturnsIfLocks(s, w);
    CanLockIff(s, w);
  }
}
