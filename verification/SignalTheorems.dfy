/** The signal goroutine of a job: which signals are sent, and when their number is bounded. */
module SignalTheorems {
  import opened Basics
  import opened JobSystem
  import opened JobCoreProofs
  import opened SystemProofs

  /** In every reachable state SIGTERM was sent at most once and only after a non-forced stop
      request, SIGKILL only after a forced one, and the loop has ended only if the job is done
      or both signals were sent. With the select on the nil-able channel at most two signals
      are ever sent. */
  lemma SignalDiscipline(cfg: Config, s: State)
    requires Reachable(cfg, s)
    ensures
      var k := s.core;
      var terms, kills := Count(k.signals.sent, SIGTERM), Count(k.signals.sent, SIGKILL);
      && terms <= 1 && (terms == 1 ==> k.stop)
      && (kills > 0 ==> k.force)
      && (!k.signals.running ==> k.done || (terms == 1 && kills > 0))
      && (cfg.selectNilableForce ==> |k.signals.sent| <= 2)
  {
    CoreOf(cfg, s);
  }

  /** Channels the loop still listens to: the measure of the corrected loop. */
  function Listening(l: SignalLoop): nat {
    (if l.stopCh then 1 else 0) + (if l.forceCh then 1 else 0)
  }

  /** On the nil-able channel every signal uses one up. As written this fails for exactly one
      kind of step: a SIGKILL after the force channel was already set to nil. */
  lemma SignalUsesChannel(cfg: Config, k: Core, a: CoreAct, k': Core)
    requires (a.SigTerm? || a.SigKill?) && CoreStep(cfg, k, a) == Some(k')
    ensures Listening(k'.signals) < Listening(k.signals) <==> a.SigTerm? || k.signals.forceCh
    ensures cfg.selectNilableForce ==> Listening(k'.signals) < Listening(k.signals)
  {}

  function Kills(s: State): nat { Count(s.core.signals.sent, SIGKILL) }

  /** As written: while only the forced stop was requested, the loop sends SIGKILL again and
      again; any number is possible. */
  lemma {:induction false} KillsRepeat(s: State, n: nat) returns (acts: seq<Act>, t: State)
    requires s.core.signals.running && s.core.force && s.core.signals.stopCh
    ensures Run(AS_WRITTEN, s, acts) == Some(t) && Kills(t) == Kills(s) + n
    decreases n
  {
    if n == 0 {
      acts, t := [], s;
    } else {
      var k := s.core;
      var u := s.(core := k.(signals := Signalled(k.signals, SIGKILL)));
      CountPush(k.signals.sent, SIGKILL, SIGKILL);
      var rest;
      rest, t := KillsRepeat(u, n - 1);
      acts := [CoreDo(SigKill)] + rest;
      RunCons(AS_WRITTEN, s, CoreDo(SigKill), u, rest, t);
    }
  }

  /** Once the stop channel is nil the loop has at most one signal left to send. */
  ghost predicate OneLeft(l: SignalLoop) {
    !l.stopCh && Count(l.sent, SIGKILL) <= if l.running then 0 else 1
  }

  lemma OneLeftCore(cfg: Config, k: Core, a: CoreAct, k': Core)
    requires OneLeft(k.signals) && CoreStep(cfg, k, a) == Some(k')
    ensures OneLeft(k'.signals)
  {
    if a.SigKill? {
      SignalledCounts(k.signals, SIGKILL);
      assert !k'.signals.running;
    } else {
      assert !a.SigTerm?;
      assert k'.signals.sent == k.signals.sent && k'.signals.stopCh == k.signals.stopCh;
    }
  }

  lemma OneLeftStep(cfg: Config, s: State, a: Act, t: State)
    requires OneLeft(s.core.signals) && Step(cfg, s, a) == Some(t)
    ensures OneLeft(t.core.signals)
  {
    if a.CoreDo? {
      OneLeftCore(cfg, s.core, a.core, t.core);
    } else {
      ClientKeepsJob(cfg, s, a, t);
    }
  }

  lemma {:induction false} OneLeftRun(cfg: Config, s: State, acts: seq<Act>, t: State)
    requires OneLeft(s.core.signals) && Run(cfg, s, acts) == Some(t)
    ensures OneLeft(t.core.signals)
    decreases |acts|
  {
    if acts != [] {
      var u := Step(cfg, s, acts[0]).value;
      OneLeftStep(cfg, s, acts[0], u);
      OneLeftRun(cfg, u, acts[1..], t);
    }
  }

  /** Over all runs from `s` the number of SIGKILLs stays within `n`. */
  ghost predicate KillsBounded(s: State, n: nat) {
    forall acts, t :: Run(AS_WRITTEN, s, acts) == Some(t) ==> Kills(t) <= n
  }

  lemma OneMoreKill(s: State)
    requires Reachable(AS_WRITTEN, s) && !s.core.signals.stopCh && s.core.signals.running
    ensures KillsBounded(s, Kills(s) + 1)
  {
    CoreOf(AS_WRITTEN, s);
    forall acts, t | Run(AS_WRITTEN, s, acts) == Some(t)
      ensures Kills(t) <= Kills(s) + 1
    {
      OneLeftRun(AS_WRITTEN, s, acts, t);
    }
  }

  lemma EndedStep(s: State, a: Act, t: State)
    requires !s.core.signals.running && Step(AS_WRITTEN, s, a) == Some(t)
    ensures t.core.signals == s.core.signals
  {
    if !a.CoreDo? {
      ClientKeepsJob(AS_WRITTEN, s, a, t);
    }
  }

  lemma {:induction false} EndedRun(s: State, acts: seq<Act>, t: State)
    requires !s.core.signals.running && Run(AS_WRITTEN, s, acts) == Some(t)
    ensures t.core.signals == s.core.signals
    decreases |acts|
  {
    if acts != [] {
      var u := Step(AS_WRITTEN, s, acts[0]).value;
      EndedStep(s, acts[0], u);
      EndedRun(u, acts[1..], t);
    }
  }

  /** A loop that has ended sends nothing more. */
  lemma NoMoreKills(s: State)
    requires !s.core.signals.running
    ensures KillsBounded(s, Kills(s))
  {
    forall acts, t | Run(AS_WRITTEN, s, acts) == Some(t)
      ensures Kills(t) <= Kills(s)
    {
      EndedRun(s, acts, t);
    }
  }

  lemma {:induction false} FreshId(used: set<nat>) returns (id: nat)
    ensures forall x :: x in used ==> x < id
    decreases |used|
  {
    if used == {} {
      id := 0;
    } else {
      var x :| x in used;
      var rest := FreshId(used - {x});
      id := if x < rest then rest else x + 1;
      assert forall y :: y in used ==> y == x || y in used - {x};
    }
  }

  /** A new forced stop leaves the signal goroutine as it was. */
  lemma RequestForce(s: State) returns (acts: seq<Act>, t: State)
    ensures Run(AS_WRITTEN, s, acts) == Some(t) && t.core == s.core.(force := true)
  {
    var id := FreshId(s.clients.Keys);
    var p := Stopper(true, StopCancel, false);
    var u := s.(clients := s.clients[id := Stops(p)]);
    t := State(s.core.(force := true), u.clients[id := Stops(p.(pc := StopWait))]);
    assert Step(AS_WRITTEN, s, SpawnStop(id, false, true)) == Some(u);
    assert Step(AS_WRITTEN, u, StopDo(id, StopGo)) == Some(t);
    RunCons(AS_WRITTEN, u, StopDo(id, StopGo), t, [], t);
    RunCons(AS_WRITTEN, s, SpawnStop(id, false, true), u, [StopDo(id, StopGo)] + [], t);
    acts := [SpawnStop(id, false, true)] + ([StopDo(id, StopGo)] + []);
  }

  lemma ForcedUnbounded(s: State, n: nat)
    requires s.core.signals.running && s.core.signals.stopCh
    ensures !KillsBounded(s, n)
  {
    var first, u := RequestForce(s);
    var more, t := KillsRepeat(u, n + 1);
    RunJoin(AS_WRITTEN, s, first, u, more, t);
    assert Run(AS_WRITTEN, s, first + more) == Some(t) && Kills(t) > n;
  }

  /** The exact condition for the code as written, in any reachable state: the number of
      SIGKILLs is bounded over all runs if and only if the loop has ended or the non-forced
      stop has been handled. A caller can see this before a forced Stop; without it, that one
      call may have any number of SIGKILLs sent. With it, at most one more is sent. */
  lemma KillsBoundedIff(s: State)
    requires Reachable(AS_WRITTEN, s)
    ensures (exists n :: KillsBounded(s, n)) <==> !(s.core.signals.running && s.core.signals.stopCh)
    ensures !(s.core.signals.running && s.core.signals.stopCh) ==>
      KillsBounded(s, Kills(s) + if s.core.signals.running then 1 else 0)
  {
    if s.core.signals.running && s.core.signals.stopCh {
      forall n: nat
        ensures !KillsBounded(s, n)
      {
        ForcedUnbounded(s, n);
      }
    } else if s.core.signals.running {
      OneMoreKill(s);
    } else {
      NoMoreKills(s);
    }
  }

  /** Such a state is reached by a single forced stop of a running job. */
  lemma ForceRequested() returns (s: State)
    ensures Reachable(AS_WRITTEN, s) && s.core.force && s.core.signals == INIT_CORE.signals
  {
    assert Run(AS_WRITTEN, INIT, []) == Some(INIT);
    var p := Stopper(true, StopCancel, false);
    var s0 := State(INIT_CORE, map[0 := Stops(p)]);
    assert INIT.clients[0 := Stops(p)] == s0.clients;
    ReachableStep(AS_WRITTEN, INIT, SpawnStop(0, false, true), s0);
    s := State(INIT_CORE.(force := true), s0.clients[0 := Stops(p.(pc := StopWait))]);
    ReachableStep(AS_WRITTEN, s0, StopDo(0, StopGo), s);
  }

  lemma KillAgain(s: State) returns (t: State)
    requires Reachable(AS_WRITTEN, s) && s.core.signals.running && s.core.force && s.core.signals.stopCh
    ensures Reachable(AS_WRITTEN, t) && t.core.force && t.core.signals.running && t.core.signals.stopCh
    ensures t.core.signals.sent == s.core.signals.sent + [SIGKILL]
  {
    t := s.(core := s.core.(signals := Signalled(s.core.signals, SIGKILL)));
    ReachableStep(AS_WRITTEN, s, CoreDo(SigKill), t);
  }

  /** A concrete failure of the bound of two signals: one forced stop, three SIGKILLs. */
  lemma ThreeSignals() returns (t: State)
    ensures Reachable(AS_WRITTEN, t) && t.core.signals.sent == [SIGKILL, SIGKILL, SIGKILL]
  {
    t := ForceRequested();
    t := KillAgain(t);
    t := KillAgain(t);
    t := KillAgain(t);
  }
}
