/** The whole worker: the registry, and beside it the job system of every job it has started.
    A job is over for the registry only when its own done context is closed. */
module WorkerSystem {
  import opened Basics
  import opened JobMap
  import J = JobSystem
  import JP = SystemProofs
  import R = Registry
  import RP = RegistryProofs
  import RR = RegistryRuns
  import RT = RegistryTheorems
  import T = JobTheorems

  datatype State = State(reg: R.State, jobs: map<JobRef, J.State>)

  const INIT := State(R.INIT, map[])

  datatype Act = RegDo(reg: R.Act) | JobDo(job: JobRef, act: J.Act)

  /** A job that has just been started is in its initial state. */
  function JobsOf(started: set<JobRef>, jobs: map<JobRef, J.State>): map<JobRef, J.State> {
    map j | j in started :: if j in jobs then jobs[j] else J.INIT
  }

  /** What the registry takes from the jobs. */
  predicate Allowed(s: State, a: R.Act) {
    a.JobEnds? ==> a.job in s.jobs && s.jobs[a.job].core.done
  }

  ghost function Step(rcfg: R.Config, jcfg: J.Config, s: State, a: Act): Option<State> {
    match a
    case RegDo(b) => (
      if !Allowed(s, b) then None
      else match R.Step(rcfg, s.reg, b) case None => None case Some(r) => Some(State(r, JobsOf(r.started, s.jobs))))
    case JobDo(j, b) =>
      if j !in s.jobs then None
      else match J.Step(jcfg, s.jobs[j], b) case None => None case Some(t) => Some(s.(jobs := s.jobs[j := t]))
  }

  ghost function Run(rcfg: R.Config, jcfg: J.Config, s: State, acts: seq<Act>): Option<State>
    decreases |acts|
  {
    if acts == [] then Some(s)
    else
      match Step(rcfg, jcfg, s, acts[0])
      case None => None
      case Some(t) => Run(rcfg, jcfg, t, acts[1..])
  }

  ghost predicate Reachable(rcfg: R.Config, jcfg: J.Config, s: State) {
    exists acts :: Run(rcfg, jcfg, INIT, acts) == Some(s)
  }

  // ---------------------------------------------------------------- the parts

  /** Each part is in a state it can reach by itself, the jobs are those the registry has
      started, and a job that is over for the registry is done. */
  ghost predicate Parts(rcfg: R.Config, jcfg: J.Config, s: State) {
    && R.Reachable(rcfg, s.reg) && s.jobs.Keys == s.reg.started
    && (forall j :: j in s.jobs ==> JP.Reachable(jcfg, s.jobs[j]))
    && (forall j :: j in s.reg.finished ==> j in s.jobs && s.jobs[j].core.done)
  }

  /** What a step of the registry may do to the jobs it knows. */
  lemma RegGrows(rcfg: R.Config, s: R.State, a: R.Act, t: R.State)
    requires RP.Inv(rcfg, s) && R.Step(rcfg, s, a) == Some(t)
    ensures s.started <= t.started
    ensures t.finished == if a.JobEnds? then s.finished + {a.job} else s.finished
  {
    if R.IsSubmit(a) {
      RP.SubmitSafe(rcfg, s, a, t);
      RP.SubmitShape(s, a, t);
    } else if R.IsGet(a) {
      RP.GetSafe(rcfg, s, a, t);
      RP.GetShape(rcfg, s, a, t);
    } else if R.IsShut(a) {
      RP.ShutShape(rcfg, s, a, t);
    }
  }

  lemma InitReachable(rcfg: R.Config, jcfg: J.Config)
    ensures R.Reachable(rcfg, R.INIT) && JP.Reachable(jcfg, J.INIT)
  {
    assert R.Run(rcfg, R.INIT, []) == Some(R.INIT);
    assert J.Run(jcfg, J.INIT, []) == Some(J.INIT);
  }

  lemma RegParts(rcfg: R.Config, jcfg: J.Config, s: State, a: R.Act, t: State)
    requires Parts(rcfg, jcfg, s) && Step(rcfg, jcfg, s, RegDo(a)) == Some(t)
    ensures Parts(rcfg, jcfg, t)
  {
    assert RP.Inv(rcfg, s.reg) by { RP.ReachableInv(rcfg, s.reg); }
    RegGrows(rcfg, s.reg, a, t.reg);
    RP.ReachableStep(rcfg, s.reg, a, t.reg);
    InitReachable(rcfg, jcfg);
  }

  /** A closed done context stays closed. */
  lemma DoneStays(jcfg: J.Config, s: J.State, a: J.Act, t: J.State)
    requires J.Step(jcfg, s, a) == Some(t) && s.core.done
    ensures t.core.done
  {
    if !a.CoreDo? {
      JP.ClientKeepsJob(jcfg, s, a, t);
    }
  }

  lemma JobParts(rcfg: R.Config, jcfg: J.Config, s: State, j: JobRef, a: J.Act, t: State)
    requires Parts(rcfg, jcfg, s) && Step(rcfg, jcfg, s, JobDo(j, a)) == Some(t)
    ensures Parts(rcfg, jcfg, t)
  {
    JP.ReachableStep(jcfg, s.jobs[j], a, t.jobs[j]);
    if s.jobs[j].core.done {
      DoneStays(jcfg, s.jobs[j], a, t.jobs[j]);
    }
  }

  lemma {:induction false} RunParts(rcfg: R.Config, jcfg: J.Config, s: State, acts: seq<Act>, t: State)
    requires Parts(rcfg, jcfg, s) && Run(rcfg, jcfg, s, acts) == Some(t)
    ensures Parts(rcfg, jcfg, t)
    decreases |acts|
  {
    if acts != [] {
      var u := Step(rcfg, jcfg, s, acts[0]).value;
      match acts[0] {
        case RegDo(a) => RegParts(rcfg, jcfg, s, a, u);
        case JobDo(j, a) => JobParts(rcfg, jcfg, s, j, a, u);
      }
      RunParts(rcfg, jcfg, u, acts[1..], t);
    }
  }

  /** So every result about the registry and about a single job holds of the whole worker. */
  lemma ReachableParts(rcfg: R.Config, jcfg: J.Config, s: State)
    requires Reachable(rcfg, jcfg, s)
    ensures Parts(rcfg, jcfg, s)
  {
    var acts :| Run(rcfg, jcfg, INIT, acts) == Some(s);
    InitReachable(rcfg, jcfg);
    RunParts(rcfg, jcfg, INIT, acts, s);
  }

  // ---------------------------------------------------------------- what a nil Shutdown guarantees

  /** The job has ended for good: the exit code is set and both outputs are all that was read. */
  ghost predicate Over(s: J.State) {
    s.core.done && s.core.job.exitCode.Some? && s.core.job.output == s.core.read
  }

  lemma DoneIsOver(jcfg: J.Config, s: J.State)
    requires JP.Reachable(jcfg, s) && s.core.done
    ensures Over(s)
  {
    T.DoneHandshake(jcfg, s, 0);
    assert J.Run(jcfg, s, []) == Some(s);
    T.ExitFinality(jcfg, s, [], s);
  }

  /** A nil result of Shutdown, with the context still open or with stop errors reported: every
      job whose submission ever succeeded has its exit code and its complete output. */
  lemma NilMeansComplete(rcfg: R.Config, jcfg: J.Config, s: State, t: nat, j: JobRef)
    requires Reachable(rcfg, jcfg, s) && R.ShutAt(s.reg, t) == Some(R.ShutReturned(R.ShutNil))
    requires !s.reg.calls[t].ctxClosed || rcfg.reportStopErrors
    requires j in s.reg.published
    ensures j in s.jobs && Over(s.jobs[j])
  {
    ReachableParts(rcfg, jcfg, s);
    RT.ShutdownResult(rcfg, s.reg, t);
    RT.ShutdownMissesNothing(rcfg, s.reg);
    assert j in s.reg.finished;
    DoneIsOver(jcfg, s.jobs[j]);
  }

  /** What GetJob yields is a started job with a record of its own. */
  lemma FoundHasRecord(rcfg: R.Config, jcfg: J.Config, s: State, t: nat, j: JobRef)
    requires Reachable(rcfg, jcfg, s) && t in s.reg.calls && s.reg.calls[t].Get?
    requires s.reg.calls[t].get == R.GetReturned(R.GetFound(Some(j)))
    ensures j.namespace == s.reg.calls[t].ns && j.id == s.reg.calls[t].id
    ensures j in s.jobs && JP.Reachable(jcfg, s.jobs[j])
  {
    ReachableParts(rcfg, jcfg, s);
    RT.GetJobSound(rcfg, s.reg, t, j);
  }

  // ---------------------------------------------------------------- and what it does not

  /** All started jobs, with no step taken. */
  function Untouched(r: R.State): State { State(r, JobsOf(r.started, map[])) }

  lemma {:induction false} QuietRun(rcfg: R.Config, jcfg: J.Config, r: R.State, acts: seq<R.Act>, u: R.State)
    returns (all: seq<Act>)
    requires RP.Inv(rcfg, r) && R.Run(rcfg, r, acts) == Some(u) && u.finished == {}
    ensures r.finished == {} && Run(rcfg, jcfg, Untouched(r), all) == Some(Untouched(u))
    decreases |acts|
  {
    if acts == [] {
      all := [];
    } else {
      var a, v := acts[0], R.Step(rcfg, r, acts[0]).value;
      RegGrows(rcfg, r, a, v);
      RP.StepInv(rcfg, r, a, v);
      var rest := QuietRun(rcfg, jcfg, v, acts[1..], u);
      assert JobsOf(v.started, Untouched(r).jobs) == JobsOf(v.started, map[]);
      all := [RegDo(a)] + rest;
      assert all[1..] == rest;
    }
  }

  /** A state of the registry in which no job has ended is one of the worker. */
  lemma QuietReachable(rcfg: R.Config, jcfg: J.Config, r: R.State)
    requires R.Reachable(rcfg, r) && r.finished == {}
    ensures Reachable(rcfg, jcfg, Untouched(r))
  {
    var acts :| R.Run(rcfg, R.INIT, acts) == Some(r);
    RP.InitInv(rcfg);
    var all := QuietRun(rcfg, jcfg, R.INIT, acts, r);
    assert Untouched(R.INIT) == INIT;
  }

  /** As written, with a closed context: Shutdown has returned nil and a published job has no
      exit code. */
  lemma NilWithoutExitCode(jcfg: J.Config) returns (s: State)
    ensures Reachable(R.AS_WRITTEN, jcfg, s) && R.ShutAt(s.reg, 1) == Some(R.ShutReturned(R.ShutNil))
    ensures RR.REF in s.reg.published && RR.REF in s.jobs && s.jobs[RR.REF].core.job.exitCode.None?
  {
    var r := RR.NilWithRunningJob();
    QuietReachable(R.AS_WRITTEN, jcfg, r);
    s := Untouched(r);
    RT.PublishedKnown(R.AS_WRITTEN, r, RR.REF);
  }
}
