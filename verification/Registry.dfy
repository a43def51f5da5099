/** The worker's registry and shutdown protocol as a labelled step function, for any number
    of concurrent GetJob, SubmitJob and Shutdown calls. One lock section is one step. */
module Registry {
  import opened Basics
  import opened JobMap

  /** Which departures from the stated intent are corrected; all false is as written. */
  datatype Config = Config(
    releaseOnGet: bool,     // GetJob defers RUnlock instead of RLock
    reportStopErrors: bool) // Shutdown reports a Stop that returned because of the context

  const AS_WRITTEN := Config(false, false)

  datatype SubResult = SubOk(job: JobRef) | SubErrShutdown | SubErrExists | SubErrStart

  datatype SubPc =
    | SubStart
    | SubLocked
    | SubReserve(id: string)
    | SubReserved(id: string)
    | SubStarted(id: string)
    | SubRollback(id: string)
    | SubRelease(result: SubResult)
    | SubReturned(result: SubResult)

  datatype GetResult = GetErrShutdown | GetFound(job: Option<JobRef>)

  datatype GetPc = GetStart | GetLocked | GetReading | GetRelease(result: GetResult) | GetReturned(result: GetResult)

  datatype ShutResult = ShutNil | ShutErrShutdown | ShutCtxErr

  datatype ShutPc = ShutStart | ShutPending | ShutSteal | ShutWait | ShutCheck | ShutReturned(result: ShutResult)

  datatype StopState = StopRunning | StopByDone | StopByCtx

  datatype Call =
    | Submit(ns: string, reqId: string, sub: SubPc)
    | Get(ns: string, id: string, get: GetPc)
    | Shut(shut: ShutPc, ctxClosed: bool, stops: map<JobRef, StopState>, wgDone: bool)

  /** `jobs` is None once Shutdown has set the map to nil. The writer is a Shutdown call that
      has announced itself: it blocks new readers and waits for `readers` to drop to zero.
      The remaining fields are history: started and finished jobs, successful submissions in
      order, the submission that owns each placeholder, completed GetJob calls, the call that
      passed the flag and the map it took. */
  datatype State = State(
    jobs: Option<Jobs>, shutdown: bool, readers: nat, writer: Option<nat>, calls: map<nat, Call>,
    started: set<JobRef>, finished: set<JobRef>, published: seq<JobRef>,
    owner: map<Key, nat>, gets: nat, passed: Option<nat>, taken: Option<Jobs>, panicked: bool)

  const INIT := State(Some(map[]), false, 0, None, map[], {}, {}, [], map[], 0, None, None, false)

  datatype Act =
    | NewSubmit(t: nat, ns: string, reqId: string)
    | NewGet(t: nat, ns: string, id: string)
    | NewShutdown(t: nat)
    | SubLock(t: nat)
    | SubPickId(t: nat, generated: string)
    | SubHold(t: nat)
    | SubLaunch(t: nat, ok: bool)
    | SubPublish(t: nat)
    | SubUndo(t: nat)
    | SubUnlock(t: nat)
    | GetLock(t: nat)
    | GetTest(t: nat)
    | GetRead(t: nat)
    | GetUnlock(t: nat)
    | ShutAnnounce(t: nat)
    | ShutFlip(t: nat)
    | ShutTake(t: nat)
    | StopReturns(t: nat, job: JobRef, byCtx: bool)
    | WaitGroupDone(t: nat)
    | ShutWake(t: nat)
    | ShutReturn(t: nat)
    | CloseCtx(t: nat)
    | JobEnds(job: JobRef)

  function Sub(s: State, t: nat): Option<SubPc> {
    if t in s.calls && s.calls[t].Submit? then Some(s.calls[t].sub) else None
  }

  function SetSub(s: State, t: nat, pc: SubPc): State
    requires Sub(s, t).Some?
  {
    s.(calls := s.calls[t := s.calls[t].(sub := pc)])
  }

  function GetAt(s: State, t: nat): Option<GetPc> {
    if t in s.calls && s.calls[t].Get? then Some(s.calls[t].get) else None
  }

  function SetGet(s: State, t: nat, pc: GetPc): State
    requires GetAt(s, t).Some?
  {
    s.(calls := s.calls[t := s.calls[t].(get := pc)])
  }

  function ShutAt(s: State, t: nat): Option<ShutPc> {
    if t in s.calls && s.calls[t].Shut? then Some(s.calls[t].shut) else None
  }

  function SetShut(s: State, t: nat, pc: ShutPc): State
    requires ShutAt(s, t).Some?
  {
    s.(calls := s.calls[t := s.calls[t].(shut := pc)])
  }

  // ---------------------------------------------------------------- SubmitJob

  function SubLockStep(s: State, t: nat): Option<State>
    requires Sub(s, t).Some?
  {
    if s.calls[t].sub.SubStart? && s.writer.None?
    then Some(SetSub(s.(readers := s.readers + 1), t, SubLocked)) else None
  }

  function SubPickIdStep(s: State, t: nat, generated: string): Option<State>
    requires Sub(s, t).Some?
  {
    if !s.calls[t].sub.SubLocked? then None
    else if s.shutdown then Some(SetSub(s, t, SubRelease(SubErrShutdown)))
    else if s.calls[t].reqId != "" then Some(SetSub(s, t, SubReserve(s.calls[t].reqId)))
    else if generated != "" then Some(SetSub(s, t, SubReserve(generated)))
    else None
  }

  function SubHoldStep(s: State, t: nat): Option<State>
    requires Sub(s, t).Some?
  {
    var ns, pc := s.calls[t].ns, s.calls[t].sub;
    if !pc.SubReserve? then None
    else if s.jobs.None? then Some(s.(panicked := true))
    else if Lookup(s.jobs.value, ns, pc.id).Some? then Some(SetSub(s, t, SubRelease(SubErrExists)))
    else
      var m := Put(WithNamespace(s.jobs.value, ns), ns, pc.id, None);
      Some(SetSub(s.(jobs := Some(m), owner := s.owner[Key(ns, pc.id) := t]), t, SubReserved(pc.id)))
  }

  function SubLaunchStep(s: State, t: nat, ok: bool): Option<State>
    requires Sub(s, t).Some?
  {
    var ns, pc := s.calls[t].ns, s.calls[t].sub;
    if !pc.SubReserved? then None
    else if ok then Some(SetSub(s.(started := s.started + {JobRef(ns, pc.id, t)}), t, SubStarted(pc.id)))
    else Some(SetSub(s, t, SubRollback(pc.id)))
  }

  function SubPublishStep(s: State, t: nat): Option<State>
    requires Sub(s, t).Some?
  {
    var ns, pc := s.calls[t].ns, s.calls[t].sub;
    if !pc.SubStarted? then None
    else if s.jobs.None? || ns !in s.jobs.value then Some(s.(panicked := true))
    else
      var j := JobRef(ns, pc.id, t);
      Some(SetSub(s.(jobs := Some(Put(s.jobs.value, ns, pc.id, Some(j))), published := s.published + [j],
                     owner := s.owner - {Key(ns, pc.id)}),
                  t, SubRelease(SubOk(j))))
  }

  function SubUndoStep(s: State, t: nat): Option<State>
    requires Sub(s, t).Some?
  {
    var ns, pc := s.calls[t].ns, s.calls[t].sub;
    if !pc.SubRollback? then None
    else
      var m := match s.jobs case None => None case Some(m) => Some(Delete(m, ns, pc.id));
      Some(SetSub(s.(jobs := m, owner := s.owner - {Key(ns, pc.id)}), t, SubRelease(SubErrStart)))
  }

  function SubUnlockStep(s: State, t: nat): Option<State>
    requires Sub(s, t).Some?
  {
    var pc := s.calls[t].sub;
    if !pc.SubRelease? then None
    else if s.readers == 0 then Some(s.(panicked := true))
    else Some(SetSub(s.(readers := s.readers - 1), t, SubReturned(pc.result)))
  }

  predicate IsSubmit(a: Act) {
    a.SubLock? || a.SubPickId? || a.SubHold? || a.SubLaunch? || a.SubPublish? || a.SubUndo? || a.SubUnlock?
  }

  function SubmitStep(s: State, a: Act): Option<State>
    requires IsSubmit(a)
  {
    if Sub(s, a.t).None? then None
    else
      match a
      case SubLock(t) => SubLockStep(s, t)
      case SubPickId(t, generated) => SubPickIdStep(s, t, generated)
      case SubHold(t) => SubHoldStep(s, t)
      case SubLaunch(t, ok) => SubLaunchStep(s, t, ok)
      case SubPublish(t) => SubPublishStep(s, t)
      case SubUndo(t) => SubUndoStep(s, t)
      case SubUnlock(t) => SubUnlockStep(s, t)
  }

  // ---------------------------------------------------------------- GetJob

  predicate IsGet(a: Act) { a.GetLock? || a.GetTest? || a.GetRead? || a.GetUnlock? }

  function GetLockStep(s: State, t: nat): Option<State>
    requires GetAt(s, t).Some?
  {
    if s.calls[t].get.GetStart? && s.writer.None?
    then Some(SetGet(s.(readers := s.readers + 1), t, GetLocked)) else None
  }

  function GetReadStep(s: State, t: nat): Option<State>
    requires GetAt(s, t).Some?
  {
    if s.calls[t].get.GetReading? then
      var j := match s.jobs case None => None case Some(m) => JobAt(m, s.calls[t].ns, s.calls[t].id);
      Some(SetGet(s, t, GetRelease(GetFound(j))))
    else None
  }

  function GetUnlockStep(cfg: Config, s: State, t: nat): Option<State>
    requires GetAt(s, t).Some?
  {
    var pc := s.calls[t].get;
    if !pc.GetRelease? then None
    else if cfg.releaseOnGet then
      if s.readers == 0 then Some(s.(panicked := true))
      else Some(SetGet(s.(readers := s.readers - 1, gets := s.gets + 1), t, GetReturned(pc.result)))
    else
      // As written the deferred call takes the read lock once more.
      if s.writer.None?
      then Some(SetGet(s.(readers := s.readers + 1, gets := s.gets + 1), t, GetReturned(pc.result))) else None
  }

  function GetStep(cfg: Config, s: State, a: Act): Option<State>
    requires IsGet(a)
  {
    if GetAt(s, a.t).None? then None
    else
      match a
      case GetLock(t) => GetLockStep(s, t)
      case GetTest(t) =>
        if s.calls[t].get.GetLocked?
        then Some(SetGet(s, t, if s.shutdown then GetRelease(GetErrShutdown) else GetReading)) else None
      case GetRead(t) => GetReadStep(s, t)
      case GetUnlock(t) => GetUnlockStep(cfg, s, t)
  }

  // ---------------------------------------------------------------- Shutdown

  predicate IsNew(a: Act) { a.NewSubmit? || a.NewGet? || a.NewShutdown? }

  predicate IsShut(a: Act) { !a.JobEnds? && !IsSubmit(a) && !IsGet(a) && !IsNew(a) }

  /** One Stop goroutine per job of the map taken. */
  function NewStops(m: Jobs): map<JobRef, StopState> { map j | j in AllJobs(m) :: StopRunning }

  ghost predicate AllReturned(stops: map<JobRef, StopState>) { forall j :: j in stops ==> stops[j] != StopRunning }

  ghost predicate NoStopErrors(stops: map<JobRef, StopState>) { forall j :: j in stops ==> stops[j] != StopByCtx }

  function ShutFlipStep(s: State, t: nat): Option<State>
    requires ShutAt(s, t).Some?
  {
    if s.calls[t].shut.ShutPending? && s.writer == Some(t) && s.readers == 0 then
      if s.shutdown then Some(SetShut(s.(writer := None), t, ShutReturned(ShutErrShutdown)))
      else Some(SetShut(s.(writer := None, shutdown := true, passed := Some(t)), t, ShutSteal))
    else None
  }

  ghost function ShutTakeStep(s: State, t: nat): Option<State>
    requires ShutAt(s, t).Some?
  {
    if s.calls[t].shut.ShutSteal? then
      var m := match s.jobs case None => map[] case Some(m) => m;
      var u := s.(jobs := None, taken := Some(m));
      if m == map[] then Some(SetShut(u, t, ShutReturned(ShutNil)))
      else
        // Stop on a nil job would panic in its goroutine.
        Some(u.(calls := u.calls[t := Shut(ShutWait, s.calls[t].ctxClosed, NewStops(m), false)],
                panicked := u.panicked || HasNil(m)))
    else None
  }

  /** The Stop goroutine of one job returns: the job is done, or the context has closed. */
  function StopReturnsStep(s: State, t: nat, j: JobRef, byCtx: bool): Option<State>
    requires ShutAt(s, t).Some?
  {
    var c := s.calls[t];
    if j in c.stops && c.stops[j].StopRunning? && (if byCtx then c.ctxClosed else j in s.finished) then
      Some(s.(calls := s.calls[t := c.(stops := c.stops[j := if byCtx then StopByCtx else StopByDone])]))
    else None
  }

  ghost function ShutReturnStep(cfg: Config, s: State, t: nat): Option<State>
    requires ShutAt(s, t).Some?
  {
    var c := s.calls[t];
    if c.shut.ShutCheck? then
      var ok := c.wgDone && (cfg.reportStopErrors ==> NoStopErrors(c.stops));
      Some(SetShut(s, t, ShutReturned(if ok || !c.ctxClosed then ShutNil else ShutCtxErr)))
    else None
  }

  ghost function ShutStep(cfg: Config, s: State, a: Act): Option<State>
    requires IsShut(a)
  {
    if ShutAt(s, a.t).None? then None
    else
      var c := s.calls[a.t];
      match a
      case ShutAnnounce(t) =>
        if c.shut.ShutStart? && s.writer.None? then Some(SetShut(s.(writer := Some(t)), t, ShutPending)) else None
      case ShutFlip(t) => ShutFlipStep(s, t)
      case ShutTake(t) => ShutTakeStep(s, t)
      case StopReturns(t, j, byCtx) => StopReturnsStep(s, t, j, byCtx)
      case WaitGroupDone(t) =>
        if (c.shut.ShutWait? || c.shut.ShutCheck?) && AllReturned(c.stops)
        then Some(s.(calls := s.calls[t := c.(wgDone := true)])) else None
      case ShutWake(t) =>
        if c.shut.ShutWait? && (c.ctxClosed || c.wgDone) then Some(SetShut(s, t, ShutCheck)) else None
      case ShutReturn(t) => ShutReturnStep(cfg, s, t)
      case CloseCtx(t) => Some(s.(calls := s.calls[t := c.(ctxClosed := true)]))
  }

  // ---------------------------------------------------------------- all calls

  ghost function Step(cfg: Config, s: State, a: Act): Option<State> {
    if s.panicked then None
    else if IsSubmit(a) then SubmitStep(s, a)
    else if IsGet(a) then GetStep(cfg, s, a)
    else if IsShut(a) then ShutStep(cfg, s, a)
    else
      match a
      case NewSubmit(t, ns, id) =>
        if t in s.calls then None else Some(s.(calls := s.calls[t := Submit(ns, id, SubStart)]))
      case NewGet(t, ns, id) =>
        if t in s.calls then None else Some(s.(calls := s.calls[t := Get(ns, id, GetStart)]))
      case NewShutdown(t) =>
        if t in s.calls then None else Some(s.(calls := s.calls[t := Shut(ShutStart, false, map[], false)]))
      case JobEnds(j) => if j in s.started then Some(s.(finished := s.finished + {j})) else None
  }

  ghost function Run(cfg: Config, s: State, acts: seq<Act>): Option<State>
    decreases |acts|
  {
    if acts == [] then Some(s)
    else
      match Step(cfg, s, acts[0])
      case None => None
      case Some(t) => Run(cfg, t, acts[1..])
  }

  ghost predicate Reachable(cfg: Config, s: State) { exists acts :: Run(cfg, INIT, acts) == Some(s) }
}
