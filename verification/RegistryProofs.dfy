/** The invariant of the registry and its preservation over every run. */
module RegistryProofs {
  import opened Basics
  import opened JobMap
  import opened Registry

  /** The call holds the shutdown read lock. */
  ghost predicate InLock(c: Call) {
    match c
    case Submit(_, _, pc) => !pc.SubStart? && !pc.SubReturned?
    case Get(_, _, pc) => !pc.GetStart? && !pc.GetReturned?
    case Shut(_, _, _, _) => false
  }

  ghost function Holders(s: State): set<nat> { set t | t in s.calls && InLock(s.calls[t]) }

  /** The ID a submission has reserved and neither published nor rolled back. */
  function Reserved(c: Call): Option<Key> {
    match c
    case Submit(ns, _, SubReserved(id)) => Some(Key(ns, id))
    case Submit(ns, _, SubStarted(id)) => Some(Key(ns, id))
    case Submit(ns, _, SubRollback(id)) => Some(Key(ns, id))
    case _ => None
  }

  /** The call has seen the shutdown flag unset and may still touch the map. */
  ghost predicate Active(c: Call) {
    || Reserved(c).Some?
    || (c.Submit? && c.sub.SubReserve?)
    || (c.Get? && c.get.GetReading?)
  }

  ghost predicate LockInv(cfg: Config, s: State) {
    && s.readers == |Holders(s)| + (if cfg.releaseOnGet then 0 else 2 * s.gets)
    && (forall t :: t in s.calls && s.calls[t].Shut? ==> (s.calls[t].shut.ShutPending? <==> s.writer == Some(t)))
    && (s.writer.Some? ==> s.writer.value in s.calls && s.calls[s.writer.value].Shut?)
  }

  ghost predicate FlagInv(s: State) {
    && (forall t :: t in s.calls && Active(s.calls[t]) ==> !s.shutdown)
    && (s.jobs.None? ==> s.shutdown)
    && (s.jobs.None? <==> s.taken.Some?)
    && (s.shutdown <==> s.passed.Some?)
    && (s.passed.Some? ==> s.passed.value in s.calls)
  }

  ghost predicate OwnerInv(s: State) {
    && (forall t :: t in s.calls && Reserved(s.calls[t]).Some? ==>
          var k := Reserved(s.calls[t]).value; k in s.owner && s.owner[k] == t)
    && (forall k :: k in s.owner ==> s.owner[k] in s.calls && Reserved(s.calls[s.owner[k]]) == Some(k))
  }

  ghost predicate Known(s: State, j: JobRef) { j in s.started && j in s.published }

  ghost predicate MapInv(s: State, m: Jobs) {
    && (forall ns, id :: Lookup(m, ns, id) == Some(None) <==> Key(ns, id) in s.owner)
    && (forall ns, id, j: JobRef :: Lookup(m, ns, id) == Some(Some(j)) ==>
          j.namespace == ns && j.id == id && Known(s, j))
  }

  /** The map in force: the worker's own, or the one Shutdown took. */
  function Current(s: State): Jobs {
    match s.jobs
    case Some(m) => m
    case None => match s.taken case Some(m) => m case None => map[]
  }

  ghost predicate PubInv(s: State) {
    && (forall j :: j in s.published ==> Lookup(Current(s), j.namespace, j.id) == Some(Some(j)))
    && (forall a, b :: 0 <= a < b < |s.published| ==>
          s.published[a].namespace != s.published[b].namespace || s.published[a].id != s.published[b].id)
  }

  ghost predicate IdFits(c: Call, id: string)
    requires c.Submit?
  {
    id != "" && (c.reqId != "" ==> id == c.reqId)
  }

  /** The ID a submission is working on: the one requested, or a generated one. */
  ghost predicate IdInv(c: Call) {
    c.Submit? ==>
      match c.sub
      case SubReserve(id) => IdFits(c, id)
      case SubReserved(id) => IdFits(c, id)
      case SubStarted(id) => IdFits(c, id)
      case SubRollback(id) => IdFits(c, id)
      case _ => true
  }

  ghost predicate SubResultInv(s: State, t: nat, c: Call, r: SubResult)
    requires c.Submit?
  {
    match r
    case SubOk(j) => Known(s, j) && j.namespace == c.ns && j.submission == t && IdFits(c, j.id)
    case SubErrShutdown => s.shutdown
    case _ => true
  }

  ghost predicate SubInv(s: State, t: nat, c: Call) {
    IdInv(c) &&
    (c.Submit? ==>
      match c.sub
      case SubStarted(id) => JobRef(c.ns, id, t) in s.started
      case SubRelease(r) => SubResultInv(s, t, c, r)
      case SubReturned(r) => SubResultInv(s, t, c, r)
      case _ => true)
  }

  ghost predicate GetResultInv(s: State, c: Call, r: GetResult)
    requires c.Get?
  {
    match r
    case GetErrShutdown => s.shutdown
    case GetFound(None) => true
    case GetFound(Some(j)) => j.namespace == c.ns && j.id == c.id && Known(s, j)
  }

  ghost predicate GetInv(s: State, c: Call) {
    c.Get? ==>
      match c.get
      case GetRelease(r) => GetResultInv(s, c, r)
      case GetReturned(r) => GetResultInv(s, c, r)
      case _ => true
  }

  ghost predicate StopsInv(s: State, c: Call)
    requires c.Shut?
  {
    && (forall j :: j in c.stops && c.stops[j] == StopByDone ==> j in s.finished)
    && (forall j :: j in c.stops && c.stops[j] == StopByCtx ==> c.ctxClosed)
    && (c.wgDone ==> AllReturned(c.stops))
  }

  ghost predicate ShutInv(cfg: Config, s: State, t: nat, c: Call) {
    c.Shut? ==>
      && StopsInv(s, c)
      && match c.shut
         case ShutStart => c.stops == map[] && s.passed != Some(t)
         case ShutPending => c.stops == map[] && s.passed != Some(t)
         case ShutSteal => s.passed == Some(t) && s.jobs.Some? && c.stops == map[]
         case ShutWait => s.passed == Some(t) && s.taken.Some? && c.stops.Keys == AllJobs(s.taken.value)
         case ShutCheck =>
           s.passed == Some(t) && s.taken.Some? && c.stops.Keys == AllJobs(s.taken.value) && (c.ctxClosed || c.wgDone)
         case ShutReturned(r) =>
           match r
           case ShutErrShutdown => s.shutdown && s.passed != Some(t)
           case ShutCtxErr => s.passed == Some(t) && s.taken.Some? && c.ctxClosed
           case ShutNil =>
             && s.passed == Some(t) && s.taken.Some? && c.stops.Keys == AllJobs(s.taken.value)
             && AllReturned(c.stops)
             && (cfg.reportStopErrors ==> NoStopErrors(c.stops))
  }

  ghost predicate CallsInv(cfg: Config, s: State) {
    forall t :: t in s.calls ==> SubInv(s, t, s.calls[t]) && GetInv(s, s.calls[t]) && ShutInv(cfg, s, t, s.calls[t])
  }

  ghost predicate Inv(cfg: Config, s: State) {
    && !s.panicked
    && LockInv(cfg, s) && FlagInv(s) && OwnerInv(s)
    && MapInv(s, Current(s)) && PubInv(s) && CallsInv(cfg, s)
  }

  lemma InitInv(cfg: Config)
    ensures Inv(cfg, INIT)
  {
    assert Holders(INIT) == {};
  }

  // ---------------------------------------------------------------- the lock

  /** One call changes state: its entry into or exit from the lock is the only change to the
      set of holders. */
  lemma HoldersUpdate(s: State, t: nat, c: Call, s': State)
    requires s'.calls == s.calls[t := c]
    ensures Holders(s') == if InLock(c) then Holders(s) + {t} else Holders(s) - {t}
  {}

  /** What the lock count of a step by a GetJob or SubmitJob call must add up to. */
  lemma LockDelta(cfg: Config, s: State, t: nat, s': State)
    requires LockInv(cfg, s) && t in s.calls && t in s'.calls && s'.calls == s.calls[t := s'.calls[t]]
    requires !s.calls[t].Shut? && !s'.calls[t].Shut? && s'.writer == s.writer
    requires
      var leak := if cfg.releaseOnGet then 0 else 2;
      s'.readers + (if InLock(s.calls[t]) then 1 else 0) + leak * s.gets
      == s.readers + (if InLock(s'.calls[t]) then 1 else 0) + leak * s'.gets
    ensures LockInv(cfg, s')
  {
    HoldersUpdate(s, t, s'.calls[t], s');
    assert t in Holders(s) <==> InLock(s.calls[t]);
    if t in Holders(s) {
      assert |Holders(s) - {t}| == |Holders(s)| - 1;
    }
  }

  /** Fields a submission never writes, the frame of those it does, and its share of the lock. */
  ghost predicate SubFrame(s: State, t: nat, s': State) {
    && t in s.calls && s.calls[t].Submit? && t in s'.calls && s'.calls[t].Submit?
    && s'.calls == s.calls[t := s.calls[t].(sub := s'.calls[t].sub)]
    && s' == s.(jobs := s'.jobs, readers := s'.readers, calls := s'.calls, started := s'.started,
                published := s'.published, owner := s'.owner)
    && s.started <= s'.started && s.published <= s'.published
    && s'.readers + (if InLock(s.calls[t]) then 1 else 0) == s.readers + (if InLock(s'.calls[t]) then 1 else 0)
  }

  lemma HoldFrame(s: State, t: nat, s': State)
    requires Sub(s, t).Some? && SubHoldStep(s, t) == Some(s') && (s'.panicked ==> s.panicked)
    ensures SubFrame(s, t, s')
  {}

  lemma PublishFrame(s: State, t: nat, s': State)
    requires Sub(s, t).Some? && SubPublishStep(s, t) == Some(s') && (s'.panicked ==> s.panicked)
    ensures SubFrame(s, t, s')
  {}

  lemma UndoFrame(s: State, t: nat, s': State)
    requires Sub(s, t).Some? && SubUndoStep(s, t) == Some(s')
    ensures SubFrame(s, t, s')
  {}

  lemma LockFrame(s: State, a: Act, s': State)
    requires (a.SubLock? || a.SubUnlock?) && SubmitStep(s, a) == Some(s') && (s'.panicked ==> s.panicked)
    ensures SubFrame(s, a.t, s')
  {}

  lemma SubmitShape(s: State, a: Act, s': State)
    requires IsSubmit(a) && SubmitStep(s, a) == Some(s') && (s'.panicked ==> s.panicked)
    ensures SubFrame(s, a.t, s')
  {
    match a {
      case SubHold(t) => HoldFrame(s, t, s');
      case SubPublish(t) => PublishFrame(s, t, s');
      case SubUndo(t) => UndoFrame(s, t, s');
      case SubLaunch(t, ok) =>
      case SubPickId(t, g) =>
      case _ => LockFrame(s, a, s');
    }
  }

  lemma GetShape(cfg: Config, s: State, a: Act, s': State)
    requires IsGet(a) && GetStep(cfg, s, a) == Some(s') && (s'.panicked ==> s.panicked)
    ensures a.t in s.calls && s.calls[a.t].Get?
    ensures a.t in s'.calls && s'.calls == s.calls[a.t := s.calls[a.t].(get := s'.calls[a.t].get)]
    ensures s' == s.(readers := s'.readers, calls := s'.calls, gets := s'.gets)
    ensures
      var leak := if cfg.releaseOnGet then 0 else 2;
      s'.readers + (if InLock(s.calls[a.t]) then 1 else 0) + leak * s.gets
      == s.readers + (if InLock(s'.calls[a.t]) then 1 else 0) + leak * s'.gets
  {}

  lemma NewLock(cfg: Config, s: State, a: Act, s': State)
    requires LockInv(cfg, s) && IsNew(a) && Step(cfg, s, a) == Some(s')
    ensures LockInv(cfg, s')
  {
    assert Holders(s') == Holders(s);
  }

  // ---------------------------------------------------------------- the other calls

  /** Growth of the history that no call's results can be contradicted by. */
  ghost predicate Extends(s: State, s': State) {
    && s.started <= s'.started && s.finished <= s'.finished && s.published <= s'.published
    && (s.shutdown ==> s'.shutdown)
    && (s.passed.Some? ==> s'.passed == s.passed && s'.taken == s.taken && (s.jobs.Some? ==> s'.jobs.Some?))
  }

  lemma CallStable(cfg: Config, s: State, s': State, t: nat, c: Call)
    requires Extends(s, s') && (s'.passed == s.passed || s'.passed != Some(t))
    requires SubInv(s, t, c) && GetInv(s, c) && ShutInv(cfg, s, t, c)
    ensures SubInv(s', t, c) && GetInv(s', c) && ShutInv(cfg, s', t, c)
  {}

  /** All calls but the acting one keep their part of the invariant. */
  lemma CallsStable(cfg: Config, s: State, s': State, t: nat)
    requires CallsInv(cfg, s) && Extends(s, s')
    requires t in s'.calls && s'.calls == s.calls[t := s'.calls[t]]
    requires s'.passed == s.passed || s'.passed == Some(t)
    requires SubInv(s', t, s'.calls[t]) && GetInv(s', s'.calls[t]) && ShutInv(cfg, s', t, s'.calls[t])
    ensures CallsInv(cfg, s')
  {
    forall u | u in s'.calls
      ensures SubInv(s', u, s'.calls[u]) && GetInv(s', s'.calls[u]) && ShutInv(cfg, s', u, s'.calls[u])
    {
      if u != t {
        CallStable(cfg, s, s', u, s.calls[u]);
      }
    }
  }

  // ---------------------------------------------------------------- SubmitJob

  /** A reserved ID reads as a placeholder, so the map is there to publish into. */
  lemma ReservedSlot(cfg: Config, s: State, t: nat)
    requires Inv(cfg, s) && t in s.calls && Reserved(s.calls[t]).Some?
    ensures
      var k := Reserved(s.calls[t]).value;
      && s.jobs.Some? && Lookup(s.jobs.value, k.ns, k.id) == Some(None) && k.ns in s.jobs.value
      && k in s.owner && s.owner[k] == t
  {
    assert Active(s.calls[t]);
  }

  lemma SubmitSafe(cfg: Config, s: State, a: Act, s': State)
    requires Inv(cfg, s) && IsSubmit(a) && SubmitStep(s, a) == Some(s')
    ensures !s'.panicked
  {
    var c := s.calls[a.t];
    if Reserved(c).Some? {
      ReservedSlot(cfg, s, a.t);
    }
    if a.SubHold? {
      assert c.sub.SubReserve? ==> Active(c);
    }
    if a.SubUnlock? {
      assert c.sub.SubRelease? ==> a.t in Holders(s);
    }
  }

  lemma SubmitFlag(cfg: Config, s: State, a: Act, s': State)
    requires FlagInv(s) && IsSubmit(a) && SubmitStep(s, a) == Some(s') && !s'.panicked
    ensures FlagInv(s')
  {
    SubmitShape(s, a, s');
    assert Active(s'.calls[a.t]) ==> Active(s.calls[a.t]) || !s.shutdown;
  }

  lemma SubmitCalls(cfg: Config, s: State, a: Act, s': State)
    requires CallsInv(cfg, s) && FlagInv(s) && IsSubmit(a) && SubmitStep(s, a) == Some(s') && !s'.panicked
    ensures CallsInv(cfg, s')
  {
    SubmitShape(s, a, s');
    assert SubInv(s, a.t, s.calls[a.t]);
    assert SubInv(s', a.t, s'.calls[a.t]);
    assert Extends(s, s');
    CallsStable(cfg, s, s', a.t);
  }

  lemma OwnerGains(s: State, s': State, t: nat, k: Key)
    requires OwnerInv(s) && t in s.calls && Reserved(s.calls[t]).None? && k !in s.owner
    requires t in s'.calls && s'.calls == s.calls[t := s'.calls[t]] && Reserved(s'.calls[t]) == Some(k)
    requires s'.owner == s.owner[k := t]
    ensures OwnerInv(s')
  {}

  lemma OwnerLoses(s: State, s': State, t: nat, k: Key)
    requires OwnerInv(s) && t in s.calls && Reserved(s.calls[t]) == Some(k)
    requires t in s'.calls && s'.calls == s.calls[t := s'.calls[t]] && Reserved(s'.calls[t]).None?
    requires s'.owner == s.owner - {k}
    ensures OwnerInv(s')
  {}

  lemma OwnerSame(s: State, s': State, t: nat)
    requires OwnerInv(s) && s'.owner == s.owner
    requires t in s'.calls && s'.calls == s.calls[t := s'.calls[t]]
    requires Reserved(s'.calls[t]) == if t in s.calls then Reserved(s.calls[t]) else None
    ensures OwnerInv(s')
  {}

  /** A map change at one key that agrees with the placeholders' owners. */
  lemma MapChanges(s: State, s': State, m: Jobs, n: Jobs, k: Key, v: Option<Option<JobRef>>)
    requires MapInv(s, m) && Changed(m, n, k, v) && s.started <= s'.started && s.published <= s'.published
    requires forall x :: x in s'.owner <==> if x == k then v == Some(None) else x in s.owner
    requires v.Some? && v.value.Some? ==>
      var j := v.value.value; j.namespace == k.ns && j.id == k.id && Known(s', j)
    ensures MapInv(s', n)
  {
    assert forall j :: j in s.published ==> j in s'.published;
  }

  /** Changing a key no published job occupies keeps every published job in place. */
  lemma PubHolds(s: State, s': State, m: Jobs, k: Key, v: Option<Option<JobRef>>)
    requires PubInv(s) && m == Current(s) && Changed(m, Current(s'), k, v) && s'.published == s.published
    requires Lookup(m, k.ns, k.id).None? || Lookup(m, k.ns, k.id) == Some(None)
    ensures PubInv(s')
  {}

  lemma PubGrows(s: State, s': State, m: Jobs, j: JobRef)
    requires PubInv(s) && m == Current(s) && Lookup(m, j.namespace, j.id) == Some(None)
    requires Changed(m, Current(s'), Key(j.namespace, j.id), Some(Some(j))) && s'.published == s.published + [j]
    ensures PubInv(s')
  {
    forall x | x in s'.published
      ensures Lookup(Current(s'), x.namespace, x.id) == Some(Some(x))
    {
      assert x in s.published || x == j;
    }
  }

  lemma PublishInv(cfg: Config, s: State, a: Act, s': State)
    requires Inv(cfg, s) && a.SubPublish? && SubmitStep(s, a) == Some(s') && !s'.panicked
    ensures OwnerInv(s') && MapInv(s', Current(s')) && PubInv(s')
  {
    SubmitShape(s, a, s');
    ReservedSlot(cfg, s, a.t);
    var c := s.calls[a.t];
    var k, m := Key(c.ns, c.sub.id), s.jobs.value;
    var j := JobRef(k.ns, k.id, a.t);
    assert SubInv(s, a.t, c);
    forall n, i
      ensures Lookup(Current(s'), n, i) == if Key(n, i) == k then Some(Some(j)) else Lookup(m, n, i)
    {
      LookupPut(m, k.ns, k.id, Some(j), n, i);
    }
    assert s'.published[|s.published|] == j;
    OwnerLoses(s, s', a.t, k);
    MapChanges(s, s', m, Current(s'), k, Some(Some(j)));
    PubGrows(s, s', m, j);
  }

  lemma UndoInv(cfg: Config, s: State, a: Act, s': State)
    requires Inv(cfg, s) && a.SubUndo? && SubmitStep(s, a) == Some(s') && !s'.panicked
    ensures OwnerInv(s') && MapInv(s', Current(s')) && PubInv(s')
  {
    SubmitShape(s, a, s');
    ReservedSlot(cfg, s, a.t);
    var c := s.calls[a.t];
    var k, m := Key(c.ns, c.sub.id), s.jobs.value;
    forall n, i
      ensures Lookup(Current(s'), n, i) == if Key(n, i) == k then None else Lookup(m, n, i)
    {
      LookupDelete(m, k.ns, k.id, n, i);
    }
    OwnerLoses(s, s', a.t, k);
    MapChanges(s, s', m, Current(s'), k, None);
    PubHolds(s, s', m, k, None);
  }

  /** Known jobs stay known, so an untouched map stays consistent. */
  lemma MapSame(s: State, s': State)
    requires MapInv(s, Current(s)) && PubInv(s) && Current(s') == Current(s) && s'.owner == s.owner
    requires s.started <= s'.started && s'.published == s.published
    ensures MapInv(s', Current(s')) && PubInv(s')
  {}

  lemma HeldInv(s: State, t: nat, k: Key, s': State)
    requires OwnerInv(s) && MapInv(s, Current(s)) && PubInv(s) && s.jobs.Some? && Lookup(s.jobs.value, k.ns, k.id).None?
    requires t in s.calls && Reserved(s.calls[t]).None?
    requires t in s'.calls && s'.calls == s.calls[t := s'.calls[t]] && Reserved(s'.calls[t]) == Some(k)
    requires s'.jobs == Some(Put(WithNamespace(s.jobs.value, k.ns), k.ns, k.id, None)) && s'.owner == s.owner[k := t]
    requires s'.published == s.published && s.started <= s'.started
    ensures OwnerInv(s') && MapInv(s', Current(s')) && PubInv(s')
  {
    var m := s.jobs.value;
    forall n, i
      ensures Lookup(Current(s'), n, i) == if Key(n, i) == k then Some(None) else Lookup(m, n, i)
    {
      LookupWithNamespace(m, k.ns, n, i);
      LookupPut(WithNamespace(m, k.ns), k.ns, k.id, None, n, i);
    }
    OwnerGains(s, s', t, k);
    MapChanges(s, s', m, Current(s'), k, Some(None));
    PubHolds(s, s', m, k, Some(None));
  }

  lemma HoldInv(cfg: Config, s: State, a: Act, s': State)
    requires Inv(cfg, s) && a.SubHold? && SubmitStep(s, a) == Some(s') && !s'.panicked
    ensures OwnerInv(s') && MapInv(s', Current(s')) && PubInv(s')
  {
    SubmitShape(s, a, s');
    var c := s.calls[a.t];
    if Lookup(s.jobs.value, c.ns, c.sub.id).None? {
      HeldInv(s, a.t, Key(c.ns, c.sub.id), s');
    } else {
      OwnerSame(s, s', a.t);
      MapSame(s, s');
    }
  }

  lemma QuietKeeps(s: State, a: Act, s': State)
    requires a.SubLock? || a.SubPickId? || a.SubLaunch? || a.SubUnlock?
    requires SubmitStep(s, a) == Some(s') && !s'.panicked && a.t in s.calls && a.t in s'.calls
    ensures s'.jobs == s.jobs && s'.owner == s.owner && s'.published == s.published
    ensures Reserved(s'.calls[a.t]) == Reserved(s.calls[a.t])
  {}

  lemma SubmitQuiet(s: State, a: Act, s': State)
    requires OwnerInv(s) && MapInv(s, Current(s)) && PubInv(s)
    requires a.SubLock? || a.SubPickId? || a.SubLaunch? || a.SubUnlock?
    requires SubmitStep(s, a) == Some(s') && !s'.panicked
    ensures OwnerInv(s') && MapInv(s', Current(s')) && PubInv(s')
  {
    SubmitShape(s, a, s');
    QuietKeeps(s, a, s');
    OwnerSame(s, s', a.t);
    MapSame(s, s');
  }

  lemma SubmitStepInv(cfg: Config, s: State, a: Act, s': State)
    requires Inv(cfg, s) && IsSubmit(a) && SubmitStep(s, a) == Some(s')
    ensures Inv(cfg, s')
  {
    SubmitSafe(cfg, s, a, s');
    SubmitShape(s, a, s');
    LockDelta(cfg, s, a.t, s');
    SubmitFlag(cfg, s, a, s');
    SubmitCalls(cfg, s, a, s');
    match a {
      case SubHold(_) => HoldInv(cfg, s, a, s');
      case SubPublish(_) => PublishInv(cfg, s, a, s');
      case SubUndo(_) => UndoInv(cfg, s, a, s');
      case _ => SubmitQuiet(s, a, s');
    }
  }

  // ---------------------------------------------------------------- GetJob

  lemma GetSafe(cfg: Config, s: State, a: Act, s': State)
    requires Inv(cfg, s) && IsGet(a) && GetStep(cfg, s, a) == Some(s')
    ensures !s'.panicked
  {
    assert s.calls[a.t].get.GetRelease? ==> a.t in Holders(s);
  }

  lemma ReadInv(s: State, t: nat, s': State)
    requires FlagInv(s) && MapInv(s, Current(s)) && GetAt(s, t).Some? && GetReadStep(s, t) == Some(s')
    ensures t in s'.calls && GetInv(s', s'.calls[t]) && !Active(s'.calls[t])
  {
    if s.jobs.Some? {
      assert Current(s) == s.jobs.value;
    }
  }

  /** What a GetJob call has read or returns. */
  lemma GetterInv(cfg: Config, s: State, a: Act, s': State)
    requires FlagInv(s) && MapInv(s, Current(s)) && IsGet(a) && GetStep(cfg, s, a) == Some(s')
    requires a.t in s.calls && a.t in s'.calls && GetInv(s, s.calls[a.t]) && Extends(s, s')
    ensures GetInv(s', s'.calls[a.t]) && (Active(s'.calls[a.t]) ==> !s.shutdown)
  {
    if a.GetRead? {
      ReadInv(s, a.t, s');
    }
  }

  lemma GetCalls(cfg: Config, s: State, a: Act, s': State)
    requires Inv(cfg, s) && IsGet(a) && GetStep(cfg, s, a) == Some(s') && !s'.panicked
    ensures CallsInv(cfg, s') && FlagInv(s')
  {
    GetShape(cfg, s, a, s');
    assert GetInv(s, s.calls[a.t]);
    GetterInv(cfg, s, a, s');
    CallsStable(cfg, s, s', a.t);
  }

  lemma GetStepInv(cfg: Config, s: State, a: Act, s': State)
    requires Inv(cfg, s) && IsGet(a) && GetStep(cfg, s, a) == Some(s')
    ensures Inv(cfg, s')
  {
    GetSafe(cfg, s, a, s');
    GetShape(cfg, s, a, s');
    LockDelta(cfg, s, a.t, s');
    GetCalls(cfg, s, a, s');
    OwnerSame(s, s', a.t);
    MapSame(s, s');
  }

  // ---------------------------------------------------------------- Shutdown

  lemma ShutShape(cfg: Config, s: State, a: Act, s': State)
    requires IsShut(a) && ShutStep(cfg, s, a) == Some(s')
    ensures a.t in s.calls && s.calls[a.t].Shut? && a.t in s'.calls && s'.calls[a.t].Shut?
    ensures s'.calls == s.calls[a.t := s'.calls[a.t]]
    ensures s' == s.(jobs := s'.jobs, shutdown := s'.shutdown, writer := s'.writer, calls := s'.calls,
                     passed := s'.passed, taken := s'.taken, panicked := s'.panicked)
  {}

  lemma ShutWriter(cfg: Config, s: State, a: Act, s': State)
    requires LockInv(cfg, s) && IsShut(a) && ShutStep(cfg, s, a) == Some(s') && a.t in s'.calls && s'.calls[a.t].Shut?
    ensures s'.calls[a.t].shut.ShutPending? <==> s'.writer == Some(a.t)
    ensures s'.writer == s.writer || s'.writer == Some(a.t) || (s.writer == Some(a.t) && s'.writer.None?)
    ensures s.writer.Some? && s.writer != Some(a.t) ==> s'.writer == s.writer
  {}

  lemma ShutLock(cfg: Config, s: State, a: Act, s': State)
    requires LockInv(cfg, s) && IsShut(a) && ShutStep(cfg, s, a) == Some(s')
    ensures LockInv(cfg, s')
  {
    ShutShape(cfg, s, a, s');
    ShutWriter(cfg, s, a, s');
    assert Holders(s') == Holders(s);
  }

  /** With the reader count at zero no call is inside the lock. */
  lemma NobodyInside(cfg: Config, s: State, t: nat)
    requires LockInv(cfg, s) && s.readers == 0 && t in s.calls
    ensures !InLock(s.calls[t]) && !Active(s.calls[t])
  {
    assert Holders(s) == {};
    assert InLock(s.calls[t]) ==> t in Holders(s);
  }

  lemma OwnersActive(s: State)
    requires OwnerInv(s)
    ensures forall k :: k in s.owner ==> s.owner[k] in s.calls && Active(s.calls[s.owner[k]])
  {}

  /** Once the flag is set there is no placeholder left and none can appear. */
  lemma NoPlaceholders(cfg: Config, s: State)
    requires Inv(cfg, s) && s.shutdown
    ensures s.owner == map[] && !HasNil(Current(s))
  {
    OwnersActive(s);
    forall ns, id
      ensures Lookup(Current(s), ns, id) != Some(None)
    {
      assert Key(ns, id) !in s.owner;
    }
  }

  lemma FlipInv(cfg: Config, s: State, a: Act, s': State)
    requires Inv(cfg, s) && a.ShutFlip? && ShutStep(cfg, s, a) == Some(s')
    ensures FlagInv(s') && CallsInv(cfg, s') && Current(s') == Current(s) && !s'.panicked
  {
    ShutShape(cfg, s, a, s');
    forall t | t in s.calls
      ensures !Active(s.calls[t])
    {
      NobodyInside(cfg, s, t);
    }
    assert ShutInv(cfg, s, a.t, s.calls[a.t]);
    CallsStable(cfg, s, s', a.t);
  }

  lemma NewStopsRun(m: Jobs)
    ensures NewStops(m).Keys == AllJobs(m)
    ensures forall j :: j in NewStops(m) ==> NewStops(m)[j] == StopRunning
    ensures m == map[] ==> AllJobs(m) == {}
  {}

  /** The passing call itself. */
  lemma TakerInv(cfg: Config, s: State, t: nat, s': State)
    requires ShutAt(s, t).Some? && ShutTakeStep(s, t) == Some(s') && s.jobs.Some?
    requires ShutInv(cfg, s, t, s.calls[t])
    ensures t in s'.calls && ShutInv(cfg, s', t, s'.calls[t])
  {
    NewStopsRun(s.jobs.value);
  }

  /** The other calls, when the passing call takes the map. */
  lemma TakeCalls(cfg: Config, s: State, t: nat, s': State)
    requires CallsInv(cfg, s) && s.passed == Some(t) && s.taken.None?
    requires s' == s.(jobs := None, taken := s'.taken, calls := s'.calls, panicked := s'.panicked)
    requires t in s'.calls && s'.calls == s.calls[t := s'.calls[t]]
    requires SubInv(s', t, s'.calls[t]) && GetInv(s', s'.calls[t]) && ShutInv(cfg, s', t, s'.calls[t])
    ensures CallsInv(cfg, s')
  {
    forall u | u in s'.calls
      ensures SubInv(s', u, s'.calls[u]) && GetInv(s', s'.calls[u]) && ShutInv(cfg, s', u, s'.calls[u])
    {
      if u != t {
        assert SubInv(s, u, s.calls[u]) && GetInv(s, s.calls[u]) && ShutInv(cfg, s, u, s.calls[u]);
      }
    }
  }

  lemma TakeInv(cfg: Config, s: State, a: Act, s': State)
    requires Inv(cfg, s) && a.ShutTake? && ShutStep(cfg, s, a) == Some(s')
    ensures FlagInv(s') && CallsInv(cfg, s') && Current(s') == Current(s) && !s'.panicked
  {
    ShutShape(cfg, s, a, s');
    assert ShutInv(cfg, s, a.t, s.calls[a.t]);
    NoPlaceholders(cfg, s);
    TakerInv(cfg, s, a.t, s');
    TakeCalls(cfg, s, a.t, s');
  }

  lemma StopperCall(cfg: Config, s: State, t: nat, j: JobRef, byCtx: bool, s': State)
    requires ShutAt(s, t).Some? && StopReturnsStep(s, t, j, byCtx) == Some(s')
    requires ShutInv(cfg, s, t, s.calls[t])
    ensures t in s'.calls && ShutInv(cfg, s', t, s'.calls[t])
    ensures s' == s.(calls := s'.calls)
  {
    assert s'.calls[t].stops.Keys == s.calls[t].stops.Keys;
  }

  /** A waiting call, or one still to take the lock, moves on by itself. */
  lemma WaiterCall(cfg: Config, s: State, a: Act, s': State)
    requires IsShut(a) && !a.ShutFlip? && !a.ShutTake? && ShutStep(cfg, s, a) == Some(s')
    requires a.t in s.calls && a.t in s'.calls && ShutInv(cfg, s, a.t, s.calls[a.t])
    ensures ShutInv(cfg, s', a.t, s'.calls[a.t])
    ensures s' == s.(writer := s'.writer, calls := s'.calls)
  {
    if a.StopReturns? {
      StopperCall(cfg, s, a.t, a.job, a.byCtx, s');
    }
  }

  lemma WaitInv(cfg: Config, s: State, a: Act, s': State)
    requires Inv(cfg, s) && IsShut(a) && !a.ShutFlip? && !a.ShutTake? && ShutStep(cfg, s, a) == Some(s')
    ensures FlagInv(s') && CallsInv(cfg, s') && Current(s') == Current(s) && !s'.panicked
  {
    ShutShape(cfg, s, a, s');
    assert ShutInv(cfg, s, a.t, s.calls[a.t]);
    WaiterCall(cfg, s, a, s');
    CallsStable(cfg, s, s', a.t);
  }

  lemma ShutStepInv(cfg: Config, s: State, a: Act, s': State)
    requires Inv(cfg, s) && IsShut(a) && ShutStep(cfg, s, a) == Some(s')
    ensures Inv(cfg, s')
  {
    ShutShape(cfg, s, a, s');
    ShutLock(cfg, s, a, s');
    if a.ShutFlip? {
      FlipInv(cfg, s, a, s');
    } else if a.ShutTake? {
      TakeInv(cfg, s, a, s');
    } else {
      WaitInv(cfg, s, a, s');
    }
    OwnerSame(s, s', a.t);
    MapSame(s, s');
  }

  // ---------------------------------------------------------------- every step, every run

  /** A call that has just begun. */
  lemma NewCall(cfg: Config, s: State, a: Act, s': State)
    requires FlagInv(s) && IsNew(a) && Step(cfg, s, a) == Some(s')
    ensures a.t !in s.calls && a.t in s'.calls && s' == s.(calls := s.calls[a.t := s'.calls[a.t]])
    ensures !Active(s'.calls[a.t]) && Reserved(s'.calls[a.t]).None?
    ensures SubInv(s', a.t, s'.calls[a.t]) && GetInv(s', s'.calls[a.t]) && ShutInv(cfg, s', a.t, s'.calls[a.t])
  {}

  lemma NewStepInv(cfg: Config, s: State, a: Act, s': State)
    requires Inv(cfg, s) && IsNew(a) && Step(cfg, s, a) == Some(s')
    ensures Inv(cfg, s')
  {
    NewCall(cfg, s, a, s');
    NewLock(cfg, s, a, s');
    OwnerSame(s, s', a.t);
    MapSame(s, s');
    CallsStable(cfg, s, s', a.t);
  }

  lemma JobEndsInv(cfg: Config, s: State, a: Act, s': State)
    requires Inv(cfg, s) && a.JobEnds? && Step(cfg, s, a) == Some(s')
    ensures Inv(cfg, s')
  {
    assert Holders(s') == Holders(s);
    MapSame(s, s');
    forall t | t in s.calls
      ensures SubInv(s', t, s.calls[t]) && GetInv(s', s.calls[t]) && ShutInv(cfg, s', t, s.calls[t])
    {
      CallStable(cfg, s, s', t, s.calls[t]);
    }
  }

  /** Every enabled step of the registry keeps the invariant; in particular nothing panics. */
  lemma StepInv(cfg: Config, s: State, a: Act, s': State)
    requires Inv(cfg, s) && Step(cfg, s, a) == Some(s')
    ensures Inv(cfg, s')
  {
    if IsSubmit(a) {
      SubmitStepInv(cfg, s, a, s');
    } else if IsGet(a) {
      GetStepInv(cfg, s, a, s');
    } else if IsNew(a) {
      NewStepInv(cfg, s, a, s');
    } else if a.JobEnds? {
      JobEndsInv(cfg, s, a, s');
    } else {
      ShutStepInv(cfg, s, a, s');
    }
  }

  lemma {:induction false} RunInv(cfg: Config, s: State, acts: seq<Act>, t: State)
    requires Inv(cfg, s) && Run(cfg, s, acts) == Some(t)
    ensures Inv(cfg, t)
    decreases |acts|
  {
    if acts != [] {
      var u := Step(cfg, s, acts[0]).value;
      StepInv(cfg, s, acts[0], u);
      RunInv(cfg, u, acts[1..], t);
    }
  }

  lemma ReachableInv(cfg: Config, s: State)
    requires Reachable(cfg, s)
    ensures Inv(cfg, s)
  {
    var acts :| Run(cfg, INIT, acts) == Some(s);
    InitInv(cfg);
    RunInv(cfg, INIT, acts, s);
  }

  lemma RunCons(cfg: Config, s: State, a: Act, u: State, rest: seq<Act>, t: State)
    requires Step(cfg, s, a) == Some(u) && Run(cfg, u, rest) == Some(t)
    ensures Run(cfg, s, [a] + rest) == Some(t)
  {
    assert ([a] + rest)[1..] == rest;
  }

  lemma {:induction false} RunSnoc(cfg: Config, s: State, acts: seq<Act>, t: State, a: Act, u: State)
    requires Run(cfg, s, acts) == Some(t) && Step(cfg, t, a) == Some(u)
    ensures Run(cfg, s, acts + [a]) == Some(u)
    decreases |acts|
  {
    if acts == [] {
      assert ([] + [a])[1..] == [];
    } else {
      var v := Step(cfg, s, acts[0]).value;
      RunSnoc(cfg, v, acts[1..], t, a, u);
      assert (acts + [a])[1..] == acts[1..] + [a];
    }
  }

  /** One step of a concrete schedule. */
  lemma ReachableStep(cfg: Config, s: State, a: Act, t: State)
    requires Reachable(cfg, s) && Step(cfg, s, a) == Some(t)
    ensures Reachable(cfg, t)
  {
    var acts :| Run(cfg, INIT, acts) == Some(s);
    RunSnoc(cfg, INIT, acts, s, a, t);
  }

  lemma {:induction false} ReachableRun(cfg: Config, s: State, acts: seq<Act>, t: State)
    requires Reachable(cfg, s) && Run(cfg, s, acts) == Some(t)
    ensures Reachable(cfg, t)
    decreases |acts|
  {
    if acts != [] {
      var u := Step(cfg, s, acts[0]).value;
      ReachableStep(cfg, s, acts[0], u);
      ReachableRun(cfg, u, acts[1..], t);
    }
  }

  lemma {:induction false} RunJoin(cfg: Config, s: State, acts: seq<Act>, t: State, more: seq<Act>, u: State)
    requires Run(cfg, s, acts) == Some(t) && Run(cfg, t, more) == Some(u)
    ensures Run(cfg, s, acts + more) == Some(u)
    decreases |acts|
  {
    if acts == [] {
      assert [] + more == more;
    } else {
      RunJoin(cfg, Step(cfg, s, acts[0]).value, acts[1..], t, more, u);
      assert (acts + more)[1..] == acts[1..] + more;
    }
  }
}
