/** Main results about the registry and shutdown: they hold in every reachable state, for
    any number of concurrent callers. */
module RegistryTheorems {
  import opened Basics
  import opened JobMap
  import opened Registry
  import opened RegistryProofs

  // ---------------------------------------------------------------- registry

  /** Every placeholder belongs to exactly one submission in flight, and every submission
      between reserving and publishing or rolling back has its placeholder in the map. */
  lemma PlaceholderOwned(cfg: Config, s: State, ns: string, id: string)
    requires Reachable(cfg, s)
    ensures s.jobs.Some? && Lookup(s.jobs.value, ns, id) == Some(None)
            <==> exists t :: t in s.calls && Reserved(s.calls[t]) == Some(Key(ns, id))
    ensures forall t, u |
              t in s.calls && u in s.calls
              && Reserved(s.calls[t]) == Some(Key(ns, id)) && Reserved(s.calls[u]) == Some(Key(ns, id)) :: t == u
  {
    ReachableInv(cfg, s);
    var k := Key(ns, id);
    if s.jobs.Some? && Lookup(s.jobs.value, ns, id) == Some(None) {
      assert k in s.owner;
      assert Reserved(s.calls[s.owner[k]]) == Some(k);
    }
    if t :| t in s.calls && Reserved(s.calls[t]) == Some(k) {
      ReservedSlot(cfg, s, t);
    }
  }

  /** Each (namespace, ID) is published at most once, and what is published stays in the map,
      under its own name, until Shutdown takes the map over. */
  lemma PublishedOnce(cfg: Config, s: State)
    requires Reachable(cfg, s)
    ensures forall a, b :: 0 <= a < b < |s.published| ==>
              Key(s.published[a].namespace, s.published[a].id) != Key(s.published[b].namespace, s.published[b].id)
    ensures forall j :: j in s.published && s.jobs.Some? ==>
              Lookup(s.jobs.value, j.namespace, j.id) == Some(Some(j)) && j in s.started
  {
    ReachableInv(cfg, s);
    forall j | j in s.published && s.jobs.Some?
      ensures Lookup(s.jobs.value, j.namespace, j.id) == Some(Some(j)) && j in s.started
    {
      assert Current(s) == s.jobs.value;
    }
  }

  lemma PublishedKnown(cfg: Config, s: State, j: JobRef)
    requires Reachable(cfg, s) && j in s.published
    ensures j in s.started
  {
    ReachableInv(cfg, s);
    assert Lookup(Current(s), j.namespace, j.id) == Some(Some(j));
  }

  /** A submission is turned away as a duplicate exactly when a job was published under its
      name before, or another submission in flight holds that name. */
  lemma DuplicateIff(cfg: Config, s: State, t: nat, s': State)
    requires Reachable(cfg, s) && Step(cfg, s, SubHold(t)) == Some(s')
    ensures
      var ns, id := s.calls[t].ns, s.calls[t].sub.id;
      s'.calls[t].sub == SubRelease(SubErrExists)
      <==> || (exists j :: j in s.published && j.namespace == ns && j.id == id)
           || (exists u :: u in s.calls && u != t && Reserved(s.calls[u]) == Some(Key(ns, id)))
  {
    ReachableInv(cfg, s);
    var ns, id := s.calls[t].ns, s.calls[t].sub.id;
    assert Active(s.calls[t]) && Current(s) == s.jobs.value;
    PlaceholderOwned(cfg, s, ns, id);
    match Lookup(s.jobs.value, ns, id) {
      case Some(Some(j)) => assert j in s.published && j.namespace == ns && j.id == id;
      case _ =>
    }
  }

  /** A failed submission removes its own placeholder and nothing else. */
  lemma RollbackRemovesOwn(cfg: Config, s: State, t: nat, s': State)
    requires Reachable(cfg, s) && Step(cfg, s, SubUndo(t)) == Some(s')
    ensures s.jobs.Some? && s'.jobs.Some?
    ensures
      var k := Reserved(s.calls[t]).value;
      && Lookup(s.jobs.value, k.ns, k.id) == Some(None)
      && (forall ns, id :: Lookup(s'.jobs.value, ns, id) ==
            if Key(ns, id) == k then None else Lookup(s.jobs.value, ns, id))
  {
    ReachableInv(cfg, s);
    ReservedSlot(cfg, s, t);
    var k := Reserved(s.calls[t]).value;
    forall ns, id
      ensures Lookup(s'.jobs.value, ns, id) == if Key(ns, id) == k then None else Lookup(s.jobs.value, ns, id)
    {
      LookupDelete(s.jobs.value, k.ns, k.id, ns, id);
    }
  }

  /** GetJob yields only fully started jobs that bear the requested namespace and ID. */
  lemma GetJobSound(cfg: Config, s: State, t: nat, j: JobRef)
    requires Reachable(cfg, s) && t in s.calls && s.calls[t].Get?
    requires s.calls[t].get == GetReturned(GetFound(Some(j)))
    ensures j.namespace == s.calls[t].ns && j.id == s.calls[t].id && j in s.started && j in s.published
  {
    ReachableInv(cfg, s);
    assert GetInv(s, s.calls[t]);
  }

  /** What a GetJob reads is exactly the job published under that name so far, if any:
      reserved IDs read as not found. */
  lemma GetJobExact(cfg: Config, s: State, t: nat, s': State, j: JobRef)
    requires Reachable(cfg, s) && Step(cfg, s, GetRead(t)) == Some(s')
    ensures s'.calls[t].get == GetRelease(GetFound(Some(j)))
            <==> j in s.published && j.namespace == s.calls[t].ns && j.id == s.calls[t].id
  {
    ReachableInv(cfg, s);
    assert Active(s.calls[t]);
    assert Current(s) == s.jobs.value;
    assert j in s.published ==> Lookup(Current(s), j.namespace, j.id) == Some(Some(j));
  }

  /** A successful SubmitJob returns its own started and published job under the requested
      ID, or a non-empty generated one. */
  lemma SubmitSound(cfg: Config, s: State, t: nat, j: JobRef)
    requires Reachable(cfg, s) && t in s.calls && s.calls[t].Submit?
    requires s.calls[t].sub == SubReturned(SubOk(j))
    ensures j in s.published && j in s.started && j.submission == t && j.namespace == s.calls[t].ns
    ensures j.id != "" && (s.calls[t].reqId != "" ==> j.id == s.calls[t].reqId)
  {
    ReachableInv(cfg, s);
    assert SubInv(s, t, s.calls[t]);
  }

  // ---------------------------------------------------------------- shutdown

  /** Shutdown misses nothing: the map it takes holds every job whose submission ever
      succeeded, under its own name, and no placeholder; and no step ever panics, so no
      submission writes to the nil map and no Stop is called on a nil job. */
  lemma ShutdownMissesNothing(cfg: Config, s: State)
    requires Reachable(cfg, s)
    ensures !s.panicked
    ensures s.jobs.None? <==> s.taken.Some?
    ensures s.taken.Some? ==>
      && !HasNil(s.taken.value)
      && (forall j :: j in s.published ==> Lookup(s.taken.value, j.namespace, j.id) == Some(Some(j)))
      && (forall j :: j in s.published <==> j in AllJobs(s.taken.value))
  {
    ReachableInv(cfg, s);
    if s.taken.Some? {
      var m := s.taken.value;
      NoPlaceholders(cfg, s);
      forall j: JobRef
        ensures j in s.published <==> j in AllJobs(m)
      {
        if j in s.published {
          AllJobsLookup(m, j.namespace, j.id, j);
        }
        if j in AllJobs(m) {
          AllJobsWitness(m, j);
          var ns, id :| Lookup(m, ns, id) == Some(Some(j));
        }
      }
    }
  }

  /** What the history keeps once the flag is set. */
  ghost predicate Frozen(s: State, t: State) {
    && t.shutdown && t.passed == s.passed && t.published == s.published && s.finished <= t.finished
    && (s.taken.Some? ==> t.taken == s.taken)
  }

  lemma SubmitFrozen(cfg: Config, s: State, a: Act, t: State)
    requires Inv(cfg, s) && s.shutdown && IsSubmit(a) && SubmitStep(s, a) == Some(t)
    ensures Frozen(s, t)
  {
    SubmitSafe(cfg, s, a, t);
    SubmitShape(s, a, t);
    assert !Active(s.calls[a.t]);
  }

  lemma ShutFrozen(cfg: Config, s: State, a: Act, t: State)
    requires Inv(cfg, s) && s.shutdown && IsShut(a) && ShutStep(cfg, s, a) == Some(t)
    ensures Frozen(s, t)
  {
    ShutShape(cfg, s, a, t);
    assert ShutInv(cfg, s, a.t, s.calls[a.t]);
  }

  lemma FrozenStep(cfg: Config, s: State, a: Act, t: State)
    requires Inv(cfg, s) && s.shutdown && Step(cfg, s, a) == Some(t)
    ensures Frozen(s, t)
  {
    if IsSubmit(a) {
      SubmitFrozen(cfg, s, a, t);
    } else if IsGet(a) {
      GetSafe(cfg, s, a, t);
      GetShape(cfg, s, a, t);
    } else if IsShut(a) {
      ShutFrozen(cfg, s, a, t);
    }
  }

  /** After the flag is set no submission succeeds any more: over every continuation the set
      of published jobs, the call that passed and the map it took stay as they are. */
  lemma {:induction false} NothingPublishedAfterFlag(cfg: Config, s: State, acts: seq<Act>, t: State)
    requires Inv(cfg, s) && s.shutdown && Run(cfg, s, acts) == Some(t)
    ensures Frozen(s, t)
    decreases |acts|
  {
    if acts != [] {
      var u := Step(cfg, s, acts[0]).value;
      StepInv(cfg, s, acts[0], u);
      FrozenStep(cfg, s, acts[0], u);
      NothingPublishedAfterFlag(cfg, u, acts[1..], t);
    }
  }

  /** At most one call in a run returns anything but ErrShutdown. */
  lemma OneCallPasses(cfg: Config, s: State, t: nat, u: nat)
    requires Reachable(cfg, s) && t != u
    requires ShutAt(s, t).Some? && ShutAt(s, t).value.ShutReturned?
    requires ShutAt(s, u).Some? && ShutAt(s, u).value.ShutReturned?
    ensures s.calls[t].shut == ShutReturned(ShutErrShutdown) || s.calls[u].shut == ShutReturned(ShutErrShutdown)
  {
    ReachableInv(cfg, s);
    assert ShutInv(cfg, s, t, s.calls[t]) && ShutInv(cfg, s, u, s.calls[u]);
  }

  /** A call that has not yet flipped the flag when it is already set. */
  ghost predicate TooLate(s: State, t: nat) {
    s.shutdown && ShutAt(s, t).Some? &&
    var pc := ShutAt(s, t).value;
    pc.ShutStart? || pc.ShutPending? || pc == ShutReturned(ShutErrShutdown)
  }

  lemma TooLateShut(cfg: Config, s: State, t: nat, a: Act, s': State)
    requires TooLate(s, t) && IsShut(a) && ShutStep(cfg, s, a) == Some(s')
    ensures TooLate(s', t)
  {
    ShutShape(cfg, s, a, s');
  }

  lemma TooLateStep(cfg: Config, s: State, t: nat, a: Act, s': State)
    requires Inv(cfg, s) && TooLate(s, t) && Step(cfg, s, a) == Some(s')
    ensures TooLate(s', t)
  {
    if IsSubmit(a) {
      SubmitSafe(cfg, s, a, s');
      SubmitShape(s, a, s');
    } else if IsGet(a) {
      GetSafe(cfg, s, a, s');
      GetShape(cfg, s, a, s');
    } else if IsShut(a) {
      TooLateShut(cfg, s, t, a, s');
    }
  }

  lemma {:induction false} TooLateRun(cfg: Config, s: State, t: nat, acts: seq<Act>, s': State)
    requires Inv(cfg, s) && TooLate(s, t) && Run(cfg, s, acts) == Some(s')
    ensures TooLate(s', t)
    ensures ShutAt(s', t).value.ShutReturned? ==> ShutAt(s', t).value.result == ShutErrShutdown
    decreases |acts|
  {
    if acts != [] {
      var u := Step(cfg, s, acts[0]).value;
      TooLateStep(cfg, s, t, acts[0], u);
      StepInv(cfg, s, acts[0], u);
      TooLateRun(cfg, u, t, acts[1..], s');
    }
  }

  /** A Shutdown that begins after another one has returned, such as the server's forced
      attempt after the graceful one timed out, can only return ErrShutdown, whatever the
      first result was and whatever happens in between. */
  lemma SecondShutdownFails(cfg: Config, s: State, first: nat, second: nat, acts: seq<Act>, s': State)
    requires Reachable(cfg, s) && Run(cfg, s, acts) == Some(s')
    requires ShutAt(s, first).Some? && ShutAt(s, first).value.ShutReturned?
    requires ShutAt(s, second) == Some(ShutStart)
    ensures ShutAt(s', second).Some?
    ensures ShutAt(s', second).value.ShutReturned? ==> ShutAt(s', second).value.result == ShutErrShutdown
  {
    ReachableInv(cfg, s);
    assert ShutInv(cfg, s, first, s.calls[first]);
    TooLateRun(cfg, s, second, acts, s');
  }

  ghost predicate AllFinished(s: State) { s.taken.Some? && forall j :: j in AllJobs(s.taken.value) ==> j in s.finished }

  /** The result of the call that passed the flag. Nil: every Stop goroutine has returned, so
      each job has finished or the context has closed; with the context still open, or with
      stop errors reported, all jobs have finished. The context error: the context closed. */
  lemma ShutdownResult(cfg: Config, s: State, t: nat)
    requires Reachable(cfg, s) && ShutAt(s, t).Some? && ShutAt(s, t).value.ShutReturned?
    ensures
      var c := s.calls[t];
      match c.shut.result
      case ShutNil =>
        && s.passed == Some(t) && s.taken.Some? && c.stops.Keys == AllJobs(s.taken.value)
        && AllReturned(c.stops)
        && (forall j :: j in AllJobs(s.taken.value) ==> j in s.finished || c.ctxClosed)
        && (!c.ctxClosed || cfg.reportStopErrors ==> AllFinished(s))
      case ShutCtxErr => s.passed == Some(t) && c.ctxClosed
      case ShutErrShutdown => s.passed.Some? && s.passed != Some(t)
  {
    ReachableInv(cfg, s);
    assert ShutInv(cfg, s, t, s.calls[t]);
  }
}
