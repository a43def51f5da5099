/** The Worker object. Each method is one call; a submission lets other submissions run to
    their end while it starts its job. Arbitrary interleavings of the lock sections of any
    number of calls are the subject of the Registry module. */
module WorkerObject {
  import opened Basics
  import opened JobMap
  import opened JobObject
  import opened ShutdownWait
  import R = Registry

  /** What a Shutdown has come to when it has requested the stops: a result, or a wait for
      these jobs. */
  datatype ShutOutcome = Returned(result: R.ShutResult) | Waits(jobs: set<JobRef>)

  /** A submission: the arguments, the ID it would generate, whether a root FS option was
      given, whether the runner manages to start the job, and the submissions that take place
      while it does. */
  datatype Submission =
    Submission(ns: string, reqId: string, generated: string, rootFs: bool, starts: bool, during: seq<Submission>)
  {
    function Id(): string { if reqId == "" then generated else reqId }

    predicate CanStart(hasLimits: bool) { (hasLimits || !rootFs) && starts }
  }

  /** Every job in the map sits under its own name and has its record. */
  ghost predicate Named(m: Jobs, known: set<JobRef>) {
    forall ns, id, j: JobRef :: Lookup(m, ns, id) == Some(Some(j)) ==> j.namespace == ns && j.id == id && j in known
  }

  /** What finished submissions by others may do to a key: fill it with a job if it was free. */
  ghost predicate Filled(before: Option<Option<JobRef>>, after: Option<Option<JobRef>>) {
    after == before || (before.None? && after.Some? && after.value.Some?)
  }

  ghost predicate OthersFilled(m: Jobs, m': Jobs) {
    forall n, i :: Filled(Lookup(m, n, i), Lookup(m', n, i))
  }

  lemma HeldKey(m: Jobs, k: Key)
    ensures Changed(m, Put(WithNamespace(m, k.ns), k.ns, k.id, None), k, Some(None))
  {
    forall n, i
      ensures Lookup(Put(WithNamespace(m, k.ns), k.ns, k.id, None), n, i)
           == if Key(n, i) == k then Some(None) else Lookup(m, n, i)
    {
      LookupWithNamespace(m, k.ns, n, i);
      LookupPut(WithNamespace(m, k.ns), k.ns, k.id, None, n, i);
    }
  }

  lemma PublishedKey(m: Jobs, k: Key, j: JobRef)
    requires k.ns in m
    ensures Changed(m, Put(m, k.ns, k.id, Some(j)), k, Some(Some(j)))
  {
    forall n, i
      ensures Lookup(Put(m, k.ns, k.id, Some(j)), n, i) == if Key(n, i) == k then Some(Some(j)) else Lookup(m, n, i)
    {
      LookupPut(m, k.ns, k.id, Some(j), n, i);
    }
  }

  lemma FreedKey(m: Jobs, k: Key)
    ensures Changed(m, Delete(m, k.ns, k.id), k, None)
  {
    forall n, i
      ensures Lookup(Delete(m, k.ns, k.id), n, i) == if Key(n, i) == k then None else Lookup(m, n, i)
    {
      LookupDelete(m, k.ns, k.id, n, i);
    }
  }

  lemma AllKnown(m: Jobs, known: set<JobRef>)
    requires Named(m, known)
    ensures AllJobs(m) <= known
  {
    forall j | j in AllJobs(m)
      ensures j in known
    {
      AllJobsWitness(m, j);
    }
  }

  class Worker {
    const hasLimits: bool
    var jobs: Option<Jobs>
    var objects: map<JobRef, Job>  // the job records that the references in the map stand for
    var shutdown: bool
    var readers: nat               // reader count of shutdownLock
    var submissions: nat

    constructor (hasLimits: bool)
      ensures Valid() && jobs == Some(map[]) && !shutdown && readers == 0 && objects == map[]
      ensures this.hasLimits == hasLimits
    {
      this.hasLimits := hasLimits;
      jobs := Some(map[]);
      objects := map[];
      shutdown := false;
      readers := 0;
      submissions := 0;
    }

    ghost predicate Valid() reads this {
      && (jobs.None? ==> shutdown)
      && (forall j :: j in objects ==> j.submission < submissions)
      && (jobs.Some? ==> Named(jobs.value, objects.Keys))
    }

    /** GetJob as written: the deferred call takes the read lock a second time. */
    method GetJob(ns: string, id: string) returns (r: R.GetResult)
      requires Valid()
      modifies this`readers
      ensures Valid() && readers == old(readers) + 2
      ensures r == if shutdown then R.GetErrShutdown else R.GetFound(JobAt(jobs.value, ns, id))
      ensures r.GetFound? && r.job.Some? ==>
        r.job.value.namespace == ns && r.job.value.id == id && r.job.value in objects
    {
      readers := readers + 1;
      if shutdown {
        r := R.GetErrShutdown;
      } else {
        r := R.GetFound(JobAt(jobs.value, ns, id));
      }
      readers := readers + 1;
    }

    /** Put a nil entry in the map to hold the ID, if it is not in use. */
    method Reserve(ns: string, id: string) returns (inUse: bool)
      requires Valid() && jobs.Some?
      modifies this`jobs
      ensures Valid() && jobs.Some?
      ensures inUse <==> Lookup(old(jobs).value, ns, id).Some?
      ensures inUse ==> jobs == old(jobs)
      ensures !inUse ==> Changed(old(jobs).value, jobs.value, Key(ns, id), Some(None))
    {
      inUse := Lookup(jobs.value, ns, id).Some?;
      if !inUse {
        HeldKey(jobs.value, Key(ns, id));
        jobs := Some(Put(WithNamespace(jobs.value, ns), ns, id, None));
      }
    }

    /** Give the held ID up again. */
    method Release(ns: string, id: string)
      requires Valid() && jobs.Some?
      modifies this`jobs
      ensures Valid() && jobs.Some? && Changed(old(jobs).value, jobs.value, Key(ns, id), None)
    {
      FreedKey(jobs.value, Key(ns, id));
      jobs := Some(Delete(jobs.value, ns, id));
    }

    /** Put the started job in the place of the nil entry. */
    method Publish(ns: string, id: string) returns (j: JobRef)
      requires Valid() && jobs.Some? && Lookup(jobs.value, ns, id) == Some(None)
      modifies this`jobs, this`objects, this`submissions
      ensures Valid() && jobs.Some? && Changed(old(jobs).value, jobs.value, Key(ns, id), Some(Some(j)))
      ensures j == JobRef(ns, id, old(submissions)) && j !in old(objects) && j in objects
      ensures fresh(objects[j]) && objects[j].Valid() && objects == old(objects)[j := objects[j]]
    {
      var record := new Job();
      j := JobRef(ns, id, submissions);
      PublishedKey(jobs.value, Key(ns, id), j);
      jobs := Some(Put(jobs.value, ns, id, Some(j)));
      objects := objects[j := record];
      submissions := submissions + 1;
    }

    /** Other submissions, one after the other. */
    method Others(subs: seq<Submission>)
      requires Valid() && jobs.Some? && !shutdown
      modifies this`jobs, this`objects, this`readers, this`submissions
      ensures Valid() && jobs.Some? && readers == old(readers)
      ensures OthersFilled(old(jobs).value, jobs.value)
      ensures forall j :: j in old(objects) ==> j in objects && objects[j] == old(objects)[j]
      ensures subs == [] ==> jobs == old(jobs) && objects == old(objects) && submissions == old(submissions)
      ensures old(submissions) <= submissions
      decreases subs, 0
    {
      if subs != [] {
        var _ := SubmitJob(subs[0]);
        Others(subs[1..]);
      }
    }

    /** Start the job while others go on, then publish it under the held ID or give the ID up. */
    method Launch(sub: Submission, ghost before: Jobs) returns (r: R.SubResult)
      requires Valid() && jobs.Some? && !shutdown
      requires Lookup(before, sub.ns, sub.Id()).None?
      requires Changed(before, jobs.value, Key(sub.ns, sub.Id()), Some(None))
      modifies this`jobs, this`objects, this`readers, this`submissions
      ensures Valid() && jobs.Some? && readers == old(readers)
      ensures if sub.CanStart(hasLimits) then r.SubOk? else r == R.SubErrStart
      ensures Lookup(jobs.value, sub.ns, sub.Id()) == if r.SubOk? then Some(Some(r.job)) else None
      ensures OthersFilled(before, jobs.value)
      ensures sub.during == [] ==> forall n, i :: (n != sub.ns || i != sub.Id()) ==>
                Lookup(jobs.value, n, i) == Lookup(before, n, i)
      ensures r.SubOk? ==>
        && r.job.namespace == sub.ns && r.job.id == sub.Id() && r.job !in old(objects) && r.job in objects
        && fresh(objects[r.job]) && objects[r.job].Valid()
      ensures forall j :: j in old(objects) ==> j in objects && objects[j] == old(objects)[j]
      ensures old(submissions) <= submissions
      decreases sub, 0
    {
      ghost var m1 := jobs.value;
      Others(sub.during);
      assert Filled(Lookup(m1, sub.ns, sub.Id()), Lookup(jobs.value, sub.ns, sub.Id()));
      if sub.CanStart(hasLimits) {
        var j := Publish(sub.ns, sub.Id());
        r := R.SubOk(j);
      } else {
        Release(sub.ns, sub.Id());
        r := R.SubErrStart;
      }
    }

    /** SubmitJob. Whatever other submissions do while its job is started, with the map lock
        free, its nil entry keeps the ID for it. It succeeds exactly if the ID was free and the
        job can be started, and then its own new job sits under that ID; otherwise the ID reads
        as before. All other keys are as the others leave them: what was there stays, and no
        nil entry is left behind. The read lock is released on every path. */
    method SubmitJob(sub: Submission) returns (r: R.SubResult)
      requires Valid()
      modifies this`jobs, this`objects, this`readers, this`submissions
      ensures Valid() && readers == old(readers)
      ensures r == R.SubErrShutdown <==> shutdown
      ensures shutdown ==> jobs == old(jobs) && objects == old(objects)
      ensures !shutdown ==>
        var before, after := old(jobs).value, jobs.value;
        && (r == R.SubErrExists <==> Lookup(before, sub.ns, sub.Id()).Some?)
        && (r == R.SubErrStart <==> Lookup(before, sub.ns, sub.Id()).None? && !sub.CanStart(hasLimits))
        && Lookup(after, sub.ns, sub.Id())
           == (if r.SubOk? then Some(Some(r.job)) else Lookup(before, sub.ns, sub.Id()))
        && OthersFilled(before, after)
        && (sub.during == [] ==> forall n, i :: (n != sub.ns || i != sub.Id()) ==>
              Lookup(after, n, i) == Lookup(before, n, i))
      ensures r.SubOk? ==>
        && r.job.namespace == sub.ns && r.job.id == sub.Id() && r.job !in old(objects) && r.job in objects
        && fresh(objects[r.job]) && objects[r.job].Valid()
      ensures forall j :: j in old(objects) ==> j in objects && objects[j] == old(objects)[j]
      ensures old(submissions) <= submissions
      decreases sub, 1
    {
      readers := readers + 1;
      if shutdown {
        readers := readers - 1;
        return R.SubErrShutdown;
      }
      ghost var before := jobs.value;
      var inUse := Reserve(sub.ns, sub.Id());
      if inUse {
        readers := readers - 1;
        return R.SubErrExists;
      }
      r := Launch(sub, before);
      readers := readers - 1;
    }

    /** Request a stop of every job. */
    method StopAll(all: set<JobRef>, force: bool)
      requires all <= objects.Keys
      modifies objects.Values`stopRequested, objects.Values`forceRequested
      ensures forall j :: j in all ==> if force then objects[j].forceRequested else objects[j].stopRequested
    {
      var rest := all;
      while rest != {}
        invariant rest <= all
        invariant forall j :: j in all - rest ==>
          if force then objects[j].forceRequested else objects[j].stopRequested
        decreases |rest|
      {
        var j :| j in rest;
        objects[j].RequestStop(force);
        rest := rest - {j};
      }
    }

    /** Shutdown up to its wait: it sets the flag, takes the map and requests a stop of every
        job in it. With no job it returns nil at once; a second call only fails. */
    method StopJobs(force: bool) returns (r: ShutOutcome)
      requires Valid()
      requires shutdown || !HasNil(jobs.value)
      modifies this`jobs, this`shutdown, objects.Values`stopRequested, objects.Values`forceRequested
      ensures Valid() && shutdown && objects == old(objects)
      ensures old(shutdown) ==> r == Returned(R.ShutErrShutdown) && jobs == old(jobs)
      ensures !old(shutdown) ==>
        && jobs.None?
        && r == (if old(jobs).value == map[] then Returned(R.ShutNil) else Waits(AllJobs(old(jobs).value)))
        && (forall j :: j in AllJobs(old(jobs).value) ==>
              j in objects && (if force then objects[j].forceRequested else objects[j].stopRequested))
    {
      var already := shutdown;
      shutdown := true;
      if already {
        return Returned(R.ShutErrShutdown);
      }
      var all := AllJobs(jobs.value);
      AllKnown(jobs.value, objects.Keys);
      var empty := jobs.value == map[];
      jobs := None;
      if empty {
        assert AllJobs(map[]) == {};
        return Returned(R.ShutNil);
      }
      StopAll(all, force);
      r := Waits(all);
    }

    /** Shutdown. `events` are what happens while it waits for the Stop goroutines, `late` what
        happens between its two selects; None is a call that still waits. Nil after a wait means
        that every Stop has returned; the context's error that the context closed first. */
    method Shutdown(force: bool, events: seq<StopEvent>, late: seq<StopEvent>) returns (r: Option<R.ShutResult>)
      requires Valid()
      requires shutdown || !HasNil(jobs.value)
      modifies this`jobs, this`shutdown, objects.Values`stopRequested, objects.Values`forceRequested
      ensures Valid() && shutdown && objects == old(objects)
      ensures r == Some(R.ShutErrShutdown) <==> old(shutdown)
      ensures old(shutdown) ==> jobs == old(jobs)
      ensures !old(shutdown) ==>
        var all := AllJobs(old(jobs).value);
        && jobs.None?
        && (forall j :: j in all ==>
              j in objects && (if force then objects[j].forceRequested else objects[j].stopRequested))
        && (old(jobs).value == map[] ==> r == Some(R.ShutNil))
        && (old(jobs).value != map[] ==>
              && (r == Some(R.ShutNil) ==> forall j :: j in all ==> StopReturned(j) in events + late)
              && (r == Some(R.ShutCtxErr) ==> CtxClosed in events)
              && (r == None ==> CtxClosed !in events))
    {
      var begun := StopJobs(force);
      match begun {
        case Returned(result) => r := Some(result);
        case Waits(all) => r := AwaitStops(all, events, late);
      }
    }
  }
}
