/** The job's own goroutines can always go on, whatever its clients do or leave undone: the
    lock holder can release the lock, a pipe can store what it has read, and once its child
    has closed both pipes the job can be marked done. */
module JobProgress {
  import opened Basics
  import opened JobData
  import opened JobSystem
  import opened JobCoreProofs
  import opened JobTheorems
  import opened SystemProofs

  /** Steps of the job's own goroutines only. */
  ghost predicate CoreOnly(acts: seq<Act>) { forall i :: 0 <= i < |acts| ==> acts[i].CoreDo? }

  /** `t` is reached from `s` by such steps. */
  ghost predicate Leads(cfg: Config, s: State, acts: seq<Act>, t: State) {
    Run(cfg, s, acts) == Some(t) && CoreOnly(acts)
  }

  lemma Lead(cfg: Config, s: State, a: CoreAct, u: State, rest: seq<Act>, t: State) returns (acts: seq<Act>)
    requires Step(cfg, s, CoreDo(a)) == Some(u) && Leads(cfg, u, rest, t)
    ensures Leads(cfg, s, acts, t) && |acts| == |rest| + 1
  {
    acts := [CoreDo(a)] + rest;
    RunCons(cfg, s, CoreDo(a), u, rest, t);
  }

  /** One step of the core, with the invariant. */
  lemma CoreStepTo(cfg: Config, s: State, a: CoreAct) returns (t: State)
    requires Inv(cfg, s) && CoreStep(cfg, s.core, a).Some?
    ensures Step(cfg, s, CoreDo(a)) == Some(t) && t == s.(core := CoreStep(cfg, s.core, a).value)
    ensures Inv(cfg, t)
  {
    t := s.(core := CoreStep(cfg, s.core, a).value);
    StepInv(cfg, s, CoreDo(a), t);
  }

  // ---------------------------------------------------------------- the lock

  lemma HolderKeepsJob(cfg: Config, k: Core, a: CoreAct, k': Core)
    requires HolderStep(a) && CoreStep(cfg, k, a) == Some(k')
    ensures k'.job == k.job
  {}

  /** The lock is released by its holder's steps, at most as many as its work, with the job and
      all clients as they are. */
  lemma {:induction false} FreeLock(cfg: Config, s: State) returns (acts: seq<Act>, t: State)
    requires Inv(cfg, s)
    ensures Leads(cfg, s, acts, t) && Inv(cfg, t) && |acts| <= LockWork(s.core)
    ensures t.core.lock.Unlocked? && t.core.job == s.core.job && t.clients == s.clients
    decreases LockWork(s.core)
  {
    if s.core.lock.Unlocked? {
      acts, t := [], s;
    } else {
      var a := HolderActs(cfg, s.core);
      var u := CoreStepTo(cfg, s, a);
      CoreLockWork(cfg, s.core, a, u.core);
      HolderKeepsJob(cfg, s.core, a, u.core);
      var rest;
      rest, t := FreeLock(cfg, u);
      acts := Lead(cfg, s, a, u, rest, t);
    }
  }

  // ---------------------------------------------------------------- one pipe

  /** The pipe has returned the last bytes it ever will. */
  predicate LastRead(p: Pipe) { p.Ended? || ((p.Got? || p.Publishing?) && p.last) }

  /** Work left until the lock is free and the pipe is ready to read again. */
  function PipeWork(p: Pipe): nat {
    match p case Got(_, _) => 2 case Publishing(_) => 1 case _ => 0
  }

  lemma HolderKeepsPipe(cfg: Config, k: Core, a: CoreAct, k': Core, st: Stream)
    requires HolderStep(a) && CoreStep(cfg, k, a) == Some(k')
    ensures k'.read == k.read && (LastRead(k'.pipes.At(st)) <==> LastRead(k.pipes.At(st)))
    ensures PipeWork(k'.pipes.At(st)) <= PipeWork(k.pipes.At(st))
  {}

  /** The next step of the lock holder, or else the pipe's append. */
  lemma SettleStep(cfg: Config, s: State, st: Stream) returns (a: CoreAct, t: State)
    requires Inv(cfg, s) && !(s.core.lock.Unlocked? && PipeWork(s.core.pipes.At(st)) == 0)
    ensures Step(cfg, s, CoreDo(a)) == Some(t) && Inv(cfg, t)
    ensures t.clients == s.clients && t.core.read == s.core.read
    ensures LastRead(t.core.pipes.At(st)) <==> LastRead(s.core.pipes.At(st))
    ensures
      || PipeWork(t.core.pipes.At(st)) < PipeWork(s.core.pipes.At(st))
      || (PipeWork(t.core.pipes.At(st)) == PipeWork(s.core.pipes.At(st)) && LockWork(t.core) < LockWork(s.core))
  {
    var k := s.core;
    if k.lock.Unlocked? {
      assert PipeInv(k, st);
      a := PipeAppend(st);
      t := CoreStepTo(cfg, s, a);
    } else {
      a := HolderActs(cfg, k);
      t := CoreStepTo(cfg, s, a);
      CoreLockWork(cfg, k, a, t.core);
      HolderKeepsPipe(cfg, k, a, t.core, st);
    }
  }

  /** The lock becomes free and the pipe stores what it holds, with nothing more read. */
  lemma {:induction false} Settle(cfg: Config, s: State, st: Stream) returns (acts: seq<Act>, t: State)
    requires Inv(cfg, s) && !LastRead(s.core.pipes.At(st))
    ensures Leads(cfg, s, acts, t) && Inv(cfg, t) && t.clients == s.clients && t.core.read == s.core.read
    ensures t.core.lock.Unlocked? && t.core.pipes.At(st).Reading?
    decreases PipeWork(s.core.pipes.At(st)), LockWork(s.core)
  {
    if s.core.lock.Unlocked? && PipeWork(s.core.pipes.At(st)) == 0 {
      acts, t := [], s;
    } else {
      var a, u := SettleStep(cfg, s, st);
      var rest;
      rest, t := Settle(cfg, u, st);
      acts := Lead(cfg, s, a, u, rest, t);
    }
  }

  /** The child writes one more chunk and the pipe stores it. */
  lemma Grow(cfg: Config, s: State, st: Stream, chunk: seq<byte>) returns (acts: seq<Act>, t: State)
    requires Inv(cfg, s) && s.core.lock.Unlocked? && s.core.pipes.At(st).Reading? && 1 <= |chunk| <= CHUNK
    ensures Leads(cfg, s, acts, t) && Inv(cfg, t) && t.clients == s.clients
    ensures t.core.lock.Unlocked? && t.core.pipes.At(st).Reading?
    ensures t.core.job.output.At(st) == s.core.job.output.At(st) + chunk
  {
    var u := CoreStepTo(cfg, s, PipeRead(st, chunk, false));
    acts, t := Settle(cfg, u, st);
    acts := Lead(cfg, s, PipeRead(st, chunk, false), u, acts, t);
    assert PipeInv(s.core, st) && PipeInv(t.core, st);
    assert s.core.job.output.At(st) + [] == s.core.read.At(st);
    assert t.core.job.output.At(st) + [] == t.core.read.At(st);
  }

  // ---------------------------------------------------------------- the job ends

  function EndWork(p: Pipe): nat {
    match p case Got(_, _) => 3 case Publishing(_) => 2 case Reading => 1 case Ended => 0
  }

  function WaiterWork(w: Waiter): nat {
    match w
    case AwaitStdout => 5
    case AwaitStderr => 4
    case AwaitExit => 3
    case HasCode(_) => 2
    case Marking(_) => 1
    case Finished(_) => 0
  }

  function DoneWork(k: Core): nat { EndWork(k.pipes.stdout) + EndWork(k.pipes.stderr) + WaiterWork(k.waiter) }

  /** With the lock free: a pipe stores its chunk or finds its end, or the waiter goes on. */
  function NextAct(k: Core, code: int): CoreAct {
    if k.pipes.stdout.Got? then PipeAppend(Stdout)
    else if k.pipes.stdout.Reading? then PipeRead(Stdout, [], true)
    else if k.pipes.stderr.Got? then PipeAppend(Stderr)
    else if k.pipes.stderr.Reading? then PipeRead(Stderr, [], true)
    else if k.waiter.AwaitExit? then Reap(code)
    else if k.waiter.HasCode? then SetExit
    else PipeJoined
  }

  /** The exit code the job ends with: the one it was reaped with, or else the given one. */
  function Outcome(k: Core, code: int): int {
    if k.waiter.AwaitStdout? || k.waiter.AwaitStderr? || k.waiter.AwaitExit? then code else k.waiter.code
  }

  lemma NextActs(cfg: Config, k: Core, code: int)
    requires CoreInv(cfg, k) && k.lock.Unlocked? && !k.waiter.Finished?
    ensures
      var r := CoreStep(cfg, k, NextAct(k, code));
      r.Some? && DoneWork(r.value) < DoneWork(k) && Outcome(r.value, code) == Outcome(k, code)
  {
    assert PipeInv(k, Stdout) && PipeInv(k, Stderr);
  }

  /** Nothing more is read from the child. */
  lemma NextReadsNothing(cfg: Config, k: Core, code: int, k': Core)
    requires CoreStep(cfg, k, NextAct(k, code)) == Some(k')
    ensures k'.read == k.read
  {
    assert k.read.stdout + [] == k.read.stdout && k.read.stderr + [] == k.read.stderr;
  }

  lemma HolderKeepsWork(cfg: Config, k: Core, a: CoreAct, k': Core, code: int)
    requires CoreInv(cfg, k) && HolderStep(a) && CoreStep(cfg, k, a) == Some(k')
    ensures DoneWork(k') <= DoneWork(k) && Outcome(k', code) == Outcome(k, code) && k'.read == k.read
  {}

  /** What the way to the end keeps. */
  ghost predicate Heads(s: State, t: State, code: int) {
    && t.clients == s.clients && t.core.read == s.core.read && Outcome(t.core, code) == Outcome(s.core, code)
    && forall c :: Rely(s.core, t.core, c)
  }

  lemma HeadsTransitive(s: State, t: State, u: State, code: int)
    requires Heads(s, t, code) && Heads(t, u, code)
    ensures Heads(s, u, code)
  {
    forall c
      ensures Rely(s.core, u.core, c)
    {
      assert Rely(s.core, t.core, c) && Rely(t.core, u.core, c);
      GrewTransitive(s.core.job, t.core.job, u.core.job);
    }
  }

  lemma FinishStep(cfg: Config, s: State, code: int) returns (a: CoreAct, t: State)
    requires Inv(cfg, s) && !s.core.waiter.Finished?
    ensures Step(cfg, s, CoreDo(a)) == Some(t) && Inv(cfg, t) && Heads(s, t, code)
    ensures
      || DoneWork(t.core) < DoneWork(s.core)
      || (DoneWork(t.core) == DoneWork(s.core) && LockWork(t.core) < LockWork(s.core))
  {
    if s.core.lock.Unlocked? {
      a := NextAct(s.core, code);
      NextActs(cfg, s.core, code);
      NextReadsNothing(cfg, s.core, code, CoreStep(cfg, s.core, a).value);
    } else {
      a := HolderActs(cfg, s.core);
      CoreLockWork(cfg, s.core, a, CoreStep(cfg, s.core, a).value);
      HolderKeepsWork(cfg, s.core, a, CoreStep(cfg, s.core, a).value, code);
    }
    t := CoreStepTo(cfg, s, a);
    forall c
      ensures Rely(s.core, t.core, c)
    {
      CoreStepRely(cfg, s.core, a, t.core, c);
    }
  }

  lemma {:induction false} Finishes(cfg: Config, s: State, code: int) returns (acts: seq<Act>, t: State)
    requires Inv(cfg, s)
    ensures Leads(cfg, s, acts, t) && Inv(cfg, t) && Heads(s, t, code) && t.core.waiter.Finished?
    decreases DoneWork(s.core), LockWork(s.core)
  {
    if s.core.waiter.Finished? {
      acts, t := [], s;
    } else {
      var a, u := FinishStep(cfg, s, code);
      var rest;
      rest, t := Finishes(cfg, u, code);
      HeadsTransitive(s, u, t, code);
      acts := Lead(cfg, s, a, u, rest, t);
    }
  }

  /** What the end of the job looks like. */
  lemma FinishedJob(cfg: Config, k: Core)
    requires CoreInv(cfg, k) && k.waiter.Finished?
    ensures k.job == JobState(k.read, Some(k.waiter.code)) && k.done && k.lock.Unlocked?
  {
    assert PipeInv(k, Stdout) && PipeInv(k, Stderr);
    assert Held(k.pipes.At(Stdout)) == [] && Held(k.pipes.At(Stderr)) == [];
    assert k.job.output.At(Stdout) == k.read.At(Stdout) && k.job.output.At(Stderr) == k.read.At(Stderr);
    assert k.job.output == k.read && k.job.exitCode == Some(k.waiter.code);
  }

  /** Every listener finds an update that was due to it, or the one of the exit code. */
  lemma Notified(k: Core, k': Core, c: ChanId)
    requires Rely(k, k', c) && k'.lock.Unlocked? && k'.job.exitCode.Some?
    requires c in k.listeners && (Wake(k, c) || k.job.exitCode.None?)
    ensures c in k'.chans && 0 < |k'.chans[c].buf|
  {}

  /** From every reachable state the job can be finished by its own goroutines alone, with all
      clients standing still: nothing they do, a full channel included, can block it. Every
      byte read so far is stored, the exit code is the one reaped, or any code if the child has
      not been reaped, and every listener has an update to find. */
  lemma JobFinishes(cfg: Config, s: State, code: int) returns (acts: seq<Act>, t: State)
    requires Inv(cfg, s)
    ensures Leads(cfg, s, acts, t) && Inv(cfg, t) && t.clients == s.clients
    ensures t.core.waiter.Finished? && t.core.done && t.core.lock.Unlocked? && Grew(s.core.job, t.core.job)
    ensures t.core.job == JobState(s.core.read, Some(Outcome(s.core, code)))
    ensures forall c :: c in s.core.listeners && (Wake(s.core, c) || s.core.job.exitCode.None?) ==>
              c in t.core.chans && 0 < |t.core.chans[c].buf|
  {
    acts, t := Finishes(cfg, s, code);
    FinishedJob(cfg, t.core);
    assert Rely(s.core, t.core, ChanId(0, Stdout));
    forall c | c in s.core.listeners && (Wake(s.core, c) || s.core.job.exitCode.None?)
      ensures c in t.core.chans && 0 < |t.core.chans[c].buf|
    {
      Notified(s.core, t.core, c);
    }
  }
}
