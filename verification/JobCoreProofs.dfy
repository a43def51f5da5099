/** Invariant of the job's own goroutines, and what any step of the system may do to
    the part of the job that another client relies on. */
module JobCoreProofs {
  import opened Basics
  import opened JobData
  import opened JobSystem

  /** Bytes a pipe goroutine has read and not yet stored. */
  function Held(p: Pipe): seq<byte> { if p.Got? then p.chunk else [] }

  ghost predicate PipeInv(k: Core, s: Stream) {
    && k.job.output.At(s) + Held(k.pipes.At(s)) == k.read.At(s)
    && (k.pipes.At(s).Got? ==> 1 <= |k.pipes.At(s).chunk| <= CHUNK)
    && (k.pipes.At(s).Publishing? <==> k.lock.Notifying? && k.lock.owner == ByPipe(s))
  }

  ghost predicate WaiterInv(k: Core) {
    && (!k.waiter.AwaitStdout? ==> k.pipes.stdout.Ended?)
    && (!k.waiter.AwaitStdout? && !k.waiter.AwaitStderr? ==> k.pipes.stderr.Ended?)
    && (k.waiter.Marking? <==> k.lock.Cancelling? || (k.lock.Notifying? && k.lock.owner.ByWaiter?))
    && k.job.exitCode == (if k.waiter.Marking? || k.waiter.Finished? then Some(k.waiter.code) else None)
    && (k.done <==> k.waiter.Finished? || (k.waiter.Marking? && !k.lock.Cancelling?))
  }

  ghost predicate ChanInv(k: Core) {
    && k.listeners <= k.chans.Keys
    && (k.lock.Notifying? ==> k.lock.pending <= k.listeners)
    && (forall c :: c in k.chans ==> 0 < k.chans[c].cap && |k.chans[c].buf| <= k.chans[c].cap)
  }

  function Count(l: seq<Signal>, g: Signal): nat {
    if l == [] then 0 else Count(l[..|l| - 1], g) + if l[|l| - 1] == g then 1 else 0
  }

  ghost predicate SignalInv(cfg: Config, k: Core) {
    var l := k.signals;
    && Count(l.sent, SIGTERM) == (if l.stopCh then 0 else 1)
    && (0 < Count(l.sent, SIGKILL) <==> !l.forceCh)
    && (cfg.selectNilableForce ==> Count(l.sent, SIGKILL) <= 1)
    && |l.sent| == Count(l.sent, SIGTERM) + Count(l.sent, SIGKILL)
    && (!l.stopCh ==> k.stop)
    && (!l.forceCh ==> k.force)
    && (l.running ==> l.stopCh || l.forceCh)
    && (!l.running ==> k.done || !(l.stopCh || l.forceCh))
  }

  ghost predicate CoreInv(cfg: Config, k: Core) {
    PipeInv(k, Stdout) && PipeInv(k, Stderr) && WaiterInv(k) && ChanInv(k) && SignalInv(cfg, k)
  }

  // ---------------------------------------------------------------- rely

  ghost predicate Evolves(a: Core, b: Core) {
    Grew(a.job, b.job) && (a.done ==> b.done) && (a.stop ==> b.stop) && (a.force ==> b.force)
  }

  /** The lock holder has still to send to this listener. */
  ghost predicate Pending(k: Core, c: ChanId) {
    && c in k.listeners
    && (k.lock.Cancelling? || (k.lock.Notifying? && c in k.lock.pending))
  }

  /** A wake-up is in the channel or on its way. */
  ghost predicate Wake(k: Core, c: ChanId) {
    (c in k.chans && 0 < |k.chans[c].buf|) || Pending(k, c)
  }

  /** What the rest of the system guarantees to the owner of a channel: its registration
      is left alone, wake-ups are never taken away, and any change of the job causes one. */
  ghost predicate ChanKept(a: Core, b: Core, c: ChanId) {
    && (c in a.listeners <==> c in b.listeners)
    && (c in a.listeners ==>
      && (Wake(a, c) ==> Wake(b, c))
      && (a.job != b.job ==> Wake(b, c)))
  }

  ghost predicate Rely(a: Core, b: Core, c: ChanId) { Evolves(a, b) && ChanKept(a, b, c) }

  lemma CountPush(l: seq<Signal>, g: Signal, h: Signal)
    ensures Count(l + [g], h) == Count(l, h) + if g == h then 1 else 0
  {
    assert (l + [g])[..|l|] == l;
  }

  lemma SignalledCounts(l: SignalLoop, g: Signal)
    ensures
      var m := Signalled(l, g).sent;
      && Count(m, SIGTERM) == Count(l.sent, SIGTERM) + (if g == SIGTERM then 1 else 0)
      && Count(m, SIGKILL) == Count(l.sent, SIGKILL) + (if g == SIGKILL then 1 else 0)
      && |m| == |l.sent| + 1
  {
    CountPush(l.sent, g, SIGTERM);
    CountPush(l.sent, g, SIGKILL);
  }

  lemma SendSignalInv(cfg: Config, k: Core, g: Signal)
    requires SignalInv(cfg, k) && k.signals.running
    requires
      if g == SIGTERM then k.signals.stopCh && k.stop
      else k.force && (cfg.selectNilableForce ==> k.signals.forceCh)
    ensures SignalInv(cfg, k.(signals := Signalled(k.signals, g)))
  {
    SignalledCounts(k.signals, g);
  }

  lemma SignalStepInv(cfg: Config, k: Core, a: CoreAct, k': Core)
    requires SignalInv(cfg, k) && CoreStep(cfg, k, a) == Some(k')
    ensures SignalInv(cfg, k')
  {
    if a.SigTerm? {
      SendSignalInv(cfg, k, SIGTERM);
    } else if a.SigKill? {
      SendSignalInv(cfg, k, SIGKILL);
    } else {
      assert k'.signals.sent == k.signals.sent;
    }
  }

  lemma WaiterStepInv(cfg: Config, k: Core, a: CoreAct, k': Core)
    requires PipeInv(k, Stdout) && PipeInv(k, Stderr) && WaiterInv(k) && CoreStep(cfg, k, a) == Some(k')
    ensures WaiterInv(k')
  {}

  lemma PipeStepInv(cfg: Config, k: Core, a: CoreAct, k': Core)
    requires PipeInv(k, Stdout) && PipeInv(k, Stderr) && WaiterInv(k) && CoreStep(cfg, k, a) == Some(k')
    ensures PipeInv(k', Stdout) && PipeInv(k', Stderr)
  {
    match a {
      case PipeRead(s, chunk, last) =>
        assert k.job.output.At(s) + [] == k.read.At(s);
      case PipeAppend(s) =>
      case _ =>
    }
  }

  lemma ChanStepInv(cfg: Config, k: Core, a: CoreAct, k': Core)
    requires ChanInv(k) && CoreStep(cfg, k, a) == Some(k')
    ensures ChanInv(k')
  {}

  /** Every step of a pipe, the waiter or the signal goroutine keeps the core invariant. */
  lemma CoreStepInv(cfg: Config, k: Core, a: CoreAct, k': Core)
    requires CoreInv(cfg, k) && CoreStep(cfg, k, a) == Some(k')
    ensures CoreInv(cfg, k')
  {
    PipeStepInv(cfg, k, a, k');
    WaiterStepInv(cfg, k, a, k');
    ChanStepInv(cfg, k, a, k');
    SignalStepInv(cfg, k, a, k');
  }

  /** A step of the job's goroutines gives every listener what it relies on. In particular
      the dropped sends of a full channel and the channels still to be notified never lose
      a wake-up. */
  lemma CoreStepRely(cfg: Config, k: Core, a: CoreAct, k': Core, c: ChanId)
    requires CoreInv(cfg, k) && CoreStep(cfg, k, a) == Some(k')
    ensures Rely(k, k', c)
  {
    if a.Notify? {
      assert 0 < |k'.chans[a.chan].buf|;
    }
  }

  // ---------------------------------------------------------------- client steps on the core

  /** Registration and removal of a fresh channel, and a receive, all by its owner. */
  lemma AddListenerChange(cfg: Config, k: Core, c: ChanId, cap: nat, k': Core)
    requires CoreInv(cfg, k) && k.lock.Unlocked? && 0 < cap
    requires k' == k.(listeners := k.listeners + {c}, chans := k.chans[c := Chan(cap, [])])
    ensures CoreInv(cfg, k')
    ensures forall d :: d != c ==> Rely(k, k', d)
  {}

  lemma RemoveListenerChange(cfg: Config, k: Core, c: ChanId, k': Core)
    requires CoreInv(cfg, k) && k.lock.Unlocked?
    requires k' == k.(listeners := k.listeners - {c})
    ensures CoreInv(cfg, k')
    ensures forall d :: d != c ==> Rely(k, k', d)
  {}

  lemma ReceiveChange(cfg: Config, k: Core, c: ChanId, k': Core)
    requires CoreInv(cfg, k) && c in k.chans && 0 < |k.chans[c].buf|
    requires k' == k.(chans := k.chans[c := k.chans[c].(buf := k.chans[c].buf[1..])])
    ensures CoreInv(cfg, k')
    ensures forall d :: d != c ==> Rely(k, k', d)
  {}
}
