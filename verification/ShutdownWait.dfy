/** The wait of Shutdown as imperative code: for all Stop goroutines or the context, and then a
    last look at the group. */
module ShutdownWait {
  import opened Basics
  import opened JobMap
  import opened ShutdownNil
  import R = Registry

  /** What may happen while Shutdown waits: a Stop goroutine returns, the goroutine that waits for
      all of them closes its channel, the context closes. */
  datatype StopEvent = StopReturned(job: JobRef) | GroupDone | CtxClosed

  datatype Wait = Wait(running: set<JobRef>, wgDone: bool, ctxClosed: bool)

  /** What a waiting call of the registry has to wait for. */
  function WaitOf(c: R.Call): Wait
    requires c.Shut?
  {
    Wait(RunningStops(c.stops), c.wgDone, c.ctxClosed)
  }

  function AfterEvent(w: Wait, e: StopEvent): Wait {
    match e
    case StopReturned(j) => w.(running := w.running - {j})
    case GroupDone => if w.running == {} then w.(wgDone := true) else w
    case CtxClosed => w.(ctxClosed := true)
  }

  function AfterEvents(w: Wait, events: seq<StopEvent>): Wait
    decreases |events|
  {
    if events == [] then w else AfterEvents(AfterEvent(w, events[0]), events[1..])
  }

  /** The same up to the first event that ends the wait. */
  function Woken(w: Wait, events: seq<StopEvent>): Wait
    decreases |events|
  {
    if events == [] || w.wgDone || w.ctxClosed then w else Woken(AfterEvent(w, events[0]), events[1..])
  }

  /** These events are what a waiting call goes through in the registry. */
  lemma EventIsStep(cfg: R.Config, s: R.State, t: nat, a: R.Act, s': R.State)
    requires R.IsShut(a) && a.t == t && R.ShutStep(cfg, s, a) == Some(s')
    requires a.StopReturns? || a.WaitGroupDone? || a.CloseCtx?
    requires t in s.calls && s.calls[t].Shut? && t in s'.calls && s'.calls[t].Shut?
    ensures
      var e := if a.StopReturns? then StopReturned(a.job) else if a.WaitGroupDone? then GroupDone else CtxClosed;
      WaitOf(s'.calls[t]) == AfterEvent(WaitOf(s.calls[t]), e)
  {
    var c := s.calls[t];
    if a.StopReturns? {
      assert WaitOf(s'.calls[t]).running == WaitOf(c).running - {a.job};
    } else if a.WaitGroupDone? {
      assert WaitOf(c).running == {};
    }
  }

  /** A nil result needs every Stop to have returned. */
  lemma {:induction false} GroupNeedsAll(w: Wait, events: seq<StopEvent>)
    requires !w.wgDone && AfterEvents(w, events).wgDone
    ensures forall j :: j in w.running ==> StopReturned(j) in events
    decreases |events|
  {
    var v := AfterEvent(w, events[0]);
    if !v.wgDone {
      GroupNeedsAll(v, events[1..]);
      assert forall j :: j in w.running ==> j in v.running || StopReturned(j) == events[0];
    }
  }

  lemma {:induction false} GroupStays(w: Wait, events: seq<StopEvent>)
    requires w.wgDone
    ensures AfterEvents(w, events).wgDone
    decreases |events|
  {
    if events != [] {
      GroupStays(AfterEvent(w, events[0]), events[1..]);
    }
  }

  lemma {:induction false} CtxNeedsEvent(w: Wait, events: seq<StopEvent>)
    requires !w.ctxClosed
    ensures Woken(w, events).ctxClosed ==> CtxClosed in events
    ensures !Woken(w, events).wgDone && !Woken(w, events).ctxClosed && !w.wgDone ==> CtxClosed !in events
    decreases |events|
  {
    if events != [] && !w.wgDone {
      var v := AfterEvent(w, events[0]);
      assert events == [events[0]] + events[1..];
      if v.ctxClosed {
        assert Woken(v, events[1..]) == v && events[0] == CtxClosed;
      } else {
        CtxNeedsEvent(v, events[1..]);
      }
    }
  }

  /** The wake-up and the last select see no more than all the events in order. */
  lemma {:induction false} WokenIsPrefix(w: Wait, events: seq<StopEvent>, late: seq<StopEvent>)
    returns (seen: seq<StopEvent>)
    ensures AfterEvents(Woken(w, events), late) == AfterEvents(w, seen + late)
    ensures seen <= events
    decreases |events|
  {
    if events == [] || w.wgDone || w.ctxClosed {
      seen := [];
      assert [] + late == late;
    } else {
      var rest := WokenIsPrefix(AfterEvent(w, events[0]), events[1..], late);
      seen := [events[0]] + rest;
      assert seen[1..] == rest && (seen + late)[1..] == rest + late;
    }
  }

  lemma NilNeedsAll(waits: set<JobRef>, events: seq<StopEvent>, late: seq<StopEvent>)
    ensures AfterEvents(Woken(Wait(waits, false, false), events), late).wgDone ==>
              forall j :: j in waits ==> StopReturned(j) in events + late
  {
    var seen := WokenIsPrefix(Wait(waits, false, false), events, late);
    if AfterEvents(Woken(Wait(waits, false, false), events), late).wgDone {
      GroupNeedsAll(Wait(waits, false, false), seen + late);
    }
  }

  /** Wait for the group or the context, then look at the group once more: `late` are the events
      between the two selects. None: still waiting. */
  method AwaitStops(waits: set<JobRef>, events: seq<StopEvent>, late: seq<StopEvent>)
    returns (r: Option<R.ShutResult>)
    ensures
      var w := Woken(Wait(waits, false, false), events);
      r == if !w.wgDone && !w.ctxClosed then None
           else if AfterEvents(w, late).wgDone then Some(R.ShutNil) else Some(R.ShutCtxErr)
    ensures r == Some(R.ShutNil) ==> forall j :: j in waits ==> StopReturned(j) in events + late
    ensures r == Some(R.ShutCtxErr) ==> CtxClosed in events
    ensures r == None ==> CtxClosed !in events
  {
    var w := Wait(waits, false, false);
    var i := 0;
    while i < |events| && !w.wgDone && !w.ctxClosed
      invariant i <= |events|
      invariant Woken(w, events[i..]) == Woken(Wait(waits, false, false), events)
    {
      assert events[i..][1..] == events[i + 1..];
      w := AfterEvent(w, events[i]);
      i := i + 1;
    }
    CtxNeedsEvent(Wait(waits, false, false), events);
    if !w.wgDone && !w.ctxClosed {
      return None;
    }
    if w.wgDone {
      GroupStays(w, late);
    }
    i := 0;
    while i < |late|
      invariant i <= |late|
      invariant AfterEvents(w, late[i..]) == AfterEvents(Woken(Wait(waits, false, false), events), late)
    {
      assert late[i..][1..] == late[i + 1..];
      w := AfterEvent(w, late[i]);
      i := i + 1;
    }
    r := Some(if w.wgDone then R.ShutNil else R.ShutCtxErr);
    NilNeedsAll(waits, events, late);
  }
}
