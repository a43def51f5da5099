/** The fan-in loop in the job system: what the handler of a call has done in any reachable
    state is what the loop of FanIn does on some sequence of events. */
module FanInTheorems {
  import opened Basics
  import opened FanIn
  import opened JobData
  import opened JobSystem
  import opened JobTheorems
  import opened SessionProofs
  import opened SystemProofs

  /** The handler's part of the call, accounted for by these events: with a message in hand, it
      is about to end a pass of the loop; returned, the final send may have followed. */
  ghost predicate ToldBy(j: JobState, z: Session, events: seq<Event>) {
    var f := TakenAll(Start(z.limit), events);
    match z.handler
    case Sending(_) => f == FanOf(z).(handler := Receiving)
    case HandlerReturned(_) =>
      || FanOf(z) == f
      || (f.handler.Finishing? && (FanOf(z) == Exited(f, j.exitCode, true) || FanOf(z) == Exited(f, j.exitCode, false)))
    case _ => FanOf(z) == f
  }

  ghost predicate Told(j: JobState, z: Session) { exists events :: ToldBy(j, z, events) }

  lemma {:induction false} TakenSnoc(f: Fan, events: seq<Event>, e: Event)
    ensures TakenAll(f, events + [e]) == Taken(TakenAll(f, events), e)
    decreases |events|
  {
    if events == [] {
      assert [e][1..] == [];
    } else {
      TakenSnoc(Taken(f, events[0]), events[1..], e);
      assert (events + [e])[1..] == events[1..] + [e];
    }
  }

  lemma ToldMore(j: JobState, z: Session, events: seq<Event>, e: Event, z': Session)
    requires z'.limit == z.limit && !z'.handler.Sending?
    requires FanOf(z') == Taken(TakenAll(Start(z.limit), events), e)
    ensures Told(j, z')
  {
    TakenSnoc(Start(z.limit), events, e);
    assert ToldBy(j, z', events + [e]);
  }

  // ---------------------------------------------------------------- steps of the call

  lemma SendDoneTold(cfg: Config, k: Core, id: nat, z: Session, ok: bool, z': Session)
    requires Told(k.job, z) && SessionStep(cfg, k, id, z, SendDone(ok)) == Some((k, z'))
    ensures Told(k.job, z')
  {
    var events :| ToldBy(k.job, z, events);
    ToldMore(k.job, z, events, Response(z.handler.msg, ok), z');
  }

  lemma CollectTold(cfg: Config, k: Core, id: nat, z: Session, s: Stream, z': Session)
    requires Told(k.job, z) && SessionStep(cfg, k, id, z, Collect(s)) == Some((k, z'))
    ensures Told(k.job, z')
  {
    var events :| ToldBy(k.job, z, events);
    ToldMore(k.job, z, events, Result(s, z.streams.At(s).pc.result), z');
  }

  lemma CtxTold(cfg: Config, k: Core, id: nat, z: Session, z': Session)
    requires Told(k.job, z) && SessionStep(cfg, k, id, z, HandlerCtx) == Some((k, z'))
    ensures Told(k.job, z')
  {
    var events :| ToldBy(k.job, z, events);
    ToldMore(k.job, z, events, CtxClosed, z');
  }

  lemma SendExitTold(cfg: Config, k: Core, id: nat, z: Session, ok: bool, z': Session)
    requires Told(k.job, z) && SessionStep(cfg, k, id, z, SendExit(ok)) == Some((k, z'))
    ensures Told(k.job, z')
  {
    var events :| ToldBy(k.job, z, events);
    assert FanOf(z') == Exited(FanOf(z), k.job.exitCode, ok);
    assert ToldBy(k.job, z', events);
  }

  /** The streams' own steps, the hand-over and a closing context leave the account as it is. */
  lemma QuietTold(cfg: Config, k: Core, id: nat, z: Session, a: SessionAct, k': Core, z': Session)
    requires Told(k.job, z) && (a.StreamDo? || a.Handover? || a.CloseCtx?)
    requires SessionStep(cfg, k, id, z, a) == Some((k', z'))
    ensures Told(k.job, z')
  {
    var events :| ToldBy(k.job, z, events);
    if a.StreamDo? {
      StreamDoShape(cfg, k, id, z, a.stream, a.act, k', z');
    }
    assert ToldBy(k.job, z', events);
  }

  lemma SessionTold(cfg: Config, k: Core, id: nat, z: Session, a: SessionAct, k': Core, z': Session)
    requires Told(k.job, z) && SessionStep(cfg, k, id, z, a) == Some((k', z'))
    ensures Told(k.job, z')
  {
    match a {
      case SendDone(ok) => SendDoneTold(cfg, k, id, z, ok, z');
      case Collect(s) => CollectTold(cfg, k, id, z, s, z');
      case HandlerCtx => CtxTold(cfg, k, id, z, z');
      case SendExit(ok) => SendExitTold(cfg, k, id, z, ok, z');
      case _ => QuietTold(cfg, k, id, z, a, k', z');
    }
  }

  // ---------------------------------------------------------------- over every run

  /** An exit code is set once, and no call has found it missing. */
  lemma ToldStable(j: JobState, j': JobState, z: Session)
    requires Told(j, z) && Grew(j, j') && z.handler != HandlerReturned(HandlerPanic)
    ensures Told(j', z)
  {
    var events :| ToldBy(j, z, events);
    assert ToldBy(j', z, events);
  }

  ghost predicate AllTold(s: State) {
    forall id :: id in s.clients && s.clients[id].Streams? ==> Told(s.core.job, s.clients[id].session)
  }

  lemma NoPanic(cfg: Config, s: State, id: nat)
    requires Inv(cfg, s) && id in s.clients && s.clients[id].Streams?
    ensures s.clients[id].session.handler != HandlerReturned(HandlerPanic)
  {
    assert ClientInv(cfg, s.core, id, s.clients[id]);
  }

  lemma NewTold(j: JobState, fb: bool, limit: Limit)
    ensures Told(j, NewSession(fb, limit))
  {
    assert ToldBy(j, NewSession(fb, limit), []);
  }

  lemma NoPanicAt(cfg: Config, s: State, id: nat)
    requires Reachable(cfg, s) && id in s.clients && s.clients[id].Streams?
    ensures s.clients[id].session.handler != HandlerReturned(HandlerPanic)
  {
    ReachableInv(cfg, s);
    NoPanic(cfg, s, id);
  }

  /** One call's account over one step of the system. */
  lemma CallTold(cfg: Config, s: State, a: Act, t: State, id: nat)
    requires Inv(cfg, s) && Step(cfg, s, a) == Some(t)
    requires id in s.clients && s.clients[id].Streams? && Told(s.core.job, s.clients[id].session)
    ensures id in t.clients && t.clients[id].Streams? && Told(t.core.job, t.clients[id].session)
  {
    if a.SessionDo? && a.id == id {
      SessionTold(cfg, s.core, id, s.clients[id].session, a.session, t.core, t.clients[id].session);
      ClientKeepsJob(cfg, s, a, t);
    } else {
      CallKept(cfg, s, id, a, t);
      NoPanic(cfg, s, id);
      StepGrew(cfg, s, a, t);
      ToldStable(s.core.job, t.core.job, s.clients[id].session);
    }
  }

  lemma ToldStep(cfg: Config, s: State, a: Act, t: State)
    requires Inv(cfg, s) && AllTold(s) && Step(cfg, s, a) == Some(t)
    ensures AllTold(t)
  {
    forall id | id in t.clients && t.clients[id].Streams?
      ensures Told(t.core.job, t.clients[id].session)
    {
      if id in s.clients && s.clients[id].Streams? {
        CallTold(cfg, s, a, t, id);
      } else {
        NewTold(t.core.job, a.fromBeginning, a.limit);
      }
    }
  }

  lemma {:induction false} ToldRun(cfg: Config, s: State, acts: seq<Act>, t: State)
    requires Inv(cfg, s) && AllTold(s) && Run(cfg, s, acts) == Some(t)
    ensures AllTold(t)
    decreases |acts|
  {
    if acts != [] {
      var u := Step(cfg, s, acts[0]).value;
      StepInv(cfg, s, acts[0], u);
      ToldStep(cfg, s, acts[0], u);
      ToldRun(cfg, u, acts[1..], t);
    }
  }

  /** In every reachable state the handler of a call has done what the loop does on some
      events: at its select or about to send the exit code, it is where the loop is after them;
      returned, it has the loop's outcome, or that of the final send after it. */
  lemma HandlerRefinesLoop(cfg: Config, s: State, id: nat) returns (events: seq<Event>)
    requires Reachable(cfg, s) && id in s.clients && s.clients[id].Streams?
    ensures
      var z := s.clients[id].session;
      var f := TakenAll(Start(z.limit), events);
      && (z.handler.Receiving? || z.handler.Finishing? ==> FanOf(z) == f)
      && (z.handler.HandlerReturned? && z.handler.result != HandlerOk ==>
            FanOf(z) == f || (f.handler.Finishing? && FanOf(z) == Exited(f, s.core.job.exitCode, false)))
      && (z.handler == HandlerReturned(HandlerOk) ==>
            f.handler.Finishing? && FanOf(z) == Exited(f, s.core.job.exitCode, true))
  {
    var acts :| Run(cfg, INIT, acts) == Some(s);
    InitInv(cfg);
    ToldRun(cfg, INIT, acts, s);
    NoPanicAt(cfg, s, id);
    events :| ToldBy(s.core.job, s.clients[id].session, events);
    NotOkYet(Start(s.clients[id].session.limit), events);
  }
}
