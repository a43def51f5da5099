/** The invariant of the whole system and its preservation over every run. */
module SystemProofs {
  import opened Basics
  import opened JobSystem
  import opened JobCoreProofs
  import opened StreamProofs
  import opened SessionProofs
  import opened ClientProofs

  ghost predicate ClientInv(cfg: Config, k: Core, id: nat, c: Client) {
    match c
    case Streams(z) => SessionInv(cfg, k, id, z)
    case Snap(p) => SnapInv(k.job, p)
    case Stops(p) => StopInv(k, p)
    case Execs(p) => ExecInv(cfg, k, ChanId(id, Stdout), p)
  }

  ghost predicate ClientsInv(cfg: Config, s: State) {
    forall id :: id in s.clients ==> ClientInv(cfg, s.core, id, s.clients[id])
  }

  ghost predicate Owned(s: State) { forall c :: c in s.core.listeners ==> c.owner in s.clients }

  ghost predicate Inv(cfg: Config, s: State) {
    CoreInv(cfg, s.core) && Owned(s) && ClientsInv(cfg, s)
  }

  lemma InitInv(cfg: Config)
    ensures Inv(cfg, INIT)
  {}

  lemma ClientStable(cfg: Config, k: Core, k': Core, id: nat, c: Client)
    requires ClientInv(cfg, k, id, c)
    requires Rely(k, k', ChanId(id, Stdout)) && Rely(k, k', ChanId(id, Stderr))
    ensures ClientInv(cfg, k', id, c)
  {
    match c {
      case Streams(z) => SessionStable(cfg, k, k', id, z);
      case Snap(p) => SnapStable(k.job, k'.job, p);
      case Stops(p) => StopStable(k, k', p);
      case Execs(p) => ExecStable(cfg, k, k', ChanId(id, Stdout), p);
    }
  }

  /** A step by client `id` that respects the others re-establishes the whole invariant. */
  lemma ClientStepInv(cfg: Config, s: State, id: nat, k': Core, c': Client)
    requires Inv(cfg, s)
    requires CoreInv(cfg, k') && ClientInv(cfg, k', id, c')
    requires forall d: ChanId :: d.owner != id ==> Rely(s.core, k', d)
    requires forall d :: d in k'.listeners ==> d in s.core.listeners || d.owner == id
    ensures Inv(cfg, State(k', s.clients[id := c']))
  {
    forall i | i in s.clients && i != id
      ensures ClientInv(cfg, k', i, s.clients[i])
    {
      assert ChanId(i, Stdout).owner != id && ChanId(i, Stderr).owner != id;
      ClientStable(cfg, s.core, k', i, s.clients[i]);
    }
  }

  /** The same when the step leaves the job alone. */
  lemma LocalStepInv(cfg: Config, s: State, id: nat, c': Client)
    requires Inv(cfg, s) && ClientInv(cfg, s.core, id, c')
    ensures Inv(cfg, State(s.core, s.clients[id := c']))
  {}

  lemma CoreDoInv(cfg: Config, s: State, a: CoreAct, k': Core)
    requires Inv(cfg, s) && CoreStep(cfg, s.core, a) == Some(k')
    ensures Inv(cfg, s.(core := k'))
  {
    CoreStepInv(cfg, s.core, a, k');
    forall i | i in s.clients
      ensures ClientInv(cfg, k', i, s.clients[i])
    {
      CoreStepRely(cfg, s.core, a, k', ChanId(i, Stdout));
      CoreStepRely(cfg, s.core, a, k', ChanId(i, Stderr));
      ClientStable(cfg, s.core, k', i, s.clients[i]);
    }
    assert k'.listeners == s.core.listeners;
  }

  lemma SpawnInv(cfg: Config, s: State, id: nat, c: Client)
    requires Inv(cfg, s) && id !in s.clients
    requires
      || (c.Streams? && exists fb, limit :: c.session == NewSession(fb, limit))
      || (c.Snap? && c.snapshot == Snapshot(c.snapshot.want, SnapExit, None, Both([], [])))
      || (c.Stops? && (c.stopper.pc.StopCheck? || c.stopper.pc.StopCancel?))
      || (c.Execs? && c.exec == NEW_EXEC)
    ensures Inv(cfg, s.(clients := s.clients[id := c]))
  {
    if c.Streams? {
      var fb, limit :| c.session == NewSession(fb, limit);
      NewSessionInv(cfg, s.core, id, fb, limit);
    } else if c.Execs? {
      assert ChanId(id, Stdout).owner == id;
    }
    LocalStepInv(cfg, s, id, c);
  }

  lemma SessionDoInv(cfg: Config, s: State, id: nat, a: SessionAct, k': Core, z': Session)
    requires Inv(cfg, s) && id in s.clients && s.clients[id].Streams?
    requires SessionStep(cfg, s.core, id, s.clients[id].session, a) == Some((k', z'))
    ensures Inv(cfg, State(k', s.clients[id := Streams(z')]))
  {
    var z := s.clients[id].session;
    assert ClientInv(cfg, s.core, id, s.clients[id]);
    if a.StreamDo? {
      StreamDoStepInv(cfg, s.core, id, z, a.stream, a.act, k', z');
      ClientStepInv(cfg, s, id, k', Streams(z'));
    } else {
      HandlerDoInv(cfg, s.core, id, z, a, k', z');
      LocalStepInv(cfg, s, id, Streams(z'));
    }
  }

  lemma StopDoInv(cfg: Config, s: State, id: nat, a: StopAct, k': Core, p': Stopper)
    requires Inv(cfg, s) && id in s.clients && s.clients[id].Stops?
    requires StopStep(s.core, s.clients[id].stopper, a) == Some((k', p'))
    ensures Inv(cfg, State(k', s.clients[id := Stops(p')]))
  {
    assert ClientInv(cfg, s.core, id, s.clients[id]);
    StopStepInv(cfg, s.core, s.clients[id].stopper, a, k', p');
    StopStepCore(cfg, s.core, s.clients[id].stopper, a, k', p');
    ClientStepInv(cfg, s, id, k', Stops(p'));
  }

  lemma ExecDoInv(cfg: Config, s: State, id: nat, a: ExecAct, k': Core, p': Exec)
    requires Inv(cfg, s) && id in s.clients && s.clients[id].Execs?
    requires ExecStep(cfg, s.core, id, s.clients[id].exec, a) == Some((k', p'))
    ensures Inv(cfg, State(k', s.clients[id := Execs(p')]))
  {
    var p := s.clients[id].exec;
    assert ClientInv(cfg, s.core, id, s.clients[id]);
    if a.ExecReceive? {
      ExecReceiveInv(cfg, s.core, id, p, k', p');
      ClientStepInv(cfg, s, id, k', Execs(p'));
    } else if p.pc.ExecListen? {
      ExecListenInv(cfg, s.core, id, p, k', p');
      ClientStepInv(cfg, s, id, k', Execs(p'));
    } else {
      ExecLocalInv(cfg, s.core, id, p, a, k', p');
      LocalStepInv(cfg, s, id, Execs(p'));
    }
  }

  lemma SnapDoInv(cfg: Config, s: State, id: nat, p': Snapshot)
    requires Inv(cfg, s) && id in s.clients && s.clients[id].Snap?
    requires SnapStep(s.core, s.clients[id].snapshot) == Some(p')
    ensures Inv(cfg, State(s.core, s.clients[id := Snap(p')]))
  {
    assert ClientInv(cfg, s.core, id, s.clients[id]);
    SnapStepInv(s.core, s.clients[id].snapshot, p');
    LocalStepInv(cfg, s, id, Snap(p'));
  }

  /** Every enabled step of the system keeps the invariant. */
  lemma StepInv(cfg: Config, s: State, a: Act, s': State)
    requires Inv(cfg, s) && Step(cfg, s, a) == Some(s')
    ensures Inv(cfg, s')
  {
    match a {
      case CoreDo(b) => CoreDoInv(cfg, s, b, s'.core);
      case SpawnStream(id, fb, limit) =>
        assert Streams(NewSession(fb, limit)).session == NewSession(fb, limit);
        SpawnInv(cfg, s, id, s'.clients[id]);
      case SpawnSnapshot(id, want) => SpawnInv(cfg, s, id, s'.clients[id]);
      case SpawnStop(id, rpc, force) => SpawnInv(cfg, s, id, s'.clients[id]);
      case SpawnExec(id) => SpawnInv(cfg, s, id, s'.clients[id]);
      case SessionDo(id, b) => SessionDoInv(cfg, s, id, b, s'.core, s'.clients[id].session);
      case SnapDo(id) => SnapDoInv(cfg, s, id, s'.clients[id].snapshot);
      case StopDo(id, b) => StopDoInv(cfg, s, id, b, s'.core, s'.clients[id].stopper);
      case ExecDo(id, b) => ExecDoInv(cfg, s, id, b, s'.core, s'.clients[id].exec);
    }
  }

  /** Over every schedule, from any state that satisfies it. */
  lemma {:induction false} RunInv(cfg: Config, s: State, acts: seq<Act>, t: State)
    requires Inv(cfg, s) && Run(cfg, s, acts) == Some(t)
    ensures Inv(cfg, t)
    decreases |acts|
  {
    if acts != [] {
      var u := Step(cfg, s, acts[0]).value;
      StepInv(cfg, s, acts[0], u);
      RunInv(cfg, u, acts[1..], t);
    }
  }

  /** What a client may write: channels, stop requests and, while the lock is free, the set of
      listeners. */
  ghost predicate ClientWrites(k: Core, k': Core) {
    && k' == k.(listeners := k'.listeners, chans := k'.chans, stop := k'.stop, force := k'.force)
    && (!k.lock.Unlocked? ==> k'.listeners == k.listeners)
  }

  lemma StreamWrites(cfg: Config, k: Core, c: ChanId, fb: bool, ctx: bool, x: Streamer, a: StreamAct,
                     k': Core, x': Streamer)
    requires StreamStep(cfg, k, c, fb, ctx, x, a) == Some((k', x'))
    ensures ClientWrites(k, k')
  {}

  lemma SessionWrites(cfg: Config, k: Core, id: nat, z: Session, a: SessionAct, k': Core, z': Session)
    requires SessionStep(cfg, k, id, z, a) == Some((k', z'))
    ensures ClientWrites(k, k')
  {
    if a.StreamDo? {
      StreamDoShape(cfg, k, id, z, a.stream, a.act, k', z');
      StreamWrites(cfg, k, ChanId(id, a.stream), z.fromBeginning, z.ctxClosed, z.streams.At(a.stream), a.act,
                   k', z'.streams.At(a.stream));
    }
  }

  /** No client ever writes to the job, its goroutines or the lock. */
  lemma ClientKeepsJob(cfg: Config, s: State, a: Act, t: State)
    requires Step(cfg, s, a) == Some(t) && !a.CoreDo?
    ensures ClientWrites(s.core, t.core)
  {
    if a.SessionDo? {
      SessionWrites(cfg, s.core, a.id, s.clients[a.id].session, a.session, t.core, t.clients[a.id].session);
    }
  }

  /** Nobody else touches a call. */
  lemma CallKept(cfg: Config, s: State, id: nat, a: Act, t: State)
    requires id in s.clients && s.clients[id].Streams? && !(a.SessionDo? && a.id == id)
    requires Step(cfg, s, a) == Some(t)
    ensures id in t.clients && t.clients[id] == s.clients[id]
  {}

  lemma RunCons(cfg: Config, s: State, a: Act, u: State, rest: seq<Act>, t: State)
    requires Step(cfg, s, a) == Some(u) && Run(cfg, u, rest) == Some(t)
    ensures Run(cfg, s, [a] + rest) == Some(t)
  {
    assert ([a] + rest)[1..] == rest;
  }

  lemma {:induction false} RunJoin(cfg: Config, s: State, acts: seq<Act>, t: State, more: seq<Act>, u: State)
    requires Run(cfg, s, acts) == Some(t) && Run(cfg, t, more) == Some(u)
    ensures Run(cfg, s, acts + more) == Some(u)
    decreases |acts|
  {
    if acts == [] {
      assert [] + more == more;
    } else {
      RunJoin(cfg, Step(cfg, s, acts[0]).value, acts[1..], t, more, u);
      assert (acts + more)[1..] == acts[1..] + more;
    }
  }

  /** `s` is reached from the initial state by some schedule. */
  ghost predicate Reachable(cfg: Config, s: State) { exists acts :: Run(cfg, INIT, acts) == Some(s) }

  lemma ReachableInv(cfg: Config, s: State)
    requires Reachable(cfg, s)
    ensures Inv(cfg, s)
  {
    var acts :| Run(cfg, INIT, acts) == Some(s);
    InitInv(cfg);
    RunInv(cfg, INIT, acts, s);
  }

  lemma {:induction false} RunSnoc(cfg: Config, s: State, acts: seq<Act>, t: State, a: Act, u: State)
    requires Run(cfg, s, acts) == Some(t) && Step(cfg, t, a) == Some(u)
    ensures Run(cfg, s, acts + [a]) == Some(u)
    decreases |acts|
  {
    if acts == [] {
      assert ([] + [a])[1..] == [];
    } else {
      var v := Step(cfg, s, acts[0]).value;
      RunSnoc(cfg, v, acts[1..], t, a, u);
      assert (acts + [a])[1..] == acts[1..] + [a];
    }
  }

  lemma ReachableStep(cfg: Config, s: State, a: Act, t: State)
    requires Reachable(cfg, s) && Step(cfg, s, a) == Some(t)
    ensures Reachable(cfg, t)
  {
    var acts :| Run(cfg, INIT, acts) == Some(s);
    RunSnoc(cfg, INIT, acts, s, a, t);
  }

  lemma {:induction false} ReachableRun(cfg: Config, s: State, acts: seq<Act>, t: State)
    requires Reachable(cfg, s) && Run(cfg, s, acts) == Some(t)
    ensures Reachable(cfg, t)
    decreases |acts|
  {
    if acts != [] {
      var u := Step(cfg, s, acts[0]).value;
      ReachableStep(cfg, s, acts[0], u);
      ReachableRun(cfg, u, acts[1..], t);
    }
  }

  // The invariant of one client, looked up in a reachable state.

  lemma CoreOf(cfg: Config, s: State)
    requires Reachable(cfg, s)
    ensures CoreInv(cfg, s.core)
  {
    ReachableInv(cfg, s);
  }

  lemma SessionOf(cfg: Config, s: State, id: nat)
    requires Reachable(cfg, s) && id in s.clients && s.clients[id].Streams?
    ensures SessionInv(cfg, s.core, id, s.clients[id].session)
  {
    ReachableInv(cfg, s);
    assert ClientInv(cfg, s.core, id, s.clients[id]);
  }

  lemma StreamOf(cfg: Config, s: State, id: nat, st: Stream)
    requires Reachable(cfg, s) && id in s.clients && s.clients[id].Streams?
    ensures
      var z := s.clients[id].session;
      StreamInv(cfg, s.core, ChanId(id, st), z.fromBeginning, z.ctxClosed, z.streams.At(st))
  {
    SessionOf(cfg, s, id);
    assert StreamsInv(cfg, s.core, id, s.clients[id].session, st);
  }

  lemma ExecOf(cfg: Config, s: State, id: nat)
    requires Reachable(cfg, s) && id in s.clients && s.clients[id].Execs?
    ensures ExecInv(cfg, s.core, ChanId(id, Stdout), s.clients[id].exec)
  {
    ReachableInv(cfg, s);
    assert ClientInv(cfg, s.core, id, s.clients[id]);
  }
}
