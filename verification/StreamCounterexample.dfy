/** The code as written can end a stream cleanly and lose output: a concrete family of runs. */
module StreamCounterexample {
  import opened Basics
  import opened JobData
  import opened JobRuns
  import opened JobSystem
  import opened SystemProofs

  /** A system whose only client is call 0. */
  function One(k: Core, z: Session): State { State(k, map[0 := Streams(z)]) }

  /** A stdout-only call from the beginning, with the given stream and handler. */
  function Call(x: Streamer, open: bool, h: Handler, log: seq<Message>): Session {
    Session(true, OnlyStdout, Both(x, IDLE_STREAMER), Both(open, false), h, log, false)
  }

  /** The stream with its first read in hand, which was full and carried the exit code. */
  function Seen(a: seq<byte>): Streamer { Streamer(DrainSend(a, true), 0, CHUNK, [], 0, Some(0)) }

  /** One step of call 0. */
  lemma Advance(k: Core, z: Session, a: SessionAct, k': Core, z': Session)
    requires Reachable(AS_WRITTEN, One(k, z))
    requires SessionStep(AS_WRITTEN, k, 0, z, a) == Some((k', z'))
    ensures Reachable(AS_WRITTEN, One(k', z'))
  {
    assert map[0 := Streams(z)][0 := Streams(z')] == map[0 := Streams(z')];
    ReachableStep(AS_WRITTEN, One(k, z), SessionDo(0, a), One(k', z'));
  }

  /** The call has made its eager read of a still empty output. */
  lemma Begins()
    ensures Reachable(AS_WRITTEN, One(INIT_CORE, Call(IDLE_STREAMER.(pc := Register), true, Receiving, [])))
  {
    assert Run(AS_WRITTEN, INIT, []) == Some(INIT);
    var x := IDLE_STREAMER.(pc := Eager);
    var z := Call(x, true, Receiving, []);
    assert NewSession(true, OnlyStdout) == z;
    assert map[][0 := Streams(z)] == map[0 := Streams(z)];
    ReachableStep(AS_WRITTEN, INIT, SpawnStream(0, true, OnlyStdout), One(INIT_CORE, z));
    var y := IDLE_STREAMER.(pc := Register);
    assert StreamStep(AS_WRITTEN, INIT_CORE, ChanId(0, Stdout), true, false, x, ReadEager) == Some((INIT_CORE, y));
    Advance(INIT_CORE, z, StreamDo(Stdout, ReadEager), INIT_CORE, Call(y, true, Receiving, []));
  }

  /** The stream registers and drains; its first read is full and carries the exit code. */
  lemma DrainsOnce(k: Core, a: seq<byte>, b: seq<byte>, code: int) returns (k': Core)
    requires Reachable(AS_WRITTEN, One(k, Call(IDLE_STREAMER.(pc := Register), true, Receiving, [])))
    requires k.lock.Unlocked? && |a| == CHUNK && k.job == JobState(Both(a + b, []), Some(code))
    ensures k'.lock.Unlocked? && k'.job == k.job
    ensures Reachable(AS_WRITTEN, One(k', Call(Seen(a), true, Receiving, [])))
  {
    var c := ChanId(0, Stdout);
    k' := k.(listeners := k.listeners + {c}, chans := k.chans[c := Chan(2, [])]);
    var x0, x1 := IDLE_STREAMER.(pc := Register), IDLE_STREAMER.(pc := Drain);
    assert StreamStep(AS_WRITTEN, k, c, true, false, x0, AddListener) == Some((k', x1));
    var z0, z1 := Call(x0, true, Receiving, []), Call(x1, true, Receiving, []);
    Advance(k, z0, StreamDo(Stdout, AddListener), k', z1);
    var x2 := Seen(a);
    assert ReadOutput(k'.job, Stdout, CHUNK, 0).data == a;
    assert StreamStep(AS_WRITTEN, k', c, true, false, x1, ReadDrain) == Some((k', x2));
    Advance(k', z1, StreamDo(Stdout, ReadDrain), k', Call(x2, true, Receiving, []));
  }

  /** The message is handed over and sent, and the stream returns. */
  lemma SendsOnce(k: Core, a: seq<byte>) returns (k': Core, x: Streamer)
    requires k.lock.Unlocked? && Reachable(AS_WRITTEN, One(k, Call(Seen(a), true, Receiving, [])))
    ensures k'.job == k.job && k'.lock.Unlocked? && x.pc == Returned(StreamOk)
    ensures Reachable(AS_WRITTEN, One(k', Call(x, true, Receiving, [Output(Stdout, a, false)])))
  {
    var m := Output(Stdout, a, false);
    k' := k.(listeners := k.listeners - {ChanId(0, Stdout)});
    var x0 := Seen(a);
    var x1 := Streamer(Unregister(StreamOk), 0, CHUNK, [m], 0, Some(0));
    x := x1.(pc := Returned(StreamOk));
    assert HandedOver(x0, m) == x1 && [] + [m] == [m];
    Advance(k, Call(x0, true, Receiving, []), Handover(Stdout), k, Call(x1, true, Sending(m), []));
    Advance(k, Call(x1, true, Sending(m), []), SendDone(true), k, Call(x1, true, Receiving, [m]));
    assert StreamStep(AS_WRITTEN, k, ChanId(0, Stdout), true, false, x1, RemoveListener) == Some((k', x));
    Advance(k, Call(x1, true, Receiving, [m]), StreamDo(Stdout, RemoveListener),
            k', Call(x, true, Receiving, [m]));
  }

  /** The call takes the stream's result and sends the exit code. */
  lemma ReturnsClean(k: Core, x: Streamer, m: Message, code: int)
    requires k.lock.Unlocked? && k.job.exitCode == Some(code) && x.pc == Returned(StreamOk)
    requires Reachable(AS_WRITTEN, One(k, Call(x, true, Receiving, [m])))
    ensures Reachable(AS_WRITTEN, One(k, Call(x, false, HandlerReturned(HandlerOk), [m, Completed(Int32(code))])))
  {
    Advance(k, Call(x, true, Receiving, [m]), Collect(Stdout), k, Call(x, false, Finishing, [m]));
    assert [m] + [Completed(Int32(code))] == [m, Completed(Int32(code))];
    Advance(k, Call(x, false, Finishing, [m]), SendExit(true),
            k, Call(x, false, HandlerReturned(HandlerOk), [m, Completed(Int32(code))]));
  }

  /** The child writes the two chunks and exits while the call has yet to register. */
  lemma ChildRuns(s: State, a: seq<byte>, b: seq<byte>, code: int) returns (t: State)
    requires Reachable(AS_WRITTEN, s) && s.core == INIT_CORE && 1 <= |a| <= CHUNK && 1 <= |b| <= CHUNK
    ensures Reachable(AS_WRITTEN, t) && t.clients == s.clients && t.core.lock.Unlocked?
    ensures t.core.job == JobState(Both(a + b, []), Some(code))
  {
    t := Publish(AS_WRITTEN, s, Stdout, a, false);
    t := Publish(AS_WRITTEN, t, Stdout, b, true);
    assert [] + a == a;
    t := FinishQuiet(AS_WRITTEN, t, code);
  }

  /** For every 1024-byte chunk followed by any further chunk there is a run in which a call
      that asked for all of stdout returns cleanly, exit code included, having sent only the
      first chunk: the proto's promise that all output has been sent then fails. */
  lemma CleanReturnLosesOutput(a: seq<byte>, b: seq<byte>, code: int) returns (t: State)
    requires |a| == 1024 && 1 <= |b| <= 1024
    ensures Reachable(AS_WRITTEN, t) && t.core.job == JobState(Both(a + b, []), Some(code))
    ensures 0 in t.clients && t.clients[0].Streams?
    ensures
      var z := t.clients[0].session;
      && z.fromBeginning && Started(z.limit, Stdout)
      && z.handler == HandlerReturned(HandlerOk)
      && z.log == [Output(Stdout, a, false), Completed(Int32(code))]
  {
    Begins();
    var z := Call(IDLE_STREAMER.(pc := Register), true, Receiving, []);
    t := ChildRuns(One(INIT_CORE, z), a, b, code);
    assert t == One(t.core, z);
    var k := DrainsOnce(t.core, a, b, code);
    var k', x := SendsOnce(k, a);
    ReturnsClean(k', x, Output(Stdout, a, false), code);
    t := One(k', Call(x, false, HandlerReturned(HandlerOk), [Output(Stdout, a, false), Completed(Int32(code))]));
  }
}
