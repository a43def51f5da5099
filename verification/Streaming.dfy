/** The service's reading loops as imperative code over the Job object. A World stands for
    everything that runs concurrently: it decides what the job's goroutines do before each
    lock section of the loop, and when a select finds the context closed. */
module Streaming {
  import opened Basics
  import opened JobData
  import opened JobObject
  import opened JobSystem
  import opened StreamProofs

  class World {
    var plan: seq<seq<Event>>
    var cancels: seq<bool>
    var writes: seq<Option<nat>>

    /** The other goroutines run. */
    method Step(job: Job)
      requires job.Valid()
      modifies this`plan, job.Repr()
      ensures job.Valid() && Grew(old(job.State()), job.State())
      ensures old(plan) == [] ==> plan == [] && job.State() == old(job.State())
      ensures old(plan) != [] ==> plan == old(plan)[1..]
      ensures job.listeners == old(job.listeners) && fresh(job.Repr() - old(job.Repr()))
      ensures forall c :: c in job.listeners ==> job.Notified(c, old(c.buf), job.State() != old(job.State()))
      ensures old(plan) == [] ==> forall c :: c in job.listeners ==> c.buf == old(c.buf)
    {
      if plan != [] {
        AfterGrew(job.State(), plan[0]);
        job.Happen(plan[0]);
        plan := plan[1..];
      }
    }

    /** A select between the context and another ready case. */
    method Cancelled() returns (closed: bool)
      modifies this`cancels
    {
      closed := false;
      if cancels != [] {
        closed := cancels[0];
        cancels := cancels[1..];
      }
    }

    /** A write of `n` bytes to a file: all of them, or it fails after some. */
    method Write(n: nat) returns (k: nat, failed: bool)
      modifies this`writes
      ensures k <= n && (!failed ==> k == n)
    {
      k, failed := n, false;
      if writes != [] {
        if writes[0].Some? {
          k, failed := Min(writes[0].value, n), true;
        }
        writes := writes[1..];
      }
    }
  }

  /** The other goroutines run, then the loop reads: one read of any of the loops below. At
      an offset that was in bounds before, the read cannot fail. */
  method ReadNext(job: Job, s: Stream, world: World, buf: array<byte>, offset: nat)
    returns (n: nat, code: Option<int>, outOfBounds: bool)
    requires job.Valid() && buf !in job.Repr() && 0 < buf.Length && offset <= |job.State().output.At(s)|
    modifies world`plan, job.Repr(), buf
    ensures job.Valid() && Grew(old(job.State()), job.State())
    ensures job.listeners == old(job.listeners)
    ensures fresh(job.Repr() - old(job.Repr())) && buf !in job.Repr()
    ensures
      var o := job.State().output.At(s);
      && old(job.State()).output.At(s) <= o
      && n == Min(buf.Length, |o| - offset) && buf[..n] == o[offset..offset + n]
    ensures !outOfBounds && code == job.State().exitCode
    ensures old(world.plan) == [] ==> world.plan == [] && job.State() == old(job.State())
    ensures old(world.plan) != [] ==> |world.plan| < |old(world.plan)|
    ensures forall c :: c in job.listeners ==> job.Notified(c, old(c.buf), job.State() != old(job.State()))
    ensures old(world.plan) == [] ==> forall c :: c in job.listeners ==> c.buf == old(c.buf)
  {
    world.Step(job);
    var total;
    n, total, code, outOfBounds := job.ReadOutput(s, buf, offset);
    assert |buf[..n]| == n;
  }

  /** A prefix read earlier, extended by the next chunk of a grown output. */
  lemma NextChunk(o0: seq<byte>, o: seq<byte>, lo: nat, offset: nat, n: nat, out: seq<byte>, chunk: seq<byte>)
    requires o0 <= o && lo <= offset <= |o0| && offset + n <= |o|
    requires out == o0[lo..offset] && chunk == o[offset..offset + n]
    ensures out == o[lo..offset] && out + chunk == o[lo..offset + n]
  {}

  // ---------------------------------------------------------------- allOutput, toProtoJob

  /** Reads until a read comes back empty: under any interference the result is the whole
      output as of the last read, and the out-of-bounds error never occurs. */
  method AllOutput(job: Job, s: Stream, world: World) returns (out: seq<byte>, failed: bool)
    requires job.Valid()
    modifies world`plan, job.Repr()
    ensures job.Valid() && !failed && out == job.State().output.At(s)
    ensures Grew(old(job.State()), job.State())
    ensures job.listeners == old(job.listeners) && fresh(job.Repr() - old(job.Repr()))
  {
    var offset := 0;
    var buf := new byte[CHUNK];
    out := [];
    while true
      invariant job.Valid() && job.listeners == old(job.listeners)
      invariant fresh(job.Repr() - old(job.Repr())) && buf !in job.Repr()
      invariant Grew(old(job.State()), job.State())
      invariant offset <= |job.State().output.At(s)| && out == job.State().output.At(s)[0..offset]
      decreases |world.plan|, |job.State().output.At(s)| - offset
    {
      ghost var before := job.State();
      var n, _, err := ReadNext(job, s, world, buf, offset);
      GrewTransitive(old(job.State()), before, job.State());
      ghost var o := job.State().output.At(s);
      NextChunk(before.output.At(s), o, 0, offset, n, out, buf[..n]);
      if n == 0 || err {
        assert o[0..offset] == o;
        return out, err;
      }
      out := out + buf[..n];
      offset := offset + n;
    }
  }

  datatype ProtoJob = ProtoJob(exitCode: Option<int>, stdout: seq<byte>, stderr: seq<byte>)

  /** The exit code is read before the outputs, so a result that carries one is complete. */
  method ToProtoJob(job: Job, want: Both<bool>, world: World) returns (p: ProtoJob, failed: bool)
    requires job.Valid()
    modifies world`plan, job.Repr()
    ensures job.Valid() && !failed && Grew(old(job.State()), job.State())
    ensures p.stdout <= job.State().output.stdout && p.stderr <= job.State().output.stderr
    ensures (!want.stdout ==> p.stdout == []) && (!want.stderr ==> p.stderr == [])
    ensures p.exitCode.Some? ==>
      var j := job.State();
      && j.exitCode.Some? && p.exitCode.value == Int32(j.exitCode.value)
      && (want.stdout ==> p.stdout == j.output.stdout) && (want.stderr ==> p.stderr == j.output.stderr)
  {
    failed := false;
    ghost var j0 := job.State();
    world.Step(job);
    var code := job.ExitCode();
    ghost var j1 := job.State();
    p := ProtoJob(match code case None => None case Some(c) => Some(Int32(c)), [], []);
    if want.stdout {
      var out;
      out, failed := AllOutput(job, Stdout, world);
      p := p.(stdout := out);
    }
    ghost var j2 := job.State();
    if want.stderr {
      var out;
      out, failed := AllOutput(job, Stderr, world);
      p := p.(stderr := out);
    }
    GrewTransitive(j0, j1, j2);
    GrewTransitive(j0, j2, job.State());
    GrewTransitive(j1, j2, job.State());
  }

  // ---------------------------------------------------------------- messages on their channel

  /** The byte slices of the messages handed over: one array for each, apart from everything
      the loops and the job go on writing to, and still holding the bytes that were sent. */
  ghost predicate Carried(payloads: seq<array<byte>>, sent: seq<Message>, apart: set<object>)
    reads payloads
  {
    && |payloads| == |sent|
    && (forall i :: 0 <= i < |sent| ==>
          payloads[i] !in apart && sent[i].Output? && payloads[i][..] == sent[i].data)
    && (forall i, j :: 0 <= i < j < |payloads| ==> payloads[i] != payloads[j])
  }

  ghost function Arrays(payloads: seq<array<byte>>): set<object> { set p | p in payloads }

  lemma CarriedPush(payloads: seq<array<byte>>, sent: seq<Message>, apart: set<object>, b: array<byte>, m: Message)
    requires Carried(payloads, sent, apart) && b !in payloads && b !in apart && m.Output? && m.data == b[..]
    ensures Carried(payloads + [b], sent + [m], apart) && Arrays(payloads + [b]) == Arrays(payloads) + {b}
  {}

  lemma CarriedApart(payloads: seq<array<byte>>, sent: seq<Message>, apart: set<object>, fewer: set<object>)
    requires Carried(payloads, sent, apart) && fewer <= apart
    ensures Carried(payloads, sent, fewer)
  {}

  /** b := make([]byte, n); copy(b, buf). */
  method CopyOf(buf: array<byte>, n: nat) returns (b: array<byte>)
    requires n <= buf.Length
    ensures fresh(b) && b[..] == buf[..n]
  {
    b := new byte[n];
    forall i | 0 <= i < n { b[i] := buf[i]; }
  }

  // ---------------------------------------------------------------- streamOutput, past phase

  /** How a streamOutput call ends; Blocked is a schedule that leaves it parked for good. */
  datatype StreamEnd = EndOk | EndCtx | EndOutOfBounds | EndBlocked

  /** What the past loop has sent up to `offset`. */
  ghost predicate PastSent(sent: seq<Message>, s: Stream, o: seq<byte>, offset: nat, start: nat) {
    && offset <= start <= |o| && Bytes(sent) == o[0..offset] && Tagged(sent, s, |sent|)
    && offset == Min(CHUNK * |sent|, start) && |sent| == Chunks(offset)
  }

  lemma PastSentMore(sent: seq<Message>, s: Stream, o0: seq<byte>, o: seq<byte>, offset: nat, start: nat,
                     n: nat, m: Message)
    requires PastSent(sent, s, o0, offset, start) && o0 <= o && offset < start
    requires n == Min(CHUNK, start - offset) && m == Output(s, o[offset..offset + n], true)
    ensures PastSent(sent, s, o, offset, start) && PastSent(sent + [m], s, o, offset + n, start)
  {
    NextChunk(o0, o, 0, offset, n, Bytes(sent), m.data);
    BytesPush(sent, m);
    TaggedPush(sent, s, |sent|, |sent| + 1, m);
    ChunksCover(|sent|, offset + n);
  }

  /** A read of the past loop fills the array made for it, so that the array can be sent
      whole. */
  method PastRead(job: Job, s: Stream, offset: nat, start: nat, world: World) returns (b: array<byte>, failed: bool)
    requires job.Valid() && offset < start <= |job.State().output.At(s)|
    modifies world`plan, job.Repr()
    ensures job.Valid() && Grew(old(job.State()), job.State())
    ensures job.listeners == old(job.listeners) && fresh(job.Repr() - old(job.Repr()))
    ensures fresh(b) && b !in job.Repr() && !failed && b.Length == Min(CHUNK, start - offset)
    ensures
      var o := job.State().output.At(s);
      old(job.State()).output.At(s) <= o && b[..] == o[offset..offset + b.Length]
  {
    var amountWanted := CHUNK;
    if start - offset < amountWanted {
      amountWanted := start - offset;
    }
    b := new byte[amountWanted];
    var n, code;
    n, code, failed := ReadNext(job, s, world, b, offset);
    assert b[..] == b[..n];
  }

  method PastChunk(job: Job, s: Stream, offset: nat, start: nat, sent: seq<Message>, world: World)
    returns (b: array<byte>, m: Message, failed: bool)
    requires job.Valid() && PastSent(sent, s, job.State().output.At(s), offset, start) && offset < start
    modifies world`plan, job.Repr()
    ensures job.Valid() && Grew(old(job.State()), job.State())
    ensures job.listeners == old(job.listeners) && fresh(job.Repr() - old(job.Repr()))
    ensures fresh(b) && b !in job.Repr() && !failed && 0 < b.Length
    ensures m == Output(s, b[..], true)
    ensures PastSent(sent, s, job.State().output.At(s), offset, start)
    ensures PastSent(sent + [m], s, job.State().output.At(s), offset + b.Length, start)
  {
    b, failed := PastRead(job, s, offset, start, world);
    m := Output(s, b[..], true);
    PastSentMore(sent, s, old(job.State()).output.At(s), job.State().output.At(s), offset, start, b.Length, m);
  }

  /** The same, in terms of the arrays sent so far and the new one. */
  method PastMessage(job: Job, s: Stream, offset: nat, start: nat, sent: seq<Message>, payloads: seq<array<byte>>,
                     world: World)
    returns (more: seq<Message>, carried: seq<array<byte>>, next: nat, failed: bool)
    requires job.Valid() && PastSent(sent, s, job.State().output.At(s), offset, start) && offset < start
    requires Carried(payloads, sent, job.Repr())
    modifies world`plan, job.Repr()
    ensures job.Valid() && Grew(old(job.State()), job.State())
    ensures job.listeners == old(job.listeners) && fresh(job.Repr() - old(job.Repr()))
    ensures !failed && offset < next
    ensures PastSent(sent, s, job.State().output.At(s), offset, start)
    ensures PastSent(more, s, job.State().output.At(s), next, start)
    ensures Carried(payloads, sent, job.Repr()) && Carried(carried, more, job.Repr())
    ensures fresh(Arrays(carried) - Arrays(payloads))
  {
    var b, m;
    b, m, failed := PastChunk(job, s, offset, start, sent, world);
    CarriedPush(payloads, sent, job.Repr(), b, m);
    more, carried, next := sent + [m], payloads + [b], offset + b.Length;
  }

  /** One round of the past loop: read, then hand over unless the context is closed. */
  method PastRound(job: Job, s: Stream, offset: nat, start: nat, sent: seq<Message>, payloads: seq<array<byte>>,
                   world: World)
    returns (end: StreamEnd, more: seq<Message>, carried: seq<array<byte>>, next: nat)
    requires job.Valid() && PastSent(sent, s, job.State().output.At(s), offset, start) && offset < start
    requires Carried(payloads, sent, job.Repr())
    modifies world, job.Repr()
    ensures job.Valid() && Grew(old(job.State()), job.State())
    ensures job.listeners == old(job.listeners) && fresh(job.Repr() - old(job.Repr()))
    ensures end == EndOk || end == EndCtx
    ensures PastSent(more, s, job.State().output.At(s), next, start)
    ensures Carried(carried, more, job.Repr()) && fresh(Arrays(carried) - Arrays(payloads))
    ensures end == EndOk ==> offset < next
  {
    var failed;
    more, carried, next, failed := PastMessage(job, s, offset, start, sent, payloads, world);
    if failed {
      return EndOutOfBounds, sent, payloads, offset;
    }
    var closed := world.Cancelled();
    if closed {
      return EndCtx, sent, payloads, offset;
    }
    end := EndOk;
  }

  /** The past phase: chunks of at most 1024 bytes up to the initial total. */
  method PastPhase(job: Job, s: Stream, start: nat, world: World)
    returns (end: StreamEnd, sent: seq<Message>, payloads: seq<array<byte>>, offset: nat)
    requires job.Valid() && start <= |job.State().output.At(s)|
    modifies world, job.Repr()
    ensures job.Valid() && Grew(old(job.State()), job.State())
    ensures job.listeners == old(job.listeners) && fresh(job.Repr() - old(job.Repr()))
    ensures end == EndOk || end == EndCtx
    ensures PastSent(sent, s, job.State().output.At(s), offset, start)
    ensures Carried(payloads, sent, job.Repr()) && fresh(Arrays(payloads))
    ensures end == EndOk ==> offset == start
  {
    end, offset, sent, payloads := EndOk, 0, [], [];
    while offset < start && end == EndOk
      invariant job.Valid() && job.listeners == old(job.listeners)
      invariant fresh(job.Repr() - old(job.Repr())) && Grew(old(job.State()), job.State())
      invariant PastSent(sent, s, job.State().output.At(s), offset, start)
      invariant Carried(payloads, sent, job.Repr()) && fresh(Arrays(payloads))
      invariant end == EndOk || end == EndCtx
      decreases end == EndOk, start - offset
    {
      end, sent, payloads, offset := PastRound(job, s, offset, start, sent, payloads, world);
    }
  }

  // ---------------------------------------------------------------- streamOutput, live phase

  /** What the live loops have sent up to `offset`. */
  ghost predicate LiveSent(sent: seq<Message>, s: Stream, o: seq<byte>, start: nat, offset: nat) {
    start <= offset <= |o| && Bytes(sent) == o[start..offset] && Tagged(sent, s, 0)
  }

  lemma LiveSentMore(sent: seq<Message>, s: Stream, o0: seq<byte>, o: seq<byte>, start: nat, offset: nat,
                     n: nat, chunk: seq<byte>)
    requires LiveSent(sent, s, o0, start, offset) && o0 <= o && offset + n <= |o| && n <= CHUNK
    requires chunk == o[offset..offset + n]
    ensures LiveSent(sent, s, o, start, offset)
    ensures 0 < n ==> LiveSent(sent + [Output(s, chunk, false)], s, o, start, offset + n)
  {
    NextChunk(o0, o, start, offset, n, Bytes(sent), chunk);
    BytesPush(sent, Output(s, chunk, false));
    if 0 < n {
      TaggedPush(sent, s, 0, 0, Output(s, chunk, false));
    }
  }

  datatype DrainEnd = More | Drained | DrainOk(q: nat) | DrainCtx | DrainOutOfBounds

  ghost predicate DrainResult(end: DrainEnd, j: JobState, s: Stream, start: nat, from: nat, offset: nat,
                              shortReadOnly: bool) {
    match end
    case More => from < offset
    case Drained => offset == |j.output.At(s)| && j.exitCode.None?
    case DrainOk(q) => EndsAt(j, s, start, q, offset, shortReadOnly)
    case DrainCtx => true
    case DrainOutOfBounds => false
  }

  /** A live read into the reused buffer, and a copy of what was read: the buffer is about to
      be overwritten. */
  method ReadCopied(job: Job, s: Stream, world: World, buf: array<byte>, offset: nat)
    returns (n: nat, b: array<byte>, code: Option<int>, failed: bool)
    requires job.Valid() && buf !in job.Repr() && 0 < buf.Length && offset <= |job.State().output.At(s)|
    modifies world`plan, job.Repr(), buf
    ensures job.Valid() && Grew(old(job.State()), job.State())
    ensures job.listeners == old(job.listeners)
    ensures fresh(job.Repr() - old(job.Repr())) && buf !in job.Repr()
    ensures !failed && code == job.State().exitCode
    ensures fresh(b) && b !in job.Repr() + {buf} && b.Length == n
    ensures
      var o := job.State().output.At(s);
      && old(job.State()).output.At(s) <= o
      && n == Min(buf.Length, |o| - offset) && b[..] == o[offset..offset + n]
    ensures old(world.plan) == [] ==> world.plan == [] && job.State() == old(job.State())
    ensures old(world.plan) != [] ==> |world.plan| < |old(world.plan)|
    ensures old(world.plan) == [] ==> forall c :: c in job.listeners ==> c.buf == old(c.buf)
  {
    n, code, failed := ReadNext(job, s, world, buf, offset);
    b := CopyOf(buf, n);
  }

  /** The message made of it; an empty read makes none. */
  method DrainChunk(job: Job, s: Stream, buf: array<byte>, start: nat, offset: nat, sent: seq<Message>, world: World,
                    ghost ch: UpdateChan)
    returns (n: nat, b: array<byte>, m: Message, code: Option<int>, failed: bool)
    requires job.Valid() && buf !in job.Repr() && buf.Length == CHUNK && ch in job.listeners
    requires LiveSent(sent, s, job.State().output.At(s), start, offset)
    modifies world`plan, job.Repr(), buf
    ensures job.Valid() && Grew(old(job.State()), job.State())
    ensures job.listeners == old(job.listeners)
    ensures fresh(job.Repr() - old(job.Repr())) && buf !in job.Repr()
    ensures !failed && code == job.State().exitCode
    ensures n <= CHUNK && offset + n == Min(offset + CHUNK, |job.State().output.At(s)|)
    ensures LiveSent(sent, s, job.State().output.At(s), start, offset)
    ensures fresh(b) && b !in job.Repr() + {buf} && m == Output(s, b[..], false)
    ensures 0 < n ==> LiveSent(sent + [m], s, job.State().output.At(s), start, offset + n)
    ensures old(world.plan) == [] ==> world.plan == [] && job.State() == old(job.State())
    ensures old(world.plan) != [] ==> |world.plan| < |old(world.plan)|
    ensures old(world.plan) == [] ==> ch.buf == old(ch.buf)
  {
    n, b, code, failed := ReadCopied(job, s, world, buf, offset);
    m := Output(s, b[..], false);
    LiveSentMore(sent, s, old(job.State()).output.At(s), job.State().output.At(s), start, offset, n, b[..]);
  }

  /** The same with the hand-over that follows a read that was not empty. */
  method DrainMessage(job: Job, s: Stream, buf: array<byte>, start: nat, from: nat, before: seq<Message>,
                      carried: seq<array<byte>>, world: World, ghost ch: UpdateChan)
    returns (n: nat, sent: seq<Message>, payloads: seq<array<byte>>, code: Option<int>, failed: bool, closed: bool)
    requires job.Valid() && buf !in job.Repr() && buf.Length == CHUNK && ch in job.listeners
    requires LiveSent(before, s, job.State().output.At(s), start, from)
    requires Carried(carried, before, job.Repr() + {buf})
    modifies world, job.Repr(), buf
    ensures job.Valid() && Grew(old(job.State()), job.State())
    ensures job.listeners == old(job.listeners)
    ensures fresh(job.Repr() - old(job.Repr())) && buf !in job.Repr()
    ensures !failed && code == job.State().exitCode
    ensures from + n == Min(from + CHUNK, |job.State().output.At(s)|)
    ensures LiveSent(sent, s, job.State().output.At(s), start, if closed then from else from + n)
    ensures Carried(payloads, sent, job.Repr() + {buf}) && fresh(Arrays(payloads) - Arrays(carried))
    ensures old(world.plan) == [] ==> world.plan == [] && job.State() == old(job.State())
    ensures old(world.plan) != [] ==> |world.plan| < |old(world.plan)|
    ensures old(world.plan) == [] ==> ch.buf == old(ch.buf)
  {
    var b, m;
    n, b, m, code, failed := DrainChunk(job, s, buf, start, from, before, world, ch);
    sent, payloads, closed := before, carried, false;
    if n > 0 {
      closed := world.Cancelled();
      if !closed {
        CarriedPush(carried, before, job.Repr() + {buf}, b, m);
        sent, payloads := before + [m], carried + [b];
      }
    }
  }

  /** How a round ends whose message, if any, was handed over. */
  function RoundEnd(n: nat, code: Option<int>, from: nat, shortReadOnly: bool): DrainEnd {
    if code.Some? && (shortReadOnly ==> n < CHUNK) then DrainOk(from) else if n == 0 then Drained else More
  }

  lemma RoundEnds(j: JobState, s: Stream, start: nat, from: nat, n: nat, shortReadOnly: bool)
    requires start <= from && from + n == Min(from + CHUNK, |j.output.At(s)|) && from <= |j.output.At(s)|
    ensures DrainResult(RoundEnd(n, j.exitCode, from, shortReadOnly), j, s, start, from, from + n, shortReadOnly)
  {}

  /** One round of the inner live loop: read into the reused buffer, hand over a copy of the
      bytes, and only then look at the exit code of that read. */
  method DrainRound(job: Job, s: Stream, buf: array<byte>, start: nat, from: nat, before: seq<Message>,
                    carried: seq<array<byte>>, world: World, ghost ch: UpdateChan, shortReadOnly: bool)
    returns (end: DrainEnd, sent: seq<Message>, payloads: seq<array<byte>>, offset: nat)
    requires job.Valid() && buf !in job.Repr() && buf.Length == CHUNK && ch in job.listeners
    requires LiveSent(before, s, job.State().output.At(s), start, from)
    requires Carried(carried, before, job.Repr() + {buf})
    modifies world, job.Repr(), buf
    ensures job.Valid() && Grew(old(job.State()), job.State())
    ensures job.listeners == old(job.listeners)
    ensures fresh(job.Repr() - old(job.Repr())) && buf !in job.Repr()
    ensures LiveSent(sent, s, job.State().output.At(s), start, offset) && from <= offset
    ensures Carried(payloads, sent, job.Repr() + {buf}) && fresh(Arrays(payloads) - Arrays(carried))
    ensures DrainResult(end, job.State(), s, start, from, offset, shortReadOnly)
    ensures old(world.plan) == [] ==> world.plan == [] && job.State() == old(job.State())
    ensures old(world.plan) != [] ==> |world.plan| < |old(world.plan)|
    ensures old(world.plan) == [] ==> ch.buf == old(ch.buf)
  {
    var n, code, err, closed;
    n, sent, payloads, code, err, closed := DrainMessage(job, s, buf, start, from, before, carried, world, ch);
    offset := if closed then from else from + n;
    if err {
      end := DrainOutOfBounds;
    } else if closed {
      end := DrainCtx;
    } else {
      end := RoundEnd(n, code, from, shortReadOnly);
      RoundEnds(job.State(), s, start, from, n, shortReadOnly);
    }
  }

  /** The inner live loop: read until there is nothing to read or the exit code shows up. The
      messages handed over are unharmed by the reuse of the buffer. */
  method DrainLoop(job: Job, s: Stream, buf: array<byte>, start: nat, from: nat, before: seq<Message>,
                   carried: seq<array<byte>>, world: World, ghost ch: UpdateChan, shortReadOnly: bool)
    returns (end: DrainEnd, sent: seq<Message>, payloads: seq<array<byte>>, offset: nat)
    requires job.Valid() && buf !in job.Repr() && buf.Length == CHUNK && ch in job.listeners
    requires LiveSent(before, s, job.State().output.At(s), start, from)
    requires Carried(carried, before, job.Repr() + {buf})
    modifies world, job.Repr(), buf
    ensures job.Valid() && Grew(old(job.State()), job.State())
    ensures job.listeners == old(job.listeners)
    ensures fresh(job.Repr() - old(job.Repr())) && buf !in job.Repr()
    ensures LiveSent(sent, s, job.State().output.At(s), start, offset) && from <= offset
    ensures Carried(payloads, sent, job.Repr() + {buf}) && fresh(Arrays(payloads) - Arrays(carried))
    ensures end != More && DrainResult(end, job.State(), s, start, from, offset, shortReadOnly)
    ensures old(world.plan) == [] ==> world.plan == [] && job.State() == old(job.State())
    ensures old(world.plan) != [] ==> |world.plan| < |old(world.plan)|
    ensures old(world.plan) == [] ==> ch.buf == old(ch.buf)
  {
    end, sent, payloads, offset := More, before, carried, from;
    while end == More
      invariant job.Valid() && job.listeners == old(job.listeners)
      invariant fresh(job.Repr() - old(job.Repr())) && buf !in job.Repr()
      invariant Grew(old(job.State()), job.State())
      invariant LiveSent(sent, s, job.State().output.At(s), start, offset) && from <= offset
      invariant Carried(payloads, sent, job.Repr() + {buf}) && fresh(Arrays(payloads) - Arrays(carried))
      invariant end != More ==> DrainResult(end, job.State(), s, start, from, offset, shortReadOnly)
      invariant old(world.plan) == [] ==> world.plan == [] && job.State() == old(job.State())
      invariant |world.plan| <= |old(world.plan)|
      invariant old(world.plan) != [] && end != More ==> |world.plan| < |old(world.plan)|
      invariant old(world.plan) == [] ==> ch.buf == old(ch.buf)
      decreases |world.plan|, |job.State().output.At(s)| - offset, end == More
    {
      end, sent, payloads, offset := DrainRound(job, s, buf, start, offset, sent, payloads, world, ch, shortReadOnly);
    }
  }

  datatype WaitEnd = Woken | WaitCtx | WaitBlocked

  /** The select on the update channel. It stays blocked only if nothing has happened to the
      job since it parked and nothing more will: an update never goes unnoticed. */
  method AwaitUpdate(job: Job, ch: UpdateChan, world: World) returns (end: WaitEnd)
    requires job.Valid() && ch in job.listeners
    modifies world, job.Repr()
    ensures job.Valid() && Grew(old(job.State()), job.State())
    ensures job.listeners == old(job.listeners) && fresh(job.Repr() - old(job.Repr()))
    ensures |world.plan| <= |old(world.plan)|
    ensures old(world.plan) == [] ==> job.State() == old(job.State())
    ensures old(world.plan) == [] ==> |ch.buf| <= |old(ch.buf)| && (end == Woken ==> |ch.buf| < |old(ch.buf)|)
    ensures end == WaitBlocked ==> job.State() == old(job.State()) && world.plan == [] && old(ch.buf) == []
  {
    ghost var j0, plan0, buf0 := job.State(), world.plan, ch.buf;
    var closed := world.Cancelled();
    while !closed && ch.buf == []
      invariant job.Valid() && job.listeners == old(job.listeners)
      invariant fresh(job.Repr() - old(job.Repr())) && Grew(j0, job.State())
      invariant |world.plan| <= |plan0|
      invariant plan0 == [] ==> job.State() == j0 && ch.buf == buf0
      invariant ch.buf == [] ==> job.State() == j0 && buf0 == []
      decreases |world.plan|, !closed
    {
      if world.plan == [] {
        return WaitBlocked;
      }
      world.Step(job);
      closed := world.Cancelled();
    }
    if closed {
      return WaitCtx;
    }
    var _ := ch.Receive();
    return Woken;
  }

  /** What a live phase that ended this way guarantees. */
  ghost predicate LiveResult(end: StreamEnd, j: JobState, s: Stream, start: nat, q: nat, offset: nat,
                             shortReadOnly: bool) {
    match end
    case EndOk => EndsAt(j, s, start, q, offset, shortReadOnly)
    case EndCtx => true
    case EndBlocked => offset == |j.output.At(s)| && j.exitCode.None?
    case EndOutOfBounds => false
  }

  /** AwaitUpdate, with what it keeps for the surrounding loop. */
  method Wait(job: Job, s: Stream, start: nat, offset: nat, world: World, ch: UpdateChan, ghost buf: array<byte>,
              ghost sent: seq<Message>, ghost payloads: seq<array<byte>>)
    returns (end: WaitEnd)
    requires job.Valid() && ch in job.listeners && buf !in job.Repr()
    requires LiveSent(sent, s, job.State().output.At(s), start, offset)
    requires Carried(payloads, sent, job.Repr() + {buf})
    modifies world, job.Repr()
    ensures job.Valid() && Grew(old(job.State()), job.State()) && buf !in job.Repr()
    ensures job.listeners == old(job.listeners) && fresh(job.Repr() - old(job.Repr()))
    ensures LiveSent(sent, s, job.State().output.At(s), start, offset)
    ensures Carried(payloads, sent, job.Repr() + {buf})
    ensures |world.plan| <= |old(world.plan)|
    ensures old(world.plan) == [] ==> job.State() == old(job.State())
    ensures old(world.plan) == [] ==> |ch.buf| <= |old(ch.buf)| && (end == Woken ==> |ch.buf| < |old(ch.buf)|)
    ensures end == WaitBlocked ==> job.State() == old(job.State())
  {
    end := AwaitUpdate(job, ch, world);
    LiveSentMore(sent, s, old(job.State()).output.At(s), job.State().output.At(s), start, offset, 0, []);
  }

  /** One round of the live loop: drain, then wait. None means another round follows. */
  method LiveRound(job: Job, s: Stream, buf: array<byte>, start: nat, from: nat, before: seq<Message>,
                   carried: seq<array<byte>>, world: World, ch: UpdateChan, shortReadOnly: bool)
    returns (end: Option<StreamEnd>, sent: seq<Message>, payloads: seq<array<byte>>, offset: nat, q: nat)
    requires job.Valid() && buf !in job.Repr() && buf.Length == CHUNK && ch in job.listeners
    requires LiveSent(before, s, job.State().output.At(s), start, from)
    requires Carried(carried, before, job.Repr() + {buf})
    modifies world, job.Repr(), buf
    ensures job.Valid() && Grew(old(job.State()), job.State()) && buf !in job.Repr()
    ensures job.listeners == old(job.listeners) && fresh(job.Repr() - old(job.Repr()))
    ensures LiveSent(sent, s, job.State().output.At(s), start, offset) && from <= offset
    ensures Carried(payloads, sent, job.Repr() + {buf}) && fresh(Arrays(payloads) - Arrays(carried))
    ensures end.Some? ==> LiveResult(end.value, job.State(), s, start, q, offset, shortReadOnly)
    ensures old(world.plan) == [] ==> world.plan == [] && job.State() == old(job.State())
    ensures old(world.plan) != [] ==> |world.plan| < |old(world.plan)|
    ensures old(world.plan) == [] ==> |ch.buf| <= |old(ch.buf)| && (end.None? ==> |ch.buf| < |old(ch.buf)|)
  {
    var drained;
    drained, sent, payloads, offset :=
      DrainLoop(job, s, buf, start, from, before, carried, world, ch, shortReadOnly);
    q := 0;
    if drained.DrainOk? {
      end, q := Some(EndOk), drained.q;
    } else if drained == DrainCtx {
      end := Some(EndCtx);
    } else if drained == DrainOutOfBounds {
      end := Some(EndOutOfBounds);
    } else {
      var woken := Wait(job, s, start, offset, world, ch, buf, sent, payloads);
      end := if woken == WaitCtx then Some(EndCtx) else if woken == WaitBlocked then Some(EndBlocked) else None;
    }
  }

  /** The live loop proper: drain, then wait for any update, until the exit code shows up. */
  method LiveLoop(job: Job, s: Stream, start: nat, world: World, ch: UpdateChan, shortReadOnly: bool)
    returns (end: StreamEnd, sent: seq<Message>, payloads: seq<array<byte>>, offset: nat, q: nat)
    requires job.Valid() && ch in job.listeners && start <= |job.State().output.At(s)|
    modifies world, job.Repr()
    ensures job.Valid() && Grew(old(job.State()), job.State())
    ensures job.listeners == old(job.listeners) && fresh(job.Repr() - old(job.Repr()))
    ensures LiveSent(sent, s, job.State().output.At(s), start, offset)
    ensures Carried(payloads, sent, job.Repr()) && fresh(Arrays(payloads))
    ensures LiveResult(end, job.State(), s, start, q, offset, shortReadOnly)
  {
    var buf := new byte[CHUNK];
    var round: Option<StreamEnd> := None;
    sent, payloads, offset, q := [], [], start, 0;
    while round.None?
      invariant job.Valid() && job.listeners == old(job.listeners)
      invariant fresh(job.Repr() - old(job.Repr())) && buf !in job.Repr()
      invariant Grew(old(job.State()), job.State())
      invariant LiveSent(sent, s, job.State().output.At(s), start, offset)
      invariant Carried(payloads, sent, job.Repr() + {buf}) && fresh(Arrays(payloads))
      invariant round.Some? ==> LiveResult(round.value, job.State(), s, start, q, offset, shortReadOnly)
      decreases |world.plan|, |job.State().output.At(s)| - offset, |ch.buf|, round.None?
    {
      round, sent, payloads, offset, q :=
        LiveRound(job, s, buf, start, offset, sent, payloads, world, ch, shortReadOnly);
    }
    end := round.value;
    CarriedApart(payloads, sent, job.Repr() + {buf}, job.Repr());
  }

  /** Registration of a fresh two-slot channel. */
  method Listen(job: Job, world: World) returns (ch: UpdateChan)
    requires job.Valid()
    modifies world, job.Repr()
    ensures job.Valid() && Grew(old(job.State()), job.State()) && fresh(ch)
    ensures job.listeners == old(job.listeners) + {ch} && ch !in old(job.listeners)
    ensures fresh(job.Repr() - old(job.Repr()))
  {
    ch := new UpdateChan(2);
    world.Step(job);
    job.AddUpdateListener(ch);
  }

  /** The deferred removal of the listener, which was not among the others. */
  method Unlisten(job: Job, world: World, ch: UpdateChan, ghost others: set<UpdateChan>)
    requires job.Valid() && job.listeners == others + {ch} && ch !in others
    modifies world, job.Repr()
    ensures job.Valid() && Grew(old(job.State()), job.State())
    ensures job.listeners == others && fresh(job.Repr() - old(job.Repr()))
  {
    world.Step(job);
    job.RemoveUpdateListener(ch);
  }

  /** A live phase that has ended stays ended as it did. */
  lemma LiveStable(end: StreamEnd, j: JobState, j': JobState, s: Stream, sent: seq<Message>, start: nat, offset: nat,
                   q: nat, shortReadOnly: bool)
    requires LiveSent(sent, s, j.output.At(s), start, offset) && end != EndBlocked && Grew(j, j')
    requires LiveResult(end, j, s, start, q, offset, shortReadOnly)
    ensures LiveSent(sent, s, j'.output.At(s), start, offset)
    ensures LiveResult(end, j', s, start, q, offset, shortReadOnly)
  {
    LiveSentMore(sent, s, j.output.At(s), j'.output.At(s), start, offset, 0, []);
  }

  /** The live loop and the deferred removal of the listener. A blocked call is still parked
      and keeps its listener. */
  method LiveThenUnlisten(job: Job, s: Stream, start: nat, world: World, ch: UpdateChan, shortReadOnly: bool,
                          ghost others: set<UpdateChan>)
    returns (end: StreamEnd, sent: seq<Message>, payloads: seq<array<byte>>, offset: nat, q: nat)
    requires job.Valid() && start <= |job.State().output.At(s)|
    requires job.listeners == others + {ch} && ch !in others
    modifies world, job.Repr()
    ensures job.Valid() && Grew(old(job.State()), job.State())
    ensures fresh(job.Repr() - old(job.Repr()))
    ensures end != EndBlocked ==> job.listeners == others
    ensures LiveSent(sent, s, job.State().output.At(s), start, offset)
    ensures Carried(payloads, sent, job.Repr()) && fresh(Arrays(payloads))
    ensures LiveResult(end, job.State(), s, start, q, offset, shortReadOnly)
  {
    end, sent, payloads, offset, q := LiveLoop(job, s, start, world, ch, shortReadOnly);
    if end != EndBlocked {
      ghost var j := job.State();
      Unlisten(job, world, ch, others);
      LiveStable(end, j, job.State(), s, sent, start, offset, q, shortReadOnly);
    }
  }

  /** Registration, then the live loop. */
  method LivePhase(job: Job, s: Stream, start: nat, world: World, shortReadOnly: bool)
    returns (end: StreamEnd, sent: seq<Message>, payloads: seq<array<byte>>, offset: nat, q: nat)
    requires job.Valid() && start <= |job.State().output.At(s)|
    modifies world, job.Repr()
    ensures job.Valid() && Grew(old(job.State()), job.State())
    ensures fresh(job.Repr() - old(job.Repr()))
    ensures end != EndBlocked ==> job.listeners == old(job.listeners)
    ensures LiveSent(sent, s, job.State().output.At(s), start, offset)
    ensures Carried(payloads, sent, job.Repr()) && fresh(Arrays(payloads))
    ensures LiveResult(end, job.State(), s, start, q, offset, shortReadOnly)
  {
    ghost var others := job.listeners;
    var updateCh := Listen(job, world);
    end, sent, payloads, offset, q := LiveThenUnlisten(job, s, start, world, updateCh, shortReadOnly, others);
  }

  // ---------------------------------------------------------------- streamOutput, both phases

  /** What a streamOutput call has delivered when it ends. */
  ghost predicate Streamed(end: StreamEnd, j: JobState, s: Stream, fromBeginning: bool, sent: seq<Message>,
                           start: nat, past: nat, q: nat, shortReadOnly: bool) {
    var o := j.output.At(s);
    var from := if fromBeginning then 0 else start;
    && end != EndOutOfBounds && start <= |o|
    && Tagged(sent, s, past) && Bytes(sent) <= o[from..]
    && (end == EndOk || end == EndBlocked ==> past == if fromBeginning then (start + 1023) / 1024 else 0)
    && (end == EndOk ==>
          && j.exitCode.Some? && start <= q <= |o|
          && Bytes(sent) == o[from..Min(q + 1024, |o|)]
          && (shortReadOnly ==> Bytes(sent) == o[from..]))
    && (end == EndBlocked ==> j.exitCode.None? && Bytes(sent) == o[from..])
  }

  lemma CutShort(end: StreamEnd, j: JobState, s: Stream, sent: seq<Message>, offset: nat, start: nat, q: nat,
                 shortReadOnly: bool)
    requires end == EndCtx && PastSent(sent, s, j.output.At(s), offset, start)
    ensures Streamed(end, j, s, true, sent, start, |sent|, q, shortReadOnly)
  {
    assert j.output.At(s)[0..][..offset] == j.output.At(s)[0..offset];
  }

  lemma {:induction false} BytesConcat(a: seq<Message>, b: seq<Message>)
    ensures Bytes(a + b) == Bytes(a) + Bytes(b)
  {
    if b == [] {
      assert a + b == a && Bytes(a) + [] == Bytes(a);
    } else {
      var c, m := b[..|b| - 1], b[|b| - 1];
      assert a + b == (a + c) + [m] && b == c + [m];
      BytesPush(a + c, m);
      BytesPush(c, m);
      BytesConcat(a, c);
    }
  }

  /** The past-to-live switch leaves no gap, duplicate or reordering. */
  lemma JoinedBytes(past: seq<Message>, live: seq<Message>, s: Stream, o1: seq<byte>, o: seq<byte>, start: nat,
                    offset: nat, fb: bool)
    requires o1 <= o && start <= |o1| && LiveSent(live, s, o, start, offset)
    requires if fb then PastSent(past, s, o1, start, start) else past == []
    ensures Tagged(past + live, s, |past|)
    ensures Bytes(past + live) == o[(if fb then 0 else start)..offset]
    ensures |past| == if fb then Chunks(start) else 0
  {
    BytesConcat(past, live);
    if fb {
      PrefixSlice(o1, o, 0, start);
      SliceJoin(o, 0, start, offset);
    }
  }

  lemma SlicePrefix<T>(o: seq<T>, from: nat, hi: nat)
    requires from <= hi <= |o|
    ensures o[from..hi] <= o[from..] && (hi == |o| ==> o[from..hi] == o[from..])
  {
    assert o[from..][..hi - from] == o[from..hi];
  }

  lemma Joined(end: StreamEnd, j: JobState, past: seq<Message>, live: seq<Message>, s: Stream, o1: seq<byte>,
               start: nat, q: nat, offset: nat, fb: bool, shortReadOnly: bool)
    requires o1 <= j.output.At(s) && start <= |o1| && LiveSent(live, s, j.output.At(s), start, offset)
    requires LiveResult(end, j, s, start, q, offset, shortReadOnly)
    requires if fb then PastSent(past, s, o1, start, start) else past == []
    ensures Streamed(end, j, s, fb, past + live, start, |past|, q, shortReadOnly)
  {
    var o, from := j.output.At(s), if fb then 0 else start;
    JoinedBytes(past, live, s, o1, o, start, offset, fb);
    SlicePrefix(o, from, offset);
    assert Bytes(past + live) == o[from..offset];
  }

  /** The initial read with a nil slice, for the total. */
  method InitialTotal(job: Job, s: Stream, world: World) returns (total: nat, outOfBounds: bool)
    requires job.Valid()
    modifies world`plan, job.Repr()
    ensures job.Valid() && Grew(old(job.State()), job.State())
    ensures job.listeners == old(job.listeners) && fresh(job.Repr() - old(job.Repr()))
    ensures total == |job.State().output.At(s)| && !outOfBounds
  {
    world.Step(job);
    var none := new byte[0];
    var n, code;
    n, total, code, outOfBounds := job.ReadOutput(s, none, 0);
  }

  lemma JoinedCarried(a: seq<array<byte>>, past: seq<Message>, b: seq<array<byte>>, live: seq<Message>,
                      apart: set<object>)
    requires Carried(a, past, apart) && Carried(b, live, apart) && Arrays(a) !! Arrays(b)
    ensures Carried(a + b, past + live, apart) && Arrays(a + b) == Arrays(a) + Arrays(b)
  {
    forall i, j | 0 <= i < |a| && 0 <= j < |b|
      ensures a[i] != b[j]
    {
      assert a[i] in Arrays(a) && b[j] in Arrays(b);
    }
  }

  /** The live phase, after what the past phase has sent. */
  method ThenLive(job: Job, s: Stream, start: nat, fromBeginning: bool, before: seq<Message>,
                  carried: seq<array<byte>>, world: World, shortReadOnly: bool)
    returns (end: StreamEnd, sent: seq<Message>, payloads: seq<array<byte>>, q: nat)
    requires job.Valid() && start <= |job.State().output.At(s)|
    requires if fromBeginning then PastSent(before, s, job.State().output.At(s), start, start) else before == []
    requires Carried(carried, before, job.Repr())
    modifies world, job.Repr()
    ensures job.Valid() && Grew(old(job.State()), job.State())
    ensures end != EndBlocked ==> job.listeners == old(job.listeners)
    ensures Streamed(end, job.State(), s, fromBeginning, sent, start, |before|, q, shortReadOnly)
    ensures Carried(payloads, sent, job.Repr()) && fresh(Arrays(payloads) - Arrays(carried))
  {
    ghost var o1 := job.State().output.At(s);
    var live, more;
    ghost var offset;
    end, live, more, offset, q := LivePhase(job, s, start, world, shortReadOnly);
    Joined(end, job.State(), before, live, s, o1, start, q, offset, fromBeginning, shortReadOnly);
    JoinedCarried(carried, before, more, live, job.Repr());
    sent, payloads := before + live, carried + more;
  }

  /** The past phase, for a caller who asked for the beginning. */
  method Beginning(job: Job, s: Stream, start: nat, fromBeginning: bool, world: World)
    returns (end: StreamEnd, sent: seq<Message>, payloads: seq<array<byte>>, ghost delivered: nat)
    requires job.Valid() && start <= |job.State().output.At(s)|
    modifies world, job.Repr()
    ensures job.Valid() && Grew(old(job.State()), job.State()) && start <= |job.State().output.At(s)|
    ensures job.listeners == old(job.listeners) && fresh(job.Repr() - old(job.Repr()))
    ensures end == EndOk || (end == EndCtx && fromBeginning)
    ensures if fromBeginning then PastSent(sent, s, job.State().output.At(s), delivered, start) else sent == []
    ensures Carried(payloads, sent, job.Repr()) && fresh(Arrays(payloads))
    ensures end == EndOk ==> delivered == start
  {
    end, sent, payloads, delivered := EndOk, [], [], start;
    if fromBeginning {
      end, sent, payloads, delivered := PastPhase(job, s, start, world);
    }
  }

  /** streamOutput, under any interference. It delivers the output from its start (the
      beginning, or the initial total), past messages first. A clean end delivers up to
      min(q + 1024, total), where q is the offset of the read that saw the exit code; the
      variant that returns only on a short read delivers everything. A call that stays parked
      for good has delivered everything there is, and there is no exit code. However it ends,
      every message handed over still holds, in an array of its own, the bytes it was sent
      with, and nothing the job may go on writing to is among those arrays. */
  method StreamOutput(job: Job, s: Stream, fromBeginning: bool, world: World, shortReadOnly: bool)
    returns (end: StreamEnd, sent: seq<Message>, payloads: seq<array<byte>>, start: nat, past: nat, q: nat)
    requires job.Valid()
    modifies world, job.Repr()
    ensures job.Valid() && Grew(old(job.State()), job.State())
    ensures end != EndBlocked ==> job.listeners == old(job.listeners)
    ensures Streamed(end, job.State(), s, fromBeginning, sent, start, past, q, shortReadOnly)
    ensures Carried(payloads, sent, job.Repr()) && fresh(Arrays(payloads))
  {
    var failed;
    start, failed := InitialTotal(job, s, world);
    past, sent, payloads, q, end := 0, [], [], 0, EndOk;
    if failed {
      end := EndOutOfBounds;
      return;
    }
    ghost var delivered;
    end, sent, payloads, delivered := Beginning(job, s, start, fromBeginning, world);
    past := |sent|;
    if end != EndOk {
      CutShort(end, job.State(), s, sent, delivered, start, q, shortReadOnly);
    } else {
      end, sent, payloads, q := ThenLive(job, s, start, fromBeginning, sent, payloads, world, shortReadOnly);
    }
  }
}
