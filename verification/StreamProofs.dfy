/** Invariant of one streamOutput goroutine: exact delivery, position arithmetic of the
    past phase, the no-lost-wake-up argument and what a clean end means. */
module StreamProofs {
  import opened Basics
  import opened JobData
  import opened JobSystem
  import opened JobCoreProofs

  /** Concatenated payload of a message log. */
  function Bytes(ms: seq<Message>): seq<byte> {
    if ms == [] then []
    else Bytes(ms[..|ms| - 1]) + if ms[|ms| - 1].Output? then ms[|ms| - 1].data else []
  }

  lemma BytesPush(ms: seq<Message>, m: Message)
    ensures Bytes(ms + [m]) == Bytes(ms) + if m.Output? then m.data else []
  {
    assert (ms + [m])[..|ms|] == ms;
  }

  /** Well-formed messages of one stream: 1 to 1024 bytes each, `n` past ones first. */
  ghost predicate Tagged(ms: seq<Message>, s: Stream, n: nat) {
    forall i :: 0 <= i < |ms| ==>
      ms[i].Output? && ms[i].stream == s && 1 <= |ms[i].data| <= CHUNK && (ms[i].past <==> i < n)
  }

  ghost predicate Live(pc: StreamPc) { pc.Drain? || pc.DrainSend? || pc.Park? || pc.Unregister? }

  /** The chunk read but not yet handed over. A cancelled hand-over drops its chunk. */
  function InFlight(pc: StreamPc): seq<byte> {
    match pc case PastSend(b) => b case DrainSend(b, _) => b case _ => []
  }

  ghost predicate Aborted(pc: StreamPc) {
    (pc.Unregister? || pc.Returned?) && pc.result != StreamOk
  }

  /** Number of chunks that cover `n` bytes. */
  function Chunks(n: nat): nat { (n + CHUNK - 1) / CHUNK }

  function From(x: Streamer, fromBeginning: bool): nat { if fromBeginning then 0 else x.start }

  /** Delivered bytes plus the pending chunk are the output from the base to the cursor. */
  ghost predicate Delivers(o: seq<byte>, x: Streamer, fromBeginning: bool) {
    && From(x, fromBeginning) <= x.cursor <= |o|
    && x.start <= |o|
    && (if Aborted(x.pc) then Bytes(x.sent) <= o[From(x, fromBeginning)..x.cursor]
        else Bytes(x.sent) + InFlight(x.pc) == o[From(x, fromBeginning)..x.cursor])
  }

  ghost predicate PastPosition(x: Streamer, fromBeginning: bool) {
    match x.pc
    case Past => fromBeginning && x.cursor == CHUNK * x.pastCount < x.start && |x.sent| == x.pastCount
    case PastSend(b) =>
      && fromBeginning && 1 <= |b| <= CHUNK && CHUNK * x.pastCount < x.start
      && x.cursor == Min(CHUNK * (x.pastCount + 1), x.start) && |x.sent| == x.pastCount
    case Register => x.cursor == x.start && |x.sent| == x.pastCount
    case _ => true
  }

  ghost predicate PastDone(pc: StreamPc) {
    pc.Register? || Live(pc) || pc == Returned(StreamOk)
  }

  /** The end of a stream whose read at `q` carried the exit code: one chunk further, or at
      the end of the output when that comes first. */
  ghost predicate EndsAt(j: JobState, s: Stream, start: nat, q: nat, cursor: nat, shortReadOnly: bool) {
    var o := j.output.At(s);
    && j.exitCode.Some? && start <= q <= |o| && cursor == Min(q + CHUNK, |o|)
    && (shortReadOnly ==> cursor == |o|)
  }

  ghost predicate EndedAt(cfg: Config, j: JobState, s: Stream, x: Streamer) {
    x.seenAt.Some? && EndsAt(j, s, x.start, x.seenAt.value, x.cursor, cfg.returnOnShortRead)
  }

  ghost predicate LivePosition(cfg: Config, k: Core, c: ChanId, x: Streamer) {
    var o := k.job.output.At(c.stream);
    match x.pc
    case DrainSend(b, final) => 1 <= |b| <= CHUNK && (final ==> EndedAt(cfg, k.job, c.stream, x))
    case Park => Wake(k, c) || (x.cursor == |o| && k.job.exitCode.None?)
    case Unregister(r) => r == StreamOk ==> EndedAt(cfg, k.job, c.stream, x)
    case Returned(r) => r == StreamOk ==> EndedAt(cfg, k.job, c.stream, x)
    case _ => true
  }

  ghost predicate StreamInv(cfg: Config, k: Core, c: ChanId, fromBeginning: bool, ctxClosed: bool, x: Streamer) {
    && (c in k.listeners <==> Live(x.pc))
    && Tagged(x.sent, c.stream, x.pastCount)
    && ((x.pc.Unregister? || x.pc.Returned?) ==>
          x.pc.result != StreamOutOfBounds && (x.pc.result == StreamCtxErr ==> ctxClosed))
    && (if x.pc.NotStarted? || x.pc.Eager? then x.sent == [] && x.pastCount == 0 && x.cursor == x.start == 0
        else
          && Delivers(k.job.output.At(c.stream), x, fromBeginning)
          && PastPosition(x, fromBeginning)
          && (PastDone(x.pc) ==>
                x.start <= x.cursor && x.pastCount <= |x.sent|
                && x.pastCount == if fromBeginning then Chunks(x.start) else 0)
          && LivePosition(cfg, k, c, x))
  }

  // ---------------------------------------------------------------- stability

  lemma PrefixSlice<T>(a: seq<T>, b: seq<T>, lo: nat, hi: nat)
    requires a <= b && lo <= hi <= |a|
    ensures a[lo..hi] == b[lo..hi]
  {}

  lemma SliceJoin<T>(o: seq<T>, a: nat, b: nat, c: nat)
    requires a <= b <= c <= |o|
    ensures o[a..b] + o[b..c] == o[a..c]
  {}

  /** Nothing the rest of the system does disturbs a stream. */
  lemma StreamStable(cfg: Config, k: Core, k': Core, c: ChanId, fb: bool, ctx: bool, ctx': bool, x: Streamer)
    requires StreamInv(cfg, k, c, fb, ctx, x) && Rely(k, k', c) && (ctx ==> ctx')
    ensures StreamInv(cfg, k', c, fb, ctx', x)
  {
    var a, b := k.job.output.At(c.stream), k'.job.output.At(c.stream);
    assert a <= b;
    if !(x.pc.NotStarted? || x.pc.Eager?) {
      PrefixSlice(a, b, From(x, fb), x.cursor);
    }
  }

  // ---------------------------------------------------------------- the stream's own steps

  lemma EagerInv(cfg: Config, k: Core, c: ChanId, fb: bool, ctx: bool, x: Streamer, k': Core, x': Streamer)
    requires StreamInv(cfg, k, c, fb, ctx, x)
    requires StreamStep(cfg, k, c, fb, ctx, x, ReadEager) == Some((k', x'))
    ensures k' == k && StreamInv(cfg, k, c, fb, ctx, x')
  {}

  /** Totals never shrink, so a past read fills the whole buffer and no padding is sent. */
  lemma PastReadFills(cfg: Config, k: Core, c: ChanId, fb: bool, ctx: bool, x: Streamer)
    requires StreamInv(cfg, k, c, fb, ctx, x) && x.pc.Past?
    ensures
      var want := Min(CHUNK, x.start - x.cursor);
      var r := ReadOutput(k.job, c.stream, want, x.cursor);
      1 <= want && !r.outOfBounds && |r.data| == want && Padded(r.data, want) == r.data
  {}

  lemma PastReadDelivers(cfg: Config, k: Core, c: ChanId, fb: bool, ctx: bool, x: Streamer, k': Core, x': Streamer)
    requires StreamInv(cfg, k, c, fb, ctx, x)
    requires StreamStep(cfg, k, c, fb, ctx, x, ReadPast) == Some((k', x'))
    ensures k' == k && Delivers(k.job.output.At(c.stream), x', fb) && PastPosition(x', fb) && x'.pc.PastSend?
    ensures x'.sent == x.sent && x'.pastCount == x.pastCount
  {
    var o := k.job.output.At(c.stream);
    PastReadFills(cfg, k, c, fb, ctx, x);
    assert x'.pc == PastSend(o[x.cursor..x'.cursor]);
    SliceJoin(o, 0, x.cursor, x'.cursor);
  }

  lemma PastReadInv(cfg: Config, k: Core, c: ChanId, fb: bool, ctx: bool, x: Streamer, k': Core, x': Streamer)
    requires StreamInv(cfg, k, c, fb, ctx, x)
    requires StreamStep(cfg, k, c, fb, ctx, x, ReadPast) == Some((k', x'))
    ensures k' == k && StreamInv(cfg, k, c, fb, ctx, x')
  {
    PastReadDelivers(cfg, k, c, fb, ctx, x, k', x');
  }

  lemma AddListenerInv(cfg: Config, k: Core, c: ChanId, fb: bool, ctx: bool, x: Streamer, k': Core, x': Streamer)
    requires CoreInv(cfg, k) && StreamInv(cfg, k, c, fb, ctx, x)
    requires StreamStep(cfg, k, c, fb, ctx, x, AddListener) == Some((k', x'))
    ensures StreamInv(cfg, k', c, fb, ctx, x')
    ensures CoreInv(cfg, k') && forall d :: d != c ==> Rely(k, k', d)
  {
    AddListenerChange(cfg, k, c, 2, k');
  }

  lemma DrainReadDelivers(cfg: Config, k: Core, c: ChanId, fb: bool, ctx: bool, x: Streamer, x': Streamer)
    requires x.pc.Drain? && Delivers(k.job.output.At(c.stream), x, fb)
    requires StreamStep(cfg, k, c, fb, ctx, x, ReadDrain) == Some((k, x'))
    ensures x'.cursor == Min(x.cursor + CHUNK, |k.job.output.At(c.stream)|)
    ensures Delivers(k.job.output.At(c.stream), x', fb)
  {
    var o := k.job.output.At(c.stream);
    var r := ReadOutput(k.job, c.stream, CHUNK, x.cursor);
    assert r.data == o[x.cursor..x'.cursor];
    assert InFlight(x'.pc) == r.data;
    SliceJoin(o, From(x, fb), x.cursor, x'.cursor);
  }

  lemma DrainReadLive(cfg: Config, k: Core, c: ChanId, fb: bool, ctx: bool, x: Streamer, x': Streamer)
    requires x.pc.Drain? && x.start <= x.cursor <= |k.job.output.At(c.stream)|
    requires StreamStep(cfg, k, c, fb, ctx, x, ReadDrain) == Some((k, x'))
    ensures LivePosition(cfg, k, c, x') && x.cursor <= x'.cursor
    ensures Live(x'.pc) && (x'.pc.Unregister? ==> x'.pc.result == StreamOk)
  {}

  lemma DrainReadInv(cfg: Config, k: Core, c: ChanId, fb: bool, ctx: bool, x: Streamer, k': Core, x': Streamer)
    requires StreamInv(cfg, k, c, fb, ctx, x)
    requires StreamStep(cfg, k, c, fb, ctx, x, ReadDrain) == Some((k', x'))
    ensures k' == k && StreamInv(cfg, k, c, fb, ctx, x')
  {
    DrainReadDelivers(cfg, k, c, fb, ctx, x, x');
    DrainReadLive(cfg, k, c, fb, ctx, x, x');
  }

  lemma ReceiveInv(cfg: Config, k: Core, c: ChanId, fb: bool, ctx: bool, x: Streamer, k': Core, x': Streamer)
    requires CoreInv(cfg, k) && StreamInv(cfg, k, c, fb, ctx, x)
    requires StreamStep(cfg, k, c, fb, ctx, x, Receive) == Some((k', x'))
    ensures StreamInv(cfg, k', c, fb, ctx, x')
    ensures CoreInv(cfg, k') && forall d :: d != c ==> Rely(k, k', d)
  {
    ReceiveChange(cfg, k, c, k');
  }

  lemma RemoveListenerInv(cfg: Config, k: Core, c: ChanId, fb: bool, ctx: bool, x: Streamer, k': Core, x': Streamer)
    requires CoreInv(cfg, k) && StreamInv(cfg, k, c, fb, ctx, x)
    requires StreamStep(cfg, k, c, fb, ctx, x, RemoveListener) == Some((k', x'))
    ensures StreamInv(cfg, k', c, fb, ctx, x')
    ensures CoreInv(cfg, k') && forall d :: d != c ==> Rely(k, k', d)
  {
    RemoveListenerChange(cfg, k, c, k');
  }

  lemma CtxDoneInv(cfg: Config, k: Core, c: ChanId, fb: bool, ctx: bool, x: Streamer, k': Core, x': Streamer)
    requires StreamInv(cfg, k, c, fb, ctx, x)
    requires StreamStep(cfg, k, c, fb, ctx, x, CtxDone) == Some((k', x'))
    ensures k' == k && StreamInv(cfg, k, c, fb, ctx, x')
  {}

  lemma StreamStepInv(cfg: Config, k: Core, c: ChanId, fb: bool, ctx: bool, x: Streamer, a: StreamAct,
                      k': Core, x': Streamer)
    requires CoreInv(cfg, k) && StreamInv(cfg, k, c, fb, ctx, x)
    requires StreamStep(cfg, k, c, fb, ctx, x, a) == Some((k', x'))
    ensures StreamInv(cfg, k', c, fb, ctx, x')
    ensures CoreInv(cfg, k') && forall d :: d != c ==> Rely(k, k', d)
    ensures k'.listeners <= k.listeners + {c}
  {
    match a {
      case ReadEager => EagerInv(cfg, k, c, fb, ctx, x, k', x');
      case ReadPast => PastReadInv(cfg, k, c, fb, ctx, x, k', x');
      case AddListener => AddListenerInv(cfg, k, c, fb, ctx, x, k', x');
      case ReadDrain => DrainReadInv(cfg, k, c, fb, ctx, x, k', x');
      case Receive => ReceiveInv(cfg, k, c, fb, ctx, x, k', x');
      case CtxDone => CtxDoneInv(cfg, k, c, fb, ctx, x, k', x');
      case RemoveListener => RemoveListenerInv(cfg, k, c, fb, ctx, x, k', x');
    }
  }

  lemma ChunksCover(n: nat, m: nat)
    requires CHUNK * n < m <= CHUNK * (n + 1)
    ensures Chunks(m) == n + 1
  {}

  lemma TaggedPush(ms: seq<Message>, s: Stream, n: nat, n': nat, m: Message)
    requires Tagged(ms, s, n) && n <= |ms|
    requires m.Output? && m.stream == s && 1 <= |m.data| <= CHUNK
    requires if m.past then n == |ms| && n' == n + 1 else n' == n
    ensures Tagged(ms + [m], s, n')
  {}

  lemma SentDelivers(o: seq<byte>, fb: bool, x: Streamer, m: Message)
    requires (x.pc.PastSend? || x.pc.DrainSend?) && m.Output? && m.data == InFlight(x.pc)
    requires Delivers(o, x, fb)
    ensures Delivers(o, HandedOver(x, m), fb)
  {
    var y := HandedOver(x, m);
    assert y.sent == x.sent + [m] && y.cursor == x.cursor && y.start == x.start;
    assert InFlight(y.pc) == [] && !Aborted(y.pc) && !Aborted(x.pc);
    var b := Bytes(y.sent);
    assert b == Bytes(x.sent) + m.data by { BytesPush(x.sent, m); }
    assert b + [] == b;
  }

  lemma PastSentPosition(fb: bool, x: Streamer, m: Message)
    requires x.pc.PastSend? && PastPosition(x, fb)
    ensures PastPosition(HandedOver(x, m), fb)
    ensures x.cursor == x.start ==> HandedOver(x, m).pastCount == Chunks(x.start)
  {
    if x.cursor == x.start {
      ChunksCover(x.pastCount, x.start);
    }
  }

  /** A stream between two steps of its past phase, from the facts about its parts. */
  lemma PastParts(cfg: Config, k: Core, c: ChanId, fb: bool, ctx: bool, y: Streamer)
    requires c !in k.listeners && (y.pc.Past? || y.pc.Register?) && fb
    requires Tagged(y.sent, c.stream, y.pastCount)
    requires Delivers(k.job.output.At(c.stream), y, fb) && PastPosition(y, fb)
    requires y.pc.Register? ==> y.pastCount == Chunks(y.start)
    ensures StreamInv(cfg, k, c, fb, ctx, y)
  {}

  lemma PastSentInv(cfg: Config, k: Core, c: ChanId, fb: bool, ctx: bool, x: Streamer, m: Message)
    requires StreamInv(cfg, k, c, fb, ctx, x) && x.pc.PastSend? && Offered(x, c.stream) == Some(m)
    ensures StreamInv(cfg, k, c, fb, ctx, HandedOver(x, m))
  {
    SentDelivers(k.job.output.At(c.stream), fb, x, m);
    PastSentPosition(fb, x, m);
    TaggedPush(x.sent, c.stream, x.pastCount, x.pastCount + 1, m);
    PastParts(cfg, k, c, fb, ctx, HandedOver(x, m));
  }

  lemma LiveSentInv(cfg: Config, k: Core, c: ChanId, fb: bool, ctx: bool, x: Streamer, m: Message)
    requires StreamInv(cfg, k, c, fb, ctx, x) && x.pc.DrainSend? && Offered(x, c.stream) == Some(m)
    ensures StreamInv(cfg, k, c, fb, ctx, HandedOver(x, m))
  {
    SentDelivers(k.job.output.At(c.stream), fb, x, m);
    TaggedPush(x.sent, c.stream, x.pastCount, x.pastCount, m);
  }

  /** Handing the offered message over keeps the stream's invariant. */
  lemma HandedOverInv(cfg: Config, k: Core, c: ChanId, fb: bool, ctx: bool, x: Streamer, m: Message)
    requires StreamInv(cfg, k, c, fb, ctx, x) && Offered(x, c.stream) == Some(m)
    ensures StreamInv(cfg, k, c, fb, ctx, HandedOver(x, m))
    ensures HandedOver(x, m).sent == x.sent + [m]
  {
    if x.pc.PastSend? {
      PastSentInv(cfg, k, c, fb, ctx, x, m);
    } else {
      LiveSentInv(cfg, k, c, fb, ctx, x, m);
    }
  }
}
