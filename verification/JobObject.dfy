/** The Job object: growable output buffers, bounded update channels, and the lock sections
    that work on them. Every method is tied to the functions of JobData. */
module JobObject {
  import opened Basics
  import opened JobData

  type pos = x: int | 0 < x witness 1

  class UpdateChan {
    const cap: pos
    var buf: seq<JobUpdate>

    constructor (cap: pos)
      ensures this.cap == cap && buf == []
    {
      this.cap := cap;
      buf := [];
    }

    ghost function Value(): Chan reads this { Chan(cap, buf) }

    /** Non-blocking send. */
    method TrySend(u: JobUpdate)
      modifies this
      ensures Value() == JobData.TrySend(old(Value()), u)
    {
      if |buf| < cap { buf := buf + [u]; }
    }

    method Receive() returns (u: JobUpdate)
      requires buf != []
      modifies this
      ensures u == old(buf)[0] && buf == old(buf)[1..]
    {
      u := buf[0];
      buf := buf[1..];
    }
  }

  /** An append-only byte slice with spare capacity. */
  class ByteLog {
    var data: array<byte>
    var len: nat

    ghost predicate Valid() reads this { len <= data.Length }

    ghost function Contents(): seq<byte>
      reads this, data
      requires Valid()
    {
      data[..len]
    }

    constructor ()
      ensures Valid() && fresh(data) && Contents() == []
    {
      data := new byte[0];
      len := 0;
    }

    /** append(log, src[:n]...): in place when the capacity allows, else in a new array. */
    method Append(src: array<byte>, n: nat)
      requires Valid() && src != data && n <= src.Length
      modifies this, data
      ensures Valid() && (data == old(data) || fresh(data))
      ensures Contents() == old(Contents()) + src[..n]
    {
      ghost var before := Contents();
      if data.Length < len + n {
        var bigger := new byte[2 * (len + n)];
        forall i | 0 <= i < len { bigger[i] := data[i]; }
        data := bigger;
      }
      assert data[..len] == before;
      forall i | 0 <= i < n { data[len + i] := src[i]; }
      assert data[..len] == before;
      len := len + n;
    }

    /** copy(dst, log[offset:]). */
    method CopyTo(dst: array<byte>, offset: nat) returns (n: nat)
      requires Valid() && dst != data && offset <= len
      modifies dst
      ensures n == Min(dst.Length, len - offset)
      ensures dst[..n] == Contents()[offset..offset + n]
      ensures dst[n..] == old(dst[n..])
    {
      n := Min(dst.Length, len - offset);
      forall i | 0 <= i < n { dst[i] := data[offset + i]; }
      assert forall i :: 0 <= i < n ==> dst[i] == Contents()[offset + i];
    }
  }

  /** What the goroutines of a job may do between two steps of a client. */
  datatype Event = Wrote(stream: Stream, bytes: seq<byte>) | Exited(code: int)

  function AfterOne(j: JobState, e: Event): JobState {
    match e case Wrote(s, bs) => Append(j, s, bs) case Exited(c) => j.(exitCode := Some(c))
  }

  /** The effect of such events. The waiter publishes the exit code only after both pipes
      have ended, so nothing follows it. */
  function After(j: JobState, evs: seq<Event>): JobState
    decreases |evs|
  {
    if evs == [] || j.exitCode.Some? then j else After(AfterOne(j, evs[0]), evs[1..])
  }

  lemma {:induction false} AfterGrew(j: JobState, evs: seq<Event>)
    ensures Grew(j, After(j, evs))
    decreases |evs|
  {
    if evs != [] && j.exitCode.None? {
      AfterGrew(AfterOne(j, evs[0]), evs[1..]);
      GrewTransitive(j, AfterOne(j, evs[0]), After(j, evs));
    }
  }

  class Job {
    const stdout: ByteLog
    const stderr: ByteLog
    var exitCode: Option<int>
    var listeners: set<UpdateChan>
    var done: bool
    var stopRequested: bool
    var forceRequested: bool

    constructor ()
      ensures Valid() && fresh(Repr()) && listeners == {}
      ensures State() == EMPTY_JOB && !stopRequested && !forceRequested
    {
      stdout := new ByteLog();
      stderr := new ByteLog();
      exitCode := None;
      listeners := {};
      done := false;
      stopRequested := false;
      forceRequested := false;
    }

    ghost predicate Valid() reads this, stdout, stderr {
      && stdout != stderr && stdout.data != stderr.data
      && stdout.Valid() && stderr.Valid()
      && (done <==> exitCode.Some?)
    }

    ghost function Repr(): set<object> reads this, stdout, stderr {
      {this, stdout, stderr, stdout.data, stderr.data} + listeners
    }

    ghost function State(): JobState
      reads this, stdout, stderr, stdout.data, stderr.data
      requires Valid()
    {
      JobState(Both(stdout.Contents(), stderr.Contents()), exitCode)
    }

    function LogOf(s: Stream): ByteLog { if s == Stdout then stdout else stderr }

    /** Non-blocking read into `b`; an empty buffer stands for the nil slice. */
    method ReadOutput(s: Stream, b: array<byte>, offset: nat)
      returns (n: nat, total: nat, code: Option<int>, outOfBounds: bool)
      requires Valid() && b !in Repr()
      modifies b
      ensures Valid() && State() == old(State())
      ensures n <= b.Length
      ensures ReadResult(b[..n], total, code, outOfBounds) == JobData.ReadOutput(State(), s, b.Length, offset)
      ensures b[n..] == old(b[n..])
    {
      var out := LogOf(s);
      n, total, code, outOfBounds := 0, out.len, exitCode, false;
      if b.Length > 0 {
        if offset > total {
          outOfBounds := true;
        } else {
          n := out.CopyTo(b, offset);
        }
      }
    }

    method ExitCode() returns (code: Option<int>)
      requires Valid()
      ensures code == State().exitCode
    {
      code := exitCode;
    }

    /** Notify every listener by a non-blocking send. */
    method Notify(u: JobUpdate)
      modifies listeners
      ensures forall c :: c in listeners ==> c.Value() == TrySend(old(c.Value()), u)
    {
      var rest := listeners;
      while rest != {}
        invariant rest <= listeners
        invariant forall c :: c in rest ==> c.Value() == old(c.Value())
        invariant forall c :: c in listeners - rest ==> c.Value() == TrySend(old(c.Value()), u)
        decreases |rest|
      {
        var c :| c in rest;
        c.TrySend(u);
        rest := rest - {c};
      }
    }

    /** Append src[:n] to a stream and notify. The bytes are copied: `src` may be reused. */
    method UpdateOutput(s: Stream, src: array<byte>, n: nat)
      requires Valid() && src !in Repr() && n <= src.Length && exitCode.None?
      modifies LogOf(s), LogOf(s).data, listeners
      ensures Valid() && State() == Append(old(State()), s, src[..n])
      ensures forall c :: c in listeners ==> c.Value() == TrySend(old(c.Value()), UpdateOf(s))
      ensures fresh(Repr() - old(Repr()))
    {
      LogOf(s).Append(src, n);
      Notify(UpdateOf(s));
    }

    method MarkDone(code: int)
      requires Valid() && exitCode.None?
      modifies this, listeners
      ensures Valid() && State() == old(State()).(exitCode := Some(code)) && done
      ensures listeners == old(listeners)
      ensures stopRequested == old(stopRequested) && forceRequested == old(forceRequested)
      ensures forall c :: c in listeners ==> c.Value() == TrySend(old(c.Value()), UpdateExitCode)
    {
      exitCode := Some(code);
      done := true;
      Notify(UpdateExitCode);
    }

    method AddUpdateListener(c: UpdateChan)
      requires Valid()
      modifies this
      ensures Valid() && State() == old(State()) && listeners == old(listeners) + {c}
      ensures stopRequested == old(stopRequested) && forceRequested == old(forceRequested)
    {
      listeners := listeners + {c};
    }

    method RemoveUpdateListener(c: UpdateChan)
      requires Valid()
      modifies this
      ensures Valid() && State() == old(State()) && listeners == old(listeners) - {c}
      ensures stopRequested == old(stopRequested) && forceRequested == old(forceRequested)
    {
      listeners := listeners - {c};
    }

    /** The first half of Stop: close the stop or the force-stop context. */
    method RequestStop(force: bool)
      modifies this`stopRequested, this`forceRequested
      ensures forceRequested == (old(forceRequested) || force) && stopRequested == (old(stopRequested) || !force)
    {
      if force { forceRequested := true; } else { stopRequested := true; }
    }

    /** A channel that may have been notified: nothing taken out, and an update put in
        whenever the job changed. */
    ghost predicate Notified(c: UpdateChan, before: seq<JobUpdate>, changed: bool) reads c {
      before <= c.buf && (changed ==> c.buf != [])
    }

    /** One write or exit: a single lock section. */
    method Occur(e: Event)
      requires Valid() && exitCode.None?
      modifies Repr()
      ensures Valid() && State() == AfterOne(old(State()), e)
      ensures listeners == old(listeners)
      ensures stopRequested == old(stopRequested) && forceRequested == old(forceRequested)
      ensures fresh(Repr() - old(Repr()))
      ensures forall c :: c in listeners ==> Notified(c, old(c.buf), true)
    {
      ghost var chans := listeners;
      assert forall c :: c in chans ==> c in Repr();
      match e {
        case Wrote(s, bs) =>
          var src := new byte[|bs|](i requires 0 <= i < |bs| => bs[i]);
          assert src[..] == bs == src[..|bs|];
          UpdateOutput(s, src, |bs|);
        case Exited(c) =>
          MarkDone(c);
      }
    }

    /** The job's goroutines run for a while. */
    method Happen(evs: seq<Event>)
      requires Valid()
      modifies Repr()
      ensures Valid() && State() == After(old(State()), evs)
      ensures listeners == old(listeners)
      ensures stopRequested == old(stopRequested) && forceRequested == old(forceRequested)
      ensures fresh(Repr() - old(Repr()))
      ensures forall c :: c in listeners ==> Notified(c, old(c.buf), State() != old(State()))
      decreases |evs|
    {
      if evs != [] && exitCode.None? {
        Occur(evs[0]);
        Happen(evs[1..]);
      }
    }
  }
}
