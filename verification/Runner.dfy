/** The goroutine loops of the runner, as imperative code over the Job object. */
module Runner {
  import opened Basics
  import opened JobData
  import opened JobObject
  import S = JobSystem
  import P = JobCoreProofs

  /** Result of one Read on a pipe: the bytes returned, and whether an error came with them. */
  datatype PipeRead = PipeRead(bytes: seq<byte>, err: bool)

  /** Everything Read returns up to and including the first error. */
  function ReadUntilError(results: seq<PipeRead>): seq<byte> {
    if results == [] then []
    else if results[0].err then results[0].bytes
    else results[0].bytes + ReadUntilError(results[1..])
  }

  lemma AppendNothing(j: JobState, s: Stream)
    ensures Append(j, s, []) == j
  {
    assert j.output.At(s) + [] == j.output.At(s);
  }

  lemma AppendTwice(j: JobState, s: Stream, a: seq<byte>, b: seq<byte>)
    ensures Append(Append(j, s, a), s, b) == Append(j, s, a + b)
  {
    assert (j.output.At(s) + a) + b == j.output.At(s) + (a + b);
  }

  /** One read into the reused buffer, stored if it is not empty. */
  method Store(job: Job, s: Stream, b: array<byte>, bytes: seq<byte>)
    requires job.Valid() && job.exitCode.None? && b !in job.Repr() && |bytes| <= b.Length
    modifies b, job.Repr()
    ensures job.Valid() && job.State() == Append(old(job.State()), s, bytes)
    ensures job.exitCode.None? && job.listeners == old(job.listeners)
    ensures fresh(job.Repr() - old(job.Repr())) && b !in job.Repr()
  {
    var n := |bytes|;
    forall k | 0 <= k < n { b[k] := bytes[k]; }
    assert b[..n] == bytes;
    if n > 0 {
      job.UpdateOutput(s, b, n);
    } else {
      AppendNothing(job.State(), s);
    }
  }

  /** The pipe goroutine. One buffer is reused for every read, and still the job's stream
      grows by exactly the concatenation of what was read, bytes that come with the error
      included; the other stream and the exit code are untouched. */
  method StartPipe(job: Job, s: Stream, results: seq<PipeRead>) returns (ended: bool)
    requires job.Valid() && job.exitCode.None?
    requires forall r :: r in results ==> |r.bytes| <= CHUNK
    modifies job.Repr()
    ensures job.Valid() && job.State() == Append(old(job.State()), s, ReadUntilError(results))
    ensures ended <==> exists r :: r in results && r.err
  {
    var b := new byte[CHUNK];
    var i := 0;
    ended := false;
    while i < |results| && !ended
      invariant i <= |results| && job.Valid() && job.exitCode.None? && job.listeners == old(job.listeners)
      invariant fresh(job.Repr() - old(job.Repr())) && b !in job.Repr()
      invariant Append(old(job.State()), s, ReadUntilError(results))
             == (if ended then job.State() else Append(job.State(), s, ReadUntilError(results[i..])))
      invariant ended <==> exists r :: r in results[..i] && r.err
      decreases |results| - i, !ended
    {
      var bytes := results[i].bytes;
      ghost var before := job.State();
      Store(job, s, b, bytes);
      AppendTwice(before, s, bytes, ReadUntilError(results[i + 1..]));
      assert results[i..][1..] == results[i + 1..] && results[..i + 1] == results[..i] + [results[i]];
      ended := results[i].err;
      i := i + 1;
    }
    if !ended {
      AppendNothing(job.State(), s);
      assert results[..i] == results;
    } else {
      assert forall r :: r in results[..i] ==> r in results;
    }
  }

  /** The case a select of the signal loop takes. */
  datatype Pick = PickDone | PickStop | PickForce

  /** One select: which of the job's contexts are closed by then, and the case it would take. */
  datatype Select = Select(done: bool, stop: bool, force: bool, pick: Pick)

  /** A case is ready when its context is closed and its channel is not nil. As written the
      forced case names the context itself. */
  predicate Ready(cfg: S.Config, l: S.SignalLoop, r: Select) {
    match r.pick
    case PickDone => r.done
    case PickStop => r.stop && l.stopCh
    case PickForce => r.force && (cfg.selectNilableForce ==> l.forceCh)
  }

  /** The loop after a select; a case that is not ready is not taken. */
  function Selected(cfg: S.Config, l: S.SignalLoop, r: Select): S.SignalLoop {
    if !l.running || !Ready(cfg, l, r) then l
    else
      match r.pick
      case PickDone => l.(running := false)
      case PickStop => S.Signalled(l, S.SIGTERM)
      case PickForce => S.Signalled(l, S.SIGKILL)
  }

  function StepOf(p: Pick): S.CoreAct {
    match p case PickDone => S.SigDone case PickStop => S.SigTerm case PickForce => S.SigKill
  }

  /** The loop's selects are exactly the signal steps of the job system: one is enabled if and
      only if the running loop would take that case, with the same effect. */
  lemma SelectedIsStep(cfg: S.Config, k: S.Core, p: Pick)
    ensures
      var r := Select(k.done, k.stop, k.force, p);
      S.CoreStep(cfg, k, StepOf(p))
      == if k.signals.running && Ready(cfg, k.signals, r)
         then Some(k.(signals := Selected(cfg, k.signals, r))) else None
  {
    match p {
      case PickDone =>
      case PickStop =>
      case PickForce =>
    }
  }

  function SelectedAll(cfg: S.Config, l: S.SignalLoop, selects: seq<Select>): S.SignalLoop
    decreases |selects|
  {
    if selects == [] then l else SelectedAll(cfg, Selected(cfg, l, selects[0]), selects[1..])
  }

  lemma {:induction false} StoppedStays(cfg: S.Config, l: S.SignalLoop, selects: seq<Select>)
    ensures !l.running || selects == [] ==> SelectedAll(cfg, l, selects) == l
    decreases |selects|
  {
    if !l.running && selects != [] {
      StoppedStays(cfg, l, selects[1..]);
    }
  }

  ghost predicate SawDone(selects: seq<Select>) { exists i :: 0 <= i < |selects| && selects[i].done }

  ghost predicate SawStop(selects: seq<Select>) { exists i :: 0 <= i < |selects| && selects[i].stop }

  ghost predicate SawForce(selects: seq<Select>) { exists i :: 0 <= i < |selects| && selects[i].force }

  /** What the loop has done by the end of `seen` is warranted by the contexts found closed. */
  ghost predicate Warranted(cfg: S.Config, l: S.SignalLoop, seen: seq<Select>) {
    && P.Count(l.sent, S.SIGTERM) == (if l.stopCh then 0 else 1)
    && (0 < P.Count(l.sent, S.SIGKILL) <==> !l.forceCh)
    && (cfg.selectNilableForce ==> |l.sent| == (if l.stopCh then 0 else 1) + (if l.forceCh then 0 else 1))
    && (!l.stopCh ==> SawStop(seen))
    && (!l.forceCh ==> SawForce(seen))
    && (l.running ==> l.stopCh || l.forceCh)
    && (!l.running ==> !(l.stopCh || l.forceCh) || SawDone(seen))
  }

  lemma SawMore(seen: seq<Select>, r: Select)
    ensures SawDone(seen) || r.done ==> SawDone(seen + [r])
    ensures SawStop(seen) || r.stop ==> SawStop(seen + [r])
    ensures SawForce(seen) || r.force ==> SawForce(seen + [r])
  {
    var more := seen + [r];
    assert more[|seen|] == r;
    assert forall i :: 0 <= i < |seen| ==> more[i] == seen[i];
  }

  lemma SelectedWarranted(cfg: S.Config, l: S.SignalLoop, seen: seq<Select>, r: Select)
    requires Warranted(cfg, l, seen)
    ensures Warranted(cfg, Selected(cfg, l, r), seen + [r])
  {
    SawMore(seen, r);
    P.SignalledCounts(l, S.SIGTERM);
    P.SignalledCounts(l, S.SIGKILL);
  }

  lemma {:induction false} AllWarranted(cfg: S.Config, l: S.SignalLoop, seen: seq<Select>, rest: seq<Select>)
    requires Warranted(cfg, l, seen)
    ensures Warranted(cfg, SelectedAll(cfg, l, rest), seen + rest)
    decreases |rest|
  {
    if rest == [] {
      assert seen + rest == seen;
    } else {
      SelectedWarranted(cfg, l, seen, rest[0]);
      AllWarranted(cfg, Selected(cfg, l, rest[0]), seen + [rest[0]], rest[1..]);
      assert seen + [rest[0]] + rest[1..] == seen + rest;
    }
  }

  /** The signal goroutine with its two local channels. SIGTERM goes out at most once and only
      after a select that found the stop context closed, SIGKILL only after one that found the
      force context closed; the loop ends only on a closed done context or with both sent. */
  method SignalLoop(cfg: S.Config, selects: seq<Select>)
    returns (running: bool, stopCh: bool, forceCh: bool, sent: seq<S.Signal>)
    ensures S.SignalLoop(running, stopCh, forceCh, sent) == SelectedAll(cfg, S.INIT_CORE.signals, selects)
    ensures P.Count(sent, S.SIGTERM) <= 1
    ensures P.Count(sent, S.SIGTERM) > 0 ==> SawStop(selects)
    ensures P.Count(sent, S.SIGKILL) > 0 ==> SawForce(selects)
    ensures !running ==> SawDone(selects) || (P.Count(sent, S.SIGTERM) > 0 && P.Count(sent, S.SIGKILL) > 0)
    ensures cfg.selectNilableForce ==> |sent| <= 2
  {
    running, stopCh, forceCh, sent := true, true, true, [];
    var i := 0;
    while i < |selects| && (stopCh || forceCh) && running
      invariant i <= |selects|
      invariant running ==> stopCh || forceCh
      invariant SelectedAll(cfg, S.SignalLoop(running, stopCh, forceCh, sent), selects[i..])
             == SelectedAll(cfg, S.INIT_CORE.signals, selects)
    {
      var r := selects[i];
      assert selects[i..][1..] == selects[i + 1..];
      match r.pick {
        case PickDone => running := !r.done;
        case PickStop =>
          if r.stop && stopCh {
            stopCh, sent := false, sent + [S.SIGTERM];
            running := forceCh;
          }
        case PickForce =>
          if r.force && (!cfg.selectNilableForce || forceCh) {
            forceCh, sent := false, sent + [S.SIGKILL];
            running := stopCh;
          }
      }
      i := i + 1;
    }
    StoppedStays(cfg, S.SignalLoop(running, stopCh, forceCh, sent), selects[i..]);
    AllWarranted(cfg, S.INIT_CORE.signals, [], selects);
    assert [] + selects == selects;
  }
}
