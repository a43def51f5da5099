/** The lock-protected data of a job, and what one lock section does to it. */
module JobData {
  import opened Basics

  datatype JobUpdate = UpdateStdout | UpdateStderr | UpdateExitCode

  /** Both stored outputs and the write-once exit code. */
  datatype JobState = JobState(output: Both<seq<byte>>, exitCode: Option<int>)

  const EMPTY_JOB := JobState(Both([], []), None)

  function UpdateOf(s: Stream): JobUpdate {
    if s == Stdout then UpdateStdout else UpdateStderr
  }

  function Append(j: JobState, s: Stream, bs: seq<byte>): JobState {
    j.(output := j.output.Set(s, j.output.At(s) + bs))
  }

  /** Result of a non-blocking read: the bytes copied into the caller's buffer, the
      total known, the exit code, and whether the offset was out of bounds. */
  datatype ReadResult = ReadResult(data: seq<byte>, total: nat, exitCode: Option<int>, outOfBounds: bool)

  /** A read of up to `want` bytes from `offset`. An empty buffer reads nothing and
      never fails, whatever the offset. */
  function ReadOutput(j: JobState, s: Stream, want: nat, offset: nat): ReadResult {
    var out := j.output.At(s);
    if want == 0 then ReadResult([], |out|, j.exitCode, false)
    else if offset > |out| then ReadResult([], |out|, j.exitCode, true)
    else ReadResult(out[offset..offset + Min(want, |out| - offset)], |out|, j.exitCode, false)
  }

  /** A bounded update channel. */
  datatype Chan = Chan(cap: nat, buf: seq<JobUpdate>)

  /** A non-blocking send: dropped when the buffer is full. */
  function TrySend(c: Chan, u: JobUpdate): Chan {
    if |c.buf| < c.cap then c.(buf := c.buf + [u]) else c
  }

  /** What may happen to a job over time: output only grows at its end, the exit code
      is written once, and nothing grows once it is written. */
  predicate Grew(a: JobState, b: JobState) {
    && a.output.stdout <= b.output.stdout
    && a.output.stderr <= b.output.stderr
    && (a.exitCode.Some? ==> a == b)
  }

  lemma GrewTransitive(a: JobState, b: JobState, c: JobState)
    requires Grew(a, b) && Grew(b, c)
    ensures Grew(a, c)
  {}
}
