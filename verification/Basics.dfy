/** Small vocabulary shared by every module of the model. */
module Basics {
  datatype Option<+T> = None | Some(value: T)

  newtype byte = x: int | 0 <= x < 256

  /** The two output streams of a child process. */
  datatype Stream = Stdout | Stderr {
    function Other(): Stream { if this == Stdout then Stderr else Stdout }
  }

  /** One value per output stream. */
  datatype Both<T> = Both(stdout: T, stderr: T) {
    function At(s: Stream): T { if s == Stdout then stdout else stderr }
    function Set(s: Stream, v: T): Both<T> {
      if s == Stdout then this.(stdout := v) else this.(stderr := v)
    }
  }

  /** Size of every transfer buffer: pipe reads, output reads, stream messages. */
  const CHUNK: nat := 1024

  function Min(a: int, b: int): int { if a < b then a else b }

  /** Conversion of a Go int to int32: the low 32 bits, read as two's complement. */
  function Int32(c: int): int {
    (c + 0x8000_0000) % 0x1_0000_0000 - 0x8000_0000
  }
}
