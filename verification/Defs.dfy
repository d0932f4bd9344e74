/** Constants and machine-sized types shared by the kernel modules. */
module Defs {
  const N_PCBS: nat := 30
  const N_STACKS: nat := 30
  const N_QNODES: nat := N_PCBS + N_STACKS + 5
  const UINT32: nat := 0x1_0000_0000

  /** An index into `_pcbs` or into `_stacks`; the two tables have the same length. */
  type Slot = n: nat | n < N_PCBS

  type U32 = n: nat | n < UINT32
  /** Unsigned 32-bit arithmetic wraps around. */
  function Wrap(n: nat): (w: U32)
    ensures n < UINT32 ==> w == n
  {
    n % UINT32
  }

  type Byte = n: nat | n < 256

  datatype Option<+T> = None | Some(value: T)

  /** The E_ codes that the queue module hands back. */
  datatype Status = Success | NoQnodes | Empty | NotFound
}
