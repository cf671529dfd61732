/** Small vocabulary shared by every module. */
module Basics {

  datatype Option<+T> = None | Some(value: T)

  newtype Byte = b: int | 0 <= b < 256
  type Bytes = seq<Byte>

  type Pid = int

  /** `initScheduler` counts pids from 0 and `KernelStart` makes the idle process first. */
  const IDLE: Pid := 0
  const INIT: Pid := 1

  /** What a kernel call returns when it fails (ERROR in yalnix.h). */
  const ERROR: int := -1

  /** What a kernel call returns when it succeeds and has nothing to report (Kernel.h). */
  const SUCCESS: int := 0

  /** LoadProgram's answer when the old program is gone and the new one does not fit (Kernel.h) */
  const KILL: int := 42

  /** No element occurs twice. */
  ghost predicate NoDup<T>(q: seq<T>) {
    forall i, j :: 0 <= i < j < |q| ==> q[i] != q[j]
  }

  function Min(a: int, b: int): int {
    if a < b then a else b
  }
}
