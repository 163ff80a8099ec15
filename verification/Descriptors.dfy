/**
 Descriptors and the calls of close() on them, counted per descriptor.
 */
module Descriptors {

  /** An open descriptor, named for its whole life by where it was made: the `slot`-th of the
      `group`-th set made by `conn`.  A descriptor closed twice or never is visible even where
      descriptor numbers are reused. */
  datatype Fd = Fd(conn: nat, group: nat, slot: nat)

  /** The runs of close() calls so far, each with the descriptors it closed, in order; the
      latest outermost. */
  datatype Closes = NoCloses | AndClosed(before: Closes, fds: seq<Fd>)

  /** One more close() in the latest run. */
  function CloseOne(cs: Closes, fd: Fd): Closes
    requires cs.AndClosed?
  {
    AndClosed(cs.before, cs.fds + [fd])
  }

  function Times(fds: seq<Fd>, f: Fd): nat {
    if fds == [] then 0 else Times(fds[..|fds| - 1], f) + if fds[|fds| - 1] == f then 1 else 0
  }

  function TimesClosed(cs: Closes, f: Fd): nat {
    if cs.NoCloses? then 0 else TimesClosed(cs.before, f) + Times(cs.fds, f)
  }
}
