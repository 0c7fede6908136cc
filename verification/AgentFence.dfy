/** The admission barrier an agent keeps around a checkpoint, as the control
    plane sees it: which generation closed admission and whether its archive has
    been streamed in full. ClaudeWorkload and ShellCheckpoint refine it;
    FreezeRestore is proved against it. */
module AgentFence {
  type Generation = nat

  /** The empty checkpoint id, which no attempt has. */
  const NO_GENERATION: Generation := 0

  datatype Admission =
    | Awaiting                       // a restore target before its archive
    | Open                           // writes are accepted
    | Streaming(gen: Generation)     // closed, archive not yet fully streamed
    | Streamed(gen: Generation)      // closed, archive complete; waits for abort or reclamation

  /** POST /checkpoint: only an open agent starts an archive. */
  function BeginArchive(a: Admission, g: Generation): Admission {
    if a == Open then Streaming(g) else a
  }

  /** The whole archive left the agent. */
  function CompleteArchive(a: Admission): Admission {
    if a.Streaming? then Streamed(a.gen) else a
  }

  /** The handler failed before the archive was complete. */
  function FailArchive(a: Admission): Admission {
    if a.Streaming? then Open else a
  }

  /** POST /checkpoint/abort: reopens only a complete archive of that generation. */
  function AbortArchive(a: Admission, g: Generation): Admission {
    if a == Streamed(g) then Open else a
  }

  /** POST /restore. */
  function RestoreArchive(a: Admission): Admission {
    if a == Awaiting then Open else a
  }
}
