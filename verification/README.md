# session-platform: a model of freeze, restore and output

A session runs in one pod. It can be frozen into an archive and thawed into another pod, by any of several control-plane replicas; its agent queues prompts, runs them, and streams a bounded, redacted record to readers. This project models those parts of the platform in Dafny and proves what they keep over whole runs.

The files follow the platform's layers:

- `FreezeRestore`, `FreezeInvariant`, `FreezeTheorems`: the freeze/restore transaction as a step relation. The record, the Lease's fence, the pods, the archive store and every operation in flight are one state; each operation has a program counter and a stale copy of the record, and may crash, lose its Lease or lose a reply at any step. `AgentFence` is the admission barrier the transaction relies on.
- `ClaudeWorkload`, `ClaudeSignIn`, `ShellCheckpoint`: the two agents, both shown to be steps of `AgentFence`. `ClaudeSession` follows one session through the agents of all its pods and the archives between them.
- `Utf8`, `Redactor`, `Scrollback`, `OutputSink`, `ProxyBody`: the byte pipeline, each stage an object proved equal to a whole-input function for every chunking. `AgentOutput` composes them behind each projector, with platform notices between the writes.
- `LineFraming`, `ClaudeProjector`, `CodexProjector`, `MiniMaxProjector`: standard output to text.
- `Paths`, `StateTree`, `StateExtract`, `StateArchive`, `StateRestore`, `StateFiles`: the archive, on a tree of real directories, files and symlinks with permissions.
- `AuthSlot`, `Notices`, `Skills`, `TurnMarkers`: the small machines.
- `Bytes`, `Wrappers`: shared basics.

What the transaction model trusts: a compare-and-swap is atomic on the Lease's fence, the state and the transaction, `ErrConflict` means it was not applied, and any other error leaves its effect unknown; a plain state swap is not fenced and changes the state only; tokens and pod names are fresh; a stale holder may still perform its next side effect; a successful checkpoint reply means the agent streamed its whole archive; a pod dies only after somebody asked for its deletion, so a node failure is outside the model and a session in a pod that crashes by itself is lost with its writes.

Four promises do not hold on every run; each is proved with its exact condition:

- A restore whose install reply is lost reads the record back. If another replica has meanwhile taken the Lease and prepared the next snapshot of the very pod this restore installed, the read-back takes that pod for a stray and has it stopped (control-plane/internal/service/manager.go:894-911). `FreezeTheorems.SurvivesExactlyWhenGuarded` shows this is the only way to lose a session, `FenceHeldNeverStrands` that it needs a takeover, `StrandedRun` that it is reachable.
- A sign-in that expires while an earlier prompt is still queued can make the next prompt start another sign-in, and the code sent for the first is then recorded as a prompt: `ClaudeSignIn.ExpiryDecides`.
- Archiving accepts a name with a backslash, restoring refuses it: `StateArchive.ExtractsExactly`, `StateArchive.BackslashArchives`.
- A login whose copy to the slot failed exists in HOME only, and a CLI that then leaves neither a login nor a logout there destroys it; and a login that a CLI leaves in a turn after which nothing is pushed, because the gate or a refused code stopped it, is overwritten by the next pull: `AuthSlot.LostExactly`, `AuthSlot.LossReachable`.

Two comments in the sources say more than the code does: a login copy that failed is retried by the next pull, but a removal that failed is not (`AuthSlot.LogoutNeedsRemoval`); and the redactor is `bytes.ReplaceAll` for one literal, while for several literals it depends on the chunks unless no literal can complete inside another (`Redactor.ChunkingNeverShows`).

## Model

| member | source | states |
|---|---|---|
| FreezeInvariant.CreatedInv | control-plane/internal/service/manager.go:180-252 | a session as it is created satisfies the transaction invariant |
| FreezeInvariant.StepKeeps | control-plane/internal/service/manager.go:511-1040 | every step of every operation on every replica keeps the invariant, except a read-back that strands its own target |
| FreezeInvariant.CommitKeeps | control-plane/internal/service/manager.go:553-587 | the commit to `committing` keeps the invariant and seals the generation: its archive is exactly the accepted writes |
| FreezeInvariant.CasCurrent | control-plane/internal/store/store.go:34-43 | a CAS that applies proves the operation still has the fence, so its stale copy of the record is the record |
| FreezeInvariant.RecoveryStepKeeps | control-plane/internal/service/manager.go:614-687 | claiming, aborting, clearing, stopping and finalizing another replica's transaction keep the invariant |
| FreezeInvariant.FreezingStepKeeps | control-plane/internal/service/manager.go:511-587 | prepare, checkpoint, commit and rollback keep the invariant, whatever reply is lost |
| FreezeInvariant.ThawingStepKeeps | control-plane/internal/service/manager.go:778-921 | creating, unpacking, installing and abandoning a restore target keep the invariant |
| FreezeInvariant.TerminatingStepKeeps | control-plane/internal/service/manager.go:977-1040 | terminating in any phase keeps the invariant |
| FreezeInvariant.StepKeepsCore | control-plane/internal/service/manager.go:511-1040 | every step, a read-back that strands its target included, keeps all of the invariant but what it says of stops |
| FreezeInvariant.ReclaimsOnePod | control-plane/internal/service/manager.go:950-964 | the pods a transaction reclaims are one: the recorded pod is the source pod |
| FreezeTheorems.RunKeepsInv | control-plane/internal/service/manager.go:511-1040 | over any run of any number of replicas, with crashes, takeovers and lost replies, in which no read-back strands its target, the invariant holds |
| FreezeTheorems.RunKeepsCore | control-plane/internal/service/manager.go:511-1040 | over every run, without exception, its core holds |
| FreezeTheorems.SessionSurvives | control-plane/internal/service/manager.go:511-1040 | with no Terminate begun, at every reachable state the session is in its recorded pod, which nobody has asked to stop before a commit, or in a referenced archive that holds every accepted write |
| FreezeTheorems.LostExactlyWhenStranded | control-plane/internal/service/manager.go:894-911 | the one gap, exactly: a step loses the session if and only if it is a read-back that answers while the target it installed is recorded under another prepare |
| FreezeTheorems.SurvivesExactlyWhenGuarded | control-plane/internal/service/manager.go:894-911 | the same of whole runs: with no Terminate begun the session survives at every point of a run if and only if no read-back of it strands its target |
| FreezeTheorems.FenceHeldNeverStrands | control-plane/internal/service/manager.go:894-911 | the gap needs a takeover: a read-back by the Lease holder is safe |
| FreezeTheorems.StrandedRun | control-plane/internal/service/manager.go:894-911 | the gap is reachable: a complete run from Create in which an acknowledged write ends in no live pod and no archive |
| FreezeTheorems.HistoryGrows | control-plane/internal/service/manager.go:511-1040 | over every run: accepted writes only grow at the end, archives and seals keep their contents, aborts issued, dooms and a begun Terminate are never taken back |
| FreezeTheorems.NoAbortAfterCommit | control-plane/internal/service/manager.go:553-574 | once a record is committing(g), no abort of g is issued in any continuation and the source pod stays closed under g |
| FreezeTheorems.ClaimedNeverCommits | control-plane/internal/service/manager.go:626-667 | a prepare that a recoverer claimed is committed in no continuation |
| FreezeTheorems.CommitExits | control-plane/internal/service/manager.go:626-757 | the only ways out of committing(g): the same commit under another owner, the snapshot of g's checkpoint, or termination |
| FreezeTheorems.DeletedStays | control-plane/internal/service/manager.go:977-1040 | no operation in flight recreates a deleted record |
| FreezeTheorems.RecoveryDecides | control-plane/internal/service/manager.go:614-687 | every uninterrupted recovery with answered calls goes on until it is done, after four calls or three, and has then rolled the prepare back to its pod, or completed the commit |
| ClaudeWorkload.RunInv | data-plane/cmd/agent/claude.go:390-410 | over any run: `queuedBytes` is the sum of the queued prompts, both queue bounds hold, sequence numbers are consecutive, admission, checkpoint and handler flags agree |
| ClaudeWorkload.NewInv | data-plane/cmd/agent/claude.go:253-356 | a new workload, in either mode, satisfies it |
| ClaudeWorkload.FifoExactlyOnce | data-plane/cmd/agent/claude.go:390-410 | what was queued and accepted is, in order, what was taken followed by what is queued |
| ClaudeWorkload.ResumesAfterFirstSuccess | data-plane/cmd/agent/claude.go:521-548 | over any run, restores included: the resume flag is the one last restored, or a success since, and is never cleared otherwise |
| ClaudeWorkload.BeginRefines | data-plane/cmd/agent/claude.go:731-757 | a checkpoint begins exactly when the barrier is open and the agent is not stopping |
| ClaudeWorkload.AbortRefines | data-plane/cmd/agent/claude.go:844-868 | an abort reopens exactly the complete archive of that generation |
| ClaudeWorkload.StepRefines | data-plane/cmd/agent/claude.go:731-908 | every step is a step of AgentFence, which the transaction is proved against |
| ClaudeWorkload.ArchivesWhenIdle | data-plane/cmd/agent/claude.go:758-775 | an archive is begun only with queue and worker empty |
| ClaudeWorkload.StaysFrozen | data-plane/cmd/agent/claude.go:731-868 | from a complete archive until that generation's abort nothing is accepted and no turn or refresh starts, in any continuation |
| ClaudeSession.OneSession | data-plane/cmd/agent/claude.go:870-908 | over any number of freezes and thaws: every accepted prompt is dequeued once, in the order of acceptance over all pods; a serving pod resumes exactly if some turn of some pod has succeeded; until the record is full it is what was written to it, and the turn count, restored or not, is the number of turns recorded, each under its own number |
| ClaudeSession.StepKeeps | data-plane/cmd/agent/claude.go:731-787 | one step of that: what the drained agent persists and copies, and what restore takes from it |
| ClaudeSession.CursorsReadOn | data-plane/cmd/agent/claude.go:776-787 | a cursor issued below the copied record reads the same bytes in every later pod that serves |
| ClaudeSession.HistoryGrows | data-plane/cmd/agent/claude.go:870-908 | acceptance, dequeues and the first success are never taken back |
| ClaudeSession.Freezes | data-plane/cmd/agent/claude.go:731-787 | an idle session can be frozen, and its archive has its flag and its record |
| ClaudeSession.Thaws | data-plane/cmd/agent/claude.go:870-908 | a frozen session can be thawed: the new pod serves with the same record, flag and turn count |
| ClaudeSession.ArchiveCarries | data-plane/cmd/agent/claude.go:972-1047 | the flag persisted in the state directory and the record come back out of the archive that was written |
| ClaudeWorkload.ClaudeAgent.EnqueuePrompt | data-plane/cmd/agent/claude.go:390-410 | refusals in the source's order; an accepted prompt is the last of the queue with the next number |
| ClaudeWorkload.ClaudeAgent.TakeNext | data-plane/cmd/agent/claude.go:477-497 | the worker's dequeue: counters, turn number, resume flag and input kind |
| ClaudeWorkload.ClaudeAgent.OpenTurn | data-plane/cmd/agent/claude.go:568-591 | what a turn runs: its own prompt past the gate, the held one when its code was accepted, otherwise nothing |
| ClaudeWorkload.ClaudeAgent.FinishTurn | data-plane/cmd/agent/claude.go:499-552 | the turn's end and the new resume flag |
| ClaudeWorkload.ClaudeAgent.BeginCheckpoint | data-plane/cmd/agent/claude.go:738-757 | closes admission under the requested generation |
| ClaudeWorkload.ClaudeAgent.ReopenLocked | data-plane/cmd/agent/claude.go:821-829 | clears the attempt and reopens unless stopping |
| ClaudeWorkload.ClaudeAgent.AbortCheckpoint | data-plane/cmd/agent/claude.go:811-819 | the local abort |
| ClaudeWorkload.ClaudeAgent.CompleteCheckpointStream | data-plane/cmd/agent/claude.go:833-840 | the archive is complete, admission stays closed |
| ClaudeWorkload.ClaudeAgent.AbortCompletedCheckpoint | data-plane/cmd/agent/claude.go:844-868 | the control plane's abort with its five answers |
| ClaudeWorkload.ClaudeAgent.RefreshPlugins | data-plane/cmd/agent/claude.go:664-690 | the refresh's admission, refusals in order |
| ClaudeWorkload.ClaudeAgent.ClassifyInput | data-plane/cmd/agent/claude_subscription.go:330-350 | code, stale code, earlier prompt or prompt, and what is forgotten |
| ClaudeWorkload.ClaudeAgent.HoldForSignIn | data-plane/cmd/agent/claude_subscription.go:276-307 | a sign-in starts, holds the prompt and forgets a dropped one |
| ClaudeWorkload.ClaudeAgent.DropPendingLogin | data-plane/cmd/agent/claude_subscription.go:354-372 | only the named sign-in is dropped, and remembered unless stopping |
| ClaudeSignIn.EachEndsOnce | data-plane/cmd/agent/claude_subscription.go:276-372 | sign-ins end one by one in the order they start; at most the last is pending |
| ClaudeSignIn.NoneEndsTwice | data-plane/cmd/agent/claude_subscription.go:276-372 | no sign-in is consumed twice or both consumed and pending |
| ClaudeSignIn.StartedIds | data-plane/cmd/agent/claude_subscription.go:276-307 | each sign-in is started once |
| ClaudeSignIn.HeldRunsWithItsCode | data-plane/cmd/agent/claude.go:568-591 | over any run: a turn that runs a prompt other than its own took the code of the sign-in that held this prompt, pending ever since; the code was written after the sign-in was shown, and was accepted |
| ClaudeSignIn.RunsAtMostOnce | data-plane/cmd/agent/claude.go:477-591 | over any run every accepted prompt, held or not, runs at most once |
| ClaudeSignIn.OnlyPromptsRun | data-plane/cmd/agent/claude_subscription.go:330-350 | a write taken as a code, a stale code or a prompt from before the sign-in runs in no continuation |
| ClaudeSignIn.DroppedNeverRuns | data-plane/cmd/agent/claude_subscription.go:309-372 | a held prompt whose sign-in expired, was archived or closed, or had its code refused, runs in no continuation |
| ClaudeSignIn.CodeStaysHidden | data-plane/cmd/agent/claude_subscription.go:330-350 | the first write after a shown URL is neither recorded nor run within the window, as long as no sign-in expires over a queued earlier write |
| ClaudeSignIn.ExpiryDecides | data-plane/cmd/agent/claude_subscription.go:354-372 | the exact condition: after an expiry that write can be exposed in some continuation if and only if an earlier write was still queued |
| ClaudeSignIn.EarlyExpiryReachable | data-plane/cmd/agent/claude_subscription.go:276-307 | a run that leads to such an expiry |
| ShellCheckpoint.NextInv | data-plane/cmd/agent/checkpoint.go:59-227 | the shell agent's attempt, handler and write lock agree after every step |
| ShellCheckpoint.StepRefines | data-plane/cmd/agent/checkpoint.go:59-227 | every step of the shell agent is a step of AgentFence |
| ShellCheckpoint.ClosedIsStill | data-plane/cmd/agent/checkpoint.go:59-72 | while an attempt is under way no write is in flight and the tree is stopped |
| ShellCheckpoint.StaysStill | data-plane/cmd/agent/checkpoint.go:59-110 | from a complete archive until that generation's abort it stays so in any continuation |
| ShellCheckpoint.LocalAbortIsOwn | data-plane/cmd/agent/checkpoint.go:84-88 | the handler's failure resumes its own attempt only |
| ShellCheckpoint.AbortTwice | data-plane/cmd/agent/checkpoint.go:93-110 | repeating an abort changes nothing |
| ShellCheckpoint.ShellAgent.BeginCheckpoint | data-plane/cmd/agent/checkpoint.go:59-72 | begin, with its two refusals |
| ShellCheckpoint.ShellAgent.AbortCheckpoint | data-plane/cmd/agent/checkpoint.go:84-88 | local abort |
| ShellCheckpoint.ShellAgent.CompleteCheckpoint | data-plane/cmd/agent/checkpoint.go:75-81 | completion |
| ShellCheckpoint.ShellAgent.AbortCompletedCheckpoint | data-plane/cmd/agent/checkpoint.go:93-110 | remote abort, with its four refusals |
| Utf8.DecodesMeans | data-plane/cmd/agent/claude_stream.go:168-189 | Go's byte tables accept exactly the encodings of Unicode scalar values (section 3 of RFC 3629) |
| Utf8.NormalizeIsValid | data-plane/cmd/agent/claude_stream.go:168-189 | the normalizer's output is well-formed |
| Utf8.NormalizeFixes | data-plane/cmd/agent/claude_stream.go:168-189 | it leaves a text alone if and only if the text is well-formed |
| Utf8.StreamIsNormalize | data-plane/cmd/agent/claude_stream.go:148-189 | for every chunking the output is the whole input's decoding with U+FFFD per bad byte |
| Utf8.DrainHolds | data-plane/cmd/agent/claude_stream.go:168-189 | fewer than four bytes wait, and only an incomplete character |
| Utf8.PiecesAreValid | data-plane/cmd/agent/claude_stream.go:148-166 | every downstream write is well-formed on its own |
| Utf8.BoundaryMeans | data-plane/cmd/agent/claude_stream.go:365-376 | cutting well-formed text keeps both halves well-formed exactly at a rune start |
| Utf8.NormalizingWriter.Write | data-plane/cmd/agent/claude_stream.go:148-157 | what is written and what is kept, against the whole-input drain |
| Utf8.NormalizingWriter.Close | data-plane/cmd/agent/claude_stream.go:159-166 | the tail is decoded and nothing is kept |
| Utf8.NormalizingWriter.DrainPending | data-plane/cmd/agent/claude_stream.go:168-189 | the loop computes the drain |
| Redactor.FirstMatchMeans | data-plane/cmd/agent/claude_stream.go:222-228 | the scan finds the leftmost occurrence of any literal, the longest on a tie, both ways |
| Redactor.KeepMeans | data-plane/cmd/agent/claude_stream.go:241-250 | the kept suffix is the longest end of the buffer that begins, but is not, a literal |
| Redactor.StreamIsRedact | data-plane/cmd/agent/claude_stream.go:210-260 | for every chunking the output is the whole input's leftmost replacement, if no literal can complete inside another's proper prefix |
| Redactor.ChunkingNeverShows | data-plane/cmd/agent/claude_stream.go:210-260 | and that condition is exact |
| Redactor.SubstringFreeIsEnough | data-plane/cmd/agent/claude_stream.go:210-260 | literals none of which is inside another meet it |
| Redactor.OneLiteralStream | data-plane/cmd/agent/claude_stream.go:192-194 | with one literal the stream is bytes.ReplaceAll of the input |
| Redactor.StreamCovers | data-plane/cmd/agent/claude_stream.go:219-260 | for any literals and chunking every occurrence overlaps a replaced stretch |
| Redactor.StreamSource | data-plane/cmd/agent/claude_stream.go:219-260 | the stretches released and replaced spell the input in order |
| Redactor.StreamingRedactor.Push | data-plane/cmd/agent/claude_stream.go:210-213 | output and kept suffix of one push |
| Redactor.StreamingRedactor.Finish | data-plane/cmd/agent/claude_stream.go:215-217 | the rest is redacted whole |
| Redactor.StreamingRedactor.DrainPending | data-plane/cmd/agent/claude_stream.go:219-260 | the loop terminates and computes the drain |
| Redactor.StreamingRedactor.FindMatch | data-plane/cmd/agent/claude_stream.go:222-228 | the match loop finds the first match |
| Redactor.StreamingRedactor.FindKeep | data-plane/cmd/agent/claude_stream.go:241-250 | the nested keep loops find the longest held suffix |
| Scrollback.ValidUTF8PrefixAtMost | data-plane/cmd/agent/claude_stream.go:365-376 | the loop computes the clip |
| Scrollback.ClipMeans | data-plane/cmd/agent/claude_stream.go:365-376 | the clip is the longest code-point prefix within the limit, at most three bytes short of it |
| Scrollback.AppendGrows | data-plane/cmd/agent/main.go:356-380 | the record grows only at its end and never past its limit |
| Scrollback.FillsIsFinal | data-plane/cmd/agent/main.go:356-397 | after the terminal marker the record is full exactly when the marker is longer than the room left, so always for well-formed text and a marker over three bytes |
| Scrollback.AppendIsValid | data-plane/cmd/agent/main.go:356-380 | well-formed records stay well-formed |
| Scrollback.AppendTwice | data-plane/cmd/agent/main.go:356-380 | two bounded appends are one append of both texts |
| Scrollback.AppendAllIsOne | data-plane/cmd/agent/main.go:356-380 | however a text is split, the record ends up with all of it, or its longest prefix that fits and the marker |
| Scrollback.CursorsSurvive | data-plane/cmd/agent/main.go:431-436 | bytes below any cursor into a restored copy never change |
| Scrollback.Buffer.Append | data-plane/cmd/agent/main.go:343-351 | append and wake |
| Scrollback.Buffer.AppendBoundedAt | data-plane/cmd/agent/main.go:356-380 | bounded append; reports exactly the transition to full |
| Scrollback.Buffer.Since | data-plane/cmd/agent/main.go:407-417 | the bytes after a cursor and the next cursor |
| Scrollback.Buffer.Restore | data-plane/cmd/agent/main.go:431-436 | the whole record is replaced and streams are woken |
| Scrollback.Buffer.NotifyLocked | data-plane/cmd/agent/main.go:441-447 | a watched channel is closed and replaced |
| Scrollback.NoLostWakeup | data-plane/cmd/agent/output_stream.go:32-38 | whatever happens after a stream looked, its channel was closed or the record is what it saw |
| Scrollback.Buffer.StreamChunk | data-plane/cmd/agent/output_stream.go:32-60 | the chunk for a cursor and the channel of the next append |
| Scrollback.ChunkMeans | data-plane/cmd/agent/output_stream.go:32-60 | a chunk is the record's bytes, bounded, never empty while bytes remain, and keeps cursors on code points |
| Scrollback.Serve | data-plane/cmd/agent/output_stream.go:65-138 | over any growth of the record a client gets its bytes without gap or repeat, every cursor a boundary; only a cursor past the end is reset, once |
| OutputSink.DrainAligned | data-plane/cmd/agent/claude_stream.go:219-260 | with well-formed literals the redactor releases and keeps whole characters |
| OutputSink.RunIsWhole | data-plane/cmd/agent/claude_stream.go:294-363 | one run, however written, appends exactly its redacted, capped text to the record |
| OutputSink.PipelineIsWhole | data-plane/cmd/agent/claude_stream.go:139-363 | normalizer, sentinel removal, redactor, invocation cap and record compose: the result depends on the bytes only |
| OutputSink.RunFrom | data-plane/cmd/agent/claude_stream.go:294-363 | the same for any literals, with the redactor's stream for the text |
| OutputSink.RunTextFits | data-plane/cmd/agent/claude_stream.go:307-334 | a run adds its text if it fits, else at most its limit and at least all but three bytes of it |
| OutputSink.VisibleIsText | data-plane/cmd/agent/claude_stream.go:294-334 | every length a reader can ever see is a code-point boundary |
| OutputSink.DeployedLimits | data-plane/cmd/agent/claude.go:50-61 | the deployed limits and markers are ones the theorems cover |
| OutputSink.StripIsValid | data-plane/cmd/agent/claude.go:457-462 | removing the sentinel keeps text well-formed |
| AgentOutput.NoticesInterleave | data-plane/cmd/agent/claude.go:421-425 | however platform notices fall between the writes of a run, the record is the bounded append of the run's own capped text, in pieces, and of the notices, whole and in order |
| AgentOutput.ClaudeRun | data-plane/cmd/agent/claude.go:499-520 | from any chunks of Claude Code's standard output to the record: the capped, redacted, well-formed projection of the whole output |
| AgentOutput.CodexRun | data-plane/cmd/agent/codex_stream.go:43-95 | the same behind the Codex projector |
| AgentOutput.MiniMaxRun | data-plane/cmd/agent/minimax_code.go:374-519 | the same behind the MiniMax projector |
| OutputSink.ClaudeOutputSink.Write | data-plane/cmd/agent/claude_stream.go:294-303 | one write, against the sink on values |
| OutputSink.ClaudeOutputSink.Close | data-plane/cmd/agent/claude_stream.go:336-351 | the tail, or the note, exactly once |
| OutputSink.ClaudeOutputSink.AppendBoundedLocked | data-plane/cmd/agent/claude_stream.go:307-334 | counts, emits at a boundary, truncates once |
| OutputSink.ClaudeOutputSink.EmitPending | data-plane/cmd/agent/claude_stream.go:320-328 | what fits beside the note leaves |
| OutputSink.ClaudeOutputSink.AppendSession | data-plane/cmd/agent/claude_stream.go:353-363 | appends until full and calls back exactly at the transition |
| ProxyBody.StreamingBody.Read | data-plane/cmd/agent/credential_proxy_stream.go:48-107 | bounded by the buffer, never empty without an error, and keeps the body invariant |
| ProxyBody.StreamingBody.Turn | data-plane/cmd/agent/credential_proxy_stream.go:56-98 | one source read: allowance, overflow, EOF, failure and empty reads |
| ProxyBody.StreamingBody.EndBody | data-plane/cmd/agent/credential_proxy_stream.go:84-90 | at EOF the held suffix is redacted and the callback runs once |
| ProxyBody.StreamingBody.Admit | data-plane/cmd/agent/credential_proxy_stream.go:64-73 | admitted bytes go through the redactor |
| ProxyBody.StreamingBody.Close | data-plane/cmd/agent/credential_proxy_stream.go:109-118 | everything held is dropped |
| ProxyBody.BodyGot | data-plane/cmd/agent/credential_proxy_stream.go:48-107 | complete within the limit: exactly the redaction; cut short: only bytes that begin the redaction of every continuation |
| ProxyBody.Consume | data-plane/cmd/agent/credential_proxy_stream.go:48-107 | the same for any reader, any buffers and any source |
| ProxyBody.SettledGrows | data-plane/cmd/agent/credential_proxy_stream.go:64-73 | released bytes are settled whatever follows |
| LineFraming.StreamIsWhole | data-plane/cmd/agent/claude_stream.go:28-54 | for every chunking a line projector's output is the whole input's, line by line |
| LineFraming.WholeIsProject | data-plane/cmd/agent/claude_stream.go:28-54 | and that is each line projected in order, then the close |
| ClaudeProjector.ChunksNeverShow | data-plane/cmd/agent/claude_stream.go:28-54 | so for the Claude projector |
| ClaudeProjector.FallbackOnly | data-plane/cmd/agent/claude_stream.go:99-110 | a result record is shown only if no answer text came before it |
| ClaudeProjector.ClaudeStreamProjector.Write | data-plane/cmd/agent/claude_stream.go:28-43 | the line loop |
| ClaudeProjector.ClaudeStreamProjector.Close | data-plane/cmd/agent/claude_stream.go:45-54 | the unterminated line and the last break |
| ClaudeProjector.ClaudeStreamProjector.ProjectLineInto | data-plane/cmd/agent/claude_stream.go:73-112 | one line |
| CodexProjector.ChunksNeverShow | data-plane/cmd/agent/codex_stream.go:43-95 | for every chunking the output is the whole input's, line by line |
| CodexProjector.OneNoticePerLongLine | data-plane/cmd/agent/codex_stream.go:43-85 | there are as many drop notices as lines over 8 MiB |
| CodexProjector.WholeLines | data-plane/cmd/agent/codex_stream.go:178-184 | everything shown is whole lines |
| CodexProjector.CodexStreamProjector.Write | data-plane/cmd/agent/codex_stream.go:43-85 | the loop over a chunk |
| CodexProjector.CodexStreamProjector.Close | data-plane/cmd/agent/codex_stream.go:87-95 | the last line |
| MiniMaxProjector.ChunksNeverShow | data-plane/cmd/agent/minimax_code.go:374-400 | for every chunking the output is the whole input's, line by line |
| MiniMaxProjector.MessagesApart | data-plane/cmd/agent/minimax_code.go:488-519 | no message is written onto another's open line, and none is left open |
| MiniMaxProjector.ApartMeans | data-plane/cmd/agent/minimax_code.go:488-499 | that is: a break or a final newline between texts of two messages |
| MiniMaxProjector.ShownOnce | data-plane/cmd/agent/minimax_code.go:460-486 | up to its completion a message is written once: its streamed pieces, or its content if nothing was streamed |
| MiniMaxProjector.MiniMaxStreamProjector.Write | data-plane/cmd/agent/minimax_code.go:374-389 | the line loop |
| MiniMaxProjector.MiniMaxStreamProjector.Close | data-plane/cmd/agent/minimax_code.go:391-400 | the unterminated line and the last break |
| MiniMaxProjector.MiniMaxStreamProjector.ProjectLineInto | data-plane/cmd/agent/minimax_code.go:438-486 | one line |
| MiniMaxProjector.MiniMaxStreamProjector.CompleteInto | data-plane/cmd/agent/minimax_code.go:470-484 | an item's completion |
| MiniMaxProjector.MiniMaxStreamProjector.OpenMessageInto | data-plane/cmd/agent/minimax_code.go:490-499 | another message first ends the open one |
| Paths.CleanArchiveNameMeans | data-plane/cmd/agent/state_archive.go:439-448 | an accepted name is a non-empty path of ordinary names |
| Paths.JoinedName | data-plane/cmd/agent/state_archive.go:439-448 | a joined path comes back, unless it holds a backslash: then it is refused |
| Paths.CleanNames | data-plane/cmd/agent/state_archive.go:514-531 | a cleaned name is its own destination below the root |
| Paths.SafeSymlinkMeans | data-plane/cmd/agent/state_archive.go:568-593 | the symlink check means: relative, no backslash, ".." only in front and fewer than the directories above |
| Paths.ValidateSymlink | data-plane/cmd/agent/state_archive.go:568-593 | the component loop decides it |
| StateTree.Contained | data-plane/cmd/agent/state_archive.go:562-593 | resolution through any chain of symlinks, for any number of steps, stays inside the root |
| StateTree.PathsStayInside | data-plane/cmd/agent/state_archive.go:562-593 | so a path without ".." from any real directory never leaves the tree |
| StateTree.ChainedEscape | data-plane/cmd/agent/state_archive.go:573-577 | why ".." after a name is refused: two links each lexically inside that together leave the root |
| StateExtract.AcceptedIsSane | data-plane/cmd/agent/state_archive.go:186-260 | whatever an accepted archive holds, the trees are well-formed and their links safe |
| StateExtract.EnsureParentsSane | data-plane/cmd/agent/state_archive.go:536-562 | parents are made one real directory at a time |
| StateExtract.BadEntryRefuses | data-plane/cmd/agent/state_archive.go:220-225 | one refused name refuses the archive |
| StateArchive.ArchiveExtracts | data-plane/cmd/agent/state_archive.go:38-260 | every archived node, mode entry and the record are extracted again |
| StateArchive.ExtractsExactly | data-plane/cmd/agent/state_archive.go:439-448 | an archive that was written is extracted if and only if no name in it holds a backslash |
| StateArchive.BackslashArchives | data-plane/cmd/agent/state_archive.go:439-448 | such archives are written: any directory with one file whose name holds a backslash |
| StateArchive.NotesNeverComeBack | data-plane/cmd/agent/state_archive.go:439-448 | for instance an empty file called notes\\today |
| StateRestore.RoundTrip | data-plane/cmd/agent/state_archive.go:285-299 | with the modes applied deepest first, in any such order, the tree is the original less the excluded files, read-only directories included |
| StateRestore.ModesSucceed | data-plane/cmd/agent/state_archive.go:285-299 | deepest first, no chmod closes the way to a later one |
| StateRestore.ArchiveRestores | data-plane/cmd/agent/state_archive.go:186-314 | restoring what was archived gives back the state tree, the shared tree over the volume, and the record |
| StateRestore.BackslashNeverRestores | data-plane/cmd/agent/state_archive.go:439-448 | with a backslash the restore fails and changes nothing |
| StateRestore.RestoredStaysInside | data-plane/cmd/agent/state_archive.go:536-593 | a restored tree's paths never leave it |
| StateRestore.CopyIsOverlay | data-plane/cmd/agent/state_archive.go:319-409 | a copy that succeeds leaves exactly the staged tree over the target |
| StateRestore.CopyExactly | data-plane/cmd/agent/state_archive.go:319-423 | into a volume the agent may change, the copy succeeds if and only if no directory of one tree stands where the other has a file or link, and is then the overlay |
| StateRestore.WalkExists | data-plane/cmd/agent/state_archive.go:96-98 | every tree has a parents-first walk |
| StateRestore.OverlaySafe | data-plane/cmd/agent/state_archive.go:319-409 | and keeps its links safe |
| StateRestore.NeverHalfRestored | data-plane/cmd/agent/state_archive.go:186-314 | short of a double fault the live tree is the old one or the whole validated new one |
| StateRestore.InstallKeepsATree | data-plane/cmd/agent/state_archive.go:637-673 | and exactly then; an error can come with the new tree only from the clean-up |
| StateFiles.EnsureSafeParents | data-plane/cmd/agent/state_archive.go:536-562 | the component loop |
| StateFiles.ArchiveLoop | data-plane/cmd/agent/state_archive.go:99-173 | the walk with its counter, checks and exclusions |
| StateFiles.Extraction.ExtractEntry | data-plane/cmd/agent/state_archive.go:450-512 | one entry |
| StateFiles.Extraction.TakeEntry | data-plane/cmd/agent/state_archive.go:211-258 | one turn of the entry loop |
| StateFiles.Extraction.Run | data-plane/cmd/agent/state_archive.go:206-260 | the entry loop |
| StateFiles.CopyLoop | data-plane/cmd/agent/state_archive.go:321-391 | the copy walk |
| StateFiles.StateDir.InstallStaged | data-plane/cmd/agent/state_archive.go:637-673 | the swap with its faults; a lost rollback leaves the old tree in the backup |
| AuthSlot.LostExactly | data-plane/cmd/agent/auth_slot.go:113-197 | and exactly then the next good pull no longer finds it; the condition reads only the two files, the two flags and what the CLI leaves |
| AuthSlot.RunKeeps | data-plane/cmd/agent/claude.go:568-612 | over any sequence of turns of any shape: run, stopped by the gate, a code refused, or a code accepted, whose push has no pull before it |
| AuthSlot.PullKeeps | data-plane/cmd/agent/auth_slot.go:113-143 | an older slot copy never replaces an unsaved newer login |
| AuthSlot.StepKeeps | data-plane/cmd/agent/auth_slot.go:113-197 | whatever I/O fails, each part of a turn keeps the newest login in HOME or the slot, unless the CLI destroys, or leaves behind where no push follows, the one copy that was not saved |
| AuthSlot.LossReachable | data-plane/cmd/agent/auth_slot.go:113-197 | two turns from an empty slot that lose a login that way |
| AuthSlot.EmptiedOnlyByLogout | data-plane/cmd/agent/auth_slot.go:149-190 | over any run the slot is emptied only where HOME had a login when it was last pulled and the CLI leaves none |
| AuthSlot.LogoutNeedsRemoval | data-plane/cmd/agent/auth_slot.go:149-190 | a logout lasts if and only if the slot file was really removed; a failed removal is not retried, unlike a failed copy |
| AuthSlot.AuthSlotSync.PullLogin | data-plane/cmd/agent/auth_slot.go:113-143 | pull |
| AuthSlot.AuthSlotSync.PushLogin | data-plane/cmd/agent/auth_slot.go:149-157 | push |
| AuthSlot.AuthSlotSync.CopyBackLocked | data-plane/cmd/agent/auth_slot.go:172-195 | copy back |
| Notices.PublishKeeps | data-plane/cmd/agent/session_mcp_notices.go:84-100 | the ring holds the last 1024 of everything published |
| Notices.SinceMeans | data-plane/cmd/agent/session_mcp_notices.go:106-127 | an answer is every kept entry after the cursor and the count of those evicted |
| Notices.DeliveredOrReported | data-plane/cmd/agent/session_mcp_notice_tail.go:70-101 | over any publishes and polls, failed ones too: delivered plus reported lost is the cursor, none twice; the wait set is a subset of the undecided requests, and equal if nothing was lost |
| Notices.RunInv | data-plane/cmd/agent/session_mcp_notice_tail.go:70-101 | the same from any good state |
| Notices.FoldMeans | data-plane/cmd/agent/approval_wait.go:34-56 | folding a stretch keeps a set exact, or below exact |
| Notices.NoticeFeed.PublishNotice | data-plane/cmd/agent/session_mcp_notices.go:84-100 | publish |
| Notices.NoticeFeed.SinceCursor | data-plane/cmd/agent/session_mcp_notices.go:106-127 | the scan |
| Notices.ApprovalWaits.ObserveAnswer | data-plane/cmd/agent/approval_wait.go:34-56 | the fold loop |
| Notices.TailOnce | data-plane/cmd/agent/session_mcp_notice_tail.go:70-101 | one answered poll |
| Skills.SyncMeans | data-plane/cmd/agent/codex_skills.go:236-300 | after a sync the managed skills are the seed less the user's names, with the seed's files, the user's untouched, and the change list says exactly what differs |
| Skills.SyncTwice | data-plane/cmd/agent/codex_skills.go:236-300 | a second sync changes nothing |
| Skills.Matches | data-plane/cmd/agent/codex_skills.go:305-342 | the walk decides equality of files |
| Skills.SkillsDirectory.RemoveStale | data-plane/cmd/agent/codex_skills.go:245-269 | the removal loop |
| Skills.SkillsDirectory.InstallSeed | data-plane/cmd/agent/codex_skills.go:270-298 | the install loop |
| Skills.SkillsDirectory.Sync | data-plane/cmd/agent/codex_skills.go:236-300 | the whole sync |
| Skills.NoteIsTrue | data-plane/cmd/agent/codex_plugin_refresh.go:150-203 | over any syncs since the note was cleared: added or removed exactly when presence differs, an unmentioned skill identical |
| Skills.SyncTells | data-plane/cmd/agent/codex_plugin_refresh.go:150-203 | one sync keeps that |
| Skills.RecordChanges | data-plane/cmd/agent/codex_plugin_refresh.go:150-188 | the record loops, in any order of the kinds |
| Skills.FoldNames | data-plane/cmd/agent/codex_plugin_refresh.go:163-170 | one kind's loop |
| TurnMarkers.ParseEncode | web/src/app/agentTranscript.ts:4-27 | reading back a marked record gives exactly its sections: no content passes for a marker |
| TurnMarkers.RecordParses | data-plane/cmd/agent/claude.go:421-447 | the recorded bytes of any turns and notices parse to their sections |
| TurnMarkers.TurnIsRecorded | data-plane/cmd/agent/claude.go:428-447 | one turn leaves its sanitized prompt, its output with the last line completed, and its status |
| TurnMarkers.PromptIsRedacted | data-plane/cmd/agent/claude.go:428-433 | the prompt is recorded with every literal replaced, as of its whole text |
| TurnMarkers.PromptIsCovered | data-plane/cmd/agent/claude.go:428-433 | and for any literals every occurrence overlaps a replaced stretch |
| TurnMarkers.BeginTurnBlock | data-plane/cmd/agent/claude.go:428-433 | the block, with one push and one finish of a redactor |
| Utf8.ToValidMeans | data-plane/cmd/agent/claude.go:429 | strings.ToValidUTF8 gives well-formed text and leaves exactly well-formed text alone |
| TurnMarkers.RunTextIsClean | data-plane/cmd/agent/claude.go:457-462 | a run's text holds no sentinel, whatever the process wrote |
| TurnMarkers.FitsIsRecord | data-plane/cmd/agent/claude.go:440-447 | below the limit the bounded append is this append |
| TurnMarkers.KindIsRead | web/src/app/agentTranscript.ts:13-15 | the reader recovers the marker's kind |
| TurnMarkers.StatusIsRead | web/src/app/agentTranscript.ts:20-23 | and the turn's status, up to the first white space |
| TurnMarkers.TurnsAreCounted | data-plane/cmd/agent/claude.go:898-901 | counting input markers gives the number of turns recorded |
| TurnMarkers.NumbersNotReused | data-plane/cmd/agent/claude.go:898-901 | so the next turn's number is new |
| TurnMarkers.RenderAgentTranscript | web/src/app/agentTranscript.ts:4-27 | the reader's loop shows the parsed sections in order |

## Left out

- FreezeTheorems.SessionSurvives: for runs without a stranding read-back, because with one it is false; the exact condition is FreezeTheorems.SurvivesExactlyWhenGuarded.
- ClaudeSignIn.CodeStaysHidden: for runs whose expiries leave no earlier write queued, because otherwise it is false; the exact condition is ClaudeSignIn.ExpiryDecides.
- StateRestore.ArchiveRestores: file times are not modelled; when the shared volume can be filled is StateRestore.CopyExactly.
- StateArchive.ArchiveExtracts: the 4 GiB limit on the tar stream and I/O errors while reading the live tree are not modelled.
- Skills.NoteIsTrue: about syncs that succeed, between which nobody else edits a managed skill's directory; a sync that fails half-way returns before its changes are recorded, and what a user changed by hand is told as the next sync's own doing.
- AuthSlot.StepKeeps: unless the CLI destroys or leaves behind an unsaved login, because then it is false; the exact condition is AuthSlot.LostExactly.
- ClaudeSession.OneSession: the turn count is that of the record until the session's limit is reached.
- AgentOutput.ClaudeRun: for runs that write nothing to standard error; with both streams the writes' order decides, as OutputSink.RunFrom has it.
- TurnMarkers.RecordParses: until the session's limit is reached; after that the record ends in its terminal marker.
- Real time: Lease loss, expiry and the end of a drain are steps that may come at any moment, and clocks are parameters.
- Orphan pods after a crash between creating a restore target and installing it; the platform documents them as open.
- The auth pool, auxiliary pods, the idle policy and tenancy in the control plane.
- Liveness: that admission reopens after an abort reply is lost, that a stopped pod really goes away, or that a blocked drain ends.
- `lastAbortedCheckpointID`, which is written and never read.
- Cursor continuity for bytes appended after the record was copied for an archive.
- Destination errors of the projectors and the normalizer: in this platform their destination never fails.
- JSON decoding and `oneLine` are parameters of the projectors; the validity of a login and of a restored tree are parameters too.
- The order in which the lists of skill changes are sorted, and the checks on a skill's file names when it is installed.
- HTTP handlers, server-sent event text, tar bytes, Kubernetes and object-store calls, process signalling, and the React screens: plumbing around the machines modelled here.
