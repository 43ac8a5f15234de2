# PeerHub delivery protocol: model and proofs

PeerHub delivers the Records of a Stream to agent peers that run outside it, and has to survive crashes at any point without
replaying a prompt blindly, skipping one, or answering twice. This project models the durable protocol behind that promise and
proves what it keeps over whole runs.

## What is modelled

- `Claims`: the lease and fencing kernel. One row per (stream, peer) scope; a takeover raises the generation and fences older tokens.
- `CoreStore`: the append-only log: streams, idempotent append, compare-and-set Offsets.
- `CatchUp`: the bounded catch-up projection. `Projected` is the declarative specification (longest fitting suffix, pins first);
  `ProjectCatchUp` and `BuildCatchUp` are the streaming and paging algorithms.
- The Session Bridge of one scope:
  - `BridgeLedger`: its tables, and one function per write transaction; `Grows` says what no transaction takes back.
  - `BridgeInvariant`: the ledger laws (`LedgerOk`) and that each transaction keeps them under the facts its caller knows.
  - `BridgeContext`: what a turn injects into a session (bootstrap, native delta, local redirects).
  - `BridgeMachine`: any number of owners running delivery cycles, any number of terminal callbacks beside them (also under the same
    token), control handlers, clients that append any Record under any name and key, and crashes; one step per transaction, decision or
    runtime event. `runtime.deliver` is called outside any transaction, so a claim can be lost between the last fence and the call.
  - `BridgeSafety`, `BridgeSessions`, `BridgeCalls`, `BridgeRuns`: the invariant. A cycle whose token still matches the claim row knows
    what its program counter promises (`View`); every step of every owner, callback and client keeps the whole (`RunInv`).
  - `BridgeTheorems`, `BridgeResponses`, `BridgeDropped`, `BridgeControl`, `BridgeContinuity`, `BridgeTurns`, `BridgeTaint`: the results.
  - `BridgeExamples`: runs from a new scope, step by step, that fall short of a promise.
  - `BridgeCore`: the Bridge's log and Offset writes, and the clients' appends, are transactions of `CoreStore`.
  - `BridgeStore`: the Bridge as an object over its tables, each transaction statement by statement and proved equal to its ledger
    function; `BridgeDelivery`: the runtime event loop, proved to be a run of the machine's own steps.
- `Reconstruct`: the check that lets a legacy session keep its native continuity.
- `Registry`: session generations, retention and the MRU pointer.
- `A2AJournal`, `A2AAdapter`: durable task evidence as an event-sourced fold, and the adapter whose memory is a cache of it.
- `Restore`: the two-rename workspace swap with its intent marker, and the in-place database restore.
- `ExactMatch`: the nested greedy evaluator, a maximum matching.

## Hypotheses

- The clock never goes back. Workspace generations, staging and fallback directory names and session handles are fresh. Owner ids are
  unique, and one owner runs one cycle at a time; callbacks need no owner of their own.
- Digests are injective, so a payload stands for its digest. Token estimates are natural numbers.
- `PrespawnError` before a `started` event means nothing ran. Everything else the runtime may do is arbitrary.
- One transaction is one atomic step; consecutive reads of a cycle that nobody else can invalidate while the claim is held are one step.
- `claim_submission` reads the task state and the attempt count from one log snapshot; with two snapshots "a new attempt only after
  not_started" does not hold. Two appends under one A2A key never carry the same payload (each has its own claim or creation time).
- In the A2A Stream only journals write under the author's name. For each call the store decides anew whether its loads succeed (they fail
  while the Stream is not the author's alone) and what becomes of each append: accepted, refused because the Stream is CLOSED, failed, or
  committed with the answer lost. Nobody closes the Stream or fails it inside one append.
- `record_not_started` does not look at `abandoned`, so the claims about burned ids are for one live adapter with any restarts, and for ids
  given up in its memory as well as in the log.
- A restore is offline: one at a time, no other writer.

## Where the code falls short of the stated property

The first six each have a run that starts from nothing, and an exact condition over all runs.

- No context gap. A custom runtime that keeps its own session and first reports a vendor session on a later, local turn binds that session
  with a watermark it never earned: in `BridgeExamples.GapRun` the session never sees its own first response. A callback can do the same.
  `BridgeContinuity.GapExact` says for every run and every session exactly when there is a gap; `LocalBindingExact` and
  `BridgeTurns.CallbackBindingExact` say it before the local turn, or the callback, that binds commits. `BridgeTurns.NoGapUnlessBlind`
  leaves out only the sessions a result was committed to without ending a complete bootstrap or native turn, and `NoGapWhenProvable` rules
  gaps out for runtimes that report a vendor session only from such turns, with results coming through the cycle.
- One response. Core lets any client append under any registered name and any key, and the key of a response can be computed from the
  log. A Record of the peer under that key keeps the response out for good: `BridgeExamples.SquatRun`. `BridgeResponses.MaterializeExact`
  says exactly when materialisation conflicts; `NoConflictWhenClean` that it never does while nobody else uses those keys and no
  execution id is stored late.
- Terminal truth. The execution id is stored in a transaction of its own after the start. A callback that commits in between answers without
  it, and the row changes afterwards, so that materialising it again conflicts: `BridgeExamples.LateRun`. `BridgeResponses.NamedExactly` and
  `TruthExact` say exactly when the terminal row stays as it is; answer, time and bound response always do.
- Acknowledged means answered. A cycle that settles a refusal acknowledges the delivery even if a callback has committed a result meanwhile;
  if that callback dies before it appends, the response is lost: `BridgeExamples.DropRun`. `BridgeResponses.DroppedExactly` says exactly
  when a step drops a response, and `BridgeDropped.DroppedForever` that over every run from there no cycle comes back to it: it stays
  unanswered exactly if its callback never binds.
- The A2A cache equals replay. A poll that finds a SUBMITTED task COMPLETED shows it RUNNING in memory before it records the completion; if
  the append is refused, memory stays ahead of the log until a restart, or until a later status is recorded. It is refused if the output is not
  strict JSON (`A2AAdapter.SkipExample`), if the Stream was closed in between, which any client may do (`ClosedExample`), if an earlier sample
  left an opaque state that is not strict JSON (`StateExample`), or if the store fails. `StepExact` and `LiveExact` say exactly when memory and
  replay agree.
- The A2A cache agrees with replay even up to that. If the store commits a record and its answer is lost, memory does not know what the log
  says: `A2AAdapter.LostExample`. `ApplyFaithful` and `LiveAgrees` say that this is the only way. An id that is abandoned in memory after such
  a loss need not be abandoned in the log, and a restart may bring it back: `AbandonExact` says exactly when an abandonment is worth
  something.
- `restore_snapshot` writes the OLD generation back when replacing the file fails; that is the one place where a generation in use
  returns. The pair (restored state, old generation) is still unreachable.
- `acquire` reads the workspace generation before its transaction; the model keeps that.
- `_next_record` also returns Records addressed to other peers; `begin_attempt` then rejects them and the cycle raises. The model does the
  same.

## Model

| member | source | states |
|---|---|---|
| Claims.RowsFollow | peerhub/extensions/bridge_claims.py:113-134 | Over every run without a restore, a scope's claim generation never decreases, a generation keeps one owner, and a recorded finalization never changes |
| Claims.StaleForever | peerhub/extensions/bridge_claims.py:136-183 | A token that stops passing the fence (expired, released, superseded, other lineage) never passes again, over every later run, restores included |
| Claims.FencedOrder | peerhub/extensions/bridge_claims.py:136-206 | Within a lineage, a token that passes later has no smaller generation, and the same generation means the same token; so at most one token passes in any state |
| Claims.GuardedOrder | peerhub/extensions/bridge_claims.py:198-206 | A guard authorizes Core writes to its token's own scope only, and along a run they come in generation order within a lineage |
| Claims.DeadForever | peerhub/extensions/bridge_claims.py:136-147 | The reason a dead token stays dead: its lineage is over, or its generation is behind, or its lease ran out |
| Claims.LineageFollows | peerhub/extensions/bridge_claims.py:113-134 | A run that ends in the lineage it started in only moved rows forward |
| Claims.ClaimStore.Check | peerhub/extensions/bridge_claims.py:136-147 | The fence check accepts exactly the token of the unexpired row in the current lineage |
| Claims.ClaimStore.AcquireClaim | peerhub/extensions/bridge_claims.py:113-134 | Acquire, renew and take over: the new table and token, or the error with nothing changed |
| Claims.ClaimStore.HeartbeatClaim | peerhub/extensions/bridge_claims.py:149-154 | A heartbeat extends only the row of a passing token |
| Claims.ClaimStore.ReleaseClaim | peerhub/extensions/bridge_claims.py:160-165 | A release expires only the row of a passing token |
| Claims.ClaimStore.FinalizeClaim | peerhub/extensions/bridge_claims.py:187-196 | A generation is finalized at most once, fenced |
| CoreStore.CoreLog | peerhub/core/store.py:438-490 | From nothing, over every run: positions exactly 1..head, one Record per (author, key), Offset at most the head, revision = 1 + accepted writes |
| CoreStore.RunContinues | peerhub/core/store.py:405-461 | Over every run logs only grow, a CLOSED stream stays closed and accepts nothing, Offsets never move back |
| CoreStore.RetriedAppend | peerhub/core/store.py:468-490 | A retried append returns the original Record and changes nothing, even after later appends or closure |
| CoreStore.RevisionCounts | peerhub/core/store.py:524-559 | An Offset's revision counts exactly the accepted writes of its scope |
| CoreStore.Store.AppendRecord | peerhub/core/store.py:438-490 | Key lookup first, then references, then closure, then position MAX + 1 |
| CoreStore.Store.AdvanceOffsetCas | peerhub/core/store.py:524-559 | References, revision, monotonicity, head bound, in this order |
| CoreStore.Store.MutateStream | peerhub/core/store.py:405-435 | Revision CAS on state, title, members and metadata; OPEN to CLOSED only |
| CoreStore.Store.Lookup | peerhub/core/store.py:468-490 | The stored Record of a key and the greatest position |
| CoreStore.Store.RequirePeers | peerhub/core/store.py:321-324 | Accepts exactly the lists of registered peers |
| CoreStore.Store.ReadRecords | peerhub/core/store.py:492-503 | The oldest Records strictly after a position, at most the limit |
| BridgeCore.RespondIsAppend | peerhub/extensions/bridge.py:1577-1580 | Materialising in the Bridge is the Core store's idempotent append: same answer, same position, same errors |
| BridgeCore.ClientIsAppend | peerhub/core/store.py:438-490 | A client's append, of any author and key, is the Core store's: same log, and refused together |
| BridgeCore.AdvanceIsCas | peerhub/extensions/bridge.py:1801-1812 | Moving the Offset in the Bridge is the Core store's compare-and-set: same result, same errors |
| BridgeCore.SameLookup | peerhub/core/store.py:477-487 | The Bridge and the Core store find the same Record under an author and key, or neither does |
| CatchUp.LongestFittingSuffix | peerhub/extensions/catchup.py:91-163 | Without pins the projection is the longest contiguous suffix of the candidates that fits all three budgets at once, also when the newest alone does not fit |
| CatchUp.PinsThenRest | peerhub/extensions/catchup.py:108-163 | The pinned part is the longest newest-first suffix of the pins that fits alone; the rest is the longest suffix of the others that fits what remains |
| CatchUp.OutputIsChosen | peerhub/extensions/catchup.py:140-163 | The output is the chosen items in position order, with the greatest omitted position and all counts |
| CatchUp.PayloadLength | peerhub/extensions/catchup.py:74-76 | used_bytes is the byte length of the joined payload, separators included |
| CatchUp.UntruncatedIsAll | peerhub/extensions/catchup.py:91-163 | An untruncated projection is the whole candidate window |
| CatchUp.WindowSuffices | peerhub/extensions/catchup.py:112-146 | The bounded window never drops an item the final selection needs |
| CatchUp.LaterAppendsInvisible | peerhub/extensions/catchup.py:91-184 | Records appended at or past the delivered position never change a projection bounded by it |
| CatchUp.Scan | peerhub/extensions/catchup.py:108-132 | The streaming pass keeps the pins and a window that is the needed suffix of the others |
| CatchUp.DropOldest | peerhub/extensions/catchup.py:103-132 | Sliding drops oldest items exactly until the window fits |
| CatchUp.TakeNewest | peerhub/extensions/catchup.py:134-146 | Taking newest-first stops at the longest fitting suffix |
| CatchUp.ProjectCatchUp | peerhub/extensions/catchup.py:91-163 | The streaming algorithm equals the declarative projection, or reports records out of order |
| CatchUp.BuildCatchUp | peerhub/extensions/catchup.py:166-184 | Paging terminates and gives the same projection for every page size |
| BridgeTheorems.DeliverBound | peerhub/extensions/bridge.py:562-666 | Over every run, the `deliver` calls for a Record not resolved as a proven pre-spawn failure are at most 1 plus its consumed RETRY authorizations |
| BridgeTheorems.MayHaveRun | peerhub/extensions/bridge.py:1262-1382 | An attempt whose `deliver` may have run has an unresolved marker or is no longer NOT_STARTED |
| BridgeTheorems.NothingSkipped | peerhub/extensions/bridge.py:1218-1260 | Every position up to the Offset is the peer's own, a reconcile, control (accepted if addressed), or terminal, refused, rejected or cancelled |
| BridgeTheorems.OnlyNewestPending | peerhub/extensions/bridge.py:1094-1098 | Every unacknowledged attempt but the newest has a consumed RETRY |
| BridgeTheorems.CancelIsFinal | peerhub/extensions/bridge.py:1814-1860 | A cancel that applies to a NOT_STARTED attempt with no open marker: no owner ever calls `deliver` on it again |
| BridgeTheorems.PauseHolds | peerhub/extensions/bridge.py:1846-1861 | While a scope stays paused, and no cycle is already past its last look at the pause state, nothing is delivered, whatever owners, handlers and crashes do |
| BridgeResponses.TerminalTruth | peerhub/extensions/bridge.py:1437-1478 | Once TERMINAL, result, time and bound response never change over any run, with callbacks racing under one token and clients appending anything |
| BridgeResponses.NamedExactly | peerhub/extensions/bridge.py:1291-1293 | A step changes the execution id of a terminal delivery exactly if it is a cycle storing its id after a callback committed under another one |
| BridgeResponses.TruthExact | peerhub/extensions/bridge.py:1291-1293 | Over every run the whole terminal row, execution id included, stays as it is exactly if no step of the run stores an id that late |
| BridgeResponses.LaterResults | peerhub/extensions/bridge.py:1437-1444 | A later result is a duplicate exactly if equal, else a conflict; either leaves evidence only |
| BridgeResponses.OneResponse | peerhub/extensions/bridge.py:1556-1602 | In every reachable state at most one Record of the peer has a delivery's response key; a bound response is that Record, carries the terminal result and has one evidence row; acknowledged and TERMINAL implies it exists and the Offset has reached the Record, unless a refusal was recorded |
| BridgeResponses.MaterializeExact | peerhub/extensions/bridge.py:1577-1584 | Over every run: materialisation conflicts exactly if the log holds a Record of the peer under the key other than the delivery's response, is refused by closure exactly if the Stream is CLOSED and nothing has the key, and else leaves exactly the one response |
| BridgeResponses.OccupiedForever | peerhub/extensions/bridge.py:1577-1580 | A key taken by another Record stays taken: every later materialisation conflicts, as long as no execution id is stored late |
| BridgeResponses.NoConflictWhenClean | peerhub/extensions/bridge.py:1577-1580 | Over every run in which nobody else appends in the peer's name under a response key and no execution id is stored late, every Record under such a key is the exact response of its terminal delivery |
| BridgeResponses.DroppedExactly | peerhub/extensions/bridge.py:1538-1554 | A delivery becomes terminal and acknowledged without a bound response exactly by a refusal's settlement that acknowledges what a callback has committed and not yet answered |
| BridgeDropped.DroppedForever | peerhub/extensions/bridge.py:1538-1554 | Over every run after such a step no cycle with the claim is at that delivery again, and it lacks its response exactly if no callback binds it |
| BridgeExamples.SquatRun | peerhub/core/store.py:468-490 | A run from a new scope: somebody used the response key, the delivery is terminal, and its response can never be appended |
| BridgeExamples.LateRun | peerhub/extensions/bridge.py:1291-1293 | A run from a new scope: a callback commits and answers between the start and the execution id, the id is stored afterwards, and materialising again conflicts |
| BridgeExamples.DropRun | peerhub/extensions/bridge.py:1538-1554 | A run from a new scope: a refusal is settled over a callback's result, which ends acknowledged and unanswered |
| BridgeControl.ControlOnce | peerhub/extensions/bridge.py:1646-1756 | Over every run a control keeps its target and its outcome once set, with exactly one evidence row iff there is an outcome |
| BridgeControl.OneOutcomeWriter | peerhub/extensions/bridge.py:1738-1756 | The outcome of a run was written by an action entitled to: the very intake of a control without effect, by a handler, sweep, scan or gate at its position, or its completion by the holder of the current unexpired lease (and claim) |
| BridgeControl.AtMostOneWrite | peerhub/extensions/bridge.py:1738-1756 | No two actions of a run write the same control's outcome |
| BridgeControl.OutcomeWriter | peerhub/extensions/bridge.py:1646-1756 | Any action that decides a control is its intake, if it has no effect, or its completion by the rightful lease holder |
| BridgeControl.EffectIsFenced | peerhub/extensions/bridge.py:1700-1735 | A runtime effect starts only under the current unexpired lease, a current token, and on the chosen target while it may still run under its claim |
| BridgeControl.PauseFollowsIntent | peerhub/extensions/bridge.py:1605-1613 | Paused depends only on the accepted intent, not on leases, targets or outcomes |
| BridgeControl.PauseFollowsPositions | peerhub/extensions/bridge.py:1605-1613 | Over one log, paused depends only on the set of accepted positions, never on handling order |
| BridgeContinuity.NoContextGap | peerhub/extensions/bridge.py:957-1020 | A native session with a complete bootstrap has been shown every Record up to its watermark, redirects for others excepted, unless a local turn or a callback bound it (`BridgeTurns.NoGapUnlessBlind` narrows the exception) |
| BridgeContinuity.NoGapWhenProvable | peerhub/extensions/bridge.py:1480-1510 | The same without exception, for runtimes that report a vendor session only from a bootstrap or native turn |
| BridgeContinuity.LocalBindingExact | peerhub/extensions/bridge.py:1366-1372 | Over every run: when a complete local turn is about to bind its session, the watermark it commits is true exactly if every earlier position was, before the commit, a redirect for others or covered by a turn of the session, each window computed from the log before its turn: its Record, its bootstrap or delta as the budget cut it, or a redirect since its last run that had not been steered |
| BridgeTurns.CallbackBindingExact | peerhub/extensions/bridge.py:1437-1516 | Over every run: when a callback is about to bind a session, the watermark it commits is true exactly if every position up to the delivery's Record was covered that way before, by the turns the session ended and the turn the callback ends, if it was called |
| BridgeTurns.NoGapUnlessBlind | peerhub/extensions/bridge.py:1480-1516 | Over every run a session, lost or not, bound by cycle or callback, has no gap if no result was committed to it that binds it or moves its watermark without ending a complete bootstrap or native turn |
| BridgeContinuity.GapExact | peerhub/extensions/bridge.py:957-1020 | Over every run a session with a watermark has no gap exactly if every position up to it is covered that way by the turns the session ended |
| BridgeTurns.TakenIs | peerhub/extensions/bridge.py:1366-1372 | Over every run the turns read there are those of terminal attempts, for the attempt's Record and in the session its row names |
| BridgeExamples.GapRun | peerhub/extensions/bridge.py:999-1020 | A run from a new scope, prompt, answer, second prompt as a local turn that first reports a vendor session: the watermark claims position 2, which the session was never shown |
| BridgeContinuity.LocalFeedsNothing | peerhub/extensions/bridge.py:917-926 | A local turn that nobody interrupted is fed nothing but redirects |
| BridgeContinuity.LocalDeltaCovers | peerhub/extensions/bridge.py:967-988 | A local session that others interrupted is fed everything since its last terminal turn but its own responses and redirects for others, unless truncated |
| BridgeContinuity.RedirectsReach | peerhub/extensions/bridge.py:917-926 | An unseen, unsteered redirect for the peer reaches the next local turn, unless the budget cut it |
| BridgeTaint.UncertainNeverResumed | peerhub/extensions/bridge.py:543-555 | Over every run a command-line session in which an attempt may have run with an unknown end is never resumed again |
| BridgeTaint.UnfinishedNeverResumed | peerhub/extensions/bridge.py:602-616 | Over every run no step resumes the session of an attempt that started without a result or has an open marker, nor a command-line session of an uncertain one |
| BridgeTaint.RunTaints | peerhub/extensions/bridge.py:602-616 | That an uncertain attempt's command-line session is lost holds along every run |
| BridgeRuns.RunInv | peerhub/extensions/bridge.py:1130-1216 | The whole invariant holds along every run, and nothing durable is taken back |
| BridgeRuns.NextInv | peerhub/extensions/bridge.py:1130-1216 | Every step of every owner, callback, handler, client and environment keeps the invariant |
| BridgeRuns.OneHolder | peerhub/extensions/bridge_claims.py:136-147 | At most one cycle holds the claim |
| BridgeSafety.ViewStays | peerhub/extensions/bridge.py:1106-1128 | Appends, intent, authorizations, evidence and callbacks of others take nothing from what the current owner knows |
| BridgeSafety.MoveKept | peerhub/extensions/bridge.py:1130-1382 | Each step of the current owner keeps the ledger laws and establishes what its next program counter promises |
| BridgeSafety.StaleMove | peerhub/extensions/bridge_claims.py:177-183 | Without a current token a cycle writes nothing but late evidence |
| BridgeSafety.TurnForOk | peerhub/extensions/bridge.py:947-1020 | The context computed for a turn closes the gap between what the session knows and the Record |
| BridgeSessions.CommitOk | peerhub/extensions/bridge.py:1480-1516 | The watermark a terminal turn commits is backed by what the session was shown |
| BridgeSessions.MovesTamed | peerhub/extensions/bridge.py:776-945 | No other step adds a claim about context |
| BridgeCalls.MovesMark | peerhub/extensions/bridge.py:562-616 | Markers are only added, promoted, or resolved by the cycle they belong to |
| BridgeInvariant.BeginOk | peerhub/extensions/bridge.py:636-666 | Creating, reusing or retrying an attempt keeps the ledger laws and yields the newest, unstarted attempt of the picked Record |
| BridgeInvariant.MarkWrittenOk | peerhub/extensions/bridge.py:562-578 | Writing a marker keeps the ledger laws |
| BridgeInvariant.ResolveOk | peerhub/extensions/bridge.py:587-600 | Resolving a marker keeps the ledger laws |
| BridgeInvariant.TransitionOk | peerhub/extensions/bridge.py:518-560 | A forward certainty transition keeps the ledger laws |
| BridgeInvariant.PromoteOk | peerhub/extensions/bridge.py:602-616 | Recovery keeps the ledger laws and leaves no dangling marker |
| BridgeInvariant.FinalizeOk | peerhub/extensions/bridge.py:1414-1478 | Terminal finalization keeps the ledger laws |
| BridgeInvariant.AppendResponseOk | peerhub/extensions/bridge.py:1577-1580 | Materialising a terminal delivery conflicts exactly if another Record of the peer has the key, is refused by closure if nothing has it, and else finds or appends the response, ledger laws kept |
| BridgeInvariant.AppendOk | peerhub/core/store.py:438-490 | Any client's append, of any author under any key, keeps the ledger laws |
| BridgeInvariant.AdvanceOk | peerhub/extensions/bridge.py:1801-1812 | The Offset moves over accounted positions only |
| BridgeInvariant.RejectOk | peerhub/extensions/bridge.py:1218-1241 | A definitive request failure settles, acknowledges and consumes in one transaction |
| BridgeInvariant.RegisterRetryOk | peerhub/extensions/bridge.py:1863-1899 | Registering a RETRY keeps the ledger laws |
| BridgeInvariant.AcceptControlOk | peerhub/extensions/bridge.py:1646-1697 | Intake keeps the ledger laws and leaves the control accepted |
| BridgeInvariant.CompleteControlOk | peerhub/extensions/bridge.py:1738-1752 | Completion keeps the ledger laws |
| BridgeInvariant.AckedOk | peerhub/extensions/bridge.py:1599-1601 | Acknowledging a finished delivery behind the Offset keeps the ledger laws |
| BridgeInvariant.AckCancelledOk | peerhub/extensions/bridge.py:1838-1844 | Acknowledging a cancelled attempt keeps the ledger laws |
| BridgeInvariant.SettleRefusalOk | peerhub/extensions/bridge.py:1538-1545 | Settling a refusal keeps the ledger laws |
| BridgeStore.Bridge.OpenInvocation | peerhub/extensions/bridge.py:580-585 | Finds the newest unresolved marker |
| BridgeStore.Bridge.MoveCertainty | peerhub/extensions/bridge.py:518-560 | The certainty transaction with its session taint, or its error with nothing changed |
| BridgeStore.Bridge.WriteMarker | peerhub/extensions/bridge.py:562-578 | The durable invocation marker |
| BridgeStore.Bridge.ResolveMarker | peerhub/extensions/bridge.py:587-600 | Resolution of the open marker |
| BridgeStore.Bridge.PromoteAll | peerhub/extensions/bridge.py:602-616 | The recovery loop promotes every dangling attempt |
| BridgeStore.Bridge.NewestFor | peerhub/extensions/bridge.py:641-642 | The newest attempt for a Record |
| BridgeStore.Bridge.Begin | peerhub/extensions/bridge.py:636-666 | The attempt transaction, consuming an authorization when it retries |
| BridgeStore.Bridge.Finalize | peerhub/extensions/bridge.py:1428-1470 | First, duplicate or conflicting terminal result |
| BridgeStore.Bridge.CommitSession | peerhub/extensions/bridge.py:1480-1516 | What a terminal turn writes to its native session |
| BridgeStore.Bridge.RespondOnce | peerhub/extensions/bridge.py:1577-1580 | Idempotent append of the response that was read |
| BridgeStore.Bridge.AdvanceTo | peerhub/extensions/bridge.py:1801-1812 | The Offset reaches the position or the head bound refuses it |
| BridgeStore.Bridge.Materialize | peerhub/extensions/bridge.py:1556-1602 | Response, binding, Offset and acknowledgement, or the error of the append with nothing changed |
| BridgeStore.MaterializedIs | peerhub/extensions/bridge.py:1556-1602 | From wherever an earlier attempt stopped: refused with nothing changed exactly if another Record has the key, or none has it and the Stream is CLOSED; else acknowledged, exactly its response bound, Offset past the Record; ledger laws kept |
| BridgeStore.Bridge.Reject | peerhub/extensions/bridge.py:1218-1241 | The rejection transaction |
| BridgeStore.Bridge.Refuse | peerhub/extensions/bridge.py:1538-1554 | A settled refusal, in the order evidence, result, session, Offset, acknowledgement |
| BridgeStore.Bridge.Reconcile | peerhub/extensions/bridge.py:1863-1899 | Registering a RETRY: newest by position wins until one is consumed |
| BridgeStore.Bridge.IsPaused | peerhub/extensions/bridge.py:1605-1613 | Paused exactly if the newest accepted pause or resume is a pause |
| BridgeStore.Bridge.CancelFor | peerhub/extensions/bridge.py:1814-1826 | Whether an accepted cancel applies to the attempt |
| BridgeStore.Bridge.Accept | peerhub/extensions/bridge.py:1646-1697 | Durable intent, lease, write-once target and taint |
| BridgeStore.Bridge.CompleteWith | peerhub/extensions/bridge.py:1738-1752 | The write-once outcome under the current lease |
| BridgeStore.Bridge.ApplyControl | peerhub/extensions/bridge.py:1646-1756 | A control applied inside a cycle: accepted, fenced, acted on and completed with its exact outcome, or not one for the peer and nothing changed |
| BridgeStore.AppliedOutcome | peerhub/extensions/bridge.py:1700-1756 | Which outcome an applied control has, from its target and the claim |
| BridgeStore.Bridge.NextRecord | peerhub/extensions/bridge.py:1243-1260 | Everything passed over was own, reconcile or accepted control; the picked Record is the next to deliver |
| BridgeDelivery.PumpEvents | peerhub/extensions/bridge.py:1282-1347 | The runtime event loop is a run of the machine's steps, for every event sequence |
| BridgeDelivery.RunRuntime | peerhub/extensions/bridge.py:1262-1382 | From the call to the end of the cycle: a run of the machine's steps to rest, ledger laws kept, a delivered result is terminal, and acknowledged unless the Stream was closed or another Record has the response key |
| BridgeDelivery.MaterializeSteps | peerhub/extensions/bridge.py:1556-1602 | Materialisation is a run of the machine's steps |
| BridgeDelivery.RefusalRun | peerhub/extensions/bridge.py:1538-1554 | Settling a refusal is a run of the machine's steps |
| Reconstruct.ReconstructConsumedPrompt | peerhub/extensions/bridge.py:420-472 | Returns a watermark exactly when the chain of turns is fully proven, and then the last delivered position |
| Reconstruct.CheckTurn | peerhub/extensions/bridge.py:433-470 | One turn is accepted exactly with exact terminal identity and complete injected context |
| Reconstruct.InjectedIds | peerhub/extensions/bridge.py:462-466 | The Records a turn must have injected, in order |
| Reconstruct.ReconstructedIsConsumed | peerhub/extensions/bridge.py:420-472 | Soundness: a returned w means the session consumed every Record at 1..w, redirects for others after the first turn excepted |
| Reconstruct.ReconstructedIsOneSession | peerhub/extensions/bridge.py:433-458 | All turns ran in one external and one vendor session, strictly forward |
| Registry.AllocateIs | peerhub/extensions/bridge_registry.py:207-225 | The new row has a generation above all others, is never the one pruned and is the pointer target |
| Registry.AllocateRetains | peerhub/extensions/bridge_registry.py:86-98 | After an allocation at most 20 rows are live, all within 30 days; a dropped row is too old or less recent than 20 live ones |
| Registry.KeptIs | peerhub/extensions/bridge_registry.py:86-98 | Retention keeps the first 20 in recency order of the rows that are not too old |
| Registry.RepairIs | peerhub/extensions/bridge_registry.py:75-83 | Afterwards the pointer is at an eligible row, or at none exactly if no row is eligible; nothing else changes |
| Registry.OrderedIs | peerhub/extensions/bridge_registry.py:70-72 | The ordered list is exactly the live rows, strictly by recency |
| Registry.SeededIs | peerhub/extensions/bridge_registry.py:151-172 | After legacy seeding no generation with any durable trace can be allocated again |
| Registry.RunContinues | peerhub/extensions/bridge_registry.py:207-225 | Over every run generations strictly increase and are never reused, rows keep their identity, tombstones are final |
| Registry.SessionStore.RepairPointer | peerhub/extensions/bridge_registry.py:75-83 | The repair loop |
| Registry.BeyondQuota | peerhub/extensions/bridge_registry.py:87-89 | Exactly the rows past the first 20 that are not too old |
| Registry.SessionStore.EntombRows | peerhub/extensions/bridge_registry.py:90-97 | The entombing loop |
| Registry.SessionStore.PruneRows | peerhub/extensions/bridge_registry.py:86-98 | Prune, then repair |
| Registry.SessionStore.AllocateRow | peerhub/extensions/bridge_registry.py:207-225 | Counter, row, pointer, prune, pointer |
| A2AJournal.SubmitBound | peerhub/extensions/a2a_journal.py:137-150 | Under any interleaving of adapters, submissions of a task are at most 1 plus its not_started records |
| A2AJournal.ClaimedAfter | peerhub/extensions/a2a_journal.py:137-150 | A claimed attempt is one adapter's own, and all earlier attempts were reported not started |
| A2AJournal.EvidenceForward | peerhub/extensions/a2a_journal.py:107-112 | Within an attempt the replayed status only moves forward and terminal evidence is fixed |
| A2AJournal.LogTask | peerhub/extensions/a2a_journal.py:85-130 | What a lawful log says of one task: attempts 1..n, state of the last one, no evidence lost |
| A2AJournal.RunOk | peerhub/extensions/a2a_journal.py:137-180 | Every reachable journal is lawful |
| A2AJournal.Consume | peerhub/extensions/a2a_journal.py:92-115 | One Record of the replay loop |
| A2AJournal.Load | peerhub/extensions/a2a_journal.py:85-116 | The paging loop computes the replay fold |
| A2AJournal.CountAttempts | peerhub/extensions/a2a_journal.py:121-130 | The paging loop counts the submissions |
| A2AAdapter.ApplyFaithful | peerhub/extensions/a2a.py:239-295 | Every public call, whatever transport and store do: the log stays lawful and append-only, what was abandoned stays so, what is submitted was claimed first; and from a cache that agrees with replay, up to a submitted task that shows as running, it goes on agreeing exactly if the store lost no answer |
| A2AAdapter.LiveFaithful | peerhub/extensions/a2a.py:189-230 | Over every sequence of calls, crashes inside calls and restarts, whatever transport and store do: no attempt is submitted twice or unclaimed, and an id abandoned in memory and log is never submitted again |
| A2AAdapter.LiveAgrees | peerhub/extensions/a2a.py:189-230 | Over every such sequence from agreement: the cache agrees with replay throughout exactly if no completed call loses an answer of the store |
| A2AAdapter.AbandonExact | peerhub/extensions/a2a.py:239-251 | An abandonment that returned gives the id up in the log exactly if the log still has that attempt without an answer, or had it abandoned; always if the cache agreed |
| A2AAdapter.StepExact | peerhub/extensions/a2a.py:441-460 | From memory and replay in step, a call leaves them agreeing and in step exactly if no answer was lost and it is not a poll, or a cancellation's poll, of a SUBMITTED task answered COMPLETED while the append is refused: the Stream not readable as its author's, CLOSED or failing, or output, error or the carried-over reference not strict JSON |
| A2AAdapter.LiveExact | peerhub/extensions/a2a.py:441-517 | Over every sequence of calls, crashes and restarts memory and replay agree with every status in common throughout exactly if no completed call loses an answer or is such a poll |
| A2AAdapter.SkipExample | peerhub/extensions/a2a.py:441-460 | Dispatch, then a poll answered COMPLETED with a NaN output: the call raises, memory says RUNNING, the log SUBMITTED |
| A2AAdapter.ClosedExample | peerhub/core/store.py:438-461 | Dispatch, the Stream is closed, then a poll answered COMPLETED with nothing wrong in it: the same |
| A2AAdapter.StateExample | peerhub/extensions/a2a.py:441-460 | Dispatch, a poll that brings an opaque state that is not strict JSON, then a poll answered COMPLETED: the same |
| A2AAdapter.LostExample | peerhub/extensions/a2a.py:377-428 | Dispatch, and the answer to the record of the response is lost: memory is uncertain of what the log has as SUBMITTED |
| A2AAdapter.RestoredAgrees | peerhub/extensions/a2a.py:212-230 | A restored adapter agrees with the log |
| A2AAdapter.RestoredInStep | peerhub/extensions/a2a.py:212-230 | A restart brings memory and replay in step again, whatever was before |
| A2AAdapter.RecordedIs | peerhub/extensions/a2a_journal.py:76-174 | A response that moves a task forward is recorded exactly if the Stream can be read as its author's, is open and does not fail, and output, error and reference are strict JSON; otherwise nothing is written and the call raises; it also raises when recorded with the answer lost |
| A2AAdapter.DispatchFollows | peerhub/extensions/a2a.py:377-428 | From a cache that agrees, after a dispatch it agrees exactly if neither the answer to the claim nor that to the response was lost; in step it stays then |
| A2AAdapter.ReconcileFollows | peerhub/extensions/a2a.py:258-295 | The same of a reconciliation: its denial or its response |
| A2AAdapter.AbandonFollows | peerhub/extensions/a2a.py:239-251 | The same of an abandonment |
| A2AAdapter.UpdateFollows | peerhub/extensions/a2a.py:472-499 | The same of a status update |
| A2AAdapter.PollFollows | peerhub/extensions/a2a.py:441-460 | The same of a poll, also when its record is refused after the intermediate RUNNING write; it leaves memory and replay in step exactly if it was not |
| A2AAdapter.CancelFollows | peerhub/extensions/a2a.py:505-517 | The same of a cancellation, with its poll and its own record |
| A2AAdapter.Adapter.constructor | peerhub/extensions/a2a.py:192-216 | Restart adopts every replayed task |
| A2AAdapter.Adapter.Restore | peerhub/extensions/a2a.py:212-216 | The adoption loop |
| A2AAdapter.Adapter.AdoptTask | peerhub/extensions/a2a.py:218-230 | Taking over one task's durable state |
| A2AAdapter.Adapter.RecordObserved | peerhub/extensions/a2a_journal.py:155-174 | Reading, deciding, appending and, after a conflict, reading again; every failure of the store raises |
| A2AAdapter.Adapter.Write | peerhub/extensions/a2a_journal.py:76-87 | One append: refused if no Record can hold it, a conflict if the key is taken, refused if CLOSED, else written, with or without an answer |
| A2AAdapter.Adapter.DoDispatch | peerhub/extensions/a2a.py:377-428 | Dispatch, branch by branch |
| A2AAdapter.Adapter.DoReconcile | peerhub/extensions/a2a.py:258-295 | Reconciliation, branch by branch |
| A2AAdapter.Adapter.DoAbandon | peerhub/extensions/a2a.py:239-251 | Abandonment |
| A2AAdapter.Adapter.DoUpdate | peerhub/extensions/a2a.py:472-499 | A status update |
| A2AAdapter.Adapter.DoPoll | peerhub/extensions/a2a.py:441-460 | A poll |
| A2AAdapter.Adapter.DoCancel | peerhub/extensions/a2a.py:505-517 | A cancellation |
| Restore.Disk.Recover | peerhub/core/workspace.py:42-62 | Start-up recovery leaves the visible workspace unchanged and makes it the target |
| Restore.Disk.RestoreAuthoritative | peerhub/extensions/backup.py:424-512 | Whatever fails or dies, the visible workspace is exactly the old or exactly the new one; a return means the new one with its epoch |
| Restore.Disk.RestoreAndStart | peerhub/core/workspace.py:66-67 | A restore that may die anywhere, then a start: the target is the complete old or the complete new workspace |
| Restore.Disk.Swap | peerhub/extensions/backup.py:466-506 | Stage, mark, move aside, publish, or roll back |
| Restore.Disk.Finish | peerhub/extensions/backup.py:507-511 | Clean-up never changes the visible workspace |
| Restore.EpochsIncrease | peerhub/extensions/backup.py:451-460 | Epochs strictly increase along any sequence of restores |
| Restore.Home.RestoreSnapshot | peerhub/core/workspace.py:120-161 | At every point where it may die, the restored state never stands under the old generation |
| ExactMatch.Evaluate | peerhub/extensions/eval.py:191-220 | The greedy count is the sum over values of the smaller multiplicity; PASSED exactly if both sides are non-empty, every item has an expectation and the expectations are contained in the outputs; no span is used twice |
| ExactMatch.GreedyIsOptimal | peerhub/extensions/eval.py:199-210 | No assignment of spans to items matches more |
| ExactMatch.OrderIsIrrelevant | peerhub/extensions/eval.py:199-210 | The count does not depend on the order of items or spans |
| ExactMatch.FindSpan | peerhub/extensions/eval.py:204-210 | The first unconsumed span with the value |

## Left out

- SQLite, WAL, pragmas, migrations and connection handling: tables are values and a transaction is one step; the append-only and
  write-once triggers appear as failing transactions where a statement could violate them and as the proved `Grows` elsewhere.
- Canonical JSON and SHA-256: payloads stand for their digests.
- Session receipts, telemetry, usage, monitor projections and message texts: display only. With them two writes of the bootstrap
  flag: a cumulative-usage report may set it on a session that is LOST, which nothing resumes, and on an ACTIVE one that has no vendor session
  yet, where it only makes fewer sessions resumable; a session that only a callback bound is outside `NoContextGap` either way,
  and `NoGapUnlessBlind` does not read the flag.
- Losing a session after a racing callback has acknowledged the delivery: the code then loses the session the MRU pointer is at, the model
  the delivery's own. Its attempt is terminal by then, so no result needs either to be lost.
- `context.boundary` payload validation: boundary Records enter the log as Records of the peer.
- The age, fingerprint, binding and workspace compatibility of a resumable session: they only make fewer sessions resumable than the
  model allows. The generation counter, pruning and the pointer are modelled separately in `Registry`.
- Bounds on retries (`ack_retries`, `max_session_attempts`): the machine may retry without bound, or give up anywhere.
- Liveness: only safety is claimed.
- A restore inside a Bridge run: `Claims` covers the fencing of old tokens across restores; a restored Bridge ledger starts a new run.
- BridgeDelivery.PumpEvents: has no lost heartbeat and no callback or other owner in between; the machine has them all.
- BridgeDelivery.RunRuntime: has no callback or other owner in between; interference is covered by `BridgeRuns.RunInv`, whose runs contain every
  interleaving of the same steps.
- BridgeStore.Bridge.NextRecord: passes the token as current throughout, and a runtime effect inside it succeeds; the machine has the other cases.
- BridgeStore.Bridge.AdvanceTo: has no second writer between its read and its write; the machine's Offset step has the lost race.
- Registry.SessionStore.AllocateRow: takes the unused handle as a parameter instead of drawing random ones until one is unused.
- `a2a_http.py`, provider adapters, process killing, `batch.py`, account roots, `peerhub/cli`, diagnostic views and `tools/`: network,
  operating system and user interface; transport and runtime are adversaries.
- `approval.py`, `artifact.py`, `direction.py`: small state machines that would add easy members.
- Secret scanning, symlink and reparse-point checks of backups.
