# Verified model of the rusui plane

rusui is a self-hosted plane that runs coding agents in sessions: it leases turns to runners, keeps
receipts of what they did, fetches items to review, carries guest connections over one pipe, and decides
which shell commands a guest may run. This project models the parts of it where several operations share
state, and proves what those operations keep, over every run and every interleaving.

The modules, by topic:

- **Turns** (`Turns`, `TurnInvariants`, `TurnRuns`, `TurnHistory`, `TurnPrompts`, `TurnWork`, `TurnKept`,
  `Engine`):
  the life of a turn. `Turns` holds the turn as a value with one step function per transaction and one
  decision table, `Rule`, for the six ways a lease can end. `Engine` holds the transactions the way the
  engine runs them (field by field, in its branch order, with its loops) as methods and a class, each
  proved equal to its step. The other modules prove the invariant and the theorems about whole runs.
- **Claims** (`Claims`, `ClaimToken`, `ClaimRuns`, `LeaseCaps`, `ClaimSteps`): which turn a claim leases, the
  claim transaction with its tokens and its sweep of due leases, runs of a plane whose sessions are opened,
  claimed, given back and reconfigured with their daily review counts and lease caps, and the transaction as
  steps of such a run.
- **Stored times** (`Stamps`): the text a time is stored as, and what comparing the text decides.
- **Environment operations** (`EnvOperations`): a state machine over every interleaving of claims,
  cancels, halts, sleeps and wakes.
- **Refresh** (`Refresh`, `RefreshRuns`, `Admission`, `ItemRuns`): refresh ownership, when fetched content
  becomes a revision, and both together with the edits of the item itself.
- **Guest link** (`Frames`, `Link`, `LinkRuns`): the frame codec and the host's stream table.
- **Permission gates** (`Shell`, `ShellQuoting`, `ShellSequences`, `Gates`, `GateLaws`): the shell lexer,
  the fence and the policy rules.
- **Model calls** (`ModelCalls`, `ModelCallRuns`), **drafts** (`Drafts`), **followed reads** (`FollowRead`,
  `FollowReadRuns`), **keyed locks** (`KeyedLocks`).

How the source maps to the model:

- Store transactions are atomic steps: the store opens one connection and begins transactions
  immediately (internal/store/store.go:22-37). Tables are maps. A UNIQUE constraint is a precondition of
  the insert; every caller discharges it.
- A session has one turn, so a turn is modelled with its session's queue, steers, snapshots and receipts.
- Times are nanoseconds, passed in as parameters. Two reads of the clock in one transaction are two parameters,
  and so are two reads of the active policy.
- Hashes, digests and ids are values compared for equality.
- Fields called `seen`, `grants`, `ledger`, `accepted`, `taken`, `closes` and the like record history for
  the statements; no branch reads them.

What the proofs found:

- Cancelling a turn drops the prompts that wait for its end but starts no follow-up behind them, so a
  follow-up can stay queued behind a failed turn; archiving leaves the whole queue. `TurnWork.CancelStrandsExactly`
  and `TurnWork.ArchiveStrandsExactly` give the exact conditions for turns in every state,
  `TurnWork.CancelCanStrand` a family of inputs.
- A follow-up sent before the first claim takes the place of the prompt a session was started with, which is
  then never leased (`TurnWork.OpeningCanBePassedOver`); on a review turn a fetched item admitted over a
  pending, unclaimed prompt does the same. `TurnWork.RevisionsRun`: exactly then.
- A claim that finds its environment busy gives its lease back but leaves the revision marked as claimed, so
  a follow-up that arrives before the next claim takes its place and the revision never runs
  (`TurnKept.BusyCanBePassedOver`). `TurnKept.RevisionsKeepALease` gives the exact condition over every run.
- A prompt on a review session makes its snapshot the pending one, so the next fetch of the unchanged item
  is a new revision although nobody asked for it (`Admission.PromptRenewsUnchangedItem`).
  `Admission.UnchangedItemExactly`: exactly then.
- A requested review that turns out ineligible sets the refresh row idle and clears the flag for a second
  fetch and the force flag, so an event ingested meanwhile is not fetched and a forced request is forgotten
  (`RefreshRuns.RestExactly`, `RefreshRuns.WakeupCanBeLost`, `RefreshRuns.ForceExactly`).
- That close can leave the row at rest on content that a reported edit has replaced
  (`ItemRuns.OldContentCanRest`; `ItemRuns.RestExactly`: no other step can). Without it, a row at rest means that
  the item as it is was admitted (`ItemRuns.RestShowsTheItem`, `ItemRuns.BackgroundShowsTheItem`).
- Due leases and due refresh rows are found by comparing stored text, in which a cut-off fraction of a second
  sorts after a longer one. So a lease that expires on a full second is not found for the rest of that second
  (`ClaimToken.DueCanBeMissed`); `Stamps.StoredOrderExactly` and `ClaimToken.SweepMissesExactly` say exactly what
  is missed.
- The refresh retry count is never reset by a success (`RefreshRuns.RetriesAreForLife`).
- Lease caps and daily limits hold in every run under one policy, and under reloads that only add
  (`LeaseCaps.CapsAndLimitsHold`). A reload that binds a repository to another project lets a claim for the
  new project take the old one past its cap (`LeaseCaps.RebindingPassesCap`); `LeaseCaps.GrantPassesCapExactly`
  says which caps a granted claim passes.
- A forward of the guest link overwrites a live stream exactly when the 32-bit id counter has wrapped onto
  it (`Link.ForwardKeepsExactly`), and a run reaches that (`LinkRuns.WrappedCounterOverwrites`).
- A push to `x:heads/main` is not fenced: of the spellings with a source exactly four are
  (`GateLaws.PushIsFencedExactly`).
- The architecture notes say an execution deadline counts as a retry; the code fails the lease closed
  without one, and the model follows the code.

## Model

| member | source | states |
|---|---|---|
| `Engine.PromoteSteersTx` | internal/store/steer.go:96-133 | the loop moves exactly the open steers up to the given generation into the queue under their own numbers and returns how many |
| `Engine.ApplyNextFollowUpTx` | internal/engine/followup.go:398-408 | the lowest waiting row, if any, is the one applied; otherwise nothing changes |
| `Engine.PromoteFollowUpTx` | internal/engine/followup.go:355-371 | the head starts exactly when no revision is unclaimed, it is not held back by a queued or leased turn, and no earlier steer is open |
| `Engine.EnqueuePromptTx` | internal/engine/followup.go:321-353 | the new row gets the next number and the turn becomes the enqueue step's turn |
| `Engine.FinalizeFailureTx` | internal/engine/engine.go:1498-1545 | the failure branches are the decision table's row for a reported failure |
| `Engine.FailClosedTx` | internal/engine/engine.go:1448-1496 | the deadline branches are the table's row for a lease past its deadline, for both callers |
| `Engine.CompleteLeaseTx` | internal/engine/engine.go:1302-1335 | the completion branches are the table's row for a completed lease |
| `Engine.ExpireLeaseTx` | internal/engine/engine.go:694-757 | a due lease ends past its deadline or lapses, a live one is untouched |
| `Engine.LapseTx` | internal/engine/engine.go:708-753 | the lost-heartbeat branches are the table's row for a lapsed lease |
| `Engine.CancelLeaseTx` | internal/engine/cancel.go:147-172 | cancelling a leased turn is the table's row for a cancelled lease |
| `Engine.CancelTurnTx` | internal/engine/cancel.go:132-184 | queued turns fail, leased ones end, others stay |
| `Engine.HaltLeaseTx` | internal/engine/halt.go:203-239 | halting a leased turn is the table's row for a halted lease |
| `Engine.ReceiveSteersTx` | internal/store/steer.go:45-64 | the loop marks exactly the named steers received, or refuses and changes nothing |
| `Engine.AckSteersTx` | internal/store/steer.go:66-85 | the loop acknowledges exactly the named steers, or refuses and changes nothing |
| `Engine.HeartbeatTx` | internal/engine/engine.go:1095-1181 | a heartbeat is the heartbeat step: accepted only for the live lease, one steer offered |
| `Engine.CompleteTx` | internal/engine/engine.go:1187-1348 | a completion is the complete step, replay and rejection included |
| `Engine.FailTx` | internal/engine/engine.go:1350-1383 | a failure report is the fail step, replay and rejection included |
| `Engine.DropQueuedPromptsTx` | internal/engine/followup.go:139-172 | exactly the held, waiting prompts are dropped, their number is returned, and the new head may start |
| `Engine.PromptSteerTx` | internal/engine/followup.go:179-233 | a prompt to a live lease becomes a steer of that lease, any other a follow-up |
| `Engine.Engine.Insert` | internal/engine/engine.go:676-683 | a new turn, which begins with an item on a review and with a prompt otherwise, keeps the engine's invariant |
| `Engine.Engine.Heartbeat` | internal/engine/engine.go:1095-1181 | the turn table changes at that turn by the heartbeat step only; a missing turn is rejected |
| `Engine.Engine.Complete` | internal/engine/engine.go:1187-1348 | the turn table changes at that turn by the complete step only; a missing turn is rejected |
| `Engine.Engine.Fail` | internal/engine/engine.go:1350-1383 | the turn table changes at that turn by the fail step only; a missing turn is rejected |
| `Engine.Engine.RequeueBusy` | internal/engine/engine.go:1044-1063 | a busy claim gives back its own lease and no other |
| `Engine.Engine.Expire` | internal/engine/engine.go:694-757 | the turn table changes at that turn by the expire step only |
| `Engine.Engine.Cancel` | internal/engine/cancel.go:65-76 | held prompts are dropped and the turn cancelled in one transaction |
| `Engine.Engine.Halt` | internal/engine/halt.go:97-108 | only leased turns are halted |
| `Engine.Engine.FailArchived` | internal/engine/archive.go:76-106 | cancelled, and failed if still queued |
| `Engine.Engine.PromptFollowUp` | internal/engine/followup.go:84-137 | the prompt is enqueued and the answer says whether it waits |
| `Engine.Engine.PromptSteer` | internal/engine/followup.go:179-233 | the steer step, and whether the lease was live |
| `Engine.Engine.DropQueuedPrompts` | internal/engine/followup.go:139-172 | held prompts leave the queue and their number is returned |
| `TurnInvariants.EndLeaseInv` | internal/engine/engine.go:694-753 | every way a lease can end keeps the turn's invariant |
| `TurnInvariants.StepInv` | internal/engine/engine.go:694-1545 | every transaction keeps the turn's invariant: queue and steer numbers disjoint, revisions in prompt order, one receipt per lease, no receipt at a live lease, retries below the limit while the turn may run |
| `TurnRuns.RunInv` | internal/engine/engine.go:694-1545 | the invariant holds after every sequence of transactions |
| `TurnRuns.LeasesAreFenced` | internal/engine/engine.go:1423-1446 | over every run: generations granted strictly increase, no generation ends twice, whatever acts on a lease acts on one granted before and not ended, and accepted reports come before the deadline fixed at the grant and within three minutes of the last accepted heartbeat or the grant |
| `TurnHistory.RetryBudget` | internal/engine/engine.go:1516-1537 | over every run the retry count is the number of failed or lapsed leases of the pending revision since the last operator retry, at most three, and below three while the turn may run |
| `TurnHistory.RunKeepsReceipts` | internal/store/store.go:438-442 | a stored receipt is never changed or removed |
| `TurnHistory.ReportsReplay` | internal/engine/engine.go:1187-1240 | after any later run, repeating a completion, or reporting a failure of it, returns the stored receipt and changes nothing |
| `TurnHistory.OtherLeasesAreInert` | internal/engine/engine.go:1423-1446 | calls that name another lease change no turn state and end nothing |
| `TurnPrompts.PromptsAreConserved` | internal/engine/followup.go:321-408 | in every run an accepted prompt keeps its text and waits, or is exactly one revision, or was dropped and then was held; prompt revisions follow acceptance order |
| `TurnPrompts.SteersAreConserved` | internal/engine/followup.go:179-233 | a steer taken by a live lease is acknowledged, open, or in the queue once under its own number and text; it is never dropped |
| `TurnWork.FinishedIsQuiet` | internal/engine/engine.go:1317-1332 | a turn that stops by completion, exhausted retries or its deadline has claimed its last revision and has no prompt or steer left |
| `TurnWork.CancelStrandsExactly` | internal/engine/cancel.go:132-184 | for turns in every state: whether a cancel leaves the turn failed, and that it leaves a follow-up behind a failed turn exactly when it does and an unheld prompt or an open steer waits |
| `TurnWork.ArchiveStrandsExactly` | internal/engine/archive.go:76-106 | archiving fails every turn that is not completed and leaves waiting exactly the prompts and open steers it found, less the head when a steer of the lease starts it |
| `TurnWork.CancelCanStrand` | internal/engine/cancel.go:65-76 | a held prompt, a follow-up behind it and a cancel strand the follow-up |
| `TurnWork.HeldPromptsWait` | internal/engine/followup.go:355-371 | while a lease stays live a held prompt never becomes the pending revision |
| `TurnWork.RevisionsRun` | internal/engine/followup.go:250-255 | over every run a revision is leased before a later one takes its place exactly when no item was admitted over it while unclaimed and, for the first one, no prompt started before the first claim |
| `TurnWork.PromptRevisionsRun` | internal/engine/engine.go:676-692 | a revision made from a prompt, the opening one included, is leased before a later one takes its place exactly when no call passed it over; on run and scheduled turns only the opening prompt can be |
| `TurnWork.OpeningCanBePassedOver` | internal/engine/followup.go:250-255 | a follow-up before the first claim, and the opening prompt is never leased |
| `TurnKept.RevisionsKeepALease` | internal/engine/engine.go:1044-1063 | over every run a revision behind the pending one has a lease that was not given back exactly when no call took its place while it had none, and none gave its only lease back after its place was taken |
| `TurnKept.BusyCanBePassedOver` | internal/engine/engine.go:1050-1061 | a busy claim, a follow-up and the next claim, and the first revision has no lease that was kept |
| `Claims.SelectTurn` | internal/engine/engine.go:886-931 | the loop returns the first candidate, run lane first and then by id, that is not busy, halted, refused or tree-capped, and nothing only when there is none |
| `Claims.LeaseNextTx` | internal/engine/engine.go:850-990 | a granted claim met the scope, lane, budget, order and cap checks, by the policy the call began with and the one read in the transaction, and leases exactly that turn; otherwise nothing changes and the key has no project, the project is full, or nobody is eligible |
| `ClaimToken.FindReplay` | internal/engine/engine.go:1020-1042 | a token is answered with its live lease whenever it has one, and with none otherwise |
| `ClaimToken.ExpireDueTx` | internal/engine/engine.go:765-780 | the loop expires exactly the due leases among the rows the queries of the claim's keys and lanes found, each by the clock as read for it |
| `ClaimToken.ClaimTx` | internal/engine/engine.go:802-990 | the whole claim: the same lease again exactly for a token with a live one; refused without a change when paused, without a usable key or lane, or when the budget is out and nothing is queued; otherwise found due leases expire and the next turn is leased or nothing can be |
| `Stamps.StoredOrderExactly` | internal/store/store.go:100-103 | for all times: the text of one is not after the text of another exactly when it is not later and not the other with its fraction cut short, or is later and the other is it cut short |
| `ClaimToken.SweepMissesExactly` | internal/store/store.go:100-122 | a lease due at its query survives the sweep exactly when the query finds neither limit, which happens only within the second the limit passed; a lease not yet due survives unchanged |
| `ClaimToken.DueCanBeMissed` | internal/store/store.go:100-103 | a lease that expires on a full second is due but not found for the rest of that second |
| `ClaimSteps.RunTurnsInv` | internal/engine/engine.go:798-1063 | in every run of the plane every turn keeps its invariant |
| `ClaimSteps.ClaimRunsOn` | internal/engine/engine.go:802-990 | a claim on a plane that a run reached leaves a plane that the run goes on to by the claim's expiries and its lease, and by no other step |
| `ClaimSteps.ClaimOnPlane` | internal/engine/engine.go:802-990 | on every plane a run reached a claim keeps counts, charges, tokens and turns right whatever it answers, keeps caps and limits if reloads only add, and a repeated lease is one granted to that token |
| `LeaseCaps.GrantCountsInProject` | internal/store/leases.go:64-83 | a grant adds one lease to exactly the projects that count the session |
| `LeaseCaps.GrantCountsInTree` | internal/store/leases.go:45-58 | a grant adds one lease to exactly the session's own tree |
| `LeaseCaps.GrantPassesCapExactly` | internal/engine/engine.go:942-950 | a claim granted for a project passes the cap of another one exactly when the leased session belongs to that one and it was full; its own it never passes |
| `LeaseCaps.GrantKeepsTree` | internal/engine/engine.go:918-928 | a granted claim lets a session tree grow by one at most, and only up to the cap of its root's project in the policy the call began with |
| `LeaseCaps.CreatedIsScoped` | internal/policy/policy.go:289-292 | every way to open a session puts it on a key of its own project, because a repository is bound to one project |
| `LeaseCaps.ChargeFits` | internal/engine/engine.go:824-838 | the charge stays within the limit of the policy the call began with although the day is read again after the check |
| `ClaimRuns.GiveBackRefunds` | internal/engine/engine.go:1044-1063 | a busy requeue finds its count, takes back the charge of its own lease once, and keeps every count exact |
| `LeaseCaps.CapsAndLimitsHold` | internal/engine/engine.go:798-1063 | in every run whose reloads only add projects, repositories, caps and limits, also between the two reads of a claim, and so in every run under one policy, each project and each session tree is within its cap and each daily count within its limit |
| `LeaseCaps.RebindingPassesCap` | internal/engine/engine.go:132-140 | a run of five steps in which a rebinding reload and a claim for the new project take the old one past its cap |
| `ClaimRuns.CountsAreExact` | internal/engine/engine.go:798-1063 | in every run, whatever policies are loaded, each daily count is the number of review leases charged to it and not given back, and what the ledger, grants and sessions say agrees with the turns |
| `ClaimRuns.ReplayIsTheGrant` | internal/engine/engine.go:1020-1042 | a repeated claim token is answered only with a live lease granted to that token |
| `EnvOperations.Interleavings` | internal/engine/environment.go:424-447 | every interleaving keeps one holder per marker, one open transaction, and what a claim found free not held by a committed stop |
| `EnvOperations.KillIsolation` | internal/engine/cancel.go:44-104 | a lease granted after the commit of a cancel or halt holding its environment is granted after that stop released it; all its kills there came before, each with its service restart |
| `EnvOperations.KillsHitOldLeases` | internal/engine/halt.go:60-137 | a guest kill only ever follows leases granted before its stop committed |
| `Refresh.Requests.EnsureQueued` | internal/store/store.go:513-534 | a request leaves the row queued, its force flag kept and its owner in place, and flags another fetch while one runs |
| `Refresh.Requests.Take` | internal/engine/engine.go:473-513 | some due row is owned under a new generation, or none is due |
| `Refresh.Requests.Close` | internal/engine/engine.go:521-569 | only the owning generation changes the row and it gives up ownership; the row rests only when no other fetch is flagged or as ineligible, and fails only after a failed fetch |
| `Refresh.Requests.ExpireOwners` | internal/engine/engine.go:410-458 | the loop expires every dead owner and touches no other row |
| `Refresh.DueExactly` | internal/engine/engine.go:479-480 | a waiting row is found exactly when its time has come and is not the query's time cut short, or is to come and cut short is the query's time |
| `RefreshRuns.RestExactly` | internal/engine/engine.go:521-569 | a step leaves a row at rest with an unfetched event exactly when an ineligible requested review closes it after a later event |
| `RefreshRuns.FlagShutsOut` | internal/engine/engine.go:541-546 | that cannot happen while no other fetch is flagged |
| `RefreshRuns.NoLostWakeup` | internal/engine/engine.go:410-583 | in runs without such a close an idle row has been closed by a fetch begun after its last event |
| `RefreshRuns.BackgroundCoversEveryEvent` | internal/engine/engine.go:467-583 | on the background path the admission ran, with whatever result, on a fetch begun after the last event of every idle row |
| `RefreshRuns.WakeupCanBeLost` | internal/engine/engine.go:541-546 | a run that rests with an unfetched event |
| `RefreshRuns.LateFetchCommitsNothing` | internal/engine/engine.go:521-528 | a fetch that lost ownership never regains it and changes nothing however late it returns |
| `RefreshRuns.ClosesOnce` | internal/engine/engine.go:521-528 | each fetch closes the row at most once |
| `RefreshRuns.RetriesAreForLife` | internal/engine/engine.go:529-540 | the count is never reset: after every failure the row is failed exactly when its whole life saw five, and queued otherwise |
| `RefreshRuns.ForceExactly` | internal/engine/engine.go:541-569 | a step forgets a forced request that no admission has seen exactly when it closes the row as ineligible |
| `RefreshRuns.ForceReachesAdmission` | internal/engine/engine.go:467-583 | on the background path a forced request reaches an admission told to force before the row rests |
| `ItemRuns.RestExactly` | internal/engine/engine.go:515-569 | a step lets the row rest, every edit reported, on other content than the item's exactly when it closes a requested review as ineligible with content a reported edit has replaced |
| `ItemRuns.RestShowsTheItem` | internal/engine/engine.go:467-692 | in every run of edits, events, fetches, admissions and prompts without such a close: at rest with every edit reported the last admission was given the item as it is, and unless the gates or the budget stopped it that content is a revision with only prompts after it |
| `ItemRuns.BackgroundShowsTheItem` | internal/engine/engine.go:467-692 | on the background path that holds in every run, and only the gates can stop an admission |
| `ItemRuns.OldContentCanRest` | internal/engine/engine.go:541-546 | a run that rests on replaced content |
| `Admission.AdmitTx` | internal/engine/engine.go:587-692 | the answer of every admission, case by case; a revision is made exactly when the item is considered, its content is not already pending or settled or an invalidation is open, and the budget allows; the record then changes as stated and otherwise not at all |
| `Admission.RevisionsAreEarned` | internal/engine/engine.go:627-692 | over any run of fetches, invalidations and prompts: a fetched revision that equals the one before it was forced, and forced revisions are no more than the invalidations raised |
| `Admission.RefetchIsQuiet` | internal/engine/engine.go:634-643 | after a fetch made a revision, and whatever happened since that brought no other content, fetching it again makes one exactly when it was asked for, an invalidation is open and the gates pass |
| `Admission.UnchangedItemExactly` | internal/engine/engine.go:634-643 | unasked, the last fetched content becomes a revision again exactly when the gates pass and a prompt with another snapshot is pending |
| `Admission.PromptRenewsUnchangedItem` | internal/engine/followup.go:373-396 | a fetch, a prompt, and the unchanged item is a new revision with no invalidation raised |
| `Frames.DataFrames` | internal/env/link.go:51-57 | the split frames carry exactly the bytes read, none longer than a chunk |
| `Frames.Feed` | internal/env/link.go:56-57 | the guest's loop takes exactly the complete frames off the front of buffer and chunk |
| `Frames.ReadFrames` | internal/env/link.go:205-221 | the host's loop reads whole frames and stops on a clean end, a cut or a long frame |
| `Frames.ParseWire` | internal/env/link.go:182-192 | parsing encoded frames followed by anything gives the frames and parses the rest |
| `Frames.WireOfParse` | internal/env/link.go:51-57 | encoding the parsed frames and appending the rest gives back the buffer |
| `Frames.ChunksDoNotMatter` | internal/env/link.go:56-57 | the guest parses any split of a byte stream as it parses the whole |
| `Frames.GuestRoundTrip` | internal/env/link.go:182-192 | however what was sent is cut, the guest sees the frames sent and keeps nothing back |
| `Frames.HostRoundTrip` | internal/env/link.go:205-221 | the host reads back exactly the frames before the first longer than 32 KiB and ends cleanly exactly when there is none |
| `Frames.HostAgreesWithGuest` | internal/env/link.go:205-221 | on every byte stream both ends see the same frames up to the first long one |
| `Link.HostLink.Send` | internal/env/link.go:252-255 | a send happens only on an open channel with room |
| `Link.HostLink.Close` | internal/env/link.go:271-278 | a close happens only on an open channel |
| `Link.HostLink.Forward` | internal/env/link.go:154-180 | a forward adds a stream under the next even id, or refuses when closed or full |
| `Link.HostLink.OpenFromGuest` | internal/env/link.go:229-248 | a guest stream needs a known target and a larger odd id, and room |
| `Link.HostLink.Deliver` | internal/env/link.go:249-267 | a frame is queued, dropped without a stream, or resets a stream that cannot keep up |
| `Link.HostLink.Drop` | internal/env/link.go:271-278 | dropping closes the stream of that id if there is one |
| `Link.HostLink.EndRead` | internal/env/link.go:194-204 | the end of the reader closes every stream once and empties the table |
| `Link.CloseStreams` | internal/env/link.go:195-203 | the loop closes exactly the channels of the table |
| `Link.ForwardKeepsExactly` | internal/env/link.go:167-170 | a forward keeps "open exactly while in the table" exactly when its id is not in use |
| `LinkRuns.LinkIsSafe` | internal/env/link.go:154-329 | in every run: channels are open exactly while in the table, none is sent on or closed after closing, host ids are even and guest ids odd and never reused, at most 64 streams of at most 16 frames |
| `LinkRuns.ConnectionsGetAPrefix` | internal/env/link.go:312-329 | a connection gets a prefix of the data frames accepted for its stream, in order |
| `LinkRuns.ClosedForGood` | internal/env/link.go:271-278 | a closed channel stays closed and accepts nothing more |
| `LinkRuns.DropHitsOnlyItself` | internal/env/link.go:280-310 | a goroutine that drops its stream late touches no other stream |
| `LinkRuns.WrappedCounterOverwrites` | internal/env/link.go:167-170 | a run of forwards and drops after which one more forward takes a live stream out of the table with its channel still open |
| `Shell.MatchParen` | internal/acp/fence.go:182-196 | the loop finds the parenthesis the specification finds, in bounds |
| `Shell.StepDouble` | internal/acp/fence.go:140-163 | one round inside double quotes: escapes, substitutions, backquotes, plain characters |
| `Shell.LexSingle` | internal/acp/fence.go:133-137 | the single-quote loop reads on as the lexer does |
| `Shell.LexDouble` | internal/acp/fence.go:138-163 | the double-quote loop reads on as the lexer does |
| `Shell.LexCommands` | internal/acp/fence.go:104-178 | the nested loops stay in bounds, end, and compute the lexer's commands on every line |
| `ShellQuoting.EndsWhereBalanced` | internal/acp/fence.go:180-196 | a substitution ends exactly where its parentheses first balance |
| `ShellQuoting.ReadQuoted` | internal/acp/fence.go:133-137 | reading a quoted word adds exactly that word |
| `ShellQuoting.QuotingRoundTrip` | internal/acp/fence.go:104-178 | quoting the words, joining by spaces and semicolons and lexing gives back the non-empty commands |
| `ShellSequences.SequenceOfLines` | internal/acp/fence.go:104-178 | with nothing open at the end of a, lexing a;b is lexing a and then b |
| `ShellSequences.SequencesExactly` | internal/acp/fence.go:104-178 | lexing distributes over a; for every continuation exactly when no quote, escape or substitution is open at the end of a |
| `Gates.SkipGitGlobals` | internal/acp/fence.go:287-301 | the loop drops exactly git's global options |
| `Gates.FindInOrder` | internal/acp/rules.go:123-133 | the loop decides the greedy in-order match |
| `Gates.Allows` | internal/acp/rules.go:47-61 | allowed exactly by a matching rule without a command or by a prefix for every command |
| `GateLaws.FenceOfSequence` | internal/acp/fence.go:51-61 | the fence holds for a;b exactly when for a or for b |
| `GateLaws.AllowanceOfSequence` | internal/acp/rules.go:87-103 | two lines with commands are allowed exactly when both are |
| `GateLaws.DecisionOfSequence` | internal/acp/rules.go:28-61 | a sequence is rejected exactly when either line is, and allowed exactly when both are |
| `GateLaws.FenceDeepens` | internal/acp/fence.go:51-99 | deeper nesting never lifts the fence |
| `GateLaws.WrapperIsTransparent` | internal/acp/fence.go:63-76 | a line in a shell wrapper is fenced exactly when it is fenced one level deeper |
| `GateLaws.WrappersAreTransparent` | internal/acp/fence.go:51-76 | n wrappers are fenced exactly when the line is fenced n levels deeper, so always beyond four |
| `GateLaws.WrappingNeverHelps` | internal/acp/fence.go:51-76 | a fenced line stays fenced in any number of wrappers |
| `GateLaws.LeadingWordsDoNotHide` | internal/acp/fence.go:65-99 | no words in front of a fenced command hide it |
| `GateLaws.GlobalsDoNotHide` | internal/acp/fence.go:198-218 | a git global option with a value changes the verdict exactly when it defines an alias |
| `GateLaws.PushIsFencedExactly` | internal/acp/fence.go:254-278 | a push of a source without a sign to a destination is fenced exactly when the source is empty or the destination is main or master, bare or under refs/heads/ |
| `GateLaws.PushWithSign` | internal/acp/fence.go:254-278 | a source with a plus is always fenced, one with a dash exactly when it begins as the force option |
| `GateLaws.PushInArguments` | internal/acp/fence.go:254-278 | a push is fenced exactly when one of its arguments is, wherever it stands |
| `GateLaws.InOrderIsSubsequence` | internal/acp/rules.go:123-133 | the greedy match finds the words in order whenever they occur in order |
| `ModelCalls.AddCall` | internal/engine/model_receipt.go:189-202 | a call joins its entry, a new entry, or the others when the list is full |
| `ModelCalls.MergeStatus` | internal/engine/model_receipt.go:155-157 | statuses are added key by key in any order |
| `ModelCalls.Merge` | internal/engine/model_receipt.go:144-160 | a newer snapshot is merged into the aggregate |
| `ModelCalls.FindVictim` | internal/engine/model_receipt.go:70-77 | a finished or expired summary is found whenever there is one |
| `ModelCalls.Receipts.Reserve` | internal/engine/model_receipt.go:42-99 | a reservation is reused, carried to a newer lease, opened, or refused |
| `ModelCalls.Receipts.Record` | internal/engine/model_receipt.go:118-187 | the stored summary changes at most once per generation and then by exactly the live count |
| `ModelCallRuns.AccountsBalance` | internal/engine/model_receipt.go:42-202 | in every run each live or stored total is the sum of its statuses, is its listed calls plus the others, and is the number of distinct responses behind it, with at most 256 turns and 64 calls |
| `ModelCallRuns.CarryIsNeverDropped` | internal/engine/model_receipt.go:55-95 | a newer lease always takes over the counts of an unfinished one |
| `ModelCallRuns.RecordingTwiceIsOnce` | internal/engine/model_receipt.go:145-151 | recording a turn again adds nothing |
| `Drafts.CoreClient.CreateBranch` | internal/core/fake.go:38-66 | a known key is answered with its first answer, no existing branch is touched, and whatever is created is found again under its key |
| `Drafts.CoreClient.ApplyEdit` | internal/core/fake.go:80-112 | a known key changes nothing, a new one adds at most its own edit, and the answer is good exactly for the head the key was first used with |
| `Drafts.EditedAtMostOnce` | internal/engine/draft.go:254-311 | over any interleaving of stopped and repeated attempts all requests for a proposal are equal and the core commits each key once |
| `Drafts.FirstPinWins` | internal/engine/draft.go:315-362 | however the look, the insert and the second look of several planes interleave, every request carries the first head pinned for its proposal |
| `Drafts.ProposedAsLinted` | internal/engine/draft.go:283-301 | a proposal is made only for the head its own edit committed, after lint reported on that head |
| `FollowRead.FollowReader.Handle` | cmd/rusui/read_follow.go:186-235 | the cursor never falls, at most one line is printed, and an entry is printed exactly when it is above the cursor |
| `FollowRead.FollowReader.Once` | cmd/rusui/read_follow.go:149-184 | the line loop of one connection, the dispatch at the end of the stream included |
| `FollowRead.FollowReader.Follow` | cmd/rusui/read_follow.go:75-109 | the reconnect loop and its exit code |
| `FollowReadRuns.CutReadsAPrefix` | cmd/rusui/read_follow.go:152-183 | wherever a connection is cut, exactly a prefix of the messages sent is handled |
| `FollowReadRuns.PrintsAPrefix` | cmd/rusui/read_follow.go:113-208 | over any cut and resumed connections the entries printed are a gap-free prefix of the log, none twice |
| `FollowReadRuns.ReconnectsDoNotEcho` | cmd/rusui/read_follow.go:193-218 | over any connections the header is printed once and no state line repeats the one before |
| `KeyedLocks.OneLockPerKey` | internal/engine/engine.go:1393-1421 | in every run processes on one key share one mutex and at most one holds it |
| `KeyedLocks.EntryWhileUsed` | internal/engine/write.go:159-181 | an entry exists exactly while some process is on its key |

## Left out

- `LeaseCaps.CapsAndLimitsHold`: for reloads that only add and a clock that does not go back; `LeaseCaps.RebindingPassesCap` shows why the first is needed.
- `Engine.EnqueuePromptTx`: the attachments of a prompt and the refusal to reactivate a child are not modelled.
- `Engine.HeartbeatTx`: the renewal of the turn's credential and grant is not modelled.
- `Engine.Engine.Heartbeat`: as `Engine.HeartbeatTx`.
- `Engine.CompleteTx`: whether the artifact is valid is a parameter, and the actions it records are not modelled.
- `Engine.Engine.Complete`: as `Engine.CompleteTx`.
- `Engine.PromptSteerTx`: the refusals of prompts for paused, archived, expired or local sessions and attachments are not modelled.
- `Engine.Engine.PromptFollowUp`: as `Engine.PromptSteerTx`.
- `Engine.Engine.PromptSteer`: as `Engine.PromptSteerTx`.
- `Engine.Engine.RequeueBusy`: the refund of the daily count is `ClaimRuns.GiveBackRefunds`.
- `TurnWork.PromptRevisionsRun`: a lease counts even when it is given back at once; `TurnKept.RevisionsKeepALease` is about the leases that are kept.
- `ClaimToken.ClaimTx`: guest binding, requested secrets and measurements are not modelled; a candidate they refuse is a parameter, and so is the pause, which is decided by a third read of the policy.
- `Stamps.StoredOrderExactly`: the text down to the second, which has a fixed width and sorts as the time does for years of four digits, is compared as a number.
- `TurnPrompts.PromptsAreConserved`: for sessions that are kept; the deletion of a session whose retention has expired blanks its stored prompts (internal/store/retention.go:132-137) and is not among the steps.
- `TurnPrompts.SteersAreConserved`: as `TurnPrompts.PromptsAreConserved`.
- `LinkRuns.LinkIsSafe`: for runs in which the host's 32-bit id counter has not wrapped.
- `ModelCallRuns.AccountsBalance`: counts are unbounded; 64-bit wrap-around of counters is not modelled.
- `Drafts.EditedAtMostOnce`: the head an edit produces is a parameter where the in-memory core uses a constant.
- `RefreshRuns.BackgroundCoversEveryEvent`: an admission that returned without a revision counts as one that ran; `ItemRuns.BackgroundShowsTheItem` says what it saw.
- `FollowReadRuns.PrintsAPrefix`: lines are values; the text of an event, its JSON and several data lines in one event are not decoded.
- `GateLaws.FenceOfSequence`: lower-casing covers ASCII letters only.
- Order of release of several environments by a halt: any order.
- Restore of a database, which requeues leased turns.
- Apply attempts, live comments, publication, task and schedule records.
- SQL text, JSON encodings, hashing, random ids, HTTP clients, drivers, policy parsing, rendering.
