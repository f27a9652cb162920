# OneKaleidoscope, modelled and proved in Dafny

OneKaleidoscope turns the traffic of coding agents (Codex, Claude Code, OpenCode) into one canonical stream
of state effects, and guards that decoding with schema tooling. This project models the parts whose
correctness is hard to see from the code and proves what they promise, for every input and every run.

- **Codex reducer** (`Codex*`, `Capability`, `Canonical`). The reducer is a step function on a state value
  and an object that refines it. Runs are arbitrary sequences of frames, registrations, cancellations and
  lifecycle calls; rejected frames, which may have changed part of the state already, are included. What the
  state holds is also read off the inputs alone (`CodexHistory`, `CodexAnswers`, `CodexText`).
- **Claude reducer** (`Claude*`). The part that makes, publishes and revokes live claims, in the same style.
- **Required surface** (`Json*`, `CanonicalJson`, `ReferenceClosure`, `Surface*`). The
  reference closure, the structural diff, pointer ownership and the canonical text that is hashed, tied
  together by one theorem: the comparison and the digest agree.
- **Fixture verifier** (`Schema*`, `Trace`). The offline JSON Schema evaluator against a boolean meaning, when it
  answers and what it blames, and request/response matching over recorded traces.
- **Restricted TOML** (`Toml*`). The reader between a grammar it reads in every layout and one it never goes
  beyond, and what the statements mean; and **wildcards** (`Glob`).
- **Small stateful pieces** (`Subset`, `HandOff`, `History`). `Lasting` says what holds because something happened
  and nothing has ended it.

Conventions. Code that updates fields or runs loops is a class or a method with loops, proved equal to a
specification function; the theorems are about those functions. Minted identifiers and digests are injective
wrappers around what they are derived from. Sorted maps and sets are visited in the order of `StringOrder`.

What the theorems found. Some promises hold only on part of the inputs, and for each the part is stated as an
if-and-only-if on what is known before the call, with a failing input beside it.

- Joins (`CodexCollision`). Correlation keys are glued with `|`, so two scopes can share one. Every step of a run
  keeps the join protocol exactly if each approval that is filed fits the entry stored under its key; approvals
  without `|` always do.
- Live claims (`ClaudeExact`). A Claude session is stored live without evidence exactly if an authentication
  failure in a frame that was then rejected revoked the evidence of a live session, and every input since was
  rejected or did nothing. After an accepted input, evidence goes unclaimed exactly if a session that went offline
  gets back the very list published before. What the stream shows live is proven after every accepted input
  exactly if no resume is prepared while it shows a session live (`ClaudeLive`).
- Approvals in the stream (`CodexLag`). The last upsert of an approval differs from what is stored exactly from a
  step that refreshes it silently, being answered locally and still waiting, until the next upsert of it.
- Item numbers (`CodexSequence`). They are distinct exactly until a further item is stored after the number
  2^64 - 1.
- The introduction (`CodexLifecycle`). The host is to be shown before anything else; it is shown exactly if the
  first frame is accepted, and never otherwise.
- TOML strings (`TomlAccepts`). What the reader accepts is what the grammar writes, except that a string value or a
  quoted segment may hold quotes without a backslash.
- Wildcards and references (`Glob`, `Subset`). The wildcard loops are right about a candidate under every pattern
  exactly if no `*` comes before its last byte, and about a pattern on every candidate exactly if it has no `*`.
  A rewritten schema reference resolves exactly if its name has no `/` and no `~0` or `~1`.

## Model

| member | source | states |
|---|---|---|
| `CodexJoin.JoinProtocol` | crates/kaleido-adapter-codex/src/reduce.rs:1300-1532 | On every run whose approvals fit the entries under their keys: an approval shown as joined names a bound item of exactly its own session and turn, one shown as mismatched names a bound item of another scope, a waiting one has no stored item, and while nothing was rejected no bound one either |
| `CodexJoin.SettledJoinsAreFinal` | crates/kaleido-adapter-codex/src/reduce.rs:1490-1532 | A joined or mismatched approval keeps that answer through any continuation of the run, re-sent requests, replies and closings included |
| `CodexJoin.RunKeepsJoins` | crates/kaleido-adapter-codex/src/reduce.rs:372-413 | After every such run every stored join is true of the bindings and the raw-item index reaches every stored approval and lists nothing else; bound items are stored while nothing was rejected |
| `CodexJoin.StepAdvances` | crates/kaleido-adapter-codex/src/reduce.rs:475-510 | Each frame or call that files no unfitting approval, accepted or rejected, keeps the join invariant, only extends bindings and changes no settled join |
| `CodexJoin.ItemArrives` | crates/kaleido-adapter-codex/src/reduce.rs:1490-1532 | When an item is bound and stored, every approval filed under it gets a true join and no other approval is disturbed |
| `CodexJoin.ApprovalArrives` | crates/kaleido-adapter-codex/src/reduce.rs:1325-1375 | Filing an approval keeps all joins true and the index complete if it takes over at most an entry of the same item whose settled join it repeats |
| `CodexJoin.ResentApprovalAgrees` | crates/kaleido-adapter-codex/src/reduce.rs:1468-1488 | Because bindings are write-once, an approval sent again for the same scope gets the answer it already had once that was settled |
| `CodexJoin.SameScopeFits` | crates/kaleido-adapter-codex/src/reduce.rs:1468-1488 | An approval sent again for its own scope always fits what is stored |
| `CodexJoin.FinishAdvances` | crates/kaleido-adapter-codex/src/reduce.rs:516-549 | Closing the observation window leaves no approval waiting and changes no settled join |
| `CodexJoin.ClosingKeepsJoins` | crates/kaleido-adapter-codex/src/reduce.rs:516-549 | Closing turns exactly the deferred joins into a structured failure |
| `CodexCollision.RunAdvancesIff` | crates/kaleido-adapter-codex/src/reduce.rs:1300-1532 | Every run: all its steps keep the join protocol exactly if every approval it files fits what is stored under its key: the same item, and no settled join revised |
| `CodexCollision.StepAdvancesIff` | crates/kaleido-adapter-codex/src/reduce.rs:475-510 | The same for one frame or call, from the state before it |
| `CodexCollision.FilingAdvancesIff` | crates/kaleido-adapter-codex/src/reduce.rs:1325-1375 | Filing keeps the index and all settled joins exactly if the approval fits the entry it takes over |
| `CodexCollision.BarFreeRunsAreClashFree` | crates/kaleido-adapter-codex/src/reduce.rs:1330-1333 | If no approval of a run carries a bar in its thread, turn or item, every approval fits, so the join protocol holds |
| `CodexCollision.KeyDetermines` | crates/kaleido-adapter-codex/src/reduce.rs:1330-1330 | A correlation key built from identifiers without bars determines thread, turn and item, even against identifiers that have bars |
| `CodexCollision.ClashBreaksTheInvariant` | crates/kaleido-adapter-codex/src/reduce.rs:1367-1372 | An approval that takes over the entry of another item always leaves the raw-item index wrong, whether or not its own item is bound |
| `CodexCollision.CollisionMisleads` | crates/kaleido-adapter-codex/src/reduce.rs:1300-1532 | After two colliding approvals the first one's item makes the stored approval claim a scope mismatch for an item that was never seen |
| `CodexCollision.KeysCollide` | crates/kaleido-adapter-codex/src/reduce.rs:1330-1330 | A concrete pair of scopes with different turns and items and the same key |
| `CodexCollision.OtherItemRun` | crates/kaleido-adapter-codex/src/reduce.rs:1300-1532 | A run of five frames after which a stored approval claims a mismatch with an item that never arrived |
| `CodexCollision.SameItemRun` | crates/kaleido-adapter-codex/src/reduce.rs:1300-1532 | A run in which a joined approval turns into a mismatched one because a request of another scope shares its key and its item |
| `CodexMirror.StreamMirrorsState` | crates/kaleido-adapter-codex/src/reduce.rs:372-413 | On every run the last upsert of each item in the stream is the stored item and nothing else was upserted; likewise for approvals, whose join and summary alone may lag once a local command answered them |
| `CodexLag.LagIff` | crates/kaleido-adapter-codex/src/reduce.rs:516-549 | Every run: the last upsert of an approval differs from the stored approval exactly if some step refreshed it silently and nothing has been said of it since |
| `CodexLag.StepLags` | crates/kaleido-adapter-codex/src/reduce.rs:1490-1532 | A silent refresh starts a lag, an upsert ends it, any other step keeps it as it is |
| `CodexLag.ClosedAnswerLags` | crates/kaleido-adapter-codex/src/reduce.rs:516-549 | A run that lags: an approval is asked, answered by a local command, and the window closes on it |
| `CodexMirror.StepMirrors` | crates/kaleido-adapter-codex/src/reduce.rs:475-510 | A step refreshes silently exactly the locally answered approvals that wait and whose raw item it stores or whose window it closes, as the state before it shows; everything else it stores is what its effects say last |
| `CodexSequence.ItemsNumberedDistinctly` | crates/kaleido-adapter-codex/src/reduce.rs:1064-1100 | Every run: distinct stored items carry distinct sequence numbers exactly if no further item is stored once the number 2^64 - 1 has been given out |
| `CodexSequence.ShortRunsAreDistinct` | crates/kaleido-adapter-codex/src/reduce.rs:1064-1100 | So numbers are distinct on every run of at most 2^64 - 1 inputs |
| `CodexSequence.StepStores` | crates/kaleido-adapter-codex/src/reduce.rs:1018-1102 | Which inputs store a further item shows in the state before them |
| `CodexSequence.LongRunRepeatsANumber` | crates/kaleido-adapter-codex/src/reduce.rs:1064-1100 | A run of 2^64 + 1 items whose last two carry the same number |
| `CodexSequence.ItemNumbersAreFinal` | crates/kaleido-adapter-codex/src/reduce.rs:1064-1100 | No continuation drops, renumbers or re-dates a stored item |
| `CodexControl.ControlEvidence` | crates/kaleido-adapter-codex/src/reduce.rs:563-682 | Wherever a run shows a session live, traffic is live and the latest capability update before it supports exactly that binding; wherever it shows one controlled, a registered command, the turn of that same session that carried it and the runtime's acknowledgement for that session come before, in that order |
| `CodexControl.RunWatched` | crates/kaleido-adapter-codex/src/reduce.rs:372-413 | A monitor that reads only the stream and the registrations never objects to any run |
| `CodexControl.MonitorSaw` | crates/kaleido-adapter-codex/src/reduce.rs:610-682 | What the monitor counts as registered, carried and acknowledged, and for which session, occurs in the log in that order |
| `CodexControl.VerdictMeansEvidenced` | crates/kaleido-adapter-codex/src/reduce.rs:785-797 | The monitor's consent implies the evidence each live session needs |
| `CodexResponse.ResponseAnswersTheCommand` | crates/kaleido-adapter-codex/src/reduce.rs:563-682 | At every point of every run, the response to a started turn that carries a registered command acknowledges it as rejected, showing no turn, if it is an error; otherwise, if it decodes and the session is live here, it shows the turn with that command as origin, then acknowledges it as accepted, and leaves the session controlled; without a command it shows the turn and acknowledges nothing |
| `CodexResponse.AcknowledgedIsAnswered` | crates/kaleido-adapter-codex/src/reduce.rs:563-682 | Whatever a run acknowledges is the command registered for the started turn being answered |
| `CodexHistory.CallsAreOpen` | crates/kaleido-adapter-codex/src/reduce.rs:475-510 | Every run: the open client calls are exactly those the inputs show without a response, each with its method |
| `CodexHistory.OrdersAreOpen` | crates/kaleido-adapter-codex/src/reduce.rs:255-276 | Every run: a call carries a command exactly if it was registered for it and neither cancelled nor answered since |
| `CodexHistory.RegistrationGrantedIff` | crates/kaleido-adapter-codex/src/reduce.rs:255-269 | A command is registered exactly if traffic is live and neither it nor its request id is in use |
| `CodexHistory.ApprovalsAreOpen` | crates/kaleido-adapter-codex/src/reduce.rs:1300-1454 | Every run: the open approval requests are exactly the accepted ones without a reply or a later request under their id |
| `CodexHistory.AnswersAreOpen` | crates/kaleido-adapter-codex/src/reduce.rs:218-244 | Every run: an answer is registered exactly if it was accepted and neither withdrawn nor used up by a decision on its approval |
| `CodexHistory.AnswerGrantedIff` | crates/kaleido-adapter-codex/src/reduce.rs:218-239 | An answer is registered exactly if it is not empty, its approval is open and has none yet |
| `CodexAnswers.AnsweredExactly` | crates/kaleido-adapter-codex/src/reduce.rs:1395-1454 | Every run: an approval stands as answered exactly if an accepted reply to it decided so and it has neither been asked nor decided again; the option is that of the reply and the source the command registered for it at that time, or the traffic observed |
| `CodexAnswers.DecisionAcceptedIff` | crates/kaleido-adapter-codex/src/reduce.rs:1395-1466 | A decision on an open approval is accepted exactly if it is the one registered for it, or none is and what was observed counts as evidence |
| `CodexText.TextIsWhatWasStreamed` | crates/kaleido-adapter-codex/src/reduce.rs:1232-1296 | Every run: until it is shown as a whole again, the text of an agent message is what it was followed by its accepted fragments, in order |
| `CodexText.ShownText` | crates/kaleido-adapter-codex/src/reduce.rs:1104-1162 | A completed message has the text of the notice; one shown as started keeps what was streamed |
| `CodexDiagnostics.DiagnosticsCount` | crates/kaleido-adapter-codex/src/reduce.rs:1581-1617 | Every run: a stored diagnostic is the last one reported of its kind and counts how many were, up to 2^64 - 1 |
| `CodexEvidence.ProvenExactly` | crates/kaleido-adapter-codex/src/reduce.rs:610-797 | Every run: a capability is proven exactly if an accepted input was evidence for it: the answer to a started thread for prompting, tool lifecycle and, in live traffic, observing; a request for approval; the error-free answer to a started turn that carries a command for control; no other capability ever is |
| `CodexNotices.NoticeShowsTheTurn` | crates/kaleido-adapter-codex/src/reduce.rs:926-1014 | At every point of every run, a turn notice shows exactly that turn, with the status of its label, its times in milliseconds and the origin it had, and marks it current while it is running |
| `CodexNotices.ThreadOpensASession` | crates/kaleido-adapter-codex/src/reduce.rs:684-770 | The response to a started thread opens its session, idle and observed exactly if traffic is live, and shows project and session |
| `CodexNotices.StatusIsShown` | crates/kaleido-adapter-codex/src/reduce.rs:889-924 | A status notice gives the session the status of its label and leaves its binding alone |
| `CodexLifecycle.IntroducedIff` | crates/kaleido-adapter-codex/src/reduce.rs:372-439 | Every run: an input shows the host exactly if it is the first frame and accepted |
| `CodexLifecycle.NeverIntroduced` | crates/kaleido-adapter-codex/src/reduce.rs:378-384 | A run that reports a diagnostic of a host it never shows |
| `CodexLifecycle.EndReportedIff` | crates/kaleido-adapter-codex/src/reduce.rs:278-350 | Every run: the end is reported exactly by the first call that announces it, with the session offline and unbound |
| `CodexRename.RenamingIsInvisible` | crates/kaleido-adapter-codex/src/reduce.rs:475-510 | Renaming client request ids by one injective map and server request ids by another, throughout a run, changes no effect, no error and no reply, even if the two spaces overlap |
| `CodexRename.StepRenames` | crates/kaleido-adapter-codex/src/reduce.rs:563-608 | One step commutes with renaming both id spaces |
| `CodexReducer.Replay` | crates/kaleido-adapter-codex/src/reduce.rs:358-369 | Feeding the object any run leaves it in the state, and gives the replies, that the run theorems speak about |
| `CodexReducer.Reducer.Handle` | crates/kaleido-adapter-codex/src/reduce.rs:207-350 | Every call on the object is one step of the specification |
| `CodexReducer.Reducer.Ingest` | crates/kaleido-adapter-codex/src/reduce.rs:372-413 | A frame is bootstrapped, dispatched and published in the specified order; a rejected frame keeps what it had already changed |
| `CodexReducer.Reducer.DispatchFrame` | crates/kaleido-adapter-codex/src/reduce.rs:475-510 | Direction, method and id select the reducer; the two id spaces are never mixed |
| `CodexReducer.Reducer.ApprovalRequestId` | crates/kaleido-adapter-codex/src/reduce.rs:207-213 | Finds the least open request id of an approval, and nothing exactly when there is none |
| `CodexReducer.Reducer.RegisterLocalAttentionAnswer` | crates/kaleido-adapter-codex/src/reduce.rs:218-239 | Registers one answer per open approval and refuses any other |
| `CodexReducer.Reducer.RegisterLocalTurnStart` | crates/kaleido-adapter-codex/src/reduce.rs:255-269 | Registers a command once, under one request id, and only for live traffic |
| `CodexReducer.Reducer.ClientResponse` | crates/kaleido-adapter-codex/src/reduce.rs:563-608 | A response consumes the client call it answers and is read as that call's result; what it then says is `CodexResponse.ResponseAnswersTheCommand` |
| `CodexReducer.Reducer.RuntimeAcceptanceEffects` | crates/kaleido-adapter-codex/src/reduce.rs:610-682 | Acknowledgement before promotion, and promotion only of a session bound here |
| `CodexReducer.Reducer.BootstrapSessionFrom` | crates/kaleido-adapter-codex/src/reduce.rs:684-770 | A session is bound, its capabilities published, and only then shown |
| `CodexReducer.Reducer.TurnTransition` | crates/kaleido-adapter-codex/src/reduce.rs:926-1014 | A turn notice updates the turn and, when it completes, closes the window |
| `CodexReducer.Reducer.ItemTransition` | crates/kaleido-adapter-codex/src/reduce.rs:1018-1102 | An item is bound before its body is decoded, stored only if it decodes, and then upgrades the joins waiting for it |
| `CodexReducer.Reducer.DeltaReceived` | crates/kaleido-adapter-codex/src/reduce.rs:1232-1296 | A delta extends the text of a known agent message and is otherwise a diagnostic |
| `CodexReducer.Reducer.FileApprovalRequest` | crates/kaleido-adapter-codex/src/reduce.rs:1325-1393 | An approval is stored, indexed under its raw item and opened under its request id |
| `CodexReducer.Reducer.ApprovalReply` | crates/kaleido-adapter-codex/src/reduce.rs:1395-1454 | A reply answers the approval it names and is attributed to the registered command if there is one |
| `CodexReducer.Reducer.UpgradeJoinsOf` | crates/kaleido-adapter-codex/src/reduce.rs:1490-1532 | The upgrade loop over the index, with silence for locally answered approvals |
| `CodexReducer.Reducer.CloseWindow` | crates/kaleido-adapter-codex/src/reduce.rs:516-549 | The closing loop over the deferred approvals |
| `CodexReducer.Reducer.AggregateDiagnostic` | crates/kaleido-adapter-codex/src/reduce.rs:1581-1617 | Diagnostics of one kind are counted together, with a saturating count |
| `CodexReducer.Reducer.ProcessExit` | crates/kaleido-adapter-codex/src/reduce.rs:278-325 | The end of the process is reported once, with the session taken offline |
| `CodexReducer.Reducer.Disconnected` | crates/kaleido-adapter-codex/src/reduce.rs:328-350 | A clean end is reported once, with the session taken offline |
| `CodexBindings.BindingStore.BindSession` | crates/kaleido-adapter-codex/src/bindings.rs:33-48 | Write-once: a known raw session keeps its binding, nothing else is rebound, and identifiers stay those minted from their raw keys |
| `CodexBindings.BindingStore.BindTurn` | crates/kaleido-adapter-codex/src/bindings.rs:54-71 | Write-once: a known raw turn keeps its binding, whatever session it is bound for later |
| `CodexBindings.BindingStore.BindItem` | crates/kaleido-adapter-codex/src/bindings.rs:73-90 | Write-once: a known raw item keeps the session and turn it was first bound to |
| `CodexBindings.BindingStore.BindInteraction` | crates/kaleido-adapter-codex/src/bindings.rs:96-111 | Write-once: a known correlation key keeps its attention id |
| `Capability.RenderedPermits` | crates/kaleido-adapter/src/capability.rs:142-181 | A rendered capability permits use exactly when it is proven and not overridden |
| `Capability.CapabilityProbe.Prove` | crates/kaleido-adapter/src/capability.rs:69-75 | Proof is recorded once, after what was proven before, lifts an override and makes the capability usable |
| `Capability.CapabilityProbe.MarkConnectionUnavailable` | crates/kaleido-adapter/src/capability.rs:79-90 | All evidence is dropped and every capability overridden, so none is usable |
| `Capability.CapabilityProbe.ResetConnection` | crates/kaleido-adapter/src/capability.rs:92-96 | All evidence and overrides are dropped; the clock never goes back |
| `Capability.CapabilityProbe.ObserveRuntimeAcceptance` | crates/kaleido-adapter/src/capability.rs:107-120 | Control is proven exactly by an acknowledgement minted for this runtime and seen in live traffic |
| `ClaudeExact.UnbackedIff` | crates/kaleido-adapter-claude/src/reduce.rs:305-444 | Every run: a session is stored Observing or Controlling without evidence exactly if some input was an authentication failure of a live session in a frame then rejected, and every input since was rejected or did nothing |
| `ClaudeExact.ClaimsAreBacked` | crates/kaleido-adapter-claude/src/reduce.rs:305-444 | On every run and for whatever input comes next, the state before it decides whether the stored claim is backed afterwards: a revoking frame leaves it backed only if nothing is live, any other rejected or idle input leaves it as it was, and every other input leaves it backed |
| `ClaudeExact.StepBackedIff` | crates/kaleido-adapter-claude/src/reduce.rs:1533-1551 | The same for one step from any state whose claim is covered by the published list |
| `ClaudeExact.RejectsIff` | crates/kaleido-adapter-claude/src/reduce.rs:305-328 | Which inputs are rejected, from the state before them |
| `ClaudeExact.ClaimIsExactIff` | crates/kaleido-adapter-claude/src/reduce.rs:219-239 | On every run, after an input that does something, the stored claim says exactly what the evidence supports unless it had fallen behind and the input brings back the published list; it falls behind exactly by going offline while the published list says live |
| `ClaudeExact.EvidenceCanGoUnnoticed` | crates/kaleido-adapter-claude/src/reduce.rs:322-325 | A run after which live observation is proven again and the session is still shown offline |
| `ClaudeEvidence.ProvenExactly` | crates/kaleido-adapter-claude/src/reduce.rs:305-1590 | Every run: a capability is proven exactly if some input was evidence for it, whether or not its frame was then rejected, and no authentication failure, end, lost connection or resume has withdrawn the evidence since |
| `ClaudeLive.AcceptedStepBacks` | crates/kaleido-adapter-claude/src/reduce.rs:305-444 | After an accepted frame, an accepted command, a lost connection, a resume or the end of the connection every claim is backed, whatever was rejected before |
| `ClaudeLive.AcceptedRunsAreBacked` | crates/kaleido-adapter-claude/src/reduce.rs:305-328 | On runs without rejected frames every claim is backed after every step |
| `ClaudeLive.RunCovers` | crates/kaleido-adapter-claude/src/reduce.rs:322-325 | On every run the stored claim is covered by what was last published, which is why comparing evidence with the published list is enough |
| `ClaudeLive.StepCovers` | crates/kaleido-adapter-claude/src/reduce.rs:219-260 | One step keeps the claim covered and, if accepted and not idle, leaves it backed |
| `ClaudeLive.StreamIsBackedIff` | crates/kaleido-adapter-claude/src/reduce.rs:219-260 | Every run: each session the stream shows live is one the probe proves, after every accepted input that does something, exactly if no resume is prepared while the stream shows a session live |
| `ClaudeLive.StreamIsBacked` | crates/kaleido-adapter-claude/src/reduce.rs:219-239 | If no resume is prepared while a session is shown live, then after every accepted step each session the stream last showed as live is one the probe still proves |
| `ClaudeLive.RunInStep` | crates/kaleido-adapter-claude/src/reduce.rs:305-444 | While no resume is prepared with a session shown live, a session shown live is the stored one, with the stored binding |
| `ClaudeLive.StreamInStepIff` | crates/kaleido-adapter-claude/src/reduce.rs:253-260 | All along a run a session shown live is the stored one exactly if no resume is prepared while the stream shows a session live |
| `ClaudeLive.ResumeInStep` | crates/kaleido-adapter-claude/src/reduce.rs:253-260 | Preparing a resume keeps the stream honest exactly when no session was shown live before it |
| `ClaudeLive.ResumeLeavesClaim` | crates/kaleido-adapter-claude/src/runtime.rs:742-762 | A run that opens a live session and resumes any session: the opened one is still shown live and nothing proves it |
| `ClaudeLive.RejectedFailureLeavesClaim` | crates/kaleido-adapter-claude/src/reduce.rs:1533-1551 | An authentication failure in a frame that is then rejected removes the evidence and leaves any live claim standing |
| `ClaudeLive.ClaimCanOutliveEvidence` | crates/kaleido-adapter-claude/src/reduce.rs:1533-1551 | A concrete run after which a session is stored live without evidence |
| `ClaudeReducer.Replay` | crates/kaleido-adapter-claude/src/reduce.rs:293-303 | Feeding the object any run leaves it where the step function says |
| `ClaudeReducer.Reducer.IngestOne` | crates/kaleido-adapter-claude/src/reduce.rs:305-328 | Publication and re-derivation of the claim happen exactly when evidence and published list differ |
| `ClaudeReducer.Reducer.RefreshLiveBinding` | crates/kaleido-adapter-claude/src/reduce.rs:226-239 | The claim becomes what the evidence supports, and is shown only if it changed |
| `ClaudeReducer.Reducer.SessionReceived` | crates/kaleido-adapter-claude/src/reduce.rs:610-707 | A session is bound once per raw id and project directory, with a claim derived from the evidence |
| `ClaudeReducer.Reducer.SdkEventReceived` | crates/kaleido-adapter-claude/src/reduce.rs:1406-1590 | An authentication failure revokes all evidence before the rest of the frame is looked at; an init event is evidence only for the bound session and directory |
| `ClaudeReducer.Reducer.SessionListReceived` | crates/kaleido-adapter-claude/src/reduce.rs:709-803 | Listing sessions proves the listing capability even if an entry is then rejected; listed sessions are shown offline |
| `ClaudeReducer.Reducer.ProcessHasExited` | crates/kaleido-adapter-claude/src/reduce.rs:330-385 | The end of the process revokes all evidence and takes the session offline, once |
| `ClaudeReducer.Reducer.HasDisconnected` | crates/kaleido-adapter-claude/src/reduce.rs:387-417 | A clean end revokes all evidence and takes the session offline, once |
| `ClaudeReducer.Reducer.LoseConnection` | crates/kaleido-adapter-claude/src/reduce.rs:419-444 | A lost connection revokes all evidence and takes the session offline, each time |
| `ClaudeReducer.Reducer.ResumeSession` | crates/kaleido-adapter-claude/src/reduce.rs:253-260 | A resume forgets the session and the evidence and says nothing |
| `ClaudeReducer.Reducer.AcceptCommand` | crates/kaleido-adapter-claude/src/reduce.rs:192-239 | An accepted command is evidence for control, published before the claim is re-derived |
| `CanonicalJson.CanonicalInjective` | xtask/src/schema_surface.rs:1237-1275 | Two well-formed values have the same canonical text exactly when they are equal |
| `CanonicalJson.CanonicalUnique` | xtask/src/schema_surface.rs:1237-1275 | Equal texts that continue with something that cannot extend a number were written from equal values, through any nesting |
| `CanonicalJson.WriteCanonical` | xtask/src/schema_surface.rs:1237-1275 | The writer appends exactly the canonical text, object members in ascending key order |
| `JsonGrammar.CanonicalIsText` | xtask/src/schema_surface.rs:1237-1275 | The canonical text is a JSON text of the value (sections 3 to 7 of RFC 8259), without blanks and with names in ascending order |
| `JsonPointer.UnescapeEscape` | xtask/src/schema_surface.rs:1277-1279 | Reading back an escaped token (section 3 of RFC 6901) gives the token |
| `JsonPointer.ResolvePointerText` | xtask/src/schema_surface.rs:925-934 | A pointer text written from a token path leads where the path leads (section 4 of RFC 6901) |
| `JsonPointer.ResolveReferenceText` | xtask/src/schema_surface.rs:925-934 | A local reference leads where its pointer leads; any other text leads nowhere |
| `JsonPointer.UnescapeKeepsIff` | xtask/src/schema_surface.rs:925-934 | A token means itself exactly if no tilde in it is followed by 0 or 1 |
| `JsonPointer.OwnsIsAncestor` | xtask/src/schema_surface.rs:311-319 | The string prefix test on pointer texts is the ancestor-or-self test on token paths |
| `JsonDiff.CompareJson` | xtask/src/schema.rs:1142-1201 | The comparison appends exactly the changes of the declarative diff, located in the old document for removals and in the new one otherwise |
| `JsonFinest.DiffIsFinest` | xtask/src/schema.rs:1142-1201 | A change is reported exactly where the documents differ and cannot be compared further: through containers of the same kind, at two other values or at a member or index only one side has |
| `JsonDiff.DiffEmptyIffEqual` | xtask/src/schema.rs:1142-1201 | No change is reported exactly for equal documents |
| `JsonDiff.DiffAntichain` | xtask/src/schema.rs:1142-1201 | No reported position lies at or under another |
| `JsonDiff.DiffReplays` | xtask/src/schema.rs:1142-1201 | Applying the reported removals, additions and replacements to the old document gives the new one |
| `JsonDiff.ReportedExists` | xtask/src/schema.rs:1142-1201 | Every addition and replacement points at a value of the new document |
| `ReferenceClosure.CollectReferenceClosure` | xtask/src/schema_surface.rs:875-902 | The worklist ends on cyclic schemas and splits exactly the reachable references into resolved values and missing ones |
| `ReferenceClosure.ReachableExactly` | xtask/src/schema_surface.rs:875-902 | The reachable set is the set of ends of reference chains from the root |
| `ReferenceClosure.CollectLocalReferences` | xtask/src/schema_surface.rs:904-923 | Collects every local reference at any depth |
| `ReferenceClosure.RefsExactly` | xtask/src/schema_surface.rs:904-923 | The references collected from a schema are exactly the local `$ref` texts it carries at any depth |
| `Surface.SilentIffSameDigest` | xtask/src/schema_surface.rs:1006-1215 | Over a validated baseline an entry yields no change exactly when baseline and observed digest texts are equal, although the comparison never inspects missing references |
| `Surface.TypeSilentIffSameDigest` | xtask/src/schema_surface.rs:1006-1215 | The same for a type entry with the roots its own selection finds, with nothing assumed about them |
| `Surface.MissingCannotHide` | xtask/src/schema_surface.rs:967-1054 | If a complete baseline and an observed entry have the same fragments, the observed entry has no missing reference |
| `Surface.SilentIffSameFragments` | xtask/src/schema_surface.rs:1006-1054 | The comparison is silent exactly when the root is there and the same keys hold the same values |
| `Surface.SameDigestIffSameInputs` | xtask/src/schema_surface.rs:1190-1215 | Digest texts are equal exactly when the root flag, the missing references and the fragments are |
| `Surface.ResolveEntry` | xtask/src/schema_surface.rs:649-699 | With roots as selection delivers them, resolution never meets a duplicate key and gives the roots plus, for a type, everything reachable |
| `Surface.CompareEntry` | xtask/src/schema_surface.rs:1006-1054 | One removal for a vanished root, otherwise the changes of every fragment key in order |
| `Surface.WriteDigestText` | xtask/src/schema_surface.rs:1190-1215 | The text that is hashed is the canonical text of the digest input |
| `Surface.SelectNamed` | xtask/src/schema_surface.rs:829-855 | A type root is found exactly if the chain of parents and the name lead through objects to a value, with that value and the pointer that leads there, under one key that is no reference key |
| `Surface.MethodFragments` | xtask/src/schema_surface.rs:649-699 | A method entry has exactly its roots as fragments |
| `Surface.TypeFragments` | xtask/src/schema_surface.rs:649-699 | A type entry has its root and, under the key of each resolved reachable reference, the value it leads to |
| `Surface.TypeReference` | xtask/src/schema_surface.rs:875-902 | Such a fragment is there exactly if a chain of references from the root leads to it and it resolves |
| `SurfaceExact.ChangesExactly` | xtask/src/schema_surface.rs:1006-1086 | An entry reports exactly the finest differences of the fragments both sides have and the fragments only one has, removals located in the baseline and everything else in what was observed; a vanished root is one removal |
| `Surface.ClassifiedExactly` | xtask/src/schema_surface.rs:264-319 | A change falls into exactly the entries that own its place on a side on which it happens, and outside the surface exactly if there are none |
| `Surface.ReportedChangesAreOwned` | xtask/src/schema_surface.rs:264-319 | Every reported change, looked up again as a raw change of the whole document, is in the surface and names its own entry |
| `SchemaMeaning.AnswerIsMeaning` | xtask/src/fixtures.rs:3263-3314 | Whenever the evaluator answers from some depth, it reports no error exactly when the instance satisfies the schema, unfolded as often as the depth allows or more, starting from any opinion |
| `SchemaMeaning.AnswerIsEveryFixpoint` | xtask/src/fixtures.rs:3263-3314 | An answer is empty exactly when the schema holds in every opinion that satisfies the keyword equations (sections 8.2.3.1, 10.2.1 and 10.3 of JSON Schema Core 2020-12) |
| `SchemaMeaning.AnswerIsStable` | xtask/src/fixtures.rs:3271-3277 | An answer fixes what every deeper unfolding of a self-referring schema says |
| `SchemaMeaning.DepthIndependent` | xtask/src/fixtures.rs:3271-3277 | An answer found from some depth is found, unchanged, from every smaller depth |
| `SchemaMeaning.SchemaDecides` | xtask/src/fixtures.rs:3286-3311 | If subschemas are judged as an opinion judges them, the keywords together are judged one unfolding up |
| `SchemaAnswers.AnswersIff` | xtask/src/fixtures.rs:3263-3390 | The evaluator answers from a depth exactly if every schema it meets is understood: known keywords with the shapes they need, supported patterns and formats, references that resolve, within the depth |
| `SchemaAnswers.KeywordsAnswer` | xtask/src/fixtures.rs:3286-3311 | The keywords of one schema answer exactly if they are understood and the subschemas they apply answer |
| `SchemaBlame.ErrorsAreBlamed` | xtask/src/fixtures.rs:3263-3314 | Every reported pointer names a place of the instance at which some keyword fails |
| `SchemaReports.ViolationsAreReported` | xtask/src/fixtures.rs:3263-3314 | Outside of alternatives and negation, every violated keyword of every schema that has to hold is reported, at its own place |
| `SchemaReports.AlternativesReport` | xtask/src/fixtures.rs:3437-3482 | Alternatives report nothing if enough of them hold, their own place if too many do or there are none, and otherwise the first of the shortest error lists |
| `SchemaMeaning.TypesPartition` | xtask/src/fixtures.rs:3513-3535 | Every value has exactly one of the six primitive types, and an integer is a number |
| `SchemaMeaning.TypeNamed` | xtask/src/fixtures.rs:3513-3535 | The evaluator gives a value the types it has |
| `SchemaMeaning.PatternMeans` | xtask/src/fixtures.rs:3718-3755 | Each supported pattern accepts exactly the texts its expression describes |
| `SchemaMeaning.FormatMeans` | xtask/src/fixtures.rs:3811-3828 | Each integer format accepts exactly the integers of its range, written without fraction or exponent; `double` accepts every number and `binary` none |
| `SchemaMeaning.CombinatorsDecide` | xtask/src/fixtures.rs:3391-3434 | allOf, anyOf, oneOf and not report an error exactly when their boolean meaning fails |
| `SchemaMeaning.AlternativesDecide` | xtask/src/fixtures.rs:3437-3482 | Choosing the shortest error list never turns failure into success: errors exactly when no, or not exactly one, alternative holds |
| `SchemaMeaning.ObjectDecides` | xtask/src/fixtures.rs:3558-3646 | required, properties, patternProperties and additionalProperties report exactly the violations of their meaning |
| `SchemaMeaning.ArrayDecides` | xtask/src/fixtures.rs:3648-3693 | Length bounds, prefixItems and items report exactly the violations of their meaning |
| `SchemaValidator.ValidateJsonSchema` | xtask/src/fixtures.rs:3263-3314 | The recursive evaluator only appends to the error list, and appends exactly the specified errors or refuses |
| `SchemaValidator.ValidateAlternatives` | xtask/src/fixtures.rs:3437-3482 | The counting loop keeps the number of successes and the first of the shortest error lists |
| `SchemaValidator.ValidateObject` | xtask/src/fixtures.rs:3558-3646 | The object loops append required, property, pattern and additional errors in that order |
| `SchemaValidator.ValidateArray` | xtask/src/fixtures.rs:3648-3693 | The array loops append bound, prefix and item errors in that order |
| `Trace.NoCorrelationIssueIffWellMatched` | xtask/src/fixtures.rs:2236-2385 | A trace scanned to the end draws no correlation issue exactly when every request record is answered by a later response record in the opposite direction under the same id, every response answers an earlier request, and no id is used again in between |
| `Trace.PendingIsWaiting` | xtask/src/fixtures.rs:2558-2594 | A call is in the pending map exactly if an earlier record requests it and none has answered or requested it since |
| `Trace.RecordEvents` | xtask/src/fixtures.rs:2236-2341 | What a record does to the pending map is what its direction, its method and its id say |
| `Trace.ResponseJudgedByItsRequest` | xtask/src/fixtures.rs:2312-2385 | A response is validated as the answer to the method that its own request named |
| `Trace.PendingIsOpen` | xtask/src/fixtures.rs:2558-2594 | The pending map holds exactly the requests still waiting, each with its own method and line |
| `Trace.PairingIsUnique` | xtask/src/fixtures.rs:2312-2341 | A request has one response and a response one request |
| `Trace.RecordClashes` | xtask/src/fixtures.rs:2236-2341 | A record draws a correlation issue exactly when it reuses an outstanding id or answers nothing |
| `Trace.RequestIdKeyInjective` | xtask/src/fixtures.rs:2619-2625 | String and integer ids never share a key |
| `Trace.VerifyCodexFile` | xtask/src/fixtures.rs:2236-2310 | The scan reports the issues of every record, then of every request left unanswered, or fails |
| `Trace.VerifyResponse` | xtask/src/fixtures.rs:2312-2385 | A response is removed from the pending map before it is validated against the schema of its request's method |
| `Trace.TrackRequest` | xtask/src/fixtures.rs:2558-2594 | A request replaces an outstanding one of the same id and draws an issue for it |
| `TomlRoundTrip.DocumentComesBack` | xtask/src/deps.rs:308-376 | Every restricted document, however it is written, is read back the same: segments bare or quoted, any escapes, blanks, comments, trailing commas, arrays over several lines, either line end, tables in any order |
| `TomlRoundTrip.RestrictedIffReadable` | xtask/src/deps.rs:308-376 | The restricted documents are exactly those some text is read as |
| `TomlRoundTrip.ParsePrintParse` | xtask/src/deps.rs:308-376 | Every accepted text: its document, written again in any layout and order, reads the same |
| `TomlReads.ReadingPerformsWhatWasWritten` | xtask/src/deps.rs:308-376 | Reading any written text performs exactly its statements, each under the number of its first line: the same document or the same error on the same line |
| `TomlReads.LineReads` | xtask/src/deps.rs:314-373 | The statement written from a line on, over one line or several, is the one read there, and reading goes on after it |
| `TomlReads.HeaderReads` | xtask/src/deps.rs:418-501 | A written table header gives back its path and kind, whichever of its segments are bare and whichever quoted, with dots, brackets and quotes inside |
| `TomlReads.ValueReads` | xtask/src/deps.rs:587-608 | A written string, number or string array is read back the same |
| `TomlReads.GatherReads` | xtask/src/deps.rs:343-353 | The rest of an array is gathered from exactly the lines it is written on |
| `TomlReads.ItemsRead` | xtask/src/deps.rs:667-736 | Strings with commas between them, blanks anywhere and perhaps a last comma are read back in order |
| `TomlReads.CommentStrips` | xtask/src/deps.rs:392-416 | Stripping a comment removes the comment and nothing else, whatever either contains |
| `TomlReads.LinesComeBack` | xtask/src/deps.rs:309-309 | A text falls into the lines it was made of, whichever line ends it uses and with or without a last one |
| `TomlReads.BasicStringExactly` | xtask/src/deps.rs:610-665 | A basic string is accepted as a text exactly if what stands between its quotes writes it, by itself, by short escapes or by four or eight hexadecimal digits |
| `TomlAccepts.AcceptedIsWritten` | xtask/src/deps.rs:308-376 | Every accepted text is made of written statements and read as what they write, nothing barred inside quotes but a lone backslash; strings within arrays must be closed where they end |
| `TomlAccepts.StatementWritten` | xtask/src/deps.rs:314-373 | What is read from a line, and the lines it goes on over, is what they write |
| `TomlAccepts.HeaderWritten` | xtask/src/deps.rs:418-501 | Every accepted header writes the path it is read as |
| `TomlAccepts.ValueWritten` | xtask/src/deps.rs:587-608 | Every accepted value writes what it is read as |
| `TomlAccepts.BareQuotesAccepted` | xtask/src/deps.rs:610-665 | Between the first and the last quote of a string value any text without a backslash is taken as it stands, further quotes included |
| `TomlMeaning.PerformingGivesTheMeaning` | xtask/src/deps.rs:308-389 | Statements are accepted exactly if no path is opened twice, unless as an array table each time, and no key assigned twice under one header; then the document has one table for every header, holding the assignments under it, and nothing else |
| `TomlMeaning.BuildGivesTheMeaning` | xtask/src/deps.rs:308-389 | The same for the statements of a written text |
| `TomlMeaning.BodyExactly` | xtask/src/deps.rs:354-372 | A table holds a value under a key exactly if that assignment stands under its header |
| `TomlScanner.ParseDocument` | xtask/src/deps.rs:308-376 | The line loop gives the specified document or error, continuing array values over lines |
| `TomlScanner.StripTomlComment` | xtask/src/deps.rs:392-416 | Cuts at the first hash outside strings; a string left open is an error |
| `TomlScanner.ParseTableHeader` | xtask/src/deps.rs:418-501 | Splits at every dot outside strings and reads each segment |
| `TomlScanner.SplitAssignment` | xtask/src/deps.rs:503-553 | Splits at the first equals sign outside strings |
| `TomlScanner.ArrayValueIsComplete` | xtask/src/deps.rs:555-585 | Complete exactly when brackets outside strings were opened and all closed |
| `TomlScanner.ParseBasicString` | xtask/src/deps.rs:610-665 | Reads every escape of a basic string or refuses it |
| `TomlScanner.ParseStringArray` | xtask/src/deps.rs:667-736 | Reads comma-separated strings with an optional trailing comma |
| `Glob.WildcardMatchesDependency` | xtask/src/deps.rs:1503-1533 | The greedy last-star loop ends and accepts exactly the pairs of the reading in which a star that meets a star stands for it |
| `Glob.WildcardMatchesAntipattern` | xtask/src/antipattern.rs:979-1012 | The second copy accepts exactly the same pairs |
| `Glob.CandidateIsSafeIff` | xtask/src/deps.rs:1503-1533 | The loops decide the declarative meaning of every pattern on a candidate exactly if no star comes before its last byte |
| `Glob.PatternIsSafeIff` | xtask/src/deps.rs:1503-1533 | They decide the meaning of a pattern on every candidate exactly if the pattern has no star |
| `Glob.ReadsIffMatches` | xtask/src/deps.rs:1503-1533 | For such patterns and such candidates, accepting means that some split of the candidate fills the stars |
| `Glob.ReadsIsSound` | xtask/src/deps.rs:1503-1533 | On every input, what is accepted is a match |
| `Glob.StarMeetsStar` | xtask/src/deps.rs:1515-1517 | The pattern `*` matches the candidate `*a` and the loops refuse it |
| `Glob.LaterReadingPasses` | xtask/src/deps.rs:1518-1527 | Why forgetting every star but the last loses nothing |
| `Subset.ExtractSubset` | crates/kaleido-adapter-opencode/build.rs:203-282 | Extraction ends on cyclic schemas; it succeeds exactly when every name reachable from the roots has a schema, and then holds the rewritten schemas of exactly those names |
| `Subset.SelectSchemas` | crates/kaleido-adapter-opencode/build.rs:248-267 | The last-in first-out worklist selects exactly the reachable names, or names a reachable one that is absent |
| `Subset.NamedIffCarried` | crates/kaleido-adapter-opencode/build.rs:284-297 | A schema names a component exactly if it carries a reference to it at some depth |
| `Subset.RewrittenRefsAreIncluded` | crates/kaleido-adapter-opencode/build.rs:269-276 | No component reference is left, and every rewritten one names an included definition |
| `Subset.RewriteCarries` | crates/kaleido-adapter-opencode/build.rs:299-316 | The references of a rewritten schema are the rewritten references, at any depth |
| `Subset.RewrittenRefResolves` | crates/kaleido-adapter-opencode/build.rs:277-282 | Read as a JSON pointer into the output, a rewritten reference leads to its definition, whatever the definitions are, exactly if the name has no slash and no tilde followed by 0 or 1 |
| `Subset.LoneNameIsMissed` | crates/kaleido-adapter-opencode/build.rs:299-316 | Any other name, defined alone, is not found by its own reference |
| `Subset.NamesThatFail` | crates/kaleido-adapter-opencode/build.rs:299-316 | Two names that fail, and one with a harmless tilde |
| `Subset.CollectRefs` | crates/kaleido-adapter-opencode/build.rs:284-297 | Pushes every component name referred to, at any depth, in the order met |
| `HandOff.FirstInFirstOut` | crates/kaleido-adapter-claude/bridge/index.ts:158-195 | In any interleaving the queue never holds both waiters and values, and the i-th call to receive a value receives that of the i-th push reported accepted |
| `HandOff.SettledOrHeldOnce` | crates/kaleido-adapter-claude/bridge/index.ts:158-195 | Each push is settled once as a push and each next once as a next, or is still held once; nothing else ever is |
| `HandOff.AllSettledAfterClose` | crates/kaleido-adapter-claude/bridge/index.ts:176-180 | After a close every push and every next, before it or since, has been settled exactly once |
| `HandOff.AsyncQueue.Push` | crates/kaleido-adapter-claude/bridge/index.ts:163-174 | Settles the longest waiting call and then itself, or waits, or is refused |
| `HandOff.AsyncQueue.Next` | crates/kaleido-adapter-claude/bridge/index.ts:182-190 | Takes the oldest value and settles its push first, or waits, or ends |
| `HandOff.AsyncQueue.Close` | crates/kaleido-adapter-claude/bridge/index.ts:176-180 | Refuses every waiting push and then ends every waiting call, in order |
| `HandOff.Replay` | crates/kaleido-adapter-claude/bridge/index.ts:158-195 | Making any calls on the object gives the queue and the settlements the run theorems speak about |
| `History.HistoryFile.AppendObservations` | xtask/src/schema_history.rs:98-134 | A batch is accepted whole or leaves the file untouched |
| `History.HistoryFile.ValidateExistingKeys` | xtask/src/schema_history.rs:187-199 | Succeeds exactly when no two records share tool, version and entry set |
| `History.HistoryFile.ReadHistory` | xtask/src/schema_history.rs:69-96 | Succeeds exactly when every record is valid and keys are unique |
| `History.AcceptedIff` | xtask/src/schema_history.rs:98-134 | A batch is accepted exactly if every record is valid and agrees in its digests with every record of the log and of the batch before it that has the same tool, version and entries |
| `History.AppendsTheNew` | xtask/src/schema_history.rs:98-134 | An accepted batch appends exactly the records like none in the log and none before them, in their order |
| `History.KeysMeanAlike` | xtask/src/schema_history.rs:201-207 | Two records share a key exactly if they share tool, version and entries |
| `History.GrowsBySuffix` | xtask/src/schema_history.rs:98-134 | An accepted batch adds a suffix as long as the number it reports appended, and appended plus deduplicated is the size of the batch |
| `History.KeysStayUnique` | xtask/src/schema_history.rs:187-207 | Keys are still unique after any accepted batch |
| `History.RepeatingAppendsNothing` | xtask/src/schema_history.rs:110-129 | Repeating an accepted batch appends nothing and deduplicates all of it |
| `History.SplittingGivesTheSameLog` | xtask/src/schema_history.rs:98-134 | Writing a batch in two parts gives the same log, or is refused alike |

## Left out

- Child processes, transports, timeouts, HTTP, schema fetching and file walks: operating-system behaviour.
- Contract validators of `kaleido-proto`: they accept every effect the reducers build, so they appear only where a rule of theirs is used (`CodexControl.Supports`).
- Content storage: storing never fails and a reference determines its body.
- SHA-256, identifier minting and the domain prefix of digests: taken as injective.
- JSON numbers are their printed tokens, so `-0.0` and `0.0` count as different; floating point comparisons and wholeness of a number are parameters of the schema evaluator.
- CodexJoin.JoinProtocol: runs in which an approval does not fit the entry under its key are excluded, because the protocol fails there (`CodexCollision.RunAdvancesIff`).
- ClaudeLive.StreamIsBacked: runs with a resume prepared while a session is shown live are excluded, because the property fails there (`ClaudeLive.StreamIsBackedIff`).
- ClaudeLive.RunInStep: runs with a resume prepared while a session is shown live are excluded, because the stream is out of step there (`ClaudeLive.StreamInStepIff`).
- The closing loop of the Codex reducer visits approvals by correlation key; the source visits them by minted token, which only permutes the effects of one call.
- Trace.VerifyCodexFile: requests left unanswered are reported client first and by id; the source iterates a hash map and sorts later. The ACP and HTTP checks, which repeat the same matching, are not modelled.
- Claude conversation content: turns, items, attention and diagnostics are carried only as far as they decide acceptance, the session, the probe and the published capabilities.
- Selecting the roots of a method entry from the Codex, ACP and OpenCode documents: roots arrive with the guarantees of the uniqueness test.
- The `timeline` and `format` functions of the history, the directory comparison around the diff, and snapshot installation: easy members only.
- Timestamps, names and digest syntax of a history record: one predicate, given as a parameter.
- Rewriting references is a function on values; the source does it in place on a tree it owns.
- Strings of the TOML reader are sequences of characters, so the byte offsets of the source become character offsets.
- Glob.ReadsIffMatches: other patterns and candidates are excluded, because the loops refuse matches there (`Glob.CandidateIsSafeIff`, `Glob.PatternIsSafeIff`); on all inputs the loops compute `Reads`.
- The Toolhelp process-family search, `cfg_requires_test`, the leak scanner and the reconnect backoff.
