# Verification of the terminal workspace

A Dafny model of the workspace service, its clients and its on-disk and on-wire formats, with proofs of what they
keep. The service owns shell and browser tabs; one client at a time controls a tab and holds a replica of its screen;
a running service can hand its tabs, live terminals included, to another process; recipes on disk restore the tabs
later. `dafny verify dfyconfig.toml` checks everything.

The project has two layers. Functions on values say what a step does, and lemmas prove what they keep over every run.
Classes and methods with loops follow the sources that change state in place, and each is proved to do exactly what
those functions say.

| area | modules |
|---|---|
| packets, buffers, incremental decoding, the bounded queue | `Bytes`, `Grids`, `Framing`, `Queues` |
| cells, the engine's contract, moves, delta and full plans, the daemon's baseline | `Cells`, `Engines`, `Deltas`, `Moves`, `Frames`, `Replicas`, `Screens` |
| the client's replica | `Viewports`, `LiveViewports` |
| the service, its messages and its runs | `Tabs`, `Services`, `Steps`, `Messages`, `Runs`, `Workspaces` |
| handing tabs over, the snapshot and the engine's native snapshot | `Transfers`, `Snapshots`, `EngineSnapshots`, `Layouts` |
| terminal output, select-all, recovery | `Feeds`, `Paging`, `Selections`, `Progress`, `Endings`, `Collectors`, `Recipes`, `Recoveries` |

The C engine is a value with rows of cells, a dirty flag per row, a frame record and a redraw deadline. Parsing,
resizing and scrolling may change it in any way that flags every row they change. Time, sockets, the filesystem, the
PTY and what a user does are choices of the environment: parameters, scripts of answers, or arbitrary actions of a run.

## Findings

Two promises turned out not to hold as such.

- A select-all does not always end. A connection has one snapshot, so a second tab's START displaces the first tab's,
  whose next request is then ignored; the first view stays pending, and every copy from it deferred, until its user
  selects or clears again. `Progress.DisplacedIsStuck` gives the run. `Endings.EndsExactly` says exactly when a pending
  selection can still end: if and only if its answer is in flight and is the last page, or its snapshot is still held
  and nothing on its way to the daemon displaces it; or its request is in line, will be answered when its turn comes,
  and by the last page unless nothing behind it displaces the snapshot. `Endings.EndsInRoundsExactly` says the same of
  plain delivery, with the number of rounds. Being able to take one more step is not enough: `Endings.LiveYetDoomed`.
- Generations are 32 bits. After 2^32 selections in one tab an answer as old passes for the awaited one:
  `Selections.WrappedRunFails` gives the run, `Selections.AliasesExactly`, `Selections.ForeignAnswer` and
  `Selections.ForeignAsk` the exact steps at which it happens, and `Selections.ShortRunsStay` that fewer than 2^32
  steps never get there.

## Model

| member | source | states |
|---|---|---|
| Framing.ParseEncodeAll | src/protocol/src/lib.rs:184-243 | the encodings of any sendable packets followed by any bytes parse to those packets and then whatever the bytes alone parse to |
| Framing.ParseSound | src/protocol/src/lib.rs:184-243 | every byte of a stream belongs to exactly one yielded packet, to the one unfinished packet, or follows the first bad header |
| Framing.ParseAppend | src/protocol/src/lib.rs:184-243 | where a stream is cut does not matter: the rest is parsed after the unfinished part, and nothing is parsed after a bad header |
| Framing.HeldPartial | src/protocol/src/lib.rs:154-167 | what the decoder holds between reads is never a complete packet |
| Framing.Buffer.Reserve | src/protocol/src/lib.rs:39-45 | room is granted exactly when the total stays within the limit |
| Framing.Buffer.PutBytes | src/protocol/src/lib.rs:51-55 | bytes are appended whole or not at all, exactly when they fit |
| Framing.Buffer.PutString | src/protocol/src/lib.rs:57-63 | a length word and the bytes are appended together or not at all |
| Framing.Buffer.AppendPacketParts | src/protocol/src/lib.rs:74-92 | the encoding of the joined parts is appended exactly when the body and the buffer allow; otherwise nothing changes |
| Framing.Payload.Take | src/protocol/src/lib.rs:127-134 | takes exactly the first bytes, or nothing when there are too few |
| Framing.Payload.Word | src/protocol/src/lib.rs:136-138 | takes the first little-endian word, or nothing |
| Framing.Decoder.Push | src/protocol/src/lib.rs:186-243 | a completed packet is exactly the held bytes and the consumed ones; unfinished input is all consumed and held; a bad header fails for good |
| Framing.Decoder.Feed | src/protocol/src/lib.rs:184-243 | pushing until one read is used up yields the parse of held bytes and read, and holds its remainder |
| Framing.Decoder.FeedChunks | src/protocol/src/lib.rs:184-243 | any split of a stream into reads yields the packets, remainder and failure of the whole |
| Queues.Queue.Append | src/daemon/src/queue.rs:66-84 | accepted exactly when live and new bytes fit, whichever compaction branch runs; the pending bytes grow by exactly the new ones; a rejection changes nothing |
| Queues.Queue.AppendOwned | src/daemon/src/queue.rs:55-64 | the same contract when the buffer itself becomes the storage |
| Queues.Queue.Flush | src/daemon/src/queue.rs:86-112 | the writer gets a prefix of the pending bytes, in order and within the budget, also when an error ends the loop; how many, and whether it fails, is fixed by the writer's answers |
| Queues.FlowStops | src/daemon/src/queue.rs:86-112 | a flush stops short only because the writer blocked, failed or accepted nothing |
| Queues.UseQueue | src/daemon/src/queue.rs:44-112 | one use keeps accepted bytes followed by pending bytes, plus what it appended |
| Queues.RunQueue | src/daemon/src/queue.rs:44-112 | over any uses and any writer, what was written followed by what is pending is exactly what was accepted, within the storage limit |
| Cells.RowRoundTrip | src/daemon/src/frames.rs:223-238 | decoding an encoded row gives the row back |
| Cells.SameRows | src/daemon/src/frames.rs:164-178 | rows are equal exactly when their encodings are |
| Cells.RowSlice | src/daemon/src/frames.rs:223-231 | the encoding of a span is the matching slice of the row's encoding |
| Grids.FlatCopy | src/frontend/src/viewport.rs:285-290 | copying whole rows on the flat buffer, overlapping in either direction, is copying the rows |
| Grids.FlatSplice | src/frontend/src/viewport.rs:270-284 | writing cells into a row of the flat buffer is writing them into that row |
| Engines.HoldEnds | src/terminal/engine_sync.c:8-30 | a hold ends by its first deadline: no later begin renews it, and without an end it cannot start again |
| Engines.TermEngine.SetSync | src/terminal/engine_sync.c:9-19 | begin and end change exactly the gate, saturating the deadline |
| Engines.TermEngine.RenderDelay | src/terminal/engine_sync.c:21-30 | the remaining hold is returned and an elapsed one expires |
| Moves.ChooseAtShift | src/daemon/src/frames.rs:61-88 | of all runs of one shift, none beats what is kept, in changed rows covered and then in length |
| Moves.Choose | src/daemon/src/frames.rs:59-88 | the choice is the lexicographic maximum over all runs with a nonzero shift; there is none exactly when no run covers two changed rows |
| Moves.Summaries | src/daemon/src/frames.rs:48-58 | the hashes and change flags are those of the baseline's rows and the current ones |
| Moves.Confirm | src/daemon/src/frames.rs:89-96 | a move is confirmed exactly when every moved row is equal byte for byte |
| Moves.FindMove | src/daemon/src/frames.rs:48-96 | the result is the chosen run when it is exact, for any hash at all, and otherwise nothing |
| Frames.SpanRebuilds | src/daemon/src/frames.rs:179-191 | the span found for a changed row, written over the old row, gives the new row |
| Frames.DeltaRebuilds | src/daemon/src/frames.rs:164-192 | a delta's copy and updates, applied in order by a client, turn baseline rows into engine rows, for every feature mask and exact move |
| Frames.DeltaOverwrites | src/daemon/src/frames.rs:246-265 | the daemon's own move and overwrites do the same |
| Frames.FullRebuilds | src/daemon/src/frames.rs:164-192 | a full plan rebuilds the engine's rows from any rows of the right size |
| Frames.PlanRebuilds | src/daemon/src/frames.rs:125-265 | whatever `prepare` plans, its operations applied to the client's rows and `commit` applied to the baseline both give exactly the engine's viewport |
| Frames.PlanIsSized | src/daemon/src/frames.rs:193-244 | every operation of a plan is within the frame it announces |
| Screens.ScreenBuffer.Prepare | src/daemon/src/frames.rs:125-244 | on flat bytes: holds, reports no change and cleans, or builds exactly the specified plan and its packet bytes |
| Screens.ScreenBuffer.Search | src/daemon/src/frames.rs:141-163 | a move is searched exactly when one could be sent, and is the confirmed best one |
| Screens.PlanUpdates | src/daemon/src/frames.rs:164-192 | the update loop yields exactly the specified updates |
| Screens.Difference | src/daemon/src/frames.rs:182-188 | the first and last differing cells of two rows, found on their bytes |
| Screens.WritePackets | src/daemon/src/frames.rs:203-243 | the bytes written are the encodings of the plan's packets, in order |
| Screens.ScreenBuffer.Install | src/daemon/src/frames.rs:250-263 | the in-place move and row writes leave exactly the engine's rows and the plan's frame |
| Screens.ScreenBuffer.Commit | src/daemon/src/frames.rs:246-265 | one publication point: the queue takes the whole plan and the baseline and the damage flags follow, or nothing at all changes |
| Screens.ScreenBuffer.ReplicateEncoded | src/daemon/src/frames.rs:267-290 | one call does to baseline, engine and queue exactly what the specification of an attempt says |
| Screens.ExactBytes | src/daemon/src/frames.rs:89-95 | comparing encoded rows decides equality of the rows |
| Replicas.ReplicateKeeps | src/daemon/src/frames.rs:267-290 | after sent or unchanged the baseline is the engine's viewport; held and rejected lose no damage; undirty rows always equal the baseline |
| Replicas.NeverRefused | src/daemon/src/service.rs:153-188 | below the congestion gate no plan within 400x200 is ever refused for queue space |
| Replicas.PlanFitsQueue | src/workspace/service_policy.h:4-8 | any plan within 400x200 fits the queue above the gate's backlog |
| Replicas.PlanFitsStaging | src/frontend/src/viewport.rs:58-70 | any plan within 400x200 stays within the client's staging budget, copies included |
| Replicas.ClientFollows | src/daemon/src/frames.rs:267-290 | a replica showing the baseline before an attempt, and reading its packets, shows the baseline after it |
| Replicas.FrameArrives | src/frontend/src/viewport.rs:133-309 | a whole frame makes any idle replica show the new baseline, whatever it showed |
| Replicas.ClientAccepts | src/frontend/src/viewport.rs:133-309 | a replica showing anything at all accepts every packet of an attempt |
| Viewports.ParseOperationPacket | src/frontend/src/viewport.rs:164-221 | every operation the daemon encodes is read back as itself |
| Viewports.AcceptFrame | src/frontend/src/viewport.rs:133-309 | a frame's packets are all accepted and publish exactly the operations applied to the rows the frame starts from |
| Viewports.OnlyFinishPublishes | src/frontend/src/viewport.rs:124-131 | nothing but an accepted FRAME_FINISH changes what the viewport shows |
| Viewports.UnflaggedKept | src/frontend/src/viewport.rs:264-309 | a row no operation flags is unchanged by the whole replay |
| Viewports.DamageCoversChanges | src/frontend/src/viewport.rs:232-309 | every row the reported damage leaves out shows what it showed |
| Viewports.ReplayOther | src/frontend/src/viewport.rs:133-164 | packets of other tabs, and kinds that are not of frames, change nothing |
| LiveViewports.Viewport.Push | src/frontend/src/viewport.rs:58-70 | an operation is staged with its cost exactly while the budget allows |
| LiveViewports.Viewport.Release | src/frontend/src/viewport.rs:119-122 | staging is dropped and the view is no longer live; what it shows stays |
| LiveViewports.Viewport.Apply | src/frontend/src/viewport.rs:133-230 | accepts exactly the specified packets with the specified damage; a refused one leaves what is shown |
| LiveViewports.Viewport.Finish | src/frontend/src/viewport.rs:232-309 | the staged operations replayed in place on the resized cells publish the specified view and damage |
| LiveViewports.Viewport.ReceivePacket | src/frontend/src/viewport.rs:124-131 | a refused packet also drops whatever was staged |
| LiveViewports.ReplayOperations | src/frontend/src/viewport.rs:264-293 | in-place replay on the flat cells gives the rows and flags of the operations in order |
| LiveViewports.ResizeCells | src/frontend/src/viewport.rs:247-262 | resizing keeps the common cells and blanks the rest |
| LiveViewports.ReadConnection | src/protocol/src/lib.rs:184-243 | reads of any sizes drive the view exactly as the decoded packets do |
| LiveViewports.ConnectionOf | src/protocol/src/lib.rs:184-243 | a connection's whole output decodes to the packets queued |
| Tabs.DropClient | src/daemon/src/service.rs:109-120 | dropping a client keeps the invariant, every tab and its kind |
| Tabs.DropForgetsOnly | src/daemon/src/service.rs:109-120 | a dropped client controls and prints nothing and is promised nothing, a tab it controlled has no baseline, and every other client, promise, control, printer and baseline is as it was |
| Tabs.QueueAddsOnly | src/daemon/src/service.rs:73-81 | queueing appends exactly the packet to that client or drops it; every other client is untouched |
| Tabs.Queue | src/daemon/src/service.rs:73-81 | a packet is queued whole or its client dropped, and no baseline loses its replica |
| Services.TakeControl | src/daemon/src/service.rs:96-107 | a change of control keeps the invariant, and a connected client gets it |
| Services.ControlMoves | src/daemon/src/service.rs:96-107 | the tab gets the new controller, an empty baseline and no pending reply, its engine stays, and the previous controller is sent exactly one release or is dropped |
| Services.ControlSpares | src/daemon/src/service.rs:96-107 | every other client is untouched, and so is every other tab unless the dropped client had it |
| Services.UncontrolledOk | src/daemon/src/service.rs:139-145 | cleaning an uncontrolled engine keeps the invariant, because nobody has a baseline of it |
| Services.AttemptKeeps | src/daemon/src/service.rs:153-190 | an attempt is never refused and keeps the invariant of every tab and client |
| Services.LogFollows | src/daemon/src/service.rs:153-190 | wherever in the stream a page was created, an attempt keeps its replica accepting; created before the last whole frame, the replica goes from the old baseline to the new one |
| Services.WholeAnchors | src/daemon/src/service.rs:134-190 | after a whole frame was asked for a ready client, any baseline there is can be followed by every page created so far |
| Messages.ShownKnows | src/daemon/src/commands.rs:125-168 | the first frame of a new window follows every catalog the window has been sent |
| Services.SendFrame | src/daemon/src/service.rs:134-190 | a frame request, gated, held or sent, keeps the invariant and never drops a client |
| Steps.Close | src/daemon/src/service.rs:122-132 | a closed tab leaves no promise or fallback naming it; the fallback names its successor, else its predecessor |
| Steps.Publish | src/daemon/src/service.rs:234-260 | publication keeps the invariant and every tab, and clears the closed and fallback IDs when it announces |
| Steps.Resync | src/daemon/src/service_io.rs:149-173 | resuming drained clients keeps the invariant and drops nobody |
| Steps.ConvertKeeps | src/daemon/src/commands.rs:300-327 | a conversion changes the kind of exactly the promised tab |
| Steps.FinishReplacement | src/daemon/src/commands.rs:300-327 | a shell becomes a page only for a client whose queue is empty and whose log has that tab's acknowledgement |
| Messages.Message | src/daemon/src/commands.rs:35-298 | every message keeps the invariant; no ID changes its meaning, except that a replacement request may convert an acknowledged shell |
| Runs.ClientHoldsBaseline | src/daemon/src/frames.rs:246-290 | in every reachable state a controlling client that has read all its bytes, in any pieces, has decoded exactly the packets queued, and its page shows exactly the tab's baseline cells and header, from whatever it began with; the page may have been created by any catalog up to when its client took control or its window was told of the tab |
| Runs.NothingIsRefused | src/frontend/src/viewport.rs:133-309 | at any point of any connection's stream nothing is refused, by the decoder or by the view of a page created anywhere in it |
| Runs.FrameMakesCurrent | src/daemon/src/service.rs:134-190 | a request that can go out leaves the baseline equal to the engine's viewport and all damage acknowledged |
| Runs.FrameKeepsDamage | src/daemon/src/service.rs:134-190 | a gated or held request keeps the engine's rows and flags, and the baseline or, if full, none |
| Runs.DamageIsKept | src/daemon/src/service.rs:134-190 | in every reachable state an undirty engine row equals its baseline row, and an uncontrolled tab has no baseline |
| Runs.ReferencesHold | src/daemon/src/service.rs:92-132 | in every reachable state controllers and printers are connected, promises and fallback name existing tabs, IDs are nonzero, increasing and below the next, and a tab has a URL exactly when it has no terminal |
| Runs.ConvertedAfterAck | src/daemon/src/commands.rs:300-327 | in every run, the event that turns a shell into a page is a flush or request of a client whose delivered bytes are exactly its packets, that tab's acknowledgement among them |
| Runs.IdsNeverReturn | src/daemon/src/service.rs:65-71 | in every run an ID once given out means the same tab or nothing; a page never becomes a shell and a closed tab never returns |
| Runs.AppendedInOrder | src/daemon/src/handoff.rs:366-378 | received tabs stand behind the old list, in order, under consecutive IDs; clients and the old tabs are untouched |
| Runs.Maintenance | src/daemon/src/service.rs:369-412 | upkeep keeps the invariant and the meaning of every ID |
| Workspaces.Workspace.DropClient | src/daemon/src/service.rs:109-120 | the pass over the tabs forgets the client everywhere, as specified |
| Workspaces.Workspace.Queue | src/daemon/src/service.rs:73-81 | encodes against the free space, appends whole, or drops the client |
| Workspaces.Workspace.TakeControl | src/daemon/src/service.rs:96-107 | leaves exactly the specified state, the release notice included |
| Workspaces.Workspace.SendFrame | src/daemon/src/service.rs:134-190 | each branch leaves exactly the specified state and reports whether a frame went out |
| Workspaces.Workspace.SendCatalog | src/daemon/src/service.rs:203-212 | pending frames precede the catalog they explain |
| Workspaces.Workspace.Publish | src/daemon/src/service.rs:234-260 | frames first, then the catalog to every client ready at that moment |
| Workspaces.Workspace.Close | src/daemon/src/service.rs:122-132 | removes the tab and every promise about it and names the successor |
| Workspaces.Workspace.Notices | src/daemon/src/service.rs:83-90 | notices go out in order to whoever is to be told |
| Workspaces.Workspace.Resync | src/daemon/src/service_io.rs:149-173 | the drained clients, oldest first, resume each of their tabs from its queued baseline |
| Workspaces.Workspace.ClientFlush | src/daemon/src/service_io.rs:6-17 | the front of the queue leaves, a failed client is dropped, and a completed acknowledgement converts |
| Workspaces.Workspace.FinishReplacement | src/daemon/src/commands.rs:300-327 | the loop over tabs and the conversion do exactly what is specified |
| Workspaces.Workspace.CloseDead | src/daemon/src/service.rs:378-389 | the loop closes every tab whose PTY is gone |
| Workspaces.Workspace.Pace | src/daemon/src/service.rs:390-401 | at most one round of pending frames in an interval |
| Workspaces.Workspace.Maintain | src/daemon/src/service.rs:369-412 | the steps of upkeep in their order |
| Workspaces.Workspace.HandoffCommand | src/daemon/src/service_handoff.rs:6-54 | a transfer is considered only while no conversion is promised, and success empties the list |
| Workspaces.Workspace.BrowserReplace | src/daemon/src/commands.rs:74-99 | acknowledge first, promise after, flush at once |
| Workspaces.Workspace.Hello | src/daemon/src/commands.rs:125-168 | a first plain window adopts restored tabs, any other gets a shell or the specified failure |
| Workspaces.Workspace.SelectAll | src/daemon/src/commands.rs:170-211 | one request against the client's one snapshot, and its page |
| Workspaces.Workspace.FocusOrResize | src/daemon/src/commands.rs:245-260 | a claim or a changed size takes control and asks for a full frame |
| Workspaces.Workspace.Output | src/daemon/src/service_io.rs:79-147 | output owes a frame, and an awaited response goes out at once |
| Workspaces.Workspace.Import | src/daemon/src/service_handoff.rs:56-81 | staged tabs are appended in order and the listener closes |
| Workspaces.Workspace.Message | src/daemon/src/commands.rs:35-298 | the dispatch leaves exactly the specified state for every packet |
| Workspaces.Workspace.Run | src/daemon/src/service.rs:414-456 | any sequence of events leaves the object in the state the specified run reaches, so every result about runs holds of it |
| Workspaces.Serve | src/daemon/src/service.rs:414-456 | from a restored start the object always holds a reachable state |
| Transfers.ExerciseFollowsReceipt | src/daemon/src/handoff.rs:243-259 | in every interleaving, a read or signal of a PTY after C was sent for it follows the exerciser's own receipt of C: authority never overlaps |
| Transfers.NoEarlyExercise | src/daemon/src/handoff.rs:354-378 | nobody reads or signals a PTY, at hangup or on closing its tab, that it neither opened nor received C for |
| Transfers.AllOrNothing | src/daemon/src/service_upgrade.rs:19-41 | a session given up never commits and is never received, what is received is exactly what was sent, and a spawned receiver is killed only where C was never sent |
| Transfers.FailureKeepsTabs | src/daemon/src/handoff.rs:196-259 | in every run a donor that has not sent C keeps its tabs and next ID until it sends C, dies, or gives up and serves them again |
| Transfers.ReceiptAddsStaged | src/daemon/src/handoff.rs:354-378 | the moment C is consumed the receiver answers for its own tabs followed by exactly the staged ones |
| Transfers.NothingStopsAdoption | src/daemon/src/handoff.rs:356-378 | after C no step of anybody but the receiver's own death stops the adoption, a lost A included |
| Transfers.AdoptionEnds | src/daemon/src/handoff.rs:366-378 | the adoption ends with the old list, the staged tabs and the saved next ID |
| Transfers.DisownedSilent | src/daemon/src/process.rs:383-389 | dropping disowned tabs signals nothing |
| Transfers.ClearKeeps | src/daemon/src/handoff.rs:244-259 | dropping the donor's tabs after C logs no signal and keeps the invariant |
| Transfers.SendCommitKeeps | src/daemon/src/handoff_io.rs:259-263 | sending C keeps the invariant, under which authority over every PTY of the list is then in flight with its session |
| Transfers.ReceiptKeeps | src/daemon/src/handoff_io.rs:264-267 | consuming C keeps the invariant, under which exactly the authority that was in flight is then the receiver's |
| Transfers.KillKeeps | src/daemon/src/upgrade_io.rs:254-284 | a receiver killed after a failed transfer held no tab |
| Transfers.EngineHasAllOutput | src/daemon/src/handoff.rs:243-378 | in every reachable state each engine has been fed exactly what anybody ever read from its PTY |
| Transfers.IdsStayOrdered | src/daemon/src/handoff.rs:302-376 | in every reachable state every daemon's IDs are nonzero, increasing and below its next one |
| Transfers.StageOrdered | src/daemon/src/handoff.rs:302-350 | whatever is staged continues the receiver's list in order |
| Transfers.UpgradeAlwaysStages | src/daemon/src/handoff.rs:338-350 | a donor whose list is in order passes the count and ordering checks of an upgrade |
| Transfers.ReplacementAlwaysStages | src/daemon/src/handoff.rs:338-350 | in every run a replacement's count and ordering checks pass, with the donor's IDs and next ID |
| Snapshots.BodyOf | src/daemon/src/handoff.rs:81-117 | an encoded tab body reads back as its fields, texts cut at a NUL and colours as texts |
| Snapshots.TextsOf | src/daemon/src/handoff.rs:44-51 | texts read back in order, each up to its first NUL |
| Snapshots.TerminalOf | src/daemon/src/handoff.rs:118-146 | a terminal's engine, descriptors and process are restored exactly when they pass the checks |
| Snapshots.TabRoundTrip | src/daemon/src/handoff.rs:81-193 | a record reads back as its tab, taking exactly its own bytes and descriptors, exactly when it is acceptable |
| Snapshots.TabsRoundTrip | src/daemon/src/handoff.rs:337-353 | the same for any list of records, in order |
| Snapshots.SnapshotRoundTrip | src/daemon/src/handoff.rs:196-353 | a whole snapshot is accepted exactly when staging and every record's checks pass, as the same tabs under the staged IDs, with nothing left over |
| Snapshots.Cursor.Take | src/daemon/src/handoff.rs:26-35 | exactly the next bytes, or nothing |
| Snapshots.Cursor.Number | src/daemon/src/handoff.rs:36-38 | the next native word, or nothing |
| Snapshots.DecodeBody | src/daemon/src/handoff.rs:81-117 | the imperative reader accepts exactly what is specified |
| Snapshots.DecodeTerminal | src/daemon/src/handoff.rs:118-146 | the cursor and descriptors advance exactly as specified |
| Snapshots.DecodeTab | src/daemon/src/handoff.rs:81-149 | one record, with its cursor and descriptors |
| Snapshots.DecodeHeader | src/daemon/src/handoff.rs:286-336 | the counts and IDs a snapshot may announce to this receiver |
| Snapshots.StageTabs | src/daemon/src/handoff.rs:337-350 | the staging loop yields the specified tabs or nothing |
| Snapshots.Receive | src/daemon/src/handoff.rs:282-353 | the whole reader |
| Snapshots.EncodeBody | src/daemon/src/handoff.rs:151-185 | the body's bytes, or a refusal exactly when it is too long |
| Snapshots.EncodeTab | src/daemon/src/handoff.rs:151-193 | a record's bytes |
| Snapshots.EncodeSnapshot | src/daemon/src/handoff.rs:196-242 | the snapshot's bytes and every terminal's descriptors in order |
| EngineSnapshots.RoundTrip | src/terminal/engine_snapshot.c:54-143 | import after export restores every exported field with history oldest first, whatever follows the bytes, exactly when the header passes the import checks |
| EngineSnapshots.ReExport | src/terminal/engine_snapshot.c:54-85 | exporting what was imported gives the same bytes |
| EngineSnapshots.TruncatedIsRefused | src/terminal/engine_snapshot.c:87-143 | no truncation of an export is imported |
| EngineSnapshots.ImportIsPrefix | src/terminal/engine_snapshot.c:163-180 | import consumes a length of its own and ignores whatever follows |
| EngineSnapshots.NormalHistory | src/terminal/engine_snapshot.c:125-137 | the ring as imported holds the same history as the ring exported |
| EngineSnapshots.PushKeepsOrder | src/terminal/engine_selection.inc:390-407 | a row pushed into the ring is the newest, and only the oldest is lost |
| EngineSnapshots.SlotIs | src/terminal/engine_snapshot.c:79-82 | the ring index arithmetic finds the k-th oldest row |
| EngineSnapshots.Stream.Put | src/terminal/engine_snapshot.c:16-28 | bytes are written or counted whole, or nothing changes |
| EngineSnapshots.Stream.Get | src/terminal/engine_snapshot.c:16-28 | bytes are read whole, or nothing moves |
| EngineSnapshots.RowAt | src/terminal/engine_snapshot.c:79-82 | row i of live, alternate and history rows |
| EngineSnapshots.ExportTo | src/terminal/engine_snapshot.c:54-85 | the counting pass and the writing pass agree on every byte and on success |
| EngineSnapshots.Export | src/terminal/engine_snapshot.c:145-161 | each status exactly when due, the required size, and the buffer changed only on success |
| EngineSnapshots.ImportPrefix | src/terminal/engine_snapshot.c:163-180 | the imperative reader publishes exactly the specified engine, transport and length, or nothing |
| Layouts.PackedIsFaithful | src/terminal/engine_snapshot.c:54-77 | what the codec asks of the C struct layouts can be met |
| Feeds.CharacterStable | src/terminal/engine_util.inc:41-74 | a complete character stays the same whatever bytes follow |
| Feeds.UnfinishedIsShort | src/terminal/engine_util.inc:41-74 | an unfinished character has fewer than four bytes (section 3 of RFC 3629) |
| Feeds.ProcessAppend | src/daemon/src/state.rs:337-354 | processing a stream in two parts is processing it whole, failures included |
| Feeds.EngineCallProcess | src/daemon/src/state.rs:337-354 | one engine call and its effects are the front of processing the whole input |
| Feeds.NothingSkipped | src/daemon/src/state.rs:284-335 | what is left pending is exactly the unconsumed end of the stream |
| Feeds.ChunksDoNotMatter | src/daemon/src/state.rs:284-335 | any partition of a stream into calls at one time gives the state, ordered notices and pending suffix of feeding it whole |
| Feeds.SameStreamSameResult | src/daemon/src/state.rs:284-335 | two partitions of one stream give the same result |
| Feeds.PendingStaysShort | src/daemon/src/state.rs:284-335 | after any call fewer than four bytes are pending, whatever was imported |
| Feeds.OnlyEmptyCallsDiffer | src/daemon/src/state.rs:284-301 | one call differs from processing what waited and what came exactly when it is empty and what waited is short but could advance |
| Feeds.CutsDiffer | src/daemon/src/state.rs:284-335 | two ways to cut one stream differ exactly when the stream is empty, four or more bytes were imported, and one way makes no call at all; a read of nothing is never fed (src/daemon/src/service_io.rs:116-136) |
| Feeds.Terminal.EngineFeed | src/daemon/src/state.rs:337-354 | one engine call on the object's state |
| Feeds.Terminal.Apply | src/daemon/src/state.rs:364-372 | effects are applied in order until one fails |
| Feeds.Terminal.Consume | src/daemon/src/state.rs:337-354 | the loop consumes exactly what processing consumes, with its notices |
| Feeds.Terminal.FeedImported | src/daemon/src/state.rs:289-301 | a long imported suffix is processed together with the new bytes |
| Feeds.Terminal.Feed | src/daemon/src/state.rs:284-335 | the buffer juggling does exactly what feeding is specified to do |
| Selections.CompletedIsSnapshot | src/frontend/src/terminal.rs:542-575 | in every run without a confused step, a completed selection is exactly the text its own START found, after one NEXT for each full page before the last |
| Selections.PendingIsPrefix | src/frontend/src/terminal.rs:542-575 | a pending selection holds a prefix of its snapshot and has asked once for each full page of it |
| Selections.ActKeeps | src/daemon/src/commands.rs:170-211 | every step that confuses no two selections keeps the protocol's invariant |
| Selections.AliasesExactly | src/frontend/src/terminal.rs:528-536 | two selections are confused exactly when their numbers differ by a nonzero multiple of 2^32 |
| Selections.ForeignAnswer | src/frontend/src/terminal.rs:542-575 | a view takes another selection's page exactly at a confused step |
| Selections.ForeignAsk | src/daemon/src/commands.rs:185-211 | the daemon serves or cancels another selection's request exactly at a confused step |
| Selections.ShortRunsStay | src/frontend/src/terminal.rs:528-541 | no run of fewer than 2^32 steps has a confused step |
| Selections.WrappedRunFails | src/frontend/src/terminal.rs:528-575 | a run from a fresh connection in which a selection completes with a text its START never found |
| Progress.StuckForever | src/daemon/src/commands.rs:185-192 | a pending selection with no message that can advance it stays as it is whatever everyone but its user does |
| Progress.AdvancesIfLive | src/daemon/src/commands.rs:170-211 | a pending selection can advance without its user if and only if its answer is in flight or its request is and will be served |
| Progress.DisplacedIsStuck | src/daemon/src/commands.rs:174-192 | a run in which a second tab's START leaves the first tab's selection pending for good |
| Progress.SelectedIsUndisturbed | src/frontend/src/terminal.rs:259-277 | a selection started while no START is on its way is undisturbed |
| Progress.NeverStuck | src/daemon/src/commands.rs:170-211 | through any deliveries and other views' clears an undisturbed selection can always advance until it completes |
| Progress.EndsInRounds | src/daemon/src/commands.rs:200-211 | an undisturbed selection completes with exactly its snapshot within one round for each full page missing and one more |
| Endings.EndingStep | src/daemon/src/commands.rs:170-211 | no step but the user's own lets a selection that cannot end end, and deliveries keep one that can |
| Endings.EndsExactly | src/daemon/src/commands.rs:170-211 | some run without the view's user ends a pending selection if and only if it is endable |
| Endings.EndsInRoundsExactly | src/daemon/src/commands.rs:170-211 | when everything is delivered and a START finds a given text, a pending selection ends if and only if it is endable, with exactly its snapshot and within one round for each full page missing and one more |
| Endings.LiveYetDoomed | src/daemon/src/commands.rs:174-192 | with another tab's START right behind its first page, a selection can advance and can never end |
| Collectors.PageRoundTrip | src/daemon/src/commands.rs:202-210 | the client reads the page the daemon wrote |
| Collectors.Collector.SelectAll | src/frontend/src/terminal.rs:259-277 | a new generation starts empty and pending, and a pending one is cancelled under its own generation |
| Collectors.Collector.ClearAllSelection | src/frontend/src/terminal.rs:528-541 | text, pending state and deferred copy are gone and the generation moved on |
| Collectors.Collector.AllPacket | src/frontend/src/terminal.rs:542-575 | only a well-formed page of the pending generation counts; completion copies the whole text once and serves a deferred copy |
| Collectors.Collector.Copy | src/frontend/src/terminal.rs:576-594 | a copy during a pending selection is deferred, never partial |
| Paging.Requested | src/daemon/src/commands.rs:170-211 | a START replaces any selection and answers the first page, other tabs and generations are ignored, a CANCEL forgets, and a NEXT answers exactly the bytes after those handed out, the last page ending the selection |
| Recipes.DecodeEncode | src/workspace/src/recovery.rs:53-95 | decoding what was encoded gives the recipes back |
| Recipes.EncodeDecode | src/workspace/src/recovery.rs:53-95 | encoding what was decoded gives the file back, byte for byte |
| Recipes.ForTabValid | src/workspace/src/recovery.rs:26-51 | a tab's recipe starts at an absolute directory and is valid exactly within the limits and without NUL |
| Recipes.EncodeRecipes | src/workspace/src/recovery.rs:80-95 | the writer's loops give exactly the specified file or refusal |
| Recipes.DecodeRecipes | src/workspace/src/recovery.rs:53-78 | the reader's loops accept exactly the specified files |
| Recoveries.CrashLeavesVersion | src/workspace/src/recovery.rs:193-241 | after a crash in a safe state the recipe path holds one of the published versions |
| Recoveries.Recovery.Open | src/workspace/src/recovery.rs:149-191 | an absent file starts fresh, one that decodes is the cache, and any other disables saving |
| Recoveries.Recovery.Reserve | src/workspace/src/recovery.rs:205-229 | a fresh temporary file, never the recipe path |
| Recoveries.Recovery.Fill | src/workspace/src/recovery.rs:230-232 | success means the temporary file holds exactly the bytes, synced |
| Recoveries.Recovery.Publish | src/workspace/src/recovery.rs:233-241 | the rename publishes exactly those bytes, or nothing changes |
| Recoveries.Recovery.Save | src/workspace/src/recovery.rs:193-241 | unchanged recipes touch nothing, a published save is one new version, a failed one leaves path and cache |
| Recoveries.RunSaves | src/workspace/src/recovery.rs:146-241 | at every crash point of any sequence of saves the recipe path holds its opening content or one complete encoding, and nothing ever changes if opening failed |

## Left out

- What a catalog says about its tabs, and how titles, directories and modes are refreshed: a catalog is bytes the environment chooses, sent when the environment says it changed.
- The terminal parser, reflow and local selection: the engine may change in any way that flags what it changes; what notices it emits is the environment's choice.
- Row hashing: any function; nothing depends on its quality.
- Geometries above 400x200: the engine allows them, the wire does not.
- Whether every damage eventually gets a frame: some inputs send none; what is proved is about what is sent.
- Whether some process always owns the tabs during a transfer: a receiver may give up while C is on its way.
- That a client which takes control without opening a window already has the tab's page: pages and what a catalog names are the client's and the environment's; where in its stream a page may be created is in `Runs.ClientHoldsBaseline`.
- Runs.Run: a run takes any exact move search; the one the sources have is proved in `Screens` and `Moves` and is one of them.
- Transfers.ReplacementAlwaysStages: covers counts and IDs; size limits, process checks and the engine header are in `Snapshots.SnapshotRoundTrip`, the 512 MiB limit of a snapshot and its sealing are nowhere.
- Sockets, tokens, polls and timeouts of a transfer: protocol steps in any order; a timeout is a failure step, a stop signal a flag.
- Select-all in a tab that closes, or whose local selection fails to allocate before START is sent: views and tabs stay for the whole run.
- The layout of C structs: any layout that decoding inverts; words of the snapshot are little-endian.
- Memory reservation and overflow of sizes beyond 64 bits: sequences are unbounded.
- The recovery file's path, its directory and other writers of it.
- Mouse, keys, paste, painting, browser views and signals: not part of this model.
