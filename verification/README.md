# MarxAgent: verified models of its protocols and encoders

A Dafny model of the parts of MarxAgent that have to keep a promise over every run: the in-process
event bus, the durability pipeline (write buffer, journal, ledger, recovery), the agent loop with its
stream assembly, sub-agent messaging and the slot pool, context compaction, the server-side response
chain, and four byte-level formats. `dafny verify dfyconfig.toml` checks everything.

Concurrent components are modelled twice. A state machine has one step per critical section, channel
operation or hook call, and its theorems quantify over every schedule. Classes with the code's fields
and methods are proved against the same specification functions, one call at a time.

| part | modules |
|---|---|
| shared | `Common`, `Text`, `Decimal` |
| event bus | `EventBus` (steps), `EventBusDelivery` (invariant), `EventBusProgress` (results), `EventBusObjects` (classes) |
| durability | `WriteBuffer`, `WriteBufferRuns`, `WriteBufferOrder`, `WriteBufferHistory`, `WriteBufferShutdown`, `Journal`, `JournalRepair`, `Ledger`, `LedgerRows`, `Recovery`, `RecoveryConverges`, `Durability` |
| agent loop | `Transcript`, `Accumulation`, `ToolRuns`, `AgentLoop` |
| stream assembly | `StreamAssembly`, `StreamWire`, `StreamParser`, `StreamMeaning`, `BlockHistory`, `StreamContent`, `StreamThinking`, `StreamFailures` |
| sub agents | `Broker`, `BrokerMail`, `BrokerRuns`, `BrokerClosing`, `BrokerObjects`, `BrokerSends`, `Pool`, `PoolLife`, `PoolObjects` |
| context and cache | `Estimator`, `Compaction`, `CompactionResults`, `Signature`, `ResponseChain` |
| formats | `Lsp`, `LspHeaders`, `Sse`, `SseLines`, `Envelope` |

What stays abstract: JSON is a pair of functions with stated laws (`Journal.Lawful`, `Lsp.Json`), or
predicates saying which texts are JSON (`Journal.LawfulCodecExists` and `Lsp.PlainTextIsLawful` show that
the laws can be met); hooks, providers, tools and the summarizer are arbitrary functions; clocks and the
default summary wording are parameters; a digest is the bytes written into it. Integers are unbounded
except where the code parses a 64-bit number (`Lsp.ParseInt`).

## Promises that hold only under a condition

Each is proved in its exact form, most with a run or an input that breaks the unguarded one.

- Two drains at once may put batches into the sinks out of order. A sink's log stays in sequence exactly
  when no two batches that share a stream passed the write lock against the order in which they were
  taken (`WriteBufferOrder.InSequenceIffOrderly`, `WriteBufferOrder.OverlappingDrainsReorder`).
- A record appended between the shutdown drain's last look and the closing mark stays in the closed
  buffer (`WriteBufferOrder.ClosingLeavesNothingIff`, `WriteBufferOrder.ClosingCanStrandARecord`).
- `TruncatePartialJournal` promises to restore a record boundary. It does for every cut but the one just
  before a line break: there the last record is kept without its line end, and the next append merges
  with it (`Journal.AppendAfterRepair`). The merged line has its line end behind it, and a repair removes
  a remnant only when nothing is behind it, so the next one destroys both records
  (`JournalRepair.RepairIsFinalIff`, `JournalRepair.RepairAfterMerge`).
- The journal rewrites the data of a record as it encodes it. A replayed row differs from the one first
  written exactly for a message without content whose data is rewritten
  (`RecoveryConverges.StoredAlikeIff`).
- With at most n Sends underway, mailboxes receive in journal order over all runs exactly when n is one
  (`BrokerRuns.OrderedIffSerial`, `BrokerRuns.MailboxMayReorder`).
- The pool gives a slot to one task at a time over all runs exactly when it runs one task at a time,
  because `recordSuccess` frees the slot before `release` (`Pool.ExclusiveIffSerial`). With finishing as
  one step it always does (`Pool.OneTaskPerSlot`).
- Stopping a slot keeps it out of use until it is started exactly when no task is on it; a busy slot keeps no
  mark of it, and the end of its task decides what it becomes (`PoolLife.StopHoldsIff`).
- With finishing as one step, no slot is taken from under its task but one the registry refuses: between its
  creation and the refusal anybody may take it (`PoolLife.OutsideOnlyIfRefused`, `PoolLife.RefusalStrandsATask`).
- A request on the response chain is whole exactly when the identifier attached is the one the trimming
  decided on (`ResponseChain.WholeIffDecided`). A record or an invalidation in between, or an adapter that
  already holds an identifier, breaks it.
- Stream text is exactly the text deltas when no close owes opening text, and a block's opening text is
  lost exactly when a delta follows it (`StreamContent.TextIsDeltasIff`,
  `StreamContent.OpeningTextIsLostIff`). A call's input is its fragments exactly when the opening brought
  none (`StreamContent.OpeningInputCountsIff`).
- Only tool calls may stand next to a block of their own kind, provided a call chunk carries a tool call
  (`Transcript.OtherBlocksMayRepeat`).
- A summary over its target is cut by characters, not by what they cost. With the default densities it
  ends up within the target exactly when nothing of a dense script is left in it
  (`Compaction.SummaryFitsIff`).
- With distinct and proper identifiers, key results survive compaction exactly when something could be
  folded or none lies in what the fallback drops: the fallback does not put them back
  (`Compaction.KeyResultsKeptIff`, `Compaction.FallbackLosesKey`). With a shared identifier one can be lost
  in a fold too (`Compaction.SharedIdIsLost`).
- Server-sent events read back as written exactly when no line's content ends in a carriage return
  (`Sse.RoundTripIff`).
- A turn is answered under its calls' identifiers exactly when no tool hook renames a result
  (`AgentLoop.TurnAnsweredIff`).

## Where the code and its comments disagree

The model follows the code.

- `internal/engine/storage/reindex.go:105-113`: the clear commits on its own, so a rebuild whose write
  fails leaves an empty ledger, not the previous contents (`Ledger.AuditSink.Rebuild`).
- `internal/core/loop.go:265-267`: a refused call is said to pass the execution hooks; it skips
  `pre_tool_exec` and is seen only by the hooks after execution.
- `internal/engine/subagent/pool.go:209-231`: `NewPool` computes defaults it does not store, so the model
  takes the capacity and the concurrency limit as given.
- `internal/engine/context/manager.go:284-289`: a failed tool call is said to survive whether the older
  region was summarized or dropped; when nothing can be folded, it is dropped and not put back.
- `internal/engine/context/manager.go:260-281`: the size and the over-budget mark are taken before key
  results are put back, so they do not describe the returned history.

## Model

| member | source | states |
|---|---|---|
| EventBusDelivery.RunKeeps | internal/core/event.go:151-340 | every interleaving keeps: hub consistency, only the held dispatcher uncancelled, no sleeper with work lacks a token, and for each subscriber handled + queued + in fan-out + waiting matches what it is owed |
| EventBusProgress.AlwaysSafe | internal/core/event.go:193-243 | at most one uncancelled dispatcher, no lost wakeup at either level, and what was handled is a prefix of what is owed |
| EventBusProgress.SubscriberReceivesEverything | internal/core/event.go:151-190 | at rest a subscriber's handler has run on exactly the matching events published since it subscribed, in order, once each |
| EventBusProgress.RestMeansDelivered | internal/core/event.go:265-310 | a bus with no step left to take owes nobody anything |
| EventBusProgress.AlwaysComesToRest | internal/core/event.go:208-243 | without outside calls the bus stops within a bound read off its state |
| EventBusProgress.OneEventIsDelivered | internal/core/event.go:151-310 | a run from the empty bus that brings one event to its handler and the bus to rest |
| EventBusProgress.MatchingExactly | internal/core/event.go:224-235 | a subscription gets the events of its own kind, or all of them with the empty kind, in order |
| EventBusProgress.CancellationStands | internal/core/event.go:265-299 | over every run: from its cancellation on a subscription starts nothing more, whatever is queued; at most the handler call under way ends |
| EventBusProgress.RemovedForGood | internal/core/event.go:322-340 | over every run: a subscription that has left the bus does not come back |
| EventBusProgress.UnsubscribedStaysQuiet | internal/core/event.go:322-340 | over every schedule: once an unsubscription has returned, its handler is not started again |
| EventBusObjects.EventSubscription.EnqueueEvent | internal/core/event.go:246-263 | appends to the queue and signals only an empty one |
| EventBusObjects.EventSubscription.NextLocked | internal/core/event.go:265-299 | the locked part of taking an event: exit when cancelled, with the queue left alone; otherwise the oldest, or wait |
| EventBusObjects.AsyncEventBus.Publish | internal/core/event.go:151-167 | queues the event behind the others and starts a dispatcher if none runs; nothing without subscribers |
| EventBusObjects.AsyncEventBus.Subscribe | internal/core/event.go:169-191 | adds the subscription last and makes sure a dispatcher runs |
| EventBusObjects.AsyncEventBus.Unsubscribe | internal/core/event.go:322-340 | removes one subscription; the last one takes the dispatcher and the undispatched events with it |
| EventBusObjects.FanOutTo | internal/core/event.go:224-235 | every matching subscription of the snapshot gets the event, the others are untouched |
| WriteBuffer.WriteBuffer.Append | internal/engine/storage/writebuffer.go:134-174 | refusals leave everything alone; otherwise the queue is the admitted one, an overflow is reported, and a full queue is signalled |
| WriteBuffer.WriteBuffer.DropOverflowLocked | internal/engine/storage/writebuffer.go:301-312 | sheds the computed number of oldest records and accounts for their bytes |
| WriteBuffer.ShedIsMinimal | internal/engine/storage/writebuffer.go:301-312 | an overflow sheds just enough: what is left fits or is one record, and one fewer would not have done |
| WriteBuffer.AdmitKeepsQueue | internal/engine/storage/writebuffer.go:151-165 | the byte count stays exact and within the bound unless a single record exceeds it |
| WriteBuffer.DiscardsIs | internal/engine/storage/writebuffer.go:301-312 | nothing is shed while everything fits, otherwise the fewest oldest records that bring the queue to half its bound |
| WriteBuffer.RefusedIff | internal/engine/storage/writebuffer.go:134-150 | what is refused, and which reason comes first |
| WriteBuffer.AdmitIs | internal/engine/storage/writebuffer.go:151-165 | the new record, numbered next on its stream, comes last; what was shed came off the front and is counted |
| WriteBuffer.NormalIs | internal/engine/storage/writebuffer.go:141-149 | defaults replace nothing and leave nothing empty |
| WriteBuffer.WriteBuffer.Drain | internal/engine/storage/writebuffer.go:314-339 | hands the whole queue to the sinks in order until one refuses |
| WriteBufferRuns.RunKeeps | internal/engine/storage/writebuffer.go:208-339 | every interleaving of appends, drains and the run loop keeps conservation, the lock, the sinks' logs and the pending wake-up |
| WriteBufferRuns.EveryRecordIsSomewhere | internal/engine/storage/writebuffer.go:134-174 | each accepted record is in exactly one of dropped, in flight, written, failed or pending, and pending is a suffix of the history |
| WriteBufferRuns.FullQueueWillDrain | internal/engine/storage/writebuffer.go:208-268 | while the run loop is alive, a queue at a watermark always has a token, a waker or a take coming |
| WriteBufferHistory.HistoryIsAppends | internal/engine/storage/writebuffer.go:134-174 | over every run the accepted records are exactly the appended ones, in order, each numbered by its position on its stream |
| WriteBufferShutdown.DrainsToEmpty | internal/engine/storage/writebuffer.go:208-268 | the drain of everything ends by seeing the queue empty: the only way back to the select and, without a refusal, to the closing mark |
| WriteBufferShutdown.ClosedByShutdown | internal/engine/storage/writebuffer.go:286-290 | only the mark behind a cancelled context closes the buffer, and a cancellation is final |
| WriteBufferShutdown.RunGoesOn | internal/engine/storage/writebuffer.go:208-250 | outside its select and its wait for a batch the run loop can always go on, and takes the whole queue |
| WriteBufferShutdown.ShutdownLeavesNothingPending | internal/engine/storage/writebuffer.go:213-268 | over every run without a sink error: when the shutdown drain is done nothing is pending |
| WriteBufferShutdown.ShutdownWritesEverything | internal/engine/storage/writebuffer.go:213-268 | and when nobody else drains, every record is written to every sink or was shed |
| WriteBufferOrder.SinksAgree | internal/engine/storage/writebuffer.go:314-339 | without sink errors and with no batch under way all sinks hold the same log, and a later sink a prefix of an earlier one in any case |
| WriteBufferOrder.InSequenceIffOrderly | internal/engine/storage/writebuffer.go:314-339 | a sink's log is in sequence on every stream if and only if batches passed the lock in order |
| WriteBufferOrder.SingleDrainKeepsSequence | internal/engine/storage/writebuffer.go:314-339 | one drain at a time keeps every sink in sequence, whatever sinks refuse |
| WriteBufferOrder.OverlappingDrainsReorder | internal/engine/storage/writebuffer.go:314-339 | a run of two overlapping drains after which the log is out of sequence |
| WriteBufferOrder.ClosingLeavesNothingIff | internal/engine/storage/writebuffer.go:208-290 | from the end of the shutdown drain, successful or not: the closed queue is empty if and only if it was empty then and nothing was appended after |
| WriteBufferOrder.ClosingCanStrandARecord | internal/engine/storage/writebuffer.go:208-290 | a shutdown that leaves an accepted record behind |
| Journal.JournalSink.Write | internal/engine/storage/journal.go:59-81 | appends one encoded line per record |
| Journal.ReadJournal | internal/engine/storage/journal.go:117-152 | returns the records and the partial remnant of any byte sequence |
| Journal.JournalSink.TruncatePartial | internal/engine/storage/journal.go:155-171 | cuts as many bytes off the end as the remnant has, or refuses one longer than the file |
| Journal.CutAnywhere | internal/engine/storage/journal.go:117-171 | cut at any byte: the records read are those whose encodings are complete, as the journal writes them; repair leaves exactly their lines, and reading again is a fixed point |
| Journal.AppendAfterRepair | internal/engine/storage/journal.go:59-171 | appending after repair reads back as expected if and only if the cut was not just before a line break |
| JournalRepair.RepairIsFinalIff | internal/engine/storage/journal.go:117-171 | whatever the file holds, a repair leaves the same records and no remnant if and only if nothing stands behind the remnant, not even its line end (or only as much as the carriage returns it starts with) |
| JournalRepair.RepairAfterMerge | internal/engine/storage/journal.go:136-171 | the merged line is such a remnant: the next repair loses both records and leaves the first byte of one |
| Ledger.AuditSink.Write | internal/engine/storage/sqlite.go:156-255 | all or nothing: the tables with every record applied in order, or unchanged |
| Ledger.StoreAllIs | internal/engine/storage/sqlite.go:180-247 | a batch overwrites messages with its last writes and adds only first writes of tool calls |
| LedgerRows.LastWriterWins | internal/engine/storage/sqlite.go:180-247 | a message row exists exactly for a key some record is stored under, and is that of the last one |
| LedgerRows.FirstWriterWins | internal/engine/storage/sqlite.go:180-247 | a tool row exists exactly for a key some record is stored under, and is that of the first one |
| LedgerRows.RowsAfter | internal/engine/storage/sqlite.go:180-247 | the same over a ledger that already holds rows |
| LedgerRows.SessionIs | internal/engine/storage/sqlite.go:203-208 | a stream's session is what stands behind its first colon, or the whole name |
| Ledger.AuditSink.Rebuild | internal/engine/storage/reindex.go:105-113 | the tables of the records alone; empty when the write fails |
| Recovery.HighestSequence | internal/engine/storage/recovery.go:240-251 | the maximum sequence, or a refusal of a negative one |
| Recovery.RecoverStream | internal/engine/storage/recovery.go:93-177 | reads, repairs, replays what lies above the checkpoint, and reports the counts |
| Recovery.ReplayedExactly | internal/engine/storage/recovery.go:128-147 | exactly the well-formed records above the checkpoint are replayed, in journal order |
| Recovery.CountedExactly | internal/engine/storage/recovery.go:128-165 | each record counts as skipped, orphaned or incomplete exactly by its kind and stream |
| Recovery.CollectedExactly | internal/engine/storage/reindex.go:77-97 | exactly the records with a kind, a stream and a number are collected, from every journal, in order |
| Recovery.CollectedIff | internal/engine/storage/reindex.go:77-97 | a record is collected if and only if some journal holds it and it can be indexed |
| Recovery.Reindex | internal/engine/storage/reindex.go:71-113 | a full rebuild from the journals of a scope, each repaired on the way: the messages are the last writes and the tool calls the first writes over the collected records of all of them |
| RecoveryConverges.ReplayConverges | internal/engine/storage/recovery.go:93-177 | a ledger holding any prefix that covers the checkpoint ends, after replay, as the whole journal would leave it |
| RecoveryConverges.CrashThenRecover | internal/engine/storage/recovery.go:93-177 | journal cut at any byte, ledger at any covering prefix: one recovery gives the surviving journal's tables, a second changes nothing, a reindex agrees, as long as the journal's rewriting of data makes no difference to a row |
| RecoveryConverges.StoredAlikeIff | internal/engine/storage/sqlite.go:211-230 | it makes one exactly for a message without content whose data the encoder rewrites |
| RecoveryConverges.LedgerAheadReplay | internal/engine/storage/recovery.go:93-177 | when the journal lost records the ledger has, replay leaves tool calls alone, and messages exactly when no lost record rewrote a replayed one |
| RecoveryConverges.LedgerAheadWins | internal/engine/storage/recovery.go:120-140 | a checkpoint above everything the journal still holds replays nothing |
| Durability.CrashSafe | internal/engine/storage/writebuffer.go:208-339 | end to end from any schedule of the buffer through a crash to a recovered ledger |
| Transcript.MessageAccumulator.Add | internal/core/loop.go:501-543 | the accumulated content after a chunk, and exactly which chunks are accepted |
| Transcript.MessageAccumulator.AppendOrMerge | internal/core/loop.go:545-564 | folds a block into one of its kind or appends it |
| Transcript.ValidateToolCalls | internal/core/loop.go:597-612 | accepts exactly valid tool calls with distinct identifiers |
| Transcript.AddKeepsShape | internal/core/loop.go:501-577 | after every accepted chunk call identifiers are unique and only tool calls repeat a kind |
| Transcript.MergedIs | internal/core/loop.go:545-564 | a block of another kind goes behind the last; one of the same kind joins it, and of signatures and encrypted reasoning the newest counts |
| Accumulation.MessageIsChunks | internal/core/loop.go:501-577 | the message of an accepted stream: all its text, all its thinking and all its calls, each in order, under the last response identifier |
| Transcript.OtherBlocksMayRepeat | internal/core/loop.go:520-531 | where that ends, exactly, for a call chunk that carries no tool call |
| ToolRuns.ReconcileRefusedCalls | internal/core/loop.go:244-262 | one call per original call under its own identifier: the gate's version, or a refusal where it gave none |
| ToolRuns.ExecuteToolsConcurrently | internal/core/loop.go:326-346 | in any finishing order each result is what its own invocation's tool answered, or its refusal; exactly the calls nobody refused reach a tool, once each |
| ToolRuns.ExecuteTool | internal/core/loop.go:363-386 | valid output comes through with its flags, an empty one as `null`, and everything else becomes an error that says what went wrong |
| ToolRuns.RefusedResult | internal/core/loop.go:351-361 | a refusal is an error in the gate's own words where it gave any |
| ToolRuns.ReportResults | internal/core/loop.go:297-323 | the hooks after execution: an error leaves the results as they were, an answer of the wrong type leaves none, otherwise every result is what its hook made of it, and valid |
| ToolRuns.RunTools | internal/core/loop.go:264-324 | either no tool runs, or exactly those of the calls not refused, once each, on what `pre_tool_exec` made of the call; it fails exactly when a hook is at fault, and on success the results are what the hooks after execution made of what the tools answered |
| AgentLoop.Agent.ExecuteLoop | internal/core/loop.go:52-179 | whatever provider, gate, hooks and tools do: complete turns form the transcript at every normal end; every assistant message is the provider's answer; the tools that ran are those of exactly the calls the gate let through; each call of a complete turn is told what its tool answered or why it was refused; and a run breaks off exactly where a hook, the provider or a listener is at fault |
| AgentLoop.MergedByGate | internal/core/loop.go:129-159 | running exactly the merged calls that are not marked refused is running exactly those the gate let through |
| AgentLoop.AnsweredConcat | internal/core/loop.go:74-179 | complete turns one after another form an answered transcript |
| AgentLoop.OpenReply | internal/core/loop.go:104-139 | a reply alone leaves the transcript answered if and only if it carries no call |
| AgentLoop.TurnAnsweredIff | internal/core/loop.go:159-174 | a reply with as many results as calls is answered by name if and only if no hook renamed a result |
| StreamParser.Parser.Parse | internal/engine/gateway/anthropic_messages.go:365-564 | for any events and any consumer, the chunks handed over are the stream's chunks up to the one the consumer gave up on |
| StreamParser.Parser.Release | internal/engine/gateway/anthropic_messages.go:375-430 | what closing one block emits and whether the stream goes on |
| StreamParser.Parser.ReleaseAll | internal/engine/gateway/anthropic_messages.go:431-443 | releases the open blocks in index order until the consumer or a malformed call stops it |
| StreamAssembly.OneTerminalChunk | internal/engine/gateway/anthropic_messages.go:444-564 | every stream gives chunks that end in exactly one terminal chunk |
| StreamAssembly.HeardIsPrefix | internal/engine/gateway/anthropic_messages.go:368-374 | a consumer that stops sees a prefix, one that does not sees all |
| StreamWire.WireRead | internal/engine/gateway/anthropic_messages.go:444-564 | every type of event, block and delta is told from the others, by the payload's type or by the event's name |
| StreamWire.OtherEventsRead | internal/engine/gateway/anthropic_messages.go:449-564 | statistics and blank events pass, anything else ends the stream in an error |
| StreamWire.StreamRead | internal/engine/gateway/anthropic_messages.go:444-564 | a whole stream of events is read action by action |
| StreamMeaning.MoveKeepsMessage | internal/engine/gateway/anthropic_messages.go:489-522 | cutting a delta in two, or exchanging events of different blocks, leaves the assembled message as it was |
| StreamMeaning.FragmentationIsInvisible | internal/engine/gateway/anthropic_messages.go:365-564 | the same for any number of cuts and exchanges |
| StreamContent.StreamAssembles | internal/engine/gateway/anthropic_messages.go:375-564 | one call per closed tool block, in stop order, each with what its opening brought followed by its fragments, trimmed; the text is that of the text deltas and of the openings no delta followed |
| StreamContent.OpenStreamAssembles | internal/engine/gateway/anthropic_messages.go:531-564 | the same when blocks are still open at the end |
| StreamThinking.StreamThinks | internal/engine/gateway/anthropic_messages.go:404-423 | the thinking is that of the deltas and of openings no delta followed, and each closed thinking block hands out exactly its signature, once |
| StreamThinking.OpenStreamThinks | internal/engine/gateway/anthropic_messages.go:404-443 | the same when blocks are still open at the end |
| StreamContent.LeftOpenIsClosedInOrder | internal/engine/gateway/anthropic_messages.go:431-443 | ending with open blocks is like stopping each in index order |
| StreamFailures.NothingEmpty | internal/engine/gateway/anthropic_messages.go:375-430 | no stream gives an empty piece of text or thinking, nor a call whose input is not JSON |
| StreamFailures.FailureEndsStream | internal/engine/gateway/anthropic_messages.go:538-563 | an error ends the stream there with its text; open blocks give nothing and the rest is not looked at |
| StreamFailures.MalformedCallEndsStream | internal/engine/gateway/anthropic_messages.go:381-394 | closing a call whose opening and fragments are no JSON ends the stream in an error in its place |
| BlockHistory.BlockDescribed | internal/engine/gateway/anthropic_messages.go:468-522 | every block the parser holds is what its beginning and the deltas since then say, text, thinking, signature and input, for blocks a delta began too |
| StreamContent.OpeningTextIsLostIff | internal/engine/gateway/anthropic_messages.go:424-429 | any text block, any number of deltas: what it hands out is all the server sent for it if and only if the opening brought no text or no delta was handed out |
| StreamContent.TextIsDeltasIff | internal/engine/gateway/anthropic_messages.go:489-526 | the text is exactly that of the text deltas if and only if no close owes any |
| StreamContent.EmptyOpenings | internal/engine/gateway/anthropic_messages.go:468-522 | which holds when no opening brings text |
| StreamContent.OpeningInputCountsIff | internal/engine/gateway/anthropic_messages.go:480-487 | a call's input is that of its fragments alone if and only if the opening brought nothing or an empty object |
| Broker.StepKeepsLocks | internal/engine/subagent/broker.go:127-239 | the lock discipline around closing channels is kept by every step |
| Broker.NeverPanics | internal/engine/subagent/message.go:205-243 | over every run from the start no step sends on a closed channel or closes one twice |
| BrokerMail.StepKeepsMail | internal/engine/subagent/message.go:205-225 | mail stays genuine, addressed, at most once per mailbox and within the capacity |
| BrokerRuns.MailIsJournaledOnce | internal/engine/subagent/broker.go:162-239 | whatever a mailbox ever held was journaled first by a Send, is no orphan, is addressed to it, and came once |
| BrokerRuns.CountersSettle | internal/engine/subagent/message.go:205-225 | delivered equals received plus waiting once no Send is between channel and counter |
| BrokerRuns.BrokerCounters | internal/engine/subagent/broker.go:200-210 | sent, orphaned and delivered count exactly journaled sends, filed orphans and sends every destination took |
| BrokerRuns.OrderedIffSerial | internal/engine/subagent/broker.go:162-212 | with at most n Sends underway, every mailbox receives in journal order over all runs if and only if n is one |
| BrokerRuns.MailboxMayReorder | internal/engine/subagent/broker.go:162-212 | a run of two Sends after which a mailbox holds them against journal order |
| BrokerClosing.ClosedIffLeft | internal/engine/subagent/broker.go:127-136 | over every run: once nobody is in the middle of closing one, a mailbox is closed exactly when its agent left the registry |
| BrokerClosing.ChannelsOpen | internal/engine/subagent/message.go:205-243 | over every run: whoever is about to send on a channel or to close it finds it open |
| BrokerClosing.UnregisterHoldsLock | internal/engine/subagent/broker.go:127-136 | over every run: an unregistration keeps the write lock until its mailbox is closed |
| BrokerClosing.CloseIsFinal | internal/engine/subagent/broker.go:322-338 | over every run after it: nobody is registered, no mailbox is made, nothing is sent |
| BrokerClosing.RegisterTwice | internal/engine/subagent/broker.go:104-125 | an agent gets one empty mailbox of its own, and keeps it when it registers again |
| BrokerClosing.UnregisterAlone | internal/engine/subagent/broker.go:127-136 | an unregistration that runs through: closed, nothing lost, the lock free again |
| BrokerSends.SendAlone | internal/engine/subagent/broker.go:162-239 | from any moment nobody holds the lock, the steps of a Send that nothing interrupts make of registry, mailboxes, journal and counters what the call does on the objects |
| BrokerSends.BlankExactly | internal/engine/subagent/message.go:82-95 | a name is blank, and refused, exactly when nothing but white space is in it |
| BrokerSends.JournalIsCalls | internal/engine/subagent/broker.go:162-288 | over every run the journal is what was sent before the broker closed and what was filed, in the order of those calls |
| BrokerObjects.Mailbox.Deliver | internal/engine/subagent/message.go:205-225 | takes, drops and counts, or refuses; never blocks |
| BrokerObjects.MessageBroker.Send | internal/engine/subagent/broker.go:162-212 | journal first; every addressed mailbox with room gets the message and counts it, a full one counts a drop, no other changes; the delivered counter grows exactly when every destination took it |
| BrokerObjects.MessageBroker.Route | internal/engine/subagent/broker.go:214-239 | a broadcast reaches every mailbox, another message exactly the one named; accepted exactly when there was a destination and all had room |
| BrokerObjects.MessageBroker.Unregister | internal/engine/subagent/broker.go:127-136 | the mailbox leaves and closes; nobody else gets its messages |
| BrokerObjects.MessageBroker.FileOrphans | internal/engine/subagent/broker.go:260-288 | orphans are journaled and counted and reach no mailbox |
| BrokerObjects.MessageBroker.Close | internal/engine/subagent/broker.go:322-338 | every mailbox is closed and none is left registered |
| Pool.PoolBounds | internal/engine/subagent/pool.go:976-1031 | over every run: running equals claims not given back and stays within the limit; the listing is duplicate-free, complete and within the capacity |
| Pool.NumbersNotReused | internal/engine/subagent/pool.go:319-367 | over every run, a slot number that was in the pool once and is no longer never comes back |
| Pool.OneTaskPerSlot | internal/engine/subagent/pool.go:867-904 | with finishing in one step a slot is busy exactly when a task holds it, and holds one |
| Pool.ExclusiveIffSerial | internal/engine/subagent/pool.go:579-610 | with the separate steps one task per slot holds over all runs if and only if the limit is one |
| PoolLife.FinishIsThreeSteps | internal/engine/subagent/pool.go:867-1031 | finishing in three steps that nothing comes between is finishing in one |
| PoolLife.AbandonIsTwoSteps | internal/engine/subagent/pool.go:552-560 | so is giving a claim back before its task began |
| PoolLife.StopHoldsIff | internal/engine/subagent/pool.go:444-470 | stopping a slot keeps it out of use over every run until it is started if and only if no task is on it |
| PoolLife.TakeByNameIff | internal/engine/subagent/pool.go:976-1007 | asking for a slot by name gets it exactly when it is idle or failed, in the pool, and there is room |
| PoolLife.TakeAnyIsFirst | internal/engine/subagent/pool.go:976-1007 | asking for any slot gets the first in the listing that can be had |
| PoolLife.FinishedCanBeHad | internal/engine/subagent/pool.go:867-904 | a slot whose task ended, well or badly, can be taken again, and says how it ended |
| PoolLife.StartedCanBeHad | internal/engine/subagent/pool.go:473-490 | a slot without a task can be taken once it is started |
| PoolLife.DeletedIsGone | internal/engine/subagent/pool.go:405-437 | a deletion is refused exactly when a task is on the slot; otherwise it never comes back nor carries a task again |
| PoolLife.RolledBackIsGone | internal/engine/subagent/pool.go:344-370 | a slot the registry refused is gone for good, and no other is |
| PoolLife.OutsideOnlyIfRefused | internal/engine/subagent/pool.go:344-370 | over every run with finishing in one step, a task is on a slot outside the pool only if the registry refused that slot |
| PoolLife.RefusalStrandsATask | internal/engine/subagent/pool.go:330-370 | a run in which a task takes a new slot before the registry refuses it |
| PoolLife.ShutdownIsFinal | internal/engine/subagent/pool.go:494-516 | over every run after it no slot is made and no task taken |
| PoolObjects.SlotPool.CreateSlot | internal/engine/subagent/pool.go:300-370 | only the main agent, only with room, under a fresh name; a refused registration undoes all but the name |
| PoolObjects.SlotPool.DeleteSlot | internal/engine/subagent/pool.go:405-437 | refuses a busy slot, otherwise removes it from table and listing |
| PoolObjects.SlotPool.ClaimLocked | internal/engine/subagent/pool.go:976-1007 | takes the first usable candidate or changes nothing |
| PoolObjects.SlotPool.Release | internal/engine/subagent/pool.go:1010-1031 | a slot still busy becomes idle and one claim is given back |
| PoolObjects.Slot.RecordFailure | internal/engine/subagent/pool.go:888-904 | counts the run; failed unless stopped |
| Estimator.EstimateText | internal/engine/context/context.go:63-81 | dense and sparse characters are counted apart, each rounded up |
| Estimator.PiecesCostNoLess | internal/engine/context/context.go:57-91 | cutting text into pieces never makes it look cheaper, and no text looks free |
| Estimator.CostIsLeast | internal/engine/context/context.go:63-91 | each script costs the fewest tokens that hold its characters, at the set densities or the defaults |
| Estimator.DenseExactly | internal/engine/context/context.go:133-150 | exactly the characters of the dense scripts count as dense |
| Estimator.MessageCostExactly | internal/engine/context/context.go:93-103 | four tokens a message, two a block, and what each block carries |
| Estimator.FreeBlockIff | internal/engine/context/context.go:105-130 | a block is free exactly when what its kind carries is empty; an image never is |
| Compaction.TailStart | internal/engine/context/manager.go:343-355 | the protected tail holds exactly the last turns it should, and starts with a user message |
| Compaction.Manager.MakePlan | internal/engine/context/manager.go:336-372 | the cut lies at or before the tail, keeps exactly what fits under the line, and lists exactly the key results before it |
| Compaction.CutUnique | internal/engine/context/manager.go:356-363 | there is one such cut |
| Compaction.Manager.ForceTruncate | internal/engine/context/manager.go:374-401 | the longest suffix within the budget, or the last message |
| Compaction.Manager.Compact | internal/engine/context/manager.go:224-282 | result and report in each of the three ways it can go, never an empty result; whenever messages change, the invalidators were called |
| Compaction.TailSurvives | internal/engine/context/strategy.go:101-134 | whenever something is folded, the protected tail comes through unchanged at the end |
| Compaction.AllComeBack | internal/engine/context/manager.go:290-319 | all missing key results come back if and only if nothing kept bears their identity |
| Compaction.KeyResultsSurvive | internal/engine/context/manager.go:290-334 | when something is folded, with proper identifiers every key result of the folded part appears once, in order, ahead of what was kept |
| Compaction.KeyResultsKeptIff | internal/engine/context/manager.go:224-319 | with proper identifiers all key results are still there if and only if something was folded or none lies in what the fallback drops |
| Compaction.FallbackLosesKey | internal/engine/context/manager.go:244-257 | a conversation of one turn whose marked result the fallback drops, whatever the number of protected turns |
| Compaction.SummaryFitsIff | internal/engine/context/strategy.go:168-175 | a summary over its target is cut to at most four times it, and to within it if and only if no dense character is left |
| CompactionResults.SameIdentityIff | internal/engine/context/manager.go:321-334 | two messages count as the same exactly when their identifiers agree or, without any, role and first text do |
| CompactionResults.TruncatedTo | internal/engine/context/strategy.go:187-198 | truncating leaves the key results of what was dropped, and the rest |
| CompactionResults.SummaryStandsIn | internal/engine/context/strategy.go:101-175 | one user message with the summary stands in for what was folded, behind its key results; only a summary over its target is cut |
| CompactionResults.FailuresSurvive | internal/engine/context/manager.go:456-470 | a failed call and a marked message are still there after a fold |
| CompactionResults.OnlyKeysComeBack | internal/engine/context/manager.go:290-319 | and nothing else of the folded part is |
| CompactionResults.ReportIsHonest | internal/engine/context/manager.go:224-282 | what a report says: sizes of all but the key results put back, what was dropped, a failure exactly when the summarizer failed |
| Signature.Write | internal/engine/cache/cache.go:225-246 | the bytes written are the pre-image over the sorted tools |
| Signature.WriteField | internal/engine/cache/cache.go:605-607 | appends one length-prefixed field |
| Signature.FieldReadBack | internal/engine/cache/cache.go:605-607 | a field can be read back from in front of anything |
| Signature.UniquelyDecodable | internal/engine/cache/cache.go:225-246 | two pre-images are equal if and only if system, tool list and index are |
| Signature.AnyStableSort | internal/engine/cache/cache.go:228-232 | every stable sort by name gives this list |
| Signature.SameBytesIff | internal/engine/cache/cache.go:225-246 | two calls write the same bytes if and only if system and index agree and each name has the same tools in the same order |
| Signature.OrderIsInvisible | internal/engine/cache/cache.go:226-232 | with distinct names any order of the tools writes the same bytes |
| ResponseChain.TrimChainHistory | internal/engine/gateway/universal.go:203-213 | what follows the last turn of that response, if there is one |
| ResponseChain.ProviderGateway.ApplyResponseChain | internal/engine/gateway/gateway.go:268-296 | the chain afterwards and the messages left to send |
| ResponseChain.ProviderGateway.ChatStream | internal/engine/gateway/openai_responses.go:130-135 | the identifier attached and the messages sent |
| ResponseChain.ProviderGateway.Consume | internal/engine/gateway/gateway.go:388-401 | every identifier of a stream is recorded on both sides |
| ResponseChain.RequestsAreWhole | internal/engine/gateway/gateway.go:160-203 | with each stream consumed before the next request the records agree and every request is whole |
| ResponseChain.WholeIffDecided | internal/engine/gateway/gateway.go:268-296 | whatever happens in between, a request is whole if and only if the attached identifier is the decided one |
| ResponseChain.RecordBetweenRepeats | internal/engine/gateway/gateway.go:394-401 | a record in between sends the history twice |
| ResponseChain.InvalidateBetweenLoses | internal/engine/gateway/gateway.go:162-172 | an invalidation in between sends the end of the history alone |
| ResponseChain.StaleAdapterRepeats | internal/engine/gateway/openai_responses.go:269-291 | an adapter that already holds an identifier sends a first history whole and on top of the old one |
| ResponseChain.ConversationConserved | internal/engine/gateway/universal.go:199-213 | over a whole conversation, rewrites included, the server always works from exactly the client's history |
| ResponseChain.OnlyNewsIsSent | internal/engine/gateway/gateway.go:268-296 | after a reply that entered the history the next request builds on it and carries only what was said since |
| ResponseChain.HistoryIsTalk | internal/engine/gateway/gateway.go:268-296 | the client's history stays what was said, whatever was sent of it |
| ResponseChain.RewriteStartsOver | internal/engine/gateway/gateway.go:160-203 | a client that replaced its history sends the new one whole |
| ResponseChain.DroppedIff | internal/engine/gateway/gateway.go:268-296 | a request drops the chain exactly when state is off, nothing is sent, the records disagree or the turn is gone |
| ResponseChain.LastIdentifierStays | internal/engine/gateway/gateway.go:388-401 | of a stream's identifiers both sides keep the last that is not empty |
| ResponseChain.NextRequest | internal/engine/gateway/gateway.go:160-203 | after an invalidation a request starts over; after a stream it builds on its last identifier when the history holds that turn |
| Lsp.Reader.Read | internal/engine/lsp/protocol.go:218-278 | one message off the stream, the end, or a failure |
| Lsp.Writer.Write | internal/engine/lsp/protocol.go:291-310 | appends one frame |
| Lsp.RoundTrip | internal/engine/lsp/protocol.go:218-310 | reading the frames of any messages within the limit gives those messages and then the end |
| Lsp.CutAnywhere | internal/engine/lsp/protocol.go:218-278 | cut at any byte, exactly the messages with complete frames are read |
| Lsp.CutFrame | internal/engine/lsp/protocol.go:222-236 | a cut frame gives no message, and exactly when its end looks clean |
| LspHeaders.HeadersRead | internal/engine/lsp/protocol.go:218-278 | whatever header lines come first: a malformed one fails the read, otherwise the body is read by the last length and the last type |
| LspHeaders.FieldMeans | internal/engine/lsp/protocol.go:234-251 | a header field is told by its name in any letter case and with any space around it |
| LspHeaders.PlainLineMeans | internal/engine/lsp/protocol.go:226-236 | a blank line ends the headers, and one without a colon is malformed |
| LspHeaders.TypesTaken | internal/engine/lsp/protocol.go:259-262 | no content type, and the two that stand for JSON, with whatever follows |
| LspHeaders.NumeralRead | internal/engine/lsp/protocol.go:242-246 | a length is a signed decimal numeral within 64 bits |
| LspHeaders.OnlyNumeralsRead | internal/engine/lsp/protocol.go:242-246 | and nothing else is |
| Sse.DecodeStream | internal/engine/gateway/sse.go:44-105 | the events of any stream and whether it was read to its end |
| Sse.StreamWriter.WriteEvent | internal/engine/gateway/sse.go:161-181 | an event as lines, one data line per payload line |
| Sse.RoundTripIff | internal/engine/gateway/sse.go:44-202 | events, raw data and comments in any order read back as exactly the events written if and only if no line's content ends in a carriage return |
| Sse.ItemsArrive | internal/engine/gateway/sse.go:44-202 | what arrives in any case: each line less the carriage return it ends in, comments gone, no name left over |
| SseLines.BlockRead | internal/engine/gateway/sse.go:44-105 | any lines up to a blank one are one event: all their data, the last name and identifier; without data nothing, and nothing carries over |
| SseLines.TailRead | internal/engine/gateway/sse.go:94-105 | what a stream ends in is an event too, without a blank line or even a line break |
| SseLines.LineMeans | internal/engine/gateway/sse.go:126-135 | a field is told by its exact name, and one space in front of its value is not part of it |
| SseLines.LineMeansNothing | internal/engine/gateway/sse.go:126-135 | comments and lines without a colon say nothing |
| SseLines.LongLineFails | internal/engine/gateway/sse.go:107-119 | a line over the limit fails the stream there |
| Envelope.NeutralizedHasNoClose | internal/engine/security/wrap.go:60-63 | neither closing tag is left in any neutralized text |
| Envelope.ReplacingRemoves | internal/engine/security/wrap.go:60-63 | a replacement removes its tag even across what it inserts, and creates no other |
| Envelope.HarmlessUnchanged | internal/engine/security/wrap.go:52-63 | text without the tag comes through unchanged |
| Envelope.ToolOutputClosesOnce | internal/engine/security/wrap.go:47-49 | a wrapped result holds its closing tag once, at the very end |
| Envelope.UntrustedDocument | internal/engine/security/wrap.go:124-133 | the same for a document, whatever its source claims to be |

## Left out

- The `events` table: an insert under an automatic key, so replay appends to it again; it is kept as a list and stays out of the convergence results.
- Recovery of several streams that share a session: convergence is stated for one stream.
- Recovery.RecoverStream: the audit records a recovery writes about itself are not modelled; they go to the events table only.
- Journal.JournalSink.Write: a record that cannot be marshalled is not modelled; encoding is total.
- File handles, fsync, file locks, WAL, SQL text and the search index: byte sequences and tables stand for them.
- WriteBuffer.WriteBuffer.Drain: the sync half of a drain and its error are not modelled.
- Close of the write buffer called by somebody other than its run loop.
- AgentLoop.Agent.ExecuteLoop: identifiers, timestamps and failing random sources are not modelled; the input hooks before the first iteration are folded into its readiness.
- StreamParser.Parser.Parse: token counters of message_start and message_delta are not modelled.
- Broker.NeverPanics: the sequence number copied into a message after journaling is not modelled; a journal write is one step that succeeds or fails.
- Pool.PoolBounds: contexts, cancellation, task results, watchers and the wait of a claim are not modelled; a slot that frees up is found by the next claim.
- Compaction.Manager.Compact: the text handed to the summarizer is not built; the summarizer takes the folded messages themselves.
- Compaction.CutUnique: the budget is any positive number; the floating-point product behind it is not modelled.
- Signature.Write: hashing and hexadecimal printing are not modelled; lengths count characters.
- Lsp.RoundTrip: white space and letter case are ASCII.
- Sse.DecodeStream: a consumer that stops early is not modelled.
- HTTP transport, retries, request builders beyond the chain field, schemas, sandboxes, platform shells, the language server's process, and the tool wrappers.
- Ring buffers, glob matching, cache breakpoints and policy chains: they would only add easy members.
