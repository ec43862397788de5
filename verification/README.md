# ClawEh: the runtime's protocols and readers

ClawEh is a Go agent runtime. This project models its lock, reference-count and
queue protocols as state machines whose steps are single atomic actions or
lock-held sections, taken by any number of goroutines in any order, and its
sequential algorithms as methods over the same maps, sequences and flags. Where
the program updates an object in place, a class does too, and each of its
methods is proved to take the step of the state machine that stands for it
(or to compute the specification function the lemmas are about).

| file | component |
|---|---|
| `Common.dfy` | optional values, white space, the size of a set when one element moves |
| `ContextCache.dfy` | one key of the context-manager cache: fast path, build slot, eviction, session tokens |
| `Registry.dfy`, `RegistryTable.dfy` | the life of agent instances: creation, turns, deletion, reload, orphans, close |
| `WaitGraph.dfy` | which agent waits on which; asks that would close a cycle are refused |
| `Asks.dfy` | the hand-over of an ask's reply |
| `Batching.dfy` | taking a batch out of a session's queue and merging it |
| `TurnReply.dfy` | what a turn's end sends |
| `Dispatch.dfy` | session ownership, /cancel, pruning and every message's way to its one reply |
| `TurnSlot.dfy` | concurrent-turn slots, lent while a turn waits |
| `HumanDesk.dfy` | requests to people |
| `Outbound.dfy` | one channel's outbound text across reloads |
| `Outages.dfy` | connection outages and their alerts |
| `Dedupe.dfy` | the bounded cache of inbound message ids |
| `PromptCache.dfy` | the modification-time cache of the system prompt |
| `Cards.dfy` | the character card's validator and its JSON Schema |
| `PngCard.dfy` | the card in a PNG's text chunks |

A run is a sequence of states, each following from the one before by a step
somebody can take. Theorems about runs hold in every state of every run.
Names that the program does not have, such as arrival numbers, owners and
outage numbers, only tell things apart in the statements.

Where the code does less than its comments say, the code is modelled: one lemma
gives a concrete case, another says exactly when the promise holds.

- `deliver` reporting true (`agent/ask.go:110-119`, `agent/ask.go:429`) does not
  mean that the asker got the reply (`Asks.AcceptedReplyMayBeLost`); its last
  look finds the reply exactly when the send came first
  (`Asks.LastLookFindsWhatWasSent`).
- An answer a person gives is lost when the request it answers could not be
  published (`agent/human.go:291-294`), and only then
  (`HumanDesk.AnswerLostWhenPublishFails`, `HumanDesk.AcceptedIsReturnedIff`).
- The key that keeps chats apart can be the same for two chats, which a batch
  then mixes (`Batching.ChatKeysMayCollide`: a web UI session and an account,
  each with colons in its name). It tells a chat from all chats of colon-free
  names exactly when its own names have no colon (`Batching.TellsApartIff`),
  and two channels' messages without an origin may share a key exactly when the
  longer channel name, with two colons after it, starts with the shorter one
  and two colons (`Batching.PlainChatsCollideIff`).
- A message queued for a worker that has looked at its queue for the last time
  is never reported, whether the worker's done channel, which the enqueue's
  select reads, is closed by then (`Outbound.OneIsStranded`) or still open
  (`Outbound.OpenDoneIsNotEnough`). However a worker comes to end, it has
  reported what it was given, once, exactly if that last look was yet to come
  (`Outbound.ReportedIff`).
- With an alert threshold no longer than a down alert takes to prepare and send,
  an up alert may overtake its down alert (`Outages.UpMayOvertakeDown`); with a
  longer one it never does (`Outages.UpFollowsDown`). The shipped threshold is
  10 minutes (`channels/tuning.go:13`) and the checks end after 15 seconds
  (`channels/connwatch.go:282`), so it takes a send that lasts about as long as
  the threshold.
- An edit whose modification time is not after every tracked file's is not
  noticed by the prompt cache (`PromptCache.OldEditIsMissed`,
  `PromptCache.EditIsSeenIff`).
- The schema takes 1.0 and 2^63 as creation dates and the validator does not
  (`Cards.SchemaTakesMore`); a date is taken exactly when it is an int64 literal
  (`Cards.DatedIsAcceptedIff`).

A configuration in which two agents' ids name one agent is refused when it is
loaded or saved (`config/load.go:101`, `config/store.go:144`,
`config/agent_id.go:252-308`). `RegistryTable.BuildConfigEntries` says what the
registry gains from that: every instance it builds is kept or closed exactly
when the ids are distinct.

## Model

| member | source | states |
|---|---|---|
| ContextCache.StepKeepsInv | agent/context_manager.go:392-599 | every atomic action of callers, builders, invalidation and evictors keeps the cache's invariant: counts equal references, whoever holds an entry holds the cached one, open entries are cached or in the slot holder's custody, the live token is the right one |
| ContextCache.HeldManagerIsOpen | agent/context_manager.go:392-435 | in every run, a manager handed out is open and cached until its holder releases it |
| ContextCache.AtMostOneOpen | agent/context_manager.go:447-599 | a key never has two open managers |
| ContextCache.FreeSlotTokenAgrees | agent/eviction.go:228-252 | with the build slot free, the issuer's live token is the cached entry's, and there is none without an entry |
| ContextCache.RevocationHitsItsOwnToken | agent/eviction.go:228-252 | an eviction revokes its own entry's token and no successor's |
| ContextCache.RunKeepsInv | agent/eviction.go:202-252 | the invariant holds in every state of every run |
| ContextCache.AbandonedForGood | agent/context_manager.go:437-463 | in every run, once a marked entry is in nobody's use it is never held again |
| ContextCache.MarkAbandons | agent/eviction.go:322-342 | a reload's mark on an entry nobody uses makes it one of those |
| ContextCache.CallsEndHolding | agent/context_manager.go:392-435 | in every run, a call goes on until it holds an entry |
| ContextCache.SharesWhatMayBeShared | agent/context_manager.go:399-463 | undisturbed, a call takes one reference on the cached entry and holds it, unless it is marked and unused |
| ContextCache.BuildsWhatIsMissing | agent/context_manager.go:447-599 | undisturbed, it otherwise closes the marked one, revoking its token, and holds a new cached one whose token is live |
| ContextCache.EvictsWhatIsUnused | agent/eviction.go:202-252 | undisturbed, an eviction marks the entry it was handed if still cached, and uncaches, revokes and closes it if unused |
| ContextCache.DiscardsWhatIsUnused | agent/eviction.go:354-380 | the same for whatever is cached |
| ContextCache.ReissuedIsLive | agent/eviction.go:91-111 | a reissued token is the cached entry's and the live one |
| Registry.StepKeepsInv | agentreg/registry.go:567-893 | every step of creation, turns, deletion, sweep, reload and close keeps the invariant about each entry's one place, its turns and its retirement |
| Registry.RunKeepsInv | agentreg/registry.go:567-893 | the invariant holds in every state of every run |
| Registry.InstancesAreConserved | agentreg/temp.go:198-285 | every instance ever built is in exactly one place and closed at most once |
| Registry.NeverClosedInATurn | agentreg/registry.go:567-606 | only Close closes an instance a turn runs on; on one closed otherwise no turn runs or starts |
| Registry.AllClosedAfterClose | agentreg/registry.go:635-659 | after Close, once turns and calls have ended, every instance has been closed once |
| Registry.NoLostDeletion | agentreg/temp.go:420-492 | an agent marked for deletion, registered and idle has a deletion on its way unless the last was refused |
| Registry.ReplacedIsHandedOverOnce | agentreg/registry.go:807-833 | a replaced config instance is handed to closeReplaced once at most in any run, and exactly once by the time nothing is going on |
| Registry.HandoversAreRetirings | agentreg/registry.go:807-818 | the compare-and-swap has handed an instance over exactly if it is retiring |
| Registry.NoLostRetirement | agentreg/registry.go:794-817 | a replaced instance nobody undertook to close still has a turn or somebody about to look |
| Registry.CommitSettles | agentreg/registry.go:757-786 | on the maps: a config agent is registered exactly if the new configuration has it; a temporary one stays as it is in a turn, else takes its rebuilt instance, else leaves if doomed, else stays |
| Registry.CommitLeaves | agentreg/registry.go:757-806 | what is left to be done with each instance ever built: marked, released, deleted, closed or nothing |
| Registry.InsertRegisters | agentreg/temp.go:258-285 | a created agent is registered, in its first turn if asked, or is to be closed once the registry has closed |
| Registry.DeleteCloses | agentreg/temp.go:410-492 | undisturbed, deleting an idle temporary agent takes it out of the map and closes it once, when the host has released it |
| Registry.StaysRegistered | agentreg/temp.go:410-492 | in every run, an agent nobody asks to delete, and every configuration can build, stays registered through its turns and all reloads |
| Registry.ClosedForAReason | agentreg/registry.go:825-893 | an instance is on its way to be closed only because the host released it, nobody ever had it, or the registry has no place for it |
| Registry.RefusedGoesBack | agentreg/registry.go:875-893 | an agent whose deletion was refused is registered again |
| Registry.RefusedIsKept | agentreg/registry.go:825-871 | an instance that could not be released is an orphan, and the next sweep tries again |
| Registry.ReleasedIsClosed | agentreg/registry.go:825-842 | one that was released is closed |
| RegistryTable.Table.BeginTurn | agentreg/registry.go:567-581 | a turn of any agent begins exactly on its registered instance, counted by the agent or the entry; the fields take the model's step |
| RegistryTable.Table.EndTurn | agentreg/registry.go:583-606 | the turn leaves the count, and the one that leaves the agent idle goes on to look at both marks |
| RegistryTable.Table.MarkForDeletion | agentreg/temp.go:419-449 | closed, not found, not temporary, or the mark is set, in that order |
| RegistryTable.Table.TakeForDeletion | agentreg/temp.go:461-480 | the entry leaves the map exactly when the registry is open and the agent temporary and idle |
| RegistryTable.Table.PutBack | agentreg/registry.go:875-893 | a refused entry goes back unless its place is taken or the registry closed |
| RegistryTable.Table.KeepAsOrphan | agentreg/registry.go:862-871 | an unreleased instance is kept, or is the caller's to close once Close has run |
| RegistryTable.Table.TakeOrphans | agentreg/registry.go:844-858 | a sweep takes the whole list, no instance twice |
| RegistryTable.Table.TakeAll | agentreg/registry.go:635-649 | Close takes each instance of the map and the orphans once, and later calls none |
| RegistryTable.Table.Commit | agentreg/registry.go:747-800 | the new map is the one the decisions make, and the instances left to release, delete, mark and close are exactly theirs; the model takes the step |
| RegistryTable.Merge | agentreg/registry.go:757-781 | the loop over the map, whatever the order, makes the map asked for and leaves exactly the instances named |
| RegistryTable.Instances | agentreg/registry.go:635-649 | each instance of the map, once |
| RegistryTable.BuildConfigEntries | agentreg/registry.go:361-403 | every instance built is kept or closed exactly when the ids are distinct, which loading and saving a configuration make sure of; then the order is the configuration's |
| WaitGraph.Graph.ReachesLocked | agent/ask.go:181-195 | the search with one shared set of seen agents finds a path only if there is one, and otherwise has seen a set no edge leaves |
| WaitGraph.Graph.HasPath | agent/ask.go:151-165 | the search from an empty seen map returns true exactly when there is a path |
| WaitGraph.Graph.Begin | agent/ask.go:151-165 | refuses exactly the waits whose target already waits on the caller, and records the others |
| WaitGraph.Graph.End | agent/ask.go:168-179 | removes one wait, leaving no empty row |
| WaitGraph.AddWaitClosesCycleIff | agent/ask.go:144-165 | recording a wait closes a cycle exactly when the target already waits on the caller |
| WaitGraph.EndWaitKeepsAcyclic | agent/ask.go:168-179 | ending a wait closes no cycle |
| WaitGraph.AfterCalls | agent/ask.go:144-179 | after any calls, counts are granted begins less ends and nobody waits on itself |
| WaitGraph.SomeoneCanRun | agent/ask.go:139-143 | a non-empty graph has an agent waiting on one that waits on nobody |
| Asks.StepKeepsInv | agent/ask.go:54-119 | every accepted reply is in exactly one place: being sent, in the channel, or with the asker |
| Asks.AcceptedOnce | agent/ask.go:108-119 | however many replies race, deliver reports true once at most |
| Asks.GoneClosedOnce | agent/ask.go:91-99 | the gone channel is closed exactly once, when the ask leaves the registry |
| Asks.SendNeverBlocks | agent/ask.go:117-118 | the send after the unlock always finds the channel free |
| Asks.LastLookFindsWhatWasSent | agent/ask.go:398-422 | the asker's last look returns a reply exactly when one was sent before it, and otherwise says whether the wait ran out or was cancelled |
| Asks.AnswerWasAccepted | agent/ask.go:398-422 | what the asker returns as a reply was accepted by deliver |
| Asks.ReceivedIsReturned | agent/ask.go:398-412 | a reply received while waiting is the accepted one, and is returned |
| Asks.UnsentIsToldSo | agent/ask.go:80-106 | an ask that could not be queued is closed before any reply, and its asker told |
| Asks.AcceptedReplyMayBeLost | agent/ask.go:424-437 | a run in which deliver reports true and the asker times out |
| Asks.AskRegistry.OpenAsk | agent/ask.go:80-89 | registers the ask, its gone channel open |
| Asks.AskRegistry.TakeLocked | agent/ask.go:92-99 | removes the ask, closes its gone channel, and reports whether it was waiting |
| Asks.AskRegistry.Close | agent/ask.go:102-106 | the ask is no longer waiting and its gone channel closed once; the model takes the step |
| Asks.AskRegistry.DeliverLocked | agent/ask.go:110-116 | accepts exactly when the ask was waiting, and then the one send is free to go |
| Batching.ChatKeyIsInjective | agent/session_dispatch.go:137-143 | with no colon in channel names, two chats have one key exactly when they are one chat |
| Batching.QueuedChatsTellApart | agent/session_dispatch.go:137-143 | two messages are of one chat exactly when channel, origin channel and chat id are the same |
| Batching.TellsApartIff | agent/session_dispatch.go:137-143 | the key tells a channel's chats from all chats of colon-free names exactly when its own names have no colon |
| Batching.PlainChatsCollideIff | agent/session_dispatch.go:137-143 | for any two channels, exactly when messages without an origin may share a key |
| Batching.ChatKeysMayCollide | agent/session_dispatch.go:145-152 | a web UI message and an account's, without an origin, that one batch holds |
| Batching.Queue.TakeBatch | agent/session_dispatch.go:153-175 | the loop takes exactly the messages that join the batch, merged, and leaves the others in order |
| Batching.ChatOrderIsKept | agent/session_dispatch.go:145-152 | batch then rest hold each chat's messages in the order they were queued |
| Batching.NothingLost | agent/session_dispatch.go:153-175 | batch and rest together hold every message once |
| Batching.BatchIsOneChat | agent/session_dispatch.go:145-152 | messages of different chats are never merged |
| Batching.BatchIsTheChatUpTo | agent/session_dispatch.go:145-175 | the batch is the first message alone, or all of its chat up to the next message that must run alone |
| Batching.AloneIsAlone | agent/session_dispatch.go:177-181 | a command, a message that requires a reply and every message of a single-shot agent is a batch of its own |
| Batching.TakenWithin | agent/session_dispatch.go:153-175 | a message at index i is taken within i + 1 batches, whatever arrives meanwhile |
| Batching.EveryChatInOrder | agent/session_dispatch.go:153-175 | over any run of takes and arrivals each chat's messages come out in order |
| Batching.EveryMessageOnce | agent/session_dispatch.go:153-175 | over any such run none is lost or repeated |
| Batching.MergeMessages | agent/session_dispatch.go:186-202 | the loop computes the merged message |
| Batching.MergingIsAssociative | agent/session_dispatch.go:183-202 | contents and attachments are kept in order, so merging in two goes is merging in one |
| Batching.MergingOneMore | agent/session_dispatch.go:183-202 | one message more adds its content on a line and its attachments, and the merged message is to its chat |
| Batching.MergedRunsAloneIff | agent/session_dispatch.go:177-202 | a merged turn is a command, or owes a reply, exactly when its first message does |
| Batching.LinesMakeNoCommand | commands/request.go:53-62 | joining contents that are no commands makes none |
| Batching.HasCommandPrefixIff | commands/request.go:53-62 | a command prefix is a slash or an exclamation mark after white space only |
| TurnReply.RequiredIsDroppedIff | agent/turn_reply.go:246-290 | a required reply is dropped exactly when the asker stopped waiting and the agent was there to ask |
| TurnReply.RequiredIsAnsweredIff | agent/turn_reply.go:31-95 | a required reply to an ordinary chat goes out once, to that chat, with an outcome that tells whether the turn failed, unless the turn ended with the asker gone |
| TurnReply.AnsweredTurn | agent/turn_reply.go:173-290 | what a chat gets when its turn did not fail: the response with its outcome, the bare outcome where a reply is required, or nothing |
| TurnReply.FailedTurn | agent/turn_reply.go:266-272 | what it gets when it failed: the error as rendered, or that /cancel ended it |
| TurnReply.NobodyAnswered | agent/turn_reply.go:240-265 | what a required reply says when there was no agent, or a person, to answer |
| TurnReply.DroppedQuietly | agent/turn_reply.go:240-258 | and when nothing is said because none was required |
| TurnReply.AskerGets | agent/turn_reply.go:292-303 | what an asker gets: the response, the error, a person's refusal or absence by name, or nothing once it stopped waiting |
| TurnReply.EachDroppedOnce | agent/turn_reply.go:305-328 | each message /cancel drops gets one reply if it requires one from a chat, and none otherwise |
| TurnReply.DroppedAreToldInTheirChat | agent/turn_reply.go:305-328 | each of those replies says so to the chat of a dropped message that required it |
| TurnReply.Bus.PublishInboundReply | agent/turn_reply.go:176-197 | a required reply is always published, another only with text that was not sent already |
| TurnReply.Bus.EndTurn | agent/turn_reply.go:52-95 | what a turn's end publishes and what it hands to an asker |
| TurnReply.Bus.EndTurnOnShutdown | agent/turn_reply.go:135-160 | an interrupted turn that asks a person is answered as cancelled, to the asker always and to a chat if it requires a reply; a model turn's sender gets nothing now |
| TurnReply.Bus.PublishCancelledReplies | agent/turn_reply.go:308-328 | the loop publishes exactly the replies the dropped messages require, in order |
| Dispatch.StepKeepsInv | agent/session_dispatch.go:246-346 | every step keeps ownership, reference counts and the place of every message |
| Dispatch.RunKeepsInv | agent/session_dispatch.go:246-346 | the invariant holds in every state of every run |
| Dispatch.OneOwnerPerKey | agent/session_dispatch.go:49-86 | two goroutines never drain the same key, though its entry may be pruned and made again |
| Dispatch.NoLostWakeUp | agent/session_dispatch.go:265-324 | while the context is live, whatever is queued has an owner, in the session new arrivals join |
| Dispatch.NeverTwoReplies | agent/session_dispatch.go:302-346 | a message that requires a reply from a chat never gets two |
| Dispatch.UnansweredIsInHand | agent/session_dispatch.go:302-346 | until it is answered, the goroutine returned has it in hand or owns the session it is queued in, unless shutdown came first |
| Dispatch.EveryoneIsAnsweredOnce | agent/turn_reply.go:31-95 | once every goroutine is done, and without shutdown, it has had exactly one reply |
| Dispatch.ChatsStayInOrder | agent/session_dispatch.go:265-317 | over every run, in every session, each chat's messages leave the queue, in batches or dropped, in the order they were queued, and the rest wait in that order |
| Dispatch.LeavesWithin | agent/session_dispatch.go:302-317 | over every run, a message at index p of a queue has left it by its session's (p + 1)-th take |
| Dispatch.TakenIsRun | agent/session_dispatch.go:302-319 | the batch taken is what its owner goes on to run while the context is live |
| Dispatch.TurnReplies | agent/turn_reply.go:52-95 | a turn that ends well publishes its response to the chat of its last message, once; one that says nothing and owes nothing publishes nothing |
| Dispatch.SessionState.Enqueue | agent/session_dispatch.go:265-276 | the message joins the end of the queue, and the caller owns the session exactly if it was idle |
| Dispatch.SessionState.Cancel | agent/session_dispatch.go:106-118 | drops the queue, cancels the running turn, and records both |
| Dispatch.SessionState.TakeCancelResult | agent/session_dispatch.go:123-135 | reads and resets what /cancel recorded |
| Dispatch.SessionState.TakeNext | agent/session_dispatch.go:302-317 | the next batch, with its cancel function registered, or an idle session |
| TurnSlot.StepKeepsInv | agent/turn_slot.go:64-111 | every step keeps the tokens equal to the slots held or about to be |
| TurnSlot.TokensAreConserved | agent/session_dispatch.go:206-231 | tokens out are the turns holding one, at most the limit |
| TurnSlot.GivingBackNeverBlocks | agent/session_dispatch.go:227-231 | a held slot's token is in the channel |
| TurnSlot.HeldUnlessWaiting | agent/turn_slot.go:88-111 | a turn with a wait in progress holds none; one without holds one unless its context ended |
| TurnSlot.OverForGood | agent/turn_slot.go:76-86 | a turn that is over never holds a slot again |
| TurnSlot.WithoutOnlyWhenEnded | agent/turn_slot.go:99-111 | a turn goes on without its slot only because its context ended while it waited for one |
| TurnSlot.LastWaitReclaims | agent/turn_slot.go:104-111 | exactly the last wait of a live turn goes on to take the slot back |
| TurnSlot.Semaphore.Acquire | agent/session_dispatch.go:206-225 | takes a place, or fails only when the context has ended |
| TurnSlot.Semaphore.Release | agent/session_dispatch.go:227-231 | gives one place back |
| TurnSlot.TurnSlot.Acquire | agent/turn_slot.go:66-74 | held exactly when a token was taken |
| TurnSlot.TurnSlot.Release | agent/turn_slot.go:78-86 | gives back what is held, and the turn is over |
| TurnSlot.TurnSlot.Lend | agent/turn_slot.go:89-97 | the first wait gives the slot up |
| TurnSlot.TurnSlot.Reclaim | agent/turn_slot.go:104-111 | the last wait of a live turn takes the slot back unless the context ended |
| HumanDesk.StepKeepsInv | agent/human.go:118-169 | every step keeps one request per agent's slot and every accepted answer in one place |
| HumanDesk.OneRequestAtATime | agent/human.go:235-255 | a person has one request at a time |
| HumanDesk.AnsweringNeverBlocks | agent/human.go:159-169 | the send under the lock never blocks |
| HumanDesk.AcceptedIsReturnedIff | agent/human.go:291-350 | a request takes one answer at most, from its own chat, and returns it unless it could not be published |
| HumanDesk.TakenFromItsChatIff | agent/human.go:159-169 | an answer is taken exactly when it comes from the pending request's chat; any other changes nothing |
| HumanDesk.ReceivedIsReturned | agent/human.go:301-304 | what the select receives is the accepted answer, and is returned |
| HumanDesk.UnansweredForItsReason | agent/human.go:304-350 | a wait that ends unanswered ends with its reason, the slot and the entry free |
| HumanDesk.AnswerLostWhenPublishFails | agent/human.go:291-294 | a reachable state in which an accepted answer is not returned |
| HumanDesk.Desk.Set | agent/human.go:132-139 | registers the request; nothing else was pending |
| HumanDesk.Desk.ClearRequest | agent/human.go:141-147 | unregisters this request and no other |
| HumanDesk.Desk.AnswerRequest | agent/human.go:159-169 | takes exactly an answer from the pending request's own chat |
| Outbound.StepKeepsInv | channels/manager.go:663-696 | every step of dispatcher, workers and reload keeps the order and every message's one place |
| Outbound.RunKeepsInv | channels/reload.go:54-199 | the invariant holds in every state of every run |
| Outbound.AttemptsInOrder | channels/lifecycle.go:134-164 | across reloads, what is attempted is an in-order part of what was routed to the channel; how much of it, CleanEndAttemptsAll, HeldIsAttempted and ReportedWasTried say |
| Outbound.CleanEndAttemptsAll | channels/manager.go:663-696 | what a worker was given has been attempted when it ends before its context does |
| Outbound.StartGivesBacklog | channels/lifecycle.go:130-164 | a start that succeeds gives its worker everything held, in order, and reports nothing |
| Outbound.HeldIsAttempted | channels/lifecycle.go:130-164 | what was held when a start succeeded has been attempted when that worker ends before its context does |
| Outbound.ReportsForAReason | channels/manager.go:663-737 | a step reports only what was attempted, unless shutdown, a full hold, a missing channel, a failed start or a cancelled worker is why |
| Outbound.ReportedWasTried | channels/manager.go:663-737 | in every run, whatever has been reported was attempted or refused at some step for such a reason |
| Outbound.HoldGrows | channels/lifecycle.go:366-380 | a hold takes one text or medium more exactly while the two together are below the limit |
| Outbound.TimeoutEndsDrain | channels/lifecycle.go:334-356 | a drain past its time cancels its worker and can end |
| Outbound.ReportedOnceAtMost | channels/manager.go:733-737 | no sender is told twice |
| Outbound.CleanEndReportsAll | channels/manager.go:663-696 | what a worker was given is reported exactly once when it ends before its context does |
| Outbound.ReportedIff | channels/manager.go:663-696 | when a worker has looked at its queue for the last time, cancelled or not, a message given to it before is reported once, and one given to it after never is |
| Outbound.NeverOnAClosedQueue | channels/manager.go:102-129 | nothing is sent on a closed queue |
| Outbound.StrandedForGood | channels/manager.go:102-116 | a message queued after a worker's last look is never reported, and only a cancelled worker's queue can hold one |
| Outbound.OneIsStranded | channels/manager.go:102-116 | a reachable state with such a message, the worker's done channel closed |
| Outbound.OpenDoneIsNotEnough | channels/manager.go:664-688 | a reachable state in which the message is queued after the last look and before the close of done |
| Outbound.HeldOutbound.HoldText | channels/lifecycle.go:368-380 | refused exactly when the hold is full, the first refusal told apart |
| Outbound.ChannelWorker.Enqueue | channels/manager.go:102-116 | queued only on an open worker with room; the answer that it is closed means closed or done |
| Outbound.ChannelWorker.CloseQueues | channels/manager.go:120-129 | the worker is closed |
| Outages.StepKeepsInv | channels/connwatch.go:47-140 | every report, expiry and send keeps watches, aggregator, ledger and alert stream in agreement |
| Outages.AggregatorAgrees | channels/connwatch.go:212-256 | affected is part of down, alerted holds while something is affected, down is what the watches say, however long alerts take |
| Outages.StartStands | channels/connwatch.go:66-90 | an outage starts at the first failure, and its start never moves while it lasts |
| Outages.EndedIsForgotten | channels/connwatch.go:47-140 | a channel that reconnects or stops is down and affected no more |
| Outages.ExpiryAlerts | channels/connwatch.go:221-256 | the first outage to last as long as the threshold raises the alert over all that is down, and a later one joins |
| Outages.StartFindsNoPreparer | channels/connwatch.go:221-240 | an outage starts only when no earlier down alert is still being prepared |
| Outages.UpFollowsDown | channels/connwatch.go:381-422 | no alert twice, and no up alert before its down alert |
| Outages.OneUpPerDownIff | channels/connwatch.go:381-422 | every outage has its down alert, and its up alert exactly if it is over and an affected channel reconnected |
| Outages.UpMayOvertakeDown | channels/connwatch.go:99-125 | with a threshold no longer than the preparation, a reachable state where an up alert came first |
| Outages.Aggregator.RecordFailure | channels/connwatch.go:211-215 | the channel is down since the given time |
| Outages.Aggregator.Expired | channels/connwatch.go:221-256 | the first expiry raises the alert and counts everything down; later ones join |
| Outages.Aggregator.LeaveLocked | channels/connwatch.go:381-410 | the last affected channel to leave ends the outage; the up alert is held while the down alert is prepared |
| Outages.Aggregator.DownSent | channels/connwatch.go:415-422 | hands out what was held |
| Dedupe.InboundDedupe.Duplicate | channels/base.go:61-82 | true exactly when the key was last recorded less than the TTL ago and fewer than 1024 other keys since; records it otherwise |
| Dedupe.InboundDedupe.EvictOldest | channels/base.go:77-80 | the loop keeps the newest 1024 |
| Dedupe.NewestIff | channels/base.go:49-54 | a key is among the newest n exactly when fewer than n others were recorded since |
| Dedupe.AfterIsSince | channels/base.go:49-54 | what follows a key in recording order is what was recorded since |
| PromptCache.Builder.SystemPrompt | agent/context.go:384-424 | returns what a full build would for the current files and date |
| PromptCache.UnchangedReadsTheSame | agent/context.go:543-664 | with every write given a later time, an unchanged cache is of what the files hold now |
| PromptCache.EditIsReadIff | agent/context.go:331-380 | an edit changes what the prompt is made of exactly when it is of a source or a skill file |
| PromptCache.EditIsSeenIff | agent/context.go:580-597 | an edit of a source is noticed exactly when its time is after every tracked file's |
| PromptCache.OldEditIsMissed | agent/context.go:580-597 | an edit that brings an older time along leaves a stale prompt in use |
| PromptCache.SkillEditIsSeenIff | agent/context.go:609-630 | an edit of a skill file is noticed exactly when its time is another |
| PromptCache.Builder.AnyChanged | agent/context.go:560-571 | finds a changed path exactly if there is one |
| PromptCache.Builder.SkillFilesChanged | agent/context.go:609-664 | the two loops compare the skill files and times with the snapshot |
| PromptCache.Builder.SourceFilesChanged | agent/context.go:543-573 | says exactly whether the cache is to be rebuilt |
| PromptCache.Builder.BuildBaseline | agent/context.go:487-534 | existence, skill times and the newest time of everything tracked |
| PromptCache.Builder.Invalidate | agent/context.go:429-440 | the cache is empty |
| Cards.ValidateMeetsSchema | ccv3/schema.go:97-170 | the validator reports nothing exactly when the card conforms to the schema, its name is not blank and its integers are int64 literals |
| Cards.KindAgrees | ccv3/schema.go:141-174 | the same, member kind by member kind |
| Cards.MembersAgree | ccv3/schema.go:108-138 | the same, for a table of fields |
| Cards.AcceptedByName | ccv3/validate.go:41-66 | a card is accepted exactly when its name is not blank and each member is one the format defines, of the type given by name |
| Cards.BookByName | ccv3/validate.go:68-77 | the same for a lorebook |
| Cards.EntriesByName | ccv3/validate.go:79-96 | and for its entries, which need keys, content, enabled and insertion_order, and have one of two positions |
| Cards.AssetsByName | ccv3/validate.go:98-99 | an asset's type, uri, name and ext are text |
| Cards.DescribedIsAccepted | ccv3/validate.go:41-66 | a name and a text description are a card |
| Cards.KeylessEntryIsRefused | ccv3/validate.go:79-96 | a card with a lorebook entry without keys is refused |
| Cards.DatedIsAcceptedIff | ccv3/validate.go:309-313 | a creation date is taken exactly when it is an int64 literal |
| Cards.SchemaTakesMore | ccv3/schema.go:149-150 | two creation dates the schema takes and the validator refuses |
| Cards.Checker.CheckObject | ccv3/validate.go:158-178 | adds issues exactly for wrong or missing members and unknown paths exactly for unknown ones |
| Cards.Checker.CheckValue | ccv3/validate.go:181-225 | adds an issue exactly when the value is not of its kind |
| Cards.Checker.CheckAssets | ccv3/validate.go:227-246 | the same for the assets list |
| Cards.Checker.CheckEntries | ccv3/validate.go:248-269 | the same for lorebook entries and their position |
| Cards.Checker.Check | ccv3/validate.go:140-155 | the whole card, with its name |
| Cards.Validate | ccv3/validate.go:125-136 | reports nothing exactly when the card is accepted |
| Cards.BuildObjectSchema | ccv3/schema.go:108-138 | the loop builds the closed schema of the table |
| PngCard.WalkUndoesEncoding | ccv3/importer.go:210-241 | walking encoded chunks up to an IEND finds what they carry; one text chunk with a wrong checksum refuses the file |
| PngCard.WalkedIsEncoded | ccv3/importer.go:210-241 | a file the walk does not call damaged is such an encoding |
| PngCard.CardOfFile | ccv3/importer.go:206-266 | the card is the last ccv3 text, else the last chara text, else none |
| PngCard.TextFollowsKeyword | ccv3/importer.go:229-238 | a chunk's text begins after the zero byte that ends its keyword, and without one it has none |
| PngCard.KeywordInAnyCase | ccv3/importer.go:234-236 | the keyword counts in any case |
| PngCard.TextIsDecoded | ccv3/importer.go:250-266 | the text is decoded without the blanks around it, unless too large, and the decoder's output is the card |
| PngCard.EmbeddedCardIsFound | ccv3/importer.go:206-266 | a file with a card in its last ccv3 chunk yields that card |
| PngCard.LastIsKept | ccv3/importer.go:234-238 | of several texts with a keyword, in any case, the last is kept |
| PngCard.EncodedIsRead | ccv3/importer.go:213-227 | reading a chunk undoes writing it |
| PngCard.ReadIsEncoded | ccv3/importer.go:213-227 | writing a chunk undoes reading it |
| PngCard.ReadPngCard | ccv3/importer.go:210-241 | the loop never reads out of range, ends, and computes the walk |

## Left out

- ContextCache.RunKeepsInv: the atomics are steps of a state machine on values, not methods of a class, because no method boundary is atomic here; a panic while an entry is built and shutdown's draining are not steps.
- ContextCache.FreeSlotTokenAgrees: issuing a new token for a held entry is one step, and every issue succeeds.
- Registry.InstancesAreConserved: configured ids are taken as distinct, since a configuration in which two ids name one agent is refused (`config/agent_id.go:252-308`), and apart from the temporary ones (UUIDs); a creation may overlap a reload and one goroutine's jobs may run in any order, which allows more runs than the code has; the rebuilt entry of an id always shares its turn count with the old one, so the commit's comparison of the two is not a branch.
- Registry.AllClosedAfterClose: Close's wait for background goroutines is the quiet state the statement requires.
- Asks.AcceptedOnce: ask ids are fresh (UUIDs).
- Dispatch.EveryoneIsAnsweredOnce: a reply published counts, whether or not the bus then delivers it; messages of a person's own chat, asks and the system channel are outside the statement; which messages are /cancel commands is arbitrary.
- TurnReply.RequiredIsAnsweredIff: an error's rendered text is a parameter; errors are the set of kinds they match.
- Batching.MergeMessages: sender and peer details, session keys and media scopes of a message, which merging takes from the last one.
- HumanDesk.AcceptedIsReturnedIff: what a late answer is told (the record of expired requests) and whispers.
- Outbound.AttemptsInOrder: one channel, text only; media share the hold's limit and nothing else; retries, splitting and rate limits are inside one attempt; StopAll's own waits and the direct SendMessage and SendToChannel are not steps.
- Outages.UpFollowsDown: one platform; preparing and sending a down alert together take at most the check timeout; alert texts are numbers.
- Dedupe.InboundDedupe.Duplicate: keys are only compared, so they are numbers; the nil cache, which reports nothing, is not a value.
- PromptCache.Builder.SystemPrompt: read and walk errors, and file changes during a call; what a prompt is made of is a parameter over the tracked contents and the date.
- Cards.Checker.CheckObject: raw JSON text is a decoded value that keeps how a number was written; the order of unknown members.
- Cards.BuildObjectSchema: the form for merge patches (no dates, nothing required, null allowed) and the descriptions of members, which no card is checked against.
- PngCard.CardOfFile: the checksum and the base64 decoder are parameters; white space other than ASCII around the text; the signature check and the size limit of the whole file.
- Model calls, tools, MCP, vision, transcription, memory archives and asynchronous results.
- Disk persistence of temporary agents, directory removal and restart recovery.
- Regex redaction, log fields, alert and notice texts, routing and configuration lookup.
