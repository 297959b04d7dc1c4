# Velaros in Dafny

Velaros is a WebSocket router: messages of one connection run concurrently through a chain of handlers that is selected by
path patterns, and a handler can wait for further messages with the same message ID. This project models its four cores
and proves what they promise.

**Handler chains.** `Chain` says what calling `Next` means without cursors: a context is the list of handler slots it has not
passed yet. Handlers are arbitrary finite programs that call `Next` any number of times, set the path, the ID or an error,
panic, close the socket, or mount another router. `Contexts` is the program's own form, a context object with a saved node,
index, match flag and current handler, and each of its methods is proved to do exactly what `Chain` says. On that
definition: `ChainLaws` (order, each handler at most once), `ChainLifecycle` (gates, open and close chains, handed-over
messages), `ChainFlattening` (a tree of mounted routers is the spliced flat chain, a passing chain is filter and flatten),
`ChainHandover` (where a call of `Next` goes: into the first matching handler, to the receiver that waits there, or to the
end, and what that leaves of the registry), `ChainCalls` (what calling `Next` again does: on a context, on a list, and in a mounted router), `ChainMounts` (what a
mounted router's handlers do to the parent's chain) and `ChainLimits` (concrete chains for these). Other goroutines may have
receivers registered, and change them while a handler runs; where a theorem needs that none is in the way, it says so by a
`Scope` of IDs and handler positions.

**Message-ID locks and receiver handoff.** `Sockets` has each mutex section of a socket as a function of the socket's state and
`SocketObjects` the object whose methods perform them; `Connections` drives one connection to its end. `Protocol` is a step
machine over any number of message goroutines and IDs: one step is one mutex section, one channel operation, or one move
along the chain; looking a receiver up, removing it and sending to it are separate steps, and so are deleting a lock and
closing its channel. A context may stop at any place ahead of its cursor, so every path and handler behaviour is covered.

What the steps come to is stated on the fields of the state: `ProtocolWays` has each operation alone, from every state in
which it is called, `ProtocolHandover` the way of a message into a parked handler's hands.

Proved for every run, with timeouts, cancellation and `Close` at any time: the life of lock channels and the wake-up of
waiters (`ProtocolChannels`), exact-position delivery (`ProtocolDelivery`), the stream a handler receives
(`ProtocolStreams`), and conservation (`ProtocolLetters`): each message is in exactly one place, its own context, a
channel, taken from a channel, dropped by a cancelled socket, or drained by a receiver that ended; no channel holds two.
Without cancelled receives, `Close` included, a message is left behind only in a channel from which another was taken.

Proved for every disciplined run: mutual exclusion with ownership transfer, no deadlock, and that no message is dropped and
no channel is sent two (`ProtocolOwnership`, `ProtocolOwnershipSteps`, `ProtocolSafety`). Disciplined means that a receive
is cancelled only when its message is already in the channel, and that `Close`, which may have been called, has not got as
far as closing receivers. Messages may set IDs any number of times, handlers below a mount may set them on their copy, and
open handlers on theirs; a lock that nobody is there to release after that is recorded as leaked, and stays in the map with
no holder. That the discipline is exact is proved too (`ProtocolSafety.ExclusiveExactlyIfDisciplined`). Handing a message
over never blocks, `Close` included (`ProtocolSafety.DeliveryNeverBlocks`). `ProtocolLimits` has example runs. All contexts
of a run are top-level ones. That a handler receives before it calls `Next` is not needed for any of these results.

**Patterns.** `PatternParser` is the index-moving parser with its specification, `PatternParsing` and `PatternMounting` its
round trip and its composition, `PatternReading` what it reads from any text of one chunk and what it refuses, `Regexes` and `PatternCompiler` the generator and the expressions it emits, `PatternMeaning`
and `PatternRoutes` what those accept and capture in terms of path segments, `Mounts` what mounted patterns match,
`PatternMatching` the two matchers, and `PatternPaths` the inverse. The text of a subpattern is opaque: its language is a
parameter, so every result holds for whatever words subpatterns match; where a result needs more (words without slashes,
static text that stands for itself) it says so. The regular expression library is described by what it owes (`PatternMatching.Engine`): a match exactly if
there is one, with some valid assignment of captures.

**Registration.** `Registration` says what each registration call adds to a router, calls that panic half-way included, and
`RegistrationCalls` what one call makes of its arguments;
`Routers` is the object with three pointer-linked lists and a descriptor index, proved against it.

Two places where the code does less than its documentation suggests, each with the condition under which it does what is
said.

`Next` is documented as safe to call multiple times. Once a call has come back, another one enters no handler, and has no
effect at all with an error standing or the socket closed (`ChainCalls.SecondCall`, `ChainCalls.SpentNext`). Otherwise, if
the message was handed over, it panics, which leaves an error; if the message is still there, it removes the receiver that
is registered under an ID the message listens for, although that waits at a handler the chain never came to
(`ChainCalls.SecondCallOnList`: the world and the error stay exactly if neither applies). Below a mounted router it resumes
the parent's chain as well, even if an inner handler had stopped it, exactly if no error stands, the socket is open and the
message is still there (`ChainCalls.SecondCallResumesParent`).

`SetMessageID` is documented as blocking while another message with the ID is processed. The lock of an ID is leaked, so
that every later message with the ID waits until the socket closes, exactly if a message that has an ID sets one again, if
the ID is set on the copy of the message that a handler below a mount has, or if an open handler sets it
(`ProtocolOwnershipSteps.DisciplineIsExact`, `ProtocolSafety.LeakedForGood`). And a cancelled receive leaves its context
running without the lock, beside any other context that has taken it, exactly if no message had been delivered to it yet
(`ProtocolOwnershipSteps.CancellingKeepsLocks`).

## Model

| member | source | states |
|---|---|---|
| Contexts.Context.Next | context_next.go:16-150 | the cursor walk with its re-check, gates, delivery, dispatch and auto-advance ends in the same view and world as the cursorless definition, for every handler list and program, and a sub-context passes its error to its parent |
| Contexts.Context.constructor | context.go:91-113 | a new context has every slot of its list ahead and no error |
| Contexts.Context.Sub | context.go:118-163 | a sub-context starts its own list with a copy of the parent's message, parameters and error, and shares its receiver without owning it |
| Contexts.Context.TryMatch | handler_node.go:53-58 | matching keeps the captures on success and leaves the parameters alone on failure |
| Contexts.Context.Recheck | context_next.go:30-40 | a cached match that no longer holds for a changed path is dropped, and nothing that matches is lost |
| Contexts.Context.Walk | context_next.go:42-98 | the walk stands before the first remaining handler whose node matches the path, or at the end |
| Contexts.Context.ReachEnd | context_next.go:100-110 | at the end of the chain an unmatched receiver of this ID is dropped |
| Contexts.Context.HandOver | context_next.go:74-84 | handing over takes the message from the context and the receiver from the registry |
| Contexts.Context.Dispatch | context_next.go:112-149 | one handler is entered, lifecycle chains go on by themselves, and then nothing is ahead |
| Contexts.Context.Continue | context_next.go:139-149 | the automatic call of Next for lifecycle chains, then the list is left |
| Contexts.Context.Execute | context_next.go:152-167 | a panic of the handler becomes the context's error |
| Contexts.Context.FinalizeContext | context.go:840-855 | a context that made a receiver itself removes what is registered under its ID when it ends |
| Contexts.Context.HandleRouter | router.go:187-195 | a mounted router runs in a sub-context, which is finalized, and the parent goes on exactly if the sub-chain ran off its end |
| Chain.SkipDropsRejected | context_next.go:53-60 | what the walk passes over is a prefix of slots none of which matches the path |
| ChainLaws.NextInOrder | context_next.go:16-150 | from any state, the handlers a call enters followed by those still ahead are a subsequence of those that were ahead, for arbitrary programs |
| ChainLaws.EachHandlerAtMostOnce | context_next.go:10-16 | handlers are entered in strictly increasing registration order, so each at most once however often Next is called |
| ChainLifecycle.EntriesAreLawful | context_next.go:25-40 | at each entry the node matches the current path, the parameters are that node's captures, and no normal or open handler is entered with an error standing or the socket closed |
| ChainLifecycle.HandedOverEntersNothing | context_next.go:74-84 | a context that handed its message over enters no handler any more, whatever its handlers go on to do |
| ChainHandover.NextHandsOver | context_next.go:70-84 | a call that is let through, with a message of set ID and no own receiver, whose first matching slot is where that ID is registered: nothing is entered, the message is gone, and exactly this receiver has left the registry |
| ChainHandover.NextEnters | context_next.go:42-98 | in every other case the first matching handler function is entered, with the path, that node's captures and the state of the moment |
| ChainHandover.NextEntersMount | context_next.go:112-149 | and a mounted router in the same place, after which the list is left |
| ChainHandover.NextEnds | context_next.go:100-110 | with no matching handler ahead the end is reported, and the receiver under the message's ID goes if the context has none itself |
| ChainHandover.NextStops | context_next.go:25-28 | stopped by an error or a closed socket a call does nothing, and without a message it panics |
| ChainHandover.HandedOverOnce | context_next.go:74-84 | a receiver takes one message: the next one with its ID is entered like any other unless the ID was registered again |
| ChainHandover.ActionsChange | context.go:396-440 | what setting the path, the ID or an error, panicking, opening a receiver and closing the socket change of a context and its socket |
| ChainHandover.PanicIsError | context_next.go:152-167 | a panic ends the handler where it happens and is its context's error |
| ChainHandover.SettingIDHandsOver | context.go:396-401 | a handler that sets the ID makes the message meant for the receiver registered under it |
| ChainHandover.OwnReceiverIsNotHandedTo | context_next.go:73-74 | a context that made a receiver itself is never handed over at one |
| ChainHandover.RouterStarts | context.go:118-163 | a mounted router starts with its own list, the parent's message and error, and the parent's receiver, unowned |
| ChainHandover.RouterDropsItsReceiver | router.go:187-195 | when a mounted router is through, the receiver it made goes and any other stays |
| ChainLifecycle.CloseChainEntersAll | context_next.go:139-143 | the close chain enters every handler exactly once in registration order, mounted routers in place, for any mix of panics, errors and calls of Next, whatever the registry holds and becomes under other IDs or at other handlers |
| ChainLifecycle.OpenChainEntersPrefix | router.go:200-208 | the open chain enters a prefix of its handlers, and all of them unless the socket closed or an error stands, under the same condition on the registry |
| ChainFlattening.SplicingKeepsEntries | router.go:184-195 | a tree of mounted routers of any depth enters the same handlers under the same paths, with the same final error, as the single chain with each router's nodes spliced in under the mount pattern, as long as no receiver stands at a handler of either under an ID the message has or a handler sets |
| ChainFlattening.PassingChainFiltersAndFlattens | context_next.go:42-98 | when every handler just calls Next, the entries are exactly the handlers under matching patterns, in order, if no receiver of the message's ID stands at one of them |
| ChainCalls.SecondCall | context_next.go:16-150 | whatever a first call of Next was and did, unless it panicked, a second one does nothing if gated, panics if the message was handed over, and otherwise reports the end and removes the receiver under the message's ID |
| ChainCalls.SpentNext | context_next.go:102-149 | on a context whose call of Next has come back, exactly when another call leaves the world, panics, reports the end of the chain, or changes nothing; it never enters a handler |
| ChainCalls.SecondCallOnList | context_next.go:102-149 | for every list whose first handler has its call of Next come back, one more call there leaves world and error as they are exactly if it is gated, or the message is there and no receiver is registered under an ID it listens for |
| ChainCalls.NextReports | context_next.go:102-110 | the end flag is set by a run exactly if one of the calls of Next in it, in whichever handler, found no handler ahead; it is never cleared |
| ChainCalls.ResumesExactly | router.go:187-195 | for every mounted chain the parent's chain goes on exactly if one of the calls of Next in it ran off its end |
| ChainCalls.SecondCallResumesParent | router.go:187-195 | for every mounted chain that a handler stopped, the parent's chain goes on exactly if a repeated call, by whichever handler, was made with no error standing, the socket open and the message still there |
| ChainMounts.SecondCallOfFirstHandler | context_next.go:102-110 | for every mounted chain, the same by comparison of its first handler with and without the second call |
| ChainMounts.ParentGoesOn | router.go:187-195 | after every mounted list the parent's list goes on, under the parent's own path and message, exactly if a call of Next ran off its end and no error or close stands when its handlers have returned |
| ChainMounts.LateFailureStopsParent | context.go:857-863 | before every list: a handler that goes on after Next is followed by the same entries below a mount as in the mount's place exactly if nothing it does after Next fails or closes the socket, or nothing was left to enter (a mount of one handler) |
| ChainMounts.MountRestoresPath | context.go:130-138 | before every list: after a handler that sets the path, the parent's chain goes on under the old path below a mount and under the new one in its place (a mount of one handler) |
| ChainMounts.SetPathKeepsParent | context.go:130-138 | before a list of passing handlers, both enter the same handlers exactly if each is under patterns that accept both paths or neither |
| ChainLimits.FailingAfterNext | context.go:857-863 | an example of a late failure: the mounted chain enters one handler where the spliced one enters two |
| ChainLimits.SettingPathBelowMount | context.go:130-138 | an example of a path set below a mount and not seen by the parent's chain |
| ChainLimits.CallingNextTwiceBelowMount | context_next.go:102-110 | an example of a second call of Next that resumes the parent's chain although an inner handler stopped it |
| ChainLimits.SecondCallDropsReceiver | context_next.go:102-108 | an example, without a mount, of a second call that removes the receiver of a handler the chain never came to |
| ChainLimits.SecondCallPanics | context_next.go:70-88 | an example, without a mount, of a second call that panics after the message was handed over |
| SocketObjects.SocketObject.Close | socket.go:137-161 | the first call records, closes all receivers, forgets the locks and cancels; later ones change nothing |
| SocketObjects.SocketObject.CloseReceivers | socket.go:149-154 | every registered channel is closed and the registry emptied |
| SocketObjects.SocketObject.AcquireMessageIDLock | socket.go:322-332 | first exactly if the ID was free, with a new channel in the map; otherwise the holder's channel and no change |
| SocketObjects.SocketObject.ReleaseMessageIDLock | socket.go:339-349 | the entry goes and its channel is closed; a lock that is not held is left alone |
| SocketObjects.SocketObject.GetReceiverForNode | socket.go:286-295 | the channel of the ID exactly if it was registered at this node and index |
| SocketObjects.SocketObject.AddReceiver | socket.go:301-306 | the receiver of the ID is replaced, nothing else changes |
| SocketObjects.SocketObject.RemoveReceiver | socket.go:311-316 | the receiver of the ID is gone, nothing else changes |
| Connections.HandleNextMessage | socket.go:230-264 | one read: a recognised failure closes the socket on the reader's behalf with its own status and source, an unrecognised one panics and closes nothing: a close frame leaves the peer's status and the client as source, a cancelled read 1001 and the server, an ended stream 1001 and the client |
| Connections.FirstCloseCounts | socket.go:137-147 | of any calls of Close the first alone decides what the socket becomes |
| Connections.EndsWithFirstClose | socket.go:230-247 | when reading ends in a recognised way there is a first call of Close, and no later one, from handlers or the close chain, changes the record |
| Connections.HandleConnection | router.go:146-154 | the loop reads until a read fails and ends the connection with the status and the reason of the first call of Close there was, whoever made it; with nobody else closing, with the peer's status |
| Connections.UndisturbedCalls | socket.go:230-247 | with nobody else closing, the only call of Close is the reader's, with the peer's status, or 1001 by the server or the client |
| Connections.ReaderClosesLast | socket.go:230-247 | with others closing too, the reader's call is the last of those made while it read |
| Connections.EarliestCallIsFirst | socket.go:137-147 | a call made before a read returns counts before that read's |
| ProtocolChannels.StepKeepsLockChannels | socket.go:322-349 | each lock channel is in the map under one ID, or owed a close by one context, or closed once; never closed while in the map |
| ProtocolChannels.StepKeepsWaiters | context.go:405-420 | every waiter waits on its ID's current channel, or on one that is closed or owed a close, or the socket is closing |
| ProtocolChannels.StepKeepsClosing | socket.go:137-147 | status, reason and source never change after the first close; the close chain starts only on a cancelled socket, and the connection ends with the recorded status and reason |
| ProtocolChannels.RunKeeps | socket.go:137-161 | every continuation of a run that keeps these three keeps them, cancellation and close included |
| ProtocolChannels.LockChannelsCloseOnce | socket.go:339-349 | in every run each lock channel is closed at most once, never while it is in the map, and owed a close by at most one context |
| ProtocolChannels.NoWaiterIsStranded | context.go:405-420 | in every run a waiter's channel is its ID's entry in the lock map, or closed, or about to be closed, or the socket is closing; and unless the lock is held, the step that wakes it is possible |
| ProtocolChannels.FirstCloseWins | socket.go:137-161 | in every run the first close record never changes, the close chain runs on a cancelled socket only, and the connection ends with the recorded status and reason |
| ProtocolDelivery.StepKeepsRegistrations | context_next.go:70-88 | every step keeps: a context about to hand over stands at exactly the node and index its target was registered for, under its own ID, and entries are in order behind the cursor |
| ProtocolDelivery.DeliveredAtRegisteredPlace | context.go:817-819 | in every run, a message put on a receiver channel carries the ID it was registered under, and its context entered only handlers before the registered one |
| ProtocolDelivery.HandedOverForGood | context_next.go:74-84 | from then on, in every continuation of the run, it enters no handler and hands over no second time |
| ProtocolHandover.ReachStopsAtReceiver | context_next.go:70-98 | from every state, reaching a place ahead stops before its handler, aimed at the registered channel, exactly if the context listens and its ID is registered at that place; otherwise the handler is entered |
| ProtocolHandover.NobodyPassesItsReceiver | context_next.go:70-84 | in every run, whoever enters a place does so with no receiver standing there under the ID it listens for |
| ProtocolHandover.ParkedHandlerIsHanded | context_next.go:74-84 | from every owned state with a parked receiver and its ID's message before its place, reaching, removing, sending and taking are possible in turn, and give the handler that message's data |
| ProtocolWays.FreeLockIsTaken | context.go:396-404 | SetMessageID on a free ID maps it to a channel never used before |
| ProtocolWays.TakenLockIsAwaited | context.go:402-411 | on a taken ID it waits on the holder's channel and changes nothing else |
| ProtocolWays.LockIsTakenBelow | context.go:130-138 | below a mount it takes the lock while the message keeps the ID it has |
| ProtocolWays.WaiterTriesAgain | context.go:405-414 | a waiter is woken exactly when its channel is closed, and tries again |
| ProtocolWays.WaiterGivesUp | context.go:415-418 | it gives up exactly when the socket is done |
| ProtocolWays.TriggerIsObtained | context.go:788-803 | the first receive obtains the trigger unless it is empty |
| ProtocolWays.AsksForMore | context.go:805-811 | a further receive asks for a registration if the message has an ID, and fails otherwise |
| ProtocolWays.ReceiverParks | context.go:813-828 | it registers a new channel under the ID at the running handler, then deletes and closes the lock, and parks |
| ProtocolWays.TakingFrom | context.go:828-833 | a parked handler takes the message in its channel, and registers again if it is empty |
| ProtocolWays.ClosedReceiverRegistersAgain | context.go:828-832 | with nothing in the channel it goes on exactly when that was closed, by registering again |
| ProtocolWays.EndDropsReceiver | context_next.go:100-110 | at the end of the chain the receiver under the message's ID goes if the context has none itself |
| ProtocolWays.SendingEnds | context_next.go:76-81 | a message is sent exactly if the channel is open and has room, dropped exactly if the socket is done, and kept by a panic on a closed channel |
| ProtocolWays.GoroutineReleases | socket.go:255-261 | a goroutine whose message stayed deletes and closes the lock of its ID, and then drops and drains its receiver |
| ProtocolWays.Releasing | socket.go:257-259 | only a message that stayed, has an ID and finds its lock releases it |
| ProtocolWays.CloseClosesAll | socket.go:137-161 | the first call of Close keeps its record, closes every registered channel and leaves no receiver and no lock |
| ProtocolWays.FailedReadCloses | socket.go:230-247 | a read that fails ends reading and closes the socket if nobody has |
| ProtocolWays.ReaderEndsConnection | router.go:146-154 | once the socket is cancelled the reader ends the connection with the record |
| ProtocolStreams.StepKeepsStreams | context.go:788-838 | every step keeps the account of what each handler obtained |
| ProtocolLetters.StepKeepsLetters | context_next.go:74-84 | every step keeps: a channel holds at most one message, sent on it and not taken; what was taken was sent on that channel; what was sent is there, taken or drained; what is gone unsent was dropped by a cancelled socket |
| ProtocolLetters.StepKeepsAttended | context.go:813-837 | every step but a cancelled receive keeps: a registered channel is waited on, closed or was taken from, and nothing is left behind on one that was not |
| ProtocolLetters.MessagesAreConserved | context_next.go:74-84 | in every run each message is in exactly one place, its own context, one channel, taken from one, dropped after the socket was done, or drained from the channel of a receiver that ended; no channel ever holds two |
| ProtocolLetters.UncancelledMessagesArrive | context.go:840-855 | in every run without cancelled receives, closing included, a message in a channel is waited for or another was taken from that channel, and a drained one was left in a channel from which another was taken |
| ProtocolLetters.HandlersObtainTheirStream | context.go:788-838 | in every run a handler has obtained exactly the non-empty messages, in order, of its trigger, unless a request skipped it, followed by the messages taken from its channels; these were sent on its channels, none obtained is empty, and each message sent on its channels is taken, still there, or drained after it ended |
| ProtocolLetters.UncancelledStreamsMissNothing | context.go:813-837 | in every run without cancelled receives each channel of a handler is waited on, closed or was taken from, and a message sent on one is still there or one was taken |
| ProtocolOwnershipSteps.SendingHolders | context_next.go:76-80 | sending passes the lock from the sender to the parked owner of the channel |
| ProtocolOwnershipSteps.FoundIsParked | context_next.go:75-76 | the owner of a receiver that is found is past its release, otherwise it would hold the lock too |
| ProtocolOwnershipSteps.StepKeepsOwned | socket.go:257-260 | every disciplined step keeps exclusive ownership, awaited registrations, aimed handovers and one sender for each channel |
| ProtocolOwnershipSteps.CancellingKeepsLocks | context.go:834-835 | from every owned state, cancelling a receive leaves each live ID its one holder exactly if the message is already in the channel |
| ProtocolOwnershipSteps.SettingIDKeepsLocks | context.go:396-421 | SetMessageID on the message itself leaves each ID in the lock map its holder exactly if the message had no ID |
| ProtocolOwnershipSteps.LockingBelowKeepsLocks | context.go:130-138 | a lock tried for the copy of a message below a mount leaves each ID in the lock map its holder exactly if it is taken |
| ProtocolOwnershipSteps.DisciplineIsExact | context.go:396-421 | from every owned state, of all steps before receivers are closed exactly the disciplined ones keep each live ID its one holder, and exactly those that leak no lock keep it for the whole lock map |
| ProtocolSafety.LockHasOneHolder | context.go:396-421 | mutual exclusion: in every disciplined run the lock map has an ID exactly while one context is past SetMessageID and neither parked, handed over nor finished, or parked with a message not yet taken, or its lock is leaked; there is never a second holder, and none of a leaked ID |
| ProtocolSafety.LeakedForGood | socket.go:257-272 | until receivers are closed a leaked lock stays in the map, and no message gets past SetMessageID for its ID any more |
| ProtocolSafety.ExclusiveExactlyIfDisciplined | context.go:396-421 | as long as no receiver is closed, each live ID has its one holder all along a run exactly if the run is disciplined, and each ID in the lock map exactly if besides no message sets a second ID, no lock is got below a mount, and no open handler sets an ID |
| ProtocolSafety.HolderCanStep | context_next.go:76-84 | a holder is blocked exactly while it waits for another lock below a mount: the channel it sends on is open and has room, the message it is given is there |
| ProtocolSafety.WaitsForHolder | context.go:405-420 | whoever cannot be woken waits for a leaked lock, or for one whose holder can step or sets an ID below a mount |
| ProtocolSafety.NoDeadlock | context.go:405-420 | in every disciplined run in which no handler below a mount sets an ID, a waiter can be woken, or its lock was leaked, or another context holds it and has a step |
| ProtocolSafety.DeliveryNeverBlocks | context_next.go:76-84 | in every run without a receive cancelled too early, closing included, a context about to send can send, drop its message or panic on a closed channel, or the socket can go on closing |
| ProtocolSafety.DisciplinedMessagesArrive | context_next.go:74-84 | in every disciplined run no message is dropped and no channel is sent two; without cancelled receives none is drained and one in a channel is waited for |
| ProtocolSafety.DisciplinedStreamsMissNothing | context.go:813-837 | in every disciplined run without cancelled receives each channel a handler registered was taken from or is waited on, and every message sent on its channels was taken, but for one in the channel it waits on |
| ProtocolLimits.SecondIDLeaksLock | context.go:396-421 | an example run in which a second ID leaves the lock of the first in the map when its goroutine has ended |
| ProtocolLimits.SameIDTwiceWaitsOnItself | context.go:405-420 | an example run in which a message that sets its ID again waits on its own lock with no step left |
| ProtocolLimits.IDSetBelowMountLeaksLock | socket.go:257-260 | an example run in which an ID set once, below a mount, is still locked when the goroutine has ended |
| ProtocolLimits.IDSetInOpenHandlerLeaksLock | socket.go:268-272 | an example run in which an ID set by an open handler is still locked when the connection reads |
| ProtocolLimits.CancelledReceiverRunsWithoutLock | context.go:834-835 | an example run in which, after a cancelled receive, two contexts run with the same ID |
| PatternParser.FindClosing | pattern.go:215-221 | the first closing parenthesis after a position, or the end |
| PatternParser.ReadRune | pattern.go:190-245 | one turn of the scan, the re-scan and the parenthesis skip included, agrees with the specification and makes progress on remaining runes and kind |
| PatternParser.ParsePatternChunks | pattern.go:168-252 | the loop with its backward step computes the specified parse, errors included |
| PatternParsing.ParseUndoesRender | pattern.go:168-252 | every well-formed chunk list is parsed back from its canonical rendering |
| PatternParsing.ScanChunk | pattern.go:179-245 | one rendered chunk is read as that chunk, whatever chunk stands before or after it |
| PatternReading.PlainTextIsRead | pattern.go:179-245 | any text of a chunk without parentheses is read as one chunk: its first rune tells the kind, a mark at the very end the modifier, the rest is name or text |
| PatternReading.NamedSubpatternIsRead | pattern.go:206-223 | a subpattern after a name goes up to the first closing parenthesis, and what follows goes on with the name |
| PatternReading.WildcardSubpatternIsRead | pattern.go:194-223 | a subpattern alone or after a star is a wildcard's |
| PatternReading.UnclosedParenthesisIsSkipped | pattern.go:215-222 | a parenthesis that is never closed is left out |
| PatternReading.PatternStartsWithSlash | pattern.go:179-188 | the empty pattern has no chunks, and any other must start with a slash |
| PatternReading.NamelessSubpatternIsRefused | pattern.go:207-209 | a subpattern of a chunk without a name is refused |
| PatternReading.SubpatternAfterTextIsRefused | pattern.go:211-213 | so is one after static text |
| PatternReading.SecondSubpatternIsRefused | pattern.go:211-213 | so is a second one in a chunk |
| PatternMounting.ScanBoth | pattern.go:206-223 | a pattern after a prefix is parsed as the prefix and then the pattern, failures included, if no parenthesis of the prefix is left open or the pattern closes none |
| PatternMounting.MountedPatternParsesInTurn | pattern.go:206-223 | for parseable strings that composition holds exactly under that condition; a parenthesis left open takes in the start of the pattern |
| PatternCompiler.RegExpFromChunks | pattern.go:255-297 | the emitted text is the anchored expression of the chunks |
| PatternCompiler.EmitChunk | pattern.go:257-287 | each chunk's text is the text of its expression, for every kind and modifier |
| PatternCompiler.EmittedTexts | pattern.go:263-287 | the texts emitted for every kind and modifier |
| PatternCompiler.DefaultTexts | pattern.go:259-261 | a chunk without text stands for one segment of any runes but the slash |
| PatternMeaning.ChunkAccepts | pattern.go:263-286 | a chunk's expression matches every run of segments its modifier allows, and captures them |
| PatternMeaning.ChunkSegments | pattern.go:263-286 | a chunk's expression matches nothing else |
| PatternMeaning.CompiledMeaning | pattern.go:255-297 | a path matches with given captures exactly if it divides into segments the chunks take by their modifiers, up to one trailing slash, each named chunk capturing what it took |
| PatternRoutes.SegmentsOfJoin | pattern.go:179-184 | a path determines its segments |
| PatternRoutes.CompiledMatchesSegments | pattern.go:255-297 | for subpatterns within a segment, a path is matched exactly if the segment matcher takes all its segments, or all but an empty last one |
| Mounts.MountedPatternMatchesInTurn | router.go:479-486 | a mounted descriptor's pattern matches exactly the paths the mount prefix and then the descriptor's pattern match, with the captures of both |
| Mounts.MountPathOfLiteral | router.go:244-258 | a literal mount binds the same pattern whether written bare, with a trailing slash or with the wildcard |
| Mounts.LiteralMountMatchesBelow | router.go:244-258 | a literal mount matches exactly its own path and the paths of non-empty segments below it |
| PatternMatching.Match | pattern.go:47-63 | the loop over the groups computes the specified map |
| PatternMatching.ParamsCell.Clear | pattern.go:120-122 | clearing leaves the empty map |
| PatternMatching.ParamsCell.MatchInto | pattern.go:108-136 | for every prior map it succeeds exactly if Match does and leaves exactly Match's map, absent groups empty; on failure the prior map is untouched |
| PatternMatching.WholeKeys | pattern.go:275-286 | the groups of the emitted expression are the names of the dynamic chunks, in order |
| PatternMatching.ParamsAreCaptures | pattern.go:53-60 | with distinct names the map has exactly the names as keys and each group's text under its name |
| PatternMatching.GroupsGiveTexts | pattern.go:47-63 | a match is returned exactly if the search finds one, and each named group gives the text between its start and end, or nothing if it took no part; of groups of one name the last counts |
| PatternMatching.MatchedMeans | pattern.go:47-63 | a match is found exactly if the segment matcher matches, and its parameters are the segments each named chunk took |
| PatternPaths.Path | pattern.go:70-103 | the loop computes the specified path or the specified failure |
| PatternPaths.PathIsBuiltExactly | pattern.go:65-103 | a path is built exactly if there are as many wildcard values as wildcard chunks and a parameter for every named chunk that needs one |
| PatternPaths.PathFromValues | pattern.go:70-103 | it is the text of each chunk in order, the i-th wildcard chunk taking the i-th value, and a slash if that is empty |
| PatternPaths.FirstLackFails | pattern.go:79-93 | otherwise building fails with the lack of the first chunk that has no value |
| PatternPaths.PathIsMatched | pattern.go:65-103 | a pattern matches every path built from values its chunks can take |
| PatternPaths.MatchReturnsBuiltParams | pattern.go:47-103 | with single modifiers, matching a built path gives back exactly the parameters it was built from |
| PatternPaths.PathOfMatchIsPath | pattern.go:47-103 | without wildcards and with only single or repeating named chunks, building from what a match returned gives back the path up to one trailing slash |
| Registration.CallsRegisterInOrder | router.go:417-521 | after any calls, failed ones included, each list holds what the calls added in their order, and the descriptors are exactly the first request of each pattern, with its metadata, in the order first asked for |
| Registration.AddedAreFirst | router.go:505-521 | a described pattern is not described again and keeps the metadata of its first registration |
| Registration.BindParts | router.go:454-503 | a bind adds its descriptor, then its handlers' hooks and descriptors, then, unless one of them panicked, its node |
| RegistrationCalls.HandlersInOrder | router.go:417-436 | the handlers of a call are its arguments in their order, with exactly the options left out |
| RegistrationCalls.HandlersAppend | router.go:417-436 | and those of more arguments follow those of the earlier ones |
| RegistrationCalls.LastMetadataCounts | router.go:417-436 | the last metadata given counts |
| RegistrationCalls.BindAdds | router.go:454-503 | a bind that does not panic adds one node of all its handlers under the pattern, an open and a close node for each handler of those interfaces, in order, and, if public, asks for a descriptor with the metadata |
| RegistrationCalls.BindRefuses | router.go:438-453 | a bind adds nothing and panics exactly if it has no handler, a handler that does not handle messages, or a pattern that does not compile, the first of these that applies |
| RegistrationCalls.NestedPanics | router.go:479-485 | a mounted router panics exactly if one of its descriptors does not compile below the mount |
| RegistrationCalls.HooksAdd | router.go:272-348 | UseOpen and UseClose add one node of all their handlers to their list, or panic with the reason and add nothing |
| RegistrationCalls.UseBinds | router.go:244-258 | Use binds under everything below the mount however that is written, and under everything if none is given |
| Registration.MountedPatternCompiles | pattern.go:23-37 | a pattern below a prefix compiles exactly if both do, unless a parenthesis left open in the prefix meets one that closes it |
| Registration.MountDescribesNested | router.go:472-487 | a router whose descriptors compile mounts without a panic exactly where the mount pattern compiles, if no parenthesis is left open before a descriptor that could close it, and each descriptor is asked for below the mount with its metadata |
| Routers.Router.constructor | router.go:42-44 | a new router is empty |
| Routers.Router.AddRouteDescriptor | router.go:505-521 | the index keeps exactly the patterns of the list, none twice |
| Routers.Router.AppendNode | router.go:496-502 | appending keeps the list's first, last and links in agreement with its contents |
| Routers.Router.UseOpen | router.go:272-302 | adds one node to the open list, or panics and adds nothing; the lists and the index stay in order |
| Routers.Router.UseClose | router.go:318-348 | the same for the close list |
| Routers.Router.BindHandler | router.go:463-488 | a bound handler's hooks are appended in place, and a mounted router's descriptors are collected |
| Routers.Router.BindHandlers | router.go:463-488 | the loop goes through the handlers in order and stops at the first that panics |
| Registration.StagesEnd | router.go:463-488 | what the loop leaves behind, panic or not, is the effect of binding all handlers |
| Routers.Router.BindPath | router.go:417-503 | binding does to all three lists and the index what the specification says, panics included; without one, exactly one node is appended, of the arguments in their order without the options |
| Routers.Router.Bind | router.go:362-364 | the same for Bind |
| Routers.Router.PublicBind | router.go:380-382 | the same for PublicBind |
| Routers.Router.Use | router.go:244-258 | the same for Use, with the mount path it computes |
| Routers.ListIsAcyclic | router.go:496-502 | the nodes of a list are distinct: following the links never comes back |

## Left out

- WebSocket framing, the handshake, the HTTP upgrade, origins, headers and ping timers: I/O and library calls; a ping failure is one more call of Close.
- JSON, MessagePack and Protobuf middleware: reduced to what it does to a context (set the ID and the path, call Next); the data of a message is fixed at its arrival.
- Values stored on contexts and sockets, plain getters and setters, socket sets, sending and unmarshalling.
- `Router.Lookup` and reflection on function pointers: handlers have abstract identities.
- Real time: a timeout or a done context is a step that may happen at any moment of a wait.
- `SetMessageID` and the receive loop are steps of the protocol machine, not methods: between their turns other goroutines run.
- A chain whose socket is closed while a handler of another goroutine runs is covered by the protocol machine, which lets a context stop anywhere; `Contexts` runs one goroutine at a time, other goroutines' changes to the receiver registry being an action of the handler.
- Handlers that receive inside a mounted router or in an open handler, and messages handed over there: only the copied message becomes nil, so the parent still releases the lock; the protocol's contexts are top-level, and of what happens below a mount it has the locks that are taken there.
- IDs set by close handlers: the socket is cancelled then and its locks are forgotten.
- Chain.Do: `OpenReceiver` does not put the own registration into the registry, because a view has no position of the running handler; it can be given as an `Interfere`.
- That every parked handler is delivered to: the end of another chain and the end of a goroutine remove receivers by ID alone, so it need not be.
- The search of the regular expression library, patterns it refuses to compile, metacharacters in static text and alternation at the top of an ungrouped subpattern: a subpattern is opaque text with a language.
- A read that fails in a way the socket does not recognise panics in the reader; only recognised ends of reading are steps.
- Contexts.Context.HandOver: says that message and receiver are gone, not what becomes of the message; that it is put on the channel or dropped, and where it is from then on, is in `ProtocolDelivery` and `ProtocolLetters`.
- Contexts.Context.Sub: associated values, the data of the message and whether a receive was made are not modelled.
- Contexts.Context.FinalizeContext: removes the receiver; that its channel is drained is a step of the protocol machine, and the cancelling of the context is not modelled.
- Connections.HandleConnection: the open and close chains are given by the calls of Close they make; what they enter is in `ChainLifecycle`.
- ProtocolSafety.LockHasOneHolder: speaks of disciplined runs; `ProtocolSafety.ExclusiveExactlyIfDisciplined` says that it holds of no others until `Close` closes the receivers. Once it does, their owners go on without a lock and the lock map is emptied.
- ProtocolLetters.UncancelledStreamsMissNothing: a second message in one channel is possible after an undisciplined step or a wait given up at the close, and is not taken then; `ProtocolSafety.DisciplinedStreamsMissNothing` excludes it.
- ChainFlattening.SplicingKeepsEntries: below a mount handlers leave the path alone and call Next at most once, last; `ChainMounts.ParentGoesOn` says for every mounted list how the parent goes on otherwise, and for a mount of one handler `ChainMounts` says exactly when each of the three makes a difference.
- ChainLifecycle.CloseChainEntersAll: no receiver stands at one of the close handlers under an ID the message has or a handler sets; under other IDs and at other handlers the registry may hold anything and change.
- ChainMounts.LateFailureStopsParent: compares a mount of one handler, with no receiver registered under the message's ID, with that handler in its place; `ChainMounts.ParentGoesOn` is for every mounted list.
- ProtocolSafety.NoDeadlock: two handlers below mounts that hold an ID each and ask for the other's wait for each other, and one that asks for its own waits for itself; `ProtocolSafety.WaitsForHolder` covers these runs.
- ProtocolChannels.NoWaiterIsStranded: says a waiter can be woken, not that the scheduler lets it run.
- PatternMounting.MountedPatternParsesInTurn: asks both strings to parse, because a prefix and a pattern can fail with the same error joined and apart; `PatternMounting.ScanBoth` covers failures in one direction.
- Registration.MountDescribesNested: a compiler goes by the text of each chunk; texts that the regular expression library takes only together, such as a bracket opened in one chunk and closed in the next, are not modelled.
- PatternPaths.MatchReturnsBuiltParams: a repeating chunk may come back from a different division of the same segments, so it asks for single modifiers.
