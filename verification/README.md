# Authentication pipeline of kiran-session-guard, in Dafny

The lock screen and the login greeter share one authentication pipeline. A child
process (`checkpass`) talks to PAM and exchanges length-prefixed JSON events with its
parent over two pipes. The parent object `AuthPam` turns events into signals and makes
up a completion when the child dies. `AuthProxy` merges them with the messages of the
authentication service, answers three special prompts itself, owns the service
session, and appends everything else to a message queue. A dispatcher thread takes
messages out of the queue, spaces them at least an interval apart, and posts them to the
main thread, where a front end shows prompts, sends replies back and acts on the
verdict. This project models that pipeline and the two front ends, and proves what
holds in every run: with child crashes, cancels, restarts, service messages and every
interleaving of the two threads and the child.

## How the model is built

Each class of the program whose methods update fields is a Dafny class with the same
fields, and each of its methods is proved equal to a function on the fields' values.
Lemmas and step machines speak about those functions, so a class and a machine share
one definition of every handler.

| file | what it models |
|---|---|
| `AuthTypes` | events, queued messages, and their provenance |
| `PamMessage` | frames, the event/object codec, streams of frames, the channel functions |
| `Conversation` | the child's PAM conversation, as a loop over an array of replies |
| `AuthPam` | the parent: authenticate, respond, cancel, pipe activation, child exit |
| `DispatchQueue`, `DispatchQueueInvariant`, `DispatchQueueTheorems` | the two-thread queue as a step machine, its invariant, and what callers may rely on |
| `DispatcherWorker` | the worker's methods in imperative form, and every kind of turn of its loop as a schedule of the machine |
| `AuthProxy` | the proxy's handlers, and session ownership and reply routing over whole histories |
| `ScreenSaverDialog`, `GreeterLoginWindow` | the front ends: unlocking, restarting, and the greeter's mode machine |
| `UserListWidget` | the user list that mirrors a filtered model |
| `Pipeline`, `PipelineInvariant`, `PipelineSteps`, `PipelineFlight`, `PipelineEpoch`, `PipelineTheorems` | child, pipes, parent, proxy, queue, event loop and unlock dialog as one machine, its invariant step by step, and the end-to-end theorems |
| `PipelineConversation`, `DispatchQueueWitness`, `PipelineWitness` | the child of that machine as a conversation and back, what its messages become in the queue, a run that unlocks and one that nobody hears of |

In the queue machine every lock region, semaphore call and access to a field that both
threads use is one step; `available()` and `acquire(n)` are two. The clock counts
milliseconds and is read in whole seconds. Emitted signals are posted to the main
thread's event loop, which is modelled, so a stop does not recall a signal already
posted. In the pipeline machine a handler that appends to the queue or stops it takes
several steps, between which the dispatcher and the child move freely.

What the environment decides is a parameter or a step: what `pipe` and `fork` answer, when the
child writes, reads, finishes or dies, what PAM concludes, the service's answer to
CreateAuth and its messages, clock ticks, whether a wait has run out, user input, and
row changes of the user models.

## What the proofs found

These are facts about the program, each stated by a lemma with its exact condition.

* `stopDispatcher` can block for ever, if and only if the dispatcher runs and a permit is
  available when it is called (`StopCanBlockIff`). It does so when the dispatcher takes a
  permit between `available()` and `acquire(n)` (`BlockedDrainStaysBlocked`, and
  `FirstDrainCanBlock` for a schedule from the start). Past the first drain a stop always
  ends.
* A negative interval makes the 64-bit due time wrap around: a message that is not exempt
  then waits more than 2^63 milliseconds whenever the recorded show time plus the
  interval is below zero, as it is after every stop (`WaitsIff`, `WaitIsBoundedIff`).
* The greeter's auto-login button and timer begin an authentication without cancelling
  one that is going on; every other way to begin one cancels first (`CancelsFirstIff`).
* A run of the child that follows another without a cancel in between reports nothing if and
  only if it dies before its Complete event and one was received before
  (`SilentRunIff`, and `SilentRunHappens` for a whole run): `authenticate` lowers the flag only through `cancelAuthentication`.
* After a run's completion entry nothing is appended to the queue for it, except service messages
  with an empty session id, which pass the comparison with the id of "no session"
  (`CompletionClosesRun`, `EmptySessionMessageFollows`).
* The assertion at line 764 of the greeter fails if and only if return is clicked at a prompt in
  manual mode while manual login is not allowed; emptying the user list, typing a name and
  one prompt are enough to get there (`AssertionsHoldIff`, `EmptyListBreaksAssertion`).
* The user list mirrors its model after any removal, but after an insertion if and only
  if the inserted rows are all alike, because every one is filled from the first
  (`FollowedMirrorsIff`).
* A negative prompt reply does not survive the codec, everything else does; an `event`
  value that is not a number reads as the code of an error event; and
  `kiran_pam_message_send_event` reports success whatever the write did
  (`EventRoundTrip`, `NonNumericEventIsError`, `SendEvent`).
* `m_haveErrorMsg` is never set, so every failed completion is preceded by the made-up
  error text, also when the run showed an error message of its own.

## Model

| member | source | states |
|---|---|---|
| DispatchQueueTheorems.PrefixDelivery | lib/auth-proxy/auth-msg-queue.cpp:161-233 | under every interleaving the emitted messages are a prefix of the appended ones, and outside a stop emitted, in hand and queued make up exactly what was appended |
| DispatchQueueTheorems.PermitAccounting | lib/auth-proxy/auth-msg-queue.cpp:161-168 | outside a stop queue length equals permits plus a held permit plus a pending release, so a dispatcher with a permit finds a message |
| DispatchQueueTheorems.StopIsQuiescent | lib/auth-proxy/auth-msg-queue.cpp:56-67 | when stopDispatcher returns, the thread is out of its loop, the queue is empty, permits and show time are 0 |
| DispatchQueueTheorems.AtMostOneLateEmission | lib/auth-proxy/auth-msg-queue.cpp:170-218 | after the interruption request at most one more message is emitted, however long the stop takes |
| DispatchQueueTheorems.StopCanBlockIff | lib/auth-proxy/auth-msg-queue.cpp:56-67 | a stop requested in a reachable state has a schedule that blocks for ever if and only if the dispatcher runs and a permit is available at the request |
| DispatchQueueTheorems.BlockedDrainStaysBlocked | lib/auth-proxy/auth-msg-queue.cpp:107-109 | a drain that cannot acquire never can, whatever else happens |
| DispatchQueueTheorems.FirstDrainCanBlock | lib/auth-proxy/auth-msg-queue.cpp:56-67 | a schedule of one message that ends in a blocked first drain |
| DispatchQueueTheorems.SecondDrainNeverBlocks | lib/auth-proxy/auth-msg-queue.cpp:66 | the drain after the join can always take its next step |
| DispatchQueueTheorems.EndingNeverStuck | lib/auth-proxy/auth-msg-queue.cpp:56-67 | past the first drain a thread can step now or once the dispatcher's wait has run out |
| DispatchQueueTheorems.StopEnds | lib/auth-proxy/auth-msg-queue.cpp:56-67 | past the first drain a stop takes at most 19 further steps of both threads together |
| DispatchQueueTheorems.Spacing | lib/auth-proxy/auth-msg-queue.cpp:186-201 | with an interval that is not negative and a clock below the 64-bit limit, messages i to j of an epoch are at least j-i intervals apart, less one only if the exempt prompt is among the later ones |
| DispatchQueueTheorems.ExemptIffFirstPrompt | lib/auth-proxy/auth-msg-queue.cpp:189-192 | over the worker's whole life, across all stops, an emission skips the wait if and only if it is the first prompt |
| DispatchQueueTheorems.ExemptOncePerLife | lib/auth-proxy/auth-msg-queue.cpp:209-212 | at most one emission of that life is exempt, and the current epoch's emissions are its end |
| DispatchQueueTheorems.WaitsIff | lib/auth-proxy/auth-msg-queue.cpp:186-195 | a message that is not exempt waits if and only if it is not due yet, or a negative interval wraps its due time around |
| DispatchQueueTheorems.WaitIsBoundedIff | lib/auth-proxy/auth-msg-queue.cpp:192-199 | a wait is positive and at most the interval if and only if the interval is not negative, also during a stop; with a negative one it exceeds 2^63 milliseconds |
| DispatchQueueInvariant.InvKept | lib/auth-proxy/auth-msg-queue.cpp:43-67 | every step of either thread keeps order, permits, thread control, times and the exemption |
| DispatcherWorker.DispatcherWorker.constructor | lib/auth-proxy/auth-msg-queue.h:90-100 | initial fields, with an interval of 2 |
| DispatcherWorker.DispatcherWorker.Append | lib/auth-proxy/auth-msg-queue.cpp:161-168 | one message is queued at the end and one permit released |
| DispatcherWorker.DispatcherWorker.CancelAndStop | lib/auth-proxy/auth-msg-queue.cpp:107-118 | queue, permits and show time are cleared; the used-up exemption and the interval stay |
| DispatcherWorker.DispatcherWorker.FetchMsgFromQueue | lib/auth-proxy/auth-msg-queue.cpp:220-233 | a permit is spent even when the queue turns out empty; the head is returned otherwise |
| DispatcherWorker.DispatcherWorker.DoDispatcher | lib/auth-proxy/auth-msg-queue.cpp:170-218 | the loop ends in the state, and emits the messages, of its turns folded up to the first interruption |
| DispatcherWorker.LoopAccountsForAll | lib/auth-proxy/auth-msg-queue.cpp:170-218 | whatever the turns, the messages fetched and those left make up the queue, and the fetched ones are emitted in order but for exactly those that had to wait and whose wait was cancelled |
| DispatcherWorker.LoopDeliversAll | lib/auth-proxy/auth-msg-queue.cpp:170-218 | with enough turns, none interrupted and no wait cancelled, the loop emits the queue completely and in order; wake-ups that find nobody waiting do no harm |
| DispatcherWorker.ShowingTurn | lib/auth-proxy/auth-msg-queue.cpp:179-216 | a turn of the loop that shows a message is a schedule of the two-thread machine with the same fields and emissions, also if a wake-up comes while the message need not wait |
| DispatcherWorker.EmptyTurn | lib/auth-proxy/auth-msg-queue.cpp:179-184 | so is a turn that finds no permit or no message |
| DispatcherWorker.CancelledTurn | lib/auth-proxy/auth-msg-queue.cpp:193-199 | a turn whose wait is cancelled changes what the fetch changed and emits nothing, whatever happens during the wait |
| DispatcherWorker.InterruptedTurn | lib/auth-proxy/auth-msg-queue.cpp:174-177 | a turn that sees the interruption ends the loop and touches nothing |
| PamMessage.LengthRoundTrip | checkpass-common/pam-message.cpp:33-58 | the 4-byte length reads back modulo 2^32 |
| PamMessage.FrameRoundTrip | checkpass-common/pam-message.cpp:33-86 | a frame is read back, and exactly it is consumed, if and only if the payload is below 2^32 bytes |
| PamMessage.FrameStreamRoundTrip | checkpass-common/pam-message.cpp:60-86 | n frames in a row decode to exactly the n payloads and leave the rest of the stream |
| PamMessage.TornFrame | checkpass-common/pam-message.cpp:60-86 | a frame cut short yields no payload or an empty one |
| PamMessage.EventRoundTrip | checkpass-common/pam-message.cpp:88-218 | an event survives encoding and decoding if and only if it is not a negative reply, which is rejected |
| PamMessage.AcceptedIffSaid | checkpass-common/pam-message.cpp:139-217 | for each kind of event, exactly the objects that carry its code, a text and all its flags are accepted as it |
| PamMessage.ExtraFieldsIgnored | checkpass-common/pam-message.cpp:139-217 | an object that has an event's fields and any others is accepted as that event |
| PamMessage.AcceptedEventIsStable | checkpass-common/pam-message.cpp:130-218 | whatever object an event was accepted from, it survives a further trip unchanged |
| PamMessage.NonNumericEventIsError | checkpass-common/pam-message.cpp:139-161 | an event value that is not a number makes any object with a text an error event |
| PamMessage.RecvFirst | checkpass-common/pam-message.cpp:130-218 | receiving takes exactly the first event off a stream of event frames, a refused one included |
| PamMessage.RecvTorn | checkpass-common/pam-message.cpp:60-86 | a frame torn anywhere decodes to failure |
| PamMessage.CarriesIsSatisfiable | checkpass-common/pam-message.cpp:88-218 | for any events there is a codec of which what the stream lemmas ask is true |
| PamMessage.StreamRoundTrip | checkpass-common/pam-message.cpp:88-218 | the receiver of a whole stream sees exactly the events sent, in order, up to a torn frame |
| PamMessage.Send | checkpass-common/pam-message.cpp:33-58 | exactly one frame is appended, and success means somebody can read it |
| PamMessage.SendEvent | checkpass-common/pam-message.cpp:88-128 | exactly the event's frame is appended; success is reported even when nobody reads |
| PamMessage.RecvEvent | checkpass-common/pam-message.cpp:130-218 | the event and the remaining bytes are those of the decoding function |
| Conversation.HandleMessage | libexec/session-guard-checkpass/main.cpp:48-108 | one message writes its own event only, and a prompt consumes one reply |
| Conversation.Converser | libexec/session-guard-checkpass/main.cpp:28-128 | for any array the bytes written, the bytes consumed, the replies and the result are those of the conversation function |
| Conversation.LockStep | libexec/session-guard-checkpass/main.cpp:44-110 | a conversation succeeds if and only if the input starts with a positive reply for every prompt |
| Conversation.SentInOrder | libexec/session-guard-checkpass/main.cpp:44-110 | what is sent is the announcements in array order, up to and including the first prompt without a reply, and nothing further |
| Conversation.OneReplyPerPrompt | libexec/session-guard-checkpass/main.cpp:48-90 | a successful conversation consumes exactly one reply per prompt |
| Conversation.ResponsesMatch | libexec/session-guard-checkpass/main.cpp:78-88 | response i is the text of the matching reply for a prompt and empty otherwise |
| AuthPam.AuthPam.constructor | lib/auth-proxy/auth-pam.h:50-62 | initial fields |
| AuthPam.AuthPam.Authenticate | lib/auth-proxy/auth-pam.cpp:47-110 | cancels first if and only if authenticating; fields after success, a failed pipe and a failed fork; fresh empty pipes |
| AuthPam.AuthPam.Respond | lib/auth-proxy/auth-pam.cpp:112-120 | while authenticating exactly one positive reply frame is written, otherwise nothing |
| AuthPam.AuthPam.CancelAuthentication | lib/auth-proxy/auth-pam.cpp:137-168 | all flags, the user and the pipes are cleared, and nothing is signalled |
| AuthPam.AuthPam.HandlePipeActivated | lib/auth-proxy/auth-pam.cpp:170-226 | one event is taken off the pipe and handled, or the child's exit is |
| AuthPam.AuthPam.HandleEvent | lib/auth-proxy/auth-pam.cpp:181-223 | fields and signals after each kind of event |
| AuthPam.AuthPam.HandleChildExit | lib/auth-proxy/auth-pam.cpp:228-257 | authentication ends, and completion is signalled unless it was already |
| AuthPam.ActivationOnFrames | lib/auth-proxy/auth-pam.cpp:170-226 | on a pipe that holds event frames one activation is one event, on an empty one the exit |
| AuthPam.StreamIsItsEvents | lib/auth-proxy/auth-pam.cpp:170-257 | the bytes of any run, torn frame included, make the parent do exactly what its complete events say |
| AuthPam.RunIsForUser | lib/auth-proxy/auth-pam.cpp:47-110 | a run is for the user it was begun for from its start to its end, whoever came before; a failed fork leaves no user |
| AuthPam.CompletionsOfRun | lib/auth-proxy/auth-pam.cpp:206-257 | completion is signalled once per Complete event, plus once at the exit if there was none and the flag was down |
| AuthPam.VerdictOfRun | lib/auth-proxy/auth-pam.cpp:206-216 | the last Complete event alone decides whether the parent ends up authenticated |
| AuthPam.SilentRunIff | lib/auth-proxy/auth-pam.cpp:47-52 | a run following another without a cancel reports nothing if and only if it has no Complete event and one came before; after a cancel it always reports |
| AuthProxy.AuthProxy.Authenticate | lib/auth-proxy/auth-proxy.cpp:124-140 | the queue is stopped and restarted before PAM authentication begins |
| AuthProxy.AuthProxy.Respond | lib/auth-proxy/auth-proxy.cpp:142-164 | exactly one call, to the side the last shown prompt came from |
| AuthProxy.AuthProxy.CancelAuthentication | lib/auth-proxy/auth-proxy.cpp:166-173 | PAM is cancelled, then the queue stopped, then the session |
| AuthProxy.AuthProxy.HandlePamAuthComplete | lib/auth-proxy/auth-proxy.cpp:175-220 | the session is stopped, and a failure puts an error text before its completion |
| AuthProxy.AuthProxy.HandlePamAuthShowPrompt | lib/auth-proxy/auth-proxy.cpp:222-279 | calls and session fields for the three intercepted prompts, both service answers, and any other prompt |
| AuthProxy.AuthProxy.HandlePamAuthShowMessage | lib/auth-proxy/auth-proxy.cpp:281-294 | the message is appended and nothing else happens |
| AuthProxy.AuthProxy.HandleAuthServiceAuthMessages | lib/auth-proxy/auth-proxy.cpp:307-351 | a message of another session does nothing; the four known kinds are appended with the service as their source |
| AuthProxy.AuthProxy.HandleAuthQueue | lib/auth-proxy/auth-proxy.cpp:352-370 | a released prompt sets the reply's address, a released completion ends the session |
| AuthProxy.AuthProxy.StopAuthSession | lib/auth-proxy/auth-proxy.cpp:452-474 | a session is stopped if there is one, and then there is none; success means there was one and the service agreed |
| AuthProxy.FrontEndHearsReleases | lib/auth-proxy/auth-proxy.cpp:352-370 | over any history the front end is told of exactly the released messages, in order, each with its own text, type or verdict |
| AuthProxy.CommandsFollowInputs | lib/auth-proxy/auth-proxy.cpp:124-173 | over any history PAM authenticates exactly the users asked for, is cancelled once per cancel, and the queue is stopped and started for these alone, in order |
| AuthProxy.CommandsWellOrdered | lib/auth-proxy/auth-proxy.cpp:124-173 | every authentication directly follows a stop and a start of the queue, and every cancel is directly followed by a stop |
| AuthProxy.DevicesAnnounced | lib/auth-proxy/auth-proxy.cpp:253-266 | over any history a device is announced exactly when PAM asks for it, and it is that device |
| AuthProxy.NoStrayCalls | lib/auth-proxy/auth-proxy.cpp:124-370 | each kind of call is made by its own inputs only |
| AuthProxy.AnsweredOrForwarded | lib/auth-proxy/auth-proxy.cpp:222-279 | a PAM prompt is answered exactly once, with the answer its text asks for, or forwarded exactly once, never both |
| AuthProxy.EnqueuedByPamComplete | lib/auth-proxy/auth-proxy.cpp:190-209 | a completion queues its verdict last and, for a failure, the error text directly before it; the child gets no answer |
| AuthProxy.EnqueuedByServiceMessage | lib/auth-proxy/auth-proxy.cpp:307-351 | at most one entry with the same text; secret exactly for echo off, error exactly for errors, with the service as the reply's address |
| AuthProxy.ServiceMessageAcceptedIff | lib/auth-proxy/auth-proxy.cpp:307-351 | a service message is queued if and only if its id is the current one and its kind known; an empty id passes while there is no session |
| AuthProxy.SessionConservation | lib/auth-proxy/auth-proxy.cpp:226-252 | over any history the sessions created are those stopped, those overwritten and at most one current, counted with multiplicity |
| AuthProxy.SessionsStartedInOrder | lib/auth-proxy/auth-proxy.cpp:229-250 | over any history the sessions created are started, once each and in order, and the id and key that go with replies are those of the last one |
| AuthProxy.NoSessionEndsTwice | lib/auth-proxy/auth-proxy.cpp:452-474 | with ids that are never reused no session is stopped twice or stopped after being overwritten |
| AuthProxy.NoSessionAfterCompletion | lib/auth-proxy/auth-proxy.cpp:166-188 | no session is current after a completion on either side of the queue or a cancel |
| AuthProxy.ReplyGoesToShownSource | lib/auth-proxy/auth-proxy.cpp:142-164 | after any history a reply goes to the source of the prompt released last and nowhere else |
| ScreenSaverDialog.ScreenSaverDialog.SlotAuthenticationComplete | screensaver-dialog/src/screensaver-dialog.cpp:502-524 | unlock, restart or re-authentication button, and the fields after each |
| ScreenSaverDialog.ScreenSaverDialog.StartAuthentication | screensaver-dialog/src/screensaver-dialog.cpp:563-575 | cancels first if authenticating, forgets the prompt, authenticates |
| ScreenSaverDialog.CompletionsAccountedFor | screensaver-dialog/src/screensaver-dialog.cpp:502-524 | over any history every completion has exactly one consequence: true ones unlock, false ones restart or wait for the button, and nothing else unlocks |
| ScreenSaverDialog.AutoRestartIff | screensaver-dialog/src/screensaver-dialog.cpp:502-534 | a completion restarts if and only if it is a failure and a prompt was shown since the last start |
| ScreenSaverDialog.ButtonShownIff | screensaver-dialog/src/screensaver-dialog.cpp:545-561 | the re-authentication button is shown if and only if nothing was started since a failure without a restart |
| ScreenSaverDialog.RequestsExactly | screensaver-dialog/src/screensaver-dialog.cpp:502-575 | a start cancels exactly a running authentication before it authenticates; besides that only a true completion asks for anything |
| ScreenSaverDialog.NoRestartSpin | screensaver-dialog/src/screensaver-dialog.cpp:502-534 | before every automatic restart, and since the one before it, a prompt was shown |
| ScreenSaverDialog.RestartsBounded | screensaver-dialog/src/screensaver-dialog.cpp:502-534 | automatic restarts never outnumber the prompts shown |
| PipelineTheorems.UnlockSoundness | screensaver-dialog/src/screensaver-dialog.cpp:502-524 | end to end: unlocks belong to distinct runs in the order of the runs, each with a received Complete event that says success and a successful pam_authenticate |
| PipelineTheorems.AuthenticatedMeansCompleted | lib/auth-proxy/auth-pam.cpp:156-158 | the parent is authenticated only after a Complete event since the last cancel |
| PipelineTheorems.OnlyTheUserIsAuthenticated | lib/auth-proxy/auth-proxy.cpp:139 | in every run of the pipeline, whoever PAM is asked about is the user of the locked session |
| PipelineTheorems.DeadChildNeverSucceeds | lib/auth-proxy/auth-pam.cpp:252-256 | the completion made up for a dead child is never a success |
| PipelineTheorems.FifoRefinement | lib/auth-proxy/auth-proxy.cpp:222-294 | what the dispatcher emitted of a run is a prefix of what the child sent, less the intercepted prompts, through both channels |
| PipelineTheorems.NothingWithheld | lib/auth-proxy/auth-pam.cpp:170-226 | everything received of a current run is in the queue or past it, everything else sent is in the pipe |
| PipelineTheorems.CompletionCount | lib/auth-proxy/auth-pam.cpp:206-257 | at most one completion signal per run, and when it is over exactly one if and only if it had a Complete event or began with the flag down |
| PipelineTheorems.FlagAtFork | lib/auth-proxy/auth-pam.cpp:47-52 | a run begins with its own child and user, empty pipes and an empty queue; its flag is up if and only if a Complete event was received since the last cancel |
| PipelineTheorems.CompletionClosesRun | lib/auth-proxy/auth-proxy.cpp:175-220 | only service messages with an empty id follow a completion entry, and a failed one directly follows the error notice of its run |
| PipelineTheorems.EmptySessionMessageFollows | lib/auth-proxy/auth-proxy.cpp:307-351 | after a completion a service message of any known kind is appended, as it is meant, if and only if its session id is empty |
| PipelineTheorems.ReplyRouting | lib/auth-proxy/auth-proxy.cpp:142-164 | in every interleaving a reply goes to whoever asked the prompt shown last, and the child gets the very text |
| PipelineTheorems.CommandsCarriedOut | lib/auth-proxy/auth-proxy.cpp:124-173 | cancelling and authenticating carry out the proxy's commands one by one, in order and leaving none out, between which the other threads run |
| PipelineTheorems.ChildIsAnswered | lib/auth-proxy/auth-proxy.cpp:222-266 | on every activation the child's pipe gets exactly the proper answer to an intercepted prompt, and nothing for any other event |
| PipelineTheorems.InvKept | lib/auth-proxy/auth-msg-queue.cpp:43-67 | every step of the whole pipeline keeps its invariant |
| PipelineConversation.ConversationInAnyRun | libexec/session-guard-checkpass/main.cpp:44-110 | in every run, whenever the replies arrive, a child that goes through an array of messages has sent their announcements in order and taken exactly one reply per prompt, oldest first |
| PipelineConversation.ChildIsAConversation | libexec/session-guard-checkpass/main.cpp:44-110 | and in every run what the child does between two moments without a pending prompt is such a conversation |
| PipelineConversation.DialogueHappens | libexec/session-guard-checkpass/main.cpp:44-110 | any conversation takes place with any texts, each replied by the user after its prompt was sent |
| PipelineConversation.ConversationIsForwarded | lib/auth-proxy/auth-pam.cpp:186-205 | events of a conversation reach the queue as what PAM meant: echo off as secret, errors as errors, in order, without the intercepted prompts |
| PipelineConversation.EmittedAsMeant | libexec/session-guard-checkpass/main.cpp:44-110 | what the dispatcher emitted of a run, finished or not, is a prefix of what its PAM messages mean for the user |
| PipelineWitness.UnlockHappens | screensaver-dialog/src/screensaver-dialog.cpp:519-523 | a run of the whole pipeline in which the dialog unlocks |
| PipelineWitness.SilentRunHappens | lib/auth-proxy/auth-pam.cpp:252-256 | a run of the whole pipeline in which a second child dies and nothing at all is signalled |
| GreeterLoginWindow.GreeterLoginWindow.constructor | lightdm-greeter/src/greeter-login-window.cpp:431-451 | the settings read from the configuration, or their defaults |
| GreeterLoginWindow.GreeterLoginWindow.StartAuthenticating | lightdm-greeter/src/greeter-login-window.cpp:537-572 | cancels first if authenticating; the auto-login user gets the button instead of an authentication |
| GreeterLoginWindow.GreeterLoginWindow.ResetForUserListLogin | lightdm-greeter/src/greeter-login-window.cpp:574-619 | fields and widgets for list mode, and the user that is activated |
| GreeterLoginWindow.GreeterLoginWindow.ResetForManualLogin | lightdm-greeter/src/greeter-login-window.cpp:621-659 | fields and widgets for manual mode |
| GreeterLoginWindow.GreeterLoginWindow.SlotTextConfirmed | lightdm-greeter/src/greeter-login-window.cpp:721-733 | text answers a prompt or starts authenticating the user it names |
| GreeterLoginWindow.GreeterLoginWindow.SlotButtonClicked | lightdm-greeter/src/greeter-login-window.cpp:741-768 | the three meanings of the button, and whether the assertions on the way held |
| GreeterLoginWindow.GreeterLoginWindow.SlotShowprompt | lightdm-greeter/src/greeter-login-window.cpp:783-806 | a prompt switches the input mode and, in manual mode, shows the return button |
| GreeterLoginWindow.GreeterLoginWindow.SlotAuthenticationComplete | lightdm-greeter/src/greeter-login-window.cpp:808-839 | session start, restart or re-authentication button |
| GreeterLoginWindow.InvKept | lightdm-greeter/src/greeter-login-window.cpp:241-839 | every slot, button, timer and row handler keeps the greeter's invariant |
| GreeterLoginWindow.ModeInvariant | lightdm-greeter/src/greeter-login-window.cpp:574-659 | the button means return iff the mode is manual iff the list is off, exactly one way to go on is visible, manual mode only when allowed or after the list was empty |
| GreeterLoginWindow.AssertionsHoldIff | lightdm-greeter/src/greeter-login-window.cpp:741-768 | a possible step passes all assertions unless it clicks return at a prompt in manual mode with manual login not allowed, and only then fails |
| GreeterLoginWindow.AssertionsHoldWhen | lightdm-greeter/src/greeter-login-window.cpp:282-286 | all assertions hold when manual login is allowed or the list was never empty |
| GreeterLoginWindow.EmptyListBreaksAssertion | lightdm-greeter/src/greeter-login-window.cpp:396-404 | otherwise, from any reachable state, removing the last user, typing a name and a prompt for it lead to a failing assertion |
| GreeterLoginWindow.StepRequests | lightdm-greeter/src/greeter-login-window.cpp:537-839 | all a step asks for, and in which order: what it cancels, whom it authenticates, what it answers, and when it starts the session |
| GreeterLoginWindow.SessionPerSuccess | lightdm-greeter/src/greeter-login-window.cpp:808-839 | in every run the session is started exactly as often as an authentication succeeds |
| GreeterLoginWindow.RepliesAreTheTexts | lightdm-greeter/src/greeter-login-window.cpp:721-733 | in every run the replies sent are, in order, exactly the texts confirmed while a prompt was being answered |
| GreeterLoginWindow.StepScreen | lightdm-greeter/src/greeter-login-window.cpp:537-806 | name, input, mode and way back after every step: only resets change the mode, and whoever is turned to has the name on the screen |
| GreeterLoginWindow.WasEmptyIff | lightdm-greeter/src/greeter-login-window.cpp:396-404 | the list was empty at some time if and only if it began so or a removal left no user |
| GreeterLoginWindow.FirstScreen | lightdm-greeter/src/greeter-login-window.cpp:431-467 | the window comes up in manual mode if and only if the list is empty, or hidden with manual login allowed |
| GreeterLoginWindow.ButtonOnFirstUser | lightdm-greeter/src/greeter-login-window.cpp:380-390 | new rows show the return button exactly for the first user of a list that may be shown, in manual mode, before authentication |
| GreeterLoginWindow.CancelsFirstIff | lightdm-greeter/src/greeter-login-window.cpp:241-248 | a step that begins an authentication while one is going on cancels it first if and only if it is not the auto-login button or timer |
| GreeterLoginWindow.AutologinUserAuthenticatedIff | lightdm-greeter/src/greeter-login-window.cpp:241-248 | in every run the window authenticates the auto-login user if and only if the button was clicked or the timer expired for one |
| GreeterLoginWindow.RestartsBounded | lightdm-greeter/src/greeter-login-window.cpp:808-839 | restarts after a failure never outnumber the prompts shown |
| GreeterLoginWindow.RestartsIff | lightdm-greeter/src/greeter-login-window.cpp:808-839 | in a run from a fresh window a step restarts if and only if it is a failure and a prompt was shown since a user was last turned to |
| GreeterLoginWindow.NoRestartSpin | lightdm-greeter/src/greeter-login-window.cpp:549 | without a prompt since the last start nothing restarts, however many failures arrive |
| UserListWidget.FilterUserProxyModel.FilterAcceptsRow | lightdm-greeter/src/filter-user-proxy-model.cpp:34-45 | a row is accepted if and only if its user is not hidden |
| UserListWidget.UserListWidget.LoadUserList | lightdm-greeter/src/user-list-widget.cpp:154-175 | the rows of the filtered model are appended in order, none skipped by the second look |
| UserListWidget.UserListWidget.SlotRowsInserted | lightdm-greeter/src/user-list-widget.cpp:385-402 | the inserted rows all show the model's first inserted row |
| UserListWidget.UserListWidget.SlotRowsRemoved | lightdm-greeter/src/user-list-widget.cpp:352-366 | the descending loop removes exactly the slice |
| UserListWidget.GetIconByUserName | lightdm-greeter/src/user-list-widget.cpp:282-298 | the icon of the first user of that name, or an empty path |
| UserListWidget.InsertedAtMappedRow | lightdm-greeter/src/filter-user-proxy-model.cpp:34-45 | filtering commutes with inserting users, at the mapped row |
| UserListWidget.RemovedAtMappedRows | lightdm-greeter/src/filter-user-proxy-model.cpp:34-45 | filtering commutes with removing a range, between the mapped rows |
| UserListWidget.FollowedMirrorsIff | lightdm-greeter/src/user-list-widget.cpp:352-402 | the list mirrors the model after any removal, and after an insertion if and only if the inserted rows are all alike |
| UserListWidget.Mirrors | lightdm-greeter/src/user-list-widget.cpp:154-175 | after any history of removals and one-row insertions the rows are the users that are not hidden, in order |
| UserListWidget.HiddenNeverListed | lightdm-greeter/src/user-list-widget.cpp:154-175 | after any history at all no hidden user is listed and the number of rows is the model's |

## Left out

- Qt's internals: start-up races of the thread's event loop, `moveToThread`, the misuse of `m_cancelWaitMutex`; a wait ends by timeout, or is woken by a stop.
- A wake-up that arrives between the dispatcher's decision to wait and the wait itself is one that finds nobody waiting, as in the program; spurious wake-ups are not modelled.
- A failing `sysinfo` and an interval changed while messages are being dispatched: in the step machine the clock is monotone and the interval constant, if possibly negative; `SetInterval` is modelled on the class.
- DispatchQueueTheorems.Spacing: speaks of an interval that is not negative and of a clock below 2^64 milliseconds less the interval; beyond that the unsigned sums wrap around and no spacing is promised.
- PAM, lightdm, D-Bus, RSA and base64: their answers are arbitrary. `auth-lightdm.cpp` is a thin wrapper; unlock soundness is about the `AuthPam` backend.
- Printing and parsing JSON text: a codec about which the stream lemmas ask only that it undoes its own printing of the events at hand, that their texts fit a QByteArray, and that the empty text is no document.
- Byte order: the native length word is modelled as little-endian.
- Read errors and a reader overtaking a writer in the middle of a frame: a read takes what is there, and a frame is torn only by the writer's death.
- The pipeline machine moves whole events rather than bytes through its pipes; `StreamIsItsEvents` and `RecvFirst` are the justification, for any codec that carries those events.
- File descriptors, signals, exec, memory management and string encodings, among them the replies that `conversation` frees and then still hands out when it fails.
- The checkpass program's start-up and its authorisation checks; a start-up that fails is a child that exits without a Complete event.
- The branches of `AuthProxy` without a queue: both front ends install one.
- `handleAuthServiceAuthStatusChanged` only logs, and `handleAuthServiceAuthMethodChanged` combines its flags into a variable that was never initialised; neither front end listens to the signal of the latter.
- `AuthProxy::init`, `setSessionAuthType` and the D-Bus connections.
- The spelling of the three intercepted prompts and their replies comes from a header of kiran-biometrics, which is not part of this model; only their being distinct is used.
- The length of the greeter's auto-login timer and its cancelling for a user who is logged in, session choice, tips, menus, settings of the display and the virtual keyboard; the widgets' looks, focus, animation and translations everywhere.
- The list's own choice of the row to select: which user is activated after a change is a parameter of the greeter's steps.
- The control panel's settings window: short branches without a protocol.
