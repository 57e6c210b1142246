# KitStack, modelled and proved

A Dafny model of the parts of KitStack that carry state across awaits, and proofs of what they promise.
`dafny verify dfyconfig.toml` checks everything. There are six components, independent of each other:

- **Voice bridge** (`VoiceBridge`, `VoiceCall`, `VoiceHangup`, `VoiceGoodbye`, `VoiceDeadline`, `VoiceTurns`,
  `VoiceBargeIn`, `RealtimeBridge`, `Playback`, `VoicePlayback`). A call is a transition system: the bridge's handler
  segments, the provider that opens and closes responses, Twilio's playout queue, and the messages travelling between
  them, all interleaving freely. `VoiceBridge` says what a segment does to the bridge's variables, `RealtimeBridge` is
  the same bridge as an object whose methods are proved to do exactly that, through whole calls. Main results: a call
  ended with `agent_hangup` has let the caller hear a whole response after it was asked for, such a response does end
  the call, no hang-up waits beyond its timer, a caller who keeps speaking over the agent does interrupt it, every
  caller turn is decided once, and exactly how, and the playback clock is never early.
- **Voice agent loop** (`VoiceLoop`, `VoiceSession`) and **bounded agent loop** (`AgentWorld`, `AgentLoop`). The agent
  run is a class whose nested loops run against a `World`: the outcome of every source read, model call, tool call,
  output and cost estimate. `AgentWorld` says of a world when and how its run ends, and what is told of it. The loop's
  two producer/consumer channels are a class with promises named by call number; `VoiceSession` interleaves the two.
  Main results: a run takes exactly the turns, ends exactly as, and tells exactly the events that its world
  prescribes; and every tool result followed by a model call reaches the provider once, under the id of the provider's
  own call.
- **Grants** (`GrantRule`, `GrantEffects`, `GrantCache`, `GrantObjects`). Checks and mutators interleave at every
  await over a database whose whole history is kept. Main results: every answer is the one-hop rule at an instant that
  is recent enough and late enough, even when the check holds a replaced cache state; which completed mutators it
  reflects; exactly which answers each lifecycle call changes; exactly which checks share a cache key; and that this
  is exactly when answers can go wrong.
- **Audit log** (`AuditChain`, `AuditAppend`, `AuditObjects`, `AuditCsv`). The hash is an arbitrary function of the
  canonical record. Main results: the table is a chain whatever the interleaving of stores, the verifier accepts
  exactly chains, an equal head hash means logs equal field by field or an explicit collision, and the CSV export
  reads back, each field under its name.
- **Debrief sessions and callback times** (`DebriefSession`, `DebriefRuns`, `DebriefHistory`, `DebriefCalls`,
  `DebriefEvents`, `DebriefObjects`, `ZoneTime`). `Apply` is one service call as a function; the class is proved equal
  to it; `DebriefHistory` proves what every sequence of calls keeps; `DebriefCalls` and `DebriefEvents` say of every
  call when it is accepted, and what it leaves and writes. Main results: memory and storage agree, states only move
  forward, and the two confirmation events are written once, keep the facts saved, and are shown alike ever after.
- **Ad graph and metadata guard** (`AdGraph`, `AdGraphRows`, `AdGraphEntries`, `AdGraphKeys`, `AdReach`,
  `AdGraphObjects`, `ContentGuard`). Main results: the capped graph is sound for every input and holds exactly the
  fields of the rows let in, linked in order; its paths are complete exactly when no two edges share a key, its nodes
  are reachable exactly when each has an edge that no earlier one shut out, reach and statistics count what they say,
  and the guard finds a content field exactly when one is reachable.

Where the code does less than its documentation, or than one would expect of it, the model follows the code:

- A mutator that finds its rows already in place completes without a bump. An answer to a later check reflects it,
  in every run, if the change that put the rows in place is settled when the check begins
  (`GrantCache.CompletedNoopsReflected`); if it is not, the check may be answered from the cache as if neither had
  happened, for every mutation that decides the check and every check (`GrantCache.UnsettledNoopMissed`,
  `CompletedGrantMissed`). The comment at packages/authz/src/engine.ts:31-35 does not mention this.
- Two typed checks share a cache key without being the same exactly when the longer subject id is the other's subject
  id, relation and object type joined by separators, perhaps with more behind, and the object ids match
  (`GrantRule.TypedCollideExactly`). A check has such a partner exactly when its subject id ends in, or its object id
  begins with, a relation and an object type so joined, up to more text on the other side
  (`GrantRule.TypedSharesKeyExactly`); ids in the form of `TypedWitness` do. A set of checks can be asked with every
  answer justified exactly if no two of them share a key (`GrantCache.JustifiedExactly`); otherwise one can be granted
  the other's answer (`GrantCache.AnswersTheOther`).
- Around one change of offset an HH:mm callback is accepted exactly when `ZoneTime.ExactWait` is between nothing and
  a day (`ZoneTime.AcceptedExactly`), and is the first later instant that shows the time exactly when
  `ZoneTime.LeastLaterExactly` says. So the present time of day is refused as too far away on the day the clocks go
  back (`FallBackRefuses`), and in the repeated hour a time whose first reading has passed is refused although its
  second is minutes away (`SecondReadingRefused`, `FallBackNight`).
- A run aborted before its first read is reported as cancelled, even if it was a timeout that aborted it
  (packages/sdk/src/define-agent.ts:310-314, `AgentRun.Refuse`). A run aborted later is reported as timed out exactly
  when a timeout cut its last call short (`AgentWorld.StatusSays`).
- An exception of the cost estimator leaves the last turn of a run unfinished exactly when `AgentWorld.EndsOpen` says
  (`AgentRun.Go`, `AgentWorld.OpenExactly`), and the run is then reported as a model error. An exception while a
  completed tool is told is contained by the tool's own catch, unless the estimator throws there again, and is reported
  as a tool error (`AgentWorld.ErrorSays`). `AgentWorld.EstimatorWitness` has a world of each kind.
- Two edges of the ad graph can share a deduplication key when ids contain spaces, and then a node can be cut off
  (`AdGraphKeys.SpaceCutsOffANode`); exactly when, `AdGraphEntries.AllReachableExactly` says. Page addresses and brand
  ids may contain spaces safely.
- The CSV printer prints null and the empty string alike.
- A session confirmed by its state alone never records the address its draft discovered: later confirmations show an
  address exactly when the first confirmation was of a draft that had one (`DebriefHistory.AddressShownExactly`).

## Model

| member | source | states |
|---|---|---|
| VoiceHangup.HangupHeardInFull | packages/voice/src/realtime.ts:919-939 | In every run, a call ended with `agent_hangup` was asked to end, and then has a response that started after the last request and the last interruption, completed, and had all its audio played and none dropped, against a Twilio that echoes all pending marks on `clear` and delivers echoes late. |
| VoiceHangup.AgentCanHangUp | packages/voice/src/realtime.ts:1020-1024 | For any settings there is a run that ends with `agent_hangup` after one spoken response: the promise is not empty. |
| VoiceHangup.EchoEndsCall | packages/voice/src/realtime.ts:1020-1024 | When the echoed mark is the current one, everything sent before that mark has left the playout queue, and the goodbye's chunks, sent after the last clear, were played. |
| VoiceHangup.MarksGoodbye | packages/voice/src/realtime.ts:1125-1141 | The response whose completion sends the mark started after the request and after every interruption, is closed at the provider, and has all its audio ahead of the mark. |
| VoiceHangup.Interrupts | packages/voice/src/realtime.ts:1032-1051 | An interruption keeps the invariant: the old mark no longer counts, and the hang-up waits for a response not yet started. |
| VoiceHangup.InterruptEffect | packages/voice/src/realtime.ts:1032-1043 | An interruption sends `clear` last to Twilio, cancels the response exactly if one is active, forgets the mark, and makes a pending hang-up wait for a later response. |
| VoiceHangup.TwilioClears | packages/voice/src/realtime.ts:1036-1043 | A `clear` reaching Twilio drops only audio sent before it, and the marks it echoes follow audio that is done with. |
| VoiceHangup.StepKeeps | packages/voice/src/realtime.ts:877-1164 | Every step of bridge, provider, links and timers keeps the hang-up invariant. |
| VoiceHangup.AskedKeeps | packages/voice/src/realtime.ts:931-939 | In every step, whoever waits to hang up was asked to: only a request starts the wait. |
| VoiceGoodbye.GoodbyeEndsCall | packages/voice/src/realtime.ts:1020-1141 | In every run: once a response that started after the request and the last interruption has completed, a mark sent for it is in flight through Twilio, and its echo ends the call with `agent_hangup`. |
| VoiceGoodbye.StepPromises | packages/voice/src/realtime.ts:877-1164 | Every step of bridge, provider, links and timers keeps that promise. |
| VoiceGoodbye.AskingWaits | packages/voice/src/realtime.ts:931-939 | Asking to hang up always leaves the request on record. |
| VoiceDeadline.HangupCannotHang | packages/voice/src/realtime.ts:931-939 | At every moment of every call: while the hang-up is waited for, its timer is due exactly the timeout after the last request or interruption, and from then on it can fire, which ends the call with `agent_hangup_timeout`. |
| VoiceDeadline.StepDue | packages/voice/src/realtime.ts:877-1164 | Every step keeps that timer due, or starts it anew, or ends the call. |
| VoiceHangup.FollowsLater | packages/voice/src/realtime.ts:994-996 | What is still to be read from the provider belongs to the open response or to later ones. |
| VoiceTurns.TurnsDecidedOnce | packages/voice/src/realtime.ts:1082-1100 | In every run each committed turn is answered by one response request or ignored, never both or twice; a turn is ignored only if it began over the agent, had ordered no interruption, and the agent is still speaking. |
| VoiceTurns.InterruptedOncePerTurn | packages/voice/src/realtime.ts:1063-1076 | In every run the agent is interrupted at most once per caller turn, in the order ordered, and only for a turn that began over the agent and stayed open for `bargeInMs`; what was ordered and not yet performed is in the queue, in order. |
| VoiceBargeIn.BargeInFiresInTime | packages/voice/src/realtime.ts:1063-1076 | In every run: a caller whose last turn began over the agent, goes on, and has not interrupted it does so once the turn is `bargeInMs` old: the timer can fire, and firing orders and queues the interruption, whether or not a response is active. |
| VoiceBargeIn.DecidedExactly | packages/voice/src/realtime.ts:1082-1100 | In every run, the last turn's commit is ignored exactly if it began over the agent, ordered no interruption, and the agent is still speaking, and then its item is deleted if it has one; otherwise it is answered by one response request. |
| VoiceBargeIn.InterruptedTurnAnswered | packages/voice/src/realtime.ts:1082-1100 | A turn that has ordered its interruption is answered, whatever the agent does. |
| VoiceBargeIn.CancelledExactly | packages/voice/src/realtime.ts:1032-1033 | In every run `response.cancel` was sent exactly once for each interruption performed while the last response started had not completed. |
| VoiceBargeIn.StepRemembers | packages/voice/src/realtime.ts:877-1164 | Every step keeps the bridge's turn, timers and active response what the log says they are. |
| VoiceTurns.OrdersOne | packages/voice/src/realtime.ts:1069-1073 | A barge-in timer orders an interruption only while its own turn is current, and then for the first time. |
| VoiceTurns.DecidesTurn | packages/voice/src/realtime.ts:1082-1100 | A commit closes the current turn with exactly one decision, which has its warrant. |
| VoiceTurns.StepKeeps | packages/voice/src/realtime.ts:1053-1152 | Every step keeps the account of turns opened, decided, ordered interrupted and interrupted. |
| Playback.EstimateBound | packages/voice/src/realtime.ts:1114-1117 | Over any run of deltas and clears the estimate is never before the true end of sequential playing and exceeds it by at most a quarter of a millisecond per delta since the last clear. |
| Playback.PaddingBound | packages/voice/src/realtime.ts:1115 | Three quarters of the length of padded base64 text is the byte count or up to two more. |
| VoicePlayback.ClockOfEveryCall | packages/voice/src/realtime.ts:1112-1117 | At every moment of every call whose payloads are padded base64, the bridge's playback clock is that estimate over the deltas and clears of the call, so never before the true end of playing and late by at most a quarter of a millisecond per chunk since the last clear. |
| VoicePlayback.PlayingIsSpeaking | packages/voice/src/realtime.ts:1064 | In every such call, while audio is truly playing, the bridge takes the agent to be speaking. |
| VoicePlayback.SpeakingOnlyThen | packages/voice/src/realtime.ts:1064 | And it takes the agent to be speaking only while its last response is open or, by at most a quarter of a millisecond per chunk, after the true end of playing. |
| VoicePlayback.StepEstimates | packages/voice/src/realtime.ts:994-1164 | Each step of a call moves the clock as its one operation says, or not at all. |
| RealtimeBridge.Bridge.constructor | packages/voice/src/realtime.ts:895-917 | The bridge's initial variables. |
| RealtimeBridge.Bridge.Finish | packages/voice/src/realtime.ts:941-945 | The first reason sticks, both timers are cleared, and only the first call runs the hooks. |
| RealtimeBridge.Bridge.EndCall | packages/voice/src/realtime.ts:919-924 | Clears the hang-up timer, then finishes. |
| RealtimeBridge.Bridge.Hangup | packages/voice/src/realtime.ts:931-939 | The first request waits for a response not yet started and arms the timer; later ones do nothing. |
| RealtimeBridge.Bridge.SendHangupMark | packages/voice/src/realtime.ts:925-930 | A fresh mark is sent and remembered, unless one is pending or the call is over. |
| RealtimeBridge.Bridge.OnTurnStarted | packages/voice/src/realtime.ts:1056-1062 | Counts the response and marks it active, as the call's step does. |
| RealtimeBridge.Bridge.OnTurnCompleted | packages/voice/src/realtime.ts:1138-1141 | Equals the specification's end of a response, mark included. |
| RealtimeBridge.Bridge.InterruptAgent | packages/voice/src/realtime.ts:1032-1043 | Equals the specification's interruption: cancel if active, clear, forget the mark, re-arm the timer. |
| RealtimeBridge.Bridge.OnSpeechStarted | packages/voice/src/realtime.ts:1063-1076 | Opens a turn, confirmed unless it is over the agent, and arms its timer if so. |
| RealtimeBridge.Bridge.OnBargeInTimer | packages/voice/src/realtime.ts:1069-1073 | Confirms the turn and queues the interruption only while the turn is current. |
| RealtimeBridge.Bridge.OnSpeechStopped | packages/voice/src/realtime.ts:1077-1081 | Disarms the turn's timer. |
| RealtimeBridge.Bridge.OnSpeechCommitted | packages/voice/src/realtime.ts:1082-1100 | Closes the turn; ignores it or requests the one response. |
| RealtimeBridge.Bridge.OnAudioDelta | packages/voice/src/realtime.ts:1114-1117 | Forwards the chunk and advances the playback estimate as `Playback` counts it. |
| RealtimeBridge.Bridge.OnMark | packages/voice/src/realtime.ts:1020-1024 | Ends the call only for the current mark. |
| RealtimeBridge.Bridge.OnHangupTimer | packages/voice/src/realtime.ts:937 | Ends the call with the timeout reason. |
| RealtimeBridge.Bridge.Perform | packages/voice/src/realtime.ts:994-1164 | In any state of a call the object's handler for the next step leaves it as that step leaves the call's bridge. |
| RealtimeBridge.Bridge.Drive | packages/voice/src/realtime.ts:877-1164 | Through every run of a call the object is the call's bridge, and when it ends with `agent_hangup` the goodbye was heard. |
| VoiceLoop.NeverBoth | packages/voice/src/realtime.ts:580-600 | A queued provider response and a waiting request never coexist; their difference is what was pushed minus what was asked. |
| VoiceLoop.ResultsReachTheirCalls | packages/voice/src/realtime.ts:612-625 | In a run answered by the channel, the ids under which results are sent are exactly the ids of the provider's tool calls that another model call followed, each once and in order. |
| VoiceSession.Session | packages/voice/src/realtime.ts:580-697 | In every interleaving of a run's model calls with the provider's turns, tool calls, interruptions and stops, each call made once the one before was answered by its own request: at most one request is outstanding, none after a stop, and results are sent exactly under the ids of the tool calls that another model call followed, each once and in order. |
| VoiceSession.Perform | packages/voice/src/realtime.ts:612-697 | Each step of either side moves the channels' object as the interleaving says; the k-th model call makes one request, and a stop leaves nobody waiting. |
| VoiceSession.OneOutstanding | packages/voice/src/realtime.ts:612-625 | Whoever waits for each of its calls never has two requests outstanding. |
| VoiceLoop.InOrderWhileOpen | packages/voice/src/realtime.ts:565-574 | Until the input channel is closed, the k-th read gets the k-th input pushed. |
| VoiceLoop.Loop.constructor | packages/voice/src/realtime.ts:555-564 | Both channels empty and open. |
| VoiceLoop.Loop.Next | packages/voice/src/realtime.ts:565-569 | A read gets the oldest queued input, null once closed and empty, or waits; earlier answers stand. |
| VoiceLoop.Loop.Push | packages/voice/src/realtime.ts:570-574 | An input goes to the oldest waiting read, else to the end of the queue. |
| VoiceLoop.Loop.Close | packages/voice/src/realtime.ts:575-579 | Every waiting read is answered with null, once; what was answered stands; a second close does nothing. |
| VoiceLoop.Loop.NextProviderResponse | packages/voice/src/realtime.ts:580-595 | The k-th request is settled with the k-th response pushed, as soon as both exist, and the queue and the waiters are exactly the surplus. |
| VoiceLoop.Loop.PushProviderResponse | packages/voice/src/realtime.ts:596-600 | The same pairing after one more response. |
| VoiceLoop.Loop.ModelTurn | packages/voice/src/realtime.ts:612-625 | The k-th model call makes the k-th request, after sending back the tool result that ends its history, if one does. |
| VoiceLoop.Loop.OnProviderTurn | packages/voice/src/realtime.ts:656-678 | A completed turn is pushed to the input channel, and to the provider channel if results are sent back. |
| VoiceLoop.Loop.OnProviderToolCall | packages/voice/src/realtime.ts:679-686 | The call is pushed under the provider's own id. |
| VoiceLoop.Loop.OnInterruption | packages/voice/src/realtime.ts:687-689 | An interruption is an input. |
| VoiceLoop.Loop.OnStop | packages/voice/src/realtime.ts:690-697 | Afterwards no read waits, nor the one request the loop can have outstanding. |
| AgentLoop.AgentRun.Go | packages/sdk/src/define-agent.ts:309-540 | A run aborted at its start is cancelled without a turn or a read. Any other takes exactly the turns, and ends exactly with the status and error, that its world prescribes. At most `maxTurns` model calls and one more source read; the trace is run_started, exactly the events of each turn's outcome, and one run_finished, whether or not the cost estimator throws; every turn is finished exactly once, but the last one not exactly when the estimator leaves it open; outputs and tool calls are exactly those that happened, and the final output is the last one delivered. |
| AgentWorld.EndsOnce | packages/sdk/src/define-agent.ts:309-540 | What a world prescribes is one number of turns and one ending. |
| AgentWorld.StatusSays | packages/sdk/src/define-agent.ts:530-539 | Timed out or cancelled exactly when the last call was cut short for that reason; completed exactly when the source ran out or a terminal message was delivered; max_turns exactly when the limit is reached with another turn due; an error exactly if not completed. |
| AgentWorld.OpenExactly | packages/sdk/src/define-agent.ts:362-526 | A turn is told to its end exactly when the cost estimator does not leave it open: which of its calls must throw, for each outcome of the turn. |
| AgentWorld.ErrorSays | packages/sdk/src/define-agent.ts:490-539 | A model error exactly when the model call threw, the estimator left the turn open, or it threw when a rejection was told; a tool error exactly when the tool threw or its catch contained the estimator's exception, and told both; a turn left open is a model error. |
| AgentWorld.SourceErrorsSay | packages/sdk/src/define-agent.ts:317-335 | A source error exactly when the read that was due threw; the limit's error exactly when it is reached with another turn due. |
| AgentWorld.TurnErrorsSay | packages/sdk/src/define-agent.ts:399-453 | An output error exactly when the last message's output threw; an undeclared-tool error exactly when the last turn asked for one and was told so. |
| AgentWorld.ControlErrorsSay | packages/sdk/src/define-agent.ts:530-539 | A run cut short has the status and the error of the same reason. |
| AgentWorld.FinishesSay | packages/sdk/src/define-agent.ts:362-526 | A turn is told to have ended with a message, a tool call or an error exactly for the outcomes that are one. |
| AgentWorld.ToolsSay | packages/sdk/src/define-agent.ts:417-526 | A tool is told as completed, failed or rejected exactly for the outcomes that are so. |
| AgentWorld.CountsAre | packages/sdk/src/define-agent.ts:409-455 | Outputs and tool calls are as many as the turns that delivered a message or ran a declared tool. |
| AgentWorld.LastDeliveredIs | packages/sdk/src/define-agent.ts:410-411 | The final output is the message of the last turn that delivered one. |
| AgentWorld.ModelSees | packages/sdk/src/define-agent.ts:329-361 | Every model call sees all inputs read so far and all it has said, in order, and ends with what is new. |
| AgentWorld.EstimatorWitness | packages/sdk/src/define-agent.ts:386-526 | Two worlds whose estimator throws once: a message's turn is left open and the run a model error; a completed tool's is told to its end and the run a tool error. |
| AgentLoop.AgentRun.Refuse | packages/sdk/src/define-agent.ts:310-314 | A run aborted before its first read is cancelled with no turn, whatever aborted it. |
| AgentLoop.AgentRun.RunThrough | packages/sdk/src/define-agent.ts:316-539 | The run up to its last event, ended, told and counted exactly as its world prescribes. |
| AgentLoop.AgentRun.Conclude | packages/sdk/src/define-agent.ts:530-539 | What ended the run becomes its status and error: an abort by its reason, an escaped exception as a model error. |
| AgentLoop.AgentRun.Converse | packages/sdk/src/define-agent.ts:316-529 | The two nested loops terminate where the world's run ends, and read at most one input more than they take turns. |
| AgentLoop.AgentRun.ReadInput | packages/sdk/src/define-agent.ts:317-328 | One more read: an input goes into the history and a turn follows, its end completes the run, a failure or an abort ends it as such. |
| AgentLoop.AgentRun.InputAndTurns | packages/sdk/src/define-agent.ts:316-529 | One read and the turns up to the next message or the end, each where the world has it. |
| AgentLoop.AgentRun.TakeTurn | packages/sdk/src/define-agent.ts:331-527 | One turn adds exactly the events its outcome prescribes, counts as it prescribes, and exits as it prescribes. |
| AgentLoop.AgentRun.Answer | packages/sdk/src/define-agent.ts:345-527 | What follows a model call: the turn's events, counts and exit are those of its outcome; a message leads to a read, a completed tool to another model call. |
| AgentLoop.AgentRun.StartTurn | packages/sdk/src/define-agent.ts:336-361 | The turn is numbered one more than the last, and the model sees the whole history. |
| AgentLoop.AgentRun.Speak | packages/sdk/src/define-agent.ts:384-415 | A message is delivered and counted exactly when the output settles; the run stops exactly if it is terminal, fails, or is cut short. |
| AgentLoop.AgentRun.Deliver | packages/sdk/src/define-agent.ts:400-415 | The output of a message is counted exactly when it settles; its failure fails the run as an output error, an abort is passed on, a terminal one stops the run. |
| AgentLoop.AgentRun.UseTool | packages/sdk/src/define-agent.ts:417-527 | A declared tool is counted; another model call follows exactly when it completes and the estimator does not throw; otherwise the run ends as its outcome says; either way exactly that outcome is told. |
| AgentLoop.AgentRun.RecordResult | packages/sdk/src/define-agent.ts:456-465 | A tool's result enters the history under the model's id, or a generated one, and the next model call may see it. |
| AgentLoop.AgentRun.RejectTool | packages/sdk/src/define-agent.ts:419-453 | An undeclared tool fails the run as undeclared, after the turn is finished and the rejection told. |
| AgentLoop.AgentRun.TellTool | packages/sdk/src/define-agent.ts:463-489 | The two events of a completed tool, told up to the call of the estimator that throws, if one does. |
| AgentLoop.AgentRun.ReportTool | packages/sdk/src/define-agent.ts:463-490 | A completed tool is told and its turn finished; an exception of the estimator, exactly, falls into the tool's own catch. |
| AgentLoop.AgentRun.FailTool | packages/sdk/src/define-agent.ts:490-526 | A failed tool is told, its turn finished once, and the run fails with a tool error, or an abort is passed on. |
| AgentLoop.AgentRun.FailModel | packages/sdk/src/define-agent.ts:362-382 | A failed model call finishes its turn once and fails the run with a model error, or passes an abort on; if the estimator throws, nothing more is told. |
| AgentLoop.AgentRun.Emit | packages/sdk/src/define-agent.ts:386-398 | One more event of the current turn keeps the trace well-formed. |
| AgentLoop.AgentRun.Finish | packages/sdk/src/define-agent.ts:278-307 | The last event reports the counts of the result. |
| AgentWorld.ResultsSentOnce | packages/voice/src/realtime.ts:612-616 | Sending the latest message whenever it is a tool result sends every tool result that a model call followed exactly once, in order. |
| AgentWorld.FollowerResults | packages/sdk/src/define-agent.ts:384-462 | Between two model calls the history grows by the answer and the next input of the source, or by the one tool result, under the model's id or one made of the turn and the number of tool calls so far. |
| GrantRule.QueryIsOneHop | packages/authz/src/engine.ts:85-126 | The left join finds a row exactly when the one-hop rule grants: directly, or through a team or role the user belongs to. |
| GrantEffects.GrantedByWays | packages/authz/src/engine.ts:85-126 | A check is granted exactly if one of its ways stands: its own tuple, or a membership of the user in a team or role that has the tuple. |
| GrantEffects.WaysAfter | packages/authz/src/lifecycle.ts:17-137 | For all tables and every lifecycle call: a way stands afterwards exactly if it stood and the call does not take it, or the call gives it. |
| GrantEffects.AnswerAfter | packages/authz/src/lifecycle.ts:17-137 | So a check is granted after a call exactly if some way stood and was not taken, or is given. |
| GrantEffects.OthersKeepAnswers | packages/authz/src/lifecycle.ts:17-137 | A call changes no check that it does not decide. |
| GrantEffects.RevokeAllSpares | packages/authz/src/lifecycle.ts:71-89 | Revoking all of a subject leaves every other subject's answers, unless the user inherits through it. |
| GrantEffects.RevokeAllLeavesNone | packages/authz/src/lifecycle.ts:71-89 | Afterwards nothing is granted by a tuple of that subject, directly or through it. |
| GrantEffects.MembershipsSpare | packages/authz/src/lifecycle.ts:97-158 | Calls on memberships leave the answers of other members and everything granted directly. |
| GrantEffects.OtherMembershipsStay | packages/authz/src/lifecycle.ts:116-137 | Revoking one membership leaves what the member inherits from its other teams and roles. |
| GrantEffects.MappingsApart | packages/authz/src/lifecycle.ts:160-199 | Identity mappings decide no check, and only their own calls change them. |
| GrantEffects.RowsAfter | packages/authz/src/lifecycle.ts:17-158 | Which tuples and memberships are there after a call, row by row. |
| GrantRule.KeyIdentifiesCheck | packages/authz/src/engine.ts:21-29 | With plain types, relation and subject id, equal cache keys mean the same check, and conversely. |
| GrantRule.TypedCollideExactly | packages/authz/src/engine.ts:21-29 | Two checks with types and relations from the closed lists share a key without being the same exactly when one's subject id hides the other's subject id, relation and object type, and the other's object id hides the rest. |
| GrantRule.TypedSharesKeyExactly | packages/authz/src/types.ts:2-37 | A typed check shares its key with some other exactly when its subject id or its object id hides a relation and an object type between separators. |
| GrantRule.TypedWitness | packages/authz/src/engine.ts:21-29 | For any user and object, two typed checks, of different users and relations, with one key. |
| GrantCache.AnswerIsRecentRule | packages/authz/src/engine.ts:50-69 | In every interleaving of checks whose keys tell them apart, an answer is the one-hop rule at an instant that reflects every change settled before the check began and lies less than the TTL before its start. |
| GrantCache.JustifiedExactly | packages/authz/src/engine.ts:21-69 | For any set of checks: every answer of every run over them is justified so, exactly if no two different ones share a key. |
| GrantCache.AnswersTheOther | packages/authz/src/engine.ts:54-64 | For any two checks under one key there is a run in which one is granted the other's answer, at no instant true of it. |
| GrantCache.TypedApart | packages/authz/src/types.ts:2-37 | Typed checks have different keys exactly if none of them hides another's fields. |
| GrantCache.CleanApart | packages/authz/src/engine.ts:21-29 | Checks whose subject ids are free of the separator have different keys. |
| GrantCache.CalmCheckIsFresh | packages/authz/src/engine.ts:31-35 | A check that begins while no change awaits its bump is answered by an instant since its start. |
| GrantCache.CompletedNoopsReflected | packages/authz/src/lifecycle.ts:17-137 | In every interleaving, the instant of an answer reflects every mutation, of any kind, that completed without changing a row before the check began and whose rows were put in place by a change settled by then. |
| GrantCache.UnsettledNoopMissed | packages/authz/src/lifecycle.ts:17-137 | Otherwise not: for every tables, check and mutation that decides it, if the change it repeats is not settled there is a run in which the mutation completes before the check begins and no instant that gives the answer reflects it. |
| GrantCache.EachKindDecides | packages/authz/src/lifecycle.ts:25-137 | Grants and revocations, of relations and of memberships, one or all, are such mutations. |
| GrantCache.CompletedGrantMissed | packages/authz/src/lifecycle.ts:25-41 | So for every grantable check there is a run in which the same grant, asked for again, completes before the check begins, and the check is refused all the same. |
| GrantCache.DecisionAnswers | packages/authz/src/engine.ts:54-64 | A live decision kept under a version that postdates the check's start answers it. |
| GrantCache.AnswerIsReused | packages/authz/src/engine.ts:61-68 | A decision just stored answers every check with its key, version and handle, exactly as long as it lives. |
| GrantCache.NewVersionIsAsked | packages/authz/src/engine.ts:54-59 | A check that has read another version than its handle's state starts an empty state and asks the database. |
| GrantCache.StepKeeps | packages/authz/src/engine.ts:50-76 | Every step of checks, mutators, clock and clearing keeps versions monotone, changes accounted for, and cached decisions sound. |
| GrantCache.FinishStep | packages/authz/src/engine.ts:66-68 | Storing into a state object, replaced or not, keeps every stored decision sound. |
| GrantCache.AccountsBump | packages/authz/src/version.ts:22-32 | After a bump, whoever reads the new version comes after the change. |
| GrantCache.SameTables | packages/authz/src/lifecycle.ts:17-137 | Tables stay the same between two instants that no change separates. |
| GrantObjects.AuthzDatabase.Run | packages/authz/src/lifecycle.ts:17-137 | Each statement's effect on the tables, whether a row changed, and the refusal of a membership that targets neither team nor role. |
| GrantObjects.AuthzDatabase.Bump | packages/authz/src/version.ts:22-32 | The stored version becomes one more, from nothing to one. |
| GrantObjects.VersionedGrantCache.Create | packages/authz/src/engine.ts:41-48 | Refused exactly outside five to fifteen minutes. |
| GrantObjects.VersionedGrantCache.AfterVersionRead | packages/authz/src/engine.ts:52-64 | A new state object replaces the old exactly when the version differs; the lookup answers only while the decision lives. |
| GrantObjects.VersionedGrantCache.AfterQuery | packages/authz/src/engine.ts:66-68 | The verdict is stored in the state object the check remembers, even if it was replaced, and nowhere else. |
| GrantObjects.VersionedGrantCache.Clear | packages/authz/src/engine.ts:71-75 | The handle is forgotten; state objects stay as they are. |
| AuditChain.Verify | packages/sdk/src/audit.ts:307-321 | Valid exactly on well-formed chains; otherwise it names the first record that fails and the first check it fails. |
| AuditChain.ChainExactly | packages/sdk/src/audit.ts:307-321 | A chain, record by record: numbered from one, naming the hash of the one before, carrying its own hash, under an id of its own. |
| AuditChain.HeadHashFixesLog | packages/sdk/src/audit.ts:129-156 | Two valid logs with the same head hash, of whatever lengths, hold the same records, in every event field up to missing and null and in every attribute, or two of their records collide under the hash. |
| AuditChain.EditShows | packages/sdk/src/audit.ts:307-321 | With an injective hash any edit of a valid log, of a field, an attribute, a sequence or a hash, is rejected or changes the head hash. |
| AuditChain.TamperShows | packages/sdk/src/audit.ts:129-156 | In particular one attribute, or one event field, of one record. |
| AuditChain.HashAlikeExactly | packages/sdk/src/audit.ts:129-156 | Two records have the same hash under every hash exactly if they agree in every event field up to missing and null, every attribute, the sequence and the previous hash. |
| AuditChain.ChainSnoc | packages/sdk/src/audit.ts:247-284 | A record that continues the sequence, names the last hash, carries its own and has a new id extends the chain. |
| AuditAppend.AppendsFormChain | kits/debrief/src/audit/index.ts:11-37 | However many stores append and interleave, the table is a chain that the verifier accepts and holds exactly the acknowledged appends, in order. |
| AuditAppend.LogOnlyGrows | kits/debrief/src/audit/index.ts:51-73 | Every later table begins with every earlier one. |
| AuditAppend.UndisturbedAppendSucceeds | packages/sdk/src/audit.ts:247-284 | An append whose read is followed at once by its write succeeds exactly when its event id is not there. |
| AuditAppend.UndisturbedAppendHolds | packages/sdk/src/audit.ts:247-284 | And then the record is there with every field and attribute as supplied, the next sequence, the last hash and its own, and the append has left the queue. |
| AuditAppend.RowsWereAskedFor | packages/sdk/src/audit.ts:247-284 | In every run, whatever is in the table some caller supplied, field by field and attribute by attribute. |
| AuditAppend.InsertedInOrder | kits/debrief/src/audit/index.ts:69-74 | An insert keeps the rows in the order of their key. |
| AuditAppend.KeyPreventsFork | kits/debrief/src/audit/index.ts:11-14 | Two records computed from the same rows conflict on `sequence`, and together would not be a chain. |
| AuditAppend.WriteExtends | kits/debrief/src/audit/index.ts:51-67 | A stale writer's insert is refused; any insert that is not refused extends the chain at its end. |
| AuditObjects.AuditTable.Insert | kits/debrief/src/audit/index.ts:12-14 | Refused exactly on a conflict of sequence or event id; otherwise the row is there, in key order. |
| AuditObjects.AuditStore.Append | packages/sdk/src/audit.ts:247-250 | An append waits at the end of its store's write queue. |
| AuditObjects.AuditStore.ReadAndCompute | packages/sdk/src/audit.ts:250-278 | The record is computed from the rows read; a known event id fails the append. |
| AuditObjects.AuditStore.Commit | packages/sdk/src/audit.ts:279-283 | The insert decides; either way the queue moves on. |
| AuditCsv.DocumentReadsBack | packages/sdk/src/audit.ts:372-380 | Rows of arbitrary strings, with quotes, commas and line feeds, survive printing and reading. |
| AuditCsv.ExportReadsBack | packages/sdk/src/audit.ts:372-419 | Reading an export gives the header and every field text of every record. |
| AuditCsv.ExportIdentifies | packages/sdk/src/audit.ts:372-419 | Two exports are equal exactly for as many records that agree, one by one, in every field exported, null and the empty string being alike. |
| AuditCsv.HeaderNames | packages/sdk/src/audit.ts:382-386 | The names of the columns, in order. |
| AuditCsv.ColumnsOfActors | packages/sdk/src/audit.ts:390-399 | The first eight columns hold the fields of their names. |
| AuditCsv.ColumnsOfContext | packages/sdk/src/audit.ts:400-407 | So do the next eight. |
| AuditCsv.ColumnsOfOutcome | packages/sdk/src/audit.ts:408-413 | And the last five; there are no more. |
| AuditCsv.QuotedExactly | packages/sdk/src/audit.ts:416-419 | A field is quoted exactly when it holds a quote, a comma or a line feed, and printed as it is otherwise. |
| AuditCsv.DecimalReadsBack | packages/sdk/src/audit.ts:417 | A number is printed in decimal digits, with a minus sign exactly if negative. |
| AuditCsv.NoLeadingZero | packages/sdk/src/audit.ts:417 | Only digits, and no leading zero. |
| AuditCsv.FieldReadsBack | packages/sdk/src/audit.ts:416-419 | A printed field is read back whole, and reading stops where it ends. |
| AuditCsv.TextIdentifies | packages/sdk/src/audit.ts:416-419 | A field's text determines its value, except that null and the empty string print alike. |
| ContentGuard.HasContent | packages/sdk/src/telemetry.ts:96-102 | True exactly when some object reachable from the value, through sharing and cycles, has a content field as a key. |
| ContentGuard.ContainsContentField | packages/sdk/src/telemetry.ts:430-440 | Terminates on any graph; a find is real, and without one every newly seen object was searched and leads only to seen objects. |
| ContentGuard.AnyItem | packages/sdk/src/telemetry.ts:437 | The second visit of an array's items keeps the same account. |
| ContentGuard.PathStays | packages/sdk/src/telemetry.ts:430-440 | From searched objects no path leaves the seen set, so the early exit loses nothing. |
| ContentGuard.EntryIs | packages/sdk/src/telemetry.ts:434 | Every entry gone through is a named property or an array's item. |
| ContentGuard.PointsByEntry | packages/sdk/src/telemetry.ts:434 | Every object held, under a name or as an item, is an entry. |
| ZoneTime.ZonedDate | kits/debrief/src/timing.ts:81-90 | The loop computes three corrections of the candidate. |
| ZoneTime.SolveFinds | kits/debrief/src/timing.ts:81-90 | Around one offset change, whenever some instant shows the wall-clock time the result shows it; in a repeated hour it is said which of the two it is. |
| ZoneTime.SolveInGap | kits/debrief/src/timing.ts:81-90 | When no instant shows it, it was skipped by a forward jump, and the result is off by exactly the jump. |
| ZoneTime.ResolveTimeOfDay | kits/debrief/src/timing.ts:44-56 | Today's time of day if it is still to come, otherwise tomorrow's. |
| ZoneTime.NormalizeSchedule | kits/debrief/src/timing.ts:9-39 | The checks on buffer and time, in order, and the window of a day. |
| ZoneTime.SolveUses | kits/debrief/src/timing.ts:81-90 | The iteration in closed form around one change, for every wall-clock time, skipped and repeated ones included: it uses the later offset from the change read as UTC on, kept between the change's two readings. |
| ZoneTime.WaitExactly | kits/debrief/src/timing.ts:44-56 | The wait to the callback for every time of day; where it is neither skipped nor repeated today or tomorrow, the callback shows it, lies after now, and the wait is the wall-clock wait plus the change's shift if it is crossed. |
| ZoneTime.AcceptedExactly | kits/debrief/src/timing.ts:20-56 | For every input: accepted exactly when the buffer is between 0 and 1440 minutes, the time is one of the day's, and the wait is between nothing and a day; refused for the first of these that fails, as past or as too far by the wait; the call follows by exactly the buffer. |
| ZoneTime.ShownExactly | kits/debrief/src/timing.ts:44-56 | For every time of day: the callback shows it exactly when the wall-clock time chosen is not skipped, or is with a whole day. |
| ZoneTime.LeastLaterExactly | kits/debrief/src/timing.ts:44-56 | For every time of day: the callback is the first later instant that shows it exactly when the wait is positive, the time is not skipped, and no reading of a repeated time of that name lies within the wait; all of it known before the callback is computed. |
| ZoneTime.ConstantOffset | kits/debrief/src/timing.ts:26-56 | With a constant offset: the least later instant with that time of day, at most a day away, always accepted. |
| ZoneTime.FallBackRefuses | kits/debrief/src/timing.ts:29 | On the day the clocks go back, the present time of day is refused. |
| ZoneTime.SecondReadingRefused | kits/debrief/src/timing.ts:26-30 | In a repeated hour, a time whose first reading has passed is refused although its second is at most the jump away, whenever the iteration takes the first. |
| ZoneTime.FallBackNight | kits/debrief/src/timing.ts:26-30 | From four hours behind UTC to five at 06:00 UTC: at 01:45 a callback at 01:30 is refused, though 01:30 comes in 45 minutes. |
| DebriefHistory.OnlyForward | kits/debrief/src/functions/index.ts:238-282 | Over every sequence of calls a stored session is never lost, keeps its customer, never goes back in the order of states, and stays failed once failed. |
| DebriefHistory.AlwaysWrittenThrough | kits/debrief/src/functions/index.ts:311-318 | After every sequence of calls each session in memory equals the stored one, so hydrating it changes nothing. |
| DebriefHistory.HydrateChangesNothing | kits/debrief/src/functions/index.ts:311-318 | Hydrating a held session leaves the service as it is and shows that session. |
| DebriefHistory.EventsOnlyAdded | kits/debrief/src/functions/persistence.ts:265-283 | Over every sequence of calls events keep their place and payload; a confirmed session gains no address. |
| DebriefHistory.OneOfEach | kits/debrief/src/functions/index.ts:396-414 | A session has at most one debrief_confirmed and at most one address_discovered event, ever. |
| DebriefHistory.SameIdsEver | kits/debrief/src/functions/index.ts:380-428 | Whichever call confirmed a customer's session first, every later successful draft confirmation shows the same two event ids, which are what was recorded and what the first one showed. |
| DebriefHistory.AddressShownExactly | kits/debrief/src/functions/index.ts:396-405 | For a session not recorded before, every later confirmation shows an address exactly if the first was of a draft that had discovered one. |
| DebriefHistory.DraftConfirmationShowsRecord | kits/debrief/src/functions/index.ts:385-428 | A successful draft confirmation shows exactly the ids then recorded, whether it wrote them or found them. |
| DebriefHistory.TransitionRecords | kits/debrief/src/functions/index.ts:496-499 | Confirming by state alone records the confirmation too. |
| DebriefHistory.TransitionAddsNoAddress | kits/debrief/src/functions/index.ts:496-499 | It records no address, whatever the draft has discovered. |
| DebriefHistory.FirstConfirmation | kits/debrief/src/functions/index.ts:380-428 | Either way of confirming leaves the confirmation recorded. |
| DebriefHistory.ReviewShowsRecord | kits/debrief/src/functions/index.ts:351-364 | The view for confirmation shows exactly the two ids recorded. |
| DebriefHistory.DraftsOnlyGrow | kits/debrief/src/functions/index.ts:430-450 | Over every sequence of calls a draft keeps its id, and facts are overwritten but never dropped. |
| DebriefHistory.FactsRecordedEver | kits/debrief/src/functions/index.ts:396-414 | The first confirmation of a draft records every fact saved until then, with the outcome captured or "confirmed" for want of one, and whatever is called later they stay recorded in that event. |
| DebriefHistory.InterruptedFactsRecorded | kits/debrief/src/functions/index.ts:252-265 | Facts saved before a call broke off are not lost: its session can be confirmed, and the confirmation records them, whatever is called later. |
| DebriefHistory.ApplyKeeps | kits/debrief/src/functions/index.ts:145-483 | Every call keeps the service valid and leaves every session no earlier, events only added, and confirmed addresses settled. |
| DebriefCalls.RejectedExactly | kits/debrief/src/functions/index.ts:145-483 | Every call is rejected exactly if its session is unknown, its state is none of those listed, its texts are blank, or the store or a collaborator it needs is missing; and then it changes nothing. |
| DebriefCalls.SessionAfter | kits/debrief/src/functions/index.ts:203-483 | Every accepted call leaves its session exactly as it says, in memory and in storage, and every other session as it was. |
| DebriefCalls.FactsAfter | kits/debrief/src/functions/index.ts:366-483 | Under each key of each session's facts stands what an accepted call writes there, texts that are not blank for an update, or what stood there before. |
| DebriefCalls.TheWayToReview | kits/debrief/src/functions/index.ts:145-250 | From any valid service a session with a goal and a plan can be prepared, called and brought to review, each call accepted and each state stored. |
| DebriefCalls.TheWayFromReview | kits/debrief/src/functions/index.ts:238-428 | From review it can be confirmed, by state or by draft, marked partial first or not. |
| DebriefCalls.ClearedComesBack | kits/debrief/src/functions/index.ts:311-318 | A session cleared from memory comes back from storage as it was. |
| DebriefCalls.StoredReplaces | kits/debrief/src/functions/index.ts:311-318 | Hydrating shows the stored session, whatever memory holds; without one, memory's. |
| DebriefCalls.AddressExactly | kits/debrief/src/functions/index.ts:398-405 | A draft has an address exactly if a text that is not blank is saved for it, and that text, trimmed, is recorded. |
| DebriefCalls.BlankExactly | kits/debrief/src/functions/index.ts:366-372 | Nothing is left of a text after trimming exactly if it is blank. |
| DebriefEvents.EventsAfter | kits/debrief/src/functions/index.ts:145-483 | Every accepted call appends exactly its events, with ids, kinds and payloads: a prebrief, a note, a completed call, a confirmation, or an address and a confirmation. |
| DebriefEvents.DraftAfter | kits/debrief/src/functions/index.ts:380-483 | A draft that an accepted call saves has the status that call gives it, the session's draft id and its customer. |
| DebriefEvents.RepliesShow | kits/debrief/src/functions/index.ts:203-483 | What an accepted call shows of session and draft is what it has left; a confirmed draft is shown as confirmed. |
| DebriefHistory.TrimCuts | kits/debrief/src/functions/index.ts:398 | Trimming cuts white space at both ends and nothing else. |
| DebriefRuns.FindById | kits/debrief/src/functions/index.ts:387-388 | Looking an event up by session and kind finds exactly the one with the prescribed id, so the order of the list does not matter. |
| DebriefRuns.ConfirmAppends | kits/debrief/src/functions/index.ts:396-414 | A first confirmation appends exactly the address, if the draft has one, and then the confirmation. |
| DebriefRuns.TransitionGood | kits/debrief/src/functions/index.ts:496 | A transition is rejected exactly if it is neither to the present state nor one of the five permitted; a permitted one leaves exactly that state, persisted, and only a confirmation adds an event. |
| DebriefRuns.ConfirmDraftGood | kits/debrief/src/functions/index.ts:380-428 | Confirming a draft changes only its session, forward, and adds only that session's events under new ids. |
| DebriefRuns.TeachGood | kits/debrief/src/functions/index.ts:267-282 | Refused exactly outside review or without a memory; otherwise the session becomes partial, keeps the memory id, and adds one note of the correction. |
| DebriefRuns.EndCallGood | kits/debrief/src/functions/index.ts:258-265 | Ending an interrupted call adds no event: with saved facts to review, without to failure, with the error; a session that is not calling stays as it is. |
| DebriefRuns.CompleteCallGood | kits/debrief/src/functions/index.ts:461-483 | Recording a completed call leaves the session as it is and adds the one event, for a customer; refused exactly without a store. |
| DebriefRuns.TouchKeeps | kits/debrief/src/functions/index.ts:496-499 | A change of one session, written through with its own events, keeps the service valid. |
| DebriefObjects.DebriefPersistence.SaveSession | kits/debrief/src/functions/persistence.ts:171-209 | Upsert by session id. |
| DebriefObjects.DebriefPersistence.AppendCustomerEvent | kits/debrief/src/functions/persistence.ts:265-283 | Insert, or nothing when the event id is taken. |
| DebriefObjects.DebriefPersistence.FindEvent | kits/debrief/src/functions/persistence.ts:251-263 | The first event of a customer's session and kind, as the specification finds it. |
| DebriefObjects.DebriefPersistence.GetDraft | kits/debrief/src/functions/persistence.ts:285-292 | The session's draft, if there is one. |
| DebriefObjects.DebriefPersistence.SaveDraft | kits/debrief/src/functions/persistence.ts:294-309 | Upsert by session id. |
| DebriefObjects.DebriefService.constructor | kits/debrief/src/functions/index.ts:127-141 | The service starts with the sessions it is given. |
| DebriefObjects.DebriefService.Begin | kits/debrief/src/functions/index.ts:145-201 | Preparing equals the specification: refused for a blank goal, otherwise stored, with a prebrief event for a customer. |
| DebriefObjects.DebriefService.Transition | kits/debrief/src/functions/index.ts:496 | Equals the specification's transition. |
| DebriefObjects.DebriefService.Fail | kits/debrief/src/functions/index.ts:242-250 | Any session fails, with its error stored. |
| DebriefObjects.DebriefService.EndCall | kits/debrief/src/functions/index.ts:258-265 | Equals the specification's ending of an interrupted call. |
| DebriefObjects.DebriefService.Teach | kits/debrief/src/functions/index.ts:267-282 | Equals the specification's teaching. |
| DebriefObjects.DebriefService.HydrateSession | kits/debrief/src/functions/index.ts:311-318 | The stored session replaces the one in memory. |
| DebriefObjects.DebriefService.Review | kits/debrief/src/functions/index.ts:351-364 | Equals the specification's view for confirmation. |
| DebriefObjects.DebriefService.Update | kits/debrief/src/functions/index.ts:366-378 | Only texts that are not blank are merged into the draft. |
| DebriefObjects.DebriefService.ConfirmDraft | kits/debrief/src/functions/index.ts:380-428 | Equals the specification's draft confirmation. |
| DebriefObjects.DebriefService.Write | kits/debrief/src/functions/index.ts:430-450 | The draft keeps its id and its other fields. |
| DebriefObjects.DebriefService.CompleteCall | kits/debrief/src/functions/index.ts:461-483 | Equals the specification's record of a completed call. |
| DebriefObjects.DebriefService.Append | kits/debrief/src/functions/index.ts:499 | An event is appended only for a session with a customer and a store. |
| DebriefObjects.DebriefService.Do | kits/debrief/src/functions/index.ts:145-483 | One call does what `Apply` says, and a valid service stays valid. |
| AdGraph.BuildSound | kits/adint/src/domain/ad-graph.ts:127-247 | For all rows and every cap: at most `limit` nodes, no duplicate edges, both ends of each edge present, every edge strictly upwards. |
| AdGraph.ChainsArePaths | kits/adint/src/domain/ad-graph.ts:136-141 | An untruncated graph has every row's chain as a path exactly when no two different edges of the rows share a key. |
| AdGraph.EveryNodeReachable | kits/adint/src/domain/ad-graph.ts:144-247 | Whatever the cap drops, every node can be reached from a publisher when no two edges share a key. |
| AdGraphEntries.AllReachableExactly | kits/adint/src/domain/ad-graph.ts:136-247 | For all rows and every cap: every node can be reached from a publisher exactly when each that is not one has an entry, an edge asked for by the admitted rows before every other edge with its key. |
| AdGraphEntries.BuildHoldsFirst | kits/adint/src/domain/ad-graph.ts:136-247 | The edges kept are exactly those first with their key among all that the admitted rows ask for. |
| AdGraphEntries.UntruncatedReachableExactly | kits/adint/src/domain/ad-graph.ts:136-247 | Of an untruncated graph, on the rows alone: every node can be reached exactly when each node of a row that is not a publisher has an entry among the edges the rows ask for. |
| AdGraph.AdmitSound | kits/adint/src/domain/ad-graph.ts:145-157 | A row is either skipped, with nothing but the mark, or added whole within the cap. |
| AdGraph.AddChainSound | kits/adint/src/domain/ad-graph.ts:159-246 | Adding a chain loses and changes nothing, and adds exactly its nodes and edges not yet keyed. |
| AdGraph.BuildTraced | kits/adint/src/domain/ad-graph.ts:144-247 | Only nodes and edges some row asks for; untruncated, all of the nodes and a key for every edge. |
| AdGraph.ChainClimbs | kits/adint/src/domain/ad-graph.ts:159-246 | A row's chain starts at its publisher and climbs strictly through the layers. |
| AdGraphRows.NodesAreFields | kits/adint/src/domain/ad-graph.ts:144-246 | For all rows and every cap: the nodes are exactly the present fields of the rows let in, each under its literal id and kind. |
| AdGraphRows.EdgesLinkNeighbours | kits/adint/src/domain/ad-graph.ts:159-246 | For all rows and every cap: an edge links two fields of a row let in with none between them, upwards, and of any two such fields an edge with their key is there. |
| AdGraphRows.FitsExactly | kits/adint/src/domain/ad-graph.ts:145-157 | A row is let in exactly when the nodes already there and its ids, its brand counted even without a creative, fit under the cap together. |
| AdGraphRows.TruncatedExactly | kits/adint/src/domain/ad-graph.ts:153-157 | The graph is marked truncated exactly when some row was not let in. |
| AdGraphRows.EveryRowIsThere | kits/adint/src/domain/ad-graph.ts:144-246 | Untruncated, every field of every row is a node. |
| AdGraph.NewCountExact | kits/adint/src/domain/ad-graph.ts:153-157 | The count taken before a row is exactly how many nodes its candidates would add. |
| AdGraph.SkippedExactly | kits/adint/src/domain/ad-graph.ts:145-157 | A row is skipped exactly when its candidates, a brand without a creative among them, do not fit under the cap with the nodes already there. |
| AdGraphKeys.PlainRowsDoNotCollide | kits/adint/src/domain/ad-graph.ts:136-141 | Without spaces in domains, observation ids, advertisers, campaigns and creatives, no two edges share a key; page addresses and brands may hold spaces. |
| AdGraphKeys.SpaceCutsOffANode | kits/adint/src/domain/ad-graph.ts:136-141 | With spaces, for any texts, two rows whose edges share a key, and a node no publisher leads to. |
| AdReach.ReachCounts | kits/adint/src/domain/ad-graph.ts:273-288 | An id's reach is the set of publishers of all rows that carry it, and its mark whether one of them is on Ströer. |
| AdReach.SameRowsSameReach | kits/adint/src/domain/ad-graph.ts:273-288 | Reach depends only on which rows there are, not on their order or number. |
| AdReach.NodesShowReach | kits/adint/src/domain/ad-graph.ts:251-264 | Each buyer node shows its reach over all rows, at least one; a creative or brand is flagged exactly when no row that carries it is on Ströer. |
| AdReach.FlaggedCounted | kits/adint/src/domain/ad-graph.ts:300-304 | `notOnStroeer` counts the emitted creative and brand nodes flagged so. |
| AdReach.CrossCounted | kits/adint/src/domain/ad-graph.ts:300-303 | `crossPublisher` counts the emitted creative and brand nodes with a reach of two or more. |
| AdReach.ViewShowsGraph | kits/adint/src/domain/ad-graph.ts:249-265 | The view shows the graph's nodes and kinds, its edges in order, and whether rows were left out. |
| AdReach.StatsCountNodes | kits/adint/src/domain/ad-graph.ts:295-314 | The other node counts count the emitted nodes of each kind. |
| AdReach.FillRateIsShare | kits/adint/src/domain/ad-graph.ts:296-311 | Every slot is filled or empty, filled ones being those of rows that are not empty; the fill rate is the filled share, between nothing and one, and one exactly when there are slots and none is empty. |
| AdReach.BrandedCreatives | kits/adint/src/domain/ad-graph.ts:299-315 | `creativesWithBrand` counts, over all rows, the creatives from which some row asks for an edge to a brand. |
| AdReach.BuyerIsCarried | kits/adint/src/domain/ad-graph.ts:251-262 | Every buyer node is carried by some row. |
| AdReach.BuyerIdsAre | kits/adint/src/domain/ad-graph.ts:273-284 | A row carries exactly its advertiser, campaign, creative and brand, a brand even without a creative. |
| AdGraphObjects.Builder.PutNode | kits/adint/src/domain/ad-graph.ts:133-135 | The first node under an id stays. |
| AdGraphObjects.Builder.LinkNodes | kits/adint/src/domain/ad-graph.ts:136-141 | An edge is added unless its key is known. |
| AdGraphObjects.Builder.AddRow | kits/adint/src/domain/ad-graph.ts:144-247 | One pass of the loop does what the specification says of a row. |
| AdGraphObjects.ComputeReach | kits/adint/src/domain/ad-graph.ts:273-288 | The loop computes the specified reach. |
| AdGraphObjects.BuildAdGraph | kits/adint/src/domain/ad-graph.ts:127-265 | The builder returns the specified view, within the cap. |

## Left out

- HTTP, WebSocket, Twilio, OpenAI, HubSpot, JWT and HMAC code: I/O and library cryptography. Only the events they deliver appear.
- `packages/voice/src/channel.ts` and `http.ts`: wiring of hooks around the bridge.
- The scheduler and the dispatch pipeline are not part of this model.
- Memory lifecycle, instruction resolution, percentiles, model routing, storage scope and `define*` validation would only add easy members.
- The provider is taken to alternate response created and done events, one response at a time.
- A call is followed until it ends; handlers that still run after that change nothing that is claimed.
- The stream's start, the first response request, media from the caller, repeated tool call ids and provider error events carry no state the properties need.
- Closing a model session that opens after the socket has closed: only that the hooks run at most once is shown.
- Telemetry, latency and usage numbers are left out, except that their awaits are points of interleaving.
- Instants are whole eighths of a millisecond or whole milliseconds; floating point is not modelled.
- The abort of a waiting provider response: an abort ends the run.
- VoiceLoop.Loop.OnStop: does not model the 250 ms the stop waits for the run before it aborts it.
- Inputs of the voice loop are their content; their metadata is left out.
- AgentLoop.AgentRun.Go: `maxDurationMs` and the external signal appear only as outcomes of the calls they cut short, not as a clock.
- Hooks that throw are swallowed by the source; the trace is what is emitted, not what a hook keeps.
- The database of grants has one clock that does not go back, shared by all processes.
- `listObjects` and the default cache instance of the grant engine are queries and wiring.
- JSON text, `localeCompare` and SHA-256: the canonical record is a value with its attributes as a map, the hash an arbitrary function of it.
- AuditCsv.ExportReadsBack: the JSON text of the attributes is an arbitrary function of them.
- The metadata check of an audit input, queries with filters, and the HTTP exporter are single passes over fields.
- ZoneTime.NormalizeSchedule: ISO timestamps, time zone names and calendar dates are not parsed; a zone is its offset function, a day is 24 hours of wall-clock time, and offsets are whole seconds.
- Storage faults, crash recovery inside a confirmation, and several processes sharing the debrief tables: each call completes, alone.
- Generated ids of sessions are new; those of events and drafts are arbitrary, and one call sees one time stamp.
- Customers, memories, instructions and the model's prebrief text enter a session as the plan they yield.
- The debrief service is one organization and one kit; the tables hold only their rows. `reset` is not modelled.
- `previous_debriefs`, summaries and the presenter's sections are views over the events.
- DebriefObjects.DebriefPersistence.FindEvent: the list is searched in the order of insertion, not of `occurred_at`; FindById shows that the order does not matter.
- Labels, metadata, evidence, demo and empty flags, and the order of the graph's nodes are left out, and with them the scrubbing of texts.
- `fillRate` is an exact quotient; its rounding is left out.
