/**
 * A whole call: the bridge, the provider that feeds it events, Twilio's playout queue, and the
 * links between them, all interleaving freely. The run is followed until the call ends.
 */
module VoiceCall {
  import opened Base
  import opened B = VoiceBridge

  /** Work on `openaiQueue`: a provider event, or an interruption queued by a barge-in timer. */
  datatype Work =
    | Created
    | Delta(chunk: nat, length: nat)
    | Done
    | Started
    | Stopped
    | Committed(hasItem: bool)
    | Interruption(turn: nat)
    | Other                            // tool calls and ignored events

  /** The handler that is suspended at an await, if any. */
  datatype Busy = Free | Tail | DeltaPending(chunk: nat, length: nat) | DonePending

  /** What travels to Twilio; `cut` records how many audio chunks had been sent before it. */
  datatype Item = Audio(chunk: nat) | MarkItem(name: nat, cut: nat) | ClearItem(cut: nat)

  datatype Fate = Played | Dropped

  datatype Event =
    | HangupRequested
    | ResponseStarted(response: nat)
    | ResponseCompleted(response: nat)
    | TurnOpened(turn: nat, at: int, overAgent: bool)
    | TurnStopped(turn: nat)
    | InterruptOrdered(turn: nat, at: int)
    | Interrupted(turn: nat)
    | Answered(caller: Option<nat>, speaking: bool)
    | Ignored(turn: nat, speaking: bool, item: bool)

  datatype Call = Call(
    b: B.State,
    clock: int,
    queue: seq<Work>,
    busy: Busy,
    providerResponses: nat,            // responses the provider has opened
    providerActive: bool,
    chunkOf: seq<nat>,                 // the response each audio chunk belongs to
    sent: nat,                         // chunks forwarded to Twilio
    cleared: nat,                      // `sent` at the last clear
    toTwilio: seq<Item>,
    playout: seq<Item>,
    fate: seq<Fate>,                   // of the chunks Twilio is done with, in order
    echoes: seq<nat>,                  // mark names on their way back
    cuts: seq<nat>,                    // `sent` when each mark was sent
    goodbye: nat,                      // the response whose completion sent the last mark
    commits: nat,                      // committed caller turns read
    creates: nat,                      // response.create messages sent for them
    deletes: nat,                      // conversation.item.delete messages sent for them
    cancels: nat,                      // response.cancel messages sent
    log: seq<Event>)

  const INITIAL := Call(B.INITIAL, 0, [], Free, 0, false, [], 0, 0, [], [], [], [], [], 0, 0, 0, 0, 0, [])

  datatype Label =
    | Tick(elapsed: nat)
    | AgentHangsUp
    | ProviderCreates
    | ProviderSpeaks(length: nat)
    | ProviderCompletes
    | ProviderReports(work: Work)      // caller speech and events with no effect
    | Dequeue
    | Resume
    | HandlerFails
    | BargeInFires(turn: nat)
    | HangupTimerFires
    | TwilioReceives
    | TwilioPlays
    | EchoArrives
    | StreamEnds(reason: EndReason)

  /** Send what a handler segment produced. */
  function Apply(s: Call, b: B.State, e: Effects): Call {
    var s := s.(b := b);
    var s := match e.twilio
      case None => s
      case Some(Media(chunk)) => s.(toTwilio := s.toTwilio + [Audio(chunk)], sent := s.sent + 1)
      case Some(Mark(name)) =>
        s.(toTwilio := s.toTwilio + [MarkItem(name, s.sent)], cuts := s.cuts + [s.sent], goodbye := b.responsesStarted)
      case Some(Clear) => s.(toTwilio := s.toTwilio + [ClearItem(s.sent)], cleared := s.sent);
    var s := match e.provider
      case None => s
      case Some(CreateResponse) => s.(creates := s.creates + 1)
      case Some(DeleteItem) => s.(deletes := s.deletes + 1)
      case Some(CancelResponse) => s.(cancels := s.cancels + 1);
    if e.interrupt.Some? then s.(queue := s.queue + [Interruption(e.interrupt.value)]) else s
  }

  function Log(s: Call, event: Event): Call {
    s.(log := s.log + [event])
  }

  predicate Enabled(s: Call, l: Label) {
    && s.b.ended.None?
    && match l
       case ProviderCreates => !s.providerActive
       case ProviderSpeaks(_) => s.providerActive
       case ProviderCompletes => s.providerActive
       case ProviderReports(w) => w.Started? || w.Stopped? || w.Committed? || w.Other?
       case Dequeue => s.busy.Free? && s.queue != []
       case Resume => !s.busy.Free?
       case BargeInFires(turn) => turn in s.b.timers && s.b.timers[turn] <= s.clock
       case HangupTimerFires => s.b.hangupTimer.Some? && s.b.hangupTimer.value <= s.clock
       case TwilioReceives => s.toTwilio != []
       case TwilioPlays => s.playout != []
       case EchoArrives => s.echoes != []
       case StreamEnds(reason) => reason.StreamEnded? || reason.ProviderError?
       case _ => true
  }

  /** The handler takes the work at the head of the queue, up to its first await. */
  function Handle(s: Call, c: Settings, w: Work): Call {
    match w
    case Created =>
      Log(Apply(s, B.ResponseCreated(s.b), SILENT), ResponseStarted(s.b.responsesStarted + 1)).(busy := Tail)
    case Delta(chunk, length) =>
      if s.b.answerPendingSince.Some? then
        s.(b := s.b.(answerPendingSince := None), busy := DeltaPending(chunk, length))
      else
        var (b, e) := B.AudioDelta(s.b, s.clock, chunk, length);
        Apply(s, b, e)
    case Done => s.(busy := DonePending)
    case Started =>
      Log(Apply(s, B.SpeechStarted(s.b, c, s.clock), SILENT),
          TurnOpened(s.b.turnsOpened, s.clock, Speaking(s.b, s.clock)))
    case Stopped =>
      var s' := Apply(s, B.SpeechStopped(s.b, s.clock), SILENT);
      if s.b.callerTurn.Some? then Log(s', TurnStopped(s.b.callerTurn.value.id)) else s'
    case Committed(hasItem) =>
      var (b, e) := B.SpeechCommitted(s.b, s.clock, hasItem);
      var s' := Apply(s, b, e).(commits := s.commits + 1);
      if Ignores(s.b, s.clock) then
        Log(s', Ignored(s.b.callerTurn.value.id, Speaking(s.b, s.clock), hasItem)).(busy := Tail)
      else
        var caller := if s.b.callerTurn.Some? then Some(s.b.callerTurn.value.id) else None;
        Log(s', Answered(caller, Speaking(s.b, s.clock)))
    case Interruption(turn) =>
      var (b, e) := B.Interrupt(s.b, c, s.clock);
      Log(Apply(s, b, e), Interrupted(turn)).(busy := Tail)
    case Other => s.(busy := Tail)
  }

  /** The suspended handler runs to its end. */
  function Continue(s: Call): Call {
    match s.busy
    case Free => s
    case Tail => s.(busy := Free)
    case DeltaPending(chunk, length) =>
      var (b, e) := B.AudioDelta(s.b, s.clock, chunk, length);
      Apply(s, b, e).(busy := Free)
    case DonePending =>
      var (b, e) := B.ResponseDone(s.b);
      Log(Apply(s, b, e), ResponseCompleted(s.b.responsesStarted)).(busy := Free)
  }

  function MarksOf(items: seq<Item>): seq<nat> {
    if items == [] then []
    else (if items[0].MarkItem? then [items[0].name] else []) + MarksOf(items[1..])
  }

  function DroppedBy(items: seq<Item>): seq<Fate> {
    if items == [] then []
    else (if items[0].Audio? then [Dropped] else []) + DroppedBy(items[1..])
  }

  /** Twilio takes one message: `clear` drops the queued audio and echoes every pending mark at once. */
  function Receive(s: Call): Call
    requires s.toTwilio != []
  {
    var rest := s.(toTwilio := s.toTwilio[1..]);
    if s.toTwilio[0].ClearItem? then
      rest.(playout := [], fate := s.fate + DroppedBy(s.playout), echoes := s.echoes + MarksOf(s.playout))
    else
      rest.(playout := s.playout + [s.toTwilio[0]])
  }

  /** Twilio finishes playing the head of its queue, or reaches a mark and echoes it. */
  function Play(s: Call): Call
    requires s.playout != []
  {
    var rest := s.(playout := s.playout[1..]);
    match s.playout[0]
    case Audio(_) => rest.(fate := s.fate + [Played])
    case MarkItem(name, _) => rest.(echoes := s.echoes + [name])
    case ClearItem(_) => rest
  }

  function Step(s: Call, c: Settings, l: Label): Call
    requires Enabled(s, l)
  {
    match l
    case Tick(elapsed) => s.(clock := s.clock + elapsed)
    case AgentHangsUp =>
      var s' := s.(b := B.Hangup(s.b, c, s.clock));
      if s.b.hangupAfterResponse.None? then Log(s', HangupRequested) else s'
    case ProviderCreates =>
      s.(queue := s.queue + [Created], providerResponses := s.providerResponses + 1, providerActive := true)
    case ProviderSpeaks(length) =>
      s.(queue := s.queue + [Delta(|s.chunkOf|, length)], chunkOf := s.chunkOf + [s.providerResponses])
    case ProviderCompletes => s.(queue := s.queue + [Done], providerActive := false)
    case ProviderReports(w) => s.(queue := s.queue + [w])
    case Dequeue => Handle(s.(queue := s.queue[1..]), c, s.queue[0])
    case Resume => Continue(s)
    case HandlerFails => s.(b := Finish(s.b, ProviderError))
    case BargeInFires(turn) =>
      var (b, e) := B.BargeInTimer(s.b, turn);
      var s' := Apply(s, b, e);
      if OrdersInterrupt(s.b, turn) then Log(s', InterruptOrdered(turn, s.clock)) else s'
    case HangupTimerFires => s.(b := HangupTimeout(s.b))
    case TwilioReceives => Receive(s)
    case TwilioPlays => Play(s)
    case EchoArrives => s.(b := MarkEcho(s.b, s.echoes[0]), echoes := s.echoes[1..])
    case StreamEnds(reason) => s.(b := Finish(s.b, reason))
  }

  predicate Executes(s: Call, c: Settings, labels: seq<Label>)
    decreases labels
  {
    labels == [] || (Enabled(s, labels[0]) && Executes(Step(s, c, labels[0]), c, labels[1..]))
  }

  function Execute(s: Call, c: Settings, labels: seq<Label>): Call
    requires Executes(s, c, labels)
    decreases labels
  {
    if labels == [] then s else Execute(Step(s, c, labels[0]), c, labels[1..])
  }
}
