/**
 * The Twilio/OpenAI bridge of packages/voice/src/realtime.ts: what each handler segment does to the
 * bridge's variables and which messages it sends. A segment is the code between two awaits.
 *
 * Instants and durations are counted in eighths of a millisecond, the playing time of one mu-law byte.
 */
module VoiceBridge {
  import opened Base

  datatype EndReason = AgentHangup | AgentHangupTimeout | StreamEnded | ProviderError

  /** The caller turn being heard; `confirmed` once it counts as a real turn. */
  datatype Turn = Turn(id: nat, bargeIn: bool, confirmed: bool)

  datatype Settings = Settings(bargeIn: nat, hangupTimeout: nat)

  datatype TwilioMessage = Media(chunk: nat) | Mark(name: nat) | Clear
  datatype ProviderMessage = CancelResponse | CreateResponse | DeleteItem

  /** What a segment sends: at most one message to each side, and perhaps an interruption to queue. */
  datatype Effects = Effects(twilio: Option<TwilioMessage>, provider: Option<ProviderMessage>, interrupt: Option<nat>)

  const SILENT := Effects(None, None, None)

  /** The closure variables. `ended` stands for `finished` and the reason given to the first `finish`. */
  datatype State = State(
    ended: Option<EndReason>,
    responsesStarted: nat,
    responseActive: bool,
    playbackEndsAt: int,
    turnsOpened: nat,
    callerTurn: Option<Turn>,
    timers: map<nat, int>,            // armed barge-in timers, by turn
    speechStoppedAt: Option<int>,
    answerPendingSince: Option<int>,
    hangupAfterResponse: Option<nat>,
    hangupMark: Option<nat>,
    hangupMarks: nat,
    hangupTimer: Option<int>)

  const INITIAL := State(None, 0, false, 0, 0, None, map[], None, None, None, None, 0, None)

  predicate Speaking(b: State, now: int) {
    b.responseActive || now < b.playbackEndsAt
  }

  function WithoutTurnTimer(b: State): map<nat, int> {
    if b.callerTurn.Some? then b.timers - {b.callerTurn.value.id} else b.timers
  }

  function Finish(b: State, reason: EndReason): State {
    if b.ended.Some? then b
    else b.(ended := Some(reason), hangupTimer := None, timers := WithoutTurnTimer(b))
  }

  function Hangup(b: State, settings: Settings, now: int): State {
    if b.hangupAfterResponse.Some? || b.ended.Some? then b
    else b.(hangupAfterResponse := Some(b.responsesStarted), hangupTimer := Some(now + settings.hangupTimeout))
  }

  function ResponseCreated(b: State): State {
    b.(responsesStarted := b.responsesStarted + 1, responseActive := true)
  }

  predicate SendsMark(b: State) {
    && b.hangupAfterResponse.Some? && b.responsesStarted > b.hangupAfterResponse.value
    && b.hangupMark.None? && b.ended.None?
  }

  /** The end of the `turn_completed` handler, after its awaits. */
  function ResponseDone(b: State): (State, Effects) {
    var b := b.(responseActive := false);
    if SendsMark(b) then
      var name := b.hangupMarks + 1;
      (b.(hangupMarks := name, hangupMark := Some(name)), SILENT.(twilio := Some(Mark(name))))
    else (b, SILENT)
  }

  function Interrupt(b: State, settings: Settings, now: int): (State, Effects) {
    var effects := Effects(Some(Clear), if b.responseActive then Some(CancelResponse) else None, None);
    var b := b.(playbackEndsAt := 0);
    if b.hangupAfterResponse.None? then (b, effects)
    else
      (b.(hangupMark := None, hangupAfterResponse := Some(b.responsesStarted),
          hangupTimer := Some(now + settings.hangupTimeout)),
       effects)
  }

  function SpeechStarted(b: State, settings: Settings, now: int): State {
    var over := Speaking(b, now);
    var timers := WithoutTurnTimer(b);
    b.(turnsOpened := b.turnsOpened + 1,
       callerTurn := Some(Turn(b.turnsOpened, over, !over)),
       timers := if over then timers[b.turnsOpened := now + settings.bargeIn] else timers)
  }

  predicate OrdersInterrupt(b: State, turn: nat) {
    b.callerTurn.Some? && b.callerTurn.value.id == turn && b.ended.None?
  }

  /** A barge-in timer fires: it acts only while its own turn is still the current one. */
  function BargeInTimer(b: State, turn: nat): (State, Effects) {
    var fired := b.(timers := b.timers - {turn});
    if OrdersInterrupt(b, turn) then
      (fired.(callerTurn := Some(b.callerTurn.value.(confirmed := true))), SILENT.(interrupt := Some(turn)))
    else (fired, SILENT)
  }

  function SpeechStopped(b: State, now: int): State {
    b.(timers := WithoutTurnTimer(b), speechStoppedAt := Some(now))
  }

  predicate Ignores(b: State, now: int) {
    b.callerTurn.Some? && !b.callerTurn.value.confirmed && Speaking(b, now)
  }

  function SpeechCommitted(b: State, now: int, hasItem: bool): (State, Effects) {
    var closed := b.(callerTurn := None);
    if Ignores(b, now) then (closed, SILENT.(provider := if hasItem then Some(DeleteItem) else None))
    else (closed.(answerPendingSince := b.speechStoppedAt), SILENT.(provider := Some(CreateResponse)))
  }

  /** When queued audio ends, after one more payload of `length` base64 characters is sent. */
  function PlaybackAfter(playbackEndsAt: int, now: int, length: nat): int {
    (if now > playbackEndsAt then now else playbackEndsAt) + length * 3 / 4
  }

  function AudioDelta(b: State, now: int, chunk: nat, length: nat): (State, Effects) {
    (b.(playbackEndsAt := PlaybackAfter(b.playbackEndsAt, now, length)), SILENT.(twilio := Some(Media(chunk))))
  }

  function MarkEcho(b: State, name: nat): State {
    if b.hangupMark == Some(name) then Finish(b.(hangupTimer := None), AgentHangup) else b
  }

  function HangupTimeout(b: State): State {
    Finish(b.(hangupTimer := None), AgentHangupTimeout)
  }
}
