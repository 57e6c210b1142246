/**
 * The bridge as the object it is in the source: variables captured by its handlers. Each method is
 * one handler segment, and does to the variables exactly what the specification in VoiceBridge says.
 */
module RealtimeBridge {
  import opened Base
  import B = VoiceBridge
  import VoiceCall
  import VoiceHangup

  class Bridge {
    const settings: B.Settings
    var ended: Option<B.EndReason>
    var responsesStarted: nat
    var responseActive: bool
    var playbackEndsAt: int
    var turnsOpened: nat
    var callerTurn: Option<B.Turn>
    var timers: map<nat, int>
    var speechStoppedAt: Option<int>
    var answerPendingSince: Option<int>
    var hangupAfterResponse: Option<nat>
    var hangupMark: Option<nat>
    var hangupMarks: nat
    var hangupTimer: Option<int>

    ghost function Abs(): B.State
      reads this
    {
      B.State(ended, responsesStarted, responseActive, playbackEndsAt, turnsOpened, callerTurn, timers,
              speechStoppedAt, answerPendingSince, hangupAfterResponse, hangupMark, hangupMarks, hangupTimer)
    }

    constructor (settings: B.Settings)
      ensures Abs() == B.INITIAL && this.settings == settings
    {
      this.settings := settings;
      ended, responsesStarted, responseActive, playbackEndsAt := None, 0, false, 0;
      turnsOpened, callerTurn, timers := 0, None, map[];
      speechStoppedAt, answerPendingSince := None, None;
      hangupAfterResponse, hangupMark, hangupMarks, hangupTimer := None, None, 0, None;
    }

    method ClearTurnTimer()
      modifies this`timers
      ensures timers == B.WithoutTurnTimer(old(Abs()))
    {
      if callerTurn.Some? {
        timers := timers - {callerTurn.value.id};
      }
    }

    /** Returns whether this call is the one that runs the hooks. */
    method Finish(reason: B.EndReason) returns (first: bool)
      modifies this
      ensures Abs() == B.Finish(old(Abs()), reason)
      ensures first <==> old(ended).None?
    {
      first := ended.None?;
      if !first {
        return;
      }
      ended := Some(reason);
      hangupTimer := None;
      ClearTurnTimer();
    }

    method EndCall(reason: B.EndReason)
      modifies this
      ensures Abs() == B.Finish(old(Abs()).(hangupTimer := None), reason)
    {
      hangupTimer := None;
      var _ := Finish(reason);
    }

    method Hangup(now: int)
      modifies this
      ensures Abs() == B.Hangup(old(Abs()), settings, now)
    {
      if hangupAfterResponse.Some? || ended.Some? {
        return;
      }
      hangupAfterResponse := Some(responsesStarted);
      hangupTimer := Some(now + settings.hangupTimeout);
    }

    method OnTurnStarted()
      modifies this
      ensures Abs() == B.ResponseCreated(old(Abs()))
    {
      responsesStarted := responsesStarted + 1;
      responseActive := true;
    }

    method SendHangupMark() returns (effects: B.Effects)
      modifies this
      ensures old(hangupMark).Some? || old(ended).Some? ==> Abs() == old(Abs()) && effects == B.SILENT
      ensures old(hangupMark).None? && old(ended).None? ==>
                && Abs() == old(Abs()).(hangupMarks := old(hangupMarks) + 1, hangupMark := Some(old(hangupMarks) + 1))
                && effects == B.SILENT.(twilio := Some(B.Mark(old(hangupMarks) + 1)))
    {
      effects := B.SILENT;
      if hangupMark.Some? || ended.Some? {
        return;
      }
      hangupMarks := hangupMarks + 1;
      hangupMark := Some(hangupMarks);
      effects := effects.(twilio := Some(B.Mark(hangupMarks)));
    }

    method OnTurnCompleted() returns (effects: B.Effects)
      modifies this
      ensures (Abs(), effects) == B.ResponseDone(old(Abs()))
    {
      effects := B.SILENT;
      responseActive := false;
      if hangupAfterResponse.Some? && responsesStarted > hangupAfterResponse.value {
        effects := SendHangupMark();
      }
    }

    method InterruptAgent(now: int) returns (effects: B.Effects)
      modifies this
      ensures (Abs(), effects) == B.Interrupt(old(Abs()), settings, now)
    {
      effects := B.SILENT;
      if responseActive {
        effects := effects.(provider := Some(B.CancelResponse));
      }
      playbackEndsAt := 0;
      if hangupAfterResponse.Some? {
        hangupMark := None;
        hangupAfterResponse := Some(responsesStarted);
        hangupTimer := Some(now + settings.hangupTimeout);
      }
      effects := effects.(twilio := Some(B.Clear));
    }

    method OnSpeechStarted(now: int)
      modifies this
      ensures Abs() == B.SpeechStarted(old(Abs()), settings, now)
    {
      var agentSpeaking := responseActive || now < playbackEndsAt;
      ClearTurnTimer();
      var turn := turnsOpened;
      turnsOpened := turnsOpened + 1;
      callerTurn := Some(B.Turn(turn, agentSpeaking, !agentSpeaking));
      if agentSpeaking {
        timers := timers[turn := now + settings.bargeIn];
      }
    }

    method OnBargeInTimer(turn: nat) returns (effects: B.Effects)
      modifies this
      ensures (Abs(), effects) == B.BargeInTimer(old(Abs()), turn)
    {
      effects := B.SILENT;
      timers := timers - {turn};
      if callerTurn.None? || callerTurn.value.id != turn || ended.Some? {
        return;
      }
      callerTurn := Some(callerTurn.value.(confirmed := true));
      effects := effects.(interrupt := Some(turn));
    }

    method OnSpeechStopped(now: int)
      modifies this
      ensures Abs() == B.SpeechStopped(old(Abs()), now)
    {
      ClearTurnTimer();
      speechStoppedAt := Some(now);
    }

    method OnSpeechCommitted(now: int, hasItem: bool) returns (effects: B.Effects)
      modifies this
      ensures (Abs(), effects) == B.SpeechCommitted(old(Abs()), now, hasItem)
    {
      effects := B.SILENT;
      var turn := callerTurn;
      callerTurn := None;
      var agentStillSpeaking := responseActive || now < playbackEndsAt;
      if turn.Some? && !turn.value.confirmed && agentStillSpeaking {
        if hasItem {
          effects := effects.(provider := Some(B.DeleteItem));
        }
        return;
      }
      answerPendingSince := speechStoppedAt;
      effects := effects.(provider := Some(B.CreateResponse));
    }

    method OnAudioDelta(now: int, chunk: nat, length: nat) returns (effects: B.Effects)
      modifies this
      ensures (Abs(), effects) == B.AudioDelta(old(Abs()), now, chunk, length)
    {
      effects := B.SILENT.(twilio := Some(B.Media(chunk)));
      var bytes := length * 3 / 4;
      if playbackEndsAt < now {
        playbackEndsAt := now;
      }
      playbackEndsAt := playbackEndsAt + bytes;
    }

    method OnMark(name: nat)
      modifies this
      ensures Abs() == B.MarkEcho(old(Abs()), name)
    {
      if hangupMark == Some(name) {
        EndCall(B.AgentHangup);
      }
    }

    method OnHangupTimer()
      modifies this
      ensures Abs() == B.HangupTimeout(old(Abs()))
    {
      EndCall(B.AgentHangupTimeout);
    }

    // ---- The object in a call ----

    /** A handler takes the work at the head of the provider's queue, up to its first await. */
    method Take(w: VoiceCall.Work, now: int)
      modifies this
      ensures forall s: VoiceCall.Call | s.b == old(Abs()) && s.clock == now ::
                Abs() == VoiceCall.Handle(s, settings, w).b
    {
      hide B.PlaybackAfter;
      match w
      case Created => OnTurnStarted();
      case Delta(chunk, length) =>
        if answerPendingSince.Some? {
          answerPendingSince := None;
        } else {
          var _ := OnAudioDelta(now, chunk, length);
        }
      case Started => OnSpeechStarted(now);
      case Stopped => OnSpeechStopped(now);
      case Committed(hasItem) => var _ := OnSpeechCommitted(now, hasItem);
      case Interruption(_) => var _ := InterruptAgent(now);
      case Done =>
      case Other =>
    }

    /** The suspended handler runs to its end. */
    method Continue(busy: VoiceCall.Busy, now: int)
      modifies this
      ensures forall s: VoiceCall.Call | s.b == old(Abs()) && s.clock == now && s.busy == busy ::
                Abs() == VoiceCall.Continue(s).b
    {
      hide B.PlaybackAfter;
      match busy
      case DeltaPending(chunk, length) => var _ := OnAudioDelta(now, chunk, length);
      case DonePending => var _ := OnTurnCompleted();
      case Tail =>
      case Free =>
    }

    /** The bridge's part in one step of the call. */
    method Perform(s: VoiceCall.Call, l: VoiceCall.Label)
      requires Abs() == s.b && VoiceCall.Enabled(s, l)
      modifies this
      ensures Abs() == VoiceCall.Step(s, settings, l).b
    {
      hide VoiceCall.Handle, VoiceCall.Continue;
      match l
      case AgentHangsUp => Hangup(s.clock);
      case Dequeue => TakeFirst(s);
      case Resume => Continue(s.busy, s.clock);
      case BargeInFires(turn) => var _ := OnBargeInTimer(turn);
      case EchoArrives => OnMark(s.echoes[0]);
      case HangupTimerFires => OnHangupTimer();
      case HandlerFails => var _ := Finish(B.ProviderError);
      case StreamEnds(reason) => var _ := Finish(reason);
      case _ =>
    }

    method TakeFirst(s: VoiceCall.Call)
      requires Abs() == s.b && VoiceCall.Enabled(s, VoiceCall.Dequeue)
      modifies this
      ensures Abs() == VoiceCall.Step(s, settings, VoiceCall.Dequeue).b
    {
      ghost var rest := s.(queue := s.queue[1..]);
      Take(s.queue[0], s.clock);
      assert rest.b == s.b && rest.clock == s.clock;
      hide VoiceCall.Handle;
    }

    /**
     * The object through a whole call: it ends where the call's own bridge ends, and when it ends with
     * `agent_hangup`, the caller has heard the goodbye.
     */
    method Drive(labels: seq<VoiceCall.Label>) returns (s: VoiceCall.Call)
      requires Abs() == B.INITIAL && VoiceCall.Executes(VoiceCall.INITIAL, settings, labels)
      modifies this
      ensures s == VoiceCall.Execute(VoiceCall.INITIAL, settings, labels) && Abs() == s.b
      ensures ended == Some(B.AgentHangup) ==> VoiceHangup.GoodbyeHeard(s)
    {
      hide VoiceCall.Step, VoiceHangup.GoodbyeHeard;
      s := VoiceCall.INITIAL;
      var i := 0;
      while i < |labels|
        invariant i <= |labels| && Abs() == s.b
        invariant VoiceCall.Executes(s, settings, labels[i..])
        invariant VoiceCall.Execute(s, settings, labels[i..]) == VoiceCall.Execute(VoiceCall.INITIAL, settings, labels)
      {
        assert labels[i..][0] == labels[i] && labels[i..][1..] == labels[i + 1..];
        Perform(s, labels[i]);
        s := VoiceCall.Step(s, settings, labels[i]);
        i := i + 1;
      }
      if ended == Some(B.AgentHangup) {
        VoiceHangup.HangupHeardInFull(settings, labels);
      }
    }
  }
}
