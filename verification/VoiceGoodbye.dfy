/**
 * That a goodbye ends the call: once a response started after the request has completed uninterrupted, its
 * mark is on its way through Twilio, and its echo hangs up.
 */
module VoiceGoodbye {
  import opened Base
  import opened B = VoiceBridge
  import opened VoiceCall
  import opened VoiceHangup

  ghost predicate Spoken(log: seq<Event>) {
    exists g: nat :: FreshAndWhole(log, g)
  }

  /** The mark is queued at Twilio, on its way there, or its echo on its way back. */
  predicate InFlight(s: Call, name: nat) {
    name in s.echoes || name in MarksOf(s.playout + s.toTwilio)
  }

  /** The wait was asked for, and quiet starts are later than the responses it began after. */
  ghost predicate Counts(s: Call) {
    && (Requested(s.log) ==> s.b.hangupAfterResponse.Some?)
    && (s.b.hangupAfterResponse.Some? ==>
          && s.b.hangupAfterResponse.value <= s.b.responsesStarted
          && forall g: nat, p: nat | StartedQuietly(s.log, g, p) :: g > s.b.hangupAfterResponse.value)
  }

  ghost predicate Marks(s: Call) {
    && (s.b.hangupAfterResponse.Some? && Spoken(s.log) ==> s.b.hangupMark.Some?)
    && (s.b.hangupMark.Some? ==> InFlight(s, s.b.hangupMark.value))
  }

  ghost predicate Promises(s: Call) {
    s.b.ended.None? ==> Counts(s) && Marks(s)
  }

  // ---- One more event ----

  lemma QuietSnoc(log: seq<Event>, e: Event, g: nat, p: nat)
    requires StartedQuietly(log + [e], g, p)
    ensures !e.HangupRequested? && !e.Interrupted?
    ensures StartedQuietly(log, g, p) || (p == |log| && e == ResponseStarted(g))
  {
    var longer := log + [e];
    assert longer[|log|] == e;
    assert forall i | 0 <= i < |log| :: longer[i] == log[i];
  }

  lemma SpokenSnoc(log: seq<Event>, e: Event)
    requires Spoken(log + [e])
    ensures !e.HangupRequested? && !e.Interrupted?
    ensures Spoken(log) || exists g: nat, p: nat :: e == ResponseCompleted(g) && StartedQuietly(log, g, p)
  {
    var longer := log + [e];
    var g: nat :| FreshAndWhole(longer, g);
    var p: nat :| StartedQuietly(longer, g, p) && CompletedAfter(longer, g, p);
    QuietSnoc(log, e, g, p);
    var q :| p < q < |longer| && longer[q] == ResponseCompleted(g);
    if q < |log| {
      assert log[q] == longer[q];
      assert CompletedAfter(log, g, p) && FreshAndWhole(log, g);
    } else {
      assert StartedQuietly(log, g, p);
    }
  }

  lemma RequestedSnoc(log: seq<Event>, e: Event)
    ensures Requested(log + [e]) <==> Requested(log) || e.HangupRequested?
  {
    var longer := log + [e];
    assert longer[|log|] == e;
    assert forall i | 0 <= i < |log| :: longer[i] == log[i];
  }

  // ---- The marks on the link ----

  lemma {:induction false} MarksOfConcat(a: seq<Item>, b: seq<Item>)
    ensures MarksOf(a + b) == MarksOf(a) + MarksOf(b)
  {
    if a == [] {
      assert a + b == b;
    } else {
      MarksOfConcat(a[1..], b);
      assert (a + b)[1..] == a[1..] + b;
    }
  }

  lemma SendKeepsFlight(s: Call, s': Call, item: Item, name: nat)
    requires s'.playout == s.playout && s'.toTwilio == s.toTwilio + [item] && s'.echoes == s.echoes
    ensures InFlight(s, name) || (item.MarkItem? && item.name == name) ==> InFlight(s', name)
  {
    MarksOfConcat(s.playout + s.toTwilio, [item]);
    assert s'.playout + s'.toTwilio == s.playout + s.toTwilio + [item];
    assert [item][1..] == [];
  }

  lemma ReceiveKeepsFlight(s: Call, name: nat)
    requires s.toTwilio != [] && InFlight(s, name)
    ensures InFlight(Receive(s), name)
  {
    var s' := Receive(s);
    var head, tail := s.toTwilio[0], s.toTwilio[1..];
    assert s.toTwilio == [head] + tail;
    MarksOfConcat(s.playout, s.toTwilio);
    MarksOfConcat([head], tail);
    assert [head][1..] == [];
    if head.ClearItem? {
      assert s'.playout + s'.toTwilio == tail;
    } else {
      assert s'.playout + s'.toTwilio == s.playout + s.toTwilio;
    }
  }

  lemma PlayKeepsFlight(s: Call, name: nat)
    requires s.playout != [] && InFlight(s, name)
    ensures InFlight(Play(s), name)
  {
    var s' := Play(s);
    var head, tail := s.playout[0], s.playout[1..] + s.toTwilio;
    assert s.playout + s.toTwilio == [head] + tail;
    MarksOfConcat([head], tail);
    assert [head][1..] == [];
  }

  // ---- Every step keeps the promises ----

  predicate SameLink(s: Call, s': Call) {
    s'.playout == s.playout && s'.toTwilio == s.toTwilio && s'.echoes == s.echoes
  }

  predicate SameWait(b: B.State, b': B.State) {
    && b'.hangupAfterResponse == b.hangupAfterResponse && b'.hangupMark == b.hangupMark
    && b'.responsesStarted == b.responsesStarted
  }

  predicate Harmless(e: Event) {
    !e.HangupRequested? && !e.Interrupted? && !e.ResponseStarted? && !e.ResponseCompleted?
  }

  /** Steps that leave the wait alone and log at most a harmless event. */
  lemma AsideKeeps(s: Call, s': Call)
    requires Promises(s) && SameWait(s.b, s'.b) && (s.b.ended.Some? ==> s'.b.ended.Some?)
    requires s'.log == s.log || exists e :: s'.log == s.log + [e] && Harmless(e)
    requires s'.b.hangupMark.Some? && InFlight(s, s'.b.hangupMark.value) ==> InFlight(s', s'.b.hangupMark.value)
    ensures Promises(s')
  {
    if s'.b.ended.None? && s'.log != s.log {
      var e :| s'.log == s.log + [e] && Harmless(e);
      RequestedSnoc(s.log, e);
      forall g: nat, p: nat | StartedQuietly(s'.log, g, p) ensures StartedQuietly(s.log, g, p) {
        QuietSnoc(s.log, e, g, p);
      }
      if Spoken(s'.log) {
        SpokenSnoc(s.log, e);
      }
      hide Spoken, Requested, StartedQuietly, InFlight;
    }
  }

  lemma StartsResponse(s: Call, c: Settings)
    requires Promises(s) && Enabled(s, Dequeue) && s.queue[0].Created?
    ensures Promises(Step(s, c, Dequeue))
  {
    var s', e := Step(s, c, Dequeue), ResponseStarted(s.b.responsesStarted + 1);
    assert s'.log == s.log + [e] && SameLink(s, s');
    RequestedSnoc(s.log, e);
    forall g: nat, p: nat | StartedQuietly(s'.log, g, p) ensures StartedQuietly(s.log, g, p) || g == e.response {
      QuietSnoc(s.log, e, g, p);
    }
    if Spoken(s'.log) {
      SpokenSnoc(s.log, e);
    }
    hide Spoken, Requested, StartedQuietly;
  }

  lemma CompletesResponse(s: Call, c: Settings)
    requires Promises(s) && Enabled(s, Resume) && s.busy.DonePending?
    ensures Promises(Step(s, c, Resume))
  {
    var s', e := Step(s, c, Resume), ResponseCompleted(s.b.responsesStarted);
    assert s'.log == s.log + [e];
    RequestedSnoc(s.log, e);
    forall g: nat, p: nat | StartedQuietly(s'.log, g, p) ensures StartedQuietly(s.log, g, p) {
      QuietSnoc(s.log, e, g, p);
    }
    if Spoken(s'.log) {
      SpokenSnoc(s.log, e);
    }
    hide Spoken, Requested, StartedQuietly;
    if SendsMark(s.b.(responseActive := false)) {
      SendKeepsFlight(s, s', MarkItem(s.b.hangupMarks + 1, s.sent), s.b.hangupMarks + 1);
    }
  }

  lemma Interrupts(s: Call, c: Settings)
    requires Promises(s) && Enabled(s, Dequeue) && s.queue[0].Interruption?
    ensures Promises(Step(s, c, Dequeue))
  {
    InterruptEffect(s, c);
    hide Handle;
    var s', e := Step(s, c, Dequeue), Interrupted(s.queue[0].turn);
    RequestedSnoc(s.log, e);
    forall g: nat, p: nat ensures !StartedQuietly(s'.log, g, p) {
      if StartedQuietly(s'.log, g, p) {
        QuietSnoc(s.log, e, g, p);
      }
    }
    if Spoken(s'.log) {
      SpokenSnoc(s.log, e);
    }
    if s'.b.hangupMark.Some? {
      SendKeepsFlight(s, s', ClearItem(s.sent), s'.b.hangupMark.value);
    }
    hide Spoken, Requested, StartedQuietly, InFlight;
  }

  lemma AsksToHangUp(s: Call, c: Settings)
    requires Promises(s) && Enabled(s, AgentHangsUp)
    ensures Promises(Step(s, c, AgentHangsUp))
  {
    var s' := Step(s, c, AgentHangsUp);
    if s.b.hangupAfterResponse.None? {
      RequestedSnoc(s.log, HangupRequested);
      forall g: nat, p: nat ensures !StartedQuietly(s'.log, g, p) {
        if StartedQuietly(s'.log, g, p) {
          QuietSnoc(s.log, HangupRequested, g, p);
        }
      }
      if Spoken(s'.log) {
        SpokenSnoc(s.log, HangupRequested);
      }
      hide Spoken, Requested, StartedQuietly;
    } else {
      AsideKeeps(s, s');
    }
  }

  lemma SendsAudio(s: Call, s': Call)
    requires Promises(s) && SameWait(s.b, s'.b) && s'.b.ended == s.b.ended && s'.log == s.log
    requires s'.playout == s.playout && s'.echoes == s.echoes
    requires exists item :: s'.toTwilio == s.toTwilio + [item]
    ensures Promises(s')
  {
    var item :| s'.toTwilio == s.toTwilio + [item];
    if s'.b.hangupMark.Some? {
      SendKeepsFlight(s, s', item, s'.b.hangupMark.value);
    }
    hide InFlight;
    AsideKeeps(s, s');
  }

  lemma DequeueKeeps(s: Call, c: Settings)
    requires Promises(s) && Enabled(s, Dequeue)
    ensures Promises(Step(s, c, Dequeue))
  {
    hide Promises, PlaybackAfter;
    var s', w := Step(s, c, Dequeue), s.queue[0];
    if w.Created? {
      StartsResponse(s, c);
    } else if w.Interruption? {
      Interrupts(s, c);
    } else if ByStander(w) {
      HandlesRest(s.(queue := s.queue[1..]), c, w);
      hide Handle;
      AsideKeeps(s, s');
    } else if s.b.answerPendingSince.Some? {
      AsideKeeps(s, s');
    } else {
      assert s'.toTwilio == s.toTwilio + [Item.Audio(w.chunk)];
      SendsAudio(s, s');
    }
  }

  lemma ResumeKeeps(s: Call, c: Settings)
    requires Promises(s) && Enabled(s, Resume)
    ensures Promises(Step(s, c, Resume))
  {
    hide Promises, PlaybackAfter;
    var s' := Step(s, c, Resume);
    match s.busy
    case DonePending => CompletesResponse(s, c);
    case DeltaPending(chunk, _) =>
      assert s'.toTwilio == s.toTwilio + [Item.Audio(chunk)];
      SendsAudio(s, s');
    case _ => AsideKeeps(s, s');
  }

  /** An echo that is not the awaited one leaves the awaited one in flight; the awaited one ends the call. */
  lemma EchoKeeps(s: Call, c: Settings)
    requires Promises(s) && Enabled(s, EchoArrives)
    ensures Promises(Step(s, c, EchoArrives))
    ensures s.b.hangupMark == Some(s.echoes[0]) ==> Step(s, c, EchoArrives).b.ended == Some(AgentHangup)
  {
    var s' := Step(s, c, EchoArrives);
    assert s.echoes == [s.echoes[0]] + s.echoes[1..];
    if s.b.hangupMark != Some(s.echoes[0]) {
      assert s'.b == s.b;
      assert forall n | n in s.echoes && n != s.echoes[0] :: n in s'.echoes;
      AsideKeeps(s, s');
    }
  }

  lemma LinkKeeps(s: Call, c: Settings, l: Label)
    requires Promises(s) && Enabled(s, l) && (l.TwilioReceives? || l.TwilioPlays?)
    ensures Promises(Step(s, c, l))
  {
    var s' := Step(s, c, l);
    if s.b.hangupMark.Some? && InFlight(s, s.b.hangupMark.value) {
      if l.TwilioReceives? {
        ReceiveKeepsFlight(s, s.b.hangupMark.value);
      } else {
        PlayKeepsFlight(s, s.b.hangupMark.value);
      }
    }
    hide InFlight;
    AsideKeeps(s, s');
  }

  lemma TimerKeeps(s: Call, c: Settings, turn: nat)
    requires Promises(s) && Enabled(s, BargeInFires(turn))
    ensures Promises(Step(s, c, BargeInFires(turn)))
  {
    hide Promises;
    var s' := Step(s, c, BargeInFires(turn));
    assert s'.log == s.log || s'.log == s.log + [InterruptOrdered(turn, s.clock)];
    AsideKeeps(s, s');
  }

  lemma StepPromises(s: Call, c: Settings, l: Label)
    requires Promises(s) && Enabled(s, l)
    ensures Promises(Step(s, c, l))
  {
    hide Counts, Marks, Handle, Continue;
    match l
    case Dequeue => DequeueKeeps(s, c);
    case Resume => ResumeKeeps(s, c);
    case AgentHangsUp => AsksToHangUp(s, c);
    case BargeInFires(turn) => TimerKeeps(s, c, turn);
    case TwilioReceives => LinkKeeps(s, c, l);
    case TwilioPlays => LinkKeeps(s, c, l);
    case EchoArrives => EchoKeeps(s, c);
    case HandlerFails =>
    case HangupTimerFires =>
    case StreamEnds(_) =>
    case _ => AsideKeeps(s, Step(s, c, l));
  }

  lemma {:induction false} RunPromises(s: Call, c: Settings, labels: seq<Label>)
    requires Executes(s, c, labels) && Promises(s)
    ensures Promises(Execute(s, c, labels))
    decreases |labels|
  {
    hide Promises, Step, Enabled;
    if labels != [] {
      StepPromises(s, c, labels[0]);
      RunPromises(Step(s, c, labels[0]), c, labels[1..]);
    }
  }

  /**
   * In every run: once a response that started after the request, and after the last interruption, has
   * completed, a mark sent for it is in flight, and its echo, when it arrives, ends the call with
   * `agent_hangup`.
   */
  lemma GoodbyeEndsCall(c: Settings, labels: seq<Label>)
    requires Executes(VoiceCall.INITIAL, c, labels)
    requires var s := Execute(VoiceCall.INITIAL, c, labels); s.b.ended.None? && Requested(s.log) && Spoken(s.log)
    ensures var s := Execute(VoiceCall.INITIAL, c, labels);
      && s.b.hangupMark.Some? && InFlight(s, s.b.hangupMark.value)
      && (s.echoes != [] && s.echoes[0] == s.b.hangupMark.value ==>
            Enabled(s, EchoArrives) && Step(s, c, EchoArrives).b.ended == Some(AgentHangup))
  {
    assert Promises(VoiceCall.INITIAL);
    RunPromises(VoiceCall.INITIAL, c, labels);
    var s := Execute(VoiceCall.INITIAL, c, labels);
    hide Execute, Executes, InFlight, Spoken, Requested;
    if s.echoes != [] {
      EchoKeeps(s, c);
    }
  }

  /** Asking leaves the call waiting to hang up, if it has not ended. */
  lemma AskingWaits(c: Settings, labels: seq<Label>)
    requires Executes(VoiceCall.INITIAL, c, labels) && Enabled(Execute(VoiceCall.INITIAL, c, labels), AgentHangsUp)
    ensures Requested(Step(Execute(VoiceCall.INITIAL, c, labels), c, AgentHangsUp).log)
  {
    var s := Execute(VoiceCall.INITIAL, c, labels);
    VoiceHangup.ExecuteKeeps(VoiceCall.INITIAL, c, labels);
    hide Execute, Executes, Kept;
    AskedNow(s.log);
  }
}
