/**
 * The playback clock inside whole calls: the operations a run performs on it, and the bridge's estimate
 * against the true end of playing at every moment of every run.
 */
module VoicePlayback {
  import opened Base
  import opened B = VoiceBridge
  import opened VoiceCall
  import opened Playback
  import opened VoiceBargeIn

  /** The audio bytes behind each chunk. */
  type Sizes = nat -> nat

  /** A chunk whose payload is the padded base64 text of its bytes. */
  predicate PaddedWork(w: Work, size: Sizes) {
    w.Delta? ==> w.length == EncodedLength(size(w.chunk))
  }

  predicate PaddedState(s: Call, size: Sizes) {
    && (forall i | 0 <= i < |s.queue| :: PaddedWork(s.queue[i], size))
    && (s.busy.DeltaPending? ==> s.busy.length == EncodedLength(size(s.busy.chunk)))
  }

  /** What the provider may send: padded payloads. */
  predicate PaddedLabel(s: Call, l: Label, size: Sizes) {
    l.ProviderSpeaks? ==> l.length == EncodedLength(size(|s.chunkOf|))
  }

  predicate PaddedRun(s: Call, c: Settings, labels: seq<Label>, size: Sizes)
    requires Executes(s, c, labels)
    decreases labels
  {
    labels == [] || (PaddedLabel(s, labels[0], size) && PaddedRun(Step(s, c, labels[0]), c, labels[1..], size))
  }

  /** What a step does to the playback clock: forward a chunk, clear, or nothing. */
  function OpOf(s: Call, l: Label, size: Sizes): Option<Op> {
    if l.Dequeue? && s.queue != [] && s.queue[0].Delta? && s.b.answerPendingSince.None? then
      Some(Op.Delta(s.clock, size(s.queue[0].chunk)))
    else if l.Dequeue? && s.queue != [] && s.queue[0].Interruption? then Some(Cleared)
    else if l.Resume? && s.busy.DeltaPending? then Some(Op.Delta(s.clock, size(s.busy.chunk)))
    else None
  }

  function After(ops: seq<Op>, op: Option<Op>): seq<Op> {
    if op.Some? then ops + [op.value] else ops
  }

  /** The operations of a run, after those already performed. */
  function OpsOf(ops: seq<Op>, s: Call, c: Settings, labels: seq<Label>, size: Sizes): seq<Op>
    requires Executes(s, c, labels)
    decreases labels
  {
    if labels == [] then ops
    else OpsOf(After(ops, OpOf(s, labels[0], size)), Step(s, c, labels[0]), c, labels[1..], size)
  }

  lemma EstimateSnoc(ops: seq<Op>, op: Op)
    ensures Estimate(ops + [op]) == match op
              case Delta(now, bytes) => B.PlaybackAfter(Estimate(ops), now, EncodedLength(bytes))
              case Cleared => 0
  {
    assert (ops + [op])[..|ops|] == ops;
  }

  lemma StaysPadded(s: Call, c: Settings, l: Label, size: Sizes)
    requires Enabled(s, l) && PaddedState(s, size) && PaddedLabel(s, l, size)
    ensures PaddedState(Step(s, c, l), size)
  {
    hide Speaking, WithoutTurnTimer, PlaybackAfter, EncodedLength;
    if l.Dequeue? {
      hide Handle;
      HandlesClock(s, c);
    } else if l.Resume? {
      hide B.AudioDelta, B.ResponseDone;
      ContinueFrees(s);
    }
  }

  lemma ContinueFrees(s: Call)
    ensures Continue(s).busy.Free? && Continue(s).queue == s.queue
  {
  }

  /** What handling some work does to the clock, and that it queues nothing. */
  ghost predicate Handled(s: Call, s': Call, w: Work) {
    && s'.queue == s.queue
    && (s'.busy.DeltaPending? ==> w == Work.Delta(s'.busy.chunk, s'.busy.length))
    && s'.b.playbackEndsAt ==
         if w.Delta? && s.b.answerPendingSince.None? then B.PlaybackAfter(s.b.playbackEndsAt, s.clock, w.length)
         else if w.Interruption? then 0
         else s.b.playbackEndsAt
  }

  lemma HandlesAudio(s: Call, c: Settings, w: Work)
    requires s.busy.Free? && (w.Delta? || w.Interruption?)
    ensures Handled(s, Handle(s, c, w), w)
  {
    hide PlaybackAfter;
  }

  lemma HandlesSpeech(s: Call, c: Settings, w: Work)
    requires s.busy.Free? && (w.Started? || w.Stopped?)
    ensures Handled(s, Handle(s, c, w), w)
  {
    hide PlaybackAfter, Speaking, WithoutTurnTimer;
  }

  lemma HandlesRest(s: Call, c: Settings, w: Work)
    requires s.busy.Free? && (w.Created? || w.Done? || w.Other? || w.Committed?)
    ensures Handled(s, Handle(s, c, w), w)
  {
    hide PlaybackAfter, Speaking;
  }

  lemma HandlesClock(s: Call, c: Settings)
    requires Enabled(s, Dequeue)
    ensures Handled(s.(queue := s.queue[1..]), Step(s, c, Dequeue), s.queue[0])
  {
    var s0, w := s.(queue := s.queue[1..]), s.queue[0];
    hide Handle, Handled;
    if w.Delta? || w.Interruption? {
      HandlesAudio(s0, c, w);
    } else if w.Started? || w.Stopped? {
      HandlesSpeech(s0, c, w);
    } else {
      HandlesRest(s0, c, w);
    }
  }

  /** Each step moves the estimate as its operation says. */
  lemma StepEstimates(s: Call, c: Settings, l: Label, size: Sizes, ops: seq<Op>)
    requires Enabled(s, l) && PaddedState(s, size) && s.b.playbackEndsAt == Estimate(ops)
    ensures Step(s, c, l).b.playbackEndsAt == Estimate(After(ops, OpOf(s, l, size)))
  {
    hide Speaking, WithoutTurnTimer, PlaybackAfter, EncodedLength;
    var op := OpOf(s, l, size);
    if op.Some? {
      EstimateSnoc(ops, op.value);
    }
    hide Estimate;
    if l.Dequeue? {
      hide Handle;
      HandlesClock(s, c);
    } else if l.Resume? {
      ContinueEstimates(s);
    }
  }

  lemma ContinueEstimates(s: Call)
    ensures Continue(s).b.playbackEndsAt ==
              if s.busy.DeltaPending? then B.PlaybackAfter(s.b.playbackEndsAt, s.clock, s.busy.length)
              else s.b.playbackEndsAt
  {
    hide PlaybackAfter;
  }

  lemma {:induction false} RunEstimates(s: Call, c: Settings, labels: seq<Label>, size: Sizes, ops: seq<Op>)
    requires Executes(s, c, labels) && PaddedRun(s, c, labels, size)
    requires PaddedState(s, size) && s.b.playbackEndsAt == Estimate(ops)
    ensures Execute(s, c, labels).b.playbackEndsAt == Estimate(OpsOf(ops, s, c, labels, size))
    decreases |labels|
  {
    if labels != [] {
      StepEstimates(s, c, labels[0], size, ops);
      StaysPadded(s, c, labels[0], size);
      hide Step, PaddedState, Estimate;
      RunEstimates(Step(s, c, labels[0]), c, labels[1..], size, After(ops, OpOf(s, labels[0], size)));
    }
  }

  /**
   * At every moment of every call with padded payloads the bridge's clock is never before the true end of
   * playing what was sent, and late by at most a quarter of a millisecond per chunk since the last clear.
   */
  lemma ClockOfEveryCall(c: Settings, labels: seq<Label>, size: Sizes)
    requires Executes(VoiceCall.INITIAL, c, labels) && PaddedRun(VoiceCall.INITIAL, c, labels, size)
    ensures var ops := OpsOf([], VoiceCall.INITIAL, c, labels, size);
      var ends := Execute(VoiceCall.INITIAL, c, labels).b.playbackEndsAt;
      TrueEnd(ops) <= ends <= TrueEnd(ops) + 2 * SinceClear(ops)
  {
    RunEstimates(VoiceCall.INITIAL, c, labels, size, []);
    EstimateBound(OpsOf([], VoiceCall.INITIAL, c, labels, size));
  }

  /** So whenever audio is truly playing, the bridge takes the agent to be speaking. */
  lemma PlayingIsSpeaking(c: Settings, labels: seq<Label>, size: Sizes)
    requires Executes(VoiceCall.INITIAL, c, labels) && PaddedRun(VoiceCall.INITIAL, c, labels, size)
    requires Execute(VoiceCall.INITIAL, c, labels).clock < TrueEnd(OpsOf([], VoiceCall.INITIAL, c, labels, size))
    ensures var s := Execute(VoiceCall.INITIAL, c, labels); B.Speaking(s.b, s.clock)
  {
    ClockOfEveryCall(c, labels, size);
  }

  /**
   * And it takes the agent to be speaking only while its last response is open, or within a quarter of a
   * millisecond per chunk after the true end of playing.
   */
  lemma SpeakingOnlyThen(c: Settings, labels: seq<Label>, size: Sizes)
    requires Executes(VoiceCall.INITIAL, c, labels) && PaddedRun(VoiceCall.INITIAL, c, labels, size)
    ensures var s, ops := Execute(VoiceCall.INITIAL, c, labels), OpsOf([], VoiceCall.INITIAL, c, labels, size);
      && (OpenResponse(s.log) || s.clock < TrueEnd(ops) ==> B.Speaking(s.b, s.clock))
      && (B.Speaking(s.b, s.clock) ==> OpenResponse(s.log) || s.clock < TrueEnd(ops) + 2 * SinceClear(ops))
  {
    ClockOfEveryCall(c, labels, size);
    CancelledExactly(c, labels);
    hide Execute, Executes, OpenResponse, OpsOf, TrueEnd, SinceClear;
  }
}
