/**
 * A requested hang-up cannot wait for ever: while the call goes on, its timer is armed, and due when the
 * timeout has passed since the last request or interruption.
 */
module VoiceDeadline {
  import opened Base
  import opened B = VoiceBridge
  import opened VoiceCall

  /** The steps that start the wait or start it anew. */
  predicate Renews(s: Call, l: Label) {
    || (l.AgentHangsUp? && s.b.hangupAfterResponse.None?)
    || (l.Dequeue? && s.queue != [] && s.queue[0].Interruption?)
  }

  function Since(since: Option<int>, s: Call, l: Label): Option<int> {
    if Renews(s, l) then Some(s.clock) else since
  }

  /** When a run last asked for the hang-up or interrupted the agent. */
  function LastRenewal(since: Option<int>, s: Call, c: Settings, labels: seq<Label>): Option<int>
    requires Executes(s, c, labels)
    decreases labels
  {
    if labels == [] then since
    else LastRenewal(Since(since, s, labels[0]), Step(s, c, labels[0]), c, labels[1..])
  }

  predicate Due(s: Call, c: Settings, since: Option<int>) {
    s.b.ended.None? && s.b.hangupAfterResponse.Some? ==>
      since.Some? && since.value <= s.clock && s.b.hangupTimer == Some(since.value + c.hangupTimeout)
  }

  /** Neither the wait nor its timer is touched, but by the end of the call. */
  predicate LeavesWait(s: Call, s': Call) {
    && s'.clock == s.clock
    && (s'.b.ended.None? ==>
          s'.b.hangupAfterResponse == s.b.hangupAfterResponse && s'.b.hangupTimer == s.b.hangupTimer)
  }

  lemma HandleLeavesWait(s: Call, c: Settings, w: Work)
    requires !w.Interruption?
    ensures LeavesWait(s, Handle(s, c, w))
  {
    hide Speaking, WithoutTurnTimer, PlaybackAfter;
    match w
    case Committed(_) =>
    case _ =>
  }

  lemma HandleRenews(s: Call, c: Settings, w: Work)
    requires w.Interruption?
    ensures var s' := Handle(s, c, w);
      && s'.clock == s.clock && s'.b.ended == s.b.ended
      && (s'.b.hangupAfterResponse.Some? ==> s'.b.hangupTimer == Some(s.clock + c.hangupTimeout))
  {
  }

  lemma ContinueLeavesWait(s: Call)
    ensures LeavesWait(s, Continue(s))
  {
    hide PlaybackAfter;
    match s.busy
    case DonePending =>
    case _ =>
  }

  lemma StepDue(s: Call, c: Settings, l: Label, since: Option<int>)
    requires Due(s, c, since) && Enabled(s, l)
    ensures Due(Step(s, c, l), c, Since(since, s, l))
  {
    hide Handle, Continue;
    if l.Dequeue? {
      var rest := s.(queue := s.queue[1..]);
      if s.queue[0].Interruption? {
        HandleRenews(rest, c, s.queue[0]);
      } else {
        HandleLeavesWait(rest, c, s.queue[0]);
      }
    } else if l.Resume? {
      ContinueLeavesWait(s);
    } else if l.BargeInFires? {
      BargeInLeavesWait(s, c, l.turn);
      hide Step;
    }
  }

  lemma BargeInLeavesWait(s: Call, c: Settings, turn: nat)
    requires Enabled(s, BargeInFires(turn))
    ensures LeavesWait(s, Step(s, c, BargeInFires(turn)))
  {
  }

  lemma {:induction false} RunDue(s: Call, c: Settings, labels: seq<Label>, since: Option<int>)
    requires Executes(s, c, labels) && Due(s, c, since)
    ensures Due(Execute(s, c, labels), c, LastRenewal(since, s, c, labels))
    decreases |labels|
  {
    if labels != [] {
      StepDue(s, c, labels[0], since);
      hide Step, Due, Since;
      RunDue(Step(s, c, labels[0]), c, labels[1..], Since(since, s, labels[0]));
    }
  }

  /**
   * At every moment of every call: if the hang-up is waited for, the timer is due exactly the timeout after the
   * last request or interruption, and from then on it can fire, which ends the call.
   */
  lemma HangupCannotHang(c: Settings, labels: seq<Label>)
    requires Executes(VoiceCall.INITIAL, c, labels)
    ensures var s, since := Execute(VoiceCall.INITIAL, c, labels), LastRenewal(None, VoiceCall.INITIAL, c, labels);
      s.b.ended.None? && s.b.hangupAfterResponse.Some? ==>
        && since.Some? && since.value <= s.clock && s.b.hangupTimer == Some(since.value + c.hangupTimeout)
        && (s.clock >= since.value + c.hangupTimeout ==>
              && Enabled(s, HangupTimerFires)
              && Step(s, c, HangupTimerFires).b.ended == Some(AgentHangupTimeout))
  {
    RunDue(VoiceCall.INITIAL, c, labels, None);
  }
}
