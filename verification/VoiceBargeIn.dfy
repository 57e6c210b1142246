/**
 * That barge-in happens: read off the log alone, when a caller's turn must interrupt the agent, how each
 * committed turn is decided, and when an interruption cancels a response.
 */
module VoiceBargeIn {
  import opened Base
  import opened B = VoiceBridge
  import opened VoiceCall
  import opened VoiceTurns

  // ---- What the log says ----

  /** The turn opened at place `p` is the last one, and not yet decided. */
  ghost predicate Latest(log: seq<Event>, p: nat, turn: nat, since: int, over: bool) {
    && p < |log| && log[p] == TurnOpened(turn, since, over)
    && forall q | p < q < |log| :: !log[q].TurnOpened? && Decided(log[q]) != Some(turn)
  }

  predicate Settles(e: Event, turn: nat) {
    e == TurnStopped(turn) || (e.InterruptOrdered? && e.turn == turn)
  }

  /** It opened over the agent, goes on, and has not ordered an interruption. */
  ghost predicate Waiting(log: seq<Event>, p: nat, turn: nat, since: int) {
    Latest(log, p, turn, since, true) && forall q | p < q < |log| :: !Settles(log[q], turn)
  }

  /** The last response to start has not completed. */
  predicate OpenResponse(log: seq<Event>) {
    log != [] &&
    (var last := log[|log| - 1];
     last.ResponseStarted? || (!last.ResponseCompleted? && OpenResponse(log[..|log| - 1])))
  }

  /** The interruptions performed during an open response. */
  function CancelsDue(log: seq<Event>): nat {
    if log == [] then 0
    else
      var before, last := log[..|log| - 1], log[|log| - 1];
      CancelsDue(before) + if last.Interrupted? && OpenResponse(before) then 1 else 0
  }

  lemma LatestSnoc(log: seq<Event>, e: Event, p: nat, turn: nat, since: int, over: bool)
    ensures Latest(log + [e], p, turn, since, over) <==>
              || (p == |log| && e == TurnOpened(turn, since, over))
              || (Latest(log, p, turn, since, over) && !e.TurnOpened? && Decided(e) != Some(turn))
  {
    var longer := log + [e];
    assert longer[|log|] == e;
    assert forall q | 0 <= q < |log| :: longer[q] == log[q];
  }

  lemma WaitingSnoc(log: seq<Event>, e: Event, p: nat, turn: nat, since: int)
    ensures Waiting(log + [e], p, turn, since) <==>
              || (p == |log| && e == TurnOpened(turn, since, true))
              || (Waiting(log, p, turn, since) && !e.TurnOpened? && Decided(e) != Some(turn) && !Settles(e, turn))
  {
    var longer := log + [e];
    LatestSnoc(log, e, p, turn, since, true);
    assert Latest(log, p, turn, since, true) ==> p < |log|;
    assert Latest(longer, p, turn, since, true) ==> p < |longer|;
    hide Latest;
    assert longer[|log|] == e;
    assert forall q | 0 <= q < |log| :: longer[q] == log[q];
  }

  // ---- What the bridge remembers of it ----

  /** The last turn is the bridge's current one, with its timer while it waits. */
  ghost predicate Alive(b: B.State, log: seq<Event>, c: Settings) {
    && (forall p, turn, since, over | Latest(log, p, turn, since, over) ::
          b.callerTurn.Some? && b.callerTurn.value.id == turn && b.callerTurn.value.bargeIn == over)
    && (forall p, turn, since | Waiting(log, p, turn, since) ::
          turn in b.timers && b.timers[turn] == since + c.bargeIn)
  }

  ghost predicate Remembers(s: Call, c: Settings) {
    && (s.b.ended.None? ==> Alive(s.b, s.log, c))
    && (s.b.responseActive <==> OpenResponse(s.log))
    && s.cancels == CancelsDue(s.log)
  }

  lemma LogsOne(log: seq<Event>, e: Event)
    ensures OpenResponse(log + [e]) <==> e.ResponseStarted? || (!e.ResponseCompleted? && OpenResponse(log))
    ensures CancelsDue(log + [e]) == CancelsDue(log) + if e.Interrupted? && OpenResponse(log) then 1 else 0
  {
    assert (log + [e])[..|log|] == log;
  }

  /** Events that neither open, stop nor decide a turn, and order no interruption. */
  lemma AliveOther(b: B.State, b': B.State, log: seq<Event>, c: Settings, e: Event)
    requires Alive(b, log, c) && SameTurns(b, b') && !e.TurnOpened? && Decided(e).None? && !e.TurnStopped?
    requires !e.InterruptOrdered?
    ensures Alive(b', log + [e], c)
  {
    forall p, turn, since, over | Latest(log + [e], p, turn, since, over) ensures Latest(log, p, turn, since, over) {
      LatestSnoc(log, e, p, turn, since, over);
    }
    forall p, turn, since | Waiting(log + [e], p, turn, since) ensures Waiting(log, p, turn, since) {
      WaitingSnoc(log, e, p, turn, since);
    }
    hide Latest, Waiting;
  }

  lemma AliveOpened(b: B.State, b': B.State, log: seq<Event>, c: Settings, at: int, over: bool)
    requires b'.callerTurn == Some(Turn(b.turnsOpened, over, !over))
    requires over ==> b.turnsOpened in b'.timers && b'.timers[b.turnsOpened] == at + c.bargeIn
    ensures Alive(b', log + [TurnOpened(b.turnsOpened, at, over)], c)
  {
    var e := TurnOpened(b.turnsOpened, at, over);
    forall p, turn, since, over' | Latest(log + [e], p, turn, since, over')
      ensures e == TurnOpened(turn, since, over')
    {
      LatestSnoc(log, e, p, turn, since, over');
    }
    forall p, turn, since | Waiting(log + [e], p, turn, since) ensures e == TurnOpened(turn, since, true) {
      WaitingSnoc(log, e, p, turn, since);
    }
    hide Latest, Waiting;
  }

  /** The current turn stops, or orders its interruption: it keeps being current, without a timer. */
  lemma AliveSettled(b: B.State, b': B.State, log: seq<Event>, c: Settings, e: Event)
    requires Alive(b, log, c) && b.callerTurn.Some? && Settles(e, b.callerTurn.value.id)
    requires b'.callerTurn.Some? && b'.callerTurn.value.id == b.callerTurn.value.id
    requires b'.callerTurn.value.bargeIn == b.callerTurn.value.bargeIn
    ensures Alive(b', log + [e], c)
  {
    forall p, turn, since, over | Latest(log + [e], p, turn, since, over) ensures Latest(log, p, turn, since, over) {
      LatestSnoc(log, e, p, turn, since, over);
    }
    forall p, turn, since ensures !Waiting(log + [e], p, turn, since) {
      WaitingSnoc(log, e, p, turn, since);
      assert Waiting(log, p, turn, since) ==> Latest(log, p, turn, since, true);
    }
    hide Latest, Waiting;
  }

  lemma AliveDecided(b: B.State, b': B.State, log: seq<Event>, c: Settings, e: Event)
    requires Alive(b, log, c) && IsDecision(e)
    requires Decided(e) == if b.callerTurn.Some? then Some(b.callerTurn.value.id) else None
    ensures Alive(b', log + [e], c)
  {
    forall p, turn, since, over ensures !Latest(log + [e], p, turn, since, over) {
      LatestSnoc(log, e, p, turn, since, over);
    }
    assert forall p, turn, since :: Waiting(log + [e], p, turn, since) ==> Latest(log + [e], p, turn, since, true);
    hide Latest, Waiting;
  }

  /** Timers of other turns than the current one do not matter. */
  lemma AliveDisarmed(b: B.State, b': B.State, log: seq<Event>, c: Settings)
    requires Alive(b, log, c) && b'.callerTurn == b.callerTurn
    requires forall id | id in b.timers && b.callerTurn.Some? && b.callerTurn.value.id == id ::
        id in b'.timers && b'.timers[id] == b.timers[id]
    ensures Alive(b', log, c)
  {
    forall p, turn, since | Waiting(log, p, turn, since) ensures Latest(log, p, turn, since, true) {
    }
    hide Latest, Waiting;
  }

  // ---- Every step keeps it ----

  /** Steps that log nothing and leave turns and response alone. */
  predicate Aside(s: Call, s': Call) {
    && s'.log == s.log && s'.cancels == s.cancels && s'.b.responseActive == s.b.responseActive
    && SameTurns(s.b, s'.b) && (s.b.ended.Some? ==> s'.b.ended.Some?)
  }

  lemma AsideKeeps(s: Call, s': Call, c: Settings)
    requires Remembers(s, c) && Aside(s, s')
    ensures Remembers(s', c)
  {
    hide Latest, Waiting;
  }

  lemma OpensTurn(s: Call, c: Settings)
    requires Remembers(s, c) && Enabled(s, Dequeue) && s.queue[0].Started?
    ensures Remembers(Step(s, c, Dequeue), c)
  {
    hide Alive, OpenResponse, CancelsDue, Speaking;
    var s', over := Step(s, c, Dequeue), Speaking(s.b, s.clock);
    var e := TurnOpened(s.b.turnsOpened, s.clock, over);
    assert s'.log == s.log + [e];
    LogsOne(s.log, e);
    AliveOpened(s.b, s'.b, s.log, c, s.clock, over);
  }

  lemma StopsTurn(s: Call, c: Settings)
    requires Remembers(s, c) && Enabled(s, Dequeue) && s.queue[0].Stopped?
    ensures Remembers(Step(s, c, Dequeue), c)
  {
    hide Alive, OpenResponse, CancelsDue, Speaking;
    var s' := Step(s, c, Dequeue);
    if s.b.callerTurn.Some? {
      var e := TurnStopped(s.b.callerTurn.value.id);
      assert s'.log == s.log + [e];
      LogsOne(s.log, e);
      AliveSettled(s.b, s'.b, s.log, c, e);
    } else {
      AsideKeeps(s, s', c);
    }
  }

  lemma DecidesTurn(s: Call, c: Settings)
    requires Remembers(s, c) && Enabled(s, Dequeue) && s.queue[0].Committed?
    ensures Remembers(Step(s, c, Dequeue), c)
  {
    CommitEffect(s, c);
    CommitAside(s, c);
    hide Speaking, Alive, OpenResponse, CancelsDue, Handle;
    var s', e := Step(s, c, Dequeue), Decision(s.b, s.clock, s.queue[0].hasItem);
    LogsOne(s.log, e);
    AliveDecided(s.b, s'.b, s.log, c, e);
  }

  lemma CommitAside(s: Call, c: Settings)
    requires Enabled(s, Dequeue) && s.queue[0].Committed?
    ensures var s' := Step(s, c, Dequeue);
      s'.cancels == s.cancels && s'.b.responseActive == s.b.responseActive && s'.b.ended == s.b.ended
  {
  }

  lemma PerformsInterrupt(s: Call, c: Settings)
    requires Remembers(s, c) && Enabled(s, Dequeue) && s.queue[0].Interruption?
    ensures Remembers(Step(s, c, Dequeue), c)
  {
    hide Alive, OpenResponse, CancelsDue, Speaking;
    var s', e := Step(s, c, Dequeue), Interrupted(s.queue[0].turn);
    assert s'.log == s.log + [e] && s'.cancels == s.cancels + if s.b.responseActive then 1 else 0;
    LogsOne(s.log, e);
    AliveOther(s.b, s'.b, s.log, c, e);
  }

  lemma StartsResponse(s: Call, c: Settings)
    requires Remembers(s, c) && Enabled(s, Dequeue) && s.queue[0].Created?
    ensures Remembers(Step(s, c, Dequeue), c)
  {
    hide Alive, OpenResponse, CancelsDue, Speaking;
    var s', e := Step(s, c, Dequeue), ResponseStarted(s.b.responsesStarted + 1);
    assert s'.log == s.log + [e];
    LogsOne(s.log, e);
    AliveOther(s.b, s'.b, s.log, c, e);
  }

  lemma DequeueKeeps(s: Call, c: Settings)
    requires Remembers(s, c) && Enabled(s, Dequeue)
    ensures Remembers(Step(s, c, Dequeue), c)
  {
    hide Remembers, PlaybackAfter;
    match s.queue[0]
    case Started => OpensTurn(s, c);
    case Stopped => StopsTurn(s, c);
    case Committed(_) => DecidesTurn(s, c);
    case Interruption(_) => PerformsInterrupt(s, c);
    case Created => StartsResponse(s, c);
    case _ => AsideKeeps(s, Step(s, c, Dequeue), c);
  }

  lemma ContinueKeeps(s: Call, c: Settings)
    requires Remembers(s, c) && Enabled(s, Resume)
    ensures Remembers(Step(s, c, Resume), c)
  {
    ContinueBystands(s);
    var s' := Step(s, c, Resume);
    hide PlaybackAfter, Alive, OpenResponse, CancelsDue;
    if s.busy.DonePending? {
      var e := ResponseCompleted(s.b.responsesStarted);
      LogsOne(s.log, e);
      AliveOther(s.b, s'.b, s.log, c, e);
    } else {
      AsideKeeps(s, s', c);
    }
  }

  lemma TimerFires(s: Call, c: Settings, turn: nat)
    requires Remembers(s, c) && Enabled(s, BargeInFires(turn))
    ensures Remembers(Step(s, c, BargeInFires(turn)), c)
  {
    hide Alive, OpenResponse, CancelsDue, Speaking;
    var s' := Step(s, c, BargeInFires(turn));
    if s.b.callerTurn.Some? && s.b.callerTurn.value.id == turn {
      var e := InterruptOrdered(turn, s.clock);
      assert s'.log == s.log + [e];
      LogsOne(s.log, e);
      AliveSettled(s.b, s'.b, s.log, c, e);
    } else {
      AliveDisarmed(s.b, s'.b, s.log, c);
    }
  }

  lemma AsksToHangUp(s: Call, c: Settings)
    requires Remembers(s, c) && Enabled(s, AgentHangsUp)
    ensures Remembers(Step(s, c, AgentHangsUp), c)
  {
    hide Alive, OpenResponse, CancelsDue, Speaking;
    var s' := Step(s, c, AgentHangsUp);
    if s'.log == s.log {
      AsideKeeps(s, s', c);
    } else {
      LogsOne(s.log, HangupRequested);
      AliveOther(s.b, s'.b, s.log, c, HangupRequested);
    }
  }

  /** The ends of the call and its echoes. */
  lemma EndsKeep(s: Call, c: Settings, l: Label)
    requires Remembers(s, c) && Enabled(s, l)
    requires l.HandlerFails? || l.HangupTimerFires? || l.EchoArrives? || l.StreamEnds?
    ensures Remembers(Step(s, c, l), c)
  {
    hide Alive, OpenResponse, CancelsDue;
  }

  lemma StepRemembers(s: Call, c: Settings, l: Label)
    requires Remembers(s, c) && Enabled(s, l)
    ensures Remembers(Step(s, c, l), c)
  {
    hide Remembers, Handle, Continue;
    match l
    case Dequeue => DequeueKeeps(s, c);
    case Resume => ContinueKeeps(s, c);
    case BargeInFires(turn) => TimerFires(s, c, turn);
    case AgentHangsUp => AsksToHangUp(s, c);
    case HandlerFails => EndsKeep(s, c, l);
    case HangupTimerFires => EndsKeep(s, c, l);
    case EchoArrives => EndsKeep(s, c, l);
    case StreamEnds(_) => EndsKeep(s, c, l);
    case _ => AsideKeeps(s, Step(s, c, l), c);
  }

  lemma {:induction false} RunRemembers(s: Call, c: Settings, labels: seq<Label>)
    requires Executes(s, c, labels) && Remembers(s, c)
    ensures Remembers(Execute(s, c, labels), c)
    decreases |labels|
  {
    hide Remembers, Step, Enabled;
    if labels != [] {
      StepRemembers(s, c, labels[0]);
      RunRemembers(Step(s, c, labels[0]), c, labels[1..]);
    }
  }

  lemma CallRemembers(c: Settings, labels: seq<Label>)
    requires Executes(VoiceCall.INITIAL, c, labels)
    ensures Remembers(Execute(VoiceCall.INITIAL, c, labels), c)
  {
    assert Remembers(VoiceCall.INITIAL, c);
    hide Remembers;
    RunRemembers(VoiceCall.INITIAL, c, labels);
  }

  // ---- Barge-in happens ----

  /**
   * In every run: a caller who began over the agent, has not stopped, and has not interrupted yet, does so
   * once the turn has stayed open for `bargeIn`: the timer can fire, and firing orders the interruption.
   */
  lemma BargeInFiresInTime(c: Settings, labels: seq<Label>, p: nat, turn: nat, since: int)
    requires Executes(VoiceCall.INITIAL, c, labels)
    requires var s := Execute(VoiceCall.INITIAL, c, labels);
      s.b.ended.None? && Waiting(s.log, p, turn, since) && s.clock >= since + c.bargeIn
    ensures var s := Execute(VoiceCall.INITIAL, c, labels);
      && Enabled(s, BargeInFires(turn))
      && var s' := Step(s, c, BargeInFires(turn));
      && s'.log == s.log + [InterruptOrdered(turn, s.clock)] && s'.queue == s.queue + [Interruption(turn)]
  {
    CallRemembers(c, labels);
    var s := Execute(VoiceCall.INITIAL, c, labels);
    hide Execute, Executes, OpenResponse, CancelsDue;
    assert Latest(s.log, p, turn, since, true);
    hide Latest;
  }

  /**
   * In every run: when the caller's last turn is committed, it is ignored exactly if it began over the agent,
   * ordered no interruption, and the agent is still speaking, and answered otherwise. The agent speaks while
   * its last response is open or its audio is estimated to be playing.
   */
  lemma DecidedExactly(c: Settings, labels: seq<Label>, p: nat, turn: nat, since: int, over: bool)
    requires Executes(VoiceCall.INITIAL, c, labels)
    requires var s := Execute(VoiceCall.INITIAL, c, labels);
      Latest(s.log, p, turn, since, over) && Enabled(s, Dequeue) && s.queue[0].Committed?
    ensures var s := Execute(VoiceCall.INITIAL, c, labels);
      var s', speaking := Step(s, c, Dequeue), OpenResponse(s.log) || s.clock < s.b.playbackEndsAt;
      if over && turn !in Turns(s.log, Ordered) && speaking
      then s'.log == s.log + [Ignored(turn, true, s.queue[0].hasItem)] && s'.creates == s.creates
           && s'.deletes == s.deletes + if s.queue[0].hasItem then 1 else 0
      else s'.log == s.log + [Answered(Some(turn), speaking)] && s'.creates == s.creates + 1 && s'.deletes == s.deletes
  {
    CallRemembers(c, labels);
    VoiceTurns.ExecuteKeeps(VoiceCall.INITIAL, c, labels);
    var s := Execute(VoiceCall.INITIAL, c, labels);
    hide Execute, Executes, CancelsDue, OpenResponse, Turns, Latest, Waiting;
    assert s.b.callerTurn.Some? && s.b.callerTurn.value.id == turn && s.b.callerTurn.value.bargeIn == over;
    assert Current(ViewOf(s.b, s.log), s.log);
    CommitEffect(s, c);
    hide Handle;
  }

  /** A turn that opened over the agent and ordered its interruption is answered, whatever the agent does. */
  lemma InterruptedTurnAnswered(c: Settings, labels: seq<Label>, p: nat, turn: nat, since: int)
    requires Executes(VoiceCall.INITIAL, c, labels)
    requires var s := Execute(VoiceCall.INITIAL, c, labels);
      Latest(s.log, p, turn, since, true) && turn in Turns(s.log, Ordered) && Enabled(s, Dequeue)
      && s.queue[0].Committed?
    ensures var s := Execute(VoiceCall.INITIAL, c, labels);
      exists speaking :: Step(s, c, Dequeue).log == s.log + [Answered(Some(turn), speaking)]
  {
    DecidedExactly(c, labels, p, turn, since, true);
  }

  /** In every run: a response is cancelled once for each interruption performed while it is open, and never else. */
  lemma CancelledExactly(c: Settings, labels: seq<Label>)
    requires Executes(VoiceCall.INITIAL, c, labels)
    ensures var s := Execute(VoiceCall.INITIAL, c, labels);
      && s.cancels == CancelsDue(s.log)
      && forall now :: Speaking(s.b, now) <==> OpenResponse(s.log) || now < s.b.playbackEndsAt
  {
    CallRemembers(c, labels);
    hide Execute, Executes, CancelsDue, OpenResponse, Alive;
  }
}
