/**
 * Barge-in: how the bridge decides each caller turn, and when it interrupts the agent.
 */
module VoiceTurns {
  import opened Base
  import opened B = VoiceBridge
  import opened VoiceCall

  /** The caller turns named by the events that `pick` selects, in order. */
  function Turns(log: seq<Event>, pick: Event -> Option<nat>): seq<nat> {
    if log == [] then []
    else
      var before, last := Turns(log[..|log| - 1], pick), pick(log[|log| - 1]);
      if last.Some? then before + [last.value] else before
  }

  function Decided(e: Event): Option<nat> {
    match e
    case Answered(caller, _) => caller
    case Ignored(turn, _, _) => Some(turn)
    case _ => None
  }

  function Ordered(e: Event): Option<nat> {
    if e.InterruptOrdered? then Some(e.turn) else None
  }

  function Performed(e: Event): Option<nat> {
    if e.Interrupted? then Some(e.turn) else None
  }

  function Count(log: seq<Event>, what: Event -> bool): nat {
    if log == [] then 0 else Count(log[..|log| - 1], what) + (if what(log[|log| - 1]) then 1 else 0)
  }

  predicate IsAnswer(e: Event) { e.Answered? }

  predicate IsDeletion(e: Event) { e.Ignored? && e.item }

  predicate IsDecision(e: Event) { e.Answered? || e.Ignored? }

  predicate NoRepeats(turns: seq<nat>) {
    forall i, j | 0 <= i < j < |turns| :: turns[i] != turns[j]
  }

  predicate BeganOverAgent(log: seq<Event>, turn: nat) {
    exists i | 0 <= i < |log| :: log[i].TurnOpened? && log[i].turn == turn && log[i].overAgent
  }

  /** What closes a turn to its barge-in timer. */
  predicate Ends(e: Event, turn: nat) {
    e.TurnOpened? || e == TurnStopped(turn) || Decided(e) == Some(turn)
  }

  /** The turn opened over the agent at `since` and is still open. */
  ghost predicate OpenSince(log: seq<Event>, turn: nat, since: int) {
    exists p | 0 <= p < |log| ::
      log[p] == TurnOpened(turn, since, true) && forall q | p < q < |log| :: !Ends(log[q], turn)
  }

  /** The reasons the bridge has for the event it logs next. */
  ghost predicate Warranted(before: seq<Event>, c: Settings, e: Event) {
    match e
    case InterruptOrdered(turn, at) => exists since :: OpenSince(before, turn, since) && at - since >= c.bargeIn
    case Ignored(turn, speaking, _) => speaking && BeganOverAgent(before, turn) && turn !in Turns(before, Ordered)
    case Answered(caller, speaking) =>
      caller.Some? && speaking && BeganOverAgent(before, caller.value) ==> caller.value in Turns(before, Ordered)
    case _ => true
  }

  ghost predicate AllWarranted(log: seq<Event>, c: Settings) {
    log != [] ==> AllWarranted(log[..|log| - 1], c) && Warranted(log[..|log| - 1], c, log[|log| - 1])
  }

  lemma {:induction false} WarrantedAt(log: seq<Event>, c: Settings, p: nat)
    requires AllWarranted(log, c) && p < |log|
    ensures Warranted(log[..p], c, log[p])
  {
    if p < |log| - 1 {
      WarrantedAt(log[..|log| - 1], c, p);
      assert log[..|log| - 1][..p] == log[..p];
    }
  }

  function QueuedInterrupts(queue: seq<Work>): seq<nat> {
    if queue == [] then []
    else if queue[0].Interruption? then [queue[0].turn] + QueuedInterrupts(queue[1..])
    else QueuedInterrupts(queue[1..])
  }

  lemma {:induction false} QueuedSnoc(queue: seq<Work>, w: Work)
    ensures QueuedInterrupts(queue + [w]) ==
              if w.Interruption? then QueuedInterrupts(queue) + [w.turn] else QueuedInterrupts(queue)
  {
    if queue == [] {
      assert queue + [w] == [w];
    } else {
      var tail := queue[1..];
      assert (queue + [w])[1..] == tail + [w] && (queue + [w])[0] == queue[0];
      QueuedSnoc(tail, w);
      if queue[0].Interruption? && w.Interruption? {
        assert ([queue[0].turn] + QueuedInterrupts(tail)) + [w.turn] ==
               [queue[0].turn] + (QueuedInterrupts(tail) + [w.turn]);
      }
    }
  }

  // ---- The invariant ----

  /** The bridge's variables about turns, next to the turns its log has decided and ordered interrupted. */
  datatype View = View(turns: nat, current: Option<Turn>, timers: map<nat, int>, decided: seq<nat>, ordered: seq<nat>)

  function ViewOf(b: B.State, log: seq<Event>): View {
    View(b.turnsOpened, b.callerTurn, b.timers, Turns(log, Decided), Turns(log, Ordered))
  }

  predicate Known(v: View, log: seq<Event>) {
    && (forall i | 0 <= i < |log| && log[i].TurnOpened? :: log[i].turn < v.turns)
    && NoRepeats(v.decided) && (forall t | t in v.decided :: t < v.turns)
    && NoRepeats(v.ordered) && (forall t | t in v.ordered :: t < v.turns)
  }

  predicate Current(v: View, log: seq<Event>) {
    v.current.Some? ==>
      var t := v.current.value;
      && t.id < v.turns
      && t.id !in v.decided
      && t.bargeIn == BeganOverAgent(log, t.id)
      && t.confirmed == (!t.bargeIn || t.id in v.ordered)
  }

  ghost predicate Armed(v: View, log: seq<Event>, c: Settings) {
    forall id | id in v.timers ::
      && id < v.turns
      && id !in v.ordered
      && (v.current.Some? && v.current.value.id == id ==> OpenSince(log, id, v.timers[id] - c.bargeIn))
  }

  ghost predicate Sound(v: View, log: seq<Event>, c: Settings) {
    Known(v, log) && Current(v, log) && Armed(v, log, c) && AllWarranted(log, c)
  }

  predicate Tallies(s: Call) {
    && s.commits == Count(s.log, IsDecision)
    && s.creates == Count(s.log, IsAnswer)
    && s.deletes == Count(s.log, IsDeletion)
    && Turns(s.log, Performed) + QueuedInterrupts(s.queue) == Turns(s.log, Ordered)
  }

  ghost predicate Inv(s: Call, c: Settings) {
    Sound(ViewOf(s.b, s.log), s.log, c) && Tallies(s)
  }

  /** What one more event adds to the counts. */
  lemma Adds(log: seq<Event>, e: Event)
    ensures Turns(log + [e], Decided) == if Decided(e).Some? then Turns(log, Decided) + [Decided(e).value]
        else Turns(log, Decided)
    ensures Turns(log + [e], Ordered) == if Ordered(e).Some? then Turns(log, Ordered) + [Ordered(e).value]
        else Turns(log, Ordered)
    ensures Turns(log + [e], Performed) == if Performed(e).Some? then Turns(log,
        Performed) + [Performed(e).value] else Turns(log, Performed)
    ensures Count(log + [e], IsDecision) == Count(log, IsDecision) + (if IsDecision(e) then 1 else 0)
    ensures Count(log + [e], IsAnswer) == Count(log, IsAnswer) + (if IsAnswer(e) then 1 else 0)
    ensures Count(log + [e], IsDeletion) == Count(log, IsDeletion) + (if IsDeletion(e) then 1 else 0)
  {
    assert (log + [e])[..|log|] == log;
  }

  lemma StaysWarranted(log: seq<Event>, c: Settings, e: Event)
    requires AllWarranted(log, c) && Warranted(log, c, e)
    ensures AllWarranted(log + [e], c)
  {
    assert (log + [e])[..|log|] == log;
  }

  lemma StaysBegun(log: seq<Event>, e: Event, turn: nat)
    ensures BeganOverAgent(log + [e], turn) <==>
              BeganOverAgent(log, turn) || (e.TurnOpened? && e.turn == turn && e.overAgent)
  {
    var log' := log + [e];
    assert log'[|log|] == e;
    if BeganOverAgent(log, turn) {
      var i :| 0 <= i < |log| && log[i].TurnOpened? && log[i].turn == turn && log[i].overAgent;
      assert log'[i] == log[i];
    }
  }

  lemma StaysOpen(log: seq<Event>, e: Event, turn: nat, since: int)
    requires OpenSince(log, turn, since) && !Ends(e, turn)
    ensures OpenSince(log + [e], turn, since)
  {
    var log' := log + [e];
    var p :| 0 <= p < |log| && log[p] == TurnOpened(turn, since, true) && forall q | p < q < |log| ::
        !Ends(log[q], turn);
    assert log'[p] == log[p];
  }

  // ---- Every step keeps it ----

  /** An event about something else, or one that only closes timers. */
  lemma SoundOther(v: View, v': View, log: seq<Event>, c: Settings, e: Event)
    requires Sound(v, log, c) && !e.TurnOpened? && Decided(e).None? && Ordered(e).None?
    requires v' == v.(timers := v'.timers) && v'.timers.Keys <= v.timers.Keys
    requires forall id | id in v'.timers :: v'.timers[id] == v.timers[id] && e != TurnStopped(id)
    ensures Sound(v', log + [e], c)
  {
    StaysWarranted(log, c, e);
    if v.current.Some? {
      var id := v.current.value.id;
      StaysBegun(log, e, id);
      if id in v'.timers {
        StaysOpen(log, e, id, v.timers[id] - c.bargeIn);
      }
    }
  }

  lemma ArmedOpened(v: View, log: seq<Event>, c: Settings, at: int, over: bool, timers: map<nat, int>)
    requires Known(v, log) && Armed(v, log, c)
    requires timers.Keys <= v.timers.Keys + (if over then {v.turns} else {})
    requires over ==> v.turns in timers && timers[v.turns] == at + c.bargeIn
    ensures Armed(v.(turns := v.turns + 1, current := Some(Turn(v.turns, over, !over)), timers := timers),
                  log + [TurnOpened(v.turns, at, over)], c)
  {
    hide NoRepeats;
    var e := TurnOpened(v.turns, at, over);
    if over {
      assert (log + [e])[|log|] == e;
      assert OpenSince(log + [e], v.turns, at);
    }
    hide OpenSince;
  }

  lemma SoundOpened(v: View, log: seq<Event>, c: Settings, at: int, over: bool, timers: map<nat, int>)
    requires Sound(v, log, c)
    requires timers.Keys <= v.timers.Keys + (if over then {v.turns} else {})
    requires over ==> v.turns in timers && timers[v.turns] == at + c.bargeIn
    ensures Sound(v.(turns := v.turns + 1, current := Some(Turn(v.turns, over, !over)), timers := timers),
                  log + [TurnOpened(v.turns, at, over)], c)
  {
    var e := TurnOpened(v.turns, at, over);
    StaysWarranted(log, c, e);
    StaysBegun(log, e, v.turns);
    ArmedOpened(v, log, c, at, over, timers);
    hide AllWarranted, NoRepeats, Armed;
  }

  lemma SoundDecided(v: View, log: seq<Event>, c: Settings, e: Event)
    requires Sound(v, log, c) && IsDecision(e) && v.ordered == Turns(log, Ordered)
    requires Decided(e) == if v.current.Some? then Some(v.current.value.id) else None
    requires e.Ignored? <==> e.speaking && v.current.Some? && !v.current.value.confirmed
    ensures Sound(v.(current := None, decided := if Decided(e).Some? then v.decided + [Decided(e).value]
        else v.decided),
                  log + [e], c)
  {
    assert Warranted(log, c, e);
    StaysWarranted(log, c, e);
    hide AllWarranted, Warranted, OpenSince;
  }

  lemma SoundOrdered(v: View, log: seq<Event>, c: Settings, turn: nat, at: int)
    requires Sound(v, log, c) && turn in v.timers && v.timers[turn] <= at
    requires v.current.Some? && v.current.value.id == turn
    ensures Sound(v.(current := Some(v.current.value.(confirmed := true)), timers := v.timers - {turn},
                     ordered := v.ordered + [turn]),
                  log + [InterruptOrdered(turn, at)], c)
  {
    var e := InterruptOrdered(turn, at);
    assert OpenSince(log, turn, v.timers[turn] - c.bargeIn);
    StaysWarranted(log, c, e);
    StaysBegun(log, e, turn);
  }

  lemma SoundDisarmed(v: View, log: seq<Event>, c: Settings, timers: map<nat, int>)
    requires Sound(v, log, c) && timers.Keys <= v.timers.Keys && forall id | id in timers :: timers[id] == v.timers[id]
    ensures Sound(v.(timers := timers), log, c)
  {
  }

  predicate SameTurns(b: B.State, b': B.State) {
    b'.turnsOpened == b.turnsOpened && b'.callerTurn == b.callerTurn && b'.timers == b.timers
  }

  /** Steps that have nothing to do with turns. */
  lemma Bystands(s: Call, s': Call, c: Settings)
    requires Inv(s, c) && SameTurns(s.b, s'.b) && s'.commits == s.commits && s'.creates == s.creates
    requires s'.deletes == s.deletes && QueuedInterrupts(s'.queue) == QueuedInterrupts(s.queue)
    requires s'.log == s.log
    ensures Inv(s', c)
  {
  }

  lemma BystandsLogging(s: Call, s': Call, c: Settings, e: Event)
    requires Inv(s, c) && SameTurns(s.b, s'.b) && s'.commits == s.commits && s'.creates == s.creates
    requires s'.deletes == s.deletes && QueuedInterrupts(s'.queue) == QueuedInterrupts(s.queue)
    requires s'.log == s.log + [e] && (e.HangupRequested? || e.ResponseStarted? || e.ResponseCompleted?)
    ensures Inv(s', c)
  {
    Adds(s.log, e);
    SoundOther(ViewOf(s.b, s.log), ViewOf(s'.b, s'.log), s.log, c, e);
  }

  lemma OpensTurn(s: Call, c: Settings)
    requires Inv(s, c) && Enabled(s, Dequeue) && s.queue[0].Started?
    ensures Inv(Step(s, c, Dequeue), c)
  {
    hide Sound, Turns, Count;
    var s' := Step(s, c, Dequeue);
    var over := Speaking(s.b, s.clock);
    var e := TurnOpened(s.b.turnsOpened, s.clock, over);
    Adds(s.log, e);
    assert s'.log == s.log + [e];
    var v := ViewOf(s.b, s.log);
    SoundOpened(v, s.log, c, s.clock, over, s'.b.timers);
    assert ViewOf(s'.b, s.log + [e]) ==
           v.(turns := v.turns + 1, current := Some(Turn(v.turns, over, !over)), timers := s'.b.timers);
  }

  lemma StopsTurn(s: Call, c: Settings)
    requires Inv(s, c) && Enabled(s, Dequeue) && s.queue[0].Stopped?
    ensures Inv(Step(s, c, Dequeue), c)
  {
    hide Sound, Turns, Count;
    var s' := Step(s, c, Dequeue);
    if s.b.callerTurn.Some? {
      var e := TurnStopped(s.b.callerTurn.value.id);
      Adds(s.log, e);
      assert s'.log == s.log + [e];
      var v := ViewOf(s.b, s.log);
      SoundOther(v, v.(timers := s'.b.timers), s.log, c, e);
      assert ViewOf(s'.b, s.log + [e]) == v.(timers := s'.b.timers);
    }
  }

  /** What a commit logs. */
  function Decision(b: B.State, clock: int, hasItem: bool): Event {
    var speaking := Speaking(b, clock);
    if Ignores(b, clock) then Ignored(b.callerTurn.value.id, speaking, hasItem)
    else Answered(if b.callerTurn.Some? then Some(b.callerTurn.value.id) else None, speaking)
  }

  lemma CommitEffect(s: Call, c: Settings)
    requires Enabled(s, Dequeue) && s.queue[0].Committed?
    ensures var s', e := Step(s, c, Dequeue), Decision(s.b, s.clock, s.queue[0].hasItem);
      && s'.log == s.log + [e] && s'.queue == s.queue[1..] && s'.commits == s.commits + 1
      && s'.creates == s.creates + (if e.Answered? then 1 else 0)
      && s'.deletes == s.deletes + (if IsDeletion(e) then 1 else 0)
      && s'.b.turnsOpened == s.b.turnsOpened && s'.b.callerTurn.None? && s'.b.timers == s.b.timers
  {
  }

  lemma DecidesTurn(s: Call, c: Settings)
    requires Inv(s, c) && Enabled(s, Dequeue) && s.queue[0].Committed?
    ensures Inv(Step(s, c, Dequeue), c)
  {
    CommitEffect(s, c);
    hide Sound, Turns, Count, Handle, Speaking;
    var s' := Step(s, c, Dequeue);
    var e := Decision(s.b, s.clock, s.queue[0].hasItem);
    Adds(s.log, e);
    var v := ViewOf(s.b, s.log);
    SoundDecided(v, s.log, c, e);
    assert ViewOf(s'.b, s.log + [e]) ==
           v.(current := None, decided := if Decided(e).Some? then v.decided + [Decided(e).value] else v.decided);
  }

  lemma PerformsInterrupt(s: Call, c: Settings)
    requires Inv(s, c) && Enabled(s, Dequeue) && s.queue[0].Interruption?
    ensures Inv(Step(s, c, Dequeue), c)
  {
    hide Sound, Turns, Count;
    var s' := Step(s, c, Dequeue);
    var e := Interrupted(s.queue[0].turn);
    Adds(s.log, e);
    assert s'.log == s.log + [e];
    var v := ViewOf(s.b, s.log);
    SoundOther(v, v, s.log, c, e);
    assert ViewOf(s'.b, s.log + [e]) == v;
  }

  lemma OrdersOne(s: Call, c: Settings, turn: nat)
    requires Inv(s, c) && Enabled(s, BargeInFires(turn))
    ensures Inv(Step(s, c, BargeInFires(turn)), c)
  {
    hide Sound, Turns, Count;
    var s' := Step(s, c, BargeInFires(turn));
    var v := ViewOf(s.b, s.log);
    if OrdersInterrupt(s.b, turn) {
      var e := InterruptOrdered(turn, s.clock);
      Adds(s.log, e);
      assert s'.log == s.log + [e];
      QueuedSnoc(s.queue, Interruption(turn));
      SoundOrdered(v, s.log, c, turn, s.clock);
      assert ViewOf(s'.b, s.log + [e]) ==
             v.(current := Some(v.current.value.(confirmed := true)), timers := v.timers - {turn}, ordered :=
                 v.ordered + [turn]);
    } else {
      SoundDisarmed(v, s.log, c, s'.b.timers);
    }
  }

  lemma EndsCall(s: Call, s': Call, c: Settings)
    requires Inv(s, c) && s' == s.(b := s'.b, echoes := s'.echoes)
    requires s'.b.turnsOpened == s.b.turnsOpened && s'.b.callerTurn == s.b.callerTurn
    requires s'.b.timers == s.b.timers || s'.b.timers == WithoutTurnTimer(s.b)
    ensures Inv(s', c)
  {
    SoundDisarmed(ViewOf(s.b, s.log), s.log, c, s'.b.timers);
  }

  lemma DequeueKeeps(s: Call, c: Settings)
    requires Inv(s, c) && Enabled(s, Dequeue)
    ensures Inv(Step(s, c, Dequeue), c)
  {
    hide Sound, Turns, Count;
    var s' := Step(s, c, Dequeue);
    match s.queue[0]
    case Started => OpensTurn(s, c);
    case Stopped => StopsTurn(s, c);
    case Committed(_) => DecidesTurn(s, c);
    case Interruption(_) => PerformsInterrupt(s, c);
    case Created => BystandsLogging(s, s', c, ResponseStarted(s.b.responsesStarted + 1));
    case _ => Bystands(s, s', c);
  }

  lemma ProviderKeeps(s: Call, c: Settings, l: Label)
    requires Inv(s, c) && Enabled(s, l)
    requires l.ProviderCreates? || l.ProviderSpeaks? || l.ProviderCompletes? || l.ProviderReports?
    ensures Inv(Step(s, c, l), c)
  {
    hide Sound, Turns, Count;
    var w := match l
      case ProviderCreates => Created
      case ProviderSpeaks(length) => Delta(|s.chunkOf|, length)
      case ProviderReports(work) => work
      case _ => Done;
    QueuedSnoc(s.queue, w);
    Bystands(s, Step(s, c, l), c);
  }

  /** The rest of a handler has nothing to do with turns. */
  lemma ContinueBystands(s: Call)
    ensures var s' := Continue(s);
      && SameTurns(s.b, s'.b) && s'.queue == s.queue && s'.commits == s.commits && s'.creates == s.creates
      && s'.deletes == s.deletes
      && s'.log == s.log + if s.busy.DonePending? then [ResponseCompleted(s.b.responsesStarted)] else []
  {
    hide PlaybackAfter;
  }

  lemma ResumeKeeps(s: Call, c: Settings)
    requires Inv(s, c) && Enabled(s, Resume)
    ensures Inv(Step(s, c, Resume), c)
  {
    ContinueBystands(s);
    hide Sound, Turns, Count, Continue;
    var s' := Step(s, c, Resume);
    if s.busy.DonePending? {
      BystandsLogging(s, s', c, ResponseCompleted(s.b.responsesStarted));
    } else {
      Bystands(s, s', c);
    }
  }

  lemma AgentHangsUpKeeps(s: Call, c: Settings)
    requires Inv(s, c) && Enabled(s, AgentHangsUp)
    ensures Inv(Step(s, c, AgentHangsUp), c)
  {
    hide Sound, Turns, Count;
    var s' := Step(s, c, AgentHangsUp);
    if s.b.hangupAfterResponse.None? {
      BystandsLogging(s, s', c, HangupRequested);
    } else {
      Bystands(s, s', c);
    }
  }

  lemma StepKeeps(s: Call, c: Settings, l: Label)
    requires Inv(s, c) && Enabled(s, l)
    ensures Inv(Step(s, c, l), c)
  {
    hide Sound, Turns, Count;
    match l
    case Dequeue => DequeueKeeps(s, c);
    case Resume => ResumeKeeps(s, c);
    case AgentHangsUp => AgentHangsUpKeeps(s, c);
    case BargeInFires(turn) => OrdersOne(s, c, turn);
    case HandlerFails => EndsCall(s, Step(s, c, l), c);
    case HangupTimerFires => EndsCall(s, Step(s, c, l), c);
    case EchoArrives => EndsCall(s, Step(s, c, l), c);
    case StreamEnds(_) => EndsCall(s, Step(s, c, l), c);
    case Tick(_) => Bystands(s, Step(s, c, l), c);
    case TwilioReceives => Bystands(s, Step(s, c, l), c);
    case TwilioPlays => Bystands(s, Step(s, c, l), c);
    case _ => ProviderKeeps(s, c, l);
  }

  lemma {:induction false} ExecuteKeeps(s: Call, c: Settings, labels: seq<Label>)
    requires Inv(s, c) && Executes(s, c, labels)
    ensures Inv(Execute(s, c, labels), c)
    decreases |labels|
  {
    if labels != [] {
      StepKeeps(s, c, labels[0]);
      ExecuteKeeps(Step(s, c, labels[0]), c, labels[1..]);
    }
  }

  /** In every run: each committed turn is answered by one response.create or ignored, once, and for cause. */
  lemma TurnsDecidedOnce(c: Settings, labels: seq<Label>)
    requires Executes(VoiceCall.INITIAL, c, labels)
    ensures var s := Execute(VoiceCall.INITIAL, c, labels);
      && NoRepeats(Turns(s.log, Decided))
      && s.commits == Count(s.log, IsDecision) && s.creates == Count(s.log, IsAnswer)
      && s.deletes == Count(s.log, IsDeletion)
      && forall p | 0 <= p < |s.log| && IsDecision(s.log[p]) :: Warranted(s.log[..p], c, s.log[p])
  {
    ExecuteKeeps(VoiceCall.INITIAL, c, labels);
    var s := Execute(VoiceCall.INITIAL, c, labels);
    forall p | 0 <= p < |s.log| ensures Warranted(s.log[..p], c, s.log[p]) {
      WarrantedAt(s.log, c, p);
    }
  }

  /** In every run: the agent is interrupted at most once per turn, only after the turn stayed open for `bargeIn`;
      what was ordered has been performed or waits in the queue, in order. */
  lemma InterruptedOncePerTurn(c: Settings, labels: seq<Label>)
    requires Executes(VoiceCall.INITIAL, c, labels)
    ensures var s := Execute(VoiceCall.INITIAL, c, labels);
      && NoRepeats(Turns(s.log, Ordered))
      && Turns(s.log, Performed) + QueuedInterrupts(s.queue) == Turns(s.log, Ordered)
      && forall p | 0 <= p < |s.log| && s.log[p].InterruptOrdered? :: Warranted(s.log[..p], c, s.log[p])
  {
    ExecuteKeeps(VoiceCall.INITIAL, c, labels);
    var s := Execute(VoiceCall.INITIAL, c, labels);
    forall p | 0 <= p < |s.log| ensures Warranted(s.log[..p], c, s.log[p]) {
      WarrantedAt(s.log, c, p);
    }
  }
}
