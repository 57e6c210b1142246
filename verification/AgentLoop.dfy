/**
 * The bounded agent loop of packages/sdk/src/define-agent.ts as the object it is: nested loops that update
 * the counters, the history and the trace of one run.
 */
module AgentLoop {
  import opened Base
  import opened AgentWorld

  /** How a turn hands control back: another turn, more input, the run's end, or an exception. */
  datatype Exit = Again | NextInput | Stopped | Raised(reason: Control) | Escaped

  /** The events told so far, with more of the last turn. */
  ghost function Longer(segments: seq<seq<Event>>, events: seq<Event>): seq<seq<Event>>
    requires segments != []
  {
    segments[|segments| - 1 := segments[|segments| - 1] + events]
  }

  lemma LongerNothing(segments: seq<seq<Event>>)
    requires segments != []
    ensures Longer(segments, []) == segments
  {
    assert segments[|segments| - 1] + [] == segments[|segments| - 1];
  }

  lemma LongerPair(segments: seq<seq<Event>>, a: Event, b: Event)
    requires segments != []
    ensures Longer(Longer(segments, [a]), [b]) == Longer(segments, [a, b])
  {
    LongerTwice(segments, [a], [b]);
    assert [a] + [b] == [a, b];
  }

  lemma LongerTwice(segments: seq<seq<Event>>, a: seq<Event>, b: seq<Event>)
    requires segments != []
    ensures Longer(Longer(segments, a), b) == Longer(segments, a + b)
  {
    var last := segments[|segments| - 1];
    assert last + a + b == last + (a + b);
  }

  lemma WholeExactly(w: World, segments: seq<seq<Event>>, whole: bool)
    requires Turns(segments, whole) && forall k | 0 <= k < |segments| :: segments[k] == TurnEvents(w, k)
    ensures segments != [] ==> (whole <==> !EndsOpen(w, |segments|))
  {
    if segments != [] {
      OpenExactly(w, |segments| - 1);
      hide Finishes, TurnEvents, LeavesOpen;
    }
  }

  class AgentRun {
    const world: World
    var turns: nat
    var toolCalls: nat
    var outputs: nat
    var sourceReads: nat
    var metadataCalls: nat
    var status: Status
    var error: Option<ErrorCode>
    var finalOutput: Option<string>
    var history: seq<Message>
    var trace: seq<Event>
    var calls: seq<seq<Message>>            // the history passed to each model call
    ghost var segments: seq<seq<Event>>

    constructor (world: World)
      ensures this.world == world
      ensures turns == toolCalls == outputs == sourceReads == metadataCalls == 0
      ensures status == Completed && error == None && finalOutput == None
      ensures history == [] && trace == [] && calls == [] && segments == []
    {
      this.world := world;
      turns, toolCalls, outputs, sourceReads, metadataCalls := 0, 0, 0, 0, 0;
      status, error, finalOutput := Completed, None, None;
      history, trace, calls, segments := [], [], [], [];
    }

    ghost predicate Valid(whole: bool)
      reads this`trace, this`segments, this`turns, this`calls, this`outputs, this`toolCalls
    {
      && trace == [RunStarted] + Flat(segments)
      && |segments| == turns == |calls| <= world.maxTurns && (!whole ==> turns > 0)
      && Turns(segments, whole)
      && outputs + toolCalls <= turns
      && Calls(world, calls)
    }

    /** The history is what the next model call may see. */
    ghost predicate Ready()
      reads this`calls, this`history
    {
      Calls(world, calls + [history])
    }

    ghost predicate Running()
      reads this
    {
      status == Completed && error == None
    }

    /** The first n turns are told as they went, and the counters count them. */
    ghost predicate AsTold(n: nat)
      reads this`segments, this`outputs, this`toolCalls, this`finalOutput
    {
      && n <= |segments| && (forall k | 0 <= k < n :: segments[k] == TurnEvents(world, k))
      && outputs == Deliveries(world, n)
      && toolCalls == ToolRuns(world, n)
      && finalOutput == LastDelivered(world, n)
    }

    /** How the run ends if this is the exit of its last step. */
    ghost function Ending(exit: Exit): Option<End>
      reads this
    {
      match exit
      case Again => None
      case NextInput => None
      case Stopped => Some(End(status, error))
      case Raised(reason) => Some(ControlEnd(reason))
      case Escaped => Some(ESCAPED)
    }

    /** What a turn leaves behind, by the way it exits. */
    ghost predicate Left(exit: Exit)
      reads this
    {
      match exit
      case Again => Running() && Ready()
      case NextInput => Running() && AwaitsInput(world, calls, history)
      case Stopped => status == Completed <==> error == None
      case Raised(_) => Running()
      case Escaped => Running()
    }

    /** After a step that may have been cut off by the estimator before its turn was finished. */
    ghost predicate After(exit: Exit, whole: bool)
      reads this
    {
      Valid(whole) && Left(exit) && (!whole ==> exit.Escaped?)
    }

    /** `metadataFor`: returns whether the cost estimator threw. */
    method Metadata() returns (throws: bool)
      modifies this`metadataCalls
      ensures metadataCalls == old(metadataCalls) + 1 && throws == world.estimatorThrows(old(metadataCalls))
    {
      throws := world.estimatorThrows(metadataCalls);
      metadataCalls := metadataCalls + 1;
    }

    /** Emit an event of the current turn. */
    method Emit(e: Event, ghost whole: bool)
      requires Valid(whole) && turns > 0 && Within(e, turns) && (e.TurnFinished? ==> !whole)
      modifies this`trace, this`segments
      ensures Valid(whole || e.TurnFinished?)
      ensures segments == Longer(old(segments), [e])
    {
      TurnsEmit(segments, e, whole);
      FlatEmit(segments, e);
      hide Flat, Turns, Calls;
      assert ([RunStarted] + Flat(segments)) + [e] == [RunStarted] + (Flat(segments) + [e]);
      trace := trace + [e];
      segments := Longer(segments, [e]);
    }

    method StartTurn()
      requires Valid(true) && Ready() && turns < world.maxTurns
      modifies this`turns, this`trace, this`segments, this`calls
      ensures turns == old(turns) + 1 && calls == old(calls) + [history]
      ensures Valid(false) && segments == old(segments) + [[TurnStarted(turns)]]
    {
      TurnsStart(segments);
      hide Flat, Turns, Calls;
      turns := turns + 1;
      var e := TurnStarted(turns);
      assert ([RunStarted] + Flat(segments)) + [e] == [RunStarted] + (Flat(segments) + [e]);
      trace := trace + [TurnStarted(turns)];
      segments := segments + [[TurnStarted(turns)]];
      calls := calls + [history];
    }

    /** The catch around a tool's execution and its two events; an abort is passed on. */
    method FailTool(id: ToolCallId, name: string, control: Option<Control>) returns (exit: Exit, ghost whole: bool)
      requires Valid(false) && turns > 0 && Running()
      modifies this`history, this`metadataCalls, this`trace, this`segments, this`status, this`error
      ensures After(exit, whole)
      ensures var m := old(metadataCalls);
        exit == if world.estimatorThrows(m) || world.estimatorThrows(m + 1) then Escaped
                else if control.Some? then Raised(control.value)
                else Stopped
      ensures exit.Stopped? ==> status == Failed && error == Some(ToolError)
      ensures segments == Longer(old(segments), FailEvents(world, turns, old(metadataCalls)))
    {
      LongerNothing(segments);
      LongerPair(segments, ToolCalled(turns, ToolFailed), TurnFinished(turns, TurnError));
      hide Longer, Turns, Flat, Calls;
      history := history + [Tool(id, name, None, true)];
      var throws := Metadata();
      if throws {
        return Escaped, false;
      }
      Emit(ToolCalled(turns, ToolFailed), false);
      throws := Metadata();
      if throws {
        return Escaped, false;
      }
      Emit(TurnFinished(turns, TurnError), false);
      if control.Some? {
        return Raised(control.value), true;
      }
      status, error := Failed, Some(ToolError);
      return Stopped, true;
    }

    /** A tool that was not declared fails the run, after the turn is finished and the rejection told. */
    method RejectTool() returns (exit: Exit, ghost whole: bool)
      requires Valid(false) && turns > 0 && Running()
      modifies this`metadataCalls, this`trace, this`segments, this`status, this`error
      ensures After(exit, whole)
      ensures var m := old(metadataCalls);
        exit == if world.estimatorThrows(m) || world.estimatorThrows(m + 1) then Escaped else Stopped
      ensures exit.Stopped? ==> status == Failed && error == Some(UndeclaredTool)
      ensures segments == Longer(old(segments), RejectEvents(world, turns, old(metadataCalls)))
    {
      LongerNothing(segments);
      LongerPair(segments, TurnFinished(turns, CalledTool), ToolCalled(turns, ToolRejected));
      hide Longer, Turns, Flat, Calls;
      var throws := Metadata();
      if throws {
        return Escaped, false;
      }
      Emit(TurnFinished(turns, CalledTool), false);
      throws := Metadata();
      if throws {
        return Escaped, true;
      }
      Emit(ToolCalled(turns, ToolRejected), true);
      status, error := Failed, Some(UndeclaredTool);
      return Stopped, true;
    }

    /** The two events of a completed tool call; returns whether the estimator threw on the way. */
    method TellTool() returns (throws: bool)
      requires Valid(false) && turns > 0
      modifies this`metadataCalls, this`trace, this`segments
      ensures Valid(!throws)
      ensures var m := old(metadataCalls);
        && (throws <==> FailThrows(world, m)) && metadataCalls == m + (if world.estimatorThrows(m) then 1 else 2)
        && segments == Longer(old(segments), TriedEvents(world, turns, m))
    {
      LongerNothing(segments);
      LongerPair(segments, ToolCalled(turns, ToolCompleted), TurnFinished(turns, CalledTool));
      hide Longer, Turns, Flat, Calls;
      throws := Metadata();
      if !throws {
        Emit(ToolCalled(turns, ToolCompleted), false);
        throws := Metadata();
        if !throws {
          Emit(TurnFinished(turns, CalledTool), false);
        }
      }
    }

    /** The two events of a completed tool call; an exception of the estimator lands in the tool's own catch. */
    method ReportTool(callId: ToolCallId, name: string) returns (exit: Exit, ghost whole: bool)
      requires Valid(false) && turns > 0 && Running() && Ready()
      modifies this`history, this`metadataCalls, this`trace, this`segments, this`status, this`error
      ensures After(exit, whole) && !exit.NextInput?
      ensures var m := old(metadataCalls);
        if !world.estimatorThrows(m) && !world.estimatorThrows(m + 1) then exit.Again? && metadataCalls == m + 2
        else Ending(exit) == Some(ToolEnd(world, if world.estimatorThrows(m) then m + 1 else m + 2, None))
      ensures segments == Longer(old(segments), ReportEvents(world, turns, old(metadataCalls)))
    {
      hide Turns, Flat, Calls, FailEvents;
      ghost var m := metadataCalls;
      var throws := TellTool();
      whole, exit := !throws, Again;
      if throws {
        LongerTwice(old(segments), TriedEvents(world, turns, m), FailEvents(world, turns, metadataCalls));
        hide Longer, TriedEvents;
        exit, whole := FailTool(callId, name, None);
      }
    }

    /** A tool call ends the turn as the world prescribes; only a completed one leads to another model call. */
    method UseTool(id: Option<string>, name: string) returns (exit: Exit, ghost whole: bool)
      requires Valid(false) && turns > 0 && Running() && history == calls[|calls| - 1]
      requires world.model(turns - 1) == Returned(CallTool(id, name))
      requires outputs + toolCalls < turns && toolCalls == ToolRuns(world, turns - 1)
      modifies this`history, this`metadataCalls, this`trace, this`segments, this`status, this`error
      modifies this`toolCalls
      ensures After(exit, whole) && !exit.NextInput?
      ensures Ending(exit) == EndDuring(world, turns - 1, old(metadataCalls))
      ensures exit.Again? ==> metadataCalls == old(metadataCalls) + 2
      ensures segments == Longer(old(segments), AnswerEvents(world, turns - 1, old(metadataCalls)))
      ensures toolCalls == old(toolCalls) + if RunsTool(world, turns - 1) then 1 else 0
    {
      hide Longer, RejectEvents, FailEvents, ReportEvents, Turns, Flat, Calls, Ready;
      if name !in world.tools {
        exit, whole := RejectTool();
        return;
      }
      var callId := if id.Some? then Given(id.value) else Generated(turns, toolCalls + 1);
      toolCalls := toolCalls + 1;
      match world.tool(turns - 1)
      case Threw => exit, whole := FailTool(callId, name, None);
      case Aborted(reason) => exit, whole := FailTool(callId, name, Some(reason));
      case Returned(result) =>
        RecordResult(callId, name, result);
        exit, whole := ReportTool(callId, name);
    }

    /** A tool's result enters the history, which the next model call may see. */
    method RecordResult(callId: ToolCallId, name: string, result: string)
      requires Valid(false) && turns > 0 && history == calls[|calls| - 1] && RunsTool(world, turns - 1)
      requires name == world.model(turns - 1).value.name && world.tool(turns - 1) == Returned(result)
      requires var id := world.model(turns - 1).value.id;
        callId == if id.Some? then Given(id.value) else Generated(turns, ToolRuns(world, turns - 1) + 1)
      modifies this`history
      ensures history == old(history) + [Tool(callId, name, Some(result), false)] && Ready()
    {
      hide Turns, Flat;
      history := history + [Tool(callId, name, Some(result), false)];
      assert Follows(world, turns - 1, calls[turns - 1], history);
      CallsSnoc(world, calls, history);
    }

    /** The catch around the model call; an abort is passed on. */
    method FailModel(control: Option<Control>) returns (exit: Exit, ghost whole: bool)
      requires Valid(false) && turns > 0 && Running()
      modifies this`metadataCalls, this`trace, this`segments, this`status, this`error
      ensures After(exit, whole)
      ensures exit == if world.estimatorThrows(old(metadataCalls)) then Escaped
                      else if control.Some? then Raised(control.value)
                      else Stopped
      ensures exit.Stopped? ==> status == Failed && error == Some(ModelError)
      ensures var throws := world.estimatorThrows(old(metadataCalls));
        segments == Longer(old(segments), if throws then [] else [TurnFinished(turns, TurnError)])
    {
      LongerNothing(segments);
      hide Longer, Turns, Flat, Calls;
      var throws := Metadata();
      if throws {
        return Escaped, false;
      }
      Emit(TurnFinished(turns, TurnError), false);
      if control.Some? {
        return Raised(control.value), true;
      }
      status, error := Failed, Some(ModelError);
      return Stopped, true;
    }

    /** A message is delivered and counted if its output settles; a terminal one stops the run. */
    method Speak(content: string, terminal: bool) returns (exit: Exit, ghost whole: bool)
      requires Valid(false) && turns > 0 && Running() && history == calls[|calls| - 1] && outputs + toolCalls < turns
      requires world.model(turns - 1) == Returned(Say(content, terminal))
      modifies this`history, this`metadataCalls, this`trace, this`segments, this`status, this`error
      modifies this`outputs, this`finalOutput
      ensures After(exit, whole) && !exit.Again?
      ensures Ending(exit) == EndDuring(world, turns - 1, old(metadataCalls)) && metadataCalls == old(metadataCalls) + 1
      ensures segments == Longer(old(segments), AnswerEvents(world, turns - 1, old(metadataCalls)))
      ensures if !world.estimatorThrows(old(metadataCalls)) && world.output(turns - 1).Returned?
              then outputs == old(outputs) + 1 && finalOutput == Some(content)
              else outputs == old(outputs) && finalOutput == old(finalOutput)
    {
      LongerNothing(segments);
      hide Longer, Ready, Turns, Flat, Calls;
      history := history + [Assistant(content)];
      var throws := Metadata();
      if throws {
        return Escaped, false;
      }
      Emit(TurnFinished(turns, SaidMessage), false);
      exit := Deliver(content, terminal);
      whole := true;
    }

    /** The output of a message: its failure fails the run, an abort is passed on. */
    method Deliver(content: string, terminal: bool) returns (exit: Exit)
      requires Valid(true) && turns > 0 && Running() && outputs + toolCalls < turns
      requires AwaitsInput(world, calls, history)
      modifies this`status, this`error, this`outputs, this`finalOutput
      ensures After(exit, true)
      ensures exit == match world.output(turns - 1)
                case Aborted(reason) => Raised(reason)
                case Threw => Stopped
                case Returned(_) => if terminal then Stopped else NextInput
      ensures exit.Stopped? ==>
                if world.output(turns - 1).Threw? then status == Failed && error == Some(OutputError) else Running()
      ensures if world.output(turns - 1).Returned? then outputs == old(outputs) + 1 && finalOutput == Some(content)
              else outputs == old(outputs) && finalOutput == old(finalOutput)
    {
      hide Turns, Flat, Calls, AwaitsInput;
      match world.output(turns - 1) {
        case Aborted(reason) => return Raised(reason);
        case Threw =>
          status, error := Failed, Some(OutputError);
          return Stopped;
        case Returned(_) =>
      }
      outputs := outputs + 1;
      finalOutput := Some(content);
      return if terminal then Stopped else NextInput;
    }

    /** The model call of a turn just started, and what follows from its answer. */
    method Answer() returns (exit: Exit, ghost whole: bool)
      requires Valid(false) && turns > 0 && Running() && history == calls[|calls| - 1] && outputs + toolCalls < turns
      requires toolCalls == ToolRuns(world, turns - 1) && metadataCalls == Metas(world, turns - 1)
      requires segments[turns - 1] == [TurnStarted(turns)]
      modifies this`history, this`metadataCalls, this`trace, this`segments, this`status, this`error
      modifies this`outputs, this`finalOutput, this`toolCalls
      ensures After(exit, whole) && Ending(exit) == EndDuring(world, turns - 1, old(metadataCalls))
      ensures exit.Again? || exit.NextInput? ==>
                && metadataCalls == old(metadataCalls) + (if Says(world, turns - 1) then 1 else 2)
                && (exit.NextInput? <==> Says(world, turns - 1))
      ensures toolCalls == old(toolCalls) + if RunsTool(world, turns - 1) then 1 else 0
      ensures segments == old(segments)[turns - 1 := TurnEvents(world, turns - 1)]
      ensures if Delivers(world, turns - 1)
              then outputs == old(outputs) + 1 && finalOutput == Some(world.model(turns - 1).value.content)
              else outputs == old(outputs) && finalOutput == old(finalOutput)
    {
      hide Turns, Flat, Calls, Follows, Ready, AwaitsInput;
      match world.model(turns - 1)
      case Returned(Say(content, terminal)) => exit, whole := Speak(content, terminal);
      case Returned(CallTool(id, name)) => exit, whole := UseTool(id, name);
      case Threw => exit, whole := FailModel(None);
      case Aborted(reason) => exit, whole := FailModel(Some(reason));
    }

    /** One turn: told, counted and ended as the world prescribes. */
    method TakeTurn() returns (exit: Exit, ghost whole: bool)
      requires Valid(true) && Running() && Ready() && turns < world.maxTurns && AsTold(turns)
      requires metadataCalls == Metas(world, turns)
      modifies this
      ensures AsTold(turns) && turns == old(turns) + 1 && sourceReads == old(sourceReads)
      ensures After(exit, whole) && Ending(exit) == EndDuring(world, turns - 1, old(metadataCalls))
      ensures exit.Again? || exit.NextInput? ==>
                && metadataCalls == old(metadataCalls) + (if Says(world, turns - 1) then 1 else 2)
                && toolCalls == ToolRuns(world, turns) && (exit.NextInput? <==> Says(world, turns - 1))
    {
      hide Turns, Flat, Calls, Ready, AwaitsInput, TurnEvents, EndDuring, RunsTool, Delivers;
      StartTurn();
      exit, whole := Answer();
    }

    method Finish(ghost whole: bool) returns (result: Result)
      requires Valid(whole) && (status == Completed <==> error == None)
      modifies this`trace
      ensures RunTrace(trace, result, whole)
      ensures trace == old(trace) + [RunFinished(result.status, result.turns, result.toolCalls)]
      ensures result == Result(status, turns, toolCalls, outputs, finalOutput, error)
    {
      result := Result(status, turns, toolCalls, outputs, finalOutput, error);
      trace := trace + [RunFinished(result.status, result.turns, result.toolCalls)];
      assert |segments| == result.turns && Turns(segments, whole);
    }

    /** Where the run is, by the exit of its last step: between turns, or at its end. */
    ghost predicate Reached(exit: Exit)
      reads this
    {
      match exit
      case NextInput =>
        && AllGoOn(world, turns) && NeedsInput(world, turns) && metadataCalls == Metas(world, turns)
        && sourceReads == Said(world, turns) && toolCalls == ToolRuns(world, turns)
      case Again =>
        && AllGoOn(world, turns) && InputRead(world, turns) && metadataCalls == Metas(world, turns)
        && sourceReads == Said(world, turns) + 1 && toolCalls == ToolRuns(world, turns)
      case _ => EndsAfter(world, turns, Ending(exit).value)
    }

    /** One iteration of the inner loop: the limit, or a turn. */
    method TurnOrLimit() returns (exit: Exit, ghost whole: bool)
      requires After(Again, true) && AsTold(turns) && Reached(Again)
      modifies this
      ensures After(exit, whole) && AsTold(turns) && Reached(exit)
      ensures exit.Again? || exit.NextInput? ==> turns == old(turns) + 1
      ensures old(turns) <= turns <= old(turns) + 1 && sourceReads == old(sourceReads)
    {
      hide Turns, Flat, Calls, EndDuring, AwaitsInput, AsTold, Ready;
      if turns >= world.maxTurns {
        status, error := MaxTurns, Some(MaxTurnsError);
        exit, whole := Stopped, true;
      } else {
        exit, whole := TakeTurn();
      }
    }

    /** One read of the source. */
    method ReadInput() returns (exit: Exit)
      requires After(NextInput, true) && AsTold(turns) && Reached(NextInput)
      modifies this`sourceReads, this`history, this`status, this`error
      ensures After(exit, true) && AsTold(turns) && Reached(exit) && !exit.NextInput? && !exit.Escaped?
      ensures sourceReads == old(sourceReads) + 1
    {
      hide Turns, Flat, AsTold, AwaitsInput, Calls;
      sourceReads := sourceReads + 1;
      match world.source(sourceReads - 1)
      case Aborted(reason) => exit := Raised(reason);
      case Threw =>
        status, error := Failed, Some(SourceError);
        exit := Stopped;
      case Returned(None) => exit := Stopped;
      case Returned(Some(content)) =>
        InputArrives(world, calls, history);
        history := history + [User(content)];
        exit := Again;
    }

    /** The outer loop's body: one read and, with an input, the turns up to the next message or the end. */
    method InputAndTurns() returns (exit: Exit, ghost whole: bool)
      requires After(NextInput, true) && AsTold(turns) && Reached(NextInput)
      modifies this
      ensures After(exit, whole) && AsTold(turns) && Reached(exit) && !exit.Again?
      ensures exit.NextInput? ==> turns > old(turns)
      ensures turns >= old(turns) && sourceReads == old(sourceReads) + 1
    {
      hide Turns, Flat, Calls, EndDuring, AwaitsInput, AsTold, Ready, Reached;
      whole := true;
      exit := ReadInput();
      while exit == Again
        invariant After(exit, whole) && AsTold(turns) && Reached(exit) && (exit == Again ==> whole)
        invariant turns >= old(turns) && (exit == NextInput ==> turns > old(turns))
        invariant sourceReads == old(sourceReads) + 1
        decreases world.maxTurns - turns, exit == Again
      {
        exit, whole := TurnOrLimit();
      }
    }

    /** Read inputs and take turns until something ends the run; `exit` says what. */
    method Converse() returns (exit: Exit, ghost whole: bool)
      requires Valid(true) && Running() && AwaitsInput(world, calls, history) && AsTold(0)
      requires sourceReads == turns == metadataCalls == toolCalls == 0
      modifies this
      ensures After(exit, whole) && !exit.Again? && !exit.NextInput?
      ensures sourceReads <= turns + 1 && AsTold(turns) && EndsAfter(world, turns, Ending(exit).value)
    {
      hide Calls, Turns, Flat, AwaitsInput, AsTold, EndsAfter;
      whole := true;
      exit := NextInput;
      while exit == NextInput
        invariant After(exit, whole) && !exit.Again? && AsTold(turns) && Reached(exit)
        invariant sourceReads <= turns + (if exit == NextInput then 0 else 1)
        decreases world.maxTurns - turns, exit == NextInput
      {
        exit, whole := InputAndTurns();
      }
    }

    /** What ended the run becomes its status and error. */
    method Conclude(exit: Exit)
      requires !exit.Again? && !exit.NextInput? && Left(exit)
      modifies this`status, this`error
      ensures Some(End(status, error)) == old(Ending(exit)) && (status == Completed <==> error == None)
    {
      match exit {
        case Raised(reason) =>
          status := if reason.TimedOutBy? then TimedOut else Cancelled;
          error := Some(if reason.TimedOutBy? then TimeoutError else CancelledError);
        case Escaped => status, error := Failed, Some(ModelError);
        case _ =>
      }
    }

    /** Whatever aborted it, a run stopped before its first read is reported as cancelled. */
    method Refuse() returns (result: Result)
      requires Valid(true) && turns == toolCalls == outputs == 0 && finalOutput == None
      modifies this`status, this`error, this`trace
      ensures result == Result(Cancelled, 0, 0, 0, None, Some(CancelledError)) && RunTrace(trace, result, true)
      ensures trace == old(trace) + [RunFinished(Cancelled, 0, 0)]
    {
      status, error := Cancelled, Some(CancelledError);
      result := Finish(true);
    }

    /** A run that was not aborted at its start. */
    method RunThrough() returns (result: Result, ghost whole: bool)
      requires Valid(true) && Running() && AwaitsInput(world, calls, history) && AsTold(0)
      requires sourceReads == turns == metadataCalls == toolCalls == 0
      modifies this
      ensures EndsAfter(world, result.turns, End(result.status, result.error))
      ensures Bounded(result) && RunTrace(trace, result, whole) && ToldExactly(result, whole)
      ensures result.status == Completed <==> result.error == None
    {
      hide Calls, Turns, Flat, EndsAfter, AwaitsInput, RunTrace;
      var exit;
      exit, whole := Converse();
      Conclude(exit);
      FlatAsTold(world, segments);
      WholeExactly(world, segments, whole);
      hide AllTurnEvents;
      result := Finish(whole);
    }

    /** The trace and the counts of a finished run, and whether its last turn was told to its end. */
    ghost predicate ToldExactly(result: Result, whole: bool)
      reads this`trace
    {
      && trace == [RunStarted] + AllTurnEvents(world, result.turns)
                  + [RunFinished(result.status, result.turns, result.toolCalls)]
      && result.outputs == Deliveries(world, result.turns)
      && result.toolCalls == ToolRuns(world, result.turns)
      && result.finalOutput == LastDelivered(world, result.turns)
      && (whole <==> !EndsOpen(world, result.turns))
    }

    /** What bounds a finished run. */
    ghost predicate Bounded(result: Result)
      reads this`calls, this`sourceReads
    {
      && |calls| == result.turns <= world.maxTurns && sourceReads <= world.maxTurns + 1
      && result.outputs + result.toolCalls <= result.turns && Calls(world, calls)
    }

    /**
     * One run. It takes exactly the turns, and ends exactly with the status and error, that its world
     * prescribes; aborted at its start it is cancelled without a turn. It makes at most `maxTurns` model
     * calls and one more source read, and its trace is exactly what the world prescribes of those turns:
     * each finished once, but the last one not if an exception of the cost estimator leaves it open.
     */
    method Go() returns (result: Result, ghost whole: bool)
      requires world.maxTurns > 0
      requires turns == toolCalls == outputs == sourceReads == metadataCalls == 0 && Running() && finalOutput == None
      requires history == [] && trace == [] && calls == [] && segments == []
      modifies this
      ensures if world.abortedAtStart.Some? then
                result == Result(Cancelled, 0, 0, 0, None, Some(CancelledError)) && sourceReads == 0
              else EndsAfter(world, result.turns, End(result.status, result.error))
      ensures RunTrace(trace, result, whole) && ToldExactly(result, whole)
      ensures Bounded(result) && (result.status == Completed <==> result.error == None)
    {
      trace := [RunStarted];
      assert Valid(true) && AwaitsInput(world, calls, history) && AsTold(0);
      hide Calls, Turns, Flat, EndsAfter, AwaitsInput, RunTrace, AllTurnEvents;
      if world.abortedAtStart.Some? {
        result := Refuse();
        return result, true;
      }
      result, whole := RunThrough();
    }
  }
}
