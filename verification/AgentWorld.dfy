/**
 * What a run of packages/sdk/src/define-agent.ts must do against an arbitrary model, turn source, output,
 * tools, cost estimator and abort: its trace, what its model sees, and when and how it ends.
 */
module AgentWorld {
  import opened Base

  datatype Control = CancelledBy | TimedOutBy

  /** How an awaited call ends: it settles, throws, or is cut short by the abort signal. */
  datatype Outcome<T> = Returned(value: T) | Threw | Aborted(reason: Control)

  datatype Response = Say(content: string, terminal: bool) | CallTool(id: Option<string>, name: string)

  /** The k-th outcome of every call a run makes; `estimatorThrows` of the k-th metadata computation. */
  datatype World = World(
    maxTurns: nat,
    tools: set<string>,
    abortedAtStart: Option<Control>,
    source: nat -> Outcome<Option<string>>,
    model: nat -> Outcome<Response>,
    tool: nat -> Outcome<string>,
    output: nat -> Outcome<()>,
    estimatorThrows: nat -> bool)

  datatype ToolCallId = Given(id: string) | Generated(turn: nat, call: nat)

  datatype Message =
    | User(content: string)
    | Assistant(content: string)
    | Tool(id: ToolCallId, name: string, result: Option<string>, isError: bool)

  datatype Status = Completed | Failed | MaxTurns | Cancelled | TimedOut

  datatype ErrorCode = SourceError | ModelError | ToolError | OutputError | UndeclaredTool | MaxTurnsError
      | TimeoutError | CancelledError

  datatype TurnOutcome = SaidMessage | CalledTool | TurnError

  datatype ToolOutcome = ToolCompleted | ToolFailed | ToolRejected

  datatype Event =
    | RunStarted
    | TurnStarted(turn: nat)
    | ToolCalled(turn: nat, how: ToolOutcome)
    | TurnFinished(turn: nat, outcome: TurnOutcome)
    | RunFinished(status: Status, turns: nat, toolCalls: nat)

  datatype Result = Result(status: Status, turns: nat, toolCalls: nat, outputs: nat,
                           finalOutput: Option<string>, error: Option<ErrorCode>)

  // ---- The trace ----

  function Flat(segments: seq<seq<Event>>): seq<Event> {
    if segments == [] then [] else Flat(segments[..|segments| - 1]) + segments[|segments| - 1]
  }

  function Finishes(segment: seq<Event>): nat {
    if segment == [] then 0
    else Finishes(segment[..|segment| - 1]) + if segment[|segment| - 1].TurnFinished? then 1 else 0
  }

  predicate Within(e: Event, turn: nat) {
    (e.ToolCalled? && e.turn == turn) || (e.TurnFinished? && e.turn == turn)
  }

  /** The events of one turn: its start, then only its own tool calls and finishes. */
  predicate Segment(turn: nat, segment: seq<Event>) {
    segment != [] && segment[0] == TurnStarted(turn) && forall i | 0 < i < |segment| :: Within(segment[i], turn)
  }

  /** Turns numbered 1..n, every one finished exactly once; the last may be unfinished when `whole` is false. */
  predicate Turns(segments: seq<seq<Event>>, whole: bool) {
    forall i | 0 <= i < |segments| ::
      Segment(i + 1, segments[i]) && Finishes(segments[i]) == if whole || i < |segments| - 1 then 1 else 0
  }

  /** A run's whole trace. */
  ghost predicate RunTrace(trace: seq<Event>, result: Result, whole: bool) {
    exists segments ::
      && |segments| == result.turns && Turns(segments, whole)
      && trace == [RunStarted] + Flat(segments) + [RunFinished(result.status, result.turns, result.toolCalls)]
  }

  lemma FlatSnoc(segments: seq<seq<Event>>, segment: seq<Event>)
    ensures Flat(segments + [segment]) == Flat(segments) + segment
  {
    assert (segments + [segment])[..|segments|] == segments;
  }

  lemma StartedSegment(turn: nat)
    ensures Segment(turn, [TurnStarted(turn)]) && Finishes([TurnStarted(turn)]) == 0
  {
    assert [TurnStarted(turn)][..0] == [];
  }

  lemma EmitSegment(turn: nat, segment: seq<Event>, e: Event)
    requires Segment(turn, segment) && Within(e, turn)
    ensures Segment(turn, segment + [e])
    ensures Finishes(segment + [e]) == Finishes(segment) + if e.TurnFinished? then 1 else 0
  {
    assert (segment + [e])[..|segment|] == segment;
  }

  /** A turn that has just started. */
  lemma TurnsStart(segments: seq<seq<Event>>)
    requires Turns(segments, true)
    ensures Turns(segments + [[TurnStarted(|segments| + 1)]], false)
    ensures Flat(segments + [[TurnStarted(|segments| + 1)]]) == Flat(segments) + [TurnStarted(|segments| + 1)]
  {
    StartedSegment(|segments| + 1);
    FlatSnoc(segments, [TurnStarted(|segments| + 1)]);
    hide Segment, Finishes, Flat;
  }

  /** One more event in the last turn. */
  lemma TurnsEmit(segments: seq<seq<Event>>, e: Event, whole: bool)
    requires segments != [] && Turns(segments, whole) && Within(e, |segments|) && (e.TurnFinished? ==> !whole)
    ensures var n := |segments| - 1; Turns(segments[n := segments[n] + [e]], whole || e.TurnFinished?)
  {
    EmitSegment(|segments|, segments[|segments| - 1], e);
    hide Segment, Finishes, Within;
  }

  lemma FlatEmit(segments: seq<seq<Event>>, e: Event)
    requires segments != []
    ensures var n := |segments| - 1; Flat(segments[n := segments[n] + [e]]) == Flat(segments) + [e]
  {
    var n := |segments| - 1;
    var front, last := segments[..n], segments[n];
    assert segments[n := last + [e]] == front + [last + [e]] && segments == front + [last];
    FlatSnoc(front, last);
    FlatSnoc(front, last + [e]);
    hide Flat;
    assert Flat(front) + (last + [e]) == (Flat(front) + last) + [e];
  }

  /** The events of a failing tool, the estimator being called for the m-th and, if it does not throw, the next time. */
  function FailEvents(w: World, turn: nat, m: nat): seq<Event> {
    if w.estimatorThrows(m) then []
    else if w.estimatorThrows(m + 1) then [ToolCalled(turn, ToolFailed)]
    else [ToolCalled(turn, ToolFailed), TurnFinished(turn, TurnError)]
  }

  /** What is told of a completed tool until the estimator throws. */
  function TriedEvents(w: World, turn: nat, m: nat): seq<Event> {
    if w.estimatorThrows(m) then []
    else if w.estimatorThrows(m + 1) then [ToolCalled(turn, ToolCompleted)]
    else [ToolCalled(turn, ToolCompleted), TurnFinished(turn, CalledTool)]
  }

  /** A completed tool; an exception of the estimator makes it a failing one. */
  function ReportEvents(w: World, turn: nat, m: nat): seq<Event> {
    if !FailThrows(w, m) then TriedEvents(w, turn, m)
    else TriedEvents(w, turn, m) + FailEvents(w, turn, m + if w.estimatorThrows(m) then 1 else 2)
  }

  function RejectEvents(w: World, turn: nat, m: nat): seq<Event> {
    if w.estimatorThrows(m) then []
    else if w.estimatorThrows(m + 1) then [TurnFinished(turn, CalledTool)]
    else [TurnFinished(turn, CalledTool), ToolCalled(turn, ToolRejected)]
  }

  /** What is told of turn k + 1 after its start, the estimator having been called m times before. */
  function AnswerEvents(w: World, k: nat, m: nat): seq<Event> {
    match w.model(k)
    case Returned(Say(_, _)) => if w.estimatorThrows(m) then [] else [TurnFinished(k + 1, SaidMessage)]
    case Returned(CallTool(_, name)) =>
      if name !in w.tools then RejectEvents(w, k + 1, m)
      else if w.tool(k).Returned? then ReportEvents(w, k + 1, m)
      else FailEvents(w, k + 1, m)
    case _ => if w.estimatorThrows(m) then [] else [TurnFinished(k + 1, TurnError)]
  }

  function TurnEvents(w: World, k: nat): seq<Event> {
    [TurnStarted(k + 1)] + AnswerEvents(w, k, Metas(w, k))
  }

  function AllTurnEvents(w: World, turns: nat): seq<Event> {
    if turns == 0 then [] else AllTurnEvents(w, turns - 1) + TurnEvents(w, turns - 1)
  }

  /** An exception of the estimator comes before the output. */
  predicate Delivers(w: World, k: nat) {
    Says(w, k) && !w.estimatorThrows(Metas(w, k)) && w.output(k).Returned?
  }

  predicate RunsTool(w: World, k: nat) {
    w.model(k).Returned? && w.model(k).value.CallTool? && w.model(k).value.name in w.tools
  }

  predicate Undeclared(w: World, k: nat) {
    w.model(k).Returned? && w.model(k).value.CallTool? && w.model(k).value.name !in w.tools
  }

  /** Messages delivered in the first turns. */
  function Deliveries(w: World, turns: nat): nat {
    if turns == 0 then 0 else Deliveries(w, turns - 1) + if Delivers(w, turns - 1) then 1 else 0
  }

  function ToolRuns(w: World, turns: nat): nat {
    if turns == 0 then 0 else ToolRuns(w, turns - 1) + if RunsTool(w, turns - 1) then 1 else 0
  }

  lemma {:induction false} FlatAsTold(w: World, segments: seq<seq<Event>>)
    requires forall k | 0 <= k < |segments| :: segments[k] == TurnEvents(w, k)
    ensures Flat(segments) == AllTurnEvents(w, |segments|)
  {
    hide TurnEvents;
    if segments != [] {
      FlatAsTold(w, segments[..|segments| - 1]);
    }
  }

  function LastDelivered(w: World, turns: nat): Option<string> {
    if turns == 0 then None
    else if Delivers(w, turns - 1) then Some(w.model(turns - 1).value.content)
    else LastDelivered(w, turns - 1)
  }

  // ---- When and how a run ends ----

  datatype End = End(status: Status, error: Option<ErrorCode>)

  /** An exception of the cost estimator that no catch of a call contains. */
  const ESCAPED := End(Failed, Some(ModelError))

  function ControlEnd(reason: Control): End {
    if reason.TimedOutBy? then End(TimedOut, Some(TimeoutError)) else End(Cancelled, Some(CancelledError))
  }

  /** Which message a model call answered with. */
  predicate Says(w: World, k: nat) {
    w.model(k).Returned? && w.model(k).value.Say?
  }

  /** Messages among the first turns; as many inputs were read before turn k + 1 asks for one. */
  function Said(w: World, turns: nat): nat {
    if turns == 0 then 0 else Said(w, turns - 1) + if Says(w, turns - 1) then 1 else 0
  }

  /** Cost estimates made by the first turns, while every turn goes on: one for a message, two for a tool. */
  function Metas(w: World, turns: nat): nat {
    if turns == 0 then 0 else Metas(w, turns - 1) + if Says(w, turns - 1) then 1 else 2
  }

  predicate NeedsInput(w: World, turns: nat) {
    turns == 0 || Says(w, turns - 1)
  }

  predicate InputRead(w: World, turns: nat) {
    NeedsInput(w, turns) ==> w.source(Said(w, turns)).Returned? && w.source(Said(w, turns)).value.Some?
  }

  /** How a run ends when it has taken `turns` turns and is about to take another, if it does. */
  function EndBefore(w: World, turns: nat): Option<End> {
    if !InputRead(w, turns) then
      match w.source(Said(w, turns))
      case Aborted(reason) => Some(ControlEnd(reason))
      case Threw => Some(End(Failed, Some(SourceError)))
      case Returned(_) => Some(End(Completed, None))
    else if turns >= w.maxTurns then Some(End(MaxTurns, Some(MaxTurnsError)))
    else None
  }

  /** How a failing tool ends the run, the estimator being called for the m-th and the next time. */
  function ToolEnd(w: World, m: nat, control: Option<Control>): End {
    if w.estimatorThrows(m) || w.estimatorThrows(m + 1) then ESCAPED
    else if control.Some? then ControlEnd(control.value)
    else End(Failed, Some(ToolError))
  }

  /** How turn k + 1 ends the run, if it does, the estimator having been called m times before. */
  function EndDuring(w: World, k: nat, m: nat): Option<End> {
    match w.model(k)
    case Threw => Some(End(Failed, Some(ModelError)))
    case Aborted(reason) => Some(if w.estimatorThrows(m) then ESCAPED else ControlEnd(reason))
    case Returned(Say(_, terminal)) =>
      if w.estimatorThrows(m) then Some(ESCAPED)
      else (match w.output(k)
            case Aborted(reason) => Some(ControlEnd(reason))
            case Threw => Some(End(Failed, Some(OutputError)))
            case Returned(_) => if terminal then Some(End(Completed, None)) else None)
    case Returned(CallTool(_, name)) =>
      if name !in w.tools then
        Some(if w.estimatorThrows(m) || w.estimatorThrows(m + 1) then ESCAPED else End(Failed, Some(UndeclaredTool)))
      else (match w.tool(k)
            case Threw => Some(ToolEnd(w, m, None))
            case Aborted(reason) => Some(ToolEnd(w, m, Some(reason)))
            case Returned(_) =>
              if w.estimatorThrows(m) then Some(ToolEnd(w, m + 1, None))
              else if w.estimatorThrows(m + 1) then Some(ToolEnd(w, m + 2, None))
              else None)
  }

  /** Turn k + 1 is taken and something follows it. */
  predicate GoesOn(w: World, k: nat) {
    EndBefore(w, k).None? && EndDuring(w, k, Metas(w, k)).None?
  }

  predicate AllGoOn(w: World, turns: nat) {
    forall k: nat | k < turns :: GoesOn(w, k)
  }

  /** The run that is not aborted at its start takes exactly `turns` turns and ends so. */
  predicate EndsAfter(w: World, turns: nat, end: End) {
    || (AllGoOn(w, turns) && EndBefore(w, turns) == Some(end))
    || (turns > 0 && AllGoOn(w, turns - 1) && EndBefore(w, turns - 1).None?
        && EndDuring(w, turns - 1, Metas(w, turns - 1)) == Some(end))
  }

  lemma NoEarlierEnd(w: World, turns: nat, end: End, others: nat, other: End)
    requires EndsAfter(w, turns, end) && turns < others
    ensures !EndsAfter(w, others, other)
  {
    hide EndBefore, EndDuring, Metas;
    assert AllGoOn(w, others) ==> GoesOn(w, turns);
    assert AllGoOn(w, others - 1) && turns < others - 1 ==> GoesOn(w, turns);
    if turns > 0 {
      var last: nat := turns - 1;
      assert AllGoOn(w, others - 1) ==> GoesOn(w, last);
    }
  }

  lemma OneEndThere(w: World, turns: nat, end: End, other: End)
    requires EndsAfter(w, turns, end) && EndsAfter(w, turns, other)
    ensures end == other
  {
    hide EndBefore, EndDuring, Metas;
    if turns > 0 {
      var last: nat := turns - 1;
      assert AllGoOn(w, turns) ==> GoesOn(w, last);
    }
  }

  /** There is only one way to end. */
  lemma EndsOnce(w: World, turns: nat, end: End, others: nat, other: End)
    requires EndsAfter(w, turns, end) && EndsAfter(w, others, other)
    ensures turns == others && end == other
  {
    hide EndsAfter;
    if turns < others {
      NoEarlierEnd(w, turns, end, others, other);
      assert false;
    } else if others < turns {
      NoEarlierEnd(w, others, other, turns, end);
      assert false;
    } else {
      OneEndThere(w, turns, end, other);
    }
  }

  /** The last call the run waited for was cut short for this reason, and no exception of the estimator hid it. */
  predicate CutShort(w: World, turns: nat, reason: Control) {
    var k := if turns > 0 then turns - 1 else 0;
    var m := Metas(w, k);
    || (AllGoOn(w, turns) && NeedsInput(w, turns) && w.source(Said(w, turns)) == Aborted(reason))
    || (turns > 0 && AllGoOn(w, k) && EndBefore(w, k).None? && !w.estimatorThrows(m)
        && (|| w.model(k) == Aborted(reason)
            || (Says(w, k) && w.output(k) == Aborted(reason))
            || (RunsTool(w, k) && w.tool(k) == Aborted(reason) && !w.estimatorThrows(m + 1))))
  }

  /** The source said there is no more input, or a terminal message was delivered. */
  predicate RanOut(w: World, turns: nat) {
    || (AllGoOn(w, turns) && NeedsInput(w, turns) && w.source(Said(w, turns)) == Returned(None))
    || (turns > 0 && AllGoOn(w, turns - 1) && EndBefore(w, turns - 1).None?
        && Delivers(w, turns - 1) && w.model(turns - 1).value.terminal)
  }

  /** What each status says of the run, exactly. */
  lemma StatusSays(w: World, turns: nat, end: End)
    requires EndsAfter(w, turns, end)
    ensures end.status == TimedOut <==> CutShort(w, turns, TimedOutBy)
    ensures end.status == Cancelled <==> CutShort(w, turns, CancelledBy)
    ensures end.status == Completed <==> RanOut(w, turns)
    ensures end.status == MaxTurns <==> AllGoOn(w, turns) && InputRead(w, turns) && turns >= w.maxTurns
    ensures end.status == Completed <==> end.error == None
  {
    hide Metas, Said;
    assert AllGoOn(w, turns) && turns > 0 ==> GoesOn(w, turns - 1);
  }

  // ---- Exceptions of the cost estimator ----

  predicate FailThrows(w: World, m: nat) {
    w.estimatorThrows(m) || w.estimatorThrows(m + 1)
  }

  /** While a completed tool is told, and again in the tool's catch. */
  predicate ReportThrows(w: World, m: nat) {
    if w.estimatorThrows(m) then FailThrows(w, m + 1) else w.estimatorThrows(m + 1) && FailThrows(w, m + 2)
  }

  /** Turn k + 1 is left without its end, the estimator having been called m times before. */
  predicate LeavesOpen(w: World, k: nat, m: nat) {
    match w.model(k)
    case Returned(CallTool(_, name)) =>
      if name !in w.tools then w.estimatorThrows(m)
      else if !w.tool(k).Returned? then FailThrows(w, m)
      else ReportThrows(w, m)
    case _ => w.estimatorThrows(m)
  }

  /** The last of the run's turns is left without its end. */
  predicate EndsOpen(w: World, turns: nat) {
    turns > 0 && LeavesOpen(w, turns - 1, Metas(w, turns - 1))
  }

  lemma FinishesSnoc(segment: seq<Event>, e: Event)
    ensures Finishes(segment + [e]) == Finishes(segment) + if e.TurnFinished? then 1 else 0
  {
    assert (segment + [e])[..|segment|] == segment;
  }

  lemma FinishesPair(front: seq<Event>, a: Event, b: Event)
    ensures Finishes(front + [a, b]) ==
            Finishes(front) + (if a.TurnFinished? then 1 else 0) + if b.TurnFinished? then 1 else 0
  {
    assert front + [a, b] == front + [a] + [b];
    FinishesSnoc(front, a);
    FinishesSnoc(front + [a], b);
  }

  lemma FailFinishes(w: World, front: seq<Event>, turn: nat, m: nat)
    ensures Finishes(front + FailEvents(w, turn, m)) == Finishes(front) + if FailThrows(w, m) then 0 else 1
  {
    assert front + [] == front;
    FinishesSnoc(front, ToolCalled(turn, ToolFailed));
    FinishesPair(front, ToolCalled(turn, ToolFailed), TurnFinished(turn, TurnError));
    hide Finishes;
  }

  lemma ReportFinishes(w: World, front: seq<Event>, turn: nat, m: nat)
    ensures Finishes(front + ReportEvents(w, turn, m)) == Finishes(front) +
              if ReportThrows(w, m) then 0 else 1
  {
    var completed := ToolCalled(turn, ToolCompleted);
    FailFinishes(w, front, turn, m + 1);
    FinishesSnoc(front, completed);
    FailFinishes(w, front + [completed], turn, m + 2);
    FinishesPair(front, completed, TurnFinished(turn, CalledTool));
    hide Finishes, FailEvents;
    assert front + ([] + FailEvents(w, turn, m + 1)) == front + FailEvents(w, turn, m + 1);
    assert front + ([completed] + FailEvents(w, turn, m + 2)) == front + [completed] + FailEvents(w, turn, m + 2);
  }

  lemma RejectFinishes(w: World, front: seq<Event>, turn: nat, m: nat)
    ensures Finishes(front + RejectEvents(w, turn, m)) == Finishes(front) + if w.estimatorThrows(m) then 0 else 1
  {
    var finished := TurnFinished(turn, CalledTool);
    FinishesSnoc(front, finished);
    FinishesPair(front, finished, ToolCalled(turn, ToolRejected));
    hide Finishes;
    assert front + [] == front;
  }

  /** A turn is told to its end exactly when the estimator does not leave it open. */
  lemma OpenExactly(w: World, k: nat)
    ensures Finishes(TurnEvents(w, k)) == if LeavesOpen(w, k, Metas(w, k)) then 0 else 1
  {
    var m, front := Metas(w, k), [TurnStarted(k + 1)];
    StartedSegment(k + 1);
    FailFinishes(w, front, k + 1, m);
    ReportFinishes(w, front, k + 1, m);
    RejectFinishes(w, front, k + 1, m);
    FinishesSnoc(front, TurnFinished(k + 1, SaidMessage));
    FinishesSnoc(front, TurnFinished(k + 1, TurnError));
    hide Finishes, FailEvents, ReportEvents, RejectEvents, FailThrows, ReportThrows, Metas;
    assert front + [] == front;
  }

  /** The run gets as far as its last turn. */
  predicate Takes(w: World, turns: nat) {
    turns > 0 && AllGoOn(w, turns - 1) && EndBefore(w, turns - 1).None?
  }

  /**
   * How an exception of the estimator is reported: as a model error if it leaves the turn open, or comes when a
   * rejected tool is told; as a tool error if the catch of a completed tool contains it.
   */
  lemma ErrorSays(w: World, turns: nat, end: End)
    requires EndsAfter(w, turns, end)
    ensures end.error == Some(ModelError) <==>
              && Takes(w, turns)
              && var k, m := turns - 1, Metas(w, turns - 1);
              || w.model(k) == Threw || LeavesOpen(w, k, m)
              || (Undeclared(w, k) && w.estimatorThrows(m + 1))
    ensures end.error == Some(ToolError) <==>
              && Takes(w, turns)
              && var k, m := turns - 1, Metas(w, turns - 1);
              && RunsTool(w, k)
              && ((w.tool(k) == Threw && !FailThrows(w, m))
                  || (w.tool(k).Returned? && FailThrows(w, m) && !ReportThrows(w, m)))
    ensures EndsOpen(w, turns) ==> end == ESCAPED
  {
    hide Metas, Said;
    assert AllGoOn(w, turns) && turns > 0 ==> GoesOn(w, turns - 1);
  }

  /** One exception, of the first estimate: a message's turn is left open, a completed tool's is told to its end. */
  lemma OneException(w: World)
    requires w.maxTurns > 0 && w.source(0).Returned? && w.source(0).value.Some?
    requires forall m: nat :: w.estimatorThrows(m) <==> m == 0
    ensures Says(w, 0) ==> EndsAfter(w, 1, ESCAPED) && EndsOpen(w, 1)
    ensures RunsTool(w, 0) && w.tool(0).Returned? ==>
              EndsAfter(w, 1, End(Failed, Some(ToolError))) && !EndsOpen(w, 1)
  {
    assert Metas(w, 0) == 0 && Said(w, 0) == 0;
    assert EndBefore(w, 0).None? && AllGoOn(w, 0);
  }

  /** A world whose model always answers the same, whose one tool completes, and whose estimator throws once. */
  function OneThrow(answer: Response): World {
    World(1, {"tool"}, None, (r: nat) => Returned(Some("")), (k: nat) => Returned(answer), (k: nat) => Returned(""),
          (k: nat) => Returned(()), (m: nat) => m == 0)
  }

  lemma EstimatorWitness()
    ensures var w := OneThrow(Say("", true)); EndsAfter(w, 1, ESCAPED) && EndsOpen(w, 1)
    ensures var w := OneThrow(CallTool(None, "tool")); EndsAfter(w, 1, End(Failed, Some(ToolError))) && !EndsOpen(w, 1)
  {
    OneException(OneThrow(Say("", true)));
    OneException(OneThrow(CallTool(None, "tool")));
    hide EndsAfter, EndsOpen;
  }

  // ---- What each event and each error stands for ----

  /** Which turns are told to have ended how. */
  lemma FinishesSay(w: World, k: nat)
    ensures var m, events, turn := Metas(w, k), TurnEvents(w, k), k + 1;
      && (TurnFinished(turn, SaidMessage) in events <==> Says(w, k) && !w.estimatorThrows(m))
      && (TurnFinished(turn, CalledTool) in events <==>
            || (Undeclared(w, k) && !w.estimatorThrows(m))
            || (RunsTool(w, k) && w.tool(k).Returned? && !FailThrows(w, m)))
      && (TurnFinished(turn, TurnError) in events <==>
            || (!w.model(k).Returned? && !w.estimatorThrows(m))
            || (RunsTool(w, k) && !w.tool(k).Returned? && !FailThrows(w, m))
            || (RunsTool(w, k) && w.tool(k).Returned? && FailThrows(w, m) && !ReportThrows(w, m)))
  {
    hide Metas;
  }

  /** Which tool calls are told, and how. */
  lemma ToolsSay(w: World, k: nat)
    ensures var m, events, turn := Metas(w, k), TurnEvents(w, k), k + 1;
      && (ToolCalled(turn, ToolCompleted) in events <==>
            RunsTool(w, k) && w.tool(k).Returned? && !w.estimatorThrows(m))
      && (ToolCalled(turn, ToolRejected) in events <==> Undeclared(w, k) && !FailThrows(w, m))
      && (ToolCalled(turn, ToolFailed) in events <==>
            || (RunsTool(w, k) && !w.tool(k).Returned? && !w.estimatorThrows(m))
            || (RunsTool(w, k) && w.tool(k).Returned? && FailThrows(w, m)
                && !w.estimatorThrows(m + if w.estimatorThrows(m) then 1 else 2)))
  {
    hide Metas;
  }

  /** The errors between turns: a failed source, and the limit. */
  lemma SourceErrorsSay(w: World, turns: nat, end: End)
    requires EndsAfter(w, turns, end)
    ensures end.error == Some(SourceError) <==>
              AllGoOn(w, turns) && NeedsInput(w, turns) && w.source(Said(w, turns)) == Threw
    ensures end.error == Some(MaxTurnsError) <==> AllGoOn(w, turns) && InputRead(w, turns) && turns >= w.maxTurns
  {
    hide Metas, Said;
    assert AllGoOn(w, turns) && turns > 0 ==> GoesOn(w, turns - 1);
  }

  /** The other errors of a turn: a failed output, and a tool that was not declared. */
  lemma TurnErrorsSay(w: World, turns: nat, end: End)
    requires EndsAfter(w, turns, end)
    ensures end.error == Some(OutputError) <==>
              && Takes(w, turns) && Says(w, turns - 1) && w.output(turns - 1) == Threw
              && !w.estimatorThrows(Metas(w, turns - 1))
    ensures end.error == Some(UndeclaredTool) <==>
              Takes(w, turns) && Undeclared(w, turns - 1) && !FailThrows(w, Metas(w, turns - 1))
  {
    hide Metas, Said;
    assert AllGoOn(w, turns) && turns > 0 ==> GoesOn(w, turns - 1);
  }

  /** A run cut short says so by status and error alike. */
  lemma ControlErrorsSay(w: World, turns: nat, end: End)
    requires EndsAfter(w, turns, end)
    ensures end.error == Some(TimeoutError) <==> end.status == TimedOut
    ensures end.error == Some(CancelledError) <==> end.status == Cancelled
  {
    hide Metas, Said, AllGoOn;
  }

  /** Outputs and tool calls are as many as the turns that deliver a message or run a tool. */
  lemma {:induction false} CountsAre(w: World, turns: nat)
    ensures Deliveries(w, turns) == |set k | 0 <= k < turns && Delivers(w, k)|
    ensures ToolRuns(w, turns) == |set k | 0 <= k < turns && RunsTool(w, k)|
  {
    hide Delivers, RunsTool;
    if turns > 0 {
      var n := turns - 1;
      CountsAre(w, n);
      assert (set k | 0 <= k < turns && Delivers(w, k)) ==
             (set k | 0 <= k < n && Delivers(w, k)) + if Delivers(w, n) then {n} else {};
      assert (set k | 0 <= k < turns && RunsTool(w, k)) ==
             (set k | 0 <= k < n && RunsTool(w, k)) + if RunsTool(w, n) then {n} else {};
    }
  }

  /** The final output is that of the last turn that delivers one. */
  lemma {:induction false} LastDeliveredIs(w: World, turns: nat, k: nat)
    requires k < turns && Delivers(w, k) && forall j | k < j < turns :: !Delivers(w, j)
    ensures LastDelivered(w, turns) == Some(w.model(k).value.content)
  {
    hide Delivers;
    if k < turns - 1 {
      assert !Delivers(w, turns - 1);
      LastDeliveredIs(w, turns - 1, k);
    }
  }

  lemma {:induction false} NoneDelivered(w: World, turns: nat)
    requires forall j | 0 <= j < turns :: !Delivers(w, j)
    ensures LastDelivered(w, turns) == None
  {
    hide Delivers;
    if turns > 0 {
      assert !Delivers(w, turns - 1);
      NoneDelivered(w, turns - 1);
    }
  }

  // ---- What the model sees ----

  /** The r-th input read, from zero. */
  function Input(w: World, r: nat): string {
    if w.source(r).Returned? && w.source(r).value.Some? then w.source(r).value.value else ""
  }

  /** The history shown to model call k + 1, from the one shown to call k: an answer and new input, or one tool
      result. */
  ghost predicate Follows(w: World, k: nat, before: seq<Message>, after: seq<Message>) {
    || (Says(w, k) && after == before + [Assistant(w.model(k).value.content), User(Input(w, Said(w, k + 1)))])
    || (RunsTool(w, k) && w.tool(k).Returned?
        && |after| == |before| + 1 && before <= after
        && var t := after[|before|];
        && t.Tool? && t.name == w.model(k).value.name && t.result == Some(w.tool(k).value) && !t.isError
        && t.id == (if w.model(k).value.id.Some? then Given(w.model(k).value.id.value)
                    else Generated(k + 1, ToolRuns(w, k) + 1)))
  }

  ghost predicate Calls(w: World, calls: seq<seq<Message>>) {
    && (calls != [] ==> calls[0] == [User(Input(w, 0))])
    && forall k | 0 <= k < |calls| - 1 :: Follows(w, k, calls[k], calls[k + 1])
  }

  /** Between a message and the next input. */
  ghost predicate AwaitsInput(w: World, calls: seq<seq<Message>>, history: seq<Message>) {
    if calls == [] then history == []
    else
      var answer := w.model(|calls| - 1);
      answer.Returned? && answer.value.Say? && history == calls[|calls| - 1] + [Assistant(answer.value.content)]
  }

  lemma CallsSnoc(w: World, calls: seq<seq<Message>>, history: seq<Message>)
    requires Calls(w, calls) && calls != [] && Follows(w, |calls| - 1, calls[|calls| - 1], history)
    ensures Calls(w, calls + [history])
  {
  }

  lemma InputArrives(w: World, calls: seq<seq<Message>>, history: seq<Message>)
    requires Calls(w, calls) && AwaitsInput(w, calls, history)
    ensures Calls(w, calls + [history + [User(Input(w, Said(w, |calls|)))]])
  {
    var content := Input(w, Said(w, |calls|));
    var next := history + [User(content)];
    if calls == [] {
      assert next == [User(content)];
    } else {
      var said := w.model(|calls| - 1).value.content;
      assert next == calls[|calls| - 1] + [Assistant(said), User(content)];
      CallsSnoc(w, calls, next);
    }
  }

  /** The user's texts in a history, and the agent's. */
  function UserTexts(history: seq<Message>): seq<string> {
    if history == [] then []
    else
      var before, last := UserTexts(history[..|history| - 1]), history[|history| - 1];
      if last.User? then before + [last.content] else before
  }

  function AgentTexts(history: seq<Message>): seq<string> {
    if history == [] then []
    else
      var before, last := AgentTexts(history[..|history| - 1]), history[|history| - 1];
      if last.Assistant? then before + [last.content] else before
  }

  lemma TextsSnoc(history: seq<Message>, m: Message)
    ensures UserTexts(history + [m]) == if m.User? then UserTexts(history) + [m.content] else UserTexts(history)
    ensures AgentTexts(history + [m]) == if m.Assistant? then AgentTexts(history) + [m.content] else AgentTexts(history)
  {
    assert (history + [m])[..|history|] == history;
  }

  /** What the source has handed over, and what the model has said, up to a call. */
  function InputsRead(w: World, n: nat): seq<string> {
    if n == 0 then [] else InputsRead(w, n - 1) + [Input(w, n - 1)]
  }

  lemma {:induction false} InputsAre(w: World, n: nat)
    ensures |InputsRead(w, n)| == n
    ensures forall r, text | 0 <= r < n && w.source(r) == Returned(Some(text)) :: InputsRead(w, n)[r] == text
  {
    if n > 0 {
      InputsAre(w, n - 1);
    }
  }

  function AnswersGiven(w: World, k: nat): seq<string> {
    if k == 0 then []
    else AnswersGiven(w, k - 1) + if Says(w, k - 1) then [w.model(k - 1).value.content] else []
  }

  /** Every model call sees all inputs read so far and all it has said, in order, and ends with what is new. */
  lemma {:induction false} ModelSees(w: World, calls: seq<seq<Message>>, k: nat)
    requires Calls(w, calls) && k < |calls|
    ensures UserTexts(calls[k]) == InputsRead(w, Said(w, k) + 1) && AgentTexts(calls[k]) == AnswersGiven(w, k)
    ensures |UserTexts(calls[k])| == Said(w, k) + 1
    ensures forall r, text | 0 <= r <= Said(w, k) && w.source(r) == Returned(Some(text)) :: UserTexts(calls[k])[r] == text
    ensures calls[k] != [] && (calls[k][|calls[k]| - 1].User? <==> NeedsInput(w, k))
  {
    InputsAre(w, Said(w, k) + 1);
    hide UserTexts, AgentTexts, Input;
    if k == 0 {
      FirstSees(w, calls[0]);
    } else {
      ModelSees(w, calls, k - 1);
      assert Follows(w, k - 1, calls[k - 1], calls[k - 1 + 1]);
      hide Calls, Follows;
      FollowerTexts(w, k - 1, calls[k - 1], calls[k]);
    }
  }

  lemma FirstSees(w: World, history: seq<Message>)
    requires history == [User(Input(w, 0))]
    ensures UserTexts(history) == InputsRead(w, 1) && AgentTexts(history) == []
  {
    assert history == [] + [User(Input(w, 0))];
    TextsSnoc([], User(Input(w, 0)));
    assert InputsRead(w, 0) == [];
  }

  lemma FollowerTexts(w: World, k: nat, before: seq<Message>, after: seq<Message>)
    requires Follows(w, k, before, after)
    ensures after != [] && (after[|after| - 1].User? <==> Says(w, k))
    ensures UserTexts(after) == UserTexts(before) + if Says(w, k) then [Input(w, Said(w, k + 1))] else []
    ensures AgentTexts(after) == AgentTexts(before) + if Says(w, k) then [w.model(k).value.content] else []
  {
    hide Said;
    if w.model(k).value.Say? {
      var said, next := Assistant(w.model(k).value.content), User(Input(w, Said(w, k + 1)));
      assert after == (before + [said]) + [next];
      TextsSnoc(before, said);
      TextsSnoc(before + [said], next);
    } else {
      assert after == before + [after[|before|]];
      TextsSnoc(before, after[|before|]);
    }
  }

  /** The voice loop's model sends the latest message to the provider when it is a tool result. */
  function Sent(calls: seq<seq<Message>>): seq<Message> {
    if calls == [] then []
    else
      var before, last := Sent(calls[..|calls| - 1]), calls[|calls| - 1];
      if last != [] && last[|last| - 1].Tool? then before + [last[|last| - 1]] else before
  }

  function ToolResults(history: seq<Message>): seq<Message> {
    if history == [] then []
    else
      var before, last := ToolResults(history[..|history| - 1]), history[|history| - 1];
      if last.Tool? then before + [last] else before
  }

  lemma ToolResultsSnoc(history: seq<Message>, m: Message)
    ensures ToolResults(history + [m]) == if m.Tool? then ToolResults(history) + [m] else ToolResults(history)
  {
    assert (history + [m])[..|history|] == history;
  }

  lemma FollowerResults(w: World, k: nat, before: seq<Message>, after: seq<Message>)
    requires Follows(w, k, before, after)
    ensures after != []
    ensures var last := after[|after| - 1];
      ToolResults(after) == if last.Tool? then ToolResults(before) + [last] else ToolResults(before)
    ensures var last := after[|after| - 1];
      last.Tool? ==>
        var given := w.model(k).value.id;
        last.id == if given.Some? then Given(given.value)
                   else Generated(k + 1, |set j | 0 <= j < k && RunsTool(w, j)| + 1)
  {
    CountsAre(w, k);
    if w.model(k).value.Say? {
      var said, next := w.model(k).value.content, Input(w, Said(w, k + 1));
      assert after == (before + [Assistant(said)]) + [User(next)];
      ToolResultsSnoc(before, Assistant(said));
      ToolResultsSnoc(before + [Assistant(said)], User(next));
    } else {
      assert after == before + [after[|before|]];
      ToolResultsSnoc(before, after[|before|]);
    }
  }

  /** Every tool result that is followed by a model call is sent exactly once, in order, under its own call id. */
  lemma {:induction false} ResultsSentOnce(w: World, calls: seq<seq<Message>>)
    requires Calls(w, calls)
    ensures Sent(calls) == if calls == [] then [] else ToolResults(calls[|calls| - 1])
  {
    if calls != [] {
      var n := |calls| - 1;
      assert Calls(w, calls[..n]) by {
        assert forall k | 0 <= k < n - 1 :: Follows(w, k, calls[k], calls[k + 1]);
      }
      ResultsSentOnce(w, calls[..n]);
      if n == 0 {
        ToolResultsSnoc([], User(Input(w, 0)));
        assert [] + [User(Input(w, 0))] == calls[0];
      } else {
        hide ToolResults, Calls;
        FollowerResults(w, n - 1, calls[n - 1], calls[n]);
      }
    }
  }
}
