/**
 * Which calls of the debrief service are accepted, and what each leaves of the session and the facts, said of
 * the states and texts themselves.
 */
module DebriefCalls {
  import opened Base
  import opened DebriefSession
  import opened DebriefRuns
  import opened DebriefHistory

  // ---- Texts ----

  predicate Blank(s: string) {
    forall i | 0 <= i < |s| :: IsSpace(s[i])
  }

  /** Nothing is left of a text exactly if it is blank. */
  lemma BlankExactly(s: string)
    ensures Trim(s) == "" <==> Blank(s)
  {
    var front, back := TrimCuts(s);
    hide Trim;
    if Trim(s) == "" {
      assert s == front + back;
    } else {
      assert s[|front|] == Trim(s)[0];
    }
  }

  // ---- What is accepted ----

  /** The call begins by looking its session up in memory. */
  predicate LooksUp(call: Call) {
    !call.Prepare? && !call.PrepareAnonymous? && !call.HydrateSession? && !call.ClearSessions?
  }

  /** Whether the call passes, by the state of its session and its own arguments. */
  predicate Accepts(s: Service, call: Call) {
    match call
    case Prepare(_, goal, plan, _) => !Blank(goal) && plan.Some?
    case PrepareAnonymous(_, goal, plan) => !Blank(goal) && plan.Some?
    case HydrateSession(id) => id in s.sessions || (s.store.Some? && id in s.store.value.sessions)
    case ClearSessions => true
    case _ => call.sessionId in s.sessions && AcceptsIn(s.sessions[call.sessionId].state, s.store.Some?, call)
  }

  predicate AcceptsIn(state: State, stored: bool, call: Call) {
    match call
    case MarkCalling(_) => state in {Prepared, Calling}
    case AwaitConfirmation(_) => state in {Calling, AwaitingConfirmation}
    case MarkPartial(_) => state in {AwaitingConfirmation, Partial}
    case ConfirmDebrief(_) => state in {AwaitingConfirmation, Partial, Confirmed}
    case TeachFromCorrection(_, _, memory) => state in {AwaitingConfirmation, Partial} && memory.Some?
    case GetDebriefForConfirmation(_) => state in {AwaitingConfirmation, Partial, Confirmed} && stored
    case ConfirmDebriefDraft(_) => state in {AwaitingConfirmation, Partial, Confirmed} && stored
    case UpdateDebriefDraft(_, update) =>
      && state in {Calling, AwaitingConfirmation, Partial} && stored
      && exists key :: key in update && update[key].Text? && !Blank(update[key].text)
    case SaveDraft(_, _, _) => stored
    case RecordCallCompleted(_, _, _, _, _) => stored
    case _ => true
  }

  lemma FilledExactly(update: Fields, key: string)
    ensures key in Filled(update) <==> key in update && update[key].Text? && !Blank(update[key].text)
    ensures key in Filled(update) ==> Filled(update)[key] == update[key]
  {
    if key in update && update[key].Text? {
      BlankExactly(update[key].text);
    }
    hide Trim, Blank;
  }

  lemma SomethingFilled(update: Fields)
    ensures Filled(update) == map[] <==>
            !exists key :: key in update && update[key].Text? && !Blank(update[key].text)
  {
    forall key ensures key in Filled(update) <==> key in update && update[key].Text? && !Blank(update[key].text) {
      FilledExactly(update, key);
    }
    hide Filled, Blank;
    assert Filled(update) == map[] <==> forall key :: key !in Filled(update);
  }

  /** A call is rejected exactly if it does not pass, and then it changes nothing. */
  lemma RejectedExactly(s: Service, call: Call, at: Stamp)
    ensures var (t, reply) := Apply(s, call, at);
      (reply.Rejected? <==> !Accepts(s, call)) && (reply.Rejected? ==> t == s)
  {
    match call
    case Prepare(_, goal, _, _) => BlankExactly(goal);
    case PrepareAnonymous(_, goal, _) => BlankExactly(goal);
    case HydrateSession(_) =>
    case ClearSessions =>
    case _ =>
      if call.sessionId in s.sessions {
        hide Apply, OnSession;
        RejectedInSession(s, s.sessions[call.sessionId], call, at);
        AppliesToSession(s, call, at);
      }
  }

  lemma AppliesToSession(s: Service, call: Call, at: Stamp)
    requires LooksUp(call)
    requires call.sessionId in s.sessions
    ensures Apply(s, call, at) == OnSession(s, s.sessions[call.sessionId], call, at)
  {
    hide OnSession;
  }

  lemma RejectedInSession(s: Service, x: Session, call: Call, at: Stamp)
    requires LooksUp(call)
    ensures var (t, reply) := OnSession(s, x, call, at);
      (reply.Rejected? <==> !AcceptsIn(x.state, s.store.Some?, call)) && (reply.Rejected? ==> t == s)
  {
    hide AppendEvent, Persist, WithDraft, Drafted, Listed, Opened, ConfirmEvents;
    match call
    case UpdateDebriefDraft(_, update) =>
      SomethingFilled(update);
      hide Filled, Blank;
    case _ =>
  }

  // ---- What is left of the session ----

  /** The session after an accepted call; the time of the change is whatever was stamped. */
  ghost predicate Becomes(s: Service, x: Session, call: Call, y: Session) {
    var same := x.(updatedAt := y.updatedAt);
    match call
    case MarkCalling(_) => y == same.(state := Calling)
    case AwaitConfirmation(_) => y == same.(state := AwaitingConfirmation)
    case MarkPartial(_) => y == same.(state := Partial)
    case ConfirmDebrief(_) => y == same.(state := Confirmed)
    case ConfirmDebriefDraft(_) => y == same.(state := Confirmed)
    case MarkFailed(_, error) => y == same.(state := Failed, error := Some(error))
    case TeachFromCorrection(_, _, memory) =>
      memory.Some? && y == same.(state := Partial, memoryIds := x.memoryIds + [memory.value])
    case SetCallId(_, callId) => y == same.(callId := Some(callId))
    case EndCallAfterInterruption(_, error) =>
      if !x.state.Calling? then y == x
      else y == same.(error := Some(error),
                      state := if Facts(s, x.sessionId) != map[] then AwaitingConfirmation else Failed)
    case _ => y == x
  }

  lemma BecomesIt(s: Service, x: Session, call: Call, at: Stamp)
    requires Held(s, x) && AcceptsIn(x.state, s.store.Some?, call)
    requires LooksUp(call)
    ensures var t := OnSession(s, x, call, at).0;
      x.sessionId in t.sessions && Becomes(s, x, call, t.sessions[x.sessionId])
  {
    hide InsertOrIgnore, Drafted, Listed, Valid, ConfirmEvents, ConfirmDraft, Filled, Blank, ConfirmedId;
    match call
    case ConfirmDebriefDraft(_) => ConfirmBecomes(s, x, at);
    case _ =>
  }

  lemma ConfirmBecomes(s: Service, x: Session, at: Stamp)
    requires Held(s, x) && x.state in {AwaitingConfirmation, Partial, Confirmed} && s.store.Some?
    ensures var t := ConfirmDraft(s, x, at).0;
      && x.sessionId in t.sessions
      && t.sessions[x.sessionId] == x.(state := Confirmed, updatedAt := t.sessions[x.sessionId].updatedAt)
  {
    hide Drafted, Listed, ConfirmEvents;
    ListedIsRecorded(s, x, DebriefConfirmed);
    OpenedKeeps(s, x, at);
    HeldSettled(s, x);
    var (t, d) := Opened(s, x, at);
    ConfirmEventsKeepSessions(t, x, d, at.now);
    hide Valid, Opened, EventIds;
  }

  lemma ConfirmEventsKeepSessions(s: Service, x: Session, d: DraftRecord, now: string)
    ensures ConfirmEvents(s, x, d, now).sessions == s.sessions
  {
    hide InsertOrIgnore, ConfirmedPayload, AddressPayload, ConfirmedId, AddressId, Address;
  }

  /**
   * For every accepted call on a session: the session becomes what the call says, in memory and in storage, and
   * every other session stays as it was.
   */
  lemma SessionAfter(s: Service, call: Call, at: Stamp)
    requires Valid(s) && Accepts(s, call) && LooksUp(call) && call.sessionId in s.sessions
    ensures var (t, id) := (Apply(s, call, at).0, call.sessionId);
      && id in t.sessions && Becomes(s, s.sessions[id], call, t.sessions[id])
      && (s.store.Some? ==> t.store.Some? && t.store.value.sessions == s.store.value.sessions[id := t.sessions[id]])
      && t.sessions == s.sessions[id := t.sessions[id]]
  {
    var x := s.sessions[call.sessionId];
    assert Held(s, x);
    AppliesToSession(s, call, at);
    BecomesIt(s, x, call, at);
    hide Apply, Valid, Becomes, OnSession;
    var y, added := OnSessionGood(s, x, call, at);
    hide Settled, Fits;
  }

  // ---- What is left of the facts ----

  function FactAt(s: Service, id: string, key: string): Option<Value> {
    var facts := Facts(s, id);
    if key in facts then Some(facts[key]) else None
  }

  /** What a call writes under a fact's key, if anything. */
  function Written(call: Call, key: string): Option<Value> {
    match call
    case UpdateDebriefDraft(_, update) =>
      if key in update && update[key].Text? && !Blank(update[key].text) then Some(update[key]) else None
    case SaveDraft(_, fields, _) => if key in fields then Some(fields[key]) else None
    case RecordCallCompleted(_, callId, reason, occurredAt, _) =>
      if key == "provider_call_id" then Some(if callId.Some? then Text(callId.value) else Null)
      else if key == "completed_at" then Some(Text(occurredAt))
      else if key == "completion_reason" then Some(Text(reason))
      else if key == "recording" || key == "retention" then Some(Flag(false))
      else None
    case _ => None
  }

  /**
   * For every accepted call: under each key of each session's facts stands what the call writes there, or what
   * stood there before.
   */
  lemma FactsAfter(s: Service, call: Call, at: Stamp, id: string, key: string)
    requires Valid(s) && Accepts(s, call)
    ensures FactAt(Apply(s, call, at).0, id, key) ==
            if !call.ClearSessions? && call.sessionId == id && Written(call, key).Some? then Written(call, key)
            else FactAt(s, id, key)
  {
    hide OnSession, Valid;
    if call.Prepare? || call.PrepareAnonymous? || call.HydrateSession? || call.ClearSessions? {
      hide Accepts, FactAt;
      BeginsKeepFacts(s, call, at, id, key);
    } else {
      var x := s.sessions[call.sessionId];
      HeldThere(s, call.sessionId);
      AppliesToSession(s, call, at);
      hide Apply, FactAt, AcceptsIn;
      FactsInSession(s, x, call, at, id, key);
    }
  }

  lemma HeldThere(s: Service, id: string)
    requires Valid(s) && id in s.sessions
    ensures Held(s, s.sessions[id]) && s.sessions[id].sessionId == id
  {
  }

  lemma BeginsKeepFacts(s: Service, call: Call, at: Stamp, id: string, key: string)
    requires call.Prepare? || call.PrepareAnonymous? || call.HydrateSession? || call.ClearSessions?
    ensures FactAt(Apply(s, call, at).0, id, key) == FactAt(s, id, key) && Written(call, key).None?
  {
    hide Trim, InsertOrIgnore, OnSession;
  }

  lemma DraftedFacts(s: Service, x: Session, fields: Fields, status: DraftStatus, at: Stamp, id: string, key: string)
    requires s.store.Some?
    ensures FactAt(WithDraft(s, Drafted(s, x, fields, status, at)), id, key) ==
            if id == x.sessionId && key in fields then Some(fields[key]) else FactAt(s, id, key)
  {
  }

  lemma FactsInSession(s: Service, x: Session, call: Call, at: Stamp, id: string, key: string)
    requires LooksUp(call)
    requires AcceptsIn(x.state, s.store.Some?, call) && x.sessionId == call.sessionId
    ensures FactAt(OnSession(s, x, call, at).0, id, key) ==
            if call.sessionId == id && Written(call, key).Some? then Written(call, key) else FactAt(s, id, key)
  {
    hide InsertOrIgnore, Drafted, WithDraft, Listed, ConfirmDraft, Filled, Blank;
    match call
    case UpdateDebriefDraft(_, update) =>
      FilledExactly(update, key);
      SomethingFilled(update);
      DraftedFacts(s, x, Filled(update), if x.state.Partial? then PartialDraft else Draft, at, id, key);
    case SaveDraft(_, fields, status) => DraftedFacts(s, x, fields, status, at, id, key);
    case RecordCallCompleted(_, callId, reason, occurredAt, _) =>
      DraftedFacts(s, x, CompletionFields(callId, reason, occurredAt), Draft, at, id, key);
      CompletionWritten(call, key);
      hide CompletionFields;
    case GetDebriefForConfirmation(_) => OpenedFacts(s, x, at, id, key);
    case ConfirmDebriefDraft(_) => ConfirmFacts(s, x, at, id, key);
    case _ => OthersKeepFacts(s, x, call, at, id, key);
  }

  lemma OthersKeepFacts(s: Service, x: Session, call: Call, at: Stamp, id: string, key: string)
    requires LooksUp(call)
    requires !call.UpdateDebriefDraft? && !call.SaveDraft? && !call.RecordCallCompleted?
    requires !call.GetDebriefForConfirmation? && !call.ConfirmDebriefDraft?
    ensures FactAt(OnSession(s, x, call, at).0, id, key) == FactAt(s, id, key) && Written(call, key).None?
  {
    hide InsertOrIgnore, ConfirmedId;
  }

  lemma CompletionWritten(call: Call, key: string)
    requires call.RecordCallCompleted?
    ensures var f := CompletionFields(call.providerCallId, call.reason, call.occurredAt);
      Written(call, key) == if key in f then Some(f[key]) else None
  {
  }

  lemma OpenedFacts(s: Service, x: Session, at: Stamp, id: string, key: string)
    requires s.store.Some?
    ensures FactAt(Opened(s, x, at).0, id, key) == FactAt(s, id, key)
    ensures Opened(s, x, at).0.store.Some? && Opened(s, x, at).1.fields == Facts(s, x.sessionId)
  {
  }

  lemma ConfirmFacts(s: Service, x: Session, at: Stamp, id: string, key: string)
    requires s.store.Some? && x.state in {AwaitingConfirmation, Partial, Confirmed}
    ensures FactAt(ConfirmDraft(s, x, at).0, id, key) == FactAt(s, id, key)
  {
    var (t, d) := Opened(s, x, at);
    OpenedFacts(s, x, at, id, key);
    OpenedFacts(s, x, at, x.sessionId, key);
    hide Opened, Listed;
    ConfirmEventsKeepsDrafts(t, x, d, at.now);
    hide ConfirmEvents;
    var u := ConfirmEvents(t, x, d, at.now);
    DraftedFacts(u, x, d.fields, ConfirmedDraft, at, id, key);
    hide Drafted;
  }

  /** A draft has an address exactly if a text that is not blank is saved for it; recorded is that text, trimmed. */
  lemma AddressExactly(d: DraftRecord)
    ensures var given := "discovered_address" in d.fields && d.fields["discovered_address"].Text?
                         && !Blank(d.fields["discovered_address"].text);
      && (Address(d.fields) != "" <==> given)
      && (given ==> AddressPayload(d)["address"] == Text(Trim(d.fields["discovered_address"].text)))
  {
    if "discovered_address" in d.fields && d.fields["discovered_address"].Text? {
      BlankExactly(d.fields["discovered_address"].text);
    }
    hide Trim, Blank;
    assert "address"[0] == 'a' && "source"[0] == 's' && "draft_id"[0] == 'd';
  }

  // ---- The whole way ----

  /** The session is in this state, in memory and in storage. */
  predicate At(s: Service, id: string, state: State) {
    && id in s.sessions && s.sessions[id].state == state
    && (s.store.Some? ==> id in s.store.value.sessions && s.store.value.sessions[id] == s.sessions[id])
  }

  /** The calls that bring a session one state further. */
  predicate Brings(call: Call, id: string, from: State, to: State, stored: bool) {
    || (call == MarkCalling(id) && from == Prepared && to == Calling)
    || (call == AwaitConfirmation(id) && from == Calling && to == AwaitingConfirmation)
    || (call == MarkPartial(id) && from == AwaitingConfirmation && to == Partial)
    || ((call == ConfirmDebrief(id) || (call == ConfirmDebriefDraft(id) && stored))
        && (from == AwaitingConfirmation || from == Partial) && to == Confirmed)
  }

  lemma MovesOn(s: Service, call: Call, at: Stamp, id: string, from: State, to: State)
    requires Valid(s) && At(s, id, from) && Brings(call, id, from, to, s.store.Some?)
    ensures var (t, reply) := Apply(s, call, at);
      && Valid(t) && !reply.Rejected? && At(t, id, to) && (t.store.Some? <==> s.store.Some?)
  {
    assert Fresh(s, call);
    hide Apply, Valid, At, Brings, Fresh;
    MovesState(s, call, at, id, from, to);
    StaysValid(s, call, at, id);
  }

  lemma StaysValid(s: Service, call: Call, at: Stamp, id: string)
    requires Valid(s) && Fresh(s, call)
    ensures Valid(Apply(s, call, at).0) && (Apply(s, call, at).0.store.Some? <==> s.store.Some?)
  {
    hide Valid, Apply, Fresh;
    ApplyKeeps(s, call, at, id);
  }

  lemma MovesState(s: Service, call: Call, at: Stamp, id: string, from: State, to: State)
    requires Valid(s) && At(s, id, from) && Brings(call, id, from, to, s.store.Some?)
    ensures !Apply(s, call, at).1.Rejected? && At(Apply(s, call, at).0, id, to)
  {
    BringsAccepted(s, call, id, from, to);
    hide Apply, Valid, Accepts, Becomes, Brings;
    RejectedExactly(s, call, at);
    SessionAfter(s, call, at);
    BringsThere(s, s.sessions[id], call, Apply(s, call, at).0.sessions[id], id, from, to);
  }

  lemma BringsAccepted(s: Service, call: Call, id: string, from: State, to: State)
    requires At(s, id, from) && Brings(call, id, from, to, s.store.Some?)
    ensures Accepts(s, call) && LooksUp(call) && call.sessionId == id
  {
  }

  lemma BringsThere(s: Service, x: Session, call: Call, y: Session, id: string, from: State, to: State)
    requires Brings(call, id, from, to, s.store.Some?) && Becomes(s, x, call, y)
    ensures y.state == to
  {
    hide Facts;
  }

  lemma PreparesIt(s: Service, call: Call, at: Stamp)
    requires Valid(s) && (call.Prepare? || call.PrepareAnonymous?) && Fresh(s, call)
    requires !Blank(call.goal) && call.plan.Some?
    ensures var (t, reply) := Apply(s, call, at);
      && Valid(t) && !reply.Rejected? && At(t, call.sessionId, Prepared) && (t.store.Some? <==> s.store.Some?)
      && t.sessions[call.sessionId].goal == Trim(call.goal)
      && t.sessions[call.sessionId].customerId ==
           (if call.Prepare? && s.store.Some? then Some(call.customer) else None)
  {
    RejectedExactly(s, call, at);
    ApplyKeeps(s, call, at, call.sessionId);
    hide Valid, Trim, Blank, InsertOrIgnore;
  }

  lemma AfterOneMore(s: Service, calls: seq<Call>, at: Stamp, call: Call)
    ensures After(s, calls + [call], at) == Apply(After(s, calls, at), call, at).0
    ensures AllAccepted(s, calls + [call], at) <==>
            AllAccepted(s, calls, at) && !Apply(After(s, calls, at), call, at).1.Rejected?
  {
    hide Apply;
    assert (calls + [call])[..|calls|] == calls;
  }

  /** All calls so far were accepted and have left the session in this state. */
  ghost predicate Reached(s: Service, calls: seq<Call>, at: Stamp, id: string, state: State) {
    && AllAccepted(s, calls, at) && Valid(After(s, calls, at)) && At(After(s, calls, at), id, state)
    && (After(s, calls, at).store.Some? <==> s.store.Some?)
  }

  lemma OneMore(s: Service, calls: seq<Call>, at: Stamp, id: string, call: Call, from: State, to: State)
    requires Reached(s, calls, at, id, from) && Brings(call, id, from, to, s.store.Some?)
    ensures Reached(s, calls + [call], at, id, to)
  {
    hide Apply, Valid, At, Brings;
    AfterOneMore(s, calls, at, call);
    hide After, AllAccepted;
    MovesOn(After(s, calls, at), call, at, id, from, to);
  }

  lemma FirstOne(s: Service, prepare: Call, at: Stamp)
    requires Valid(s) && (prepare.Prepare? || prepare.PrepareAnonymous?) && Fresh(s, prepare)
    requires !Blank(prepare.goal) && prepare.plan.Some?
    ensures Reached(s, [prepare], at, prepare.sessionId, Prepared)
  {
    hide Apply, Valid, At, Blank, Fresh;
    PreparesIt(s, prepare, at);
    AfterOneMore(s, [], at, prepare);
    assert [] + [prepare] == [prepare] && After(s, [], at) == s && AllAccepted(s, [], at);
    hide After, AllAccepted;
  }

  /** Preparing, calling, and the call's end. */
  function ToReview(prepare: Call): seq<Call>
    requires prepare.Prepare? || prepare.PrepareAnonymous?
  {
    [prepare] + [MarkCalling(prepare.sessionId)] + [AwaitConfirmation(prepare.sessionId)]
  }

  /** From any valid service a session with a goal and a plan can be prepared, called, and brought to review. */
  lemma TheWayToReview(s: Service, prepare: Call, at: Stamp)
    requires Valid(s) && (prepare.Prepare? || prepare.PrepareAnonymous?) && Fresh(s, prepare)
    requires !Blank(prepare.goal) && prepare.plan.Some?
    ensures Reached(s, [prepare], at, prepare.sessionId, Prepared)
    ensures Reached(s, [prepare] + [MarkCalling(prepare.sessionId)], at, prepare.sessionId, Calling)
    ensures Reached(s, ToReview(prepare), at, prepare.sessionId, AwaitingConfirmation)
  {
    hide Reached, Blank, Valid, Fresh;
    FirstOne(s, prepare, at);
    var id := prepare.sessionId;
    OneMore(s, [prepare], at, id, MarkCalling(id), Prepared, Calling);
    OneMore(s, [prepare] + [MarkCalling(id)], at, id, AwaitConfirmation(id), Calling, AwaitingConfirmation);
  }

  /** From review a session can be confirmed, by state or by draft, marked partial first or not. */
  lemma TheWayFromReview(s: Service, calls: seq<Call>, at: Stamp, id: string, last: Call)
    requires Reached(s, calls, at, id, AwaitingConfirmation)
    requires last == ConfirmDebrief(id) || (last == ConfirmDebriefDraft(id) && s.store.Some?)
    ensures Reached(s, calls + [last], at, id, Confirmed)
    ensures Reached(s, calls + [MarkPartial(id)], at, id, Partial)
    ensures Reached(s, calls + [MarkPartial(id)] + [last], at, id, Confirmed)
  {
    hide Reached;
    OneMore(s, calls, at, id, last, AwaitingConfirmation, Confirmed);
    OneMore(s, calls, at, id, MarkPartial(id), AwaitingConfirmation, Partial);
    OneMore(s, calls + [MarkPartial(id)], at, id, last, Partial, Confirmed);
  }

  function After(s: Service, calls: seq<Call>, at: Stamp): Service {
    if calls == [] then s else Apply(After(s, calls[..|calls| - 1], at), calls[|calls| - 1], at).0
  }

  predicate AllAccepted(s: Service, calls: seq<Call>, at: Stamp) {
    calls == [] ||
    (var before := calls[..|calls| - 1];
     AllAccepted(s, before, at) && !Apply(After(s, before, at), calls[|calls| - 1], at).1.Rejected?)
  }

  /** What was cleared from memory comes back from storage as it was. */
  lemma ClearedComesBack(s: Service, id: string, at: Stamp)
    requires Valid(s) && s.store.Some? && id in s.sessions
    ensures var t := Apply(s, ClearSessions, at).0;
      && id !in t.sessions
      && var (u, reply) := Apply(t, HydrateSession(id), at);
      reply == Shown(s.sessions[id]) && id in u.sessions && u.sessions[id] == s.sessions[id] && u.store == s.store
  {
    hide Recorded;
  }

  /** Hydrating shows the stored session, whatever memory holds; without one, memory's. */
  lemma StoredReplaces(s: Service, id: string, at: Stamp)
    ensures var (t, reply) := Apply(s, HydrateSession(id), at);
      if s.store.Some? && id in s.store.value.sessions
      then t == s.(sessions := s.sessions[id := s.store.value.sessions[id]]) && reply == Shown(s.store.value.sessions[id])
      else t == s && (id in s.sessions ==> reply == Shown(s.sessions[id]))
  {
  }
}
