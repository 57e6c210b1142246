/**
 * The debrief service and its tables as the objects they are in kits/debrief/src/functions: a map of
 * sessions changed in place, each change written through.
 */
module DebriefObjects {
  import opened Base
  import opened DebriefSession
  import opened DebriefRuns
  import opened DebriefHistory

  class DebriefPersistence {
    var sessions: map<string, Session>
    var drafts: map<string, DraftRecord>
    var events: seq<Event>

    constructor ()
      ensures View() == Store(map[], map[], [])
    {
      sessions, drafts, events := map[], map[], [];
    }

    ghost function View(): Store
      reads this
    {
      Store(sessions, drafts, events)
    }

    method SaveSession(x: Session)
      modifies this
      ensures View() == old(View()).(sessions := old(sessions)[x.sessionId := x])
    {
      sessions := sessions[x.sessionId := x];
    }

    method LoadSession(sessionId: string) returns (x: Option<Session>)
      ensures x == if sessionId in sessions then Some(sessions[sessionId]) else None
    {
      x := if sessionId in sessions then Some(sessions[sessionId]) else None;
    }

    /** Insert, or do nothing on a conflict of event ids. */
    method AppendCustomerEvent(e: Event)
      modifies this
      ensures View() == old(View()).(events := InsertOrIgnore(old(events), e))
    {
      var i := 0;
      while i < |events|
        invariant View() == old(View())
        invariant i <= |events| && e.eventId !in EventIds(events[..i])
      {
        if events[i].eventId == e.eventId {
          assert events[i] in events && e.eventId in EventIds(events);
          return;
        }
        IdsAppended(events[..i], [events[i]]);
        assert events[..i + 1] == events[..i] + [events[i]];
        i := i + 1;
      }
      assert events[..i] == events;
      events := events + [e];
    }

    /** The first of a customer's events for the session and kind. */
    method FindEvent(customer: string, sessionId: string, kind: EventType) returns (eventId: Option<string>)
      ensures eventId == Find(events, customer, sessionId, kind)
    {
      eventId := None;
      var i := 0;
      while i < |events| && eventId.None?
        invariant i <= |events| && eventId == Find(events[..i], customer, sessionId, kind)
      {
        var e := events[i];
        assert events[..i + 1][..i] == events[..i];
        if e.customerId == customer && e.sessionId == sessionId && e.kind == kind {
          eventId := Some(e.eventId);
        }
        i := i + 1;
      }
      if eventId.Some? {
        FindStays(events, i, customer, sessionId, kind);
      } else {
        assert events[..i] == events;
      }
    }

    method GetDraft(sessionId: string) returns (d: Option<DraftRecord>)
      ensures d == if sessionId in drafts then Some(drafts[sessionId]) else None
    {
      d := if sessionId in drafts then Some(drafts[sessionId]) else None;
    }

    method SaveDraft(d: DraftRecord)
      modifies this
      ensures View() == old(View()).(drafts := old(drafts)[d.sessionId := d])
    {
      drafts := drafts[d.sessionId := d];
    }
  }

  /** The first match stays first. */
  lemma {:induction false} FindStays(events: seq<Event>, i: nat, customer: string, sessionId: string, kind: EventType)
    requires i <= |events| && Find(events[..i], customer, sessionId, kind).Some?
    ensures Find(events, customer, sessionId, kind) == Find(events[..i], customer, sessionId, kind)
  {
    if i < |events| {
      var n := |events| - 1;
      assert events[..n][..i] == events[..i];
      FindStays(events[..n], i, customer, sessionId, kind);
    } else {
      assert events[..i] == events;
    }
  }

  class DebriefService {
    const persistence: DebriefPersistence?
    var sessions: map<string, Session>

    /** Sessions loaded from storage at start are what storage holds. */
    constructor (persistence: DebriefPersistence?, initial: map<string, Session>)
      ensures this.persistence == persistence && sessions == initial
    {
      this.persistence := persistence;
      sessions := initial;
    }

    ghost function View(): Service
      reads this, persistence
    {
      Service(sessions, if persistence == null then None else Some(persistence.View()))
    }

    method Save(x: Session)
      modifies this, persistence
      ensures View() == Persist(old(View()), x)
    {
      sessions := sessions[x.sessionId := x];
      if persistence != null {
        persistence.SaveSession(x);
      }
    }

    method Append(x: Session, kind: EventType, payload: Fields, eventId: string, now: string)
      modifies persistence
      ensures View() == AppendEvent(old(View()), x, kind, payload, eventId, now)
    {
      if !Bound(x) || persistence == null {
        return;
      }
      persistence.AppendCustomerEvent(Event(eventId, x.customerId.value, x.sessionId, kind, now, payload));
    }

    method Write(x: Session, fields: Fields, status: DraftStatus, at: Stamp) returns (d: DraftRecord)
      requires persistence != null
      modifies persistence
      ensures d == Drafted(old(View()), x, fields, status, at) && View() == WithDraft(old(View()), d)
    {
      var existing := persistence.GetDraft(x.sessionId);
      var draftId := if existing.Some? then existing.value.draftId else "draft-" + at.id;
      var merged := if existing.Some? then existing.value.fields + fields else fields;
      d := DraftRecord(draftId, x.customerId, x.sessionId, status, merged, at.now);
      persistence.SaveDraft(d);
    }

    method Open(x: Session, at: Stamp) returns (d: DraftRecord)
      requires persistence != null
      modifies persistence
      ensures (View(), d) == Opened(old(View()), x, at)
    {
      var existing := persistence.GetDraft(x.sessionId);
      if existing.Some? {
        return existing.value;
      }
      d := Write(x, map[], Draft, at);
    }

    method List(x: Session, kind: EventType) returns (eventId: Option<string>)
      ensures eventId == Listed(View(), x, kind)
    {
      if Bound(x) && persistence != null {
        eventId := persistence.FindEvent(x.customerId.value, x.sessionId, kind);
      } else {
        eventId := None;
      }
    }

    method Begin(sessionId: string, goal: string, plan: Option<Plan>, customer: Option<string>, at: Stamp)
        returns (reply: Reply)
      modifies this, persistence
      ensures (View(), reply) == DebriefSession.Begin(old(View()), sessionId, goal, plan, customer, at)
    {
      if Trim(goal) == "" {
        return Rejected(EmptyGoal);
      }
      if plan.None? {
        return Rejected(CollaboratorFailed);
      }
      var known := if persistence != null then customer else None;
      var x := Session(sessionId, known, Trim(goal), plan.value, Prepared, None, plan.value.memoryIds, None,
                       at.now, at.now);
      Save(x);
      Append(x, Prebrief, plan.value.details, GeneratedId(at.id), at.now);
      reply := Shown(x);
    }

    method Transition(x: Session, to: State, at: Stamp) returns (reply: Reply)
      modifies this, persistence
      ensures (View(), reply) == DebriefSession.Transition(old(View()), x, to, at)
    {
      if x.state == to {
        return Shown(x);
      }
      if !Allowed(x.state, to) {
        return Rejected(NotAllowed);
      }
      var y := x.(state := to, updatedAt := at.now);
      Save(y);
      if to.Confirmed? {
        Append(y, DebriefConfirmed, map["outcome" := Text("confirmed")], ConfirmedId(x.sessionId), at.now);
      }
      reply := Shown(y);
    }

    method Fail(x: Session, error: string, at: Stamp) returns (reply: Reply)
      modifies this, persistence
      ensures (View(), reply) == DebriefSession.Fail(old(View()), x, error, at)
    {
      var y := x.(state := Failed, error := Some(error), updatedAt := at.now);
      Save(y);
      reply := Shown(y);
    }

    method EndCall(x: Session, error: string, at: Stamp) returns (reply: Reply)
      modifies this, persistence
      ensures (View(), reply) == DebriefSession.EndCall(old(View()), x, error, at)
    {
      if !x.state.Calling? {
        return Shown(x);
      }
      var d := None;
      if persistence != null {
        d := persistence.GetDraft(x.sessionId);
      }
      if d.None? || d.value.fields == map[] {
        reply := Fail(x, error, at);
      } else {
        reply := Transition(x.(error := Some(error)), AwaitingConfirmation, at);
      }
    }

    method Teach(x: Session, correction: string, memory: Option<string>, at: Stamp) returns (reply: Reply)
      modifies this, persistence
      ensures (View(), reply) == DebriefSession.Teach(old(View()), x, correction, memory, at)
    {
      if !x.state.AwaitingConfirmation? && !x.state.Partial? {
        return Rejected(NotAllowed);
      }
      if memory.None? {
        return Rejected(CollaboratorFailed);
      }
      var y := x.(memoryIds := x.memoryIds + [memory.value], state := Partial, updatedAt := at.now);
      Save(y);
      Append(y, NoteTaken, map["correction" := Text(correction)], GeneratedId(at.id), at.now);
      reply := Learned(memory.value);
    }

    method HydrateSession(sessionId: string) returns (reply: Reply)
      modifies this
      ensures (View(), reply) == Hydrate(old(View()), sessionId)
    {
      if persistence != null {
        var x := persistence.LoadSession(sessionId);
        if x.Some? {
          sessions := sessions[sessionId := x.value];
        }
      }
      reply := if sessionId in sessions then Shown(sessions[sessionId]) else Rejected(NotFound);
    }

    method Review(x: Session, at: Stamp) returns (reply: Reply)
      modifies persistence
      ensures (View(), reply) == DebriefSession.Review(old(View()), x, at)
    {
      if !Reviewable(x.state) {
        return Rejected(NotAllowed);
      }
      if persistence == null {
        return Rejected(NoPersistence);
      }
      var d := Open(x, at);
      var confirmed := List(x, DebriefConfirmed);
      var address := List(x, AddressDiscovered);
      reply := Confirmation(x, d, confirmed, address);
    }

    method Update(x: Session, update: Fields, at: Stamp) returns (reply: Reply)
      modifies persistence
      ensures (View(), reply) == DebriefSession.Update(old(View()), x, update, at)
    {
      if !x.state.Calling? && !x.state.AwaitingConfirmation? && !x.state.Partial? {
        return Rejected(NotAllowed);
      }
      var fields := Filled(update);
      if fields == map[] {
        return Rejected(EmptyUpdate);
      }
      if persistence == null {
        return Rejected(NoPersistence);
      }
      var d := Write(x, fields, if x.state.Partial? then PartialDraft else Draft, at);
      reply := Confirmation(x, d, None, None);
    }

    method ConfirmDraft(x: Session, at: Stamp) returns (reply: Reply)
      modifies this, persistence
      ensures (View(), reply) == DebriefSession.ConfirmDraft(old(View()), x, at)
    {
      if !Reviewable(x.state) {
        return Rejected(NotAllowed);
      }
      if persistence == null {
        return Rejected(NoPersistence);
      }
      var d := Open(x, at);
      var confirmed := List(x, DebriefConfirmed);
      var address := List(x, AddressDiscovered);
      if confirmed.Some? {
        return Confirmation(x, d.(status := ConfirmedDraft), confirmed, address);
      }
      if Address(d.fields) != "" {
        Append(x, AddressDiscovered, AddressPayload(d), AddressId(x.sessionId), at.now);
      }
      Append(x, DebriefConfirmed, ConfirmedPayload(d), ConfirmedId(x.sessionId), at.now);
      var saved := Write(x, d.fields, ConfirmedDraft, at);
      var y := x;
      if !x.state.Confirmed? {
        y := x.(state := Confirmed, updatedAt := at.now);
        Save(y);
      }
      reply := Confirmation(y, saved, if Bound(x) then Some(ConfirmedId(x.sessionId)) else None,
                            if Bound(x) && Address(d.fields) != "" then Some(AddressId(x.sessionId)) else None);
    }

    method SaveFields(x: Session, fields: Fields, status: DraftStatus, at: Stamp) returns (reply: Reply)
      modifies persistence
      ensures (View(), reply) == DebriefSession.SaveFields(old(View()), x, fields, status, at)
    {
      if persistence == null {
        return Rejected(NoPersistence);
      }
      var d := Write(x, fields, status, at);
      reply := Saved(d);
    }

    method CompleteCall(x: Session, callId: Option<string>, reason: string, occurredAt: string, provider: string,
        at: Stamp) returns (reply: Reply)
      modifies persistence
      ensures (View(), reply) == DebriefSession.CompleteCall(old(View()), x, callId, reason, occurredAt, provider, at)
    {
      reply := SaveFields(x, CompletionFields(callId, reason, occurredAt), Draft, at);
      if !reply.Rejected? {
        Append(x, CallCompleted, CompletionPayload(callId, reason, provider), GeneratedId(at.id), at.now);
        reply := Nothing;
      }
    }

    /** A call on a session the service holds. */
    method Serve(x: Session, call: Call, at: Stamp) returns (reply: Reply)
      modifies this, persistence
      ensures (View(), reply) == OnSession(old(View()), x, call, at)
    {
      hide Persist, DebriefSession.Transition, DebriefSession.EndCall, DebriefSession.Teach, DebriefSession.Review,
           DebriefSession.Update, DebriefSession.ConfirmDraft, DebriefSession.SaveFields, DebriefSession.CompleteCall;
      match call
      case MarkCalling(_) => reply := Transition(x, Calling, at);
      case AwaitConfirmation(_) => reply := Transition(x, AwaitingConfirmation, at);
      case MarkPartial(_) => reply := Transition(x, Partial, at);
      case ConfirmDebrief(_) => reply := Transition(x, Confirmed, at);
      case MarkFailed(_, error) => reply := Fail(x, error, at);
      case EndCallAfterInterruption(_, error) => reply := EndCall(x, error, at);
      case TeachFromCorrection(_, correction, memory) => reply := Teach(x, correction, memory, at);
      case GetDebriefForConfirmation(_) => reply := Review(x, at);
      case UpdateDebriefDraft(_, update) => reply := Update(x, update, at);
      case ConfirmDebriefDraft(_) => reply := ConfirmDraft(x, at);
      case SaveDraft(_, fields, status) => reply := SaveFields(x, fields, status, at);
      case SetCallId(_, callId) =>
        var y := x.(callId := Some(callId), updatedAt := at.now);
        Save(y);
        reply := Shown(y);
      case RecordCallCompleted(_, callId, reason, occurredAt, provider) =>
        reply := CompleteCall(x, callId, reason, occurredAt, provider, at);
      case _ => reply := Nothing;
    }

    /** One service call; what holds before it holds after it. */
    method Do(call: Call, at: Stamp) returns (reply: Reply)
      modifies this, persistence
      ensures (View(), reply) == Apply(old(View()), call, at)
      ensures old(Valid(View()) && Fresh(View(), call)) ==> Valid(View())
    {
      hide Valid, OnSession, DebriefSession.Begin, Hydrate;
      ghost var before := View();
      match call {
        case Prepare(sessionId, goal, plan, customer) => reply := Begin(sessionId, goal, plan, Some(customer), at);
        case PrepareAnonymous(sessionId, goal, plan) => reply := Begin(sessionId, goal, plan, None, at);
        case HydrateSession(sessionId) => reply := HydrateSession(sessionId);
        case ClearSessions =>
          sessions := map[];
          reply := Nothing;
        case _ =>
          if call.sessionId in sessions {
            reply := Serve(sessions[call.sessionId], call, at);
          } else {
            reply := Rejected(NotFound);
          }
      }
      if Valid(before) && Fresh(before, call) {
        ApplyKeeps(before, call, at, "");
      }
    }
  }
}
