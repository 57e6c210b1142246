/** The debrief service over whole sequences of calls: states, write-through and the two confirmation events. */
module DebriefHistory {
  import opened Base
  import opened DebriefSession
  import opened DebriefRuns

  lemma OnSessionGood(s: Service, x: Session, call: Call, at: Stamp) returns (y: Session, added: seq<Event>)
    requires Held(s, x)
    ensures Good(s, OnSession(s, x, call, at).0, x, y, added)
  {
    hide Good, Held, Transition, EndCall, Teach, Review, Update, ConfirmDraft, CompleteCall, Persist, SaveFields;
    y, added := x, [];
    match call
    case MarkCalling(_) => y, added := TransitionGood(s, x, Calling, at);
    case AwaitConfirmation(_) => y, added := TransitionGood(s, x, AwaitingConfirmation, at);
    case MarkPartial(_) => y, added := TransitionGood(s, x, Partial, at);
    case ConfirmDebrief(_) => y, added := TransitionGood(s, x, Confirmed, at);
    case MarkFailed(_, error) =>
      y := x.(state := Failed, error := Some(error), updatedAt := at.now);
      PersistGood(s, x, y);
    case EndCallAfterInterruption(_, error) => y := EndCallGood(s, x, error, at);
    case TeachFromCorrection(_, correction, memory) => y, added := TeachGood(s, x, correction, memory, at);
    case GetDebriefForConfirmation(_) => ReviewGood(s, x, at);
    case UpdateDebriefDraft(_, update) => UpdateGood(s, x, update, at);
    case ConfirmDebriefDraft(_) => y, added := ConfirmDraftGood(s, x, at);
    case SaveDraft(_, fields, status) => SaveFieldsGood(s, x, fields, status, at);
    case SetCallId(_, callId) =>
      y := x.(callId := Some(callId), updatedAt := at.now);
      PersistGood(s, x, y);
    case RecordCallCompleted(_, callId, reason, occurredAt, provider) =>
      added := Appended(s, x, CallCompleted, CompletionPayload(callId, reason, provider), at.id, at.now);
      CompleteCallGood(s, x, callId, reason, occurredAt, provider, at);
    case _ => StaysPut(s, s, x);
  }

  lemma ReviewGood(s: Service, x: Session, at: Stamp)
    requires Held(s, x)
    ensures Good(s, Review(s, x, at).0, x, x, [])
  {
    hide Held, Good, Drafted, Listed;
    StaysPut(s, Review(s, x, at).0, x);
  }

  lemma UpdateGood(s: Service, x: Session, update: Fields, at: Stamp)
    requires Held(s, x)
    ensures Good(s, Update(s, x, update, at).0, x, x, [])
  {
    hide Held, Good, Drafted, Filled;
    StaysPut(s, Update(s, x, update, at).0, x);
  }

  lemma SaveFieldsGood(s: Service, x: Session, fields: Fields, status: DraftStatus, at: Stamp)
    requires Held(s, x)
    ensures Good(s, SaveFields(s, x, fields, status, at).0, x, x, [])
  {
    hide Held, Good, Drafted;
    StaysPut(s, SaveFields(s, x, fields, status, at).0, x);
  }

  // ---- One call ----

  function Lookup(s: Service, sessionId: string): Option<Session> {
    if sessionId in s.sessions then Some(s.sessions[sessionId])
    else if s.store.Some? && sessionId in s.store.value.sessions then Some(s.store.value.sessions[sessionId])
    else None
  }

  predicate Prepares(call: Call, sessionId: string) {
    (call.Prepare? || call.PrepareAnonymous?) && call.sessionId == sessionId
  }

  /** Generated session ids are new. */
  predicate Fresh(s: Service, call: Call) {
    call.Prepare? || call.PrepareAnonymous? ==> Lookup(s, call.sessionId) == None
  }

  lemma BeginGood(s: Service, sessionId: string, goal: string, plan: Option<Plan>, customer: Option<string>, at: Stamp)
    returns (x: Session, added: seq<Event>)
    requires Valid(s) && Lookup(s, sessionId) == None
    ensures var (t, reply) := Begin(s, sessionId, goal, plan, customer, at);
      && Valid(t)
      && (reply.Rejected? ==> t == s)
      && (!reply.Rejected? ==> Touches(s, t, x, added) && x.sessionId == sessionId)
      && (!reply.Rejected? ==> forall e | e in added :: e.kind.Prebrief? && NamedByKind(e) && e.sessionId == sessionId)
  {
    var decided := if plan.Some? then plan.value else Plan(None, None, None, "", [], map[]);
    x := Session(sessionId, if s.store.Some? then customer else None, Trim(goal), decided, Prepared, None,
                 decided.memoryIds, None, at.now, at.now);
    added := [];
    if Trim(goal) != "" && plan.Some? {
      var t := Begin(s, sessionId, goal, plan, customer, at).0;
      if s.store.Some? {
        var events := s.store.value.events;
        StrangerSettled(s, x);
        assert events + [] == events;
        if Bound(x) && GeneratedId(at.id) !in EventIds(events) {
          var e := Event(GeneratedId(at.id), x.customerId.value, x.sessionId, Prebrief, at.now, decided.details);
          added := [e];
          PlainFits(events, x, e);
        }
      }
      hide Valid, Fits, Settled, EventIds;
      TouchKeeps(s, t, x, added);
    }
  }

  /** No event mentions a session that is not stored. */
  lemma StrangerSettled(s: Service, x: Session)
    requires Valid(s) && s.store.Some? && x.sessionId !in s.store.value.sessions && x.state.Prepared?
    ensures Settled(s.store.value.events, x) && Distinct(s.store.value.events)
  {
    forall e | e in s.store.value.events ensures e.eventId != ConfirmedId(x.sessionId)
        && e.eventId != AddressId(x.sessionId) {
      IdsApart(x.sessionId, e.sessionId);
      IdsApart(e.sessionId, x.sessionId);
    }
  }

  lemma HydrateKeeps(s: Service, sessionId: string)
    requires Valid(s)
    ensures Valid(Hydrate(s, sessionId).0)
  {
    hide Settled, Owned, Distinct;
  }

  /** Hydrating a session the service holds changes nothing and shows what it holds. */
  lemma HydrateChangesNothing(s: Service, sessionId: string)
    requires Valid(s) && sessionId in s.sessions
    ensures Hydrate(s, sessionId) == (s, Shown(s.sessions[sessionId]))
  {
    hide Recorded;
    assert s.sessions[sessionId := s.sessions[sessionId]] == s.sessions;
  }

  /** How one call leaves a session. */
  ghost predicate Follows(s: Service, t: Service, call: Call, id: string) {
    && (s.store.None? <==> t.store.None?)
    && EventsOf(s) <= EventsOf(t)
    && (Lookup(t, id).Some? ==>
          || Prepares(call, id)
          || (Lookup(s, id).Some? && Lookup(t, id).value.customerId == Lookup(s, id).value.customerId
              && Moves(Lookup(s, id).value.state, Lookup(t, id).value.state)))
    && (s.store.Some? && Lookup(s, id).Some? ==> Lookup(t, id).Some?)
    && (ConfirmedId(id) in EventIds(EventsOf(s)) ==>
          (AddressId(id) in EventIds(EventsOf(t)) <==> AddressId(id) in EventIds(EventsOf(s))))
  }

  lemma LookupTouched(s: Service, t: Service, y: Session, added: seq<Event>, id: string)
    requires Touches(s, t, y, added)
    ensures Lookup(t, id) == if id == y.sessionId then Some(y) else Lookup(s, id)
  {
  }

  /** The plain events of one call add no address to a confirmed session, nor do the confirming events of another. */
  lemma AddressFrozen(events: seq<Event>, y: Session, added: seq<Event>, id: string)
    requires ConfirmedId(id) in EventIds(events)
    requires forall e | e in added :: NamedByKind(e) && e.sessionId == y.sessionId
    requires ConfirmedId(y.sessionId) in EventIds(events) ==> forall e | e in added ::
        !e.kind.DebriefConfirmed?
        && !e.kind.AddressDiscovered?
    ensures AddressId(id) in EventIds(events + added) <==> AddressId(id) in EventIds(events)
  {
    IdsAppended(events, added);
    forall e | e in added ensures e.eventId != AddressId(id) {
      IdsApart(id, e.sessionId);
      IdsApart(e.sessionId, id);
    }
  }

  lemma GoodFollows(s: Service, t: Service, x: Session, y: Session, added: seq<Event>, call: Call, id: string)
    requires Held(s, x) && Good(s, t, x, y, added)
    ensures Follows(s, t, call, id)
  {
    hide Valid, Settled, Distinct, NamedByKind, EventIds;
    LookupTouched(s, t, y, added, id);
    assert Lookup(s, x.sessionId) == Some(x);
    if s.store.Some? && ConfirmedId(id) in EventIds(EventsOf(s)) {
      AddressFrozen(EventsOf(s), y, added, id);
    }
    hide Of;
  }

  lemma BeginFollows(s: Service, t: Service, x: Session, added: seq<Event>, call: Call, id: string)
    requires Touches(s, t, x, added) && Prepares(call, x.sessionId) && forall e | e in added ::
        e.kind.Prebrief?
        && NamedByKind(e) && e.sessionId == x.sessionId
    ensures Follows(s, t, call, id)
  {
    LookupTouched(s, t, x, added, id);
    if s.store.Some? && ConfirmedId(id) in EventIds(EventsOf(s)) {
      AddressFrozen(EventsOf(s), x, added, id);
    }
  }

  /** Every call keeps the service valid and leaves every session as `Follows` says. */
  lemma ApplyKeeps(s: Service, call: Call, at: Stamp, id: string)
    requires Valid(s) && Fresh(s, call)
    ensures Valid(Apply(s, call, at).0) && Follows(s, Apply(s, call, at).0, call, id)
  {
    var t := Apply(s, call, at).0;
    match call
    case Prepare(sessionId, goal, plan, customer) => BeginKeeps(s, call, goal, plan, Some(customer), at, id);
    case PrepareAnonymous(sessionId, goal, plan) => BeginKeeps(s, call, goal, plan, None, at, id);
    case HydrateSession(sessionId) =>
      HydrateKeeps(s, sessionId);
      HydrateFollows(s, call, id);
    case ClearSessions => ClearKeeps(s, id);
    case _ =>
      if call.sessionId in s.sessions {
        hide Valid, Good, Follows, OnSession;
        SessionKeeps(s, call, at, id);
      } else {
        SameFollows(s, call, id);
      }
  }

  lemma SameFollows(s: Service, call: Call, id: string)
    ensures Follows(s, s, call, id)
  {
  }

  lemma BeginKeeps(s: Service, call: Call, goal: string, plan: Option<Plan>, customer: Option<string>, at: Stamp,
      id: string)
    requires Valid(s) && (call.Prepare? || call.PrepareAnonymous?) && Fresh(s, call)
    ensures var t := Begin(s, call.sessionId, goal, plan, customer, at).0; Valid(t) && Follows(s, t, call, id)
  {
    var x, added := BeginGood(s, call.sessionId, goal, plan, customer, at);
    var (t, reply) := Begin(s, call.sessionId, goal, plan, customer, at);
    hide Begin, Valid, Follows;
    if reply.Rejected? {
      SameFollows(s, call, id);
    } else {
      BeginFollows(s, t, x, added, call, id);
    }
  }

  lemma HydrateFollows(s: Service, call: Call, id: string)
    requires Valid(s) && call.HydrateSession?
    ensures Follows(s, Hydrate(s, call.sessionId).0, call, id)
  {
    hide Recorded;
    assert forall k :: Lookup(Hydrate(s, call.sessionId).0, k) == Lookup(s, k);
  }

  lemma ClearKeeps(s: Service, id: string)
    requires Valid(s)
    ensures var t := s.(sessions := map[]); Valid(t) && Follows(s, t, ClearSessions, id)
  {
    hide Recorded;
  }

  lemma SessionKeeps(s: Service, call: Call, at: Stamp, id: string)
    requires Valid(s) && !call.ClearSessions? && call.sessionId in s.sessions
    ensures var t := OnSession(s, s.sessions[call.sessionId], call, at).0; Valid(t) && Follows(s, t, call, id)
  {
    var x := s.sessions[call.sessionId];
    assert Held(s, x);
    var y, added := OnSessionGood(s, x, call, at);
    var t := OnSession(s, x, call, at).0;
    hide OnSession;
    GoodFollows(s, t, x, y, added, call, id);
    GoodKeeps(s, t, x, y, added);
  }

  lemma GoodKeeps(s: Service, t: Service, x: Session, y: Session, added: seq<Event>)
    requires Held(s, x) && Good(s, t, x, y, added)
    ensures Valid(t)
  {
    if s.store.Some? {
      HeldSettled(s, x);
    }
    hide Valid, Settled, Fits;
    TouchKeeps(s, t, y, added);
  }

  // ---- Every sequence of calls ----

  datatype Timed = Timed(call: Call, at: Stamp)

  function Run(s: Service, calls: seq<Timed>): Service {
    if calls == [] then s
    else
      var last := calls[|calls| - 1];
      Apply(Run(s, calls[..|calls| - 1]), last.call, last.at).0
  }

  function PreparedIds(calls: seq<Timed>): set<string> {
    if calls == [] then {}
    else
      var call := calls[|calls| - 1].call;
      PreparedIds(calls[..|calls| - 1]) + if call.Prepare? || call.PrepareAnonymous? then {call.sessionId} else {}
  }

  /** No generated session id is used twice. */
  predicate NewIds(s: Service, calls: seq<Timed>) {
    calls == [] ||
    (var n := |calls| - 1;
     var call := calls[n].call;
     && NewIds(s, calls[..n])
     && (call.Prepare? || call.PrepareAnonymous? ==>
           Lookup(s, call.sessionId) == None && call.sessionId !in PreparedIds(calls[..n])))
  }

  lemma {:induction false} OnlyKnownIds(s: Service, calls: seq<Timed>, id: string)
    requires Valid(s) && NewIds(s, calls)
    ensures Valid(Run(s, calls))
    ensures Lookup(Run(s, calls), id).Some? ==> Lookup(s, id).Some? || id in PreparedIds(calls)
  {
    if calls != [] {
      var n := |calls| - 1;
      OnlyKnownIds(s, calls[..n], id);
      var call := calls[n].call;
      if call.Prepare? || call.PrepareAnonymous? {
        OnlyKnownIds(s, calls[..n], call.sessionId);
      }
      hide Valid, Apply;
      ApplyKeeps(Run(s, calls[..n]), call, calls[n].at, id);
    }
  }

  lemma LastCall(s: Service, calls: seq<Timed>, id: string)
    requires Valid(s) && NewIds(s, calls) && calls != []
    ensures var n := |calls| - 1;
      && Valid(Run(s, calls[..n])) && Fresh(Run(s, calls[..n]), calls[n].call)
      && Run(s, calls) == Apply(Run(s, calls[..n]), calls[n].call, calls[n].at).0
      && Follows(Run(s, calls[..n]), Run(s, calls), calls[n].call, id)
  {
    var n := |calls| - 1;
    var call := calls[n].call;
    OnlyKnownIds(s, calls[..n], id);
    if call.Prepare? || call.PrepareAnonymous? {
      OnlyKnownIds(s, calls[..n], call.sessionId);
    }
    hide Valid, Apply, Follows;
    ApplyKeeps(Run(s, calls[..n]), call, calls[n].at, id);
  }

  /** After every sequence of calls storage and memory agree, so hydrating a held session changes nothing. */
  lemma AlwaysWrittenThrough(s: Service, calls: seq<Timed>, id: string)
    requires Valid(s) && NewIds(s, calls)
    ensures var t := Run(s, calls);
      WrittenThrough(t) && (id in t.sessions ==> Hydrate(t, id) == (t, Shown(t.sessions[id])))
  {
    OnlyKnownIds(s, calls, id);
    hide Run, Hydrate, Recorded;
    if id in Run(s, calls).sessions {
      HydrateChangesNothing(Run(s, calls), id);
    }
  }

  /** The same customer, and no earlier state. */
  predicate Later(x: Session, y: Session) {
    y.customerId == x.customerId && Rank(x.state) <= Rank(y.state)
  }

  /** A stored session is never lost, and whenever a session is there it is no earlier than before. */
  predicate NoEarlier(s: Service, t: Service, id: string) {
    && (s.store.None? <==> t.store.None?)
    && (s.store.Some? && Lookup(s, id).Some? ==> Lookup(t, id).Some?)
    && (Lookup(s, id).Some? && Lookup(t, id).Some? ==> Later(Lookup(s, id).value, Lookup(t, id).value))
  }

  lemma OneStepLater(s: Service, mid: Service, t: Service, call: Call, id: string)
    requires NoEarlier(s, mid, id) && Lookup(s, id).Some? && Follows(mid, t, call, id) && !Prepares(call, id)
    ensures NoEarlier(s, t, id)
  {
    hide Lookup, EventIds;
  }

  /** A session that exists is not prepared anew. */
  lemma NotPrepared(s: Service, calls: seq<Timed>, id: string)
    requires NewIds(s, calls) && calls != [] && Lookup(s, id).Some?
    ensures NewIds(s, calls[..|calls| - 1]) && !Prepares(calls[|calls| - 1].call, id)
  {
  }

  lemma StaysFailed(s: Service, t: Service, id: string)
    requires NoEarlier(s, t, id) && Lookup(s, id).Some?
    ensures Lookup(s, id).value.state.Failed? && Lookup(t, id).Some? ==> Lookup(t, id).value.state.Failed?
  {
  }

  /** Over every sequence of calls a session keeps its customer and never goes back: a failed one stays failed. */
  lemma {:induction false} OnlyForward(s: Service, calls: seq<Timed>, id: string)
    requires Valid(s) && NewIds(s, calls) && Lookup(s, id).Some?
    ensures NoEarlier(s, Run(s, calls), id)
    ensures Lookup(s, id).value.state.Failed? && Lookup(Run(s, calls), id).Some? ==>
        Lookup(Run(s, calls), id).value.state.Failed?
  {
    if calls != [] {
      NotPrepared(s, calls, id);
      hide Valid, Apply, Follows, NewIds, Lookup, Prepares, NoEarlier, Rank;
      var n := |calls| - 1;
      OnlyForward(s, calls[..n], id);
      LastCall(s, calls, id);
      hide Run;
      OneStepLater(s, Run(s, calls[..n]), Run(s, calls), calls[n].call, id);
    }
    StaysFailed(s, Run(s, calls), id);
  }

  /** Over every sequence of calls, events are only added: what was written stays, with its payload. */
  lemma {:induction false} EventsOnlyAdded(s: Service, calls: seq<Timed>, id: string)
    requires Valid(s) && NewIds(s, calls)
    ensures EventsOf(s) <= EventsOf(Run(s, calls))
    ensures ConfirmedId(id) in EventIds(EventsOf(s)) ==>
              (AddressId(id) in EventIds(EventsOf(Run(s, calls))) <==> AddressId(id) in EventIds(EventsOf(s)))
  {
    if calls != [] {
      hide Valid, Apply;
      var mid := Run(s, calls[..|calls| - 1]);
      EventsOnlyAdded(s, calls[..|calls| - 1], id);
      LastCall(s, calls, id);
      hide Run, EventIds;
      PrefixIds(EventsOf(s), EventsOf(mid));
    }
  }

  lemma PrefixIds(events: seq<Event>, more: seq<Event>)
    requires events <= more
    ensures EventIds(events) <= EventIds(more)
  {
    assert forall e | e in events :: e in more;
  }

  lemma OneUnderItsName(events: seq<Event>, e: Event, f: Event)
    requires Distinct(events) && e in events && f in events && NamedByKind(e) && NamedByKind(f)
    requires e.sessionId == f.sessionId && e.kind == f.kind && (e.kind.DebriefConfirmed? || e.kind.AddressDiscovered?)
    ensures e == f
  {
    hide ConfirmedId, AddressId;
  }

  /** After any sequence of calls a session has at most one confirmation and at most one address. */
  lemma OneOfEach(s: Service, calls: seq<Timed>, e: Event, f: Event)
    requires Valid(s) && NewIds(s, calls) && e in EventsOf(Run(s, calls)) && f in EventsOf(Run(s, calls))
    requires e.sessionId == f.sessionId && e.kind == f.kind && (e.kind.DebriefConfirmed? || e.kind.AddressDiscovered?)
    ensures e == f
  {
    OnlyKnownIds(s, calls, e.sessionId);
    hide Run, NamedByKind, Distinct, AllSettled, Lookup, Of, NewIds;
    OneUnderItsName(EventsOf(Run(s, calls)), e, f);
  }

  // ---- Confirming twice ----

  predicate Confirms(call: Call, id: string) {
    (call.ConfirmDebrief? || call.ConfirmDebriefDraft?) && call.sessionId == id
  }

  /** What the first confirmation of a draft records. */
  lemma ConfirmRecords(s: Service, x: Session, d: DraftRecord, now: string)
    requires s.store.Some? && Bound(x)
    requires ConfirmedId(x.sessionId) !in EventIds(s.store.value.events)
        && AddressId(x.sessionId) !in EventIds(s.store.value.events)
    ensures var ids := EventIds(EventsOf(ConfirmEvents(s, x, d, now)));
      && ConfirmEvents(s, x, d, now).store.Some?
      && ConfirmedId(x.sessionId) in ids
      && (AddressId(x.sessionId) in ids <==> Address(d.fields) != "")
  {
    ConfirmAppends(s, x, d, now);
    ConfirmAddedIds(x, d, now);
    IdsAppended(s.store.value.events, ConfirmAdded(x, d, now));
    IdsApart(x.sessionId, x.sessionId);
    hide ConfirmedId, AddressId, ConfirmEvents, ConfirmAdded, EventIds, Address;
  }

  /** Opening a draft for review touches drafts alone, and its facts are those saved. */
  lemma OpenedKeeps(s: Service, x: Session, at: Stamp)
    requires s.store.Some?
    ensures var (t, d) := Opened(s, x, at);
      && t.store.Some? && t == s.(store := Some(s.store.value.(drafts := t.store.value.drafts)))
      && d.fields == (if x.sessionId in s.store.value.drafts then s.store.value.drafts[x.sessionId].fields else map[])
      && Listed(t, x, DebriefConfirmed) == Listed(s, x, DebriefConfirmed)
      && Listed(t, x, AddressDiscovered) == Listed(s, x, AddressDiscovered)
  {
  }

  /** A successful draft confirmation shows exactly what is then recorded, and the confirmation is. */
  lemma DraftConfirmationShowsRecord(s: Service, x: Session, at: Stamp)
    requires Held(s, x) && Bound(x) && !ConfirmDraft(s, x, at).1.Rejected?
    ensures var (t, reply) := ConfirmDraft(s, x, at);
      && reply.Confirmation? && ConfirmedId(x.sessionId) in EventIds(EventsOf(t))
      && reply.confirmedEventId == RecordedId(t, x, DebriefConfirmed) == Some(ConfirmedId(x.sessionId))
      && reply.addressEventId == RecordedId(t, x, AddressDiscovered)
  {
    hide Valid, Settled, Listed, Opened, Drafted, EventIds, ConfirmEvents, ConfirmedId, AddressId;
    var (t, d) := Opened(s, x, at);
    OpenedKeeps(s, x, at);
    ListedIsRecorded(s, x, DebriefConfirmed);
    ListedIsRecorded(s, x, AddressDiscovered);
    if ConfirmedId(x.sessionId) !in EventIds(s.store.value.events) {
      NotYetAddressed(s, x);
      ConfirmRecords(t, x, d, at.now);
      hide Address;
    }
  }

  /** A session confirmed by its state alone is recorded too, without an address unless there was one. */
  lemma TransitionRecords(s: Service, x: Session, at: Stamp)
    requires Held(s, x) && Bound(x) && s.store.Some? && !Transition(s, x, Confirmed, at).1.Rejected?
    ensures ConfirmedId(x.sessionId) in EventIds(EventsOf(Transition(s, x, Confirmed, at).0))
  {
    HeldSettled(s, x);
    if !x.state.Confirmed? {
      var added := TransitionConfirms(s, x, at);
      hide Valid, Transition, Settled, Fits;
      HeldState(s, Transition(s, x, Confirmed, at).0, x, x.(state := Confirmed, updatedAt := at.now), added);
    }
  }

  lemma HeldState(s: Service, t: Service, x: Session, y: Session, added: seq<Event>)
    requires Held(s, x) && s.store.Some? && Good(s, t, x, y, added) && Bound(y) && y.state.Confirmed?
    ensures ConfirmedId(y.sessionId) in EventIds(EventsOf(t))
  {
  }

  /** The two ways of confirming a held session. */
  lemma ConfirmsIs(s: Service, first: Call, at: Stamp, id: string)
    requires Confirms(first, id) && id in s.sessions
    ensures Apply(s, first, at) ==
            if first.ConfirmDebrief? then Transition(s, s.sessions[id], Confirmed, at)
            else ConfirmDraft(s, s.sessions[id], at)
  {
    hide Transition, ConfirmDraft;
  }

  /** What the first confirmation, by either call, leaves recorded. */
  lemma FirstConfirmation(s: Service, first: Call, at: Stamp, id: string)
    requires Valid(s) && s.store.Some? && Confirms(first, id) && id in s.sessions && Bound(s.sessions[id])
    requires !Apply(s, first, at).1.Rejected?
    ensures var (t, reply) := Apply(s, first, at);
      && ConfirmedId(id) in EventIds(EventsOf(t))
      && (first.ConfirmDebriefDraft? ==>
            && reply.Confirmation?
            && reply.confirmedEventId == RecordedId(t, s.sessions[id], DebriefConfirmed)
            && reply.addressEventId == RecordedId(t, s.sessions[id], AddressDiscovered))
  {
    var x := s.sessions[id];
    assert Held(s, x);
    ConfirmsIs(s, first, at, id);
    hide Valid, Apply, Transition, ConfirmDraft, EventIds;
    if first.ConfirmDebrief? {
      TransitionRecords(s, x, at);
    } else {
      DraftConfirmationShowsRecord(s, x, at);
    }
  }

  /** The session is still the same customer's after any calls. */
  lemma StillThere(s: Service, first: Call, at: Stamp, calls: seq<Timed>, id: string)
    requires Valid(s) && s.store.Some? && Confirms(first, id) && id in s.sessions && Bound(s.sessions[id])
    requires NewIds(Apply(s, first, at).0, calls)
    ensures Valid(Apply(s, first, at).0)
    ensures var u := Run(Apply(s, first, at).0, calls);
      Valid(u) && u.store.Some? && Lookup(u, id).Some? && Bound(Lookup(u, id).value)
  {
    var t := Apply(s, first, at).0;
    ApplyKeeps(s, first, at, id);
    hide Apply, Valid, Run;
    OnlyForward(t, calls, id);
    OnlyKnownIds(t, calls, id);
  }

  /** Once confirmed, the address recorded stays as it was, whatever is called. */
  lemma AddressSettled(s: Service, calls: seq<Timed>, call: Call, at: Stamp, x: Session)
    requires Valid(s) && NewIds(s, calls) && Fresh(Run(s, calls), call)
        && ConfirmedId(x.sessionId) in EventIds(EventsOf(s))
    ensures RecordedId(Apply(Run(s, calls), call, at).0, x, AddressDiscovered) == RecordedId(s, x, AddressDiscovered)
  {
    EventsOnlyAdded(s, calls, x.sessionId);
    OnlyKnownIds(s, calls, x.sessionId);
    hide Apply, Valid, Run;
    PrefixIds(EventsOf(s), EventsOf(Run(s, calls)));
    ApplyKeeps(Run(s, calls), call, at, x.sessionId);
  }

  lemma NeedsSession(s: Service, call: Call, at: Stamp, id: string)
    requires Confirms(call, id) && !Apply(s, call, at).1.Rejected?
    ensures id in s.sessions
  {
  }

  /** A draft confirmation of a session already recorded shows that record. */
  lemma ConfirmsAgain(t: Service, calls: seq<Timed>, later: Stamp, x: Session)
    requires Valid(t) && NewIds(t, calls) && ConfirmedId(x.sessionId) in EventIds(EventsOf(t))
    requires var u := Run(t, calls);
        Valid(u) && u.store.Some? && Lookup(u, x.sessionId).Some?
        && Bound(Lookup(u, x.sessionId).value)
    requires !Apply(Run(t, calls), ConfirmDebriefDraft(x.sessionId), later).1.Rejected?
    ensures var again := Apply(Run(t, calls), ConfirmDebriefDraft(x.sessionId), later).1;
      && again.Confirmation? && again.confirmedEventId == Some(ConfirmedId(x.sessionId))
      && again.addressEventId == RecordedId(t, x, AddressDiscovered)
  {
    var u, call := Run(t, calls), ConfirmDebriefDraft(x.sessionId);
    NeedsSession(u, call, later, x.sessionId);
    assert u.sessions[x.sessionId].sessionId == x.sessionId;
    hide Valid, Apply, Run, EventIds;
    FirstConfirmation(u, call, later, x.sessionId);
    AddressSettled(t, calls, call, later, x);
  }

  /**
   * Whichever call confirmed a customer's session first, every later successful draft confirmation shows the
   * same two event ids: those recorded right after the first, which are also what the first one showed.
   */
  lemma SameIdsEver(s: Service, first: Call, at: Stamp, calls: seq<Timed>, later: Stamp, id: string)
    requires Valid(s) && s.store.Some? && Confirms(first, id) && id in s.sessions && Bound(s.sessions[id])
    requires !Apply(s, first, at).1.Rejected? && NewIds(Apply(s, first, at).0, calls)
    requires !Apply(Run(Apply(s, first, at).0, calls), ConfirmDebriefDraft(id), later).1.Rejected?
    ensures var (t, shown) := Apply(s, first, at);
      var again := Apply(Run(t, calls), ConfirmDebriefDraft(id), later).1;
      && again.Confirmation? && again.confirmedEventId == Some(ConfirmedId(id))
      && again.addressEventId == RecordedId(t, s.sessions[id], AddressDiscovered)
      && (first.ConfirmDebriefDraft? ==>
            shown.Confirmation? && again.confirmedEventId == shown.confirmedEventId
                && again.addressEventId == shown.addressEventId)
  {
    var x := s.sessions[id];
    assert x.sessionId == id;
    hide Valid, Apply, Run, EventIds, NewIds, Lookup;
    FirstConfirmation(s, first, at, id);
    StillThere(s, first, at, calls, id);
    ConfirmsAgain(Apply(s, first, at).0, calls, later, x);
  }

  /** Confirming by state alone appends at most the confirmation itself. */
  lemma TransitionAppends(s: Service, x: Session, at: Stamp)
    requires s.store.Some? && Bound(x) && ConfirmedId(x.sessionId) !in EventIds(s.store.value.events)
    ensures var events := EventsOf(Transition(s, x, Confirmed, at).0);
      || events == EventsOf(s)
      || events == EventsOf(s) + [EventFor(x, DebriefConfirmed, map["outcome" := Text("confirmed")], at.now)]
  {
    var y := x.(state := Confirmed, updatedAt := at.now);
    hide ConfirmedId, EventIds;
    AppendFresh(Persist(s, y), y, DebriefConfirmed, map["outcome" := Text("confirmed")], at.now);
  }

  /** Confirming by state alone records no address. */
  lemma TransitionAddsNoAddress(s: Service, x: Session, at: Stamp)
    requires Held(s, x) && Bound(x) && s.store.Some? && ConfirmedId(x.sessionId) !in EventIds(s.store.value.events)
    ensures AddressId(x.sessionId) !in EventIds(EventsOf(Transition(s, x, Confirmed, at).0))
  {
    var e := EventFor(x, DebriefConfirmed, map["outcome" := Text("confirmed")], at.now);
    assert EventIds([e]) == {ConfirmedId(x.sessionId)};
    hide Valid, Settled, Transition, EventIds, ConfirmedId, AddressId;
    TransitionAppends(s, x, at);
    NotYetAddressed(s, x);
    IdsAppended(s.store.value.events, [e]);
    IdsApart(x.sessionId, x.sessionId);
  }

  predicate DraftHasAddress(s: Service, id: string) {
    s.store.Some? && id in s.store.value.drafts && Address(s.store.value.drafts[id].fields) != ""
  }

  /** Confirming a draft for the first time records an address exactly if the draft has one. */
  lemma DraftAddsItsAddress(s: Service, x: Session, at: Stamp)
    requires Held(s, x) && Bound(x) && s.store.Some? && ConfirmedId(x.sessionId) !in EventIds(s.store.value.events)
    requires !ConfirmDraft(s, x, at).1.Rejected?
    ensures AddressId(x.sessionId) in EventIds(EventsOf(ConfirmDraft(s, x, at).0)) <==> DraftHasAddress(s, x.sessionId)
  {
    hide Valid, Settled, Listed, Opened, Drafted, EventIds, ConfirmEvents, ConfirmedId, AddressId;
    var (t, d) := Opened(s, x, at);
    OpenedKeeps(s, x, at);
    ListedIsRecorded(s, x, DebriefConfirmed);
    NotYetAddressed(s, x);
    ConfirmRecords(t, x, d, at.now);
  }

  /**
   * The address every later confirmation shows: the session not having been recorded before, there is one
   * exactly if the first confirmation was of a draft and that draft had discovered an address.
   */
  lemma AddressShownExactly(s: Service, first: Call, at: Stamp, calls: seq<Timed>, later: Stamp, id: string)
    requires Valid(s) && s.store.Some? && Confirms(first, id) && id in s.sessions && Bound(s.sessions[id])
    requires ConfirmedId(id) !in EventIds(EventsOf(s))
    requires !Apply(s, first, at).1.Rejected? && NewIds(Apply(s, first, at).0, calls)
    requires !Apply(Run(Apply(s, first, at).0, calls), ConfirmDebriefDraft(id), later).1.Rejected?
    ensures var again := Apply(Run(Apply(s, first, at).0, calls), ConfirmDebriefDraft(id), later).1;
      && again.Confirmation?
      && again.addressEventId ==
           if first.ConfirmDebriefDraft? && DraftHasAddress(s, id) then Some(AddressId(id)) else None
  {
    var x := s.sessions[id];
    assert x.sessionId == id && Held(s, x);
    ConfirmsIs(s, first, at, id);
    hide Valid, Run, EventIds, NewIds, ConfirmDraft, Transition, DraftHasAddress, Lookup, Recorded, Apply;
    SameIdsEver(s, first, at, calls, later, id);
    if first.ConfirmDebrief? {
      TransitionAddsNoAddress(s, x, at);
    } else {
      DraftAddsItsAddress(s, x, at);
    }
  }

  // ---- What reviews show ----

  lemma ReviewShowsRecord(s: Service, x: Session, at: Stamp)
    requires Held(s, x) && !Review(s, x, at).1.Rejected?
    ensures var (t, reply) := Review(s, x, at);
      && reply.Confirmation? && reply.session == x
      && reply.confirmedEventId == RecordedId(t, x, DebriefConfirmed)
      && reply.addressEventId == RecordedId(t, x, AddressDiscovered)
  {
    var t := Review(s, x, at).0;
    ListedIsRecorded(s, x, DebriefConfirmed);
    ListedIsRecorded(s, x, AddressDiscovered);
    assert t.store.value.events == s.store.value.events;
  }

  // ---- Drafts ----

  /** A draft keeps its id, and no fact's key is ever lost. */
  predicate DraftKept(s: Service, t: Service, id: string) {
    s.store.Some? ==>
      && t.store.Some?
      && (id in s.store.value.drafts ==>
            && id in t.store.value.drafts
            && t.store.value.drafts[id].draftId == s.store.value.drafts[id].draftId
            && s.store.value.drafts[id].fields.Keys <= t.store.value.drafts[id].fields.Keys)
  }

  lemma WriteKeepsDraft(s: Service, x: Session, fields: Fields, status: DraftStatus, at: Stamp, id: string)
    requires s.store.Some?
    ensures DraftKept(s, WithDraft(s, Drafted(s, x, fields, status, at)), id)
  {
  }

  lemma TransitionKeepsDraft(s: Service, x: Session, to: State, at: Stamp, id: string)
    ensures DraftKept(s, Transition(s, x, to, at).0, id)
  {
    hide InsertOrIgnore, ConfirmedId;
  }

  lemma ConfirmEventsKeepsDrafts(s: Service, x: Session, d: DraftRecord, now: string)
    requires s.store.Some?
    ensures var t := ConfirmEvents(s, x, d, now); t.store.Some? && t.store.value.drafts == s.store.value.drafts
  {
    hide InsertOrIgnore, ConfirmedPayload, AddressPayload, ConfirmedId, AddressId, Address;
  }

  lemma ConfirmKeepsDraft(s: Service, x: Session, at: Stamp, id: string)
    ensures DraftKept(s, ConfirmDraft(s, x, at).0, id)
  {
    if Reviewable(x.state) && s.store.Some? {
      WriteKeepsDraft(s, x, map[], Draft, at, id);
      var (t, d) := Opened(s, x, at);
      assert DraftKept(s, t, id);
      hide ConfirmEvents, Listed, Opened, Drafted, Address;
      var u := ConfirmEvents(t, x, d, at.now);
      ConfirmEventsKeepsDrafts(t, x, d, at.now);
      WriteKeepsDraft(u, x, d.fields, ConfirmedDraft, at, id);
    }
  }

  lemma SessionKeepsDrafts(s: Service, x: Session, call: Call, at: Stamp, id: string)
    ensures DraftKept(s, OnSession(s, x, call, at).0, id)
  {
    hide Drafted, ConfirmDraft, Transition, Listed, InsertOrIgnore;
    match call
    case MarkCalling(_) => TransitionKeepsDraft(s, x, Calling, at, id);
    case AwaitConfirmation(_) => TransitionKeepsDraft(s, x, AwaitingConfirmation, at, id);
    case MarkPartial(_) => TransitionKeepsDraft(s, x, Partial, at, id);
    case ConfirmDebrief(_) => TransitionKeepsDraft(s, x, Confirmed, at, id);
    case EndCallAfterInterruption(_, error) => TransitionKeepsDraft(s, x.(error := Some(error)),
        AwaitingConfirmation, at, id);
    case GetDebriefForConfirmation(_) =>
      if s.store.Some? {
        WriteKeepsDraft(s, x, map[], Draft, at, id);
      }
    case UpdateDebriefDraft(_, update) =>
      if s.store.Some? {
        WriteKeepsDraft(s, x, Filled(update), if x.state.Partial? then PartialDraft else Draft, at, id);
      }
    case ConfirmDebriefDraft(_) => ConfirmKeepsDraft(s, x, at, id);
    case SaveDraft(_, fields, status) =>
      if s.store.Some? {
        WriteKeepsDraft(s, x, fields, status, at, id);
      }
    case RecordCallCompleted(_, callId, reason, occurredAt, _) =>
      if s.store.Some? {
        WriteKeepsDraft(s, x, CompletionFields(callId, reason, occurredAt), Draft, at, id);
      }
    case _ =>
  }

  lemma CallKeepsDrafts(s: Service, call: Call, at: Stamp, id: string)
    ensures DraftKept(s, Apply(s, call, at).0, id)
  {
    hide OnSession, InsertOrIgnore;
    if !call.ClearSessions? && call.sessionId in s.sessions {
      SessionKeepsDrafts(s, s.sessions[call.sessionId], call, at, id);
    }
  }

  /** Over every sequence of calls a draft keeps its id and every fact's key: facts are overwritten, never dropped. */
  lemma {:induction false} DraftsOnlyGrow(s: Service, calls: seq<Timed>, id: string)
    ensures DraftKept(s, Run(s, calls), id)
  {
    if calls != [] {
      hide Apply;
      var last := calls[|calls| - 1];
      DraftsOnlyGrow(s, calls[..|calls| - 1], id);
      CallKeepsDrafts(Run(s, calls[..|calls| - 1]), last.call, last.at, id);
    }
  }

  // ---- What a confirmation records, for ever ----

  /** The facts saved for a session. */
  function Facts(s: Service, id: string): Fields {
    if s.store.Some? && id in s.store.value.drafts then s.store.value.drafts[id].fields else map[]
  }

  /** The event's outcome is the one captured, or "confirmed" for want of one, and every other fact is there. */
  predicate Records(payload: Fields, facts: Fields) {
    && "outcome" in payload
    && payload["outcome"] == (if "outcome" in facts then facts["outcome"] else Text("confirmed"))
    && (forall key | key in facts && key != "status" && key != "draft_id" ::
          key in payload && payload[key] == facts[key])
  }

  predicate Recording(events: seq<Event>, id: string, facts: Fields) {
    exists e :: e in events && e.eventId == ConfirmedId(id) && e.kind.DebriefConfirmed? && Records(e.payload, facts)
  }

  lemma ConfirmationKeepsFacts(d: DraftRecord)
    ensures Records(ConfirmedPayload(d), d.fields)
  {
    assert "outcome"[0] == 'o' && "status"[0] == 's' && "draft_id"[0] == 'd';
  }

  /** Confirming a draft for the first time records its facts. */
  lemma DraftRecordsFacts(s: Service, x: Session, at: Stamp)
    requires Held(s, x) && Bound(x) && s.store.Some? && ConfirmedId(x.sessionId) !in EventIds(s.store.value.events)
    requires !ConfirmDraft(s, x, at).1.Rejected?
    ensures Recording(EventsOf(ConfirmDraft(s, x, at).0), x.sessionId, Facts(s, x.sessionId))
  {
    hide Valid, Settled, Listed, Opened, Drafted, EventIds, ConfirmEvents, ConfirmedId, AddressId, Records;
    var (t, d) := Opened(s, x, at);
    OpenedKeeps(s, x, at);
    ListedIsRecorded(s, x, DebriefConfirmed);
    NotYetAddressed(s, x);
    ConfirmAppends(t, x, d, at.now);
    ConfirmationKeepsFacts(d);
    hide ConfirmedPayload, AddressPayload, Address;
    var e := EventFor(x, DebriefConfirmed, ConfirmedPayload(d), at.now);
    assert e in ConfirmAdded(x, d, at.now);
    assert e in EventsOf(ConfirmDraft(s, x, at).0);
  }

  lemma PrefixRecording(events: seq<Event>, more: seq<Event>, id: string, facts: Fields)
    requires events <= more && Recording(events, id, facts)
    ensures Recording(more, id, facts)
  {
    hide Records, ConfirmedId;
  }

  /**
   * The first confirmation of a draft records the facts saved until then, outcome included, and whatever is
   * called later they stay recorded in that one event.
   */
  lemma FactsRecordedEver(s: Service, at: Stamp, calls: seq<Timed>, id: string)
    requires Valid(s) && s.store.Some? && id in s.sessions && Bound(s.sessions[id])
    requires ConfirmedId(id) !in EventIds(EventsOf(s)) && !Apply(s, ConfirmDebriefDraft(id), at).1.Rejected?
    requires NewIds(Apply(s, ConfirmDebriefDraft(id), at).0, calls)
    ensures Recording(EventsOf(Run(Apply(s, ConfirmDebriefDraft(id), at).0, calls)), id, Facts(s, id))
  {
    var x, call := s.sessions[id], ConfirmDebriefDraft(id);
    assert x.sessionId == id && Held(s, x);
    ConfirmsIs(s, call, at, id);
    hide Valid, Run, EventIds, NewIds, Lookup, Apply, ConfirmDraft, ConfirmedId, AddressId;
    DraftRecordsFacts(s, x, at);
    ApplyKeeps(s, call, at, id);
    var t := Apply(s, call, at).0;
    EventsOnlyAdded(t, calls, id);
    hide Recording, Follows;
    PrefixRecording(EventsOf(t), EventsOf(Run(t, calls)), id, Facts(s, id));
  }

  /** An interrupted call with saved facts leaves its session in review, and the drafts and events as they are. */
  lemma InterruptedCallStaysReviewable(s: Service, id: string, error: string, at: Stamp)
    requires Valid(s) && id in s.sessions && s.sessions[id].state.Calling? && Facts(s, id) != map[]
    ensures var t := Apply(s, EndCallAfterInterruption(id, error), at).0;
      && t.store.Some? && t.store.value.drafts == s.store.value.drafts && EventsOf(t) == EventsOf(s)
      && id in t.sessions && t.sessions[id].sessionId == id && t.sessions[id].state.AwaitingConfirmation?
      && t.sessions[id].customerId == s.sessions[id].customerId
  {
    hide Recorded;
    assert s.sessions[id].sessionId == id;
  }

  /**
   * What a call saved before it broke off is not lost: its session can be confirmed, and the confirmation
   * records those facts whatever is called later.
   */
  lemma InterruptedFactsRecorded(s: Service, id: string, error: string, at: Stamp, later: Stamp, calls: seq<Timed>)
    requires Valid(s) && id in s.sessions && Bound(s.sessions[id])
    requires s.sessions[id].state.Calling? && Facts(s, id) != map[]
    ensures var t := Apply(s, EndCallAfterInterruption(id, error), at).0;
      var (u, reply) := Apply(t, ConfirmDebriefDraft(id), later);
      && !reply.Rejected?
      && (NewIds(u, calls) ==> Recording(EventsOf(Run(u, calls)), id, Facts(s, id)))
  {
    var end, confirm := EndCallAfterInterruption(id, error), ConfirmDebriefDraft(id);
    InterruptedCallStaysReviewable(s, id, error, at);
    var t := Apply(s, end, at).0;
    assert Settled(EventsOf(s), s.sessions[id]) && s.sessions[id].sessionId == id;
    ApplyKeeps(s, end, at, id);
    ConfirmsIs(t, confirm, later, id);
    hide Valid, Apply, Run, NewIds, EventIds, ConfirmedId, Follows, Recording, Lookup;
    ConfirmAccepted(t, t.sessions[id], later);
    if NewIds(Apply(t, confirm, later).0, calls) {
      FactsRecordedEver(t, later, calls, id);
    }
  }

  lemma ConfirmAccepted(s: Service, x: Session, at: Stamp)
    requires s.store.Some? && Reviewable(x.state)
    ensures !ConfirmDraft(s, x, at).1.Rejected?
  {
  }

  predicate Spaces(s: string) {
    forall i | 0 <= i < |s| :: IsSpace(s[i])
  }

  lemma {:induction false} TrimStartCuts(s: string) returns (cut: string)
    ensures s == cut + TrimStart(s) && Spaces(cut)
    ensures TrimStart(s) != "" ==> !IsSpace(TrimStart(s)[0])
  {
    if s != "" && IsSpace(s[0]) {
      var rest := TrimStartCuts(s[1..]);
      cut := [s[0]] + rest;
      assert s == [s[0]] + s[1..];
    } else {
      cut := "";
    }
  }

  lemma {:induction false} TrimEndCuts(s: string) returns (cut: string)
    ensures s == TrimEnd(s) + cut && Spaces(cut)
    ensures TrimEnd(s) != "" ==> !IsSpace(TrimEnd(s)[|TrimEnd(s)| - 1]) && s != "" && TrimEnd(s)[0] == s[0]
  {
    if s != "" && IsSpace(s[|s| - 1]) {
      var rest := TrimEndCuts(s[..|s| - 1]);
      cut := rest + [s[|s| - 1]];
      assert s == s[..|s| - 1] + [s[|s| - 1]];
    } else {
      cut := "";
    }
  }

  /** Trimming cuts white space at both ends and nothing else. */
  lemma TrimCuts(s: string) returns (front: string, back: string)
    ensures s == front + Trim(s) + back && Spaces(front) && Spaces(back)
    ensures Trim(s) != "" ==> !IsSpace(Trim(s)[0]) && !IsSpace(Trim(s)[|Trim(s)| - 1])
  {
    front := TrimStartCuts(s);
    back := TrimEndCuts(TrimStart(s));
  }
}
