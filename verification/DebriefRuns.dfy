/** What every sequence of debrief service calls keeps. */
module DebriefRuns {
  import opened Base
  import opened DebriefSession

  // ---- What is kept ----

  predicate NamedByKind(e: Event) {
    match e.kind
    case DebriefConfirmed => e.eventId == ConfirmedId(e.sessionId)
    case AddressDiscovered => e.eventId == AddressId(e.sessionId)
    case _ => "event-" <= e.eventId
  }

  predicate Of(e: Event, x: Session) {
    e.sessionId == x.sessionId && Bound(x) && e.customerId == x.customerId.value
  }

  /** A session and what the events say of it. */
  predicate Settled(events: seq<Event>, x: Session) {
    var ids := EventIds(events);
    && (ConfirmedId(x.sessionId) in ids ==> x.state.Confirmed? || x.state.Failed?)
    && (x.state.Confirmed? && Bound(x) ==> ConfirmedId(x.sessionId) in ids)
    && (AddressId(x.sessionId) in ids ==> ConfirmedId(x.sessionId) in ids)
  }

  ghost predicate Distinct(events: seq<Event>) {
    forall i, j | 0 <= i < j < |events| :: events[i].eventId != events[j].eventId
  }

  /** Every event belongs to a stored session and its customer, under the id its kind prescribes. */
  ghost predicate Owned(events: seq<Event>, sessions: map<string, Session>) {
    forall e | e in events :: NamedByKind(e) && e.sessionId in sessions && Of(e, sessions[e.sessionId])
  }

  ghost predicate AllSettled(events: seq<Event>, sessions: map<string, Session>) {
    forall id | id in sessions :: sessions[id].sessionId == id && Settled(events, sessions[id])
  }

  ghost predicate Recorded(store: Store) {
    Distinct(store.events) && Owned(store.events, store.sessions) && AllSettled(store.events, store.sessions)
  }

  /** Memory and storage hold the same sessions. */
  ghost predicate WrittenThrough(s: Service) {
    s.store.Some? ==>
      forall id | id in s.sessions :: id in s.store.value.sessions && s.store.value.sessions[id] == s.sessions[id]
  }

  ghost predicate Valid(s: Service) {
    && (forall id | id in s.sessions :: s.sessions[id].sessionId == id)
    && WrittenThrough(s)
    && (s.store.Some? ==> Recorded(s.store.value))
  }

  /** How far a session has come. */
  function Rank(state: State): nat {
    match state
    case Prepared => 0
    case Calling => 1
    case AwaitingConfirmation => 2
    case Partial => 3
    case Confirmed => 4
    case Failed => 5
  }

  /** One call's change of state. */
  predicate Moves(from: State, to: State) {
    from == to || to.Failed? || Rank(to) == Rank(from) + 1 || (from.AwaitingConfirmation? && to.Confirmed?)
  }

  function EventsOf(s: Service): seq<Event> {
    if s.store.Some? then s.store.value.events else []
  }

  // ---- One session changes ----

  /** Only session `y` changed, written through, and `added` was appended. */
  predicate Touches(s: Service, t: Service, y: Session, added: seq<Event>) {
    && t.sessions == s.sessions[y.sessionId := y]
    && (s.store.None? <==> t.store.None?)
    && (s.store.None? ==> added == [])
    && (s.store.Some? ==>
          && t.store.value.sessions == s.store.value.sessions[y.sessionId := y]
          && t.store.value.events == s.store.value.events + added)
  }

  /** The new events are the session's own, under new ids. */
  ghost predicate Fits(events: seq<Event>, y: Session, added: seq<Event>) {
    && Distinct(events + added)
    && forall e | e in added :: NamedByKind(e) && Of(e, y)
  }

  /** A session keeps its customer, only moves forward, and once confirmed gets no more of the two events. */
  predicate Advances(events: seq<Event>, x: Session, y: Session, added: seq<Event>) {
    && y.sessionId == x.sessionId && y.customerId == x.customerId
    && Moves(x.state, y.state)
    && (ConfirmedId(x.sessionId) in EventIds(events) ==>
          forall e | e in added :: !e.kind.DebriefConfirmed? && !e.kind.AddressDiscovered?)
  }

  lemma IdsApart(a: string, b: string)
    ensures ConfirmedId(a) == ConfirmedId(b) ==> a == b
    ensures AddressId(a) == AddressId(b) ==> a == b
    ensures ConfirmedId(a) != AddressId(b)
    ensures !("event-" <= ConfirmedId(a)) && !("event-" <= AddressId(a))
  {
    assert ConfirmedId(a)[0] == 'd' && AddressId(b)[0] == 'a' && AddressId(a)[0] == 'a';
    assert ConfirmedId(a)[|"debrief-confirmed-"|..] == a && ConfirmedId(b)[|"debrief-confirmed-"|..] == b;
    assert AddressId(a)[|"address-discovered-"|..] == a && AddressId(b)[|"address-discovered-"|..] == b;
  }

  lemma IdsAppended(events: seq<Event>, added: seq<Event>)
    ensures EventIds(events + added) == EventIds(events) + EventIds(added)
  {
    forall id | id in EventIds(events) + EventIds(added) ensures id in EventIds(events + added) {
      if id in EventIds(events) {
        var e :| e in events && e.eventId == id;
        assert e in events + added;
      } else {
        var e :| e in added && e.eventId == id;
        assert e in events + added;
      }
    }
  }

  /** Events of one session leave every other session settled. */
  lemma OthersSettled(events: seq<Event>, y: Session, added: seq<Event>, z: Session)
    requires forall e | e in added :: NamedByKind(e) && e.sessionId == y.sessionId
    requires Settled(events, z) && z.sessionId != y.sessionId
    ensures Settled(events + added, z)
  {
    IdsAppended(events, added);
    forall e | e in added ensures e.eventId != ConfirmedId(z.sessionId) && e.eventId != AddressId(z.sessionId) {
      IdsApart(z.sessionId, y.sessionId);
      IdsApart(y.sessionId, z.sessionId);
    }
  }

  lemma OwnedKept(events: seq<Event>, sessions: map<string, Session>, y: Session, added: seq<Event>)
    requires Owned(events, sessions) && Fits(events, y, added)
    requires y.sessionId in sessions ==> y.customerId == sessions[y.sessionId].customerId
    ensures Owned(events + added, sessions[y.sessionId := y])
  {
    hide NamedByKind;
    forall e | e in events + added ensures NamedByKind(e) && Of(e, sessions[y.sessionId := y][e.sessionId]) {
      assert e in events || e in added;
    }
  }

  lemma SettledKept(events: seq<Event>, sessions: map<string, Session>, y: Session, added: seq<Event>)
    requires AllSettled(events, sessions) && Fits(events, y, added) && Settled(events + added, y)
    ensures AllSettled(events + added, sessions[y.sessionId := y])
  {
    hide Settled, NamedByKind;
    forall id | id in sessions && id != y.sessionId ensures Settled(events + added, sessions[id]) {
      OthersSettled(events, y, added, sessions[id]);
    }
  }

  /** A change of one session that fits keeps everything. */
  lemma TouchKeeps(s: Service, t: Service, y: Session, added: seq<Event>)
    requires Valid(s) && Touches(s, t, y, added)
    requires s.store.Some? ==>
               && (y.sessionId in s.store.value.sessions ==>
                   y.customerId == s.store.value.sessions[y.sessionId].customerId)
               && Fits(s.store.value.events, y, added) && Settled(s.store.value.events + added, y)
    ensures Valid(t)
  {
    hide NamedByKind, EventIds, Settled, Of;
    if s.store.Some? {
      OwnedKept(s.store.value.events, s.store.value.sessions, y, added);
      SettledKept(s.store.value.events, s.store.value.sessions, y, added);
      hide Owned, AllSettled;
    }
  }

  // ---- Each call ----

  /** `x` is the session a call looked up. */
  ghost predicate Held(s: Service, x: Session) {
    Valid(s) && x.sessionId in s.sessions && s.sessions[x.sessionId] == x
  }

  /** What one call does to its session. */
  ghost predicate Good(s: Service, t: Service, x: Session, y: Session, added: seq<Event>) {
    && Touches(s, t, y, added) && Advances(EventsOf(s), x, y, added)
    && (s.store.Some? ==> Fits(s.store.value.events, y, added) && Settled(s.store.value.events + added, y))
  }

  /** Nothing but drafts may differ. */
  lemma StaysPut(s: Service, t: Service, x: Session)
    requires Held(s, x) && t.sessions == s.sessions && (s.store.None? <==> t.store.None?)
    requires s.store.Some? ==>
        t.store.value.sessions == s.store.value.sessions
        && t.store.value.events == s.store.value.events
    ensures Good(s, t, x, x, [])
  {
    hide Settled;
    assert t.sessions == s.sessions[x.sessionId := x];
    assert EventsOf(s) + [] == EventsOf(s);
  }

  /** A session held in memory is settled with respect to its events. */
  lemma HeldSettled(s: Service, x: Session)
    requires Held(s, x) && s.store.Some?
    ensures Settled(s.store.value.events, x) && Distinct(s.store.value.events)
    ensures x.sessionId in s.store.value.sessions && s.store.value.sessions[x.sessionId] == x
  {
  }

  lemma StillSettled(events: seq<Event>, x: Session, y: Session)
    requires Settled(events, x) && y.sessionId == x.sessionId && y.customerId == x.customerId && Moves(x.state, y.state)
    requires y.state.Confirmed? ==> x.state.Confirmed?
    ensures Settled(events, y) && Settled(events + [], y)
  {
    assert events + [] == events;
  }

  /** An event that is neither of the two kinds settles nothing and unsettles nothing. */
  lemma PlainFits(events: seq<Event>, y: Session, e: Event)
    requires Distinct(events) && Settled(events, y) && NamedByKind(e) && Of(e, y) && e.eventId !in EventIds(events)
    requires !e.kind.DebriefConfirmed? && !e.kind.AddressDiscovered?
    ensures Fits(events, y, [e]) && Settled(events + [e], y)
  {
    IdsAppended(events, [e]);
    IdsApart(y.sessionId, y.sessionId);
    assert forall f | f in events :: f.eventId in EventIds(events);
  }

  /** A persisted change, which confirms nothing. */
  lemma PersistGood(s: Service, x: Session, y: Session)
    requires Held(s, x)
    requires y.sessionId == x.sessionId && y.customerId == x.customerId && Moves(x.state, y.state)
    requires y.state.Confirmed? && s.store.Some? ==> x.state.Confirmed?
    ensures Good(s, Persist(s, y), x, y, [])
  {
    if s.store.Some? {
      HeldSettled(s, x);
      StillSettled(s.store.value.events, x, y);
      assert s.store.value.events + [] == s.store.value.events;
    }
    hide Settled, Valid;
  }

  /** The one event a call appends, unless the session has no customer, there is no store, or the id is taken. */
  function Appended(s: Service, y: Session, kind: EventType, payload: Fields, id: string, now: string): seq<Event> {
    if Bound(y) && s.store.Some? && GeneratedId(id) !in EventIds(s.store.value.events) then
      [Event(GeneratedId(id), y.customerId.value, y.sessionId, kind, now, payload)]
    else []
  }

  lemma AppendFits(events: seq<Event>, x: Session, y: Session, kind: EventType, payload: Fields, id: string,
                   now: string)
    requires Distinct(events) && Settled(events, x) && Bound(y) && GeneratedId(id) !in EventIds(events)
    requires y.sessionId == x.sessionId && y.customerId == x.customerId && Moves(x.state, y.state)
    requires y.state.Confirmed? ==> x.state.Confirmed?
    requires !kind.DebriefConfirmed? && !kind.AddressDiscovered?
    ensures var e := Event(GeneratedId(id), y.customerId.value, y.sessionId, kind, now, payload);
      NamedByKind(e) && Fits(events, y, [e]) && Settled(events + [e], y)
  {
    StillSettled(events, x, y);
    PlainFits(events, y, Event(GeneratedId(id), y.customerId.value, y.sessionId, kind, now, payload));
    hide Settled, Fits, EventIds;
  }

  /** The same, followed by an event that is neither of the two kinds and may be there already. */
  lemma PersistAppendGood(s: Service, x: Session, y: Session, kind: EventType, payload: Fields, id: string, now: string)
    requires Held(s, x)
    requires y.sessionId == x.sessionId && y.customerId == x.customerId && Moves(x.state, y.state)
    requires y.state.Confirmed? ==> x.state.Confirmed?
    requires !kind.DebriefConfirmed? && !kind.AddressDiscovered?
    ensures Good(s, AppendEvent(Persist(s, y), y, kind, payload, GeneratedId(id), now), x, y,
                 Appended(s, y, kind, payload, id, now))
  {
    PersistGood(s, x, y);
    if Bound(y) && s.store.Some? {
      HeldSettled(s, x);
      var events := s.store.value.events;
      assert events + [] == events;
      hide Settled, Valid, NamedByKind, GeneratedId, ConfirmedId, Of, EventIds, Fits;
      if GeneratedId(id) !in EventIds(events) {
        AppendFits(events, x, y, kind, payload, id, now);
      }
    }
  }

  // ---- Confirming ----

  function IdFor(kind: EventType, sessionId: string): string {
    if kind.DebriefConfirmed? then ConfirmedId(sessionId) else AddressId(sessionId)
  }

  /** Looking the event up by kind is looking it up by its id, so there is at most one and no order matters. */
  lemma {:induction false} FindById(events: seq<Event>, x: Session, kind: EventType)
    requires Bound(x) && (kind.DebriefConfirmed? || kind.AddressDiscovered?)
    requires forall e | e in events :: NamedByKind(e) && (e.sessionId == x.sessionId ==> Of(e, x))
    ensures Find(events, x.customerId.value, x.sessionId, kind) ==
            if IdFor(kind, x.sessionId) in EventIds(events) then Some(IdFor(kind, x.sessionId)) else None
  {
    if events != [] {
      var n := |events| - 1;
      var last := events[n];
      FindById(events[..n], x, kind);
      assert events == events[..n] + [last];
      IdsAppended(events[..n], [last]);
      IdsApart(x.sessionId, last.sessionId);
      IdsApart(last.sessionId, x.sessionId);
    }
  }

  /** What the confirmation view shows is what is recorded. */
  function RecordedId(s: Service, x: Session, kind: EventType): Option<string> {
    if IdFor(kind, x.sessionId) in EventIds(EventsOf(s)) then Some(IdFor(kind, x.sessionId)) else None
  }

  /** Only a session with a customer has events. */
  lemma UnboundHasNone(s: Service, x: Session)
    requires Valid(s) && s.store.Some? && x.sessionId in s.store.value.sessions
        && s.store.value.sessions[x.sessionId] == x && !Bound(x)
    ensures ConfirmedId(x.sessionId) !in EventIds(s.store.value.events)
    ensures AddressId(x.sessionId) !in EventIds(s.store.value.events)
  {
    forall e | e in s.store.value.events ensures e.eventId != ConfirmedId(x.sessionId)
        && e.eventId != AddressId(x.sessionId) {
      IdsApart(x.sessionId, e.sessionId);
      IdsApart(e.sessionId, x.sessionId);
    }
  }

  lemma ListedIsRecorded(s: Service, x: Session, kind: EventType)
    requires Valid(s) && s.store.Some? && x.sessionId in s.sessions && s.sessions[x.sessionId] == x
    requires kind.DebriefConfirmed? || kind.AddressDiscovered?
    ensures Listed(s, x, kind) == RecordedId(s, x, kind)
  {
    HeldSettled(s, x);
    hide Settled, NamedByKind;
    if Bound(x) {
      FindById(s.store.value.events, x, kind);
    } else {
      UnboundHasNone(s, x);
    }
  }

  function EventFor(x: Session, kind: EventType, payload: Fields, now: string): Event
    requires Bound(x)
  {
    Event(IdFor(kind, x.sessionId), x.customerId.value, x.sessionId, kind, now, payload)
  }

  function ConfirmAdded(x: Session, d: DraftRecord, now: string): seq<Event>
    requires Bound(x)
  {
    if Address(d.fields) == "" then [EventFor(x, DebriefConfirmed, ConfirmedPayload(d), now)]
    else [EventFor(x, AddressDiscovered, AddressPayload(d), now), EventFor(x, DebriefConfirmed, ConfirmedPayload(d),
        now)]
  }

  lemma ConfirmAppends(s: Service, x: Session, d: DraftRecord, now: string)
    requires s.store.Some? && Bound(x)
    requires ConfirmedId(x.sessionId) !in EventIds(s.store.value.events)
        && AddressId(x.sessionId) !in EventIds(s.store.value.events)
    ensures ConfirmEvents(s, x, d, now) == s.(store := Some(s.store.value.(events :=
        s.store.value.events + ConfirmAdded(x, d, now))))
  {
    hide Address, ConfirmedPayload, AddressPayload, ConfirmedId, AddressId;
    var events := s.store.value.events;
    if Address(d.fields) != "" {
      var a, c := EventFor(x, AddressDiscovered, AddressPayload(d), now), EventFor(x, DebriefConfirmed,
          ConfirmedPayload(d), now);
      IdsAppended(events, [a]);
      IdsApart(x.sessionId, x.sessionId);
      assert EventIds([a]) == {AddressId(x.sessionId)};
      assert (events + [a]) + [c] == events + [a, c];
    }
  }

  /** The appended events name the session's confirmation, and its address exactly if the draft has one. */
  lemma ConfirmAddedIds(x: Session, d: DraftRecord, now: string)
    requires Bound(x)
    ensures EventIds(ConfirmAdded(x, d, now)) ==
            {ConfirmedId(x.sessionId)} + if Address(d.fields) == "" then {} else {AddressId(x.sessionId)}
    ensures forall e | e in ConfirmAdded(x, d, now) :: NamedByKind(e) && Of(e, x)
  {
    hide Address, ConfirmedPayload, AddressPayload, ConfirmedId, AddressId;
    var c := EventFor(x, DebriefConfirmed, ConfirmedPayload(d), now);
    if Address(d.fields) == "" {
      assert EventIds([c]) == {c.eventId};
    } else {
      var a := EventFor(x, AddressDiscovered, AddressPayload(d), now);
      assert a in [a, c] && c in [a, c];
      assert EventIds([a, c]) == {a.eventId, c.eventId};
    }
  }

  /** Confirming events fit, when neither of the two ids is taken. */
  lemma ConfirmingFits(events: seq<Event>, y: Session, added: seq<Event>)
    requires Distinct(events) && Distinct(added) && y.state.Confirmed?
    requires ConfirmedId(y.sessionId) !in EventIds(events) && AddressId(y.sessionId) !in EventIds(events)
    requires forall e | e in added ::
        NamedByKind(e) && Of(e, y) && (e.kind.DebriefConfirmed?
        || e.kind.AddressDiscovered?)
    requires ConfirmedId(y.sessionId) in EventIds(added)
    ensures Fits(events, y, added) && Settled(events + added, y)
  {
    IdsAppended(events, added);
    IdsApart(y.sessionId, y.sessionId);
    hide ConfirmedId, AddressId;
    assert forall e | e in events :: e.eventId in EventIds(events);
    assert forall e | e in added :: e.eventId !in EventIds(events);
  }

  lemma ConfirmFits(events: seq<Event>, x: Session, y: Session, d: DraftRecord, now: string)
    requires Bound(x) && Distinct(events) && y.sessionId == x.sessionId && y.customerId == x.customerId
        && y.state.Confirmed?
    requires ConfirmedId(x.sessionId) !in EventIds(events) && AddressId(x.sessionId) !in EventIds(events)
    ensures Fits(events, y, ConfirmAdded(x, d, now)) && Settled(events + ConfirmAdded(x, d, now), y)
  {
    var added := ConfirmAdded(x, d, now);
    ConfirmAddedIds(x, d, now);
    IdsApart(x.sessionId, x.sessionId);
    assert Distinct(added);
    hide Address, ConfirmedPayload, AddressPayload, ConfirmedId, AddressId, NamedByKind;
    ConfirmingFits(events, y, added);
  }

  lemma NotYetAddressed(s: Service, x: Session)
    requires Held(s, x) && s.store.Some? && ConfirmedId(x.sessionId) !in EventIds(s.store.value.events)
    ensures AddressId(x.sessionId) !in EventIds(s.store.value.events)
  {
    HeldSettled(s, x);
  }

  lemma UnboundConfirms(events: seq<Event>, y: Session)
    requires !Bound(y) && ConfirmedId(y.sessionId) !in EventIds(events) && AddressId(y.sessionId) !in EventIds(events)
    ensures Settled(events, y)
  {
  }

  lemma AppendFresh(s: Service, y: Session, kind: EventType, payload: Fields, now: string)
    requires s.store.Some? && Bound(y) && IdFor(kind, y.sessionId) !in EventIds(s.store.value.events)
    ensures AppendEvent(s, y, kind, payload, IdFor(kind, y.sessionId), now) ==
            s.(store := Some(s.store.value.(events := s.store.value.events + [EventFor(y, kind, payload, now)])))
  {
  }

  /** A new state and the confirming events, written together. */
  lemma ConfirmGood(s: Service, x: Session, t: Service, y: Session, added: seq<Event>)
    requires Held(s, x) && s.store.Some? && Touches(s, t, y, added)
        && ConfirmedId(x.sessionId) !in EventIds(s.store.value.events)
    requires y.sessionId == x.sessionId && y.customerId == x.customerId && y.state.Confirmed? && Reviewable(x.state)
    requires Fits(s.store.value.events, y, added) && Settled(s.store.value.events + added, y)
    ensures Good(s, t, x, y, added)
  {
    hide Valid, Touches, Fits, Settled, ConfirmedId;
  }

  lemma TransitionConfirms(s: Service, x: Session, at: Stamp) returns (added: seq<Event>)
    requires Held(s, x) && s.store.Some? && (x.state.AwaitingConfirmation? || x.state.Partial?)
    ensures Good(s, Transition(s, x, Confirmed, at).0, x, x.(state := Confirmed, updatedAt := at.now), added)
  {
    var y := x.(state := Confirmed, updatedAt := at.now);
    HeldSettled(s, x);
    NotYetAddressed(s, x);
    var events := s.store.value.events;
    added := [];
    if Bound(x) {
      var payload := map["outcome" := Text("confirmed")];
      AppendFresh(Persist(s, y), y, DebriefConfirmed, payload, at.now);
      added := [EventFor(y, DebriefConfirmed, payload, at.now)];
      assert added[0] in added;
      hide ConfirmedId, AddressId, Valid, AppendEvent, Good;
      ConfirmingFits(events, y, added);
    } else {
      UnboundConfirms(events, y);
      assert events + [] == events;
      hide ConfirmedId, AddressId, Valid, Good;
    }
    hide Fits, Settled;
    ConfirmGood(s, x, Transition(s, x, Confirmed, at).0, y, added);
  }

  lemma TransitionGood(s: Service, x: Session, to: State, at: Stamp) returns (y: Session, added: seq<Event>)
    requires Held(s, x)
    ensures Good(s, Transition(s, x, to, at).0, x, y, added)
    ensures var next := (x.state, to) in {(Prepared, Calling), (Calling, AwaitingConfirmation),
                                          (AwaitingConfirmation, Partial), (AwaitingConfirmation, Confirmed),
                                          (Partial, Confirmed)};
      && (Transition(s, x, to, at).1.Rejected? <==> x.state != to && !next)
      && y == (if next then x.(state := to, updatedAt := at.now) else x)
      && (!(next && to == Confirmed) ==> added == [])
  {
    y, added := x, [];
    if x.state == to || !Allowed(x.state, to) {
      StaysPut(s, s, x);
    } else {
      y := x.(state := to, updatedAt := at.now);
      if to.Confirmed? && s.store.Some? {
        added := TransitionConfirms(s, x, at);
      } else {
        PersistGood(s, x, y);
      }
    }
  }

  /** Ending a call adds no event: to review with saved facts, failed without, and nothing if it is not calling. */
  lemma EndCallGood(s: Service, x: Session, error: string, at: Stamp) returns (y: Session)
    requires Held(s, x)
    ensures Good(s, EndCall(s, x, error, at).0, x, y, [])
    ensures if !x.state.Calling? then y == x
            else
              && y.error == Some(error)
              && y.state == (if s.store.Some? && x.sessionId in s.store.value.drafts
                                && s.store.value.drafts[x.sessionId].fields != map[]
                             then AwaitingConfirmation else Failed)
  {
    hide Good, Valid, Persist;
    y := x;
    if !x.state.Calling? {
      StaysPut(s, s, x);
    } else if s.store.None? || x.sessionId !in s.store.value.drafts
              || s.store.value.drafts[x.sessionId].fields == map[] {
      y := x.(state := Failed, error := Some(error), updatedAt := at.now);
      PersistGood(s, x, y);
    } else {
      y := x.(error := Some(error), state := AwaitingConfirmation, updatedAt := at.now);
      PersistGood(s, x, y);
    }
  }

  /** Teaching is possible only in review, keeps the memory id, leaves the session partial and notes the correction. */
  lemma TeachGood(s: Service, x: Session, correction: string, memory: Option<string>, at: Stamp)
    returns (y: Session, added: seq<Event>)
    requires Held(s, x)
    ensures Good(s, Teach(s, x, correction, memory, at).0, x, y, added)
    ensures Teach(s, x, correction, memory, at).1.Rejected? <==>
              (!x.state.AwaitingConfirmation? && !x.state.Partial?) || memory.None?
    ensures if Teach(s, x, correction, memory, at).1.Rejected? then y == x && added == []
            else
              && y.state.Partial? && y.memoryIds == x.memoryIds + [memory.value]
              && added == Appended(s, y, NoteTaken, map["correction" := Text(correction)], at.id, at.now)
  {
    y, added := x, [];
    if (!x.state.AwaitingConfirmation? && !x.state.Partial?) || memory.None? {
      StaysPut(s, s, x);
    } else {
      y := x.(memoryIds := x.memoryIds + [memory.value], state := Partial, updatedAt := at.now);
      added := Appended(s, y, NoteTaken, map["correction" := Text(correction)], at.id, at.now);
      hide Good;
      PersistAppendGood(s, x, y, NoteTaken, map["correction" := Text(correction)], at.id, at.now);
    }
  }

  /** Recording a completed call leaves the session as it is and adds the one event, if there is a store. */
  lemma CompleteCallGood(s: Service, x: Session, callId: Option<string>, reason: string, occurredAt: string,
                         provider: string, at: Stamp)
    requires Held(s, x)
    ensures CompleteCall(s, x, callId, reason, occurredAt, provider, at).1.Rejected? <==> s.store.None?
    ensures Good(s, CompleteCall(s, x, callId, reason, occurredAt, provider, at).0, x, x,
                 Appended(s, x, CallCompleted, CompletionPayload(callId, reason, provider), at.id, at.now))
  {
    StaysPut(s, s, x);
    if s.store.Some? {
      var t := WithDraft(s, Drafted(s, x, CompletionFields(callId, reason, occurredAt), Draft, at));
      StaysPut(s, t, x);
      hide CompletionFields, Drafted;
      var payload := CompletionPayload(callId, reason, provider);
      PersistAppendGood(s, x, x, CallCompleted, payload, at.id, at.now);
      hide CompletionPayload, Settled, Fits, Advances, Appended;
      assert AppendEvent(t, x, CallCompleted, payload, GeneratedId(at.id), at.now).store.value.events ==
             AppendEvent(Persist(s, x), x, CallCompleted, payload, GeneratedId(at.id), at.now).store.value.events;
    }
  }

  /** The draft confirmed, then the session saved: only the session, the draft and the events have changed. */
  lemma ConfirmTouches(s: Service, t: Service, u: Service, saved: DraftRecord, y: Session, added: seq<Event>)
    requires s.store.Some? && t.store.Some? && t == s.(store := Some(s.store.value.(drafts := t.store.value.drafts)))
    requires u == t.(store := Some(t.store.value.(events := s.store.value.events + added)))
    ensures Touches(s, Persist(WithDraft(u, saved), y), y, added)
  {
  }

  /** A confirmation whose event is not yet there. */
  lemma ConfirmFirst(s: Service, x: Session, t: Service, d: DraftRecord, saved: DraftRecord, now: string, y: Session)
    returns (added: seq<Event>)
    requires Held(s, x) && s.store.Some? && ConfirmedId(x.sessionId) !in EventIds(s.store.value.events)
    requires t.store.Some? && t == s.(store := Some(s.store.value.(drafts := t.store.value.drafts)))
    requires y.sessionId == x.sessionId && y.customerId == x.customerId && y.state.Confirmed? && Reviewable(x.state)
    ensures Good(s, Persist(WithDraft(ConfirmEvents(t, x, d, now), saved), y), x, y, added)
  {
    HeldSettled(s, x);
    NotYetAddressed(s, x);
    var events := s.store.value.events;
    added := if Bound(x) then ConfirmAdded(x, d, now) else [];
    if Bound(x) {
      ConfirmAppends(t, x, d, now);
      ConfirmFits(events, x, y, d, now);
      hide ConfirmAdded, Fits, Valid, Settled, ConfirmEvents, ConfirmedId, AddressId, EventIds, Good, Touches;
      ConfirmTouches(s, t, ConfirmEvents(t, x, d, now), saved, y, added);
      ConfirmGood(s, x, Persist(WithDraft(ConfirmEvents(t, x, d, now), saved), y), y, added);
    } else {
      UnboundConfirms(events, y);
      assert events + [] == events;
      hide Valid, Settled, ConfirmedId, AddressId, ConfirmedPayload, AddressPayload, Address, EventIds, Good, Touches;
      ConfirmTouches(s, t, ConfirmEvents(t, x, d, now), saved, y, added);
      ConfirmGood(s, x, Persist(WithDraft(ConfirmEvents(t, x, d, now), saved), y), y, added);
    }
  }

  lemma ConfirmDraftGood(s: Service, x: Session, at: Stamp) returns (y: Session, added: seq<Event>)
    requires Held(s, x)
    ensures Good(s, ConfirmDraft(s, x, at).0, x, y, added)
  {
    y, added := x, [];
    StaysPut(s, s, x);
    if Reviewable(x.state) && s.store.Some? {
      HeldSettled(s, x);
      var (t, d) := Opened(s, x, at);
      StaysPut(s, t, x);
      ListedIsRecorded(s, x, DebriefConfirmed);
      assert Listed(t, x, DebriefConfirmed) == Listed(s, x, DebriefConfirmed);
      hide Drafted, Settled, Listed, Valid, EventIds, ConfirmEvents, Persist, ConfirmedId;
      if ConfirmedId(x.sessionId) !in EventIds(s.store.value.events) {
        y := if x.state.Confirmed? then x else x.(state := Confirmed, updatedAt := at.now);
        var u := ConfirmEvents(t, x, d, at.now);
        added := ConfirmFirst(s, x, t, d, Drafted(u, x, d.fields, ConfirmedDraft, at), at.now, y);
      }
    }
  }
}
