/** Which customer events each call of the debrief service writes, what its draft becomes, and what it replies. */
module DebriefEvents {
  import opened Base
  import opened DebriefSession
  import opened DebriefRuns
  import opened DebriefHistory
  import opened DebriefCalls

  // ---- Events ----

  /** One event under a generated id, for a customer's session, when there is a store and the id is free. */
  function Noted(s: Service, customer: Option<string>, id: string, kind: EventType, payload: Fields,
                 at: Stamp): seq<Event>
  {
    if s.store.Some? && customer.Some? && customer.value != "" && "event-" + at.id !in EventIds(s.store.value.events)
    then [Event("event-" + at.id, customer.value, id, kind, at.now, payload)]
    else []
  }

  /** The events of the first draft confirmation of a customer's session. */
  function Confirming(x: Session, customer: string, draftId: string, facts: Fields, at: Stamp): seq<Event> {
    var id := x.sessionId;
    var address := if "discovered_address" in facts && facts["discovered_address"].Text?
      then Trim(facts["discovered_address"].text) else "";
    (if address == "" then []
     else [Event("address-discovered-" + id, customer, id, AddressDiscovered, at.now,
                 map["address" := Text(address), "source" := Text("operator-confirmed"), "draft_id" := Text(draftId)])])
    + [Event("debrief-confirmed-" + id, customer, id, DebriefConfirmed, at.now,
             map["outcome" := Text("confirmed")] + facts
             + map["status" := Text("confirmed"), "draft_id" := Text(draftId)])]
  }

  /** The draft's id, an existing one or a new one. */
  function DraftId(s: Service, id: string, at: Stamp): string {
    if s.store.Some? && id in s.store.value.drafts then s.store.value.drafts[id].draftId else "draft-" + at.id
  }

  /** Whether a confirmation has been recorded for the session. */
  predicate RecordedFor(s: Service, id: string) {
    "debrief-confirmed-" + id in EventIds(EventsOf(s))
  }

  /** The events a call writes. */
  function Writes(s: Service, call: Call, at: Stamp): seq<Event> {
    match call
    case Prepare(id, _, plan, customer) =>
      if plan.Some? then Noted(s, Some(customer), id, Prebrief, plan.value.details, at) else []
    case TeachFromCorrection(id, correction, _) =>
      if id in s.sessions
      then Noted(s, s.sessions[id].customerId, id, NoteTaken, map["correction" := Text(correction)], at) else []
    case RecordCallCompleted(id, callId, reason, _, provider) =>
      if id in s.sessions
      then Noted(s, s.sessions[id].customerId, id, CallCompleted, CompletionPayload(callId, reason, provider), at)
      else []
    case ConfirmDebrief(id) =>
      if id in s.sessions && Bound(s.sessions[id]) && s.store.Some? && !RecordedFor(s, id)
      then [Event("debrief-confirmed-" + id, s.sessions[id].customerId.value, id, DebriefConfirmed, at.now,
                  map["outcome" := Text("confirmed")])]
      else []
    case ConfirmDebriefDraft(id) =>
      if id in s.sessions && Bound(s.sessions[id]) && s.store.Some? && !RecordedFor(s, id)
      then Confirming(s.sessions[id], s.sessions[id].customerId.value, DraftId(s, id, at), Facts(s, id), at)
      else []
    case _ => []
  }

  /** For every accepted call: exactly these events are appended. */
  lemma EventsAfter(s: Service, call: Call, at: Stamp)
    requires Valid(s) && Accepts(s, call)
    ensures EventsOf(Apply(s, call, at).0) == EventsOf(s) + Writes(s, call, at)
  {
    hide Valid, Accepts;
    if LooksUp(call) {
      KnownSession(s, call);
      HeldThere(s, call.sessionId);
      AppliesToSession(s, call, at);
      hide Apply, Writes, OnSession;
      EventsOfCall(s, s.sessions[call.sessionId], call, at);
    } else {
      FirstEvents(s, call, at);
    }
  }

  lemma KnownSession(s: Service, call: Call)
    requires Accepts(s, call) && LooksUp(call)
    ensures call.sessionId in s.sessions && AcceptsIn(s.sessions[call.sessionId].state, s.store.Some?, call)
  {
  }

  lemma FirstEvents(s: Service, call: Call, at: Stamp)
    requires Accepts(s, call) && !LooksUp(call)
    ensures EventsOf(Apply(s, call, at).0) == EventsOf(s) + Writes(s, call, at)
  {
    if call.Prepare? || call.PrepareAnonymous? {
      BlankExactly(call.goal);
    }
    hide Trim, Blank, OnSession;
    assert EventsOf(s) + [] == EventsOf(s);
  }

  lemma EventsOfCall(s: Service, x: Session, call: Call, at: Stamp)
    requires Held(s, x) && LooksUp(call) && call.sessionId == x.sessionId && AcceptsIn(x.state, s.store.Some?, call)
    ensures EventsOf(OnSession(s, x, call, at).0) == EventsOf(s) + Writes(s, call, at)
  {
    match call
    case TeachFromCorrection(_, correction, memory) =>
      var y, added := TeachGood(s, x, correction, memory, at);
      hide Valid, Fits, Settled, Advances;
    case RecordCallCompleted(_, callId, reason, occurredAt, provider) =>
      CompleteCallGood(s, x, callId, reason, occurredAt, provider, at);
      hide Valid, Fits, Settled, Advances, CompletionPayload;
    case ConfirmDebrief(_) => ConfirmWrites(s, x, at);
    case ConfirmDebriefDraft(_) => DraftWrites(s, x, at);
    case _ => OthersWriteNothing(s, x, call, at);
  }

  lemma OthersWriteNothing(s: Service, x: Session, call: Call, at: Stamp)
    requires LooksUp(call) && !call.TeachFromCorrection? && !call.RecordCallCompleted? && !call.ConfirmDebrief?
    requires !call.ConfirmDebriefDraft?
    ensures EventsOf(OnSession(s, x, call, at).0) == EventsOf(s) + Writes(s, call, at)
  {
    hide Drafted, Listed, Filled, InsertOrIgnore;
    assert EventsOf(s) + [] == EventsOf(s);
  }

  lemma ConfirmWrites(s: Service, x: Session, at: Stamp)
    requires Held(s, x) && x.state in {AwaitingConfirmation, Partial, Confirmed}
    ensures EventsOf(Transition(s, x, Confirmed, at).0) == EventsOf(s) + Writes(s, ConfirmDebrief(x.sessionId), at)
  {
    assert EventsOf(s) + [] == EventsOf(s);
    if s.store.Some? {
      HeldSettled(s, x);
      assert RecordedFor(s, x.sessionId) ==> x.state.Confirmed?;
      assert x.state.Confirmed? && Bound(x) ==> RecordedFor(s, x.sessionId);
      hide Valid, Settled;
      var y := x.(state := Confirmed, updatedAt := at.now);
      if Bound(x) && !x.state.Confirmed? {
        AppendFresh(Persist(s, y), y, DebriefConfirmed, map["outcome" := Text("confirmed")], at.now);
      }
      hide EventIds;
    }
  }

  lemma DraftWrites(s: Service, x: Session, at: Stamp)
    requires Held(s, x) && x.state in {AwaitingConfirmation, Partial, Confirmed} && s.store.Some?
    ensures EventsOf(ConfirmDraft(s, x, at).0) == EventsOf(s) + Writes(s, ConfirmDebriefDraft(x.sessionId), at)
  {
    hide Valid, Settled, Listed, Opened, Drafted, EventIds, ConfirmEvents;
    var (t, d) := Opened(s, x, at);
    OpenedKeeps(s, x, at);
    OpenedDraft(s, x, at);
    ListedIsRecorded(s, x, DebriefConfirmed);
    assert EventsOf(s) + [] == EventsOf(s);
    if !RecordedFor(s, x.sessionId) {
      NotYetAddressed(s, x);
      if Bound(x) {
        ConfirmAppends(t, x, d, at.now);
        ConfirmingIs(x, d, at);
        hide ConfirmAdded, Confirming;
      } else {
        UnboundWrites(t, x, d, at.now);
      }
    }
  }

  lemma UnboundWrites(s: Service, x: Session, d: DraftRecord, now: string)
    requires !Bound(x)
    ensures ConfirmEvents(s, x, d, now) == s
  {
    hide Address;
  }

  lemma OpenedDraft(s: Service, x: Session, at: Stamp)
    requires s.store.Some?
    ensures Opened(s, x, at).1.draftId == DraftId(s, x.sessionId, at)
    ensures Opened(s, x, at).1.fields == Facts(s, x.sessionId)
  {
  }

  lemma ConfirmingIs(x: Session, d: DraftRecord, at: Stamp)
    requires Bound(x)
    ensures ConfirmAdded(x, d, at.now) == Confirming(x, x.customerId.value, d.draftId, d.fields, at)
  {
    hide Trim;
  }

  // ---- Drafts ----

  /** The status a call gives its session's draft, if it saves one. */
  function StatusGiven(s: Service, call: Call): Option<DraftStatus> {
    match call
    case UpdateDebriefDraft(id, _) =>
      if id in s.sessions && s.sessions[id].state.Partial? then Some(PartialDraft) else Some(Draft)
    case SaveDraft(_, _, status) => Some(status)
    case RecordCallCompleted(_, _, _, _, _) => Some(Draft)
    case GetDebriefForConfirmation(id) =>
      if s.store.Some? && id in s.store.value.drafts then None else Some(Draft)
    case ConfirmDebriefDraft(id) =>
      if id in s.sessions && Bound(s.sessions[id]) && RecordedFor(s, id) then
        if s.store.Some? && id in s.store.value.drafts then None else Some(Draft)
      else Some(ConfirmedDraft)
    case _ => None
  }

  /** The session's draft, as a call with this status leaves it. */
  predicate DraftIs(s: Service, t: Service, x: Session, status: DraftStatus, at: Stamp) {
    && t.store.Some? && x.sessionId in t.store.value.drafts
    && var d := t.store.value.drafts[x.sessionId];
    && d.status == status && d.draftId == DraftId(s, x.sessionId, at) && d.sessionId == x.sessionId
    && d.customerId == x.customerId && d.updatedAt == at.now
  }

  /** For every accepted call: a draft it saves has that status, the session's draft id, and its customer. */
  lemma DraftAfter(s: Service, call: Call, at: Stamp)
    requires Valid(s) && Accepts(s, call) && LooksUp(call) && StatusGiven(s, call).Some?
    ensures DraftIs(s, Apply(s, call, at).0, s.sessions[call.sessionId], StatusGiven(s, call).value, at)
  {
    KnownSession(s, call);
    HeldThere(s, call.sessionId);
    AppliesToSession(s, call, at);
    hide Apply, Accepts, OnSession, DraftIs, StatusGiven;
    var x := s.sessions[call.sessionId];
    if call.ConfirmDebriefDraft? {
      ConfirmedDraftIs(s, x, at);
      hide ConfirmDraft;
      ConfirmsOnSession(s, x, at);
    } else {
      SavedDraftIs(s, x, call, at);
    }
  }

  lemma ConfirmsOnSession(s: Service, x: Session, at: Stamp)
    ensures OnSession(s, x, ConfirmDebriefDraft(x.sessionId), at) == ConfirmDraft(s, x, at)
  {
    hide ConfirmDraft;
  }

  lemma SavedDraftIs(s: Service, x: Session, call: Call, at: Stamp)
    requires LooksUp(call) && call.sessionId == x.sessionId && AcceptsIn(x.state, s.store.Some?, call)
    requires call.sessionId in s.sessions && s.sessions[call.sessionId] == x
    requires StatusGiven(s, call).Some? && !call.ConfirmDebriefDraft?
    ensures DraftIs(s, OnSession(s, x, call, at).0, x, StatusGiven(s, call).value, at)
  {
    hide InsertOrIgnore, Listed, Filled, EventIds;
    match call
    case UpdateDebriefDraft(_, update) => SomethingFilled(update);
    case SaveDraft(_, _, _) =>
    case RecordCallCompleted(_, _, _, _, _) =>
    case GetDebriefForConfirmation(_) =>
  }

  /** Saving facts in a store that already has the session's draft, or not. */
  lemma SavedIs(s: Service, u: Service, x: Session, fields: Fields, status: DraftStatus, at: Stamp)
    requires u.store.Some? && DraftId(u, x.sessionId, at) == DraftId(s, x.sessionId, at)
    ensures DraftIs(s, WithDraft(u, Drafted(u, x, fields, status, at)), x, status, at)
  {
  }

  lemma OpenedId(s: Service, x: Session, at: Stamp)
    requires s.store.Some?
    ensures var t := Opened(s, x, at).0;
      && t.store.Some? && DraftId(t, x.sessionId, at) == DraftId(s, x.sessionId, at)
      && (x.sessionId !in s.store.value.drafts ==> DraftIs(s, t, x, Draft, at))
  {
  }

  /** A confirmation that finds its record leaves the draft it opened; a first one saves it confirmed. */
  lemma ConfirmDrafts(s: Service, x: Session, at: Stamp)
    requires x.state in {AwaitingConfirmation, Partial, Confirmed} && s.store.Some?
    ensures var v, t, d := ConfirmDraft(s, x, at).0, Opened(s, x, at).0, Opened(s, x, at).1;
      var u := ConfirmEvents(t, x, d, at.now);
      && v.store.Some? && t.store.Some?
      && v.store.value.drafts == if Listed(t, x, DebriefConfirmed).Some? then t.store.value.drafts
           else if u.store.Some? then WithDraft(u, Drafted(u, x, d.fields, ConfirmedDraft, at)).store.value.drafts
           else v.store.value.drafts
  {
    OpenedKeeps(s, x, at);
    hide Opened, Listed, ConfirmEvents, Drafted;
  }

  lemma ConfirmedDraftIs(s: Service, x: Session, at: Stamp)
    requires Held(s, x) && x.state in {AwaitingConfirmation, Partial, Confirmed} && s.store.Some?
    requires StatusGiven(s, ConfirmDebriefDraft(x.sessionId)).Some?
    ensures DraftIs(s, ConfirmDraft(s, x, at).0, x, StatusGiven(s, ConfirmDebriefDraft(x.sessionId)).value, at)
  {
    assert Listed(s, x, DebriefConfirmed).Some? ==> Bound(x);
    hide Valid, Listed, Opened, Drafted, EventIds, ConfirmEvents;
    var (t, d) := Opened(s, x, at);
    var u := ConfirmEvents(t, x, d, at.now);
    ListedIsRecorded(s, x, DebriefConfirmed);
    OpenedKeeps(s, x, at);
    OpenedId(s, x, at);
    ConfirmDrafts(s, x, at);
    hide ConfirmDraft, WithDraft;
    if Listed(s, x, DebriefConfirmed).None? {
      ConfirmEventsKeepsDrafts(t, x, d, at.now);
      SavedIs(s, u, x, d.fields, ConfirmedDraft, at);
    }
  }

  // ---- Replies ----

  /** The reply shows the session and the draft as they are now; a confirmed draft is shown as confirmed. */
  predicate ShowsLeft(t: Service, reply: Reply, id: string, confirmed: bool) {
    && id in t.sessions
    && (reply.Shown? ==> reply.session == t.sessions[id])
    && (reply.Saved? ==> t.store.Some? && id in t.store.value.drafts && reply.draft == t.store.value.drafts[id])
    && (reply.Confirmation? ==>
          && reply.session == t.sessions[id] && t.store.Some? && id in t.store.value.drafts
          && reply.draft == (if confirmed then t.store.value.drafts[id].(status := ConfirmedDraft)
                             else t.store.value.drafts[id]))
  }

  /** For every accepted call on a session: what it shows is what it has left. */
  lemma RepliesShow(s: Service, call: Call, at: Stamp)
    requires Valid(s) && Accepts(s, call) && LooksUp(call)
    ensures var (t, reply) := Apply(s, call, at);
      && ShowsLeft(t, reply, call.sessionId, call.ConfirmDebriefDraft?)
      && (reply.Learned? ==> call.TeachFromCorrection? && call.memory == Some(reply.memoryId))
  {
    KnownSession(s, call);
    HeldThere(s, call.sessionId);
    AppliesToSession(s, call, at);
    hide Apply, Accepts, OnSession, ShowsLeft;
    var x := s.sessions[call.sessionId];
    if call.ConfirmDebriefDraft? {
      ConfirmReplies(s, x, at);
      hide ConfirmDraft;
      ConfirmsOnSession(s, x, at);
    } else {
      SavedReplies(s, x, call, at);
    }
  }

  lemma SavedReplies(s: Service, x: Session, call: Call, at: Stamp)
    requires LooksUp(call) && call.sessionId == x.sessionId && !call.ConfirmDebriefDraft?
    requires call.sessionId in s.sessions && s.sessions[call.sessionId] == x
    ensures var (t, reply) := OnSession(s, x, call, at);
      && ShowsLeft(t, reply, x.sessionId, false)
      && (reply.Learned? ==> call.TeachFromCorrection? && call.memory == Some(reply.memoryId))
  {
    hide InsertOrIgnore, Listed, Filled;
    match call
    case UpdateDebriefDraft(_, _) =>
    case GetDebriefForConfirmation(_) =>
    case EndCallAfterInterruption(_, _) =>
    case _ =>
  }

  lemma ConfirmReplies(s: Service, x: Session, at: Stamp)
    requires Held(s, x) && x.state in {AwaitingConfirmation, Partial, Confirmed} && s.store.Some?
    ensures ShowsLeft(ConfirmDraft(s, x, at).0, ConfirmDraft(s, x, at).1, x.sessionId, true)
    ensures ConfirmDraft(s, x, at).1.Confirmation?
  {
    var (t, d) := Opened(s, x, at);
    OpenedKeeps(s, x, at);
    OpenedThere(s, x, at);
    ConfirmEventsKeepsDrafts(t, x, d, at.now);
    ConfirmEventsKeepSessions(t, x, d, at.now);
    DraftedStatus(ConfirmEvents(t, x, d, at.now), x, d.fields, ConfirmedDraft, at);
    hide Valid, Listed, Opened, EventIds, ConfirmEvents, Drafted, Address;
  }

  lemma DraftedStatus(s: Service, x: Session, fields: Fields, status: DraftStatus, at: Stamp)
    requires s.store.Some?
    ensures var d := Drafted(s, x, fields, status, at); d.sessionId == x.sessionId && d.status == status
  {
  }

  lemma OpenedThere(s: Service, x: Session, at: Stamp)
    requires s.store.Some? && Held(s, x)
    ensures var (t, d) := Opened(s, x, at);
      t.store.Some? && x.sessionId in t.store.value.drafts && t.store.value.drafts[x.sessionId] == d
  {
    hide Valid;
  }
}
