/**
 * The debrief session service of kits/debrief/src/functions/index.ts over the tables of persistence.ts:
 * sessions written through to storage, drafts merged, customer events inserted once.
 */
module DebriefSession {
  import opened Base

  datatype State = Prepared | Calling | AwaitingConfirmation | Partial | Confirmed | Failed

  datatype Value = Null | Flag(on: bool) | Text(text: string)

  type Fields = map<string, Value>

  /** What preparation decides once and no call changes. */
  datatype Plan = Plan(callbackAt: Option<string>, scheduledCallAt: Option<string>, callbackTimezone: Option<string>,
                       instructionVersion: string, memoryIds: seq<string>, details: Fields)

  datatype Session = Session(sessionId: string, customerId: Option<string>, goal: string, plan: Plan, state: State,
                             callId: Option<string>, memoryIds: seq<string>, error: Option<string>,
                             createdAt: string, updatedAt: string)

  datatype EventType = Prebrief | CallCompleted | NoteTaken | AddressDiscovered | DebriefConfirmed

  datatype Event = Event(eventId: string, customerId: string, sessionId: string, kind: EventType, occurredAt: string,
      payload: Fields)

  datatype DraftStatus = Draft | ConfirmedDraft | PartialDraft

  datatype DraftRecord = DraftRecord(draftId: string, customerId: Option<string>, sessionId: string,
      status: DraftStatus,
                                     fields: Fields, updatedAt: string)

  /** The tables: sessions and drafts by session id, events by event id in insertion order. */
  datatype Store = Store(sessions: map<string, Session>, drafts: map<string, DraftRecord>, events: seq<Event>)

  datatype Service = Service(sessions: map<string, Session>, store: Option<Store>)

  datatype Error = NotFound | NotAllowed | EmptyGoal | EmptyUpdate | NoPersistence | CollaboratorFailed

  datatype Reply =
    | Rejected(error: Error)
    | Shown(session: Session)
    | Confirmation(session: Session, draft: DraftRecord, confirmedEventId: Option<string>,
        addressEventId: Option<string>)
    | Saved(draft: DraftRecord)
    | Learned(memoryId: string)
    | Nothing

  /** The clock and the id generator, as one call sees them. */
  datatype Stamp = Stamp(now: string, id: string)

  datatype Call =
    | Prepare(sessionId: string, goal: string, plan: Option<Plan>, customer: string)
    | PrepareAnonymous(sessionId: string, goal: string, plan: Option<Plan>)
    | MarkCalling(sessionId: string)
    | AwaitConfirmation(sessionId: string)
    | MarkPartial(sessionId: string)
    | ConfirmDebrief(sessionId: string)
    | MarkFailed(sessionId: string, error: string)
    | EndCallAfterInterruption(sessionId: string, error: string)
    | TeachFromCorrection(sessionId: string, correction: string, memory: Option<string>)
    | HydrateSession(sessionId: string)
    | GetDebriefForConfirmation(sessionId: string)
    | UpdateDebriefDraft(sessionId: string, update: Fields)
    | ConfirmDebriefDraft(sessionId: string)
    | SaveDraft(sessionId: string, fields: Fields, status: DraftStatus)
    | SetCallId(sessionId: string, callId: string)
    | RecordCallCompleted(sessionId: string, providerCallId: Option<string>, reason: string, occurredAt: string,
        provider: string)
    | ClearSessions

  // ---- Text ----

  /** White space and line ends as `trim` removes them. */
  predicate IsSpace(c: char) {
    var n := c as int;
    9 <= n <= 13 || n == 32 || n == 0xA0 || n == 0x1680 || 0x2000 <= n <= 0x200A || n == 0x2028 || n == 0x2029
    || n == 0x202F || n == 0x205F || n == 0x3000 || n == 0xFEFF
  }

  function TrimStart(s: string): string {
    if s != "" && IsSpace(s[0]) then TrimStart(s[1..]) else s
  }

  function TrimEnd(s: string): string {
    if s != "" && IsSpace(s[|s| - 1]) then TrimEnd(s[..|s| - 1]) else s
  }

  function Trim(s: string): string {
    TrimEnd(TrimStart(s))
  }

  // ---- The tables ----

  function EventIds(events: seq<Event>): set<string> {
    set e | e in events :: e.eventId
  }

  /** Insert, or do nothing when the event id is taken. */
  function InsertOrIgnore(events: seq<Event>, e: Event): seq<Event> {
    if e.eventId in EventIds(events) then events else events + [e]
  }

  /** The first event of a kind recorded for a customer's session. */
  function Find(events: seq<Event>, customer: string, sessionId: string, kind: EventType): Option<string> {
    if events == [] then None
    else
      var n := |events| - 1;
      var earlier := Find(events[..n], customer, sessionId, kind);
      if earlier.Some? then earlier
      else if events[n].customerId == customer && events[n].sessionId == sessionId
          && events[n].kind == kind then Some(events[n].eventId)
      else None
  }

  function ConfirmedId(sessionId: string): string {
    "debrief-confirmed-" + sessionId
  }

  function AddressId(sessionId: string): string {
    "address-discovered-" + sessionId
  }

  function GeneratedId(id: string): string {
    "event-" + id
  }

  // ---- Pieces of the calls ----

  /** A customer id counts only when it is there and not empty. */
  predicate Bound(x: Session) {
    x.customerId.Some? && x.customerId.value != ""
  }

  /** Change a session in memory and write it through. */
  function Persist(s: Service, x: Session): Service {
    Service(s.sessions[x.sessionId := x],
            if s.store.Some? then Some(s.store.value.(sessions := s.store.value.sessions[x.sessionId := x])) else None)
  }

  function AppendEvent(s: Service, x: Session, kind: EventType, payload: Fields, eventId: string,
      now: string): Service {
    if !Bound(x) || s.store.None? then s
    else
      var e := Event(eventId, x.customerId.value, x.sessionId, kind, now, payload);
      s.(store := Some(s.store.value.(events := InsertOrIgnore(s.store.value.events, e))))
  }

  function Drafted(s: Service, x: Session, fields: Fields, status: DraftStatus, at: Stamp): DraftRecord
    requires s.store.Some?
  {
    var drafts := s.store.value.drafts;
    if x.sessionId in drafts then
      DraftRecord(drafts[x.sessionId].draftId, x.customerId, x.sessionId, status,
          drafts[x.sessionId].fields + fields, at.now)
    else DraftRecord("draft-" + at.id, x.customerId, x.sessionId, status, fields, at.now)
  }

  function WithDraft(s: Service, d: DraftRecord): Service
    requires s.store.Some?
  {
    s.(store := Some(s.store.value.(drafts := s.store.value.drafts[d.sessionId := d])))
  }

  function Listed(s: Service, x: Session, kind: EventType): Option<string> {
    if Bound(x) && s.store.Some? then Find(s.store.value.events, x.customerId.value, x.sessionId, kind) else None
  }

  predicate Reviewable(state: State) {
    state.AwaitingConfirmation? || state.Partial? || state.Confirmed?
  }

  predicate Allowed(from: State, to: State) {
    || (from.Prepared? && to.Calling?) || (from.Calling? && to.AwaitingConfirmation?)
    || (from.AwaitingConfirmation? && to.Partial?) || ((from.AwaitingConfirmation? || from.Partial?) && to.Confirmed?)
  }

  function Transition(s: Service, x: Session, to: State, at: Stamp): (Service, Reply) {
    if x.state == to then (s, Shown(x))
    else if !Allowed(x.state, to) then (s, Rejected(NotAllowed))
    else
      var y := x.(state := to, updatedAt := at.now);
      var saved := Persist(s, y);
      (if to.Confirmed? then AppendEvent(saved, y, DebriefConfirmed, map["outcome" := Text("confirmed")],
          ConfirmedId(x.sessionId), at.now)
       else saved,
       Shown(y))
  }

  function Fail(s: Service, x: Session, error: string, at: Stamp): (Service, Reply) {
    var y := x.(state := Failed, error := Some(error), updatedAt := at.now);
    (Persist(s, y), Shown(y))
  }

  function EndCall(s: Service, x: Session, error: string, at: Stamp): (Service, Reply) {
    if !x.state.Calling? then (s, Shown(x))
    else if s.store.None? || x.sessionId !in s.store.value.drafts
        || s.store.value.drafts[x.sessionId].fields == map[] then
      Fail(s, x, error, at)
    else Transition(s, x.(error := Some(error)), AwaitingConfirmation, at)
  }

  function Teach(s: Service, x: Session, correction: string, memory: Option<string>, at: Stamp): (Service, Reply) {
    if !x.state.AwaitingConfirmation? && !x.state.Partial? then (s, Rejected(NotAllowed))
    else if memory.None? then (s, Rejected(CollaboratorFailed))
    else
      var y := x.(memoryIds := x.memoryIds + [memory.value], state := Partial, updatedAt := at.now);
      (AppendEvent(Persist(s, y), y, NoteTaken, map["correction" := Text(correction)], GeneratedId(at.id), at.now),
       Learned(memory.value))
  }

  /** The draft to review, saved empty when there is none yet. */
  function Opened(s: Service, x: Session, at: Stamp): (Service, DraftRecord)
    requires s.store.Some?
  {
    if x.sessionId in s.store.value.drafts then (s, s.store.value.drafts[x.sessionId])
    else
      var d := Drafted(s, x, map[], Draft, at);
      (WithDraft(s, d), d)
  }

  function Review(s: Service, x: Session, at: Stamp): (Service, Reply) {
    if !Reviewable(x.state) then (s, Rejected(NotAllowed))
    else if s.store.None? then (s, Rejected(NoPersistence))
    else
      var (t, d) := Opened(s, x, at);
      (t, Confirmation(x, d, Listed(t, x, DebriefConfirmed), Listed(t, x, AddressDiscovered)))
  }

  /** Only texts that are not blank update a draft. */
  function Filled(update: Fields): Fields {
    map k | k in update && update[k].Text? && Trim(update[k].text) != "" :: update[k]
  }

  function Update(s: Service, x: Session, update: Fields, at: Stamp): (Service, Reply) {
    if !x.state.Calling? && !x.state.AwaitingConfirmation? && !x.state.Partial? then (s, Rejected(NotAllowed))
    else if Filled(update) == map[] then (s, Rejected(EmptyUpdate))
    else if s.store.None? then (s, Rejected(NoPersistence))
    else
      var d := Drafted(s, x, Filled(update), if x.state.Partial? then PartialDraft else Draft, at);
      (WithDraft(s, d), Confirmation(x, d, None, None))
  }

  function Address(fields: Fields): string {
    if "discovered_address" in fields
        && fields["discovered_address"].Text? then Trim(fields["discovered_address"].text) else ""
  }

  function AddressPayload(d: DraftRecord): Fields {
    map["address" := Text(Address(d.fields)), "source" := Text("operator-confirmed"), "draft_id" := Text(d.draftId)]
  }

  function ConfirmedPayload(d: DraftRecord): Fields {
    map["outcome" := Text("confirmed")] + d.fields + map["status" := Text("confirmed"), "draft_id" := Text(d.draftId)]
  }

  /** The two events of a confirmation, the address first and only if the draft has one. */
  function ConfirmEvents(s: Service, x: Session, d: DraftRecord, now: string): Service {
    var t := if Address(d.fields) == "" then s
             else AppendEvent(s, x, AddressDiscovered, AddressPayload(d), AddressId(x.sessionId), now);
    AppendEvent(t, x, DebriefConfirmed, ConfirmedPayload(d), ConfirmedId(x.sessionId), now)
  }

  function ConfirmDraft(s: Service, x: Session, at: Stamp): (Service, Reply) {
    if !Reviewable(x.state) then (s, Rejected(NotAllowed))
    else if s.store.None? then (s, Rejected(NoPersistence))
    else
      var (t, d) := Opened(s, x, at);
      var existing := Listed(t, x, DebriefConfirmed);
      if existing.Some? then
        (t, Confirmation(x, d.(status := ConfirmedDraft), existing, Listed(t, x, AddressDiscovered)))
      else
        var u := ConfirmEvents(t, x, d, at.now);
        var saved := Drafted(u, x, d.fields, ConfirmedDraft, at);
        var v := WithDraft(u, saved);
        var y := if x.state.Confirmed? then x else x.(state := Confirmed, updatedAt := at.now);
        (if x.state.Confirmed? then v else Persist(v, y),
         Confirmation(y, saved, if Bound(x) then Some(ConfirmedId(x.sessionId)) else None,
                      if Bound(x) && Address(d.fields) != "" then Some(AddressId(x.sessionId)) else None))
  }

  function SaveFields(s: Service, x: Session, fields: Fields, status: DraftStatus, at: Stamp): (Service, Reply) {
    if s.store.None? then (s, Rejected(NoPersistence))
    else
      var d := Drafted(s, x, fields, status, at);
      (WithDraft(s, d), Saved(d))
  }

  function OptionalText(o: Option<string>): Value {
    if o.Some? then Text(o.value) else Null
  }

  function CompletionFields(callId: Option<string>, reason: string, occurredAt: string): Fields {
    map["provider_call_id" := OptionalText(callId), "completed_at" := Text(occurredAt), "completion_reason" :=
        Text(reason),
        "recording" := Flag(false), "retention" := Flag(false)]
  }

  function CompletionPayload(callId: Option<string>, reason: string, provider: string): Fields {
    map["provider" := Text(provider), "call_id" := OptionalText(callId), "reason" := Text(reason),
        "recording" := Flag(false), "retention" := Flag(false)]
  }

  function CompleteCall(s: Service, x: Session, callId: Option<string>, reason: string, occurredAt: string,
      provider: string, at: Stamp): (Service, Reply) {
    var (t, reply) := SaveFields(s, x, CompletionFields(callId, reason, occurredAt), Draft, at);
    if reply.Rejected? then (t, reply)
    else (AppendEvent(t, x, CallCompleted, CompletionPayload(callId, reason, provider), GeneratedId(at.id), at.now),
        Nothing)
  }

  /** `plan` is absent when the instructions, the schedule, the customer table or the memory refused. */
  function Begin(s: Service, sessionId: string, goal: string, plan: Option<Plan>, customer: Option<string>,
      at: Stamp): (Service, Reply) {
    if Trim(goal) == "" then (s, Rejected(EmptyGoal))
    else if plan.None? then (s, Rejected(CollaboratorFailed))
    else
      var x := Session(sessionId, if s.store.Some? then customer else None, Trim(goal), plan.value, Prepared, None,
                       plan.value.memoryIds, None, at.now, at.now);
      (AppendEvent(Persist(s, x), x, Prebrief, plan.value.details, GeneratedId(at.id), at.now), Shown(x))
  }

  function Hydrate(s: Service, sessionId: string): (Service, Reply) {
    var t := if s.store.Some? && sessionId in s.store.value.sessions
             then s.(sessions := s.sessions[sessionId := s.store.value.sessions[sessionId]]) else s;
    if sessionId in t.sessions then (t, Shown(t.sessions[sessionId])) else (t, Rejected(NotFound))
  }

  /** The calls that begin by looking their session up. */
  function OnSession(s: Service, x: Session, call: Call, at: Stamp): (Service, Reply) {
    match call
    case MarkCalling(_) => Transition(s, x, Calling, at)
    case AwaitConfirmation(_) => Transition(s, x, AwaitingConfirmation, at)
    case MarkPartial(_) => Transition(s, x, Partial, at)
    case ConfirmDebrief(_) => Transition(s, x, Confirmed, at)
    case MarkFailed(_, error) => Fail(s, x, error, at)
    case EndCallAfterInterruption(_, error) => EndCall(s, x, error, at)
    case TeachFromCorrection(_, correction, memory) => Teach(s, x, correction, memory, at)
    case GetDebriefForConfirmation(_) => Review(s, x, at)
    case UpdateDebriefDraft(_, update) => Update(s, x, update, at)
    case ConfirmDebriefDraft(_) => ConfirmDraft(s, x, at)
    case SaveDraft(_, fields, status) => SaveFields(s, x, fields, status, at)
    case SetCallId(_, callId) =>
      var y := x.(callId := Some(callId), updatedAt := at.now);
      (Persist(s, y), Shown(y))
    case RecordCallCompleted(_, callId, reason, occurredAt, provider) => CompleteCall(s, x, callId, reason,
        occurredAt, provider, at)
    case _ => (s, Nothing)
  }

  function Apply(s: Service, call: Call, at: Stamp): (Service, Reply) {
    match call
    case Prepare(sessionId, goal, plan, customer) => Begin(s, sessionId, goal, plan, Some(customer), at)
    case PrepareAnonymous(sessionId, goal, plan) => Begin(s, sessionId, goal, plan, None, at)
    case HydrateSession(sessionId) => Hydrate(s, sessionId)
    case ClearSessions => (s.(sessions := map[]), Nothing)
    case _ =>
      if call.sessionId in s.sessions then OnSession(s, s.sessions[call.sessionId], call, at)
      else (s, Rejected(NotFound))
  }
}
