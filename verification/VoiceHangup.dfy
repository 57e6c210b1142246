/**
 * Hanging up: a call the bridge ends with `agent_hangup` has let the caller hear a whole response
 * that started after the request and after the last interruption.
 */
module VoiceHangup {
  import opened Base
  import opened B = VoiceBridge
  import opened VoiceCall

  /** No hang-up request and no interruption at or after `from`. */
  ghost predicate Quiet(log: seq<Event>, from: nat) {
    forall i | from <= i < |log| :: !log[i].HangupRequested? && !log[i].Interrupted?
  }

  /** The response started at `p`, and nothing has been asked or interrupted since. */
  ghost predicate StartedQuietly(log: seq<Event>, response: nat, p: nat) {
    p < |log| && log[p] == ResponseStarted(response) && Quiet(log, p)
  }

  ghost predicate FreshStart(log: seq<Event>, response: nat) {
    exists p: nat :: StartedQuietly(log, response, p)
  }

  ghost predicate CompletedAfter(log: seq<Event>, response: nat, p: nat) {
    p < |log| && exists q | p < q < |log| :: log[q] == ResponseCompleted(response)
  }

  ghost predicate FreshAndWhole(log: seq<Event>, response: nat) {
    exists p: nat :: StartedQuietly(log, response, p) && CompletedAfter(log, response, p)
  }

  ghost predicate WholeAudioPlayed(s: Call, response: nat) {
    forall c | 0 <= c < |s.chunkOf| && s.chunkOf[c] == response :: c < |s.fate| && s.fate[c] == Played
  }

  /** The provider has closed the response: no more audio can belong to it. */
  predicate Closed(s: Call, response: nat) {
    response < s.providerResponses || (response == s.providerResponses && !s.providerActive)
  }

  ghost predicate Requested(log: seq<Event>) {
    exists r :: 0 <= r < |log| && log[r].HangupRequested?
  }

  /** The hang-up was requested before `p`. */
  ghost predicate RequestedBefore(log: seq<Event>, p: nat) {
    exists r | 0 <= r < p :: r < |log| && log[r].HangupRequested?
  }

  /** A response that started after the request, and after the last interruption, and then completed. */
  ghost predicate GoodbyeAt(log: seq<Event>, response: nat, p: nat) {
    RequestedBefore(log, p) && StartedQuietly(log, response, p) && CompletedAfter(log, response, p)
  }

  /** The promise behind `agent_hangup`. */
  ghost predicate GoodbyeHeard(s: Call) {
    exists g: nat, p: nat :: GoodbyeAt(s.log, g, p) && Closed(s, g) && WholeAudioPlayed(s, g)
  }

  /** A request before which nothing quiet can have started: it comes before every quiet start. */
  lemma RequestPrecedes(log: seq<Event>, response: nat) returns (p: nat)
    requires Requested(log) && FreshAndWhole(log, response)
    ensures GoodbyeAt(log, response, p)
  {
    p :| StartedQuietly(log, response, p) && CompletedAfter(log, response, p);
    var r :| 0 <= r < |log| && log[r].HangupRequested?;
    assert r < p;
  }

  /** Whoever waits to hang up was asked to. */
  ghost predicate Asked(s: Call) {
    s.b.hangupAfterResponse.Some? ==> Requested(s.log)
  }

  /** The log only grows, and only a request starts the wait. */
  predicate KeepsAsking(s: Call, s': Call) {
    s.log <= s'.log && (s.b.hangupAfterResponse.None? ==> s'.b.hangupAfterResponse.None?)
  }

  lemma HandleKeepsAsking(s: Call, c: Settings, w: Work)
    ensures KeepsAsking(s, Handle(s, c, w))
  {
    hide Speaking, WithoutTurnTimer, PlaybackAfter;
    match w
    case Committed(_) =>
    case Interruption(_) =>
    case _ =>
  }

  lemma ContinueKeepsAsking(s: Call)
    ensures KeepsAsking(s, Continue(s))
  {
    hide PlaybackAfter;
  }

  lemma StillAsked(s: Call, s': Call)
    requires Asked(s) && KeepsAsking(s, s')
    ensures Asked(s')
  {
    if Requested(s.log) {
      var r :| 0 <= r < |s.log| && s.log[r].HangupRequested?;
      assert s'.log[r] == s.log[r];
    }
  }

  lemma AskedKeeps(s: Call, c: Settings, l: Label)
    requires Asked(s) && Enabled(s, l)
    ensures Asked(Step(s, c, l))
  {
    var s' := Step(s, c, l);
    hide Handle, Continue, Requested;
    if l.Dequeue? {
      HandleKeepsAsking(s.(queue := s.queue[1..]), c, s.queue[0]);
      StillAsked(s, s');
    } else if l.Resume? {
      ContinueKeepsAsking(s);
      StillAsked(s, s');
    } else if l.AgentHangsUp? && s.b.hangupAfterResponse.None? {
      AskedNow(s.log);
    } else {
      StillAsked(s, s');
    }
  }

  lemma AskedNow(log: seq<Event>)
    ensures Requested(log + [HangupRequested])
  {
    assert (log + [HangupRequested])[|log|] == HangupRequested;
  }

  // ---- The link to Twilio: everything in transit, in sending order ----

  predicate InOrder(items: seq<Item>, from: nat, to: nat) {
    if items == [] then from == to
    else match items[0]
      case Audio(chunk) => chunk == from && InOrder(items[1..], from + 1, to)
      case MarkItem(_, cut) => cut == from && InOrder(items[1..], from, to)
      case ClearItem(cut) => cut == from && InOrder(items[1..], from, to)
  }

  lemma {:induction false} InOrderBounds(items: seq<Item>, from: nat, to: nat)
    requires InOrder(items, from, to)
    ensures from <= to
    ensures forall i | 0 <= i < |items| && items[i].ClearItem? :: from <= items[i].cut <= to
    ensures forall i | 0 <= i < |items| && items[i].MarkItem? :: from <= items[i].cut <= to
  {
    if items != [] {
      InOrderBounds(items[1..], if items[0].Audio? then from + 1 else from, to);
      assert forall i | 1 <= i < |items| :: items[i] == items[1..][i - 1];
    }
  }

  lemma {:induction false} InOrderSnoc(items: seq<Item>, from: nat, to: nat, item: Item)
    requires InOrder(items, from, to)
    requires if item.Audio? then item.chunk == to else item.cut == to
    ensures InOrder(items + [item], from, if item.Audio? then to + 1 else to)
  {
    if items == [] {
      assert items + [item] == [item];
    } else {
      InOrderSnoc(items[1..], if items[0].Audio? then from + 1 else from, to, item);
      assert (items + [item])[1..] == items[1..] + [item];
    }
  }

  /** Where a queue in order is cut in two, its parts are in order. */
  lemma {:induction false} InOrderSplit(front: seq<Item>, back: seq<Item>, from: nat, to: nat) returns (mid: nat)
    requires InOrder(front + back, from, to)
    ensures InOrder(front, from, mid) && InOrder(back, mid, to)
    ensures mid == from + |DroppedBy(front)|
  {
    if front == [] {
      mid := from;
      assert front + back == back;
    } else {
      assert (front + back)[1..] == front[1..] + back;
      mid := InOrderSplit(front[1..], back, if front[0].Audio? then from + 1 else from, to);
    }
  }

  lemma {:induction false} MarksCut(items: seq<Item>, cuts: seq<nat>, from: nat, to: nat)
    requires InOrder(items, from, to) && MarksNamed(items, cuts)
    ensures forall i | 0 <= i < |MarksOf(items)| :: EchoDue(MarksOf(items)[i], cuts, to)
  {
    if items != [] {
      InOrderBounds(items, from, to);
      MarksCut(items[1..], cuts, if items[0].Audio? then from + 1 else from, to);
    }
  }

  // ---- The queue from the provider ----

  function Ahead(busy: Busy): seq<Work> {
    match busy
    case Free => []
    case Tail => []
    case DeltaPending(chunk, length) => [Delta(chunk, length)]
    case DonePending => [Done]
  }

  /** Reading `work` from a point where `started` responses and `next` chunks were read ends in step with the
      provider. */
  predicate Follows(work: seq<Work>, started: nat, next: nat, active: bool,
                    responses: nat, chunkOf: seq<nat>, open: bool)
  {
    if work == [] then started == responses && next == |chunkOf| && active == open
    else
      var tail := work[1..];
      match work[0]
      case Created => !active && Follows(tail, started + 1, next, true, responses, chunkOf, open)
      case Delta(chunk, _) =>
        && active && chunk == next < |chunkOf| && chunkOf[chunk] == started
        && Follows(tail, started, next + 1, true, responses, chunkOf, open)
      case Done => active && Follows(tail, started, next, false, responses, chunkOf, open)
      case _ => Follows(tail, started, next, active, responses, chunkOf, open)
  }

  /** What is still to be read belongs to the open response or to later ones. */
  lemma {:induction false} FollowsLater(work: seq<Work>, started: nat, next: nat, active: bool,
                                        responses: nat, chunkOf: seq<nat>, open: bool)
    requires Follows(work, started, next, active, responses, chunkOf, open)
    ensures started <= responses && next <= |chunkOf|
    ensures started == responses && open ==> active
    ensures forall c | next <= c < |chunkOf| :: chunkOf[c] >= started && (!active ==> chunkOf[c] > started)
  {
    if work != [] {
      match work[0]
      case Created => FollowsLater(work[1..], started + 1, next, true, responses, chunkOf, open);
      case Delta(_, _) => FollowsLater(work[1..], started, next + 1, true, responses, chunkOf, open);
      case Done => FollowsLater(work[1..], started, next, false, responses, chunkOf, open);
      case _ => FollowsLater(work[1..], started, next, active, responses, chunkOf, open);
    }
  }

  predicate Effectless(w: Work) {
    !w.Created? && !w.Delta? && !w.Done?
  }

  lemma {:induction false} FollowsSnoc(work: seq<Work>, started: nat, next: nat, active: bool,
                                       responses: nat, chunkOf: seq<nat>, open: bool, w: Work)
    requires Follows(work, started, next, active, responses, chunkOf, open)
    ensures Effectless(w) ==> Follows(work + [w], started, next, active, responses, chunkOf, open)
    ensures w.Created? && !open ==> Follows(work + [w], started, next, active, responses + 1, chunkOf, true)
    ensures w.Done? && open ==> Follows(work + [w], started, next, active, responses, chunkOf, false)
    ensures w.Delta? && w.chunk == |chunkOf| && open ==>
              Follows(work + [w], started, next, active, responses, chunkOf + [responses], true)
  {
    if work == [] {
      assert work + [w] == [w];
    } else {
      assert (work + [w])[1..] == work[1..] + [w];
      match work[0]
      case Created => FollowsSnoc(work[1..], started + 1, next, true, responses, chunkOf, open, w);
      case Delta(_, _) => FollowsSnoc(work[1..], started, next + 1, true, responses, chunkOf, open, w);
      case Done => FollowsSnoc(work[1..], started, next, false, responses, chunkOf, open, w);
      case _ => FollowsSnoc(work[1..], started, next, active, responses, chunkOf, open, w);
    }
  }

  // ---- The invariant ----

  predicate MarksNamed(items: seq<Item>, cuts: seq<nat>) {
    forall i | 0 <= i < |items| && items[i].MarkItem? ::
      1 <= items[i].name <= |cuts| && items[i].cut == cuts[items[i].name - 1]
  }

  predicate EchoDue(name: nat, cuts: seq<nat>, done: nat) {
    1 <= name <= |cuts| && cuts[name - 1] <= done
  }

  ghost predicate Links(s: Call) {
    && InOrder(s.playout + s.toTwilio, |s.fate|, s.sent)
    && MarksNamed(s.playout + s.toTwilio, s.cuts)
    && (forall i | 0 <= i < |s.echoes| :: EchoDue(s.echoes[i], s.cuts, |s.fate|))
    && s.b.hangupMarks == |s.cuts|
  }

  ghost predicate Audio(s: Call) {
    && Follows(Ahead(s.busy) + s.queue, s.b.responsesStarted, s.sent, s.b.responseActive,
               s.providerResponses, s.chunkOf, s.providerActive)
    && s.sent <= |s.chunkOf|
    && forall c | 0 <= c < s.sent :: s.chunkOf[c] <= s.b.responsesStarted
  }

  /** Only audio sent before the last clear can have been dropped. */
  ghost predicate Drops(s: Call) {
    && s.cleared <= s.sent
    && |s.fate| <= s.sent
    && (forall c | 0 <= c < |s.fate| && s.fate[c] == Dropped :: c < s.cleared)
    && forall i | 0 <= i < |s.toTwilio| && s.toTwilio[i].ClearItem? :: s.toTwilio[i].cut <= s.cleared
  }

  ghost predicate Pending(s: Call) {
    s.b.hangupAfterResponse.Some? ==>
      var h := s.b.hangupAfterResponse.value;
      && h <= s.b.responsesStarted
      && (forall c | 0 <= c < |s.chunkOf| && s.chunkOf[c] > h :: s.cleared <= c)
      && forall g: nat | h < g <= s.b.responsesStarted :: FreshStart(s.log, g)
  }

  ghost predicate Marked(s: Call) {
    s.b.hangupMark.Some? ==>
      && s.b.hangupMark.value == |s.cuts| >= 1
      && s.b.hangupAfterResponse.Some?
      && s.b.hangupAfterResponse.value < s.goodbye
      && FreshAndWhole(s.log, s.goodbye)
      && Closed(s, s.goodbye)
      && forall c | 0 <= c < |s.chunkOf| && s.chunkOf[c] == s.goodbye :: c < s.cuts[|s.cuts| - 1]
  }

  /** What `agent_hangup` has shown, apart from the request itself. */
  ghost predicate HeardInFull(s: Call) {
    && s.b.hangupAfterResponse.Some?
    && exists g: nat :: FreshAndWhole(s.log, g) && Closed(s, g) && WholeAudioPlayed(s, g)
  }

  ghost predicate Kept(s: Call) {
    if s.b.ended.None? then Links(s) && Audio(s) && Drops(s) && Pending(s) && Marked(s)
    else s.b.ended == Some(AgentHangup) ==> HeardInFull(s)
  }

  ghost predicate Inv(s: Call) {
    Kept(s) && Asked(s)
  }

  lemma LogGrows(log: seq<Event>, e: Event)
    requires !e.HangupRequested? && !e.Interrupted?
    ensures forall g: nat | FreshStart(log, g) :: FreshStart(log + [e], g)
    ensures forall g: nat | FreshAndWhole(log, g) :: FreshAndWhole(log + [e], g)
    ensures forall g: nat :: e == ResponseStarted(g) ==> FreshStart(log + [e], g)
    ensures forall g: nat :: e == ResponseCompleted(g) && FreshStart(log, g) ==> FreshAndWhole(log + [e], g)
  {
    var log' := log + [e];
    forall g: nat | FreshStart(log, g)
      ensures FreshStart(log', g) && (e == ResponseCompleted(g) ==> FreshAndWhole(log', g))
    {
      var p: nat :| StartedQuietly(log, g, p);
      assert StartedQuietly(log', g, p);
      if e == ResponseCompleted(g) {
        assert log'[|log|] == e;
        assert CompletedAfter(log', g, p);
      }
    }
    forall g: nat | FreshAndWhole(log, g) ensures FreshAndWhole(log', g) {
      var p: nat :| StartedQuietly(log, g, p) && CompletedAfter(log, g, p);
      var q :| p < q < |log| && log[q] == ResponseCompleted(g);
      assert log'[q] == log[q];
      assert StartedQuietly(log', g, p) && CompletedAfter(log', g, p);
    }
    if e.ResponseStarted? {
      assert StartedQuietly(log', e.response, |log|);
    }
  }

  // ---- Every step keeps it ----

  /** The bridge's own bookkeeping that most steps leave alone. */
  predicate SameHangup(b: B.State, b': B.State) {
    && b'.responsesStarted == b.responsesStarted && b'.responseActive == b.responseActive
    && b'.hangupAfterResponse == b.hangupAfterResponse && b'.hangupMark == b.hangupMark
    && b'.hangupMarks == b.hangupMarks
  }

  /** Steps after which the pending hang-up and its mark stand as they did. */
  lemma StandsAsBefore(s: Call, s': Call)
    requires Pending(s) && Marked(s) && SameHangup(s.b, s'.b)
    requires s'.chunkOf == s.chunkOf && s'.cleared == s.cleared && s'.cuts == s.cuts && s'.goodbye == s.goodbye
    requires s'.providerResponses == s.providerResponses && s'.providerActive == s.providerActive
    requires s'.log == s.log
    ensures Pending(s') && Marked(s')
  {
  }

  /** Steps that only append to the provider queue. */
  lemma QueueGrows(s: Call, s': Call, w: Work)
    requires Kept(s) && s.b.ended.None? && s'.b.ended.None?
    requires SameHangup(s.b, s'.b) && s'.queue == s.queue + [w]
    requires s' == s.(b := s'.b, queue := s'.queue, log := s'.log,
                      chunkOf := s'.chunkOf, providerResponses := s'.providerResponses, providerActive :=
                          s'.providerActive)
    requires s'.log == s.log || exists e :: s'.log == s.log + [e] && e.InterruptOrdered?
    requires
      || (Effectless(w) && s'.chunkOf == s.chunkOf && s'.providerResponses == s.providerResponses
          && s'.providerActive == s.providerActive)
      || (w.Created? && !s.providerActive && s'.chunkOf == s.chunkOf
          && s'.providerResponses == s.providerResponses + 1 && s'.providerActive)
      || (w.Done? && s.providerActive && s'.chunkOf == s.chunkOf
          && s'.providerResponses == s.providerResponses && !s'.providerActive)
      || (w.Delta? && w.chunk == |s.chunkOf| && s.providerActive && s'.chunkOf == s.chunkOf + [s.providerResponses]
          && s'.providerResponses == s.providerResponses && s'.providerActive)
    ensures Kept(s')
  {
    var work := Ahead(s.busy) + s.queue;
    assert Ahead(s'.busy) + s'.queue == work + [w];
    FollowsSnoc(work, s.b.responsesStarted, s.sent, s.b.responseActive, s.providerResponses, s.chunkOf,
        s.providerActive, w);
    FollowsLater(work, s.b.responsesStarted, s.sent, s.b.responseActive, s.providerResponses, s.chunkOf,
        s.providerActive);
    if s'.log != s.log {
      var e :| s'.log == s.log + [e] && e.InterruptOrdered?;
      LogGrows(s.log, e);
    }
    assert Audio(s');
    assert Pending(s');
    assert Marked(s');
  }

  /** Steps that read work with no effect on responses or audio. */
  lemma ReadsEffectless(s: Call, s': Call)
    requires Kept(s) && s.b.ended.None? && s'.b.ended.None? && SameHangup(s.b, s'.b)
    requires s' == s.(b := s'.b, clock := s'.clock, queue := s'.queue, busy := s'.busy, commits := s'.commits,
        creates := s'.creates, deletes := s'.deletes, log := s'.log)
    requires
      || Ahead(s'.busy) + s'.queue == Ahead(s.busy) + s.queue
      || (Ahead(s.busy) + s.queue != [] && Effectless((Ahead(s.busy) + s.queue)[0])
          && Ahead(s'.busy) + s'.queue == (Ahead(s.busy) + s.queue)[1..])
    requires s'.log == s.log || exists e :: s'.log == s.log + [e] && !e.HangupRequested? && !e.Interrupted?
    ensures Kept(s')
  {
    if s'.log != s.log {
      var e :| s'.log == s.log + [e] && !e.HangupRequested? && !e.Interrupted?;
      LogGrows(s.log, e);
    }
    assert Pending(s') && Marked(s');
  }

  /** A new response is fresh as long as nothing is asked or interrupted after its start. */
  lemma StartsFresh(s: Call, s': Call)
    requires Pending(s) && Marked(s) && s'.log == s.log + [ResponseStarted(s'.b.responsesStarted)]
    requires s'.b == s.b.(responsesStarted := s.b.responsesStarted + 1, responseActive := true)
    requires s'.chunkOf == s.chunkOf && s'.cleared == s.cleared && s'.goodbye == s.goodbye && s'.cuts == s.cuts
    requires s'.providerResponses == s.providerResponses && s'.providerActive == s.providerActive
    ensures Pending(s') && Marked(s')
  {
    LogGrows(s.log, ResponseStarted(s'.b.responsesStarted));
  }

  lemma ReadsCreation(s: Call, s': Call)
    requires Audio(s) && s.busy.Free? && s.queue != [] && s.queue[0].Created?
    requires s' == s.(b := s'.b, queue := s.queue[1..], busy := Tail, log := s'.log)
    requires s'.b == s.b.(responsesStarted := s.b.responsesStarted + 1, responseActive := true)
    ensures Audio(s')
  {
    assert Ahead(s.busy) + s.queue == s.queue;
    assert Ahead(s'.busy) + s'.queue == s.queue[1..];
  }

  lemma StartsResponse(s: Call, c: Settings)
    requires Kept(s) && Enabled(s, Dequeue) && s.queue[0].Created?
    ensures Kept(Step(s, c, Dequeue))
  {
    hide Audio, Pending, Marked, InOrder, MarksNamed;
    var s' := Step(s, c, Dequeue);
    ReadsCreation(s, s');
    StartsFresh(s, s');
  }

  /** An audio chunk leaves for Twilio. */
  lemma SendsAudio(s: Call, s': Call, chunk: nat)
    requires Kept(s) && s.b.ended.None? && s'.b.ended.None? && SameHangup(s.b, s'.b)
    requires s' == s.(b := s'.b, queue := s'.queue, busy := s'.busy,
                      toTwilio := s.toTwilio + [Item.Audio(chunk)], sent := s.sent + 1)
    requires Ahead(s.busy) + s.queue != [] && (Ahead(s.busy) + s.queue)[0].Delta?
        && (Ahead(s.busy) + s.queue)[0].chunk == chunk
    requires Ahead(s'.busy) + s'.queue == (Ahead(s.busy) + s.queue)[1..]
    ensures Kept(s')
  {
    SendsItem(s, s', Item.Audio(chunk));
    assert Audio(s') && Drops(s') && Pending(s') && Marked(s');
  }

  /** The link after one more message: an item, and for a mark its cut. */
  lemma SendsItem(s: Call, s': Call, item: Item)
    requires Links(s)
    requires if item.Audio? then item.chunk == s.sent else item.cut == s.sent
    requires s'.playout == s.playout && s'.toTwilio == s.toTwilio + [item] && s'.fate == s.fate && s'.echoes == s.echoes
    requires s'.sent == if item.Audio? then s.sent + 1 else s.sent
    requires s'.cuts == if item.MarkItem? then s.cuts + [s.sent] else s.cuts
    requires s'.b.hangupMarks == |s'.cuts|
    requires item.MarkItem? ==> item.name == |s'.cuts|
    ensures Links(s')
  {
    var items := s.playout + s.toTwilio;
    assert s'.playout + s'.toTwilio == items + [item];
    InOrderSnoc(items, |s.fate|, s.sent, item);
    assert MarksNamed(items + [item], s'.cuts);
  }

  /** The response just completed becomes the goodbye whose audio the new mark follows. */
  lemma MarksGoodbye(s: Call, s': Call)
    requires Audio(s) && Pending(s) && s.b.hangupMarks == |s.cuts|
    requires s.busy.DonePending? && SendsMark(s.b.(responseActive := false))
    requires s' == Continue(s)
    ensures Marked(s')
  {
    var g := s.b.responsesStarted;
    assert Ahead(s.busy) + s.queue == [Done] + s.queue;
    assert ([Done] + s.queue)[1..] == s.queue;
    FollowsLater(s.queue, g, s.sent, false, s.providerResponses, s.chunkOf, s.providerActive);
    LogGrows(s.log, ResponseCompleted(g));
    assert FreshStart(s.log, g);
    assert s'.log == s.log + [ResponseCompleted(g)];
  }

  /** The queue and the pending hang-up once the response is over. */
  lemma ReadsCompletion(s: Call, s': Call)
    requires Audio(s) && Pending(s) && s.busy.DonePending? && s' == Continue(s)
    ensures Audio(s') && Pending(s')
  {
    assert Ahead(s.busy) + s.queue == [Done] + s.queue;
    assert Ahead(s'.busy) + s'.queue == s.queue;
    LogGrows(s.log, ResponseCompleted(s.b.responsesStarted));
  }

  lemma LeavesMark(s: Call, s': Call)
    requires Links(s) && Marked(s) && s.busy.DonePending? && s' == Continue(s)
    requires !SendsMark(s.b.(responseActive := false))
    ensures Links(s') && Marked(s')
  {
    LogGrows(s.log, ResponseCompleted(s.b.responsesStarted));
  }

  lemma CompletesResponse(s: Call, c: Settings)
    requires Kept(s) && Enabled(s, Resume) && s.busy.DonePending?
    ensures Kept(Step(s, c, Resume))
  {
    var s' := Step(s, c, Resume);
    ReadsCompletion(s, s');
    if SendsMark(s.b.(responseActive := false)) {
      MarksGoodbye(s, s');
      SendsItem(s, s', MarkItem(s.b.hangupMarks + 1, s.sent));
    } else {
      LeavesMark(s, s');
    }
  }

  /** After an interruption the hang-up waits for a response that has not started yet. */
  lemma WaitsAgain(s: Call, s': Call)
    requires Audio(s) && Drops(s) && s.busy.Free?
    requires s'.b.hangupMark.None? && s'.chunkOf == s.chunkOf && s'.cleared == s.sent
    requires s'.b.responsesStarted == s.b.responsesStarted
    requires s'.b.hangupAfterResponse.Some? ==> s'.b.hangupAfterResponse.value == s.b.responsesStarted
    ensures Pending(s') && Marked(s')
  {
  }

  /** Sending `clear` moves the bound on what can be dropped. */
  lemma ClearsSent(s: Call, s': Call)
    requires Drops(s) && s'.fate == s.fate && s'.sent == s'.cleared == s.sent
    requires s'.toTwilio == s.toTwilio + [ClearItem(s.sent)]
    ensures Drops(s')
  {
  }

  /** What an interruption does to the call. */
  lemma InterruptEffect(s: Call, c: Settings)
    requires Enabled(s, Dequeue) && s.queue[0].Interruption?
    ensures var s', b := Step(s, c, Dequeue), s.b;
      && s' == s.(b := s'.b, queue := s.queue[1..], busy := Tail, toTwilio := s.toTwilio + [ClearItem(s.sent)],
                  cleared := s.sent, cancels := s.cancels + (if b.responseActive then 1 else 0),
                  log := s.log + [Interrupted(s.queue[0].turn)])
      && s'.b.ended == b.ended && s'.b.hangupMarks == b.hangupMarks
      && s'.b.responsesStarted == b.responsesStarted && s'.b.responseActive == b.responseActive
      && (if b.hangupAfterResponse.None?
          then s'.b.hangupAfterResponse.None? && s'.b.hangupMark == b.hangupMark
          else s'.b.hangupAfterResponse == Some(b.responsesStarted) && s'.b.hangupMark.None?)
  {
  }

  lemma Interrupts(s: Call, c: Settings)
    requires Kept(s) && Enabled(s, Dequeue) && s.queue[0].Interruption?
    ensures Kept(Step(s, c, Dequeue))
  {
    InterruptEffect(s, c);
    hide Pending, Handle, Follows, FreshAndWhole, InOrder, MarksNamed;
    var s' := Step(s, c, Dequeue);
    assert Ahead(s.busy) + s.queue == s.queue;
    assert Ahead(s'.busy) + s'.queue == s.queue[1..];
    StillFollows(s.queue, s);
    SendsItem(s, s', ClearItem(s.sent));
    WaitsAgain(s, s');
    ClearsSent(s, s');
  }

  lemma StillFollows(work: seq<Work>, s: Call)
    requires work != [] && Effectless(work[0])
    requires Follows(work, s.b.responsesStarted, s.sent, s.b.responseActive, s.providerResponses, s.chunkOf,
                     s.providerActive)
    ensures Follows(work[1..], s.b.responsesStarted, s.sent, s.b.responseActive, s.providerResponses, s.chunkOf,
                    s.providerActive)
  {
  }

  lemma {:induction false} AllDropped(items: seq<Item>)
    ensures forall i | 0 <= i < |DroppedBy(items)| :: DroppedBy(items)[i] == Dropped
  {
    if items != [] {
      AllDropped(items[1..]);
    }
  }

  lemma NamedApart(front: seq<Item>, back: seq<Item>, cuts: seq<nat>)
    requires MarksNamed(front + back, cuts)
    ensures MarksNamed(front, cuts) && (back != [] ==> MarksNamed(back[1..], cuts))
  {
    assert forall i | 0 <= i < |front| :: front[i] == (front + back)[i];
    assert forall i | 0 <= i < |back| - 1 :: back[1..][i] == (front + back)[|front| + i + 1];
  }

  /** The link after `clear` reached Twilio: nothing is left in the playout queue. */
  lemma ClearsLink(s: Call)
    requires Links(s) && s.toTwilio != [] && s.toTwilio[0].ClearItem?
    ensures Links(Receive(s))
    ensures |Receive(s).fate| == s.toTwilio[0].cut
  {
    var s' := Receive(s);
    var mid := InOrderSplit(s.playout, s.toTwilio, |s.fate|, s.sent);
    assert s'.playout + s'.toTwilio == s.toTwilio[1..];
    NamedApart(s.playout, s.toTwilio, s.cuts);
    hide MarksNamed, DroppedBy, MarksOf;
    MarksCut(s.playout, s.cuts, |s.fate|, mid);
  }

  lemma TwilioClears(s: Call, c: Settings)
    requires Kept(s) && Enabled(s, TwilioReceives) && s.toTwilio[0].ClearItem?
    ensures Kept(Step(s, c, TwilioReceives))
  {
    var s' := Step(s, c, TwilioReceives);
    ClearsLink(s);
    AllDropped(s.playout);
    assert Drops(s') by {
      InOrderBounds(s'.playout + s'.toTwilio, |s'.fate|, s.sent);
      assert forall i | 0 <= i < |s'.toTwilio| :: s'.toTwilio[i] == s.toTwilio[i + 1];
    }
    StandsAsBefore(s, s');
    assert Audio(s');
  }

  /** The link after Twilio finished with the head of its queue. */
  lemma PlaysLink(s: Call)
    requires Links(s) && s.playout != []
    ensures Links(Play(s)) && |Play(s).fate| <= s.sent
  {
    var s' := Play(s);
    var items := s.playout + s.toTwilio;
    assert items[0] == s.playout[0];
    assert s'.playout + s'.toTwilio == items[1..];
    InOrderBounds(items[1..], |s'.fate|, s.sent);
    assert MarksNamed(items[1..], s.cuts) by {
      assert forall i | 0 <= i < |items| - 1 :: items[1..][i] == items[i + 1];
    }
  }

  lemma TwilioMoves(s: Call, c: Settings, l: Label)
    requires Kept(s) && Enabled(s, l)
    requires (l.TwilioReceives? && !s.toTwilio[0].ClearItem?) || l.TwilioPlays?
    ensures Kept(Step(s, c, l))
  {
    hide Pending, Marked;
    var s' := Step(s, c, l);
    if l.TwilioPlays? {
      PlaysLink(s);
    } else {
      assert s'.playout + s'.toTwilio == s.playout + s.toTwilio;
      assert forall i | 0 <= i < |s'.toTwilio| :: s'.toTwilio[i] == s.toTwilio[i + 1];
    }
    StandsAsBefore(s, s');
    assert Audio(s') && Drops(s');
  }

  /** Where the promise is cashed in: the echoed mark is the current one. */
  lemma EchoEndsCall(s: Call, c: Settings)
    requires Kept(s) && Enabled(s, EchoArrives)
    ensures Kept(Step(s, c, EchoArrives))
  {
    var s' := Step(s, c, EchoArrives);
    assert forall i | 0 <= i < |s'.echoes| :: s'.echoes[i] == s.echoes[i + 1];
    if s.b.hangupMark == Some(s.echoes[0]) {
      assert EchoDue(s.echoes[0], s.cuts, |s.fate|);
      forall k | 0 <= k < |s.chunkOf| && s.chunkOf[k] == s.goodbye
        ensures k < |s.fate| && s.fate[k] == Played
      {
        assert k < s.cuts[|s.cuts| - 1] <= |s.fate|;
        assert s.cleared <= k;
      }
      assert WholeAudioPlayed(s', s.goodbye);
      assert FreshAndWhole(s'.log, s.goodbye) && Closed(s', s.goodbye);
    } else {
      assert Links(s') && Audio(s') && Drops(s') && Pending(s') && Marked(s');
    }
  }

  lemma AsksToHangUp(s: Call, c: Settings)
    requires Kept(s) && Enabled(s, AgentHangsUp)
    ensures Kept(Step(s, c, AgentHangsUp))
  {
    var s' := Step(s, c, AgentHangsUp);
    if s.b.hangupAfterResponse.None? {
      assert Pending(s') && Marked(s');
    }
    assert Links(s') && Audio(s') && Drops(s');
  }

  lemma ReadsAudio(s: Call, c: Settings)
    requires Kept(s) && Enabled(s, Dequeue) && s.queue[0].Delta?
    ensures Kept(Step(s, c, Dequeue))
  {
    var s' := Step(s, c, Dequeue);
    assert Ahead(s.busy) + s.queue == s.queue;
    if s.b.answerPendingSince.Some? {
      assert Ahead(s'.busy) + s'.queue == s.queue;
      ReadsEffectless(s, s');
    } else {
      assert Ahead(s'.busy) + s'.queue == s.queue[1..];
      SendsAudio(s, s', s.queue[0].chunk);
    }
  }

  predicate ByStander(w: Work) {
    w.Done? || w.Started? || w.Stopped? || w.Committed? || w.Other?
  }

  /** Such work touches neither the link nor the hang-up. */
  ghost predicate Touches(s: Call, s': Call, w: Work) {
    && SameHangup(s.b, s'.b) && s'.b.ended == s.b.ended
    && s' == s.(b := s'.b, busy := s'.busy, commits := s'.commits, creates := s'.creates,
                deletes := s'.deletes, log := s'.log)
    && Ahead(s'.busy) == (if w.Done? then [w] else [])
    && (s'.log == s.log || exists e :: s'.log == s.log + [e] && !e.HangupRequested? && !e.Interrupted?)
  }

  lemma HandlesSpeech(s: Call, c: Settings, w: Work)
    requires (w.Started? || w.Stopped?) && s.busy.Free?
    ensures Touches(s, Handle(s, c, w), w)
  {
    hide Speaking, WithoutTurnTimer;
    if w.Started? {
      var e := TurnOpened(s.b.turnsOpened, s.clock, Speaking(s.b, s.clock));
      assert Handle(s, c, w).log == s.log + [e];
    } else if s.b.callerTurn.Some? {
      assert Handle(s, c, w).log == s.log + [TurnStopped(s.b.callerTurn.value.id)];
    }
  }

  lemma HandlesCommit(s: Call, c: Settings, w: Work)
    requires w.Committed? && s.busy.Free?
    ensures Touches(s, Handle(s, c, w), w)
  {
    hide Speaking;
    if Ignores(s.b, s.clock) {
      var e := Event.Ignored(s.b.callerTurn.value.id, Speaking(s.b, s.clock), w.hasItem);
      assert Handle(s, c, w).log == s.log + [e];
    } else {
      var e := Answered(if s.b.callerTurn.Some? then Some(s.b.callerTurn.value.id) else None, Speaking(s.b, s.clock));
      assert Handle(s, c, w).log == s.log + [e];
    }
  }

  lemma HandlesRest(s: Call, c: Settings, w: Work)
    requires ByStander(w) && s.busy.Free?
    ensures Touches(s, Handle(s, c, w), w)
  {
    if w.Started? || w.Stopped? {
      HandlesSpeech(s, c, w);
    } else if w.Committed? {
      HandlesCommit(s, c, w);
    }
  }

  lemma ReadsRest(s: Call, c: Settings)
    requires Kept(s) && Enabled(s, Dequeue) && ByStander(s.queue[0])
    ensures Kept(Step(s, c, Dequeue))
  {
    var s' := Step(s, c, Dequeue);
    HandlesRest(s.(queue := s.queue[1..]), c, s.queue[0]);
    hide Handle;
    assert Ahead(s.busy) + s.queue == s.queue;
    assert Ahead(s'.busy) + s'.queue == if s.queue[0].Done? then s.queue else s.queue[1..];
    ReadsEffectless(s, s');
  }

  lemma DequeueKeeps(s: Call, c: Settings)
    requires Kept(s) && Enabled(s, Dequeue)
    ensures Kept(Step(s, c, Dequeue))
  {
    match s.queue[0]
    case Created => StartsResponse(s, c);
    case Delta(_, _) => ReadsAudio(s, c);
    case Interruption(_) => Interrupts(s, c);
    case _ => ReadsRest(s, c);
  }

  lemma ResumesAudio(s: Call, c: Settings)
    requires Kept(s) && Enabled(s, Resume) && s.busy.DeltaPending?
    ensures Kept(Step(s, c, Resume))
  {
    hide Kept, PlaybackAfter;
    var s' := Step(s, c, Resume);
    assert Ahead(s'.busy) + s'.queue == (Ahead(s.busy) + s.queue)[1..];
    SendsAudio(s, s', s.busy.chunk);
  }

  lemma ResumeKeeps(s: Call, c: Settings)
    requires Kept(s) && Enabled(s, Resume)
    ensures Kept(Step(s, c, Resume))
  {
    hide Kept;
    var s' := Step(s, c, Resume);
    match s.busy
    case Tail =>
      assert Ahead(s'.busy) + s'.queue == Ahead(s.busy) + s.queue;
      ReadsEffectless(s, s');
    case DeltaPending(_, _) => ResumesAudio(s, c);
    case DonePending => CompletesResponse(s, c);
  }

  lemma StepKept(s: Call, c: Settings, l: Label)
    requires Kept(s) && Enabled(s, l)
    ensures Kept(Step(s, c, l))
  {
    hide Links, Audio, Drops, Pending, Marked, Handle, Continue;
    var s' := Step(s, c, l);
    match l
    case Tick(_) => ReadsEffectless(s, s');
    case AgentHangsUp => AsksToHangUp(s, c);
    case ProviderCreates => QueueGrows(s, s', Created);
    case ProviderSpeaks(length) => QueueGrows(s, s', Delta(|s.chunkOf|, length));
    case ProviderCompletes => QueueGrows(s, s', Done);
    case ProviderReports(w) => QueueGrows(s, s', w);
    case Dequeue => DequeueKeeps(s, c);
    case Resume => ResumeKeeps(s, c);
    case BargeInFires(turn) =>
      if OrdersInterrupt(s.b, turn) {
        QueueGrows(s, s', Interruption(turn));
      } else {
        ReadsEffectless(s, s');
      }
    case TwilioReceives =>
      if s.toTwilio[0].ClearItem? {
        TwilioClears(s, c);
      } else {
        TwilioMoves(s, c, l);
      }
    case TwilioPlays => TwilioMoves(s, c, l);
    case EchoArrives => EchoEndsCall(s, c);
    case HandlerFails =>
    case HangupTimerFires =>
    case StreamEnds(_) =>
  }

  lemma StepKeeps(s: Call, c: Settings, l: Label)
    requires Inv(s) && Enabled(s, l)
    ensures Inv(Step(s, c, l))
  {
    hide Kept, Asked;
    StepKept(s, c, l);
    AskedKeeps(s, c, l);
  }

  lemma {:induction false} ExecuteKeeps(s: Call, c: Settings, labels: seq<Label>)
    requires Inv(s) && Executes(s, c, labels)
    ensures Inv(Execute(s, c, labels))
    decreases |labels|
  {
    if labels != [] {
      StepKeeps(s, c, labels[0]);
      ExecuteKeeps(Step(s, c, labels[0]), c, labels[1..]);
    }
  }

  /** In every run: a call ended with `agent_hangup` has kept the promise. */
  lemma HangupHeardInFull(c: Settings, labels: seq<Label>)
    requires Executes(VoiceCall.INITIAL, c, labels)
    requires Execute(VoiceCall.INITIAL, c, labels).b.ended == Some(AgentHangup)
    ensures GoodbyeHeard(Execute(VoiceCall.INITIAL, c, labels))
  {
    ExecuteKeeps(VoiceCall.INITIAL, c, labels);
    var s := Execute(VoiceCall.INITIAL, c, labels);
    var g: nat :| FreshAndWhole(s.log, g) && Closed(s, g) && WholeAudioPlayed(s, g);
    var p := RequestPrecedes(s.log, g);
  }

  // ---- The promise is not empty ----

  lemma {:induction false} ExecuteSnoc(s: Call, c: Settings, labels: seq<Label>, l: Label)
    requires Executes(s, c, labels) && Enabled(Execute(s, c, labels), l)
    ensures Executes(s, c, labels + [l]) && Execute(s, c, labels + [l]) == Step(Execute(s, c, labels), c, l)
    decreases |labels|
  {
    if labels == [] {
      assert labels + [l] == [l];
    } else {
      assert (labels + [l])[1..] == labels[1..] + [l];
      ExecuteSnoc(Step(s, c, labels[0]), c, labels[1..], l);
    }
  }

  /** The hang-up is requested and one response has been spoken and completed, its mark just sent. */
  function Spoken(c: Settings): Call {
    VoiceCall.INITIAL.(
      b := B.INITIAL.(responsesStarted := 1, playbackEndsAt := 3, hangupAfterResponse := Some(0), hangupMark := Some(1),
                      hangupMarks := 1, hangupTimer := Some(c.hangupTimeout)),
      providerResponses := 1, chunkOf := [1], sent := 1, toTwilio := [Item.Audio(0), MarkItem(1, 1)], cuts := [1],
      goodbye := 1, log := [HangupRequested, ResponseStarted(1), ResponseCompleted(1)])
  }

  /** The same, before the bridge has read any of it. */
  function Said(c: Settings): Call {
    VoiceCall.INITIAL.(
      b := B.INITIAL.(hangupAfterResponse := Some(0), hangupTimer := Some(c.hangupTimeout)),
      queue := [Created, Delta(0, 4), Done], providerResponses := 1, chunkOf := [1], log := [HangupRequested])
  }

  lemma ReachSaid(c: Settings) returns (labels: seq<Label>)
    ensures Executes(VoiceCall.INITIAL, c, labels) && Execute(VoiceCall.INITIAL, c, labels) == Said(c)
  {
    var s := VoiceCall.INITIAL;
    labels := [];
    ExecuteSnoc(s, c, labels, AgentHangsUp);         labels := labels + [AgentHangsUp];
    ExecuteSnoc(s, c, labels, ProviderCreates);      labels := labels + [ProviderCreates];
    ExecuteSnoc(s, c, labels, ProviderSpeaks(4));    labels := labels + [ProviderSpeaks(4)];
    ExecuteSnoc(s, c, labels, ProviderCompletes);    labels := labels + [ProviderCompletes];
  }

  lemma ReachSpoken(c: Settings) returns (labels: seq<Label>)
    ensures Executes(VoiceCall.INITIAL, c, labels) && Execute(VoiceCall.INITIAL, c, labels) == Spoken(c)
  {
    var s := VoiceCall.INITIAL;
    labels := ReachSaid(c);
    ExecuteSnoc(s, c, labels, Dequeue);              labels := labels + [Dequeue];
    ExecuteSnoc(s, c, labels, Resume);               labels := labels + [Resume];
    ExecuteSnoc(s, c, labels, Dequeue);              labels := labels + [Dequeue];
    ExecuteSnoc(s, c, labels, Dequeue);              labels := labels + [Dequeue];
    ExecuteSnoc(s, c, labels, Resume);               labels := labels + [Resume];
  }

  /** One whole spoken response after the request, played to its mark: the call ends with `agent_hangup`. */
  lemma AgentCanHangUp(c: Settings) returns (labels: seq<Label>)
    ensures Executes(VoiceCall.INITIAL, c, labels)
    ensures Execute(VoiceCall.INITIAL, c, labels).b.ended == Some(AgentHangup)
    ensures Execute(VoiceCall.INITIAL, c, labels).fate == [Played]
  {
    var s := VoiceCall.INITIAL;
    labels := ReachSpoken(c);
    ExecuteSnoc(s, c, labels, TwilioReceives);       labels := labels + [TwilioReceives];
    ExecuteSnoc(s, c, labels, TwilioReceives);       labels := labels + [TwilioReceives];
    ExecuteSnoc(s, c, labels, TwilioPlays);          labels := labels + [TwilioPlays];
    ExecuteSnoc(s, c, labels, TwilioPlays);          labels := labels + [TwilioPlays];
    ExecuteSnoc(s, c, labels, EchoArrives);          labels := labels + [EchoArrives];
  }
}
