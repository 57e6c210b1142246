/**
 * One run of the bounded agent loop against the voice loop's channels, interleaving with whatever the provider
 * pushes: the agent makes its next model call only when the one before was answered by its own request.
 */
module VoiceSession {
  import opened Base
  import opened AgentWorld
  import opened VoiceLoop

  datatype Label =
    | MakeCall                                    // the agent's next model call
    | ProviderTurn(completed: bool)
    | ProviderToolCall(callId: string, name: string)
    | Interruption
    | Stop

  /** Model calls made, and responses the provider has pushed. */
  datatype Progress = Progress(made: nat, pushed: seq<Response>)

  function PushedBy(l: Label): seq<Response> {
    match l
    case ProviderTurn(true) => [Say("provider_turn_completed", false)]
    case ProviderToolCall(callId, name) => [CallTool(Some(callId), name)]
    case Stop => [Say("provider_stop", true)]
    case _ => []
  }

  function Next(p: Progress, l: Label): Progress {
    Progress(p.made + (if l.MakeCall? then 1 else 0), p.pushed + PushedBy(l))
  }

  /** The last call's request is settled, and with what the run's model returned. */
  predicate Answered(w: World, p: Progress) {
    p.made > 0 ==> p.made <= |p.pushed| && w.model(p.made - 1) == Returned(p.pushed[p.made - 1])
  }

  predicate Enabled(w: World, calls: seq<seq<Message>>, p: Progress, l: Label) {
    l.MakeCall? ==> p.made < |calls| && Answered(w, p)
  }

  predicate Interleaves(w: World, calls: seq<seq<Message>>, p: Progress, labels: seq<Label>) {
    labels == [] ||
    (var n := |labels| - 1;
     Interleaves(w, calls, p, labels[..n]) && Enabled(w, calls, Reach(p, labels[..n]), labels[n]))
  }

  function Reach(p: Progress, labels: seq<Label>): Progress {
    if labels == [] then p else Next(Reach(p, labels[..|labels| - 1]), labels[|labels| - 1])
  }

  const START := Progress(0, [])

  /** Every call but the last was answered by its own request. */
  predicate InStep(w: World, calls: seq<seq<Message>>, p: Progress) {
    && p.made <= |calls| && p.made <= |p.pushed| + 1
    && (forall k | 0 <= k < p.made - 1 :: w.model(k) == Returned(p.pushed[k]))
    && (forall r | r in p.pushed && r.CallTool? :: r.id.Some?)
  }

  lemma {:induction false} StaysInStep(w: World, calls: seq<seq<Message>>, labels: seq<Label>)
    requires Interleaves(w, calls, START, labels)
    ensures InStep(w, calls, Reach(START, labels))
  {
    if labels != [] {
      StaysInStep(w, calls, labels[..|labels| - 1]);
    }
  }

  lemma PrefixInterleaves(w: World, calls: seq<seq<Message>>, labels: seq<Label>, n: nat)
    requires n < |labels| && Interleaves(w, calls, START, labels[..n + 1])
    ensures Interleaves(w, calls, START, labels[..n])
    ensures Enabled(w, calls, Reach(START, labels[..n]), labels[n])
    ensures Reach(START, labels[..n + 1]) == Next(Reach(START, labels[..n]), labels[n])
  {
    assert labels[..n + 1][..n] == labels[..n];
  }

  lemma {:induction false} AllPrefixes(w: World, calls: seq<seq<Message>>, labels: seq<Label>, n: nat)
    requires n <= |labels| && Interleaves(w, calls, START, labels)
    ensures Interleaves(w, calls, START, labels[..n])
    decreases |labels| - n
  {
    if n == |labels| {
      assert labels[..n] == labels;
    } else {
      AllPrefixes(w, calls, labels, n + 1);
      PrefixInterleaves(w, calls, labels, n);
    }
  }

  /** At most one request is outstanding: the agent waits for each of its calls. */
  lemma OneOutstanding(w: World, calls: seq<seq<Message>>, p: Progress, queue: seq<Response>, waiting: seq<nat>,
                       settled: map<nat, Response>)
    requires InStep(w, calls, p) && Paired(p.pushed, p.made, queue, waiting, settled)
    ensures |waiting| <= 1
  {
    RangeLength(|p.pushed|, p.made);
  }

  lemma CallsPrefix(w: World, calls: seq<seq<Message>>, n: nat)
    requires Calls(w, calls) && n <= |calls|
    ensures Calls(w, calls[..n])
  {
    hide Follows;
    forall k | 0 <= k < n - 1 ensures Follows(w, k, calls[..n][k], calls[..n][k + 1]) {
      assert Follows(w, k, calls[k], calls[k + 1]);
    }
  }

  /** One step of either side, on the loop's object. */
  method Perform(loop: Loop, ghost w: World, calls: seq<seq<Message>>, p: Progress, l: Label)
    requires loop.Valid() && loop.sendsToolResults && loop.pushedResponses == p.pushed
    requires InStep(w, calls, p) && Enabled(w, calls, p, l) && loop.shown == calls[..p.made]
    requires forall k | 0 <= k < |calls| :: calls[k] != []
    modifies loop
    ensures loop.Valid() && loop.pushedResponses == Next(p, l).pushed && loop.shown == calls[..Next(p, l).made]
    ensures l.MakeCall? ==> loop.asks == old(loop.asks) + 1
    ensures l.Stop? ==> loop.waiters == [] && loop.providerResponseWaiters == []
  {
    OneOutstanding(w, calls, p, loop.providerResponses, loop.providerResponseWaiters, loop.responses);
    match l
    case MakeCall =>
      assert |loop.shown| == p.made && calls[..p.made + 1] == calls[..p.made] + [calls[p.made]];
      var _ := loop.ModelTurn(calls[p.made]);
    case ProviderTurn(completed) => loop.OnProviderTurn(completed);
    case ProviderToolCall(callId, name) => loop.OnProviderToolCall(callId, name);
    case Interruption => loop.OnInterruption();
    case Stop => loop.OnStop();
  }

  /** What the channels hold and what was sent, wherever the two sides are. */
  lemma Delivered(loop: Loop, w: World, calls: seq<seq<Message>>, p: Progress)
    requires loop.Valid() && loop.sendsToolResults && Calls(w, calls) && InStep(w, calls, p)
    requires loop.pushedResponses == p.pushed && loop.shown == calls[..p.made]
    ensures |loop.providerResponseWaiters| <= 1
    ensures p.made > 0 ==> Ids(loop.sent) == CallIds(p.pushed[..p.made - 1])
  {
    OneOutstanding(w, calls, p, loop.providerResponses, loop.providerResponseWaiters, loop.responses);
    CallsPrefix(w, calls, p.made);
    hide Fed, Calls, Ids, CallIds, Sent;
    if p.made > 0 {
      ResultsReachTheirCalls(w, calls[..p.made], p.pushed, p.made, loop.providerResponses,
                             loop.providerResponseWaiters, loop.responses);
    }
  }

  /**
   * In every interleaving of a run's model calls with the provider's pushes: the agent never has two requests
   * outstanding, a stop leaves it none, and results were sent back exactly under the ids of the provider's
   * tool calls that another model call followed, each once and in order.
   */
  method Session(loop: Loop, ghost w: World, calls: seq<seq<Message>>, labels: seq<Label>)
    requires loop.Valid() && loop.sendsToolResults && loop.shown == [] && loop.pushedResponses == []
    requires Calls(w, calls) && Interleaves(w, calls, START, labels)
    modifies loop
    ensures loop.Valid() && |loop.providerResponseWaiters| <= 1
    ensures labels != [] && labels[|labels| - 1].Stop? ==> loop.waiters == [] && loop.providerResponseWaiters == []
    ensures var p := Reach(START, labels);
      && p.made <= |calls| && loop.pushedResponses == p.pushed && loop.shown == calls[..p.made]
      && (p.made > 0 ==> p.made - 1 <= |p.pushed| && Ids(loop.sent) == CallIds(p.pushed[..p.made - 1]))
  {
    NoneEmpty(w, calls);
    hide Loop.Valid, Ids, CallIds;
    var i, p := 0, START;
    while i < |labels|
      invariant i <= |labels| && loop.Valid()
      invariant p == Reach(START, labels[..i]) && p.made <= |calls|
      invariant loop.pushedResponses == p.pushed && loop.shown == calls[..p.made]
      invariant i > 0 && labels[i - 1].Stop? ==> loop.waiters == [] && loop.providerResponseWaiters == []
    {
      AllPrefixes(w, calls, labels, i + 1);
      PrefixInterleaves(w, calls, labels, i);
      StaysInStep(w, calls, labels[..i]);
      StaysInStep(w, calls, labels[..i + 1]);
      hide Interleaves, Reach, Calls, Enabled;
      Perform(loop, w, calls, p, labels[i]);
      p := Next(p, labels[i]);
      i := i + 1;
    }
    assert labels[..i] == labels;
    StaysInStep(w, calls, labels);
    Delivered(loop, w, calls, p);
  }

  /** The model never sees an empty history. */
  lemma NoneEmpty(w: World, calls: seq<seq<Message>>)
    requires Calls(w, calls)
    ensures forall k | 0 <= k < |calls| :: calls[k] != []
  {
    forall k | 0 <= k < |calls| ensures calls[k] != [] {
      if k > 0 {
        assert Follows(w, k - 1, calls[k - 1], calls[k - 1 + 1]);
      }
    }
  }
}
