/**
 * The two channels between a realtime provider and the bounded agent loop, `createDefineAgentVoiceLoop`
 * of packages/voice/src/realtime.ts. A promise is named by the number of the call that made it.
 */
module VoiceLoop {
  import opened Base
  import opened AgentWorld

  /** The numbers from `lo` up to `hi`: the calls still waiting, oldest first. */
  function Range(lo: nat, hi: nat): seq<nat>
    decreases hi - lo
  {
    if lo >= hi then [] else [lo] + Range(lo + 1, hi)
  }

  lemma {:induction false} RangeSnoc(lo: nat, hi: nat)
    requires lo <= hi
    ensures Range(lo, hi + 1) == Range(lo, hi) + [hi]
    decreases hi - lo
  {
    if lo < hi {
      RangeSnoc(lo + 1, hi);
      assert [lo] + (Range(lo + 1, hi) + [hi]) == ([lo] + Range(lo + 1, hi)) + [hi];
    } else {
      assert Range(hi + 1, hi + 1) == [];
    }
  }

  /** The inputs among the first answers, without the nulls of a closed queue. */
  function Received(answers: map<nat, Option<string>>, n: nat): seq<string> {
    if n == 0 then []
    else
      var before := Received(answers, n - 1);
      if n - 1 in answers && answers[n - 1].Some? then before + [answers[n - 1].value] else before
  }

  lemma {:induction false} ReceivedFrame(answers: map<nat, Option<string>>, k: nat, answer: Option<string>, n: nat)
    requires n <= k
    ensures Received(answers[k := answer], n) == Received(answers, n)
  {
    if n > 0 {
      ReceivedFrame(answers, k, answer, n - 1);
    }
  }

  /** With no nulls, the k-th read is answered by the k-th input pushed. */
  lemma {:induction false} ReceivedAll(answers: map<nat, Option<string>>, n: nat)
    requires forall k: nat | k < n :: k in answers && answers[k].Some?
    ensures |Received(answers, n)| == n
    ensures forall k: nat | k < n :: Received(answers, n)[k] == answers[k].value
  {
    if n > 0 {
      ReceivedAll(answers, n - 1);
    }
  }

  // ---- Provider responses ----

  /** Request k is settled exactly when a k-th response was pushed, with that response; only the surplus waits. */
  ghost predicate Paired(pushed: seq<Response>, asked: nat,
                         queue: seq<Response>, waiting: seq<nat>, settled: map<nat, Response>) {
    && (forall k: nat :: k in settled <==> k < asked && k < |pushed|)
    && (forall k | k in settled :: settled[k] == pushed[k])
    && queue == (if asked <= |pushed| then pushed[asked..] else [])
    && waiting == Range(|pushed|, asked)
  }

  /** Both sides at once never wait: a queued response and a live request exclude each other. */
  lemma NeverBoth(pushed: seq<Response>, asked: nat, queue: seq<Response>, waiting: seq<nat>, settled: map<nat,
      Response>)
    requires Paired(pushed, asked, queue, waiting, settled)
    ensures queue == [] || waiting == []
    ensures |queue| - |waiting| == |pushed| - asked
  {
    RangeLength(|pushed|, asked);
  }

  lemma {:induction false} RangeLength(lo: nat, hi: nat)
    ensures |Range(lo, hi)| == if lo <= hi then hi - lo else 0
    decreases hi - lo
  {
    if lo < hi {
      RangeLength(lo + 1, hi);
    }
  }

  /** The call ids of the tool calls among the responses. */
  function CallIds(responses: seq<Response>): seq<Option<string>> {
    if responses == [] then []
    else
      var before, last := CallIds(responses[..|responses| - 1]), responses[|responses| - 1];
      if last.CallTool? then before + [last.id] else before
  }

  /** The ids under which tool results are sent. */
  function Ids(results: seq<Message>): seq<Option<string>> {
    if results == [] then []
    else
      var before, last := Ids(results[..|results| - 1]), results[|results| - 1];
      before + [if last.Tool? && last.id.Given? then Some(last.id.id) else None]
  }

  /** A model call that follows a response ends with its tool result exactly if it was a tool call. */
  lemma ResultOf(w: World, k: nat, before: seq<Message>, after: seq<Message>)
    requires Follows(w, k, before, after) && w.model(k).Returned?
    requires w.model(k).value.CallTool? ==> w.model(k).value.id.Some?
    ensures after != []
    ensures var last := after[|after| - 1];
      && (last.Tool? <==> w.model(k).value.CallTool?)
      && (last.Tool? ==> last.id == Given(w.model(k).value.id.value))
  {
  }

  lemma IdsSnoc(results: seq<Message>, m: Message)
    ensures Ids(results + [m]) == Ids(results) + [if m.Tool? && m.id.Given? then Some(m.id.id) else None]
  {
    assert (results + [m])[..|results|] == results;
  }

  lemma CallIdsSnoc(responses: seq<Response>, n: nat)
    requires n < |responses|
    ensures CallIds(responses[..n + 1]) ==
            if responses[n].CallTool? then CallIds(responses[..n]) + [responses[n].id] else CallIds(responses[..n])
  {
    assert responses[..n + 1][..n] == responses[..n];
  }

  lemma {:induction false} SentIds(w: World, calls: seq<seq<Message>>, pushed: seq<Response>)
    requires Calls(w, calls) && calls != [] && |calls| - 1 <= |pushed|
    requires forall k | 0 <= k < |calls| - 1 :: w.model(k) == Returned(pushed[k])
    requires forall k | 0 <= k < |calls| - 1 :: pushed[k].CallTool? ==> pushed[k].id.Some?
    ensures Ids(Sent(calls)) == CallIds(pushed[..|calls| - 1])
  {
    var n := |calls| - 1;
    if n == 0 {
      assert calls[0] == [User(AgentWorld.Input(w, 0))];
      assert Sent(calls[..0]) == [] && Sent(calls) == [];
    } else {
      assert Follows(w, n - 1, calls[n - 1], calls[n]);
      assert Calls(w, calls[..n]) by {
        assert forall k | 0 <= k < n - 1 :: Follows(w, k, calls[k], calls[k + 1]);
      }
      ResultOf(w, n - 1, calls[n - 1], calls[n]);
      hide Follows, Calls, Ids, CallIds;
      SentIds(w, calls[..n], pushed);
      CallIdsSnoc(pushed, n - 1);
      IdsSnoc(Sent(calls[..n]), calls[n][|calls[n]| - 1]);
    }
  }

  /**
   * A run whose k-th model call returned what settled the k-th request: the ids under which results were
   * sent back are exactly the ids of the provider's tool calls that another model call followed, each once
   * and in the order the provider made them.
   */
  lemma ResultsReachTheirCalls(w: World, calls: seq<seq<Message>>, pushed: seq<Response>, asked: nat,
                               queue: seq<Response>, waiting: seq<nat>, settled: map<nat, Response>)
    requires Calls(w, calls) && calls != [] && Paired(pushed, asked, queue, waiting, settled)
    requires forall k | 0 <= k < |calls| - 1 :: k in settled && w.model(k) == Returned(settled[k])
    requires forall r | r in pushed && r.CallTool? :: r.id.Some?
    ensures |calls| - 1 <= |pushed| && Ids(Sent(calls)) == CallIds(pushed[..|calls| - 1])
  {
    assert |calls| > 1 ==> |calls| - 2 in settled;
    SentIds(w, calls, pushed);
  }

  // ---- Inputs ----

  /** Reads are answered in order, only the unanswered ones wait, and never beside a queued input. */
  ghost predicate Fed(pushed: seq<string>, asked: nat, answered: nat,
                      queue: seq<string>, waiting: seq<nat>, settled: map<nat, Option<string>>) {
    && answered <= asked && waiting == Range(answered, asked)
    && (forall k: nat :: k in settled <==> k < answered)
    && (answered < asked ==> queue == [])
    && Received(settled, answered) + queue == pushed
  }

  /** Nulls are handed out only after a close, and after a close nobody waits. */
  ghost predicate ClosedLast(closed: bool, waiting: seq<nat>, settled: map<nat, Option<string>>) {
    if closed then waiting == [] else forall k | k in settled :: settled[k].Some?
  }

  /** While the channel is open, the k-th read gets the k-th input pushed. */
  lemma InOrderWhileOpen(pushed: seq<string>, asked: nat, answered: nat,
                         queue: seq<string>, waiting: seq<nat>, settled: map<nat, Option<string>>, k: nat)
    requires Fed(pushed, asked, answered, queue, waiting, settled) && ClosedLast(false, waiting, settled) && k < asked
    ensures k in settled <==> k < |pushed|
    ensures k in settled ==> settled[k] == Some(pushed[k])
  {
    ReceivedAll(settled, answered);
  }

  /** Answer the oldest unanswered read, with a new input or with null. */
  lemma AnswerNext(pushed: seq<string>, asked: nat, answered: nat, queue: seq<string>,
                   waiting: seq<nat>, settled: map<nat, Option<string>>, answer: Option<string>)
    requires Fed(pushed, asked, answered, queue, waiting, settled) && waiting != []
    ensures waiting[0] == answered
    ensures Fed(if answer.Some? then pushed + [answer.value] else pushed,
                asked, answered + 1, queue, waiting[1..], settled[answered := answer])
  {
    ReceivedFrame(settled, answered, answer, answered);
    assert Received(settled, answered) == pushed;
  }

  lemma NobodyWaits(pushed: seq<string>, asked: nat, answered: nat, queue: seq<string>, settled: map<nat,
      Option<string>>)
    requires Fed(pushed, asked, answered, queue, [], settled)
    ensures forall k: nat :: k in settled <==> k < asked
  {
    RangeLength(answered, asked);
  }

  /** The settled reads stay as they are; the new ones are nulls. */
  ghost predicate Nulled(before: map<nat, Option<string>>, after: map<nat, Option<string>>) {
    forall k | k in before || k in after :: k in after && after[k] == if k in before then before[k] else None
  }

  lemma NullOneMore(pushed: seq<string>, asked: nat, answered: nat, queue: seq<string>, waiting: seq<nat>,
                    before: map<nat, Option<string>>, settled: map<nat, Option<string>>)
    requires Fed(pushed, asked, answered, queue, waiting, settled) && waiting != [] && Nulled(before, settled)
    ensures waiting[0] == answered && Nulled(before, settled[answered := None])
    ensures Fed(pushed, asked, answered + 1, queue, waiting[1..], settled[answered := None])
  {
    AnswerNext(pushed, asked, answered, queue, waiting, settled, None);
  }

  lemma ReadQueued(pushed: seq<string>, asked: nat, answered: nat,
                   queue: seq<string>, waiting: seq<nat>, settled: map<nat, Option<string>>)
    requires Fed(pushed, asked, answered, queue, waiting, settled) && queue != []
    ensures answered == asked && waiting == []
    ensures Fed(pushed, asked + 1, answered + 1, queue[1..], waiting, settled[asked := Some(queue[0])])
  {
    var handed := Received(settled, asked);
    ReceivedFrame(settled, asked, Some(queue[0]), asked);
    assert handed + queue == (handed + [queue[0]]) + queue[1..];
  }

  lemma ReadWaits(pushed: seq<string>, asked: nat, answered: nat, waiting: seq<nat>, settled: map<nat, Option<string>>)
    requires Fed(pushed, asked, answered, [], waiting, settled)
    ensures Fed(pushed, asked + 1, answered, [], waiting + [asked], settled)
  {
    RangeSnoc(answered, asked);
  }

  lemma PairQueued(pushed: seq<Response>, asked: nat, queue: seq<Response>, waiting: seq<nat>,
                   settled: map<nat, Response>, response: Response)
    requires Paired(pushed, asked, queue, waiting, settled)
    ensures if waiting == [] then Paired(pushed + [response], asked, queue + [response], waiting, settled)
            else Paired(pushed + [response], asked, queue, waiting[1..], settled[waiting[0] := response])
  {
  }

  // ---- The loop's own state ----

  class Loop {
    const sendsToolResults: bool
    var queue: seq<string>
    var waiters: seq<nat>
    var closed: bool
    var inputs: map<nat, Option<string>>       // the settled promises of `Next`
    var inputReads: nat
    var providerResponses: seq<Response>
    var providerResponseWaiters: seq<nat>
    var responses: map<nat, Response>          // the settled promises of `NextProviderResponse`
    var asks: nat
    var sent: seq<Message>                     // tool results given to the provider
    ghost var pushedInputs: seq<string>
    ghost var pushedResponses: seq<Response>
    ghost var shown: seq<seq<Message>>         // the history of each model call
    ghost var answered: nat                    // inputReads settled so far

    ghost predicate Valid()
      reads this
    {
      && Fed(pushedInputs, inputReads, answered, queue, waiters, inputs)
      && ClosedLast(closed, waiters, inputs)
      && Paired(pushedResponses, asks, providerResponses, providerResponseWaiters, responses)
      && sent == (if sendsToolResults then Sent(shown) else [])
      && asks == (if sendsToolResults then |shown| else 0)
    }

    constructor (sendsToolResults: bool)
      ensures Valid() && this.sendsToolResults == sendsToolResults
      ensures !closed && inputReads == 0 && pushedInputs == [] && pushedResponses == [] && shown == []
    {
      this.sendsToolResults := sendsToolResults;
      queue, waiters, closed, inputs, inputReads := [], [], false, map[], 0;
      providerResponses, providerResponseWaiters, responses, asks, sent := [], [], map[], 0, [];
      pushedInputs, pushedResponses, shown, answered := [], [], [], 0;
    }

    /** Read an input: at once if one is queued, null once closed, otherwise a promise for a later push. */
    method Next() returns (read: nat)
      requires Valid()
      modifies this`queue, this`waiters, this`inputs, this`inputReads, this`answered
      ensures Valid() && read == old(inputReads) && inputReads == read + 1
      ensures queue == if old(queue) == [] then [] else old(queue)[1..]
      ensures read in inputs <==> old(queue) != [] || closed
      ensures read in inputs ==> inputs == old(inputs)[read := if old(queue) == [] then None else Some(old(queue)[0])]
      ensures read !in inputs ==> inputs == old(inputs)
    {
      hide Paired;
      read := inputReads;
      if queue != [] {
        ReadQueued(pushedInputs, inputReads, answered, queue, waiters, inputs);
        hide Fed;
        inputs := inputs[read := Some(queue[0])];
        queue := queue[1..];
        answered := answered + 1;
      } else {
        ReadWaits(pushedInputs, inputReads, answered, waiters, inputs);
        if closed {
          AnswerNext(pushedInputs, inputReads + 1, answered, queue, waiters + [read], inputs, None);
          inputs := inputs[read := None];
          answered := answered + 1;
        } else {
          waiters := waiters + [read];
        }
      }
      inputReads := inputReads + 1;
    }

    /** Give an input to the oldest waiting read, or queue it. */
    method Push(input: string)
      requires Valid()
      modifies this`queue, this`waiters, this`inputs, this`answered, this`pushedInputs
      ensures Valid() && pushedInputs == old(pushedInputs) + [input]
      ensures old(waiters) != [] ==>
                queue == [] && inputs == old(inputs)[old(waiters)[0] := Some(input)] && waiters == old(waiters)[1..]
      ensures old(waiters) == [] ==> queue == old(queue) + [input] && inputs == old(inputs) && waiters == []
    {
      hide Paired;
      if waiters != [] {
        AnswerNext(pushedInputs, inputReads, answered, queue, waiters, inputs, Some(input));
        hide Fed;
        inputs := inputs[waiters[0] := Some(input)];
        waiters := waiters[1..];
        answered := answered + 1;
      } else {
        assert Received(inputs, answered) + (queue + [input]) == (Received(inputs, answered) + queue) + [input];
        queue := queue + [input];
      }
      pushedInputs := pushedInputs + [input];
    }

    /** Close the input channel, answering every waiting read with null. */
    method Close()
      requires Valid()
      modifies this`closed, this`waiters, this`inputs, this`answered
      ensures Valid() && closed && waiters == [] && (old(closed) ==> inputs == old(inputs))
      ensures Nulled(old(inputs), inputs) && forall k: nat :: k in inputs <==> k < inputReads
    {
      hide Paired, Fed;
      if !closed {
        closed := true;
        while waiters != []
          invariant closed && Fed(pushedInputs, inputReads, answered, queue, waiters, inputs)
              && Nulled(old(inputs), inputs)
          decreases |waiters|
        {
          NullOneMore(pushedInputs, inputReads, answered, queue, waiters, old(inputs), inputs);
          hide Nulled;
          inputs := inputs[waiters[0] := None];
          waiters := waiters[1..];
          answered := answered + 1;
        }
      }
      NobodyWaits(pushedInputs, inputReads, answered, queue, inputs);
    }

    /** Ask for the next provider response: at once if one is queued, otherwise a promise for a later push. */
    method NextProviderResponse() returns (ask: nat)
      requires Paired(pushedResponses, asks, providerResponses, providerResponseWaiters, responses)
      modifies this`providerResponses, this`providerResponseWaiters, this`responses, this`asks
      ensures Paired(pushedResponses, asks, providerResponses, providerResponseWaiters, responses)
      ensures ask == old(asks) && asks == ask + 1
    {
      hide Fed;
      ask := asks;
      asks := asks + 1;
      if providerResponses != [] {
        responses := responses[ask := providerResponses[0]];
        providerResponses := providerResponses[1..];
      } else {
        RangeSnoc(|pushedResponses|, ask);
        providerResponseWaiters := providerResponseWaiters + [ask];
      }
    }

    /** Give a response to the oldest waiting request, or queue it. */
    method PushProviderResponse(response: Response)
      requires Valid()
      modifies this`providerResponses, this`providerResponseWaiters, this`responses, this`pushedResponses
      ensures Valid() && pushedResponses == old(pushedResponses) + [response]
    {
      PairQueued(pushedResponses, asks, providerResponses, providerResponseWaiters, responses, response);
      hide Fed, Paired;
      pushedResponses := pushedResponses + [response];
      if providerResponseWaiters != [] {
        responses := responses[providerResponseWaiters[0] := response];
        providerResponseWaiters := providerResponseWaiters[1..];
      } else {
        providerResponses := providerResponses + [response];
      }
    }

    /** The loop's model: send back a tool result that ends the history, then wait for the provider. */
    method ModelTurn(history: seq<Message>) returns (ask: Option<nat>)
      requires Valid() && history != []
      modifies this`providerResponses, this`providerResponseWaiters, this`responses, this`asks, this`sent, this`shown
      ensures Valid() && shown == old(shown) + [history]
      ensures ask == if sendsToolResults then Some(|old(shown)|) else None
      ensures sent == old(sent) + if sendsToolResults
          && history[|history| - 1].Tool? then [history[|history| - 1]] else []
    {
      hide Fed, Paired;
      var latest := history[|history| - 1];
      assert (shown + [history])[..|shown|] == shown;
      shown := shown + [history];
      if sendsToolResults && latest.Tool? {
        sent := sent + [latest];
      }
      if !sendsToolResults {
        return None;
      }
      var n := NextProviderResponse();
      return Some(n);
    }

    // ---- What the bridge calls ----

    method OnProviderTurn(completed: bool)
      requires Valid()
      modifies this
      ensures Valid() && closed == old(closed) && shown == old(shown)
      ensures pushedInputs == old(pushedInputs) + if completed then ["provider_turn_completed"] else []
      ensures pushedResponses == old(pushedResponses) +
                if completed && sendsToolResults then [Say("provider_turn_completed", false)] else []
    {
      if completed {
        if sendsToolResults {
          PushProviderResponse(Say("provider_turn_completed", false));
        }
        Push("provider_turn_completed");
      }
    }

    method OnProviderToolCall(callId: string, name: string)
      requires Valid()
      modifies this
      ensures Valid() && closed == old(closed) && shown == old(shown) && pushedInputs == old(pushedInputs)
      ensures pushedResponses == old(pushedResponses) + [CallTool(Some(callId), name)]
    {
      PushProviderResponse(CallTool(Some(callId), name));
    }

    method OnInterruption()
      requires Valid()
      modifies this
      ensures Valid() && closed == old(closed) && shown == old(shown) && pushedResponses == old(pushedResponses)
      ensures pushedInputs == old(pushedInputs) + ["provider_interruption"]
    {
      Push("provider_interruption");
    }

    /** A stop leaves nobody waiting: neither a read, nor the one request the loop can have outstanding. */
    method OnStop()
      requires Valid()
      modifies this
      ensures Valid() && closed && waiters == [] && shown == old(shown) && pushedInputs == old(pushedInputs)
      ensures pushedResponses == old(pushedResponses) + if sendsToolResults then [Say("provider_stop", true)] else []
      ensures old(|providerResponseWaiters|) <= 1 ==> providerResponseWaiters == []
    {
      ghost var before := providerResponseWaiters;
      NeverBoth(pushedResponses, asks, providerResponses, providerResponseWaiters, responses);
      Close();
      if sendsToolResults {
        PushProviderResponse(Say("provider_stop", true));
      }
      NeverBoth(pushedResponses, asks, providerResponses, providerResponseWaiters, responses);
    }
  }
}
