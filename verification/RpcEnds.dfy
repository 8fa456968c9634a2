/** How requests and host tool calls to one process come to an end, over every interleaving. */
module RpcEnds {
  import opened RpcProcess
  import opened Wrappers

  // ---- Requests that failed

  /** A request that failed has no sender left. */
  ghost predicate Forgotten(st: State) {
    forall r :: r in st.requests && st.requests[r].Failed? ==> r !in st.pending
  }

  lemma RequestKeepsForgotten(st: State, event: Event)
    requires Senders(st) && Forgotten(st) && OfRequest(event)
    ensures Forgotten(Next(st, event))
  {
  }

  lemma NextKeepsForgotten(st: State, event: Event)
    requires Senders(st) && Forgotten(st)
    ensures Forgotten(Next(st, event))
  {
    if OfRequest(event) {
      RequestKeepsForgotten(st, event);
    }
  }

  lemma {:induction false} RunForgets(events: seq<Event>)
    ensures Forgotten(Run(START, events))
  {
    if events != [] {
      RunIsSound(DropLast(events));
      RunForgets(DropLast(events));
      NextKeepsForgotten(Run(START, DropLast(events)), Last(events));
    }
  }

  /** A response that comes after its request has failed, by a time limit or otherwise, becomes an event. */
  lemma LateResponsesBecomeEvents(events: seq<Event>, response: Response)
    requires var st := Run(START, events);
             st.reader.Reading? && response.id.Some? && response.id.value in st.requests && st.requests[response.id.value].Failed?
    ensures var st, after := Run(START, events), Run(START, events + [ReadResponse(response)]);
            after.events == st.events + [response] && after.matched == st.matched
  {
    RunForgets(events);
    assert DropLast(events + [ReadResponse(response)]) == events;
  }

  predicate HasEnded(request: Request) {
    request.Answered? || request.Failed? || request.Abandoned?
  }

  // What a request can do on its own from where it is, if nobody ever answers.

  function OnceWaiting(r: nat): seq<Event> {
    [Receive(r), TimeOut(r), Withdraw(r)]
  }

  function OnceChecked(r: nat): seq<Event> {
    [Send(r, true)] + OnceWaiting(r)
  }

  function OnceFiled(r: nat): seq<Event> {
    [Check(r)] + OnceChecked(r)
  }

  function OnItsOwn(request: Request, r: nat): seq<Event> {
    match request
    case Numbered(_) => [File(r)] + OnceFiled(r)
    case Filed(_) => OnceFiled(r)
    case Checked(_) => OnceChecked(r)
    case Waiting(_) => OnceWaiting(r)
    case Withdrawing(_) => [Withdraw(r)]
    case _ => []
  }

  lemma {:induction false} FirstThenRest(st: State, event: Event, rest: seq<Event>)
    ensures Run(st, [event] + rest) == Run(Next(st, event), rest)
  {
    var all := [event] + rest;
    if rest == [] {
      assert all == [event] && DropLast(all) == [] && Last(all) == event;
    } else {
      assert DropLast(all) == [event] + DropLast(rest) && Last(all) == Last(rest);
      FirstThenRest(st, event, DropLast(rest));
    }
  }

  /** No request depends on anybody else to come to an end: within six steps of its own it has been answered or has failed,
      whatever the process does. */
  lemma RequestsEndOnTheirOwn(st: State, r: nat)
    requires r in st.requests && st.requests[r].id == r
    ensures var after := Run(st, OnItsOwn(st.requests[r], r)); r in after.requests && HasEnded(after.requests[r])
  {
    match st.requests[r]
    case Numbered(_) =>
      FirstThenRest(st, File(r), OnceFiled(r));
      FiledEnds(Next(st, File(r)), r);
    case Filed(_) => FiledEnds(st, r);
    case Checked(_) => CheckedEnds(st, r);
    case Waiting(_) => WaitingEnds(st, r);
    case Withdrawing(_) =>
      WithdrawingEnds(st, r, []);
      assert [] + [Withdraw(r)] == [Withdraw(r)];
    case _ => assert Run(st, []) == st;
  }

  lemma FiledEnds(st: State, r: nat)
    requires r in st.requests && st.requests[r] == Filed(r)
    ensures var after := Run(st, OnceFiled(r)); r in after.requests && HasEnded(after.requests[r])
  {
    var next := Next(st, Check(r));
    FirstThenRest(st, Check(r), OnceChecked(r));
    if next.requests[r].Checked? {
      CheckedEnds(next, r);
    } else {
      WithdrawingEnds(next, r, [Send(r, true), Receive(r), TimeOut(r)]);
      assert [Send(r, true), Receive(r), TimeOut(r)] + [Withdraw(r)] == OnceChecked(r);
    }
  }

  lemma CheckedEnds(st: State, r: nat)
    requires r in st.requests && st.requests[r] == Checked(r)
    ensures var after := Run(st, OnceChecked(r)); r in after.requests && HasEnded(after.requests[r])
  {
    FirstThenRest(st, Send(r, true), OnceWaiting(r));
    WaitingEnds(Next(st, Send(r, true)), r);
  }

  lemma WaitingEnds(st: State, r: nat)
    requires r in st.requests && st.requests[r] == Waiting(r)
    ensures var after := Run(st, OnceWaiting(r)); r in after.requests && HasEnded(after.requests[r])
  {
    RunOfFew(st, Receive(r), TimeOut(r), Withdraw(r));
    var received := Next(st, Receive(r));
    if r in st.inbox {
      var ended := received.requests[r];
      assert HasEnded(ended) && Next(received, TimeOut(r)) == received && Next(received, Withdraw(r)) == received;
    } else {
      assert received == st && Next(st, TimeOut(r)).requests[r] == Withdrawing(r);
    }
  }

  /** Other steps of its own leave a request that gives up alone. */
  lemma {:induction false} WithdrawingEnds(st: State, r: nat, steps: seq<Event>)
    requires r in st.requests && st.requests[r] == Withdrawing(r)
    requires forall i :: 0 <= i < |steps| ==> steps[i] in {Send(r, true), Receive(r), TimeOut(r)}
    ensures var after := Run(st, steps + [Withdraw(r)]); r in after.requests && HasEnded(after.requests[r])
  {
    assert DropLast(steps + [Withdraw(r)]) == steps && Last(steps + [Withdraw(r)]) == Withdraw(r);
    StillWithdrawing(st, r, steps);
  }

  lemma {:induction false} StillWithdrawing(st: State, r: nat, steps: seq<Event>)
    requires r in st.requests && st.requests[r] == Withdrawing(r)
    requires forall i :: 0 <= i < |steps| ==> steps[i] in {Send(r, true), Receive(r), TimeOut(r)}
    ensures Run(st, steps) == st
  {
    if steps != [] {
      assert Last(steps) == steps[|steps| - 1];
      StillWithdrawing(st, r, DropLast(steps));
    }
  }

  // ---- The process

  /** A process counts as alive exactly until its output ends or it is shut down. */
  lemma {:induction false} AliveExactly(events: seq<Event>)
    ensures var st := Run(START, events);
            st.alive <==> st.reader.Reading? && forall i :: 0 <= i < |events| ==> !events[i].ShutDown?
    ensures Run(START, events).reader.Reading? <==> forall i :: 0 <= i < |events| ==> !events[i].EndOfOutput?
  {
    if events != [] {
      AliveExactly(DropLast(events));
      LastOrBefore(events);
      StepAlive(Run(START, DropLast(events)), Last(events));
    }
  }

  lemma StepAlive(st: State, event: Event)
    ensures Next(st, event).reader.Reading? <==> st.reader.Reading? && !event.EndOfOutput?
    ensures Next(st, event).alive <==> st.alive && !event.ShutDown? && !(st.reader.Reading? && event.EndOfOutput?)
  {
  }

  lemma LastOrBefore(events: seq<Event>)
    requires events != []
    ensures (forall i :: 0 <= i < |events| ==> !events[i].ShutDown?) <==>
              !Last(events).ShutDown? && forall i :: 0 <= i < |events| - 1 ==> !DropLast(events)[i].ShutDown?
    ensures (forall i :: 0 <= i < |events| ==> !events[i].EndOfOutput?) <==>
              !Last(events).EndOfOutput? && forall i :: 0 <= i < |events| - 1 ==> !DropLast(events)[i].EndOfOutput?
  {
    assert forall i :: 0 <= i < |events| - 1 ==> DropLast(events)[i] == events[i];
    assert Last(events) == events[|events| - 1];
  }

  // ---- Host tool calls

  /** The call was read and not done since. */
  predicate Registered(events: seq<Event>, call: string) {
    events != [] &&
    (if Last(events) == ReadToolCall(call) && Run(START, DropLast(events)).reader.Reading? then true
     else if Last(events) == ToolDone(call) then false
     else Registered(DropLast(events), call))
  }

  /** Since the call was last read, omp asked to cancel it. */
  predicate CancelAsked(events: seq<Event>, call: string) {
    events != [] &&
    (if !Run(START, DropLast(events)).reader.Reading? then CancelAsked(DropLast(events), call)
     else if Last(events) == ReadToolCall(call) then false
     else if Last(events) == ReadToolCancel(call) && Registered(DropLast(events), call) then true
     else CancelAsked(DropLast(events), call))
  }

  /** Every call has a token of its own. */
  ghost predicate OwnTokens(st: State) {
    && (forall call :: call in st.calls ==> st.calls[call] < st.nextToken)
    && (forall token :: token in st.cancelled ==> token < st.nextToken)
    && (forall a, b :: a in st.calls && b in st.calls && a != b ==> st.calls[a] != st.calls[b])
  }

  lemma NextKeepsTokens(st: State, event: Event)
    requires OwnTokens(st)
    ensures OwnTokens(Next(st, event))
  {
  }

  lemma {:induction false} RunKeepsTokens(events: seq<Event>)
    ensures OwnTokens(Run(START, events))
  {
    if events != [] {
      RunKeepsTokens(DropLast(events));
      NextKeepsTokens(Run(START, DropLast(events)), Last(events));
    }
  }

  /** A host tool call is registered from when it is read until it is done, and its token is cancelled exactly if omp asked for that
      meanwhile or the reader is gone: cancelling one call never cancels another, and a call that is read again starts anew. */
  lemma {:induction false} CallsCancelledExactly(events: seq<Event>, call: string)
    ensures var st := Run(START, events);
            && (call in st.calls <==> Registered(events, call))
            && (call in st.calls ==> (st.calls[call] in st.cancelled <==> st.reader.Closed? || CancelAsked(events, call)))
  {
    if events != [] {
      var before := Run(START, DropLast(events));
      CallsCancelledExactly(DropLast(events), call);
      RunKeepsTokens(DropLast(events));
      OneMoreCancelled(before, Last(events), call);
    }
  }

  lemma OneMoreCancelled(st: State, event: Event, call: string)
    requires OwnTokens(st)
    ensures var after := Next(st, event);
            && (call in after.calls <==>
                  (event == ReadToolCall(call) && st.reader.Reading?) || (call in st.calls && event != ToolDone(call)))
            && (call in after.calls ==>
                  (after.calls[call] in after.cancelled <==>
                     if st.reader.Reading? && event == ReadToolCall(call) then false
                     else (st.calls[call] in st.cancelled) || (st.reader.Reading? && event == ReadToolCancel(call))
                          || (st.reader.Cleared? && event.CancelCalls?)))
            && (after.reader.Closed? <==> st.reader.Closed? || (st.reader.Cleared? && event.CancelCalls?))
  {
    if event.CancelCalls? && call in st.calls {
      assert st.calls[call] in st.calls.Values;
    }
    if !OfCalls(event) {
      OthersLeaveCalls(st, event);
    }
  }

  predicate OfCalls(event: Event) {
    event.ReadToolCall? || event.ReadToolCancel? || event.ToolDone? || event.CancelCalls?
  }

  lemma OthersLeaveCalls(st: State, event: Event)
    requires !OfCalls(event)
    ensures Next(st, event).calls == st.calls && Next(st, event).cancelled == st.cancelled
    ensures Next(st, event).reader.Closed? <==> st.reader.Closed?
  {
  }
}
