/** Requests to one omp process: any number of tasks that send commands and wait for the response, the single reader of
    the process's output, its host tool calls, and the process dying at any moment. One step is one access to shared
    state. */
module RpcProcess {
  import opened Wrappers

  /** A response frame read from the process; `id` is the command it answers, if it names one. */
  datatype Response = Response(id: Option<nat>, body: string)

  /** Where a request is. Its id is taken first, its sender is filed in `pending`, and only then does it check that the
      process is alive. `Abandoned`: whoever made it was dropped. */
  datatype Request =
    | Numbered(id: nat)
    | Filed(id: nat)
    | Checked(id: nat)
    | Waiting(id: nat)
    | Withdrawing(id: nat)
    | Answered(id: nat, response: Response)
    | Failed(id: nat)
    | Abandoned(id: nat)

  /** The reader reads until the output ends or is corrupt; then it marks the process dead, clears `pending` and cancels
      the host tool calls, in this order. */
  datatype Reader = Reading | Marked | Cleared | Closed

  /** What arrived at the receiving end of a request: its response, or the news that the sender is gone. */
  datatype Delivery = Delivered(response: Response) | Dropped

  datatype State = State(
    nextId: nat,
    requests: map<nat, Request>,
    pending: set<nat>,
    inbox: map<nat, Delivery>,
    alive: bool,
    reader: Reader,
    received: seq<Response>,
    matched: seq<Response>,
    events: seq<Response>,
    calls: map<string, nat>,
    cancelled: set<nat>,
    nextToken: nat)

  const START := State(1, map[], {}, map[], true, Reading, [], [], [], map[], {}, 0)

  datatype Event =
    // requests
    | Take
    | File(r: nat)
    | Check(r: nat)
    | Send(r: nat, ok: bool)
    | Receive(r: nat)
    | TimeOut(r: nat)
    | Withdraw(r: nat)
    | Abandon(r: nat)
    // the reader
    | ReadResponse(response: Response)
    | ReadToolCall(call: string)
    | ReadToolCancel(call: string)
    | EndOfOutput
    | Clear
    | CancelCalls
    // others
    | ToolDone(call: string)
    | ShutDown

  function Update(st: State, r: nat, request: Request): State {
    st.(requests := st.requests[r := request])
  }

  /** Places where a request awaits something, so that it can be dropped there. Its sender is then not taken back. */
  predicate Awaits(request: Request) {
    request.Numbered? || request.Waiting? || request.Withdrawing?
  }

  /** Requests are numbered by their id; a time limit is reached only if there is no news yet. The id counter is shared and only grows. */
  function Next(st: State, event: Event): State {
    match event
    case Take => Update(st, st.nextId, Numbered(st.nextId)).(nextId := st.nextId + 1)
    case File(r) =>
      if r in st.requests && st.requests[r].Numbered? then
        Update(st, r, Filed(st.requests[r].id)).(pending := st.pending + {st.requests[r].id})
      else st
    case Check(r) =>
      if r in st.requests && st.requests[r].Filed? then
        Update(st, r, if st.alive then Checked(st.requests[r].id) else Withdrawing(st.requests[r].id))
      else st
    case Send(r, ok) =>
      if r in st.requests && st.requests[r].Checked? then
        Update(st, r, if ok then Waiting(st.requests[r].id) else Withdrawing(st.requests[r].id))
      else st
    case Receive(r) =>
      if r in st.requests && st.requests[r].Waiting? && st.requests[r].id in st.inbox then
        var id := st.requests[r].id;
        Update(st, r, match st.inbox[id] case Delivered(response) => Answered(id, response) case Dropped => Failed(id))
      else st
    case TimeOut(r) =>
      if r in st.requests && st.requests[r].Waiting? && st.requests[r].id !in st.inbox then
        Update(st, r, Withdrawing(st.requests[r].id))
      else st
    case Withdraw(r) =>
      if r in st.requests && st.requests[r].Withdrawing? then
        Update(st, r, Failed(st.requests[r].id)).(pending := st.pending - {st.requests[r].id})
      else st
    case Abandon(r) =>
      if r in st.requests && Awaits(st.requests[r]) then Update(st, r, Abandoned(st.requests[r].id)) else st
    case ReadResponse(response) => if st.reader.Reading? then Dispatch(st, response) else st
    case ReadToolCall(call) =>
      if st.reader.Reading? then st.(calls := st.calls[call := st.nextToken], nextToken := st.nextToken + 1) else st
    case ReadToolCancel(call) =>
      if st.reader.Reading? && call in st.calls then st.(cancelled := st.cancelled + {st.calls[call]}) else st
    case EndOfOutput => if st.reader.Reading? then st.(reader := Marked, alive := false) else st
    case Clear =>
      if st.reader.Marked? then
        st.(reader := Cleared, pending := {}, inbox := st.inbox + map id | id in st.pending :: Dropped)
      else st
    case CancelCalls =>
      if st.reader.Cleared? then st.(reader := Closed, cancelled := st.cancelled + st.calls.Values) else st
    case ToolDone(call) => st.(calls := st.calls - {call})
    case ShutDown => st.(alive := false)
  }

  /** A response goes to the request that is filed under its id, and to the event stream when there is none. */
  function Dispatch(st: State, response: Response): State {
    var read := st.(received := st.received + [response]);
    if response.id.Some? && response.id.value in st.pending then
      read.(
        matched := st.matched + [response],
        pending := st.pending - {response.id.value},
        inbox := st.inbox[response.id.value := Delivered(response)])
    else
      read.(events := st.events + [response])
  }

  function Run(st: State, events: seq<Event>): State {
    if events == [] then st else Next(Run(st, DropLast(events)), Last(events))
  }

  // ---- What every step keeps

  /** Past its alive check, and not giving up. */
  predicate Committed(request: Request) {
    request.Checked? || request.Waiting?
  }

  /** A request is known by its own id, and its sender is in `pending` only while it has no news. */
  ghost predicate Senders(st: State) {
    && (forall r :: r in st.requests ==> st.requests[r].id == r < st.nextId)
    && (forall id :: id in st.pending ==> id in st.requests && !st.requests[id].Numbered? && id !in st.inbox)
    && (forall id :: id in st.inbox ==> id in st.requests && !st.requests[id].Numbered?)
    && (forall r :: r in st.requests && (st.requests[r].Filed? || Committed(st.requests[r])) ==>
          r in st.pending || r in st.inbox)
  }

  /** Every response read went to one place: to the request it answers, at most once, or to the event stream. */
  ghost predicate Deliveries(st: State) {
    Conserved(st) && Addressed(st)
  }

  ghost predicate Conserved(st: State) {
    multiset(st.received) == multiset(st.matched) + multiset(st.events)
  }

  ghost predicate Addressed(st: State) {
    && (forall id :: id in st.inbox && st.inbox[id].Delivered? ==>
          st.inbox[id].response in st.matched && st.inbox[id].response.id == Some(id))
    && (forall i :: 0 <= i < |st.matched| ==>
          && st.matched[i].id.Some?
          && st.matched[i].id.value in st.inbox
          && st.inbox[st.matched[i].id.value] == Delivered(st.matched[i]))
    && (forall i, j :: 0 <= i < j < |st.matched| ==> st.matched[i].id != st.matched[j].id)
    && (forall r :: r in st.requests && st.requests[r].Answered? ==>
          r in st.inbox && st.inbox[r] == Delivered(st.requests[r].response))
  }

  /** Death is announced before `pending` is cleared: afterwards nobody who passed the alive check is left in it. */
  ghost predicate Death(st: State) {
    && (!st.reader.Reading? ==> !st.alive)
    && (st.reader.Cleared? || st.reader.Closed? ==>
          forall r :: r in st.requests && Committed(st.requests[r]) ==> r !in st.pending)
    && (st.reader.Closed? ==> st.calls.Values <= st.cancelled)
  }

  predicate OfRequest(event: Event) {
    event.Take? || event.File? || event.Check? || event.Send? || event.Receive? || event.TimeOut? || event.Withdraw?
    || event.Abandon?
  }

  lemma RequestKeepsSenders(st: State, event: Event)
    requires Senders(st) && OfRequest(event)
    ensures Senders(Next(st, event))
  {
  }

  lemma NextKeepsSenders(st: State, event: Event)
    requires Senders(st)
    ensures Senders(Next(st, event))
  {
    if OfRequest(event) {
      RequestKeepsSenders(st, event);
    }
  }

  /** A step that reads no response: news that arrived stay, and the only new news is that a sender is gone. */
  ghost predicate Quiet(st: State, st': State) {
    && (st'.received, st'.matched, st'.events) == (st.received, st.matched, st.events)
    && (forall id :: id in st.inbox ==> id in st'.inbox && st'.inbox[id] == st.inbox[id])
    && (forall id :: id in st'.inbox && id !in st.inbox ==> st'.inbox[id].Dropped?)
    && (forall r :: r in st'.requests && st'.requests[r].Answered? ==>
          || (r in st.requests && st'.requests[r] == st.requests[r])
          || (r in st.inbox && st.inbox[r] == Delivered(st'.requests[r].response)))
  }

  lemma QuietKeepsDeliveries(st: State, st': State)
    requires Deliveries(st) && Quiet(st, st')
    ensures Deliveries(st')
  {
  }

  lemma RequestIsQuiet(st: State, event: Event)
    requires Senders(st) && OfRequest(event)
    ensures Quiet(st, Next(st, event))
  {
  }

  lemma NextIsQuiet(st: State, event: Event)
    requires Senders(st) && !event.ReadResponse?
    ensures Quiet(st, Next(st, event))
  {
    if OfRequest(event) {
      RequestIsQuiet(st, event);
    }
  }

  lemma DispatchKeepsDeliveries(st: State, response: Response)
    requires Senders(st) && Deliveries(st)
    ensures Deliveries(Dispatch(st, response))
  {
    DispatchConserves(st, response);
    if response.id.Some? && response.id.value in st.pending {
      MatchKeepsAddressed(st, response);
    } else {
      var st' := Dispatch(st, response);
      assert (st'.requests, st'.inbox, st'.matched) == (st.requests, st.inbox, st.matched);
    }
  }

  lemma DispatchConserves(st: State, response: Response)
    requires Conserved(st)
    ensures Conserved(Dispatch(st, response))
  {
  }

  lemma MatchKeepsAddressed(st: State, response: Response)
    requires Senders(st) && Addressed(st) && response.id.Some? && response.id.value in st.pending
    ensures Addressed(Dispatch(st, response))
  {
    var st' := Dispatch(st, response);
    forall i | 0 <= i < |st'.matched|
      ensures st'.matched[i].id.Some? && st'.matched[i].id.value in st'.inbox
      ensures st'.inbox[st'.matched[i].id.value] == Delivered(st'.matched[i])
      ensures i < |st.matched| ==> st'.matched[i].id != response.id
    {
      if i < |st.matched| {
        assert st'.matched[i] == st.matched[i];
      }
    }
    assert response == st'.matched[|st.matched|];
  }

  lemma NextKeepsDeliveries(st: State, event: Event)
    requires Senders(st) && Deliveries(st)
    ensures Deliveries(Next(st, event))
  {
    if event.ReadResponse? {
      DispatchKeepsDeliveries(st, event.response);
    } else {
      NextIsQuiet(st, event);
      QuietKeepsDeliveries(st, Next(st, event));
    }
  }

  lemma NextKeepsDeath(st: State, event: Event)
    requires Senders(st) && Death(st)
    ensures Death(Next(st, event))
  {
  }

  lemma {:induction false} RunIsSound(events: seq<Event>)
    ensures Senders(Run(START, events)) && Deliveries(Run(START, events)) && Death(Run(START, events))
  {
    if events != [] {
      var before := Run(START, DropLast(events));
      RunIsSound(DropLast(events));
      NextKeepsSenders(before, Last(events));
      NextKeepsDeliveries(before, Last(events));
      NextKeepsDeath(before, Last(events));
    }
  }

  // ---- What it means

  /** No request waits on a dead process: in every interleaving, once the reader has cleared `pending`, every request past
      its alive check has news to receive, and receiving it ends the wait; every other request fails its alive check. */
  lemma NoRequestWaitsOnDeadProcess(events: seq<Event>, r: nat)
    requires var st := Run(START, events); r in st.requests && (st.reader.Cleared? || st.reader.Closed?)
    ensures var st := Run(START, events);
            && (Committed(st.requests[r]) ==> r !in st.pending && r in st.inbox)
            && (st.requests[r].Waiting? ==>
                  var after := Next(st, Receive(r)).requests[r]; after.Answered? || after.Failed?)
            && (st.requests[r].Filed? ==> Next(st, Check(r)).requests[r].Withdrawing?)
  {
    RunIsSound(events);
  }

  /** A request is answered only with a response that was read and names its id; no id is matched twice, and every response
      was matched to a request or became an event: none is invented. */
  lemma ResponsesReachTheirRequest(events: seq<Event>)
    ensures var st := Run(START, events);
            && (forall r :: r in st.requests && st.requests[r].Answered? ==>
                  st.requests[r].response.id == Some(r) && st.requests[r].response in st.matched)
            && (forall i, j :: 0 <= i < j < |st.matched| ==> st.matched[i].id != st.matched[j].id)
            && multiset(st.received) == multiset(st.matched) + multiset(st.events)
  {
    RunIsSound(events);
  }

  // ---- Which responses are lost

  /** The request has failed, was dropped, or is about to find out that it cannot be made. */
  predicate GivenUp(st: State, r: nat) {
    && r in st.requests
    && (st.requests[r].Withdrawing? || st.requests[r].Failed? || st.requests[r].Abandoned? || (st.requests[r].Filed? && !st.alive))
  }

  lemma {:induction false} GivenUpForGood(st: State, more: seq<Event>, r: nat)
    requires Senders(st) && GivenUp(st, r)
    ensures Senders(Run(st, more)) && GivenUp(Run(st, more), r)
  {
    if more != [] {
      GivenUpForGood(st, DropLast(more), r);
      NextKeepsSenders(Run(st, DropLast(more)), Last(more));
      StaysGivenUp(Run(st, DropLast(more)), Last(more), r);
    }
  }

  lemma StaysGivenUp(st: State, event: Event, r: nat)
    requires Senders(st) && GivenUp(st, r)
    ensures GivenUp(Next(st, event), r)
  {
  }

  lemma RunOfFew(st: State, a: Event, b: Event, c: Event)
    ensures Run(st, []) == st
    ensures Run(st, [a]) == Next(st, a)
    ensures Run(st, [a, b]) == Next(Next(st, a), b)
    ensures Run(st, [a, b, c]) == Next(Next(Next(st, a), b), c)
  {
    assert DropLast([a]) == [] && DropLast([a, b]) == [a] && DropLast([a, b, c]) == [a, b];
  }

  ghost predicate MayBeAnswered(st: State, r: nat, response: Response) {
    exists more: seq<Event> :: r in Run(st, more).requests && Run(st, more).requests[r] == Answered(r, response)
  }

  /** A response that was matched reaches its request, now or later, or is lost for good; it is lost exactly if the request was
      given up before it received it. */
  lemma MatchedIsLostExactly(events: seq<Event>, i: nat)
    requires i < |Run(START, events).matched|
    ensures var st := Run(START, events);
            var response := st.matched[i];
            response.id.Some? && (!MayBeAnswered(st, response.id.value, response) <==> GivenUp(st, response.id.value))
  {
    var st := Run(START, events);
    RunIsSound(events);
    var response := st.matched[i];
    var r := response.id.value;
    assert st.inbox[r] == Delivered(response);
    if GivenUp(st, r) {
      forall more: seq<Event>
        ensures !(r in Run(st, more).requests && Run(st, more).requests[r] == Answered(r, response))
      {
        GivenUpForGood(st, more, r);
      }
    } else {
      DeliveredIsReceived(st, r, response);
    }
  }

  lemma DeliveredIsReceived(st: State, r: nat, response: Response)
    requires Senders(st) && Addressed(st) && r in st.inbox && st.inbox[r] == Delivered(response) && !GivenUp(st, r)
    ensures MayBeAnswered(st, r, response)
  {
    match st.requests[r]
    case Filed(_) =>
      CheckedIsReceived(Next(st, Check(r)), r, response);
      RunOfFew(st, Check(r), Send(r, true), Receive(r));
      assert Run(st, [Check(r), Send(r, true), Receive(r)]).requests[r] == Answered(r, response);
    case Checked(_) =>
      CheckedIsReceived(st, r, response);
      RunOfFew(st, Send(r, true), Receive(r), Receive(r));
      assert Run(st, [Send(r, true), Receive(r)]).requests[r] == Answered(r, response);
    case Waiting(_) =>
      RunOfFew(st, Receive(r), Receive(r), Receive(r));
      assert Run(st, [Receive(r)]).requests[r] == Answered(r, response);
    case Answered(_, _) =>
      assert Run(st, []).requests[r] == Answered(r, response);
  }

  lemma CheckedIsReceived(st: State, r: nat, response: Response)
    requires r in st.requests && st.requests[r] == Checked(r) && r in st.inbox && st.inbox[r] == Delivered(response)
    ensures var after := Next(Next(st, Send(r, true)), Receive(r));
            r in after.requests && after.requests[r] == Answered(r, response)
  {
  }

  /** So of the responses that are read, exactly those are lost on the spot whose request was given up and still has its sender
      filed: it was dropped, or did not get to take its sender back. */
  lemma ReadIsLostExactly(events: seq<Event>, response: Response)
    requires Run(START, events).reader.Reading?
    ensures var st, after := Run(START, events), Run(START, events + [ReadResponse(response)]);
            (after.events == st.events && !MayBeAnswered(after, response.id.value, response))
            <==> response.id.Some? && response.id.value in st.pending && GivenUp(st, response.id.value)
  {
    var st, longer := Run(START, events), events + [ReadResponse(response)];
    assert DropLast(longer) == events && Last(longer) == ReadResponse(response);
    var after := Run(START, longer);
    RunIsSound(events);
    if response.id.Some? && response.id.value in st.pending {
      assert after.matched == st.matched + [response] && after.matched[|st.matched|] == response;
      MatchedIsLostExactly(longer, |st.matched|);
    } else {
      assert |after.events| == |st.events| + 1;
    }
  }

  /** It happens: whoever made a request is dropped while it waits, and the answer that comes then goes nowhere. */
  lemma AbandonedSwallowsItsResponse(body: string)
    ensures var st := Run(START, [Take, File(1), Check(1), Send(1, true), Abandon(1), ReadResponse(Response(Some(1), body))]);
            st.received == st.matched == [Response(Some(1), body)] && st.events == [] && GivenUp(st, 1)
  {
    var begun, rest := [Take, File(1), Check(1)], [Send(1, true), Abandon(1), ReadResponse(Response(Some(1), body))];
    RunOfFew(START, Take, File(1), Check(1));
    RunInParts(START, begun, rest);
    RunOfFew(Run(START, begun), rest[0], rest[1], rest[2]);
    assert begun + rest == [Take, File(1), Check(1), Send(1, true), Abandon(1), ReadResponse(Response(Some(1), body))];
    assert [] + [Response(Some(1), body)] == [Response(Some(1), body)];
  }

  lemma {:induction false} RunInParts(st: State, before: seq<Event>, after: seq<Event>)
    ensures Run(st, before + after) == Run(Run(st, before), after)
  {
    if after == [] {
      assert before + after == before;
    } else {
      var all := before + after;
      assert DropLast(all) == before + DropLast(after) && Last(all) == Last(after);
      RunInParts(st, before, DropLast(after));
      assert Run(st, all) == Next(Run(st, before + DropLast(after)), Last(after));
    }
  }

  /** When the reader is gone, every host tool call that is still registered has been cancelled, whatever happens after. */
  lemma CallsAreCancelled(events: seq<Event>, call: string)
    requires var st := Run(START, events); st.reader.Closed? && call in st.calls
    ensures Run(START, events).calls[call] in Run(START, events).cancelled
  {
    RunIsSound(events);
  }
}
