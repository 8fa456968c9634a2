/** How each kind of end is told to the client and to the session, for every turn: from what happened alone. */
module TurnEnds {
  import opened Translation
  import opened Translator
  import opened TurnDriver
  import opened Wrappers

  // ---- What ends a turn

  /** The agent is done, did nothing, refused the prompt, or exited. */
  predicate Ends(ev: Event) {
    (ev.PromptResult? && !ev.agentInvoked) || (ev.AgentEnd? && ev.terminal) || (ev.Response? && ev.failed) || ev.ProcessExit?
  }

  predicate AnyEnds(events: seq<Event>) {
    exists i :: 0 <= i < |events| && Ends(events[i])
  }

  /** An input that ends a turn, and how. */
  predicate EndsTurn(input: Input) {
    input.Arrived? ==> Ends(input.ev)
  }

  function FinalOut(input: Input): Out
    requires EndsTurn(input)
  {
    match input
    case Lagged => Error("lost agent events")
    case ChannelClosed => Error("the agent process ended")
    case TimedOut => Error("the turn timed out")
    case Superseded => Done
    case Arrived(Response(_, error)) => Error(error)
    case Arrived(ProcessExit) => Error("the agent process exited unexpectedly")
    case Arrived(_) => Done
  }

  lemma TranslatedEnd(st: State, ev: Event)
    ensures var outs := Translate(st, ev).1;
            if Ends(ev) then outs == (if st.inThink then [Content(CloseTag)] else []) + [FinalOut(Arrived(ev))]
            else !HasTerminal(outs)
  {
  }

  lemma TerminalsAppend(a: seq<Out>, b: seq<Out>)
    ensures HasTerminal(a + b) <==> HasTerminal(a) || HasTerminal(b)
  {
    if HasTerminal(a + b) {
      var i :| 0 <= i < |a + b| && IsTerminal((a + b)[i]);
      assert if i < |a| then IsTerminal(a[i]) else IsTerminal(b[i - |a|]);
    }
    if HasTerminal(a) {
      var i :| 0 <= i < |a| && IsTerminal(a[i]);
      assert IsTerminal((a + b)[i]);
    }
    if HasTerminal(b) {
      var i :| 0 <= i < |b| && IsTerminal(b[i]);
      assert IsTerminal((a + b)[|a| + i]);
    }
  }

  /** The translated outputs have a terminal one exactly if one of the events ends the turn. */
  lemma {:induction false} TerminalExactly(mode: Mode, events: seq<Event>)
    ensures HasTerminal(TranslateAll(Start(mode), events).1) <==> AnyEnds(events)
  {
    if events != [] {
      var before := DropLast(events);
      TerminalExactly(mode, before);
      OneMoreEvent(Start(mode), events);
      var (st, outs) := TranslateAll(Start(mode), before);
      var more := Translate(st, Last(events)).1;
      TerminalsAppend(outs, more);
      TranslatedEnd(st, Last(events));
      if Ends(Last(events)) {
        assert IsTerminal(more[|more| - 1]);
      }
      assert AnyEnds(events) <==> AnyEnds(before) || Ends(Last(events)) by {
        assert forall i :: 0 <= i < |before| ==> before[i] == events[i];
      }
    }
  }

  // ---- What the driver makes of it

  lemma {:induction false} SameReaction(react: Reaction, st: State, inputs: seq<Input>)
    requires IsReact(react)
    ensures ReactAll(react, st, inputs) == ReactAll(React, st, inputs)
  {
    if inputs != [] {
      SameReaction(react, st, DropLast(inputs));
      var before := ReactAll(React, st, DropLast(inputs)).0;
      assert react(before, Last(inputs)) == React(before, Last(inputs));
    }
  }

  /** What is put out for the input that ends the turn; only an event closes an open think block first. */
  function Closed(mode: Mode, events: seq<Event>, last: Input): seq<Out>
    requires EndsTurn(last)
  {
    (if last.Arrived? && TranslateAll(Start(mode), events).0.inThink then [Content(CloseTag)] else []) + [FinalOut(last)]
  }

  lemma ReactedEnd(mode: Mode, events: seq<Event>, last: Input)
    requires EndsTurn(last)
    ensures React(TranslateAll(Start(mode), events).0, last).1 == Closed(mode, events, last)
  {
    if last.Arrived? {
      TranslatedEnd(TranslateAll(Start(mode), events).0, last.ev);
    }
  }

  /** Everything up to the input that ends the turn. */
  function Told(mode: Mode, events: seq<Event>, last: Input): seq<Out>
    requires EndsTurn(last)
  {
    TranslateAll(Start(mode), events).1 + Closed(mode, events, last)
  }

  lemma OutputsToTheEnd(react: Reaction, mode: Mode, events: seq<Event>, last: Input, rest: seq<Input>)
    requires IsReact(react) && EndsTurn(last) && !AnyEnds(events)
    ensures var heard := Told(mode, events, last);
            && heard <= OutputOf(react, mode, false, Arrivals(events) + [last] + rest)
            && HasTerminal(heard) && Through(heard) == heard
  {
    var (st, outs) := TranslateAll(Start(mode), events);
    SameReaction(react, Start(mode), Arrivals(events) + [last] + rest);
    ArrivalsAreTranslated(mode, events);
    ReactOneMore(React, Start(mode), Arrivals(events), last);
    ReactInParts(React, Start(mode), Arrivals(events) + [last], rest);
    ReactedEnd(mode, events, last);
    TerminalExactly(mode, events);
    EndIsLast(outs, last.Arrived? && st.inThink, FinalOut(last));
  }

  lemma EndIsLast(outs: seq<Out>, tag: bool, out: Out)
    requires !HasTerminal(outs) && IsTerminal(out)
    ensures var heard := outs + ((if tag then [Content(CloseTag)] else []) + [out]);
            HasTerminal(heard) && Through(heard) == heard && Last(heard) == out
  {
    var before := outs + (if tag then [Content(CloseTag)] else []);
    TerminalsAppend(outs, if tag then [Content(CloseTag)] else []);
    ThroughFirst(before, out, []);
    assert outs + ((if tag then [Content(CloseTag)] else []) + [out]) == before + [out] + [];
  }

  /** The inputs that are told as an error: lag, a closed channel, the time limit, a refused prompt and an exit of the agent. Being
      superseded is none. */
  predicate IsFault(input: Input) {
    match input
    case Superseded => false
    case Arrived(ev) => ev.Response? || ev.ProcessExit?
    case _ => true
  }

  lemma FaultsAreErrors(mode: Mode, events: seq<Event>, last: Input)
    requires EndsTurn(last)
    ensures Told(mode, events, last) != [] && Last(Told(mode, events, last)) == FinalOut(last)
    ensures DropLast(Told(mode, events, last)) == TranslateAll(Start(mode), events).1 + DropLast(Closed(mode, events, last))
    ensures FinalOut(last).Error? <==> IsFault(last)
  {
    var closed := Closed(mode, events, last);
    assert Last(closed) == FinalOut(last);
    EndOfBoth(TranslateAll(Start(mode), events).1, closed);
  }

  lemma EndOfBoth(a: seq<Out>, b: seq<Out>)
    requires b != []
    ensures a + b != [] && Last(a + b) == Last(b) && DropLast(a + b) == a + DropLast(b)
  {
  }

  /** A turn whose first end is this input, whatever comes after it, and a client that listens long enough: the client hears all
      that was said before, and then this end; the session's turn is ended as aborted exactly if it is a fault. A client that
      leaves meanwhile misses only the end. */
  lemma EndsAreTold(react: Reaction, mode: Mode, events: seq<Event>, last: Input, rest: seq<Input>, patience: nat)
    requires IsReact(react) && EndsTurn(last) && !AnyEnds(events) && |Told(mode, events, last)| <= patience
    ensures var outs := OutputOf(react, mode, false, Arrivals(events) + [last] + rest);
            && Streamed(outs, patience, false) == (Told(mode, events, last), [IsFault(last)])
            && Streamed(outs, patience, true) == (DropLast(Told(mode, events, last)), [IsFault(last)])
  {
    OutputsToTheEnd(react, mode, events, last, rest);
    FaultsAreErrors(mode, events, last);
    HeardDecides(Told(mode, events, last), OutputOf(react, mode, false, Arrivals(events) + [last] + rest), patience);
  }

  lemma HeardDecides(heard: seq<Out>, outs: seq<Out>, patience: nat)
    requires heard <= outs && HasTerminal(heard) && Through(heard) == heard != [] && |heard| <= patience
    ensures Streamed(outs, patience, false) == (heard, [Last(heard).Error?])
    ensures Streamed(outs, patience, true) == (DropLast(heard), [Last(heard).Error?])
  {
    PrefixDecides(heard, outs);
  }

  /** A client hears exactly as many outputs as it waits for, from the first one on and up to the first end; one that leaves while the
      turn is ended misses that end. */
  lemma HearsWhatItWaitsFor(outs: seq<Out>, patience: nat, leaves: bool)
    ensures var all, heard := Through(outs), Streamed(outs, patience, leaves).0;
            heard == if |all| > patience then all[..patience]
                     else if leaves && all != [] && IsTerminal(Last(all)) then all[..|all| - 1]
                     else all
  {
    ThroughEndsOnce(outs);
  }

  // ---- Turns without an agent run

  lemma {:induction false} ReadyIsAll(arrived: seq<Input>, rest: seq<Input>)
    requires forall i :: 0 <= i < |arrived| ==> arrived[i].Arrived?
    requires rest != [] ==> !rest[0].Arrived?
    ensures Ready(arrived + rest) == arrived
  {
    if arrived == [] {
      assert arrived + rest == rest;
    } else {
      var all := arrived + rest;
      assert all[0] == arrived[0] && all[1..] == arrived[1..] + rest;
      ReadyIsAll(arrived[1..], rest);
      assert [arrived[0]] + arrived[1..] == arrived;
    }
  }

  lemma {:induction false} ArrivalsArrive(events: seq<Event>)
    ensures |Arrivals(events)| == |events| && forall i :: 0 <= i < |events| ==> Arrivals(events)[i] == Arrived(events[i])
  {
    if events != [] {
      ArrivalsArrive(DropLast(events));
      assert Last(events) == events[|events| - 1];
    }
  }

  /** A turn that ended without an agent run says what the events that are there say, all of them, and is done. */
  lemma LocalTurnsDrain(react: Reaction, mode: Mode, events: seq<Event>, rest: seq<Input>, patience: nat)
    requires IsReact(react) && (rest != [] ==> !rest[0].Arrived?)
    ensures var outs := OutputOf(react, mode, true, Arrivals(events) + rest);
            && outs == TranslateAll(Start(mode), events).1 + [Done]
            && (!AnyEnds(events) && |outs| <= patience ==> Streamed(outs, patience, false) == (outs, [false]))
  {
    ArrivalsArrive(events);
    ReadyIsAll(Arrivals(events), rest);
    SameReaction(react, Start(mode), Arrivals(events));
    ArrivalsAreTranslated(mode, events);
    TerminalExactly(mode, events);
    var said := TranslateAll(Start(mode), events).1;
    if !AnyEnds(events) {
      EndIsLast(said, false, Done);
      assert said + ([] + [Done]) == said + [Done];
    }
  }

  // ---- Responses in one piece

  /** A complete response holds the pieces of the answer and the reasoning of the field, in order, and nothing else; an error at the
      end takes the place of all of it. */
  lemma ReplyGrows(outs: seq<Out>, out: Out)
    ensures ContentOf([]) == [] && ReasoningFieldOf([]) == []
    ensures ContentOf(outs + [out]) == match out case Content(piece) => ContentOf(outs) + [piece] case _ => ContentOf(outs)
    ensures ReasoningFieldOf(outs + [out])
            == match out case Reasoning(text) => ReasoningFieldOf(outs) + [text] case _ => ReasoningFieldOf(outs)
    ensures ReplyOf(outs + [out]) == match out
                                     case Done => Full(ContentOf(outs), ReasoningFieldOf(outs))
                                     case Error(message) => BadGateway(message)
                                     case _ => NoReply
  {
    HeardOneMore(outs, out);
    assert ContentOf(outs) + [] == ContentOf(outs) && ReasoningFieldOf(outs) + [] == ReasoningFieldOf(outs);
  }

  lemma {:induction false} SameSpread<A, B>(f: A -> seq<B>, g: A -> seq<B>, s: seq<A>)
    requires forall i :: 0 <= i < |s| ==> f(s[i]) == g(s[i])
    ensures Spread(f, s) == Spread(g, s)
  {
    if s != [] {
      SameSpread(f, g, DropLast(s));
      assert Last(s) == s[|s| - 1];
    }
  }

  lemma {:induction false} NoSpread<A, B>(f: A -> seq<B>, s: seq<A>)
    requires forall i :: 0 <= i < |s| ==> f(s[i]) == []
    ensures Spread(f, s) == []
  {
    if s != [] {
      NoSpread(f, DropLast(s));
      assert Last(s) == s[|s| - 1];
    }
  }

  lemma PlacedInField(mode: Mode, outs: seq<Out>)
    requires forall i :: 0 <= i < |outs| ==> InPlace(mode, outs[i])
    ensures forall i :: 0 <= i < |outs| ==> FieldIn(outs[i]) == if mode.Field? then Shown(outs[i]) else []
  {
  }

  /** The field of a response holds exactly the reasoning that the events tell of, and nothing in the other modes. */
  lemma FieldHoldsReasoning(mode: Mode, events: seq<Event>)
    ensures ReasoningFieldOf(TranslateAll(Start(mode), events).1) == if mode.Field? then ReasoningIn(Field, events) else []
  {
    var outs := TranslateAll(Start(mode), events).1;
    ReasoningStaysInPlace(mode, events);
    forall i | 0 <= i < |outs|
      ensures InPlace(mode, outs[i])
    {
      assert InPlace(mode, TranslateAll(Start(mode), events).1[i]);
    }
    PlacedInField(mode, outs);
    if mode.Field? {
      TranslatorReasons(mode, events);
      SameSpread(FieldIn, Shown, outs);
    } else {
      NoSpread(FieldIn, outs);
    }
  }

  /** What a client that waits gets in one piece: everything said before the first end, or the error that ended the turn. */
  lemma RepliesTellTheEnd(react: Reaction, mode: Mode, events: seq<Event>, last: Input, rest: seq<Input>, patience: nat)
    requires IsReact(react) && EndsTurn(last) && !AnyEnds(events) && |Told(mode, events, last)| <= patience
    ensures var said := DropLast(Told(mode, events, last));
            ReplyOf(Streamed(OutputOf(react, mode, false, Arrivals(events) + [last] + rest), patience, false).0)
            == match FinalOut(last)
               case Error(message) => BadGateway(message)
               case _ => Full(ContentOf(said), ReasoningFieldOf(said))
  {
    EndsAreTold(react, mode, events, last, rest, patience);
    FaultsAreErrors(mode, events, last);
    ReplyAtTheEnd(Told(mode, events, last));
  }

  lemma ReplyAtTheEnd(heard: seq<Out>)
    requires heard != [] && IsTerminal(Last(heard))
    ensures ReplyOf(heard) == match Last(heard)
                              case Error(message) => BadGateway(message)
                              case _ => Full(ContentOf(DropLast(heard)), ReasoningFieldOf(DropLast(heard)))
  {
    ReplyGrows(DropLast(heard), Last(heard));
    assert DropLast(heard) + [Last(heard)] == heard;
  }
}
