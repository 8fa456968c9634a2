/** Drives one turn: hands out translated output until the turn is over, then ends it, exactly once. */
module TurnDriver {
  import opened Translator
  import opened Wrappers

  /** What a waiting turn wakes up for, in the order it happens. */
  datatype Input = Arrived(ev: Event) | Lagged | ChannelClosed | TimedOut | Superseded

  predicate IsTerminal(out: Out) {
    out.Done? || out.Error?
  }

  predicate HasTerminal(outs: seq<Out>) {
    exists i :: 0 <= i < |outs| && IsTerminal(outs[i])
  }

  /** Up to and including the first terminal output. */
  function Through(outs: seq<Out>): seq<Out> {
    if outs == [] then []
    else if HasTerminal(DropLast(outs)) then Through(DropLast(outs))
    else outs
  }

  /** The output for one input: events are translated, everything else ends the turn without asking the translator. */
  function React(st: State, input: Input): (State, seq<Out>) {
    match input
    case Arrived(ev) => Translate(st, ev)
    case Lagged => (st, [Error("lost agent events")])
    case ChannelClosed => (st, [Error("the agent process ended")])
    case TimedOut => (st, [Error("the turn timed out")])
    case Superseded => (st, [Done])
  }

  type Reaction = (State, Input) -> (State, seq<Out>)

  /** The reaction of a translator, as a value: how a turn ends does not depend on what events are translated to. */
  ghost predicate IsReact(react: Reaction) {
    forall st: State, input: Input {:trigger React(st, input)} :: react(st, input) == React(st, input)
  }

  function ReactAll(react: Reaction, st: State, inputs: seq<Input>): (State, seq<Out>) {
    if inputs == [] then (st, [])
    else
      var (before, outs) := ReactAll(react, st, DropLast(inputs));
      var (after, more) := react(before, Last(inputs));
      (after, outs + more)
  }

  /** The events that are already there. */
  function Ready(inputs: seq<Input>): seq<Input> {
    if inputs == [] || !inputs[0].Arrived? then [] else [inputs[0]] + Ready(inputs[1..])
  }

  /** Everything a turn can produce. One that ended without an agent run drains the events that are there and is done. */
  function OutputOf(react: Reaction, mode: Mode, localOnly: bool, inputs: seq<Input>): seq<Out> {
    if localOnly then ReactAll(react, Start(mode), Ready(inputs)).1 + [Done] else ReactAll(react, Start(mode), inputs).1
  }

  // ---- Outputs up to the first terminal

  lemma {:induction false} ThroughFirst(before: seq<Out>, terminal: Out, rest: seq<Out>)
    requires !HasTerminal(before) && IsTerminal(terminal)
    ensures HasTerminal(before + [terminal] + rest)
    ensures Through(before + [terminal] + rest) == before + [terminal]
  {
    var all := before + [terminal] + rest;
    assert all[|before|] == terminal;
    if rest == [] {
      assert DropLast(all) == before;
    } else {
      ThroughFirst(before, terminal, DropLast(rest));
      assert DropLast(all) == before + [terminal] + DropLast(rest);
    }
  }

  /** What is handed out has at most one terminal output, and that one comes last. */
  lemma {:induction false} ThroughEndsOnce(outs: seq<Out>)
    ensures forall i :: 0 <= i < |Through(outs)| && IsTerminal(Through(outs)[i]) ==> i == |Through(outs)| - 1
    ensures HasTerminal(outs) <==> Through(outs) != [] && IsTerminal(Last(Through(outs)))
    ensures Through(outs) <= outs
  {
    if outs != [] {
      ThroughEndsOnce(DropLast(outs));
    }
  }

  lemma {:induction false} ReactInParts(react: Reaction, st: State, a: seq<Input>, b: seq<Input>)
    ensures var (mid, outs) := ReactAll(react, st, a);
            ReactAll(react, st, a + b) == (ReactAll(react, mid, b).0, outs + ReactAll(react, mid, b).1)
  {
    var (mid, outs) := ReactAll(react, st, a);
    if b == [] {
      assert a + b == a && outs + [] == outs;
    } else {
      ReactInParts(react, st, a, DropLast(b));
      assert DropLast(a + b) == a + DropLast(b) && Last(a + b) == Last(b);
      var (before, more) := ReactAll(react, mid, DropLast(b));
      assert (outs + more) + react(before, Last(b)).1 == outs + (more + react(before, Last(b)).1);
    }
  }

  lemma ReactOneMore(react: Reaction, st: State, used: seq<Input>, input: Input)
    ensures var (before, outs) := ReactAll(react, st, used);
            ReactAll(react, st, used + [input]) == (react(before, input).0, outs + react(before, input).1)
  {
    assert DropLast(used + [input]) == used;
  }

  lemma FrontMoves(used: seq<Input>, inputs: seq<Input>)
    requires inputs != []
    ensures (used + [inputs[0]]) + inputs[1..] == used + inputs
  {
  }

  lemma Appended(yielded: seq<Out>, buf: seq<Out>, out: seq<Out>)
    ensures yielded + (buf + out) == (yielded + buf) + out
  {
  }

  /** An earlier terminal output stays one. */
  lemma TerminalStays(outs: seq<Out>)
    requires outs != []
    ensures HasTerminal(DropLast(outs)) ==> HasTerminal(outs)
  {
    if HasTerminal(DropLast(outs)) {
      var i :| 0 <= i < |DropLast(outs)| && IsTerminal(DropLast(outs)[i]);
      assert IsTerminal(outs[i]);
    }
  }

  /** How far `next` gets: it hands out an output, awaits the `end_turn` of the terminal output it took, finds the turn over,
      or waits for something that never happens. */
  datatype Pulled = Yield(out: Out) | Ending | Finished | Pending

  /** One turn of one request; `inputs` is what will still happen to it. `ended` records every `end_turn` with its
      `aborted` argument. `ending` is a terminal output that was taken and is handed out when its `end_turn` is through. */
  class TurnRun {
    const mode: Mode
    const localOnly: bool
    const translator: EventTranslator
    var inputs: seq<Input>
    var buf: seq<Out>
    var open: bool
    var ending: Option<Out>
    var ended: seq<bool>
    ghost const react: Reaction
    ghost const script: seq<Input>
    ghost var used: seq<Input>
    ghost var drained: bool
    ghost var yielded: seq<Out>
    ghost var taken: Option<Out>
    ghost var handedOut: bool

    /** Everything produced for the inputs used so far. */
    ghost function Produced(): seq<Out>
      reads this
    {
      ReactAll(react, Start(mode), used).1 + (if drained then [Done] else [])
    }

    ghost predicate Valid()
      reads this, translator
    {
      && IsReact(react)
      && translator.View() == ReactAll(react, Start(mode), used).0
      && used + inputs == script
      && (drained ==> localOnly && used == Ready(script))
      && if open then
           && taken == None && ending == None && ended == [] && !handedOut
           && !HasTerminal(yielded) && yielded + buf == Produced()
         else if taken.None? then
           && ending == None && ended == [true] && buf == [] && !handedOut
           && !HasTerminal(yielded) && yielded <= Produced()
         else
           && (ending.Some? ==> ending == taken && !handedOut) && ended == [taken.value.Error?] && buf == []
           && IsTerminal(taken.value) && HasTerminal(Produced())
           && (if handedOut then yielded else yielded + [taken.value]) == Through(Produced())
           && (handedOut ==> yielded != [] && Last(yielded) == taken.value)
    }

    /** A local turn drains its events all at once. */
    ghost predicate Settled()
      reads this
    {
      localOnly && !drained ==> used == []
    }

    constructor (mode: Mode, localOnly: bool, inputs: seq<Input>)
      ensures Valid() && Settled() && fresh(translator) && open && IsReact(react)
      ensures this.mode == mode && this.localOnly == localOnly && script == inputs && yielded == []
    {
      this.mode, this.localOnly, this.inputs, script := mode, localOnly, inputs, inputs;
      buf, open, ending, ended, used, drained, yielded := [], true, None, [], [], false, [];
      taken, handedOut := None, false;
      react := React;
      translator := new EventTranslator(mode);
    }

    method Wake(input: Input) returns (out: seq<Out>)
      requires IsReact(react)
      modifies translator
      ensures (translator.View(), out) == react(old(translator.View()), input)
    {
      match input {
        case Arrived(ev) => out := translator.OnEvent(ev);
        case Lagged => out := [Error("lost agent events")];
        case ChannelClosed => out := [Error("the agent process ended")];
        case TimedOut => out := [Error("the turn timed out")];
        case Superseded => out := [Done];
      }
      assert (translator.View(), out) == React(old(translator.View()), input);
    }

    /** Wakes up for the next input. */
    method Use()
      requires Valid() && open && !drained && inputs != []
      modifies this, translator
      ensures Valid() && open && !drained && yielded == old(yielded)
      ensures inputs == old(inputs)[1..] && used == old(used) + [old(inputs)[0]]
    {
      ReactOneMore(react, Start(mode), used, inputs[0]);
      FrontMoves(used, inputs);
      var out := Wake(inputs[0]);
      Appended(yielded, buf, out);
      inputs, used, buf := inputs[1..], used + [inputs[0]], buf + out;
    }

    /** Takes the events that are already there. */
    method Drain()
      requires Valid() && open && !drained
      modifies this, translator
      ensures Valid() && open && !drained && yielded == old(yielded)
      ensures used == old(used) + Ready(old(inputs)) && |inputs| <= |old(inputs)|
      ensures used == old(used) ==> buf == old(buf)
    {
      while inputs != [] && inputs[0].Arrived?
        invariant Valid() && open && !drained && yielded == old(yielded)
        invariant used + Ready(inputs) == old(used) + Ready(old(inputs))
        invariant |inputs| < |old(inputs)| || (inputs == old(inputs) && buf == old(buf))
        invariant |used| == |old(used)| + |old(inputs)| - |inputs|
        decreases |inputs|
      {
        Use();
      }
    }

    /** Takes the front of the buffer and hands it out; with a terminal output the turn is ended first and the rest of the
        buffer is dropped. */
    method TakeFront() returns (pulled: Pulled)
      requires Valid() && open && buf != []
      modifies this
      ensures Valid() && (used, inputs, drained) == old((used, inputs, drained))
      ensures if IsTerminal(old(buf)[0]) then pulled == Ending && !open && ending == Some(old(buf)[0]) && yielded == old(yielded)
              else pulled == Yield(old(buf)[0]) && open && yielded == old(yielded) + [old(buf)[0]] && buf == old(buf)[1..]
    {
      var out, rest := buf[0], buf[1..];
      assert yielded + buf == yielded + [out] + rest;
      if IsTerminal(out) {
        ThroughFirst(yielded, out, rest);
        buf, open, ending, ended, taken, handedOut := [], false, Some(out), ended + [out.Error?], Some(out), false;
        pulled := Ending;
      } else {
        yielded, buf := yielded + [out], rest;
        pulled := Yield(out);
      }
    }

    /** A turn that ended without an agent run: whatever is there is all there will be. */
    method Settle()
      requires Valid() && Settled() && open && localOnly && !drained
      modifies this, translator
      ensures Valid() && Settled() && open && drained && yielded == old(yielded) && buf != []
      ensures |inputs| < |old(inputs)| || (|inputs| == |old(inputs)| && buf == old(buf) + [Done])
    {
      assert [] + inputs == inputs && [] + Ready(script) == Ready(script);
      Drain();
      assert yielded + (buf + [Done]) == (yielded + buf) + [Done];
      buf, drained := buf + [Done], true;
    }

    /** With nothing left to hand out, nothing in it was a terminal output. */
    lemma NotDrained()
      requires Valid() && open && buf == []
      ensures !drained
    {
      var ending := ReactAll(react, Start(mode), used).1 + [Done];
      assert yielded + [] == yielded && ending[|ending| - 1] == Done;
    }

    /** Waits for more to hand out; `false` if nothing more will happen. */
    method Refill() returns (more: bool)
      requires Valid() && Settled() && open && buf == []
      modifies this, translator
      ensures Valid() && Settled() && open && yielded == old(yielded)
      ensures more ==> |inputs| < |old(inputs)| || (|inputs| == |old(inputs)| && buf == [Done])
      ensures !more ==> inputs == [] && !localOnly && yielded == Produced()
    {
      NotDrained();
      if localOnly {
        Settle();
        more := true;
      } else if inputs == [] {
        more := false;
      } else {
        Use();
        more := true;
      }
    }

    /** What `next` does until it returns or awaits `end_turn`. */
    method Advance() returns (pulled: Pulled)
      requires Valid() && Settled() && ending == None
      modifies this, translator
      ensures Valid() && Settled() && pulled.Ending? == ending.Some?
      ensures pulled.Yield? ==> |inputs| < |old(inputs)| || (|inputs| == |old(inputs)| && |buf| < |old(buf)|)
      ensures match pulled
              case Yield(out) => old(open) && open && !IsTerminal(out) && yielded == old(yielded) + [out]
              case Ending => old(open) && !open && yielded == old(yielded) && IsTerminal(ending.value)
              case Finished => !old(open) && !open && yielded == old(yielded) && (ended, taken, handedOut) == old((ended, taken, handedOut))
              case Pending => open && inputs == [] && !localOnly && yielded == old(yielded) == Produced()
    {
      while buf == []
        invariant Valid() && Settled() && open == old(open) && yielded == old(yielded) && ended == old(ended)
        invariant ending == None && (taken, handedOut) == old((taken, handedOut))
        invariant |inputs| < |old(inputs)| || (inputs == old(inputs) && buf == old(buf)) || buf == [Done]
        decreases |inputs|, |buf| == 0
      {
        if !open {
          return Finished;
        }
        var more := Refill();
        if !more {
          return Pending;
        }
      }
      pulled := TakeFront();
    }

    /** What `next` does when `end_turn` is through. */
    method HandOut() returns (out: Out)
      requires Valid() && Settled() && ending.Some?
      modifies this
      ensures Valid() && Settled() && ending == None && !open && handedOut && Some(out) == old(ending) == taken == old(taken)
      ensures yielded == old(yielded) + [out] && (used, inputs, drained, ended) == old((used, inputs, drained, ended))
    {
      out := ending.value;
      yielded, ending, handedOut := yielded + [out], None, true;
    }

    /** The next output. A turn is over after its terminal output, and then there is nothing more. */
    method Next() returns (pulled: Pulled)
      requires Valid() && Settled() && ending == None
      modifies this, translator
      ensures Valid() && Settled() && ending == None && !pulled.Ending?
      ensures open && pulled.Yield? ==>
                |inputs| < |old(inputs)| || (|inputs| == |old(inputs)| && |buf| < |old(buf)|)
      ensures match pulled
              case Yield(out) =>
                && old(open)
                && yielded == old(yielded) + [out]
                && if IsTerminal(out) then !open && handedOut && taken == Some(out) else open
              case Ending => false
              case Finished => !old(open) && !open && yielded == old(yielded) && (ended, taken, handedOut) == old((ended, taken, handedOut))
              case Pending => open && inputs == [] && !localOnly && yielded == old(yielded) == Produced()
    {
      pulled := Advance();
      if pulled.Ending? {
        var out := HandOut();
        pulled := Yield(out);
      }
    }

    /** The client went away, be it while `end_turn` is awaited, or the response is complete: a turn that is still open is
        ended as aborted. */
    method Drop()
      requires Valid()
      modifies this
      ensures Valid() && !open && ending == None
      ensures (yielded, taken, handedOut, used, drained) == old((yielded, taken, handedOut, used, drained))
      ensures ended == if old(open) then [true] else old(ended)
    {
      if open {
        assert yielded <= yielded + buf;
        buf, open, ended := [], false, ended + [true];
      }
      ending := None;
    }
  }

  // ---- Responses

  /** What a client hears of the outputs of a turn, and how the turn is ended: the client reads at most `patience` outputs; if
      it `leaves`, then while `end_turn` is awaited for the terminal output. */
  function Streamed(outs: seq<Out>, patience: nat, leaves: bool): (seq<Out>, seq<bool>) {
    var all := Through(outs);
    if |all| > patience then (all[..patience], [true])
    else if !HasTerminal(outs) then (all, [true])
    else
      ThroughEndsOnce(outs);
      (if leaves then DropLast(all) else all, [Last(all).Error?])
  }

  /** However the client and the turn behave, what is read and the single `end_turn` follow from the outputs of the turn. */
  method StreamResponse(run: TurnRun, patience: nat, leaves: bool) returns (outs: seq<Out>)
    requires run.Valid() && run.Settled() && run.open && run.yielded == []
    modifies run, run.translator
    ensures !run.open
    ensures (outs, run.ended) == Streamed(OutputOf(run.react, run.mode, run.localOnly, run.script), patience, leaves)
  {
    outs := [];
    var reading := true;
    while reading && |outs| < patience
      invariant run.Valid() && run.Settled() && outs == run.yielded && |outs| <= patience
      invariant run.open ==> run.ending == None
      invariant !run.open ==> run.taken.Some? && if leaves then !reading && !run.handedOut && |outs| < patience else run.handedOut
      invariant !run.open && !leaves ==> run.ending == None
      invariant !reading && run.open ==> run.inputs == [] && !run.localOnly && run.yielded == run.Produced()
      decreases reading, run.open, |run.inputs|, |run.buf|
    {
      var pulled := run.Advance();
      match pulled {
        case Yield(out) => outs := outs + [out];
        case Ending =>
          if leaves {
            reading := false;
          } else {
            var out := run.HandOut();
            outs := outs + [out];
          }
        case Finished => reading := false;
        case Pending => reading := false;
      }
    }
    StreamedRun(run, patience, leaves);
    run.Drop();
  }

  lemma {:induction false} NoTerminalYet(read: seq<Out>, produced: seq<Out>)
    requires read <= produced && !HasTerminal(read)
    ensures read <= Through(produced)
  {
    if produced != [] && HasTerminal(DropLast(produced)) {
      TerminalStays(produced);
      NoTerminalYet(read, DropLast(produced));
    }
  }

  lemma AllOfIt(outs: seq<Out>)
    requires !HasTerminal(outs)
    ensures Through(outs) == outs
  {
    if outs != [] {
      TerminalStays(outs);
    }
  }

  /** What was produced so far is the start of the outputs of the turn. */
  lemma ProducedFirst(run: TurnRun)
    requires run.Valid() && run.Settled()
    ensures run.Produced() <= OutputOf(run.react, run.mode, run.localOnly, run.script)
  {
    if !run.localOnly {
      ReactInParts(run.react, Start(run.mode), run.used, run.inputs);
    }
  }

  /** Once a terminal output was taken, what comes up to it is settled. */
  lemma TakenDecides(run: TurnRun)
    requires run.Valid() && run.Settled() && run.taken.Some?
    ensures var outs := OutputOf(run.react, run.mode, run.localOnly, run.script);
            Through(outs) == Through(run.Produced()) && HasTerminal(outs)
  {
    ProducedFirst(run);
    PrefixDecides(run.Produced(), OutputOf(run.react, run.mode, run.localOnly, run.script));
  }

  lemma PrefixDecides(first: seq<Out>, outs: seq<Out>)
    requires first <= outs && HasTerminal(first)
    ensures Through(outs) == Through(first) && HasTerminal(outs)
  {
    assert first + outs[|first|..] == outs;
    ThroughPrefix(first, outs[|first|..]);
  }

  lemma StreamedSoFar(read: seq<Out>, outs: seq<Out>, patience: nat, leaves: bool)
    requires read <= outs && !HasTerminal(read) && (|read| == patience || (read == outs && |read| <= patience))
    ensures Streamed(outs, patience, leaves) == (read, [true])
  {
    NoTerminalYet(read, outs);
    ThroughEndsOnce(outs);
    if HasTerminal(outs) {
      assert read != Through(outs) by {
        assert IsTerminal(Through(outs)[|Through(outs)| - 1]);
      }
      assert |read| < |Through(outs)| && Through(outs)[..|read|] == read;
    } else {
      AllOfIt(outs);
      assert read == outs[..|read|] && outs == outs[..|outs|];
    }
  }

  lemma StreamedRun(run: TurnRun, patience: nat, leaves: bool)
    requires run.Valid() && run.Settled() && |run.yielded| <= patience
    requires if run.open then
               |run.yielded| == patience || (run.inputs == [] && !run.localOnly && run.yielded == run.Produced())
             else
               run.taken.Some? && if leaves then !run.handedOut && |run.yielded| < patience else run.handedOut
    ensures Streamed(OutputOf(run.react, run.mode, run.localOnly, run.script), patience, leaves)
            == (run.yielded, if run.open then [true] else run.ended)
  {
    var outs := OutputOf(run.react, run.mode, run.localOnly, run.script);
    ProducedFirst(run);
    if run.open {
      assert run.yielded <= run.yielded + run.buf;
      assert run.inputs == [] ==> run.used == run.script;
      StreamedSoFar(run.yielded, outs, patience, leaves);
    } else {
      TakenDecides(run);
      assert run.ended == [Last(Through(outs)).Error?];
      assert DropLast(run.yielded + [run.taken.value]) == run.yielded;
    }
  }

  // How a turn ends for its client

  /** The turn is ended exactly once: not as aborted exactly if its terminal output is `Done` and the client was there until
      it was taken, be it to see it or not. */
  lemma StreamedEndsOnce(outs: seq<Out>, patience: nat, leaves: bool)
    ensures var (heard, ended) := Streamed(outs, patience, leaves);
            && ended == [!(0 < |Through(outs)| <= patience && Last(Through(outs)).Done?)]
            && heard <= Through(outs)
            && (forall i :: 0 <= i < |heard| && IsTerminal(heard[i]) ==> i == |heard| - 1)
  {
    ThroughEndsOnce(outs);
  }

  /** Who hears `Done` had a turn that was not aborted. The converse fails exactly for a client that leaves while the turn is
      ended after `Done` was taken. */
  lemma HearingDoneExactly(outs: seq<Out>, patience: nat, leaves: bool)
    ensures var (heard, ended) := Streamed(outs, patience, leaves);
            && (heard != [] && Last(heard).Done? ==> ended == [false])
            && ((ended == [false] ==> heard != [] && Last(heard).Done?) <==>
                  !(leaves && 0 < |Through(outs)| <= patience && Last(Through(outs)).Done?))
  {
    ThroughEndsOnce(outs);
  }

  /** A superseded turn whose client leaves while it is ended: not aborted, although `Done` was never handed out. */
  lemma LeavingWhileEnding(react: Reaction, mode: Mode)
    requires IsReact(react)
    ensures Streamed(OutputOf(react, mode, false, [Superseded]), 1, true) == ([], [false])
  {
    assert React(Start(mode), Superseded).1 == [Done];
    ReactOneMore(react, Start(mode), [], Superseded);
    assert [] + [Superseded] == [Superseded] && [] + [Done] == [Done];
    StreamedDone();
  }

  lemma StreamedDone()
    ensures Streamed([Done], 1, true) == ([], [false])
  {
    ThroughFirst([], Done, []);
    assert [] + [Done] + [] == [Done] && [] + [Done] == [Done];
  }

  // A response in one piece

  function PieceIn(out: Out): seq<Piece> {
    if out.Content? then [out.piece] else []
  }

  function ContentOf(outs: seq<Out>): seq<Piece> {
    Spread(PieceIn, outs)
  }

  function FieldIn(out: Out): seq<string> {
    if out.Reasoning? then [out.text] else []
  }

  function ReasoningFieldOf(outs: seq<Out>): seq<string> {
    Spread(FieldIn, outs)
  }

  datatype Reply = Full(content: seq<Piece>, reasoning: seq<string>) | BadGateway(message: string) | NoReply

  /** What a complete response says about the outputs that were heard. */
  function ReplyOf(heard: seq<Out>): Reply {
    if heard == [] || !IsTerminal(Last(heard)) then NoReply
    else if Last(heard).Error? then BadGateway(Last(heard).message)
    else Full(ContentOf(heard), ReasoningFieldOf(heard))
  }

  /** A response in one piece to a client that waits for `patience` outputs. The reply and the single `end_turn` depend only on
      what happened up to the first terminal output, whatever the order of events, lag, closed channels, timeouts and
      supersession. */
  method FullResponse(run: TurnRun, patience: nat, leaves: bool) returns (reply: Reply)
    requires run.Valid() && run.Settled() && run.open && run.yielded == []
    modifies run, run.translator
    ensures !run.open
    ensures var (heard, ended) := Streamed(OutputOf(run.react, run.mode, run.localOnly, run.script), patience, leaves);
            reply == ReplyOf(heard) && run.ended == ended
  {
    var content, reasoning := [], [];
    var waiting, waited := true, 0;
    reply := NoReply;
    while waiting && (waited < patience || !run.open)
      invariant run.Valid() && run.Settled() && waited == |run.yielded| <= patience
      invariant !run.open ==>
                  run.taken.Some? && if leaves then !waiting && !run.handedOut && waited < patience else run.handedOut
      invariant run.open || !leaves ==> run.ending == None
      invariant !waiting && run.open ==> run.inputs == [] && !run.localOnly && run.yielded == run.Produced()
      invariant content == ContentOf(run.yielded) && reasoning == ReasoningFieldOf(run.yielded)
      invariant run.handedOut ==> ReplyOf(run.yielded) == if waiting then Full(content, reasoning) else reply
      invariant waiting || !run.handedOut ==> reply == NoReply
      decreases waiting, run.open, |run.inputs|, |run.buf|
    {
      ghost var before := run.yielded;
      var pulled := run.Advance();
      match pulled {
        case Yield(out) =>
          HeardOneMore(before, out);
          waited := waited + 1;
          match out {
            case Content(piece) => content := content + [piece];
            case Reasoning(text) => reasoning := reasoning + [text];
            case _ =>
          }
        case Ending =>
          if leaves {
            waiting := false;
          } else {
            var out := run.HandOut();
            HeardOneMore(before, out);
            waited := waited + 1;
            if out.Error? {
              reply, waiting := BadGateway(out.message), false;
            }
          }
        case Finished => reply, waiting := Full(content, reasoning), false;
        case Pending => waiting := false;
      }
    }
    StreamedRun(run, patience, leaves);
    if !run.handedOut {
      NoReplyYet(run);
    }
    run.Drop();
  }

  lemma HeardOneMore(heard: seq<Out>, out: Out)
    ensures ContentOf(heard + [out]) == ContentOf(heard) + PieceIn(out)
    ensures ReasoningFieldOf(heard + [out]) == ReasoningFieldOf(heard) + FieldIn(out)
    ensures ReplyOf(heard + [out]) == match out
                                      case Error(message) => BadGateway(message)
                                      case Done => Full(ContentOf(heard), ReasoningFieldOf(heard))
                                      case _ => NoReply
  {
    SpreadOne(PieceIn, heard, out);
    SpreadOne(FieldIn, heard, out);
    assert ContentOf(heard) + [] == ContentOf(heard) && ReasoningFieldOf(heard) + [] == ReasoningFieldOf(heard);
  }

  lemma NoReplyYet(run: TurnRun)
    requires run.Valid() && !run.handedOut
    ensures ReplyOf(run.yielded) == NoReply
  {
    ThroughEndsOnce(run.Produced());
    if run.yielded != [] && run.taken.Some? {
      var through := run.yielded + [run.taken.value];
      assert through[|run.yielded| - 1] == Last(run.yielded);
    } else if run.yielded != [] {
      assert !IsTerminal(run.yielded[|run.yielded| - 1]);
    }
  }

  lemma {:induction false} ThroughPrefix(a: seq<Out>, b: seq<Out>)
    requires HasTerminal(a)
    ensures Through(a + b) == Through(a) && HasTerminal(a + b)
  {
    var i :| 0 <= i < |a| && IsTerminal(a[i]);
    assert (a + b)[i] == a[i];
    if b == [] {
      assert a + b == a;
    } else {
      ThroughPrefix(a, DropLast(b));
      assert DropLast(a + b) == a + DropLast(b);
    }
  }

  // ---- Terminal outputs and think blocks

  function Arrivals(events: seq<Event>): seq<Input> {
    if events == [] then [] else Arrivals(DropLast(events)) + [Arrived(Last(events))]
  }

  lemma {:induction false} ArrivalsAreTranslated(mode: Mode, events: seq<Event>)
    ensures ReactAll(React, Start(mode), Arrivals(events)) == TranslateAll(Start(mode), events)
  {
    if events != [] {
      ArrivalsAreTranslated(mode, DropLast(events));
      ReactOneMore(React, Start(mode), Arrivals(DropLast(events)), Arrived(Last(events)));
    }
  }

  /** A turn ended by lag, a closed channel, a timeout or supersession bypasses the translator. Such a terminal output
      leaves a think block open exactly when one was open; with any other input the blocks stay well bracketed. */
  lemma TerminalsAndThinkBlocks(mode: Mode, events: seq<Event>, last: Input)
    ensures Scan(false, ReactAll(React, Start(mode), Arrivals(events) + [last]).1).None?
            <==> !last.Arrived? && TranslateAll(Start(mode), events).0.inThink
  {
    var (st, outs) := TranslateAll(Start(mode), events);
    ArrivalsAreTranslated(mode, events);
    ReactOneMore(React, Start(mode), Arrivals(events), last);
    ThinkBlocksAreBracketed(mode, events);
    ModesAgree(mode, events);
    ScanOneInput(st, outs, last);
  }

  lemma ScanOneInput(st: State, outs: seq<Out>, input: Input)
    requires Scan(false, outs) == Some(st.inThink) && (st.inThink ==> st.mode.ThinkTags?)
    ensures Scan(false, outs + React(st, input).1).None? <==> !input.Arrived? && st.inThink
  {
    var more := React(st, input).1;
    ScanInParts(false, outs, more);
    match input {
      case Arrived(ev) => ScanTranslated(st, ev);
      case _ => ScanOfOne(st.inThink, more[0]);
    }
  }
}
