/** Agent events to pieces of an answer. */
module Translator {
  import opened Wrappers

  /** Where reasoning goes: into a field of its own, between tags in the answer, or nowhere. */
  datatype Mode = Field | ThinkTags | Off

  /** A piece of the answer text, with where it comes from: `OpenTag` and `CloseTag` are the texts "<think>" and "</think>"
      the translator adds itself; a notice reports a failed model call. */
  datatype Piece =
    | OpenTag
    | CloseTag
    | Thought(delta: string)
    | Answer(text: string)
    | Notice(message: string)
    | ToolDetails(summary: string, output: string)

  datatype Out = Content(piece: Piece) | Reasoning(text: string) | Done | Error(message: string)

  datatype Usage = Usage(prompt: nat, completion: nat, total: nat)

  /** An event as the translator reads it, with missing fields replaced by their defaults. */
  datatype Event =
    | ThinkingDelta(delta: string)
    | TextDelta(delta: string)
    | MessageEnd(assistant: bool, input: nat, cacheRead: nat, cacheWrite: nat, output: nat, failure: Option<string>)
    | ToolStart(id: string, summary: string)
    | ToolEnd(toolId: Option<string>, name: string, result: string)
    | CommandOutput(text: string)
    | PromptResult(agentInvoked: bool)
    | AgentEnd(terminal: bool)
    | Response(failed: bool, error: string)
    | ProcessExit
    | Unknown

  datatype State = State(mode: Mode, inThink: bool, tools: map<string, string>, usage: Usage)

  function Start(mode: Mode): State {
    State(mode, false, map[], Usage(0, 0, 0))
  }

  /** Ends an open think block, then goes on with `out`. */
  function Closing(st: State, out: seq<Out>): (State, seq<Out>) {
    (st.(inThink := false), (if st.inThink then [Content(CloseTag)] else []) + out)
  }

  function Translate(st: State, ev: Event): (State, seq<Out>) {
    match ev
    case ThinkingDelta(delta) =>
      (match st.mode
       case Field => (st, [Reasoning(delta)])
       case ThinkTags =>
         (st.(inThink := true), (if st.inThink then [] else [Content(OpenTag)]) + [Content(Thought(delta))])
       case Off => (st, []))
    case TextDelta(delta) => Closing(st, [Content(Answer(delta))])
    case MessageEnd(assistant, input, cacheRead, cacheWrite, output, failure) =>
      if !assistant then (st, [])
      else
        var read := input + cacheRead + cacheWrite;
        var counted := st.(usage := Usage(st.usage.prompt + read, st.usage.completion + output, st.usage.total + read + output));
        if failure.Some? then Closing(counted, [Content(Notice(failure.value))]) else (counted, [])
    case ToolStart(id, summary) =>
      (st.(tools := st.tools[id := summary]), if st.mode.Field? then [Reasoning(summary)] else [])
    case ToolEnd(id, name, result) =>
      var known := id.Some? && id.value in st.tools;
      var ended := if known then st.(tools := st.tools - {id.value}) else st;
      Closing(ended, [Content(ToolDetails(if known then st.tools[id.value] else name, result))])
    case CommandOutput(text) => Closing(st, [Content(Answer(text))])
    case PromptResult(agentInvoked) => if agentInvoked then (st, []) else Closing(st, [Done])
    case AgentEnd(terminal) => if terminal then Closing(st, [Done]) else (st, [])
    case Response(failed, error) => if failed then Closing(st, [Error(error)]) else (st, [])
    case ProcessExit => Closing(st, [Error("the agent process exited unexpectedly")])
    case Unknown => (st, [])
  }

  /** The translator object. */
  class EventTranslator {
    const mode: Mode
    var inThink: bool
    var tools: map<string, string>
    var usage: Usage

    function View(): State
      reads this
    {
      State(mode, inThink, tools, usage)
    }

    constructor (mode: Mode)
      ensures View() == Start(mode)
    {
      this.mode, inThink, tools, usage := mode, false, map[], Usage(0, 0, 0);
    }

    method OnEvent(ev: Event) returns (out: seq<Out>)
      modifies this
      ensures (View(), out) == Translate(old(View()), ev)
    {
      out := [];
      match ev {
        case ThinkingDelta(delta) =>
          out := Thinking(delta, out);
        case TextDelta(delta) =>
          out := CloseThink(out);
          out := out + [Content(Answer(delta))];
        case MessageEnd(assistant, input, cacheRead, cacheWrite, output, failure) =>
          if assistant {
            var read := input + cacheRead + cacheWrite;
            usage := usage.(prompt := usage.prompt + read, completion := usage.completion + output);
            usage := usage.(total := usage.total + read + output);
            if failure.Some? {
              out := CloseThink(out);
              out := out + [Content(Notice(failure.value))];
            }
          }
        case ToolStart(id, summary) =>
          if mode == Field {
            out := out + [Reasoning(summary)];
          }
          tools := tools[id := summary];
        case ToolEnd(id, name, result) =>
          var summary := name;
          if id.Some? && id.value in tools {
            summary := tools[id.value];
            tools := tools - {id.value};
          }
          out := CloseThink(out);
          out := out + [Content(ToolDetails(summary, result))];
        case CommandOutput(text) =>
          out := CloseThink(out);
          out := out + [Content(Answer(text))];
        case PromptResult(agentInvoked) =>
          if !agentInvoked {
            out := CloseThink(out);
            out := out + [Done];
          }
        case AgentEnd(terminal) =>
          if terminal {
            out := CloseThink(out);
            out := out + [Done];
          }
        case Response(failed, error) =>
          if failed {
            out := CloseThink(out);
            out := out + [Error(error)];
          }
        case ProcessExit =>
          out := CloseThink(out);
          out := out + [Error("the agent process exited unexpectedly")];
        case Unknown =>
      }
      assert out == Translate(old(View()), ev).1;
    }

    method Thinking(delta: string, before: seq<Out>) returns (out: seq<Out>)
      modifies this`inThink
      ensures inThink == (old(inThink) || mode == ThinkTags)
      ensures out == before + Translate(old(View()), ThinkingDelta(delta)).1
    {
      out := before;
      match mode {
        case Field =>
          out := out + [Reasoning(delta)];
        case ThinkTags =>
          if !inThink {
            inThink := true;
            out := out + [Content(OpenTag)];
          }
          out := out + [Content(Thought(delta))];
        case Off =>
      }
    }

    method CloseThink(before: seq<Out>) returns (out: seq<Out>)
      modifies this`inThink
      ensures !inThink
      ensures out == before + (if old(inThink) then [Content(CloseTag)] else [])
    {
      out := before;
      if inThink {
        inThink := false;
        out := out + [Content(CloseTag)];
      }
    }
  }

  // ---- Whole streams

  function TranslateAll(st: State, events: seq<Event>): (State, seq<Out>) {
    if events == [] then (st, [])
    else
      var (before, out) := TranslateAll(st, DropLast(events));
      var (after, more) := Translate(before, Last(events));
      (after, out + more)
  }

  /** Reasoning, in whatever form it appears. */
  predicate IsReasoning(out: Out) {
    out.Reasoning? || (out.Content? && (out.piece.OpenTag? || out.piece.CloseTag? || out.piece.Thought?))
  }

  function AnswerIn(out: Out): seq<Out> {
    if IsReasoning(out) then [] else [out]
  }

  function WithoutReasoning(outs: seq<Out>): seq<Out> {
    Spread(AnswerIn, outs)
  }

  /** States that differ only in how they show reasoning. */
  predicate Alike(a: State, off: State) {
    off.mode.Off? && !off.inThink && a.tools == off.tools && a.usage == off.usage && (a.inThink ==> a.mode.ThinkTags?)
  }

  lemma TranslateAlike(a: State, off: State, ev: Event)
    requires Alike(a, off)
    ensures Alike(Translate(a, ev).0, Translate(off, ev).0)
    ensures WithoutReasoning(Translate(a, ev).1) == Translate(off, ev).1
  {
    TranslatedPlain(a, off, ev);
    SpreadFew(AnswerIn, Translate(a, ev).1);
  }

  lemma TranslatedPlain(a: State, off: State, ev: Event)
    requires Alike(a, off)
    ensures var (after, outs) := Translate(a, ev);
            && Alike(after, Translate(off, ev).0)
            && |outs| <= 2
            && (|outs| == 2 ==> AnswerIn(outs[0]) == [])
            && Translate(off, ev).1 == if outs == [] then [] else AnswerIn(Last(outs))
  {
  }

  /** The reasoning mode never changes the answer: over every event sequence the modes agree on usage, on the tool calls
      still open and on everything that is not reasoning. */
  lemma {:induction false} ModesAgree(mode: Mode, events: seq<Event>)
    ensures var (st, outs) := TranslateAll(Start(mode), events);
            var (off, plain) := TranslateAll(Start(Off), events);
            st.mode == mode && Alike(st, off) && WithoutReasoning(outs) == plain
  {
    if events != [] {
      ModesAgree(mode, DropLast(events));
      OneMoreEvent(Start(mode), events);
      OneMoreEvent(Start(Off), events);
      var (st, outs) := TranslateAll(Start(mode), DropLast(events));
      var (off, plain) := TranslateAll(Start(Off), DropLast(events));
      OneMoreAlike(st, outs, off, plain, Last(events));
    }
  }

  lemma OneMoreEvent(start: State, events: seq<Event>)
    requires events != []
    ensures var (st, outs) := TranslateAll(start, DropLast(events));
            var (after, more) := Translate(st, Last(events));
            TranslateAll(start, events) == (after, outs + more) && after.mode == st.mode
  {
  }

  lemma OneMoreAlike(st: State, outs: seq<Out>, off: State, plain: seq<Out>, ev: Event)
    requires Alike(st, off) && WithoutReasoning(outs) == plain
    ensures Alike(Translate(st, ev).0, Translate(off, ev).0)
    ensures WithoutReasoning(outs + Translate(st, ev).1) == plain + Translate(off, ev).1
  {
    TranslateAlike(st, off, ev);
    SpreadInParts(AnswerIn, outs, Translate(st, ev).1);
  }

  /** Reasoning appears only where the mode puts it. */
  predicate InPlace(mode: Mode, out: Out) {
    match mode
    case Field => IsReasoning(out) ==> out.Reasoning?
    case ThinkTags => !out.Reasoning?
    case Off => !IsReasoning(out)
  }

  lemma {:induction false} ReasoningStaysInPlace(mode: Mode, events: seq<Event>)
    ensures var outs := TranslateAll(Start(mode), events).1;
            forall i :: 0 <= i < |outs| ==> InPlace(mode, outs[i])
  {
    if events != [] {
      ReasoningStaysInPlace(mode, DropLast(events));
      ModesAgree(mode, DropLast(events));
      var st := TranslateAll(Start(mode), DropLast(events)).0;
      TranslatedInPlace(st, Last(events));
    }
  }

  lemma TranslatedInPlace(st: State, ev: Event)
    requires st.inThink ==> st.mode.ThinkTags?
    ensures forall i :: 0 <= i < |Translate(st, ev).1| ==> InPlace(st.mode, Translate(st, ev).1[i])
  {
  }

  // ---- Think blocks

  /** Reads an output stream: a block opens only when none is open and closes only when one is; thoughts are inside a block
      and everything else, the end included, is outside. `None` if the stream breaks this; otherwise whether a block is
      open at the end. */
  function Scan(open: bool, outs: seq<Out>): Option<bool> {
    if outs == [] then Some(open)
    else
      match Scan(open, DropLast(outs))
      case None => None
      case Some(inside) => ScanOne(inside, Last(outs))
  }

  function ScanOne(inside: bool, out: Out): Option<bool> {
    match out
    case Reasoning(_) => Some(inside)
    case Content(OpenTag) => if inside then None else Some(true)
    case Content(CloseTag) => if inside then Some(false) else None
    case Content(Thought(_)) => if inside then Some(true) else None
    case _ => if inside then None else Some(false)
  }

  lemma {:induction false} ScanInParts(open: bool, a: seq<Out>, b: seq<Out>)
    ensures Scan(open, a + b)
            == match Scan(open, a) case None => None case Some(inside) => Scan(inside, b)
  {
    if b == [] {
      assert a + b == a;
    } else {
      ScanInParts(open, a, DropLast(b));
      assert DropLast(a + b) == a + DropLast(b);
    }
  }

  lemma ScanOfOne(open: bool, out: Out)
    ensures Scan(open, [out]) == ScanOne(open, out)
  {
    assert DropLast([out]) == [];
  }

  function ScanFew(open: bool, outs: seq<Out>): Option<bool> {
    if outs == [] then Some(open)
    else if |outs| == 1 || ScanOne(open, outs[0]).None? then ScanOne(open, outs[0])
    else ScanOne(ScanOne(open, outs[0]).value, outs[1])
  }

  lemma ScanTranslated(st: State, ev: Event)
    requires st.inThink ==> st.mode.ThinkTags?
    ensures Scan(st.inThink, Translate(st, ev).1) == Some(Translate(st, ev).0.inThink)
  {
    ScanFewTranslated(st, ev);
    ScanOfFew(st.inThink, Translate(st, ev).1);
  }

  lemma ScanFewTranslated(st: State, ev: Event)
    requires st.inThink ==> st.mode.ThinkTags?
    ensures |Translate(st, ev).1| <= 2
    ensures ScanFew(st.inThink, Translate(st, ev).1) == Some(Translate(st, ev).0.inThink)
  {
  }

  lemma ScanOfFew(open: bool, outs: seq<Out>)
    requires |outs| <= 2
    ensures Scan(open, outs) == ScanFew(open, outs)
  {
    if |outs| == 1 {
      assert outs == [outs[0]];
      ScanOfOne(open, outs[0]);
    } else if |outs| == 2 {
      assert DropLast(outs) == [outs[0]];
      ScanOfOne(open, outs[0]);
    }
  }

  /** Think blocks are well bracketed for every event sequence and mode, and the translator knows whether one is open. */
  lemma {:induction false} ThinkBlocksAreBracketed(mode: Mode, events: seq<Event>)
    ensures var (st, outs) := TranslateAll(Start(mode), events); Scan(false, outs) == Some(st.inThink)
  {
    if events != [] {
      ThinkBlocksAreBracketed(mode, DropLast(events));
      ModesAgree(mode, DropLast(events));
      var (st, outs) := TranslateAll(Start(mode), DropLast(events));
      ScanTranslated(st, Last(events));
      ScanInParts(false, outs, Translate(st, Last(events)).1);
    }
  }
}
