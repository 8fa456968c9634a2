/** What a translated stream says, told from the events alone: the answer, the reasoning and the usage. */
module Translation {
  import opened Translator
  import opened Wrappers

  /** The summary of a tool call that has started and not ended, told from the latest event that names it. */
  function OpenCall(events: seq<Event>, id: string): Option<string> {
    if events == [] then None
    else
      match Last(events)
      case ToolStart(other, summary) => if other == id then Some(summary) else OpenCall(DropLast(events), id)
      case ToolEnd(other, _, _) => if other == Some(id) then None else OpenCall(DropLast(events), id)
      case _ => OpenCall(DropLast(events), id)
  }

  /** A tool result is shown under the summary of its call, or under the name of the tool if the call is not known. */
  function Heading(events: seq<Event>, id: Option<string>, name: string): string {
    if id.Some? && OpenCall(events, id.value).Some? then OpenCall(events, id.value).value else name
  }

  /** What an event adds to the answer after the events before it. */
  function Spoken(before: seq<Event>, ev: Event): seq<Out> {
    match ev
    case TextDelta(text) => [Content(Answer(text))]
    case CommandOutput(text) => [Content(Answer(text))]
    case ToolEnd(id, name, result) => [Content(ToolDetails(Heading(before, id, name), result))]
    case MessageEnd(assistant, _, _, _, _, failure) =>
      if assistant && failure.Some? then [Content(Notice(failure.value))] else []
    case PromptResult(agentInvoked) => if agentInvoked then [] else [Done]
    case AgentEnd(terminal) => if terminal then [Done] else []
    case Response(failed, error) => if failed then [Error(error)] else []
    case ProcessExit => [Error("the agent process exited unexpectedly")]
    case _ => []
  }

  function AnswerTo(events: seq<Event>): seq<Out> {
    if events == [] then [] else AnswerTo(DropLast(events)) + Spoken(DropLast(events), Last(events))
  }

  /** The reasoning an event adds in a mode. */
  function Wanted(mode: Mode, ev: Event): seq<string> {
    match ev
    case ThinkingDelta(delta) => if mode.Off? then [] else [delta]
    case ToolStart(_, summary) => if mode.Field? then [summary] else []
    case _ => []
  }

  function ReasoningIn(mode: Mode, events: seq<Event>): seq<string> {
    if events == [] then [] else ReasoningIn(mode, DropLast(events)) + Wanted(mode, Last(events))
  }

  /** The reasoning an output shows, in either form. */
  function Shown(out: Out): seq<string> {
    match out
    case Reasoning(text) => [text]
    case Content(Thought(delta)) => [delta]
    case _ => []
  }

  function ReasoningOf(outs: seq<Out>): seq<string> {
    Spread(Shown, outs)
  }

  function TokensRead(events: seq<Event>): nat {
    if events == [] then 0
    else
      TokensRead(DropLast(events)) +
      if Last(events).MessageEnd? && Last(events).assistant then
        Last(events).input + Last(events).cacheRead + Last(events).cacheWrite
      else 0
  }

  function TokensWritten(events: seq<Event>): nat {
    if events == [] then 0
    else
      TokensWritten(DropLast(events)) +
      if Last(events).MessageEnd? && Last(events).assistant then Last(events).output else 0
  }

  // ---- The translator says exactly that

  /** The translator remembers exactly the calls that are open, under their latest summary. */
  ghost predicate Remembers(st: State, events: seq<Event>) {
    forall id: string :: OpenCall(events, id) == if id in st.tools then Some(st.tools[id]) else None
  }

  lemma StepRemembers(st: State, before: seq<Event>, ev: Event)
    requires Remembers(st, before)
    ensures Remembers(Translate(st, ev).0, before + [ev])
  {
    assert DropLast(before + [ev]) == before;
    var after := Translate(st, ev).0;
    forall id: string
      ensures OpenCall(before + [ev], id) == if id in after.tools then Some(after.tools[id]) else None
    {
      assert OpenCall(before, id) == if id in st.tools then Some(st.tools[id]) else None;
    }
  }

  lemma StepSpeaks(st: State, before: seq<Event>, ev: Event)
    requires Remembers(st, before) && st.mode.Off? && !st.inThink
    ensures Translate(st, ev).1 == Spoken(before, ev)
  {
    if ev.ToolEnd? && ev.toolId.Some? {
      assert OpenCall(before, ev.toolId.value).Some? <==> ev.toolId.value in st.tools;
    }
  }

  /** In every mode the outputs that are no reasoning are exactly the answer, tool results under the right summary and
      terminal outputs included, in order. */
  lemma {:induction false} TranslatorAnswers(mode: Mode, events: seq<Event>)
    ensures WithoutReasoning(TranslateAll(Start(mode), events).1) == AnswerTo(events)
    ensures Remembers(TranslateAll(Start(mode), events).0, events)
  {
    PlainAnswer(events);
    ModesAgree(mode, events);
  }

  lemma {:induction false} PlainAnswer(events: seq<Event>)
    ensures TranslateAll(Start(Off), events).1 == AnswerTo(events)
    ensures Remembers(TranslateAll(Start(Off), events).0, events)
  {
    if events != [] {
      PlainAnswer(DropLast(events));
      ModesAgree(Off, DropLast(events));
      StepAnswers(TranslateAll(Start(Off), DropLast(events)).0, events);
    }
  }

  lemma StepAnswers(st: State, events: seq<Event>)
    requires events != [] && Remembers(st, DropLast(events)) && st.mode.Off? && !st.inThink
    ensures Translate(st, Last(events)).1 == Spoken(DropLast(events), Last(events))
    ensures Remembers(Translate(st, Last(events)).0, events)
  {
    assert DropLast(events) + [Last(events)] == events;
    StepSpeaks(st, DropLast(events), Last(events));
    StepRemembers(st, DropLast(events), Last(events));
  }

  lemma TranslatedReasoning(st: State, ev: Event)
    ensures var outs := Translate(st, ev).1;
            && |outs| <= 2
            && (|outs| == 2 ==> Shown(outs[0]) == [])
            && Wanted(st.mode, ev) == if outs == [] then [] else Shown(Last(outs))
  {
  }

  lemma StepReasons(st: State, ev: Event)
    ensures ReasoningOf(Translate(st, ev).1) == Wanted(st.mode, ev)
  {
    TranslatedReasoning(st, ev);
    SpreadFew(Shown, Translate(st, ev).1);
  }

  /** No reasoning is lost, repeated or reordered: a mode shows exactly what it is meant to show. */
  lemma {:induction false} TranslatorReasons(mode: Mode, events: seq<Event>)
    ensures ReasoningOf(TranslateAll(Start(mode), events).1) == ReasoningIn(mode, events)
  {
    if events != [] {
      var before, ev := DropLast(events), Last(events);
      TranslatorReasons(mode, before);
      ModesAgree(mode, before);
      var (st, outs) := TranslateAll(Start(mode), before);
      StepReasons(st, ev);
      SpreadInParts(Shown, outs, Translate(st, ev).1);
    }
  }

  /** Usage is the sum over the finished assistant messages. */
  lemma {:induction false} UsageAddsUp(mode: Mode, events: seq<Event>)
    ensures TranslateAll(Start(mode), events).0.usage
            == Usage(TokensRead(events), TokensWritten(events), TokensRead(events) + TokensWritten(events))
  {
    if events != [] {
      UsageAddsUp(mode, DropLast(events));
      var st := TranslateAll(Start(mode), DropLast(events)).0;
      StepCounts(st, Last(events));
    }
  }

  lemma StepCounts(st: State, ev: Event)
    ensures var after := Translate(st, ev).0.usage;
            && after.prompt == st.usage.prompt + TokensRead([ev])
            && after.completion == st.usage.completion + TokensWritten([ev])
            && after.total == st.usage.total + TokensRead([ev]) + TokensWritten([ev])
  {
    assert DropLast([ev]) == [];
  }
}
