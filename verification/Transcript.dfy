/**
 generate.go, GenerateText: the tool loop, the transcript it builds and the lifecycle states
 it announces. The model, the tools and the hooks answer anything: a run is given by their
 answers, one Round for each step.
 */
module Transcript {
  import opened Wrappers
  import opened Provider
  import A = AgentState

  /** GenerateResult. */
  datatype Reply = Reply(content: Option<seq<Part>>, text: string, reasoning: string, reasoningParts: seq<Part>,
                         toolCalls: seq<ToolCall>, finishReason: string, usage: Usage,
                         sources: seq<Source>, response: Response, providerMeta: Meta)

  /** OnBeforeStep's answer. */
  datatype Hook = Proceed(extra: seq<Message>) | StopHere | HookPanics

  /** How one tool call went, its own hooks included. */
  datatype ToolRun =
    | StartHookPanicked
    | Skipped(result: string, skipError: Option<string>)
    | ToolPanicked
    | Ran(output: string, error: Option<string>)

  /** StopWhen's answer. */
  datatype Verdict = GoOn | Enough | PredicatePanics

  datatype Round = Round(before: Hook, requestPanics: bool, reply: Option<Reply>, responsePanics: bool,
                         stepPanics: bool, tools: seq<ToolRun>, verdict: Verdict)

  /** `tools` are the names that have an Execute; the two functions format error texts. */
  datatype Options = Options(accepted: bool, maxSteps: nat, hooked: bool, tools: set<string>, providerTools: bool,
                             finishPanics: bool, unknownTool: string -> string, quoted: string -> string)

  // ------------------------------------------------------------------- tools

  predicate ProviderExecuted(m: Meta) {
    Lookup(m, "providerExecuted") == Bool(true) || "resultBlock" in m || "rawItem" in m
  }

  predicate Client(tc: ToolCall) {
    !ProviderExecuted(tc.metadata)
  }

  datatype Output = Output(result: string, error: Option<string>)

  function RunOutput(o: Options, tc: ToolCall, run: ToolRun): Output {
    match run
    case StartHookPanicked => Output("", Some("goai: OnToolCallStart hook for tool " + o.quoted(tc.name) + " panicked"))
    case Skipped(result, e) => Output(result, e)
    case ToolPanicked => Output("", Some("goai: tool " + o.quoted(tc.name) + " panicked"))
    case Ran(output, e) => Output(output, e)
  }

  /** What the slot of call i holds in the end. */
  function SlotOf(o: Options, tc: ToolCall, run: ToolRun): Output {
    if !Client(tc) then Output("", None)
    else if tc.name !in o.tools then Output("", Some(o.unknownTool(tc.name)))
    else RunOutput(o, tc, run)
  }

  const MAX_ERROR: nat := 500

  function Text(out: Output): string {
    match out.error
    case Some(e) => "error: " + (if |e| > MAX_ERROR then e[..MAX_ERROR] + "..." else e)
    case None => out.result
  }

  /** Answers to the runs of a step that has none for a call are never looked at. */
  function RunAt(runs: seq<ToolRun>, i: nat): ToolRun {
    if i < |runs| then runs[i] else ToolPanicked
  }

  /** One result part for each client call of calls[..n], in call order. */
  function Answers(o: Options, calls: seq<ToolCall>, runs: seq<ToolRun>, n: nat): seq<Part>
    requires n <= |calls|
  {
    if n == 0 then []
    else
      var tc := calls[n - 1];
      Answers(o, calls, runs, n - 1)
      + (if Client(tc) then [ToolResultPart(tc.id, tc.name, Text(SlotOf(o, tc, RunAt(runs, n - 1))))] else [])
  }

  /** buildToolMessages: one message for each of them. */
  function Separate(ps: seq<Part>): seq<Message> {
    if ps == [] then [] else Separate(ps[..|ps| - 1]) + [Message(Tool, [ps[|ps| - 1]])]
  }

  function ResultsOf(o: Options, calls: seq<ToolCall>, runs: seq<ToolRun>, n: nat): seq<ToolResult>
    requires n <= |calls|
  {
    if n == 0 then []
    else
      var tc, out := calls[n - 1], SlotOf(o, calls[n - 1], RunAt(runs, n - 1));
      ResultsOf(o, calls, runs, n - 1) + [ToolResult(tc.id, tc.name, Text(out), out.error.Some?)]
  }

  // ---------------------------------------------------------------- messages

  function CallParts(calls: seq<ToolCall>): seq<Part> {
    if calls == [] then []
    else
      var tc := calls[|calls| - 1];
      CallParts(calls[..|calls| - 1]) + [ToolCallPart(tc.id, tc.name, tc.input, tc.metadata)]
  }

  function TextParts(text: string): seq<Part> {
    if text == "" then [] else [TextPart(text)]
  }

  /** buildFinalAssistantMessages. */
  function Final(text: string, calls: seq<ToolCall>, reasoning: seq<Part>, content: Option<seq<Part>>): seq<Message> {
    var parts := if content.Some? then content.value else reasoning + TextParts(text) + CallParts(calls);
    if parts == [] then [] else [Message(Assistant, parts)]
  }

  function Replayed(reasoning: seq<Part>): seq<Part> {
    if reasoning == [] then []
    else
      var p := reasoning[|reasoning| - 1];
      Replayed(reasoning[..|reasoning| - 1]) + [Part(p.typ, p.text, "", "", "", "", p.options)]
  }

  /** The assistant message that appendToolRoundTrip appends. */
  function RoundTrip(text: string, calls: seq<ToolCall>, reasoning: seq<Part>, content: Option<seq<Part>>):
    seq<Message>
  {
    if content.Some? then Final(text, calls, reasoning, content)
    else [Message(Assistant, Replayed(reasoning) + TextParts(text) + CallParts(calls))]
  }

  function AddMerged(out: seq<Message>, m: Message): seq<Message> {
    var n := |out|;
    if m.role == Tool && n > 0 && out[n - 1].role == Tool
    then out[n - 1 := Message(Tool, out[n - 1].content + m.content)] else out + [m]
  }

  /** mergeToolMessages. */
  function Merged(ms: seq<Message>): seq<Message> {
    if ms == [] then [] else AddMerged(Merged(ms[..|ms| - 1]), ms[|ms| - 1])
  }

  /** buildResponseMessages. */
  function ResponseMessages(delta: seq<Message>, steps: seq<StepResult>, reasoning: seq<Part>): seq<Message> {
    if steps == [] then []
    else
      var last := steps[|steps| - 1];
      var final := Final(last.text, last.toolCalls, reasoning, last.content);
      if delta == [] then final
      else if last.toolCalls != [] then Merged(delta)
      else Merged(delta) + final
  }

  // ---------------------------------------------------------------- the loop

  datatype Write = Write(kind: A.Kind, step: nat)

  /** The variables of the loop. */
  datatype Loop = Loop(delta: seq<Message>, steps: seq<StepResult>, usage: Usage, reasoning: seq<Part>,
                       highest: nat, writes: seq<Write>)

  const START: Loop := Loop([], [], NO_USAGE, [], 0, [Write(A.Starting, 0)])

  datatype Cause = Natural | NoExecutableTools | BeforeStep | Predicate | MaxSteps

  /** How the loop is left: by an error or panic, by returning, or by stopping after whole steps. */
  datatype Way = Errored | Returned(cause: Cause) | Stopped(why: Option<Cause>)

  datatype Turn = Go(l: Loop) | Leave(l: Loop, way: Way)

  function Begin(o: Options, r: Round, step: nat, l: Loop): Turn {
    if step > 1 && o.hooked then
      match r.before
      case Proceed(extra) => Go(l.(delta := l.delta + extra))
      case StopHere => Leave(l, Stopped(Some(BeforeStep)))
      case HookPanics => Leave(l, Errored)
    else Go(l)
  }

  function LastReasoning(r: Reply): seq<Part> {
    if r.reasoningParts == [] && r.reasoning != "" then [ReasoningPart(r.reasoning, map[])] else r.reasoningParts
  }

  function StepOf(r: Reply, step: nat): StepResult {
    StepResult(r.content, step, r.text, r.reasoning, r.toolCalls, [], r.finishReason, r.usage, r.sources, r.response,
               r.providerMeta)
  }

  function Ask(r: Round, step: nat, l: Loop): Turn {
    if r.requestPanics then Leave(l, Errored)
    else
      var l1 := l.(writes := l.writes + [Write(A.LLMInFlight, step)], highest := step);
      if r.responsePanics || r.reply.None? then Leave(l1, Errored)
      else
        var reply := r.reply.value;
        var l2 := l1.(steps := l1.steps + [StepOf(reply, step)], usage := AddUsage(l1.usage, reply.usage),
                      reasoning := LastReasoning(reply), writes := l1.writes + [Write(A.StepFinished, step)]);
        if r.stepPanics then Leave(l2, Errored) else Go(l2)
  }

  /** Whether the model is done, or there is nothing to run for it. */
  predicate Ends(o: Options, reply: Reply) {
    || NormalizedReason(reply.finishReason, reply.toolCalls) != FINISH_TOOL_CALLS
    || (reply.toolCalls == [] && !o.providerTools)
    || (reply.toolCalls != [] && o.tools == {})
  }

  function WithResults(steps: seq<StepResult>, results: seq<ToolResult>): seq<StepResult>
    requires steps != []
  {
    steps[|steps| - 1 := steps[|steps| - 1].(toolResults := results)]
  }

  function Act(o: Options, r: Round, reply: Reply, step: nat, l: Loop): Turn
    requires l.steps != []
  {
    if Ends(o, reply) then Leave(l, Returned(if reply.toolCalls != [] then NoExecutableTools else Natural))
    else
      var calls := reply.toolCalls;
      var l1 := if calls == [] then l
                else l.(writes := l.writes + [Write(A.ToolExecuting, step)],
                        steps := WithResults(l.steps, ResultsOf(o, calls, r.tools, |calls|)));
      var l2 := l1.(delta := l1.delta + RoundTrip(reply.text, calls, l.reasoning, reply.content)
                             + Separate(Answers(o, calls, r.tools, |calls|)));
      match r.verdict
      case GoOn => Go(l2)
      case Enough => Leave(l2, Stopped(Some(Predicate)))
      case PredicatePanics => Leave(l2, Errored)
  }

  function Step(o: Options, r: Round, step: nat, l: Loop): Turn {
    match Begin(o, r, step, l)
    case Leave(l1, way) => Leave(l1, way)
    case Go(l1) =>
      match Ask(r, step, l1)
      case Leave(l2, way) => Leave(l2, way)
      case Go(l2) => Act(o, r, r.reply.value, step, l2)
  }

  /** Steps from `step` on. */
  function From(o: Options, rounds: seq<Round>, step: nat, l: Loop): (t: Turn)
    requires step >= 1 && o.maxSteps <= |rounds|
    ensures t.Leave?
    decreases o.maxSteps + 1 - step
  {
    if step > o.maxSteps then Leave(l, Stopped(None))
    else
      match Step(o, rounds[step - 1], step, l)
      case Leave(l1, way) => Leave(l1, way)
      case Go(l1) => From(o, rounds, step + 1, l1)
  }

  datatype Result =
    | Failed
    | Completed(steps: seq<StepResult>, usage: Usage, responseMessages: seq<Message>, cause: Cause, exhausted: bool)

  /** finalizeStopCause says MaxSteps only if the model still wanted tools. */
  predicate Exhausted(o: Options, l: Loop, way: Way) {
    way == Stopped(None) && |l.steps| >= o.maxSteps && l.steps != [] && l.steps[|l.steps| - 1].toolCalls != []
  }

  function CauseOf(o: Options, l: Loop, way: Way): Cause {
    match way
    case Returned(cause) => cause
    case Stopped(Some(cause)) => cause
    case _ => if Exhausted(o, l, way) then MaxSteps else Natural
  }

  function ResultOf(o: Options, t: Turn): Result
    requires t.Leave?
  {
    if t.way.Errored? || o.finishPanics then Failed
    else
      Completed(t.l.steps, t.l.usage, ResponseMessages(t.l.delta, t.l.steps, t.l.reasoning),
                CauseOf(o, t.l, t.way), Exhausted(o, t.l, t.way))
  }

  /** The whole body: the loop, if the options are accepted. */
  function Run(o: Options, rounds: seq<Round>): (t: Turn)
    requires o.maxSteps <= |rounds|
    ensures t.Leave?
  {
    if o.accepted then From(o, rounds, 1, START) else Leave(START, Errored)
  }

  /** The deferred write that ends every run. */
  function AllWrites(l: Loop): seq<Write> {
    l.writes + [Write(A.Idle, if l.highest > |l.steps| then l.highest else |l.steps|)]
  }

  // ------------------------------------------------------------ what is wanted

  predicate ClientCall(p: Part) {
    p.typ == PartToolCall && !ProviderExecuted(p.options)
  }

  datatype Asked = Asked(id: string, name: string)

  function Asks(ps: seq<Part>): seq<Asked> {
    if ps == [] then []
    else
      var p := ps[|ps| - 1];
      Asks(ps[..|ps| - 1]) + (if ClientCall(p) then [Asked(p.toolCallId, p.toolName)] else [])
  }

  function Told(ps: seq<Part>): seq<Asked> {
    if ps == [] then []
    else
      var p := ps[|ps| - 1];
      Told(ps[..|ps| - 1]) + (if p.typ == PartToolResult then [Asked(p.toolCallId, p.toolName)] else [])
  }

  function AskedIn(m: Message): seq<Asked> {
    if m.role == Assistant then Asks(m.content) else []
  }

  /** Tool messages are exactly the answers to the assistant message before them: each of its
      client calls once, in order, and nothing else. */
  ghost predicate PairedUp(ms: seq<Message>) {
    && (forall k | 0 <= k < |ms| && AskedIn(ms[k]) != [] ::
          k + 1 < |ms| && ms[k + 1].role == Tool && Told(ms[k + 1].content) == AskedIn(ms[k]))
    && (forall k | 0 <= k < |ms| && ms[k].role == Tool :: k > 0 && AskedIn(ms[k - 1]) != [])
  }

  /** What hooks may inject. */
  predicate Harmless(m: Message) {
    m.role != Tool && AskedIn(m) == []
  }

  function AsksOf(calls: seq<ToolCall>): seq<Asked> {
    if calls == [] then []
    else
      var tc := calls[|calls| - 1];
      AsksOf(calls[..|calls| - 1]) + (if Client(tc) then [Asked(tc.id, tc.name)] else [])
  }

  /** A provider's answer: its ordered content makes the same calls as its list of calls, and
      its reasoning parts are reasoning. */
  predicate Coherent(r: Reply) {
    && (forall p | p in r.reasoningParts :: p.typ == PartReasoning)
    && (r.content.Some? ==>
          Asks(r.content.value) == AsksOf(r.toolCalls) && (r.toolCalls != [] ==> r.content.value != []))
  }

  ghost predicate Usual(rounds: seq<Round>) {
    forall r | r in rounds ::
      && (r.before.Proceed? ==> forall m | m in r.before.extra :: Harmless(m))
      && (r.reply.Some? ==> Coherent(r.reply.value))
  }

  // ----------------------------------------------------- one step's messages

  lemma AsksSnoc(ps: seq<Part>, p: Part)
    ensures Asks(ps + [p]) == Asks(ps) + (if ClientCall(p) then [Asked(p.toolCallId, p.toolName)] else [])
    ensures Told(ps + [p]) == Told(ps) + (if p.typ == PartToolResult then [Asked(p.toolCallId, p.toolName)] else [])
  {
    assert (ps + [p])[..|ps|] == ps;
  }

  lemma {:induction false} AsksAppend(a: seq<Part>, b: seq<Part>)
    ensures Asks(a + b) == Asks(a) + Asks(b)
  {
    if b == [] {
      assert a + b == a;
    } else {
      var front, p := b[..|b| - 1], b[|b| - 1];
      AsksAppend(a, front);
      AsksSnoc(a + front, p);
      assert a + b == (a + front) + [p];
    }
  }

  lemma {:induction false} CallPartsAsk(calls: seq<ToolCall>)
    ensures Asks(CallParts(calls)) == AsksOf(calls)
  {
    if calls != [] {
      var front, tc := calls[..|calls| - 1], calls[|calls| - 1];
      CallPartsAsk(front);
      AsksSnoc(CallParts(front), ToolCallPart(tc.id, tc.name, tc.input, tc.metadata));
    }
  }

  lemma {:induction false} QuietParts(ps: seq<Part>)
    requires forall p | p in ps :: p.typ == PartReasoning
    ensures Asks(ps) == [] && Asks(Replayed(ps)) == []
  {
    if ps != [] {
      var front, p := ps[..|ps| - 1], ps[|ps| - 1];
      assert p in ps && forall q | q in front :: q in ps;
      QuietParts(front);
      AsksSnoc(Replayed(front), Part(p.typ, p.text, "", "", "", "", p.options));
    }
  }

  lemma {:induction false} AnswersTell(o: Options, calls: seq<ToolCall>, runs: seq<ToolRun>, n: nat)
    requires n <= |calls|
    ensures Told(Answers(o, calls, runs, n)) == AsksOf(calls[..n])
  {
    if n > 0 {
      AnswersTell(o, calls, runs, n - 1);
      assert calls[..n][..n - 1] == calls[..n - 1];
      var tc := calls[n - 1];
      if Client(tc) {
        AsksSnoc(Answers(o, calls, runs, n - 1),
                 ToolResultPart(tc.id, tc.name, Text(SlotOf(o, tc, RunAt(runs, n - 1)))));
      } else {
        assert Answers(o, calls, runs, n - 1) + [] == Answers(o, calls, runs, n - 1);
      }
    }
  }

  lemma TextPartsAsk(text: string)
    ensures Asks(TextParts(text)) == []
  {
    if text != "" {
      AsksSnoc([], TextPart(text));
      assert [] + [TextPart(text)] == [TextPart(text)];
    }
  }

  lemma AggregateAsks(reasoning: seq<Part>, text: string, calls: seq<ToolCall>)
    requires Asks(reasoning) == []
    ensures Asks(reasoning + TextParts(text) + CallParts(calls)) == AsksOf(calls)
  {
    AsksAppend(reasoning + TextParts(text), CallParts(calls));
    AsksAppend(reasoning, TextParts(text));
    TextPartsAsk(text);
    CallPartsAsk(calls);
  }

  lemma ReasoningIsQuiet(r: Reply)
    requires Coherent(r)
    ensures Asks(LastReasoning(r)) == [] && Asks(Replayed(LastReasoning(r))) == []
  {
    QuietParts(LastReasoning(r));
  }

  /** At most one assistant message, which makes the calls of the reply. */
  predicate Speaks(ms: seq<Message>, asked: seq<Asked>) {
    if ms == [] then asked == [] else |ms| == 1 && ms[0].role == Assistant && Asks(ms[0].content) == asked
  }

  lemma FinalSpeaks(r: Reply)
    requires Coherent(r)
    ensures Speaks(Final(r.text, r.toolCalls, LastReasoning(r), r.content), AsksOf(r.toolCalls))
  {
    ReasoningIsQuiet(r);
    if r.content.None? {
      AggregateAsks(LastReasoning(r), r.text, r.toolCalls);
    }
  }

  lemma RoundTripSpeaks(r: Reply)
    requires Coherent(r)
    ensures Speaks(RoundTrip(r.text, r.toolCalls, LastReasoning(r), r.content), AsksOf(r.toolCalls))
  {
    ReasoningIsQuiet(r);
    FinalSpeaks(r);
    if r.content.None? {
      AggregateAsks(Replayed(LastReasoning(r)), r.text, r.toolCalls);
    }
  }

  // ------------------------------------------------------- merging tool messages

  /** The answers of a step in one message. */
  function Together(ps: seq<Part>): seq<Message> {
    if ps == [] then [] else [Message(Tool, ps)]
  }

  lemma MergedSnoc(ms: seq<Message>, m: Message)
    ensures Merged(ms + [m]) == AddMerged(Merged(ms), m)
  {
    assert (ms + [m])[..|ms|] == ms;
  }

  predicate EndsInTool(ms: seq<Message>) {
    ms != [] && ms[|ms| - 1].role == Tool
  }

  lemma MergedPlain(ms: seq<Message>, more: seq<Message>)
    requires forall m | m in more :: m.role != Tool
    ensures Merged(ms + more) == Merged(ms) + more
  {
    PlainUpTo(ms, more, |more|);
    assert more[..|more|] == more;
  }

  lemma {:induction false} PlainUpTo(ms: seq<Message>, more: seq<Message>, n: nat)
    requires n <= |more| && forall m | m in more :: m.role != Tool
    ensures Merged(ms + more[..n]) == Merged(ms) + more[..n]
  {
    if n == 0 {
      assert ms + more[..0] == ms;
      assert Merged(ms) + more[..0] == Merged(ms);
    } else {
      PlainUpTo(ms, more, n - 1);
      OnePlain(ms, more[..n - 1], more[n - 1]);
      assert more[..n] == more[..n - 1] + [more[n - 1]];
    }
  }

  lemma OnePlain(ms: seq<Message>, front: seq<Message>, m: Message)
    requires Merged(ms + front) == Merged(ms) + front && m.role != Tool
    ensures Merged(ms + (front + [m])) == Merged(ms) + (front + [m])
  {
    assert ms + (front + [m]) == (ms + front) + [m];
    MergedSnoc(ms + front, m);
  }

  lemma {:induction false} MergedAnswers(ms: seq<Message>, ps: seq<Part>)
    requires !EndsInTool(Merged(ms))
    ensures Merged(ms + Separate(ps)) == Merged(ms) + Together(ps)
  {
    if ps == [] {
      assert ms + Separate(ps) == ms;
    } else {
      var front, p := ps[..|ps| - 1], ps[|ps| - 1];
      MergedAnswers(ms, front);
      OneAnswer(ms, Separate(front), front, p);
      assert ps == front + [p];
    }
  }

  lemma OneAnswer(ms: seq<Message>, separate: seq<Message>, front: seq<Part>, p: Part)
    requires !EndsInTool(Merged(ms)) && Merged(ms + separate) == Merged(ms) + Together(front)
    ensures Merged(ms + (separate + [Message(Tool, [p])])) == Merged(ms) + Together(front + [p])
  {
    var m := Message(Tool, [p]);
    assert ms + (separate + [m]) == (ms + separate) + [m];
    MergedSnoc(ms + separate, m);
    JoinsAnswer(Merged(ms), front, p);
  }

  lemma JoinsAnswer(out: seq<Message>, front: seq<Part>, p: Part)
    requires !EndsInTool(out)
    ensures AddMerged(out + Together(front), Message(Tool, [p])) == out + Together(front + [p])
  {
    if front == [] {
      assert out + [] == out && [] + [p] == [p];
    } else {
      assert (out + [Message(Tool, front)])[|out| := Message(Tool, front + [p])] == out + [Message(Tool, front + [p])];
    }
  }

  // ----------------------------------------------------------- pairing, always

  lemma PairedPlain(ms: seq<Message>, more: seq<Message>)
    requires PairedUp(ms) && forall m | m in more :: Harmless(m)
    ensures PairedUp(ms + more)
  {
    var out := ms + more;
    forall k | 0 <= k < |out| && k >= |ms| ensures Harmless(out[k]) {
      assert out[k] == more[k - |ms|];
    }
  }

  lemma PairedStep(ms: seq<Message>, said: seq<Message>, asked: seq<Asked>, answers: seq<Part>)
    requires PairedUp(ms) && Speaks(said, asked) && Told(answers) == asked && (asked == [] ==> answers == [])
    ensures PairedUp(ms + said + Together(answers))
  {
    if asked == [] {
      assert forall m | m in said :: Harmless(m);
      PairedPlain(ms, said);
      assert ms + said + [] == ms + said;
    } else {
      PairedTwo(ms, said[0], Message(Tool, answers));
      assert ms + said + [Message(Tool, answers)] == ms + [said[0], Message(Tool, answers)];
    }
  }

  lemma PairedTwo(ms: seq<Message>, a: Message, t: Message)
    requires PairedUp(ms) && t.role == Tool && AskedIn(a) != [] && Told(t.content) == AskedIn(a)
    ensures PairedUp(ms + [a, t])
  {
    var out := ms + [a, t];
    assert out[|ms|] == a && out[|ms| + 1] == t;
    assert forall k | 0 <= k < |ms| :: out[k] == ms[k];
  }

  // --------------------------------------------------- what the loop has so far

  /** What the hook puts in front of a step. */
  function Extras(o: Options, r: Round, step: nat): seq<Message> {
    if step > 1 && o.hooked && r.before.Proceed? then r.before.extra else []
  }

  /** The messages of one whole step, with the answers in one message. */
  function Spoken(o: Options, r: Round, reply: Reply): seq<Message> {
    RoundTrip(reply.text, reply.toolCalls, LastReasoning(reply), reply.content)
    + Together(Answers(o, reply.toolCalls, r.tools, |reply.toolCalls|))
  }

  lemma MergedRound(delta: seq<Message>, said: seq<Message>, asked: seq<Asked>, answers: seq<Part>)
    requires Speaks(said, asked) && (asked == [] ==> answers == [])
    ensures Merged(delta + said + Separate(answers)) == Merged(delta) + said + Together(answers)
  {
    if asked == [] {
      assert delta + said + [] == delta + said && Merged(delta) + said + [] == Merged(delta) + said;
      MergedPlain(delta, said);
    } else {
      MergedPlain(delta, said);
      MergedAnswers(delta + said, answers);
    }
  }

  lemma {:induction false} SomeAnswer(o: Options, calls: seq<ToolCall>, runs: seq<ToolRun>, n: nat)
    requires n <= |calls|
    ensures |Answers(o, calls, runs, n)| == |AsksOf(calls[..n])|
  {
    if n > 0 {
      SomeAnswer(o, calls, runs, n - 1);
      assert calls[..n][..n - 1] == calls[..n - 1];
    }
  }

  /** One step's assistant message, its answers, and that they belong together. */
  lemma RoundSpeaks(o: Options, r: Round, reply: Reply)
    returns (said: seq<Message>, asked: seq<Asked>, answers: seq<Part>)
    requires Coherent(reply)
    ensures said == RoundTrip(reply.text, reply.toolCalls, LastReasoning(reply), reply.content)
    ensures answers == Answers(o, reply.toolCalls, r.tools, |reply.toolCalls|)
    ensures Spoken(o, r, reply) == said + Together(answers)
    ensures Speaks(said, asked) && Told(answers) == asked && (asked == [] ==> answers == [])
  {
    var calls := reply.toolCalls;
    said := RoundTrip(reply.text, calls, LastReasoning(reply), reply.content);
    asked := AsksOf(calls);
    answers := Answers(o, calls, r.tools, |calls|);
    RoundTripSpeaks(reply);
    SomeAnswer(o, calls, r.tools, |calls|);
    AnswersTell(o, calls, r.tools, |calls|);
    assert calls[..|calls|] == calls;
  }

  /** A whole step adds its assistant message and, directly after it, the one with the answers. */
  lemma RoundAdds(o: Options, r: Round, reply: Reply, delta: seq<Message>)
    requires Coherent(reply)
    ensures var calls := reply.toolCalls;
            Merged(delta + RoundTrip(reply.text, calls, LastReasoning(reply), reply.content)
                   + Separate(Answers(o, calls, r.tools, |calls|)))
            == Merged(delta) + Spoken(o, r, reply)
  {
    var said, asked, answers := RoundSpeaks(o, r, reply);
    MergedRound(delta, said, asked, answers);
    Regroup(Merged(delta), said, Together(answers));
  }

  lemma Regroup<T>(a: seq<T>, b: seq<T>, c: seq<T>)
    ensures a + b + c == a + (b + c)
  {
  }

  // -------------------------------------------------------- the whole transcript

  predicate Replied(rounds: seq<Round>, n: nat)
    requires n <= |rounds|
  {
    forall k | 0 <= k < n :: rounds[k].reply.Some?
  }

  /** What the first n steps say if each runs its tools: what is injected, the assistant
      message, and one message with the answers. */
  function Transcribed(o: Options, rounds: seq<Round>, n: nat): seq<Message>
    requires n <= |rounds| && Replied(rounds, n)
  {
    if n == 0 then []
    else
      var r := rounds[n - 1];
      Transcribed(o, rounds, n - 1) + Extras(o, r, n) + Spoken(o, r, r.reply.value)
  }

  lemma ExtrasHarmless(o: Options, rounds: seq<Round>, n: nat)
    requires Usual(rounds) && 0 < n <= |rounds|
    ensures forall m | m in Extras(o, rounds[n - 1], n) :: Harmless(m)
  {
    assert rounds[n - 1] in rounds;
  }

  lemma RoundPairs(o: Options, r: Round, reply: Reply, ms: seq<Message>)
    requires Coherent(reply) && PairedUp(ms)
    ensures PairedUp(ms + Spoken(o, r, reply))
  {
    var said, asked, answers := RoundSpeaks(o, r, reply);
    PairedStep(ms, said, asked, answers);
    Regroup(ms, said, Together(answers));
  }

  lemma OneMorePaired(o: Options, r: Round, n: nat, ms: seq<Message>)
    requires PairedUp(ms) && (forall m | m in Extras(o, r, n) :: Harmless(m))
    requires r.reply.Some? && Coherent(r.reply.value)
    ensures PairedUp(ms + Extras(o, r, n)) && PairedUp(ms + Extras(o, r, n) + Spoken(o, r, r.reply.value))
  {
    PairedPlain(ms, Extras(o, r, n));
    RoundPairs(o, r, r.reply.value, ms + Extras(o, r, n));
  }

  lemma {:induction false} TranscribedIsPaired(o: Options, rounds: seq<Round>, n: nat)
    requires n <= |rounds| && Replied(rounds, n) && Usual(rounds)
    ensures PairedUp(Transcribed(o, rounds, n))
    ensures n > 0 ==> PairedUp(Transcribed(o, rounds, n - 1) + Extras(o, rounds[n - 1], n))
  {
    if n > 0 {
      assert rounds[n - 1] in rounds;
      TranscribedIsPaired(o, rounds, n - 1);
      ExtrasHarmless(o, rounds, n);
      OneMorePaired(o, rounds[n - 1], n, Transcribed(o, rounds, n - 1));
    }
  }

  /** The last step recorded is step n, with its reply. */
  predicate LastIs(l: Loop, rounds: seq<Round>, n: nat) {
    && 0 < n <= |rounds| && |l.steps| == n && Replied(rounds, n)
    && (var last, reply := l.steps[n - 1], rounds[n - 1].reply.value;
        && last.text == reply.text && last.toolCalls == reply.toolCalls && last.content == reply.content
        && l.reasoning == LastReasoning(reply))
  }

  /** n whole steps are done. */
  predicate Whole(o: Options, rounds: seq<Round>, l: Loop, n: nat) {
    && n <= |rounds| && Replied(rounds, n) && |l.steps| == n && (n > 0 ==> LastIs(l, rounds, n))
    && Merged(l.delta) == Transcribed(o, rounds, n)
  }

  /** The model has answered step n, which runs no tools. */
  predicate Concluded(o: Options, rounds: seq<Round>, l: Loop, n: nat) {
    && LastIs(l, rounds, n) && Ends(o, rounds[n - 1].reply.value)
    && Merged(l.delta) == Transcribed(o, rounds, n - 1) + Extras(o, rounds[n - 1], n)
  }

  predicate LeftWell(o: Options, rounds: seq<Round>, t: Turn) {
    t.Leave? ==>
      match t.way
      case Errored => true
      case Returned(_) => Concluded(o, rounds, t.l, |t.l.steps|)
      case Stopped(_) => Whole(o, rounds, t.l, |t.l.steps|)
  }

  lemma AskKeeps(o: Options, rounds: seq<Round>, step: nat, l: Loop)
    requires 0 < step <= |rounds| && Replied(rounds, step - 1) && |l.steps| == step - 1
    ensures var t := Ask(rounds[step - 1], step, l);
            t.l.delta == l.delta && (t.Leave? ==> t.way.Errored?) && (t.Go? ==> LastIs(t.l, rounds, step))
  {
  }

  lemma ActAdds(o: Options, r: Round, reply: Reply, step: nat, l: Loop)
    requires l.steps != [] && Coherent(reply) && !Ends(o, reply) && l.reasoning == LastReasoning(reply)
    ensures var t := Act(o, r, reply, step, l);
            && Merged(t.l.delta) == Merged(l.delta) + Spoken(o, r, reply)
            && (t.Leave? ==> t.way.Errored? || t.way.Stopped?)
            && t.l.reasoning == l.reasoning && |t.l.steps| == |l.steps|
            && t.l.steps[|l.steps| - 1].(toolResults := []) == l.steps[|l.steps| - 1].(toolResults := [])
  {
    RoundAdds(o, r, reply, l.delta);
  }

  lemma ActKeeps(o: Options, rounds: seq<Round>, step: nat, l: Loop)
    requires Usual(rounds) && LastIs(l, rounds, step)
    requires Merged(l.delta) == Transcribed(o, rounds, step - 1) + Extras(o, rounds[step - 1], step)
    ensures var t := Act(o, rounds[step - 1], rounds[step - 1].reply.value, step, l);
            LeftWell(o, rounds, t) && (t.Go? ==> Whole(o, rounds, t.l, step))
  {
    var r := rounds[step - 1];
    var reply := r.reply.value;
    assert r in rounds;
    if !Ends(o, reply) {
      ActAdds(o, r, reply, step, l);
      SameLast(rounds, step, l, Act(o, r, reply, step, l).l);
    }
  }

  lemma SameLast(rounds: seq<Round>, n: nat, l: Loop, l1: Loop)
    requires LastIs(l, rounds, n) && l1.reasoning == l.reasoning && |l1.steps| == n
    requires l1.steps[n - 1].(toolResults := []) == l.steps[n - 1].(toolResults := [])
    ensures LastIs(l1, rounds, n)
  {
    assert l1.steps[n - 1].text == l1.steps[n - 1].(toolResults := []).text;
    assert l1.steps[n - 1].toolCalls == l1.steps[n - 1].(toolResults := []).toolCalls;
    assert l1.steps[n - 1].content == l1.steps[n - 1].(toolResults := []).content;
  }

  lemma StepKeeps(o: Options, rounds: seq<Round>, step: nat, l: Loop)
    requires 0 < step <= |rounds| && Usual(rounds) && Whole(o, rounds, l, step - 1)
    ensures var t := Step(o, rounds[step - 1], step, l);
            LeftWell(o, rounds, t) && (t.Go? ==> Whole(o, rounds, t.l, step))
  {
    var r := rounds[step - 1];
    var t := Begin(o, r, step, l);
    if t.Go? {
      ExtrasHarmless(o, rounds, step);
      MergedPlain(l.delta, Extras(o, r, step));
      assert l.delta + [] == l.delta;
      AskKeeps(o, rounds, step, t.l);
      if Ask(r, step, t.l).Go? {
        ActKeeps(o, rounds, step, Ask(r, step, t.l).l);
      }
    }
  }

  lemma {:induction false} RunKeeps(o: Options, rounds: seq<Round>, step: nat, l: Loop)
    requires step >= 1 && o.maxSteps <= |rounds| && Usual(rounds)
    requires step <= o.maxSteps + 1 && Whole(o, rounds, l, step - 1)
    ensures LeftWell(o, rounds, From(o, rounds, step, l))
    decreases o.maxSteps + 1 - step
  {
    if step <= o.maxSteps {
      StepKeeps(o, rounds, step, l);
      var t := Step(o, rounds[step - 1], step, l);
      if t.Go? {
        RunKeeps(o, rounds, step + 1, t.l);
      }
    }
  }

  lemma RunLeavesWell(o: Options, rounds: seq<Round>)
    requires o.maxSteps <= |rounds| && Usual(rounds)
    ensures LeftWell(o, rounds, Run(o, rounds))
  {
    if o.accepted {
      assert Whole(o, rounds, START, 0);
      RunKeeps(o, rounds, 1, START);
    }
  }

  // ------------------------------------------------------------- main results

  /** The steps a run did, and the transcript they make: the last step of a run that ends by
      itself runs no tools. */
  function Story(o: Options, rounds: seq<Round>, t: Turn): seq<Message>
    requires t.Leave? && LeftWell(o, rounds, t) && !t.way.Errored?
  {
    var n := |t.l.steps|;
    if t.way.Stopped? then Transcribed(o, rounds, n)
    else Transcribed(o, rounds, n - 1) + Extras(o, rounds[n - 1], n) + FinalOf(t.l)
  }

  function FinalOf(l: Loop): seq<Message> {
    if l.steps == [] then []
    else
      var last := l.steps[|l.steps| - 1];
      Final(last.text, last.toolCalls, l.reasoning, last.content)
  }

  /** The loop was stopped after a step that called no client tool. */
  predicate Repeats(t: Turn)
    requires t.Leave?
  {
    t.way.Stopped? && t.l.steps != [] && t.l.steps[|t.l.steps| - 1].toolCalls == [] && FinalOf(t.l) != []
  }

  lemma {:induction false} MergedSome(ms: seq<Message>)
    ensures Merged(ms) == [] <==> ms == []
  {
    if ms != [] {
      MergedSome(ms[..|ms| - 1]);
    }
  }

  /** The response messages of a completed run are its story; its last assistant message comes
      a second time exactly when the loop is stopped after a step without client calls. */
  lemma TranscriptIsStory(o: Options, rounds: seq<Round>)
    requires o.maxSteps <= |rounds| && Usual(rounds) && o.tools != {}
    requires ResultOf(o, Run(o, rounds)).Completed?
    ensures var t := Run(o, rounds);
            && LeftWell(o, rounds, t) && !t.way.Errored?
            && ResultOf(o, t).responseMessages == Story(o, rounds, t) + (if Repeats(t) then FinalOf(t.l) else [])
            && (ResultOf(o, t).responseMessages == Story(o, rounds, t) <==> !Repeats(t))
  {
    var t := Run(o, rounds);
    RunLeavesWell(o, rounds);
    MergedSome(t.l.delta);
    StoryTold(o, rounds, t);
  }

  /** Such a run: the provider ran its own tool, and the step limit is one. */
  lemma ServerToolRepeats(text: string, format: string -> string)
    requires text != ""
    ensures var o := Options(true, 1, false, {"f"}, true, false, format, format);
            var reply := Reply(None, text, "", [], [], FINISH_TOOL_CALLS, NO_USAGE, [], Response("", "", map[]), map[]);
            var rounds := [Round(Proceed([]), false, Some(reply), false, false, [], GoOn)];
            var m := Message(Assistant, [TextPart(text)]);
            && Repeats(Run(o, rounds))
            && ResultOf(o, Run(o, rounds)).Completed? && ResultOf(o, Run(o, rounds)).responseMessages == [m, m]
  {
    var o := Options(true, 1, false, {"f"}, true, false, format, format);
    var reply := Reply(None, text, "", [], [], FINISH_TOOL_CALLS, NO_USAGE, [], Response("", "", map[]), map[]);
    var r := Round(Proceed([]), false, Some(reply), false, false, [], GoOn);
    var rounds := [r];
    var m := Message(Assistant, [TextPart(text)]);
    OneServerStep(o, r, reply, text);
    var l := Step(o, r, 1, START).l;
    assert From(o, rounds, 2, l) == Leave(l, Stopped(None));
    assert From(o, rounds, 1, START) == Leave(l, Stopped(None));
    MergedSnoc([], m);
    assert [] + [m] == [m] && Merged([]) == [] && [m] + [m] == [m, m];
  }

  lemma OneServerStep(o: Options, r: Round, reply: Reply, text: string)
    requires text != "" && !o.hooked && o.providerTools && o.tools != {}
    requires reply == Reply(None, text, "", [], [], FINISH_TOOL_CALLS, NO_USAGE, [], Response("", "", map[]), map[])
    requires r == Round(Proceed([]), false, Some(reply), false, false, [], GoOn)
    ensures var t := Step(o, r, 1, START);
            && t.Go? && t.l.delta == [Message(Assistant, [TextPart(text)])] && t.l.steps == [StepOf(reply, 1)]
            && t.l.reasoning == []
  {
    assert Replayed([]) + TextParts(text) + CallParts([]) == [TextPart(text)];
    assert [] + [Message(Assistant, [TextPart(text)])] + [] == [Message(Assistant, [TextPart(text)])];
  }

  lemma StoryTold(o: Options, rounds: seq<Round>, t: Turn)
    requires t.Leave? && LeftWell(o, rounds, t) && !t.way.Errored? && o.tools != {} && Usual(rounds)
    requires Merged(t.l.delta) == [] <==> t.l.delta == []
    ensures ResponseMessages(t.l.delta, t.l.steps, t.l.reasoning)
            == Story(o, rounds, t) + (if Repeats(t) then FinalOf(t.l) else [])
  {
    if t.l.steps != [] {
      if t.l.steps[|t.l.steps| - 1].toolCalls == [] {
        QuietStoryTold(o, rounds, t);
      } else {
        CallingStoryTold(o, rounds, t);
      }
    }
  }

  /** The story, as the messages that the loop kept. */
  lemma StoryIs(o: Options, rounds: seq<Round>, t: Turn)
    requires t.Leave? && LeftWell(o, rounds, t) && !t.way.Errored?
    ensures Story(o, rounds, t) == if t.way.Stopped? then Merged(t.l.delta) else Merged(t.l.delta) + FinalOf(t.l)
  {
  }

  lemma QuietStoryTold(o: Options, rounds: seq<Round>, t: Turn)
    requires t.Leave? && LeftWell(o, rounds, t) && !t.way.Errored?
    requires t.l.steps != [] && t.l.steps[|t.l.steps| - 1].toolCalls == []
    requires Merged(t.l.delta) == [] <==> t.l.delta == []
    ensures ResponseMessages(t.l.delta, t.l.steps, t.l.reasoning)
            == Story(o, rounds, t) + (if Repeats(t) then FinalOf(t.l) else [])
  {
    NothingCalled(t.l);
    StoryIs(o, rounds, t);
    OnceOrTwice(Story(o, rounds, t), Merged(t.l.delta), FinalOf(t.l), t.way.Stopped?);
  }

  lemma OnceOrTwice(story: seq<Message>, ms: seq<Message>, final: seq<Message>, stopped: bool)
    requires story == if stopped then ms else ms + final
    ensures ms + final == story + (if stopped && final != [] then final else [])
  {
  }

  lemma CallingStoryTold(o: Options, rounds: seq<Round>, t: Turn)
    requires t.Leave? && LeftWell(o, rounds, t) && !t.way.Errored? && o.tools != {} && Usual(rounds)
    requires t.l.steps != [] && t.l.steps[|t.l.steps| - 1].toolCalls != []
    requires Merged(t.l.delta) == [] <==> t.l.delta == []
    ensures ResponseMessages(t.l.delta, t.l.steps, t.l.reasoning)
            == Story(o, rounds, t) + (if Repeats(t) then FinalOf(t.l) else [])
  {
    CallsGoOn(o, rounds, t);
    StoryIs(o, rounds, t);
    assert Story(o, rounds, t) + [] == Story(o, rounds, t);
  }

  /** After a step that called tools the loop was stopped, with messages kept. */
  lemma CallsGoOn(o: Options, rounds: seq<Round>, t: Turn)
    requires t.Leave? && LeftWell(o, rounds, t) && !t.way.Errored? && o.tools != {} && Usual(rounds)
    requires t.l.steps != [] && t.l.steps[|t.l.steps| - 1].toolCalls != []
    ensures t.way.Stopped? && Merged(t.l.delta) != []
  {
    var n := |t.l.steps|;
    LastSpeaks(rounds, t.l, n);
    var reply := rounds[n - 1].reply.value;
    if Ends(o, reply) {
      EndsQuietly(o, reply);
    }
    assert rounds[n - 1] in rounds;
    SaidSomething(o, rounds, n);
  }

  lemma NothingCalled(l: Loop)
    requires l.steps != [] && l.steps[|l.steps| - 1].toolCalls == [] && (Merged(l.delta) == [] <==> l.delta == [])
    ensures ResponseMessages(l.delta, l.steps, l.reasoning) == Merged(l.delta) + FinalOf(l)
    ensures FinalOf(l) == [] ==> Merged(l.delta) + FinalOf(l) == Merged(l.delta)
  {
    assert [] + FinalOf(l) == FinalOf(l);
  }

  lemma SaidSomething(o: Options, rounds: seq<Round>, n: nat)
    requires 0 < n <= |rounds| && Replied(rounds, n) && Coherent(rounds[n - 1].reply.value)
    requires rounds[n - 1].reply.value.toolCalls != []
    ensures Transcribed(o, rounds, n) != []
  {
    var r := rounds[n - 1];
    assert Spoken(o, r, r.reply.value) != [];
  }

  /** Every client tool call in the response messages of a completed run is answered exactly
      once, in call order, by the one tool message right after its assistant message,
      however the run was stopped. */
  lemma TranscriptIsPaired(o: Options, rounds: seq<Round>)
    requires o.maxSteps <= |rounds| && Usual(rounds) && o.tools != {}
    requires ResultOf(o, Run(o, rounds)).Completed?
    ensures PairedUp(ResultOf(o, Run(o, rounds)).responseMessages)
  {
    var t := Run(o, rounds);
    TranscriptIsStory(o, rounds);
    StoryIsPaired(o, rounds, t);
    if Repeats(t) {
      LastFinalIsHarmless(o, rounds, t);
      PairedPlain(Story(o, rounds, t), FinalOf(t.l));
    }
  }

  lemma StoryIsPaired(o: Options, rounds: seq<Round>, t: Turn)
    requires t.Leave? && LeftWell(o, rounds, t) && !t.way.Errored? && Usual(rounds) && o.tools != {}
    ensures PairedUp(Story(o, rounds, t))
  {
    if t.way.Returned? {
      LastFinalIsHarmless(o, rounds, t);
      ConclusionIsPaired(o, rounds, |t.l.steps|, FinalOf(t.l));
    } else {
      TranscribedIsPaired(o, rounds, |t.l.steps|);
    }
  }

  lemma ConclusionIsPaired(o: Options, rounds: seq<Round>, n: nat, final: seq<Message>)
    requires 0 < n <= |rounds| && Replied(rounds, n) && Usual(rounds) && forall m | m in final :: Harmless(m)
    ensures PairedUp(Transcribed(o, rounds, n - 1) + Extras(o, rounds[n - 1], n) + final)
  {
    TranscribedIsPaired(o, rounds, n);
    PairedPlain(Transcribed(o, rounds, n - 1) + Extras(o, rounds[n - 1], n), final);
  }

  lemma LastFinalIsHarmless(o: Options, rounds: seq<Round>, t: Turn)
    requires t.Leave? && LeftWell(o, rounds, t) && !t.way.Errored? && t.l.steps != [] && Usual(rounds) && o.tools != {}
    ensures t.way.Returned? || Repeats(t) ==> forall m | m in FinalOf(t.l) :: Harmless(m)
  {
    LastSpeaks(rounds, t.l, |t.l.steps|);
    if t.way.Returned? {
      EndsQuietly(o, rounds[|t.l.steps| - 1].reply.value);
    }
  }

  /** With tools, a step that ends the loop calls none. */
  lemma EndsQuietly(o: Options, reply: Reply)
    requires Ends(o, reply) && o.tools != {}
    ensures reply.toolCalls == []
  {
  }

  lemma LastSpeaks(rounds: seq<Round>, l: Loop, n: nat)
    requires LastIs(l, rounds, n) && Usual(rounds)
    ensures l.steps[n - 1].toolCalls == rounds[n - 1].reply.value.toolCalls
    ensures l.steps[n - 1].toolCalls == [] ==> forall m | m in FinalOf(l) :: Harmless(m)
  {
    assert rounds[n - 1] in rounds;
    var reply := rounds[n - 1].reply.value;
    FinalSpeaks(reply);
    SpeakingIsHarmless(FinalOf(l), AsksOf(reply.toolCalls));
  }

  lemma SpeakingIsHarmless(ms: seq<Message>, asked: seq<Asked>)
    requires Speaks(ms, asked)
    ensures asked == [] ==> forall m | m in ms :: Harmless(m)
  {
  }

  /** The usage reported is the sum over the steps, and the steps are numbered from 1. */
  ghost predicate Counted(l: Loop) {
    l.usage == TotalUsage(l.steps) && forall k | 0 <= k < |l.steps| :: l.steps[k].number == k + 1
  }

  lemma {:induction false} UsageIgnoresResults(steps: seq<StepResult>, results: seq<ToolResult>)
    requires steps != []
    ensures TotalUsage(WithResults(steps, results)) == TotalUsage(steps)
  {
    assert WithResults(steps, results)[..|steps| - 1] == steps[..|steps| - 1];
  }

  lemma AskCounts(r: Round, step: nat, l: Loop)
    requires Counted(l) && |l.steps| + 1 == step
    ensures var t := Ask(r, step, l); Counted(t.l) && (t.Go? ==> |t.l.steps| == step)
  {
    if r.reply.Some? {
      assert (l.steps + [StepOf(r.reply.value, step)])[..|l.steps|] == l.steps;
    }
  }

  lemma ActCounts(o: Options, r: Round, reply: Reply, step: nat, l: Loop)
    requires Counted(l) && l.steps != []
    ensures var t := Act(o, r, reply, step, l); Counted(t.l) && |t.l.steps| == |l.steps|
  {
    UsageIgnoresResults(l.steps, ResultsOf(o, reply.toolCalls, r.tools, |reply.toolCalls|));
  }

  lemma StepCounts(o: Options, r: Round, step: nat, l: Loop)
    requires Counted(l) && |l.steps| + 1 == step
    ensures var t := Step(o, r, step, l); Counted(t.l) && (t.Go? ==> |t.l.steps| == step)
  {
    var t := Begin(o, r, step, l);
    if t.Go? {
      AskCounts(r, step, t.l);
      var u := Ask(r, step, t.l);
      if u.Go? {
        ActCounts(o, r, r.reply.value, step, u.l);
      }
    }
  }

  lemma {:induction false} RunCounts(o: Options, rounds: seq<Round>, step: nat, l: Loop)
    requires step >= 1 && o.maxSteps <= |rounds| && Counted(l) && (step <= o.maxSteps ==> |l.steps| + 1 == step)
    ensures Counted(From(o, rounds, step, l).l)
    decreases o.maxSteps + 1 - step
  {
    if step <= o.maxSteps {
      StepCounts(o, rounds[step - 1], step, l);
      var t := Step(o, rounds[step - 1], step, l);
      if t.Go? {
        RunCounts(o, rounds, step + 1, t.l);
      }
    }
  }

  lemma UsageIsTotal(o: Options, rounds: seq<Round>)
    requires o.maxSteps <= |rounds| && ResultOf(o, Run(o, rounds)).Completed?
    ensures var r := ResultOf(o, Run(o, rounds));
            r.usage == TotalUsage(r.steps) && forall k | 0 <= k < |r.steps| :: r.steps[k].number == k + 1
  {
    if o.accepted {
      RunCounts(o, rounds, 1, START);
    }
  }

  // ------------------------------------------------------- the announced state

  /** Steps never go down, and only the first write is starting, none idle. */
  predicate Rising(ws: seq<Write>) {
    |ws| > 1 ==>
      var last := ws[|ws| - 1];
      Rising(ws[..|ws| - 1]) && ws[|ws| - 2].step <= last.step && !last.kind.Starting? && !last.kind.Idle?
  }

  lemma {:induction false} RisingIs(ws: seq<Write>)
    requires Rising(ws)
    ensures forall j, k | 0 <= j < k < |ws| :: ws[j].step <= ws[k].step
    ensures forall k | 0 < k < |ws| :: !ws[k].kind.Starting? && !ws[k].kind.Idle?
  {
    if |ws| > 1 {
      var front := ws[..|ws| - 1];
      RisingIs(front);
      assert forall k | 0 <= k < |front| :: ws[k] == front[k];
    }
  }

  function Announced(ws: seq<Write>): nat {
    if ws == [] then 0
    else
      var before, w := Announced(ws[..|ws| - 1]), ws[|ws| - 1];
      if w.kind.LLMInFlight? && w.step > before then w.step else before
  }

  ghost predicate Tracks(l: Loop) {
    && l.writes != [] && l.writes[0] == Write(A.Starting, 0) && Rising(l.writes)
    && l.writes[|l.writes| - 1].step == l.highest == Announced(l.writes)
    && |l.steps| <= l.highest
  }

  lemma AnnouncesOne(ws: seq<Write>, w: Write)
    requires ws != [] && Rising(ws) && ws[|ws| - 1].step <= w.step && !w.kind.Starting? && !w.kind.Idle?
    ensures Rising(ws + [w])
    ensures Announced(ws + [w]) == if w.kind.LLMInFlight? && w.step > Announced(ws) then w.step else Announced(ws)
  {
    assert (ws + [w])[..|ws|] == ws;
  }

  /** Up to date: step n is the highest announced. */
  ghost predicate TracksTo(l: Loop, n: nat) {
    Tracks(l) && l.highest == n
  }

  ghost predicate ReadyFor(l: Loop, step: nat) {
    step > 0 && TracksTo(l, step - 1) && |l.steps| == step - 1
  }

  lemma OneWrite(l: Loop, l1: Loop, w: Write)
    requires Tracks(l) && l1.writes == l.writes + [w] && !w.kind.Starting? && !w.kind.Idle?
    requires l.highest <= w.step == l1.highest && (w.step > l.highest ==> w.kind.LLMInFlight?)
    requires |l1.steps| <= l1.highest
    ensures Tracks(l1)
  {
    AnnouncesOne(l.writes, w);
  }

  lemma AskTracks(r: Round, step: nat, l: Loop)
    requires Tracks(l) && l.highest + 1 == step && |l.steps| + 1 == step
    ensures var t := Ask(r, step, l); Tracks(t.l) && (t.Go? ==> TracksTo(t.l, step) && |t.l.steps| == step)
  {
    if !r.requestPanics {
      var w := Write(A.LLMInFlight, step);
      var l1 := l.(writes := l.writes + [w], highest := step);
      OneWrite(l, l1, w);
      if !r.responsePanics && r.reply.Some? {
        OneWrite(l1, Ask(r, step, l).l, Write(A.StepFinished, step));
      }
    }
  }

  lemma ActTracks(o: Options, r: Round, reply: Reply, step: nat, l: Loop)
    requires TracksTo(l, step) && |l.steps| == step > 0
    ensures var t := Act(o, r, reply, step, l); TracksTo(t.l, step) && |t.l.steps| == step
  {
    if !Ends(o, reply) && reply.toolCalls != [] {
      OneWrite(l, Act(o, r, reply, step, l).l, Write(A.ToolExecuting, step));
    }
  }

  /** After step n, whichever way it went. */
  ghost predicate Tracked(t: Turn, n: nat) {
    Tracks(t.l) && (t.Go? ==> ReadyFor(t.l, n + 1))
  }

  lemma StepTracks(o: Options, r: Round, step: nat, l: Loop)
    requires ReadyFor(l, step)
    ensures Tracked(Step(o, r, step, l), step)
  {
    var t := Begin(o, r, step, l);
    if t.Go? {
      AskTracks(r, step, t.l);
      var u := Ask(r, step, t.l);
      if u.Go? {
        ActTracks(o, r, r.reply.value, step, u.l);
      }
    }
  }

  lemma {:induction false} RunTracks(o: Options, rounds: seq<Round>, step: nat, l: Loop)
    requires step >= 1 && o.maxSteps <= |rounds| && ReadyFor(l, step)
    ensures Tracks(From(o, rounds, step, l).l)
    decreases o.maxSteps + 1 - step
  {
    if step <= o.maxSteps {
      StepTracks(o, rounds[step - 1], step, l);
      var t := Step(o, rounds[step - 1], step, l);
      if t.Go? {
        RunTracks(o, rounds, step + 1, t.l);
      }
    }
  }

  lemma StepIsBounded(o: Options, r: Round, step: nat, l: Loop)
    requires l.highest <= o.maxSteps && step <= o.maxSteps
    ensures Step(o, r, step, l).l.highest <= o.maxSteps
  {
    var t := Begin(o, r, step, l);
    if t.Go? {
      var u := Ask(r, step, t.l);
      assert u.l.highest <= o.maxSteps;
    }
  }

  lemma {:induction false} RunIsBounded(o: Options, rounds: seq<Round>, step: nat, l: Loop)
    requires 1 <= step && o.maxSteps <= |rounds| && l.highest <= o.maxSteps
    ensures From(o, rounds, step, l).l.highest <= o.maxSteps
    decreases o.maxSteps + 1 - step
  {
    if step <= o.maxSteps {
      StepIsBounded(o, rounds[step - 1], step, l);
      NextIsBounded(o, rounds, step, l, Step(o, rounds[step - 1], step, l));
    }
  }

  lemma {:induction false} NextIsBounded(o: Options, rounds: seq<Round>, step: nat, l: Loop, t: Turn)
    requires 1 <= step <= o.maxSteps <= |rounds| && t == Step(o, rounds[step - 1], step, l) && t.l.highest <= o.maxSteps
    ensures From(o, rounds, step, l).l.highest <= o.maxSteps
    decreases o.maxSteps + 1 - step, 0
  {
    if t.Go? {
      RunIsBounded(o, rounds, step + 1, t.l);
    }
  }

  /** However a run ends, errors and panics included: the observed step never goes down, and
      the last state written is idle at the highest step announced. */
  lemma EndsIdleAtHighest(o: Options, rounds: seq<Round>)
    requires o.maxSteps <= |rounds|
    ensures var ws := AllWrites(Run(o, rounds).l);
            && ws != [] && ws[0] == Write(A.Starting, 0)
            && (forall j, k | 0 <= j < k < |ws| :: ws[j].step <= ws[k].step)
            && ws[|ws| - 1] == Write(A.Idle, Announced(ws))
            && forall k | 0 <= k < |ws| - 1 :: !ws[k].kind.Idle?
  {
    AnnouncedIsHighest(o, rounds);
    LastWriteIsIdle(Run(o, rounds).l);
  }

  lemma LastWriteIsIdle(l: Loop)
    requires Tracks(l)
    ensures var ws := AllWrites(l);
            && ws != [] && ws[0] == Write(A.Starting, 0)
            && (forall j, k | 0 <= j < k < |ws| :: ws[j].step <= ws[k].step)
            && ws[|ws| - 1] == Write(A.Idle, Announced(ws))
            && forall k | 0 <= k < |ws| - 1 :: !ws[k].kind.Idle?
  {
    RisingIs(l.writes);
    var ws := AllWrites(l);
    assert ws[..|ws| - 1] == l.writes;
    forall j, k | 0 <= j < k < |ws| ensures ws[j].step <= ws[k].step {
      assert j < |l.writes| - 1 ==> l.writes[j].step <= l.writes[|l.writes| - 1].step;
    }
  }

  lemma AnnouncedIsHighest(o: Options, rounds: seq<Round>)
    requires o.maxSteps <= |rounds|
    ensures var l := Run(o, rounds).l; Tracks(l) && AllWrites(l)[|l.writes|].step == l.highest
  {
    assert START.writes[..0] == [];
    if o.accepted {
      RunTracks(o, rounds, 1, START);
    }
  }

  lemma {:induction false} WordAt(ws: seq<Write>, k: nat)
    requires k < |ws|
    ensures |Words(ws)| == |ws| && Words(ws)[k] == A.Pack(A.Code(ws[k].kind), ws[k].step)
  {
    if |ws| > 1 {
      WordAt(ws[..|ws| - 1], if k < |ws| - 1 then k else 0);
    }
  }

  /** What Observe returns, below the 32-bit limit: the step of the stored words never goes
      down, and the last word is idle at the highest step announced. */
  lemma ObservedStepNeverFalls(o: Options, rounds: seq<Round>)
    requires o.maxSteps <= |rounds| && o.maxSteps < A.HALF
    ensures var ws := AllWrites(Run(o, rounds).l);
            var words := Words(ws);
            && |words| == |ws| > 0
            && (forall j, k | 0 <= j < k < |words| :: A.StepOf(words[j]) <= A.StepOf(words[k]))
            && A.KindOf(words[|words| - 1]) == A.Code(A.Idle)
            && A.StepOf(words[|words| - 1]) == Announced(ws)
  {
    var l := Run(o, rounds).l;
    var ws := AllWrites(l);
    EndsIdleAtHighest(o, rounds);
    if o.accepted {
      RunIsBounded(o, rounds, 1, START);
    }
    AnnouncedIsHighest(o, rounds);
    forall k | 0 <= k < |ws|
      ensures |Words(ws)| == |ws|
      ensures A.StepOf(Words(ws)[k]) == ws[k].step && A.KindOf(Words(ws)[k]) == A.Code(ws[k].kind)
    {
      WordAt(ws, k);
      assert k < |ws| - 1 ==> ws[k].step <= ws[|ws| - 1].step;
      A.PackIsExact(ws[k].kind, ws[k].step);
    }
  }

  /** And what others read while they call SetTerminal, whatever the interleaving: the step
      never goes down, and once the loop has written all its words it is the highest one
      announced, with the kind idle or a terminal one. */
  lemma NobodySeesAStepFall(o: Options, rounds: seq<Round>, trace: seq<A.System>, m: nat, n: nat)
    requires o.maxSteps <= |rounds| && o.maxSteps < A.HALF
    requires A.Run(trace) && m <= n < |trace| && forall c | c in trace[0].callers :: A.Terminal(c.kind)
    requires trace[0].word == A.Pack(A.Code(A.Starting), 0) && trace[0].todo == Words(AllWrites(Run(o, rounds).l))
    ensures A.StepOf(trace[m].word) <= A.StepOf(trace[n].word)
    ensures trace[n].todo == [] ==>
              && A.StepOf(trace[n].word) == Announced(AllWrites(Run(o, rounds).l))
              && (A.KindOf(trace[n].word) == A.Code(A.Idle) || A.TerminalCode(A.KindOf(trace[n].word)))
  {
    ObservedStepNeverFalls(o, rounds);
    A.PackIsExact(A.Starting, 0);
    var j, k := A.RunFollows(trace, m, n);
  }

  // ------------------------------------------------------------- the program

  /** executeToolsParallel: each goroutine fills its own slot, in any order. */
  method ExecuteToolsParallel(o: Options, calls: seq<ToolCall>, runs: seq<ToolRun>)
    returns (messages: seq<Message>, results: seq<ToolResult>)
    ensures messages == Separate(Answers(o, calls, runs, |calls|))
    ensures results == ResultsOf(o, calls, runs, |calls|)
  {
    var slots := new Output[|calls|](_ => Output("", None));
    var running: set<nat> := {};
    for i := 0 to |calls|
      invariant forall k | k in running :: k < i && Client(calls[k]) && calls[k].name in o.tools
      invariant forall k | 0 <= k < i && k !in running :: slots[k] == SlotOf(o, calls[k], RunAt(runs, k))
    {
      if !Client(calls[i]) {
        slots[i] := Output("", None);
      } else if calls[i].name !in o.tools {
        slots[i] := Output("", Some(o.unknownTool(calls[i].name)));
      } else {
        running := running + {i};
      }
    }
    while running != {}
      invariant forall k | k in running :: k < |calls| && Client(calls[k]) && calls[k].name in o.tools
      invariant forall k | 0 <= k < |calls| && k !in running :: slots[k] == SlotOf(o, calls[k], RunAt(runs, k))
      decreases running
    {
      var i :| i in running;
      slots[i] := RunOutput(o, calls[i], RunAt(runs, i));
      running := running - {i};
    }
    messages := BuildToolMessages(o, calls, runs, slots);
    results := BuildToolResults(o, calls, runs, slots);
  }

  method Shorten(out: Output) returns (text: string)
    ensures text == Text(out)
  {
    if out.error.None? {
      return out.result;
    }
    var e := out.error.value;
    if |e| > MAX_ERROR {
      e := e[..MAX_ERROR] + "...";
    }
    return "error: " + e;
  }

  method BuildToolMessages(o: Options, calls: seq<ToolCall>, ghost runs: seq<ToolRun>, slots: array<Output>)
    returns (messages: seq<Message>)
    requires slots.Length == |calls|
    requires forall k | 0 <= k < |calls| :: slots[k] == SlotOf(o, calls[k], RunAt(runs, k))
    ensures messages == Separate(Answers(o, calls, runs, |calls|))
  {
    messages := [];
    for i := 0 to |calls|
      invariant messages == Separate(Answers(o, calls, runs, i))
    {
      if ProviderExecuted(calls[i].metadata) {
        assert Answers(o, calls, runs, i) + [] == Answers(o, calls, runs, i);
        continue;
      }
      var text := Shorten(slots[i]);
      SeparateSnoc(Answers(o, calls, runs, i), ToolResultPart(calls[i].id, calls[i].name, text));
      messages := messages + [Message(Tool, [ToolResultPart(calls[i].id, calls[i].name, text)])];
    }
  }

  lemma SeparateSnoc(ps: seq<Part>, p: Part)
    ensures Separate(ps + [p]) == Separate(ps) + [Message(Tool, [p])]
  {
    assert (ps + [p])[..|ps|] == ps;
  }

  method BuildToolResults(o: Options, calls: seq<ToolCall>, ghost runs: seq<ToolRun>, slots: array<Output>)
    returns (results: seq<ToolResult>)
    requires slots.Length == |calls|
    requires forall k | 0 <= k < |calls| :: slots[k] == SlotOf(o, calls[k], RunAt(runs, k))
    ensures results == ResultsOf(o, calls, runs, |calls|)
  {
    results := [];
    for i := 0 to |calls|
      invariant results == ResultsOf(o, calls, runs, i)
    {
      var text := Shorten(slots[i]);
      results := results + [ToolResult(calls[i].id, calls[i].name, text, slots[i].error.Some?)];
    }
  }

  method AppendToolRoundTrip(messages: seq<Message>, text: string, reasoning: seq<Part>, calls: seq<ToolCall>,
                             toolMessages: seq<Message>, content: Option<seq<Part>>) returns (out: seq<Message>)
    ensures out == messages + RoundTrip(text, calls, reasoning, content) + toolMessages
  {
    if content.Some? {
      return messages + Final(text, calls, reasoning, content) + toolMessages;
    }
    var parts: seq<Part> := [];
    for i := 0 to |reasoning|
      invariant parts == Replayed(reasoning[..i])
    {
      assert reasoning[..i + 1][..i] == reasoning[..i];
      parts := parts + [Part(reasoning[i].typ, reasoning[i].text, "", "", "", "", reasoning[i].options)];
    }
    assert reasoning[..|reasoning|] == reasoning;
    if text != "" {
      parts := parts + [TextPart(text)];
    }
    ghost var front := parts;
    assert front == Replayed(reasoning) + TextParts(text);
    for i := 0 to |calls|
      invariant parts == front + CallParts(calls[..i])
    {
      assert calls[..i + 1][..i] == calls[..i];
      parts := parts + [ToolCallPart(calls[i].id, calls[i].name, calls[i].input, calls[i].metadata)];
    }
    assert calls[..|calls|] == calls;
    return messages + [Message(Assistant, parts)] + toolMessages;
  }

  method MergeToolMessages(messages: seq<Message>) returns (out: seq<Message>)
    ensures out == Merged(messages)
  {
    out := [];
    for i := 0 to |messages|
      invariant out == Merged(messages[..i])
    {
      assert messages[..i + 1] == messages[..i] + [messages[i]];
      MergedSnoc(messages[..i], messages[i]);
      var m, last := messages[i], |out| - 1;
      if m.role == Tool && last >= 0 && out[last].role == Tool {
        out := out[last := Message(Tool, out[last].content + m.content)];
      } else {
        out := out + [m];
      }
    }
    assert messages[..|messages|] == messages;
  }

  method BuildResponseMessages(delta: seq<Message>, steps: seq<StepResult>, reasoning: seq<Part>)
    returns (out: seq<Message>)
    ensures out == ResponseMessages(delta, steps, reasoning)
  {
    if |steps| == 0 {
      return [];
    }
    var last := steps[|steps| - 1];
    if |delta| == 0 {
      return Final(last.text, last.toolCalls, reasoning, last.content);
    }
    out := MergeToolMessages(delta);
    if |last.toolCalls| > 0 {
      return;
    }
    out := out + Final(last.text, last.toolCalls, reasoning, last.content);
  }

  /** The words that a list of writes stores. */
  function Words(ws: seq<Write>): seq<nat> {
    if ws == [] then []
    else Words(ws[..|ws| - 1]) + [A.Pack(A.Code(ws[|ws| - 1].kind), ws[|ws| - 1].step)]
  }

  lemma WordsSnoc(ws: seq<Write>, w: Write)
    ensures Words(ws + [w]) == Words(ws) + [A.Pack(A.Code(w.kind), w.step)]
  {
    assert (ws + [w])[..|ws|] == ws;
  }

  /** The state word has been through these writes. */
  ghost predicate Logged(state: A.State, past: seq<nat>, ws: seq<Write>)
    reads state
  {
    state.history == past + Words(ws)
  }

  method Announce(state: A.State, k: A.Kind, step: nat, ghost past: seq<nat>, ghost ws: seq<Write>)
    requires Logged(state, past, ws)
    modifies state
    ensures Logged(state, past, ws + [Write(k, step)]) && state.packed == A.Pack(A.Code(k), step)
  {
    state.Set(k, step);
    WordsSnoc(ws, Write(k, step));
  }

  method AskModel(r: Round, step: nat, l: Loop, state: A.State, ghost past: seq<nat>) returns (t: Turn)
    requires Logged(state, past, l.writes)
    modifies state
    ensures t == Ask(r, step, l) && Logged(state, past, t.l.writes)
  {
    if r.requestPanics {
      return Leave(l, Errored);
    }
    var v := l;
    Announce(state, A.LLMInFlight, step, past, v.writes);
    v := v.(writes := v.writes + [Write(A.LLMInFlight, step)], highest := step);
    if r.responsePanics || r.reply.None? {
      return Leave(v, Errored);
    }
    var reply := r.reply.value;
    v := v.(steps := v.steps + [StepOf(reply, step)], usage := AddUsage(v.usage, reply.usage));
    var reasoning := reply.reasoningParts;
    if |reasoning| == 0 && reply.reasoning != "" {
      reasoning := [ReasoningPart(reply.reasoning, map[])];
    }
    Announce(state, A.StepFinished, step, past, v.writes);
    v := v.(reasoning := reasoning, writes := v.writes + [Write(A.StepFinished, step)]);
    return if r.stepPanics then Leave(v, Errored) else Go(v);
  }

  method RunTools(o: Options, r: Round, reply: Reply, step: nat, l: Loop, state: A.State, ghost past: seq<nat>)
    returns (t: Turn)
    requires l.steps != [] && Logged(state, past, l.writes)
    modifies state
    ensures t == Act(o, r, reply, step, l) && Logged(state, past, t.l.writes)
  {
    var calls := reply.toolCalls;
    var reason := reply.finishReason;
    if |calls| > 0 && reason != FINISH_TOOL_CALLS {
      reason := FINISH_TOOL_CALLS;
    }
    if reason != FINISH_TOOL_CALLS || (|calls| == 0 && !o.providerTools) || (|calls| > 0 && o.tools == {}) {
      return Leave(l, Returned(if |calls| > 0 then NoExecutableTools else Natural));
    }
    var v := l;
    var toolMessages: seq<Message> := [];
    if |calls| > 0 {
      Announce(state, A.ToolExecuting, step, past, v.writes);
      var messages, results := ExecuteToolsParallel(o, calls, r.tools);
      toolMessages := messages;
      v := v.(steps := WithResults(v.steps, results), writes := v.writes + [Write(A.ToolExecuting, step)]);
    }
    var delta := AppendToolRoundTrip(v.delta, reply.text, v.reasoning, calls, toolMessages, reply.content);
    v := v.(delta := delta);
    match r.verdict {
      case GoOn => return Go(v);
      case Enough => return Leave(v, Stopped(Some(Predicate)));
      case PredicatePanics => return Leave(v, Errored);
    }
  }

  /** GenerateText's loop. */
  method Steps(o: Options, rounds: seq<Round>, state: A.State, ghost past: seq<nat>) returns (t: Turn)
    requires o.maxSteps <= |rounds| && Logged(state, past, START.writes)
    modifies state
    ensures t == From(o, rounds, 1, START) && Logged(state, past, t.l.writes)
  {
    var l := START;
    var step := 1;
    while step <= o.maxSteps
      invariant step >= 1 && Logged(state, past, l.writes)
      invariant From(o, rounds, step, l) == From(o, rounds, 1, START)
      decreases o.maxSteps + 1 - step
    {
      t := TakeStep(o, rounds[step - 1], step, l, state, past);
      if t.Leave? {
        return;
      }
      l := t.l;
      step := step + 1;
    }
    return Leave(l, Stopped(None));
  }

  /** Its body. */
  method TakeStep(o: Options, r: Round, step: nat, l0: Loop, state: A.State, ghost past: seq<nat>) returns (t: Turn)
    requires Logged(state, past, l0.writes)
    modifies state
    ensures t == Step(o, r, step, l0) && Logged(state, past, t.l.writes)
  {
    var l := l0;
    if step > 1 && o.hooked {
      match r.before {
        case HookPanics => return Leave(l, Errored);
        case StopHere => return Leave(l, Stopped(Some(BeforeStep)));
        case Proceed(extra) => l := l.(delta := l.delta + extra);
      }
    }
    t := AskModel(r, step, l, state, past);
    if t.Go? {
      t := RunTools(o, r, r.reply.value, step, t.l, state, past);
    }
  }

  method GenerateText(o: Options, rounds: seq<Round>, state: A.State) returns (result: Result)
    requires o.maxSteps <= |rounds|
    modifies state
    ensures result == ResultOf(o, Run(o, rounds))
    ensures state.history == old(state.history) + Words(AllWrites(Run(o, rounds).l))
    ensures state.packed == A.Pack(A.Code(A.Idle), Announced(AllWrites(Run(o, rounds).l)))
  {
    ghost var past := state.history;
    assert Words([]) == [] && past + [] == past;
    Announce(state, A.Starting, 0, past, []);
    assert [] + [Write(A.Starting, 0)] == START.writes;
    var t := Leave(START, Errored);
    if o.accepted {
      t := Steps(o, rounds, state, past);
    }
    result := Conclude(o, t);
    var final := |t.l.steps|;
    if t.l.highest > final {
      final := t.l.highest;
    }
    Announce(state, A.Idle, final, past, t.l.writes);
    EndsIdleAtHighest(o, rounds);
  }

  /** What is returned after the loop. */
  method Conclude(o: Options, t: Turn) returns (result: Result)
    requires t.Leave?
    ensures result == ResultOf(o, t)
  {
    var l := t.l;
    if t.way.Errored? || o.finishPanics {
      return Failed;
    }
    var exhausted := t.way == Stopped(None) && |l.steps| >= o.maxSteps && |l.steps| > 0
                     && |l.steps[|l.steps| - 1].toolCalls| > 0;
    var messages := BuildResponseMessages(l.delta, l.steps, l.reasoning);
    return Completed(l.steps, l.usage, messages, CauseOf(o, l, t.way), exhausted);
  }
}
