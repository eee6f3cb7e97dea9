/**
 generate.go: the streaming tool loop as an encoder of its steps into chunks, and
 TextStream.consume as the decoder.

 The model, the tools and the hooks are oracles: functions from the step number to the
 answer they give at that step. There is no cancellation.
 */
module StreamCodec {
  import opened Wrappers
  import opened Provider
  import R = Reasoning

  datatype StepEnd = StepEnd(content: Option<seq<Part>>, finishReason: string, usage: Usage, response: Response,
                             sources: seq<Source>, providerMeta: Option<Meta>, flat: Meta)

  datatype Chunk =
    | ChunkText(text: string, source: Option<Source>)
    | ChunkReasoning(piece: R.Chunk, source: Option<Source>)
    | ChunkToolCall(call: ToolCall)
    | ChunkToolProgress                          // stream starts, deltas, results: shown, not recorded
    | ChunkStepFinish(stepSource: string, end: StepEnd, toolResults: seq<ToolResult>)
    | ChunkFinish(end: StepEnd)
    | ChunkError

  const GOAI: string := "goai"
  const GOAI_TOOL_RESULTS: string := "goai-tool-results"

  const NO_RESPONSE: Response := Response("", "", map[])

  /** The two step sources are the loop's own: no provider chunk carries them. */
  predicate FromProvider(chunks: seq<Chunk>) {
    forall c | c in chunks :: c.ChunkStepFinish? ==> c.stepSource != GOAI && c.stepSource != GOAI_TOOL_RESULTS
  }

  function Optional<T>(x: Option<T>): seq<T> {
    match x case Some(v) => [v] case None => []
  }

  /** Flat metadata keys are copied into the response's own metadata. */
  function WithFlat(end: StepEnd): Response {
    end.response.(meta := end.response.meta + end.flat)
  }

  // ------------------------------------------------------ drainStep as a fold

  datatype Drained = Drained(content: Option<seq<Part>>, text: string, acc: R.Acc, toolCalls: seq<ToolCall>,
                             usage: Usage, finishReason: string, sources: seq<Source>, response: Response,
                             providerMeta: Meta, failed: bool)

  const NOTHING: Drained := Drained(None, "", R.EMPTY, [], NO_USAGE, "", [], NO_RESPONSE, map[], false)

  function EndDrain(d: Drained, e: StepEnd): Drained {
    d.(acc := R.Flush(d.acc), finishReason := e.finishReason, usage := e.usage, response := WithFlat(e),
       sources := d.sources + e.sources,
       providerMeta := if e.providerMeta.Some? then e.providerMeta.value else d.providerMeta)
  }

  function DrainChunk(d: Drained, c: Chunk): Drained {
    match c
    case ChunkText(t, s) => d.(text := d.text + t, sources := d.sources + Optional(s))
    case ChunkReasoning(p, s) => d.(acc := R.Add(d.acc, p), sources := d.sources + Optional(s))
    case ChunkToolCall(tc) => d.(toolCalls := d.toolCalls + [tc])
    case ChunkToolProgress => d
    case ChunkStepFinish(_, e, _) => EndDrain(d, e)
    case ChunkFinish(e) => EndDrain(d, e).(content := e.content)
    case ChunkError => d.(failed := true)
  }

  function Drain(chunks: seq<Chunk>): Drained {
    if chunks == [] then NOTHING else DrainChunk(Drain(chunks[..|chunks| - 1]), chunks[|chunks| - 1])
  }

  /** Everything but the provider's own ChunkFinish is passed on. */
  function Forwarded(chunks: seq<Chunk>): seq<Chunk> {
    if chunks == [] then []
    else Forwarded(chunks[..|chunks| - 1])
         + (if chunks[|chunks| - 1].ChunkFinish? then [] else [chunks[|chunks| - 1]])
  }

  method DrainStep(source: seq<Chunk>, sent: seq<Chunk>) returns (out: seq<Chunk>, d: Drained)
    ensures out == sent + Forwarded(source) && d == Drain(source)
  {
    out, d := sent, NOTHING;
    var reasoning := new R.ReasoningAccumulator();
    for i := 0 to |source|
      invariant fresh(reasoning) && reasoning.Valid()
      invariant out == sent + Forwarded(source[..i])
      invariant d.(acc := reasoning.View()) == Drain(source[..i])
    {
      var c := source[i];
      assert source[..i + 1][..i] == source[..i];
      if !c.ChunkFinish? {
        out := out + [c];
      }
      match c {
        case ChunkText(t, s) =>
          d := d.(text := d.text + t, sources := d.sources + Optional(s));
        case ChunkReasoning(p, s) =>
          reasoning.AddChunk(p);
          d := d.(sources := d.sources + Optional(s));
        case ChunkToolCall(tc) =>
          d := d.(toolCalls := d.toolCalls + [tc]);
        case ChunkToolProgress =>
        case ChunkStepFinish(_, e, _) =>
          reasoning.FlushCurrent();
          d := EndDrain(d, e);
        case ChunkFinish(e) =>
          reasoning.FlushCurrent();
          d := EndDrain(d, e).(content := e.content);
        case ChunkError =>
          d := d.(failed := true);
      }
    }
    assert source[..|source|] == source;
    d := d.(acc := reasoning.View());
  }

  // ------------------------------------------------------- consume as a fold

  datatype Stream = Stream(text: string, toolCalls: seq<ToolCall>, sources: seq<Source>, finishReason: string,
                           usage: Usage, response: Response, providerMeta: Meta, failed: bool,
                           steps: seq<StepResult>, currentStep: nat, stepText: string,
                           stepToolCalls: seq<ToolCall>, stepSources: seq<Source>, acc: R.Acc,
                           content: Option<seq<Part>>)

  const NEW_STREAM: Stream :=
    Stream("", [], [], "", NO_USAGE, NO_RESPONSE, map[], false, [], 0, "", [], [], R.EMPTY, None)

  /** A step boundary of the loop itself: the step is complete but for its tool results. */
  function StepBoundary(st: Stream, e: StepEnd): Stream {
    var meta := if e.providerMeta.Some? then e.providerMeta.value else map[];
    var step := StepResult(e.content, st.currentStep + 1, st.stepText, R.TextOf(R.Finish(st.acc)), st.stepToolCalls,
                           [], e.finishReason, e.usage, st.stepSources, e.response, meta);
    st.(acc := R.EMPTY, currentStep := st.currentStep + 1, steps := st.steps + [step],
        usage := AddUsage(st.usage, e.usage), finishReason := e.finishReason, response := e.response,
        providerMeta := meta, stepText := "", stepToolCalls := [], stepSources := [])
  }

  /** A boundary inside one provider answer. */
  function ProviderBoundary(st: Stream, e: StepEnd): Stream {
    st.(acc := R.Flush(st.acc), finishReason := e.finishReason, response := WithFlat(e),
        sources := st.sources + e.sources, stepSources := st.stepSources + e.sources,
        providerMeta := if e.providerMeta.Some? then e.providerMeta.value else st.providerMeta)
  }

  function FinalChunk(st: Stream, e: StepEnd): Stream {
    var response := if e.response.id != "" || e.response.model != "" then e.response else st.response;
    st.(content := if e.content.Some? then e.content else st.content, usage := e.usage,
        finishReason := e.finishReason, response := response.(meta := response.meta + e.flat),
        sources := st.sources + e.sources,
        providerMeta := if e.providerMeta.Some? then e.providerMeta.value else st.providerMeta)
  }

  function WithToolResults(steps: seq<StepResult>, results: seq<ToolResult>): seq<StepResult> {
    if steps == [] then [] else steps[|steps| - 1 := steps[|steps| - 1].(toolResults := results)]
  }

  function ConsumeChunk(st: Stream, c: Chunk): Stream {
    match c
    case ChunkText(t, s) =>
      st.(text := st.text + t, stepText := st.stepText + t,
          sources := st.sources + Optional(s), stepSources := st.stepSources + Optional(s))
    case ChunkReasoning(p, s) =>
      st.(text := st.text + p.text, acc := R.Add(st.acc, p),
          sources := st.sources + Optional(s), stepSources := st.stepSources + Optional(s))
    case ChunkToolCall(tc) => st.(toolCalls := st.toolCalls + [tc], stepToolCalls := st.stepToolCalls + [tc])
    case ChunkToolProgress => st
    case ChunkStepFinish(src, e, trs) =>
      if src == GOAI_TOOL_RESULTS then st.(steps := WithToolResults(st.steps, trs))
      else if src == GOAI then StepBoundary(st, e)
      else ProviderBoundary(st, e)
    case ChunkFinish(e) => FinalChunk(st, e)
    case ChunkError => st.(failed := true)
  }

  function Consume(st: Stream, chunks: seq<Chunk>): Stream {
    if chunks == [] then st else ConsumeChunk(Consume(st, chunks[..|chunks| - 1]), chunks[|chunks| - 1])
  }

  lemma {:induction false} ConsumeAppend(st: Stream, xs: seq<Chunk>, ys: seq<Chunk>)
    ensures Consume(st, xs + ys) == Consume(Consume(st, xs), ys)
  {
    if ys == [] {
      assert xs + ys == xs;
    } else {
      assert (xs + ys)[..|xs + ys| - 1] == xs + ys[..|ys| - 1];
      ConsumeAppend(st, xs, ys[..|ys| - 1]);
    }
  }

  // --------------------------------------------------- decoding one step

  function CarriedBy(c: Chunk): seq<Source> {
    match c
    case ChunkText(_, s) => Optional(s)
    case ChunkReasoning(_, s) => Optional(s)
    case ChunkStepFinish(_, e, _) => e.sources
    case _ => []
  }

  function ShownBy(c: Chunk): string {
    match c
    case ChunkText(t, _) => t
    case ChunkReasoning(p, _) => p.text
    case _ => ""
  }

  /** Sources of the chunks that are passed on. */
  function Carried(chunks: seq<Chunk>): seq<Source> {
    if chunks == [] then [] else Carried(chunks[..|chunks| - 1]) + CarriedBy(chunks[|chunks| - 1])
  }

  /** All visible text, reasoning included. */
  function Shown(chunks: seq<Chunk>): string {
    if chunks == [] then "" else Shown(chunks[..|chunks| - 1]) + ShownBy(chunks[|chunks| - 1])
  }

  /** Between two step boundaries nothing is pending. */
  predicate AtBoundary(st: Stream) {
    && st.stepText == "" && st.stepToolCalls == [] && st.stepSources == [] && st.acc == R.EMPTY
    && |st.steps| == st.currentStep
  }

  /** What reader r has gathered since st, against what the loop has drained. */
  predicate Agrees(st: Stream, r: Stream, d: Drained, carried: seq<Source>, shown: string) {
    && r.stepText == d.text && r.stepToolCalls == d.toolCalls && R.Held(r.acc) == R.Held(d.acc)
    && r.stepSources == carried && r.text == st.text + shown
    && r.steps == st.steps && r.currentStep == st.currentStep && r.usage == st.usage
    && r.toolCalls == st.toolCalls + d.toolCalls && (r.failed <==> st.failed || d.failed)
  }

  /** The reader of the passed-on chunks accumulates what the loop accumulated from all of
      them; only the segmentation of the reasoning may differ, not its text. */
  lemma {:induction false} PassedOn(st: Stream, chunks: seq<Chunk>)
    requires FromProvider(chunks) && AtBoundary(st)
    ensures Agrees(st, Consume(st, Forwarded(chunks)), Drain(chunks), Carried(chunks), Shown(chunks))
  {
    if chunks == [] {
      assert st.text + "" == st.text && st.toolCalls + [] == st.toolCalls;
    } else {
      var front, c := chunks[..|chunks| - 1], chunks[|chunks| - 1];
      assert c in chunks && forall x | x in front :: x in chunks;
      PassedOn(st, front);
      PassedOnStep(st, Consume(st, Forwarded(front)), Drain(front), Carried(front), Shown(front), c);
      ForwardOne(st, chunks);
    }
  }

  lemma ForwardOne(st: Stream, chunks: seq<Chunk>)
    requires chunks != []
    ensures var before := Consume(st, Forwarded(chunks[..|chunks| - 1]));
            var c := chunks[|chunks| - 1];
            Consume(st, Forwarded(chunks)) == if c.ChunkFinish? then before else ConsumeChunk(before, c)
  {
    var front, c := Forwarded(chunks[..|chunks| - 1]), chunks[|chunks| - 1];
    if c.ChunkFinish? {
      assert front + [] == front;
    } else {
      assert (front + [c])[..|front|] == front;
    }
  }

  lemma PassedOnStep(st: Stream, r: Stream, d: Drained, carried: seq<Source>, shown: string, c: Chunk)
    requires c.ChunkStepFinish? ==> c.stepSource != GOAI && c.stepSource != GOAI_TOOL_RESULTS
    requires Agrees(st, r, d, carried, shown)
    ensures var q := if c.ChunkFinish? then r else ConsumeChunk(r, c);
            Agrees(st, q, DrainChunk(d, c), carried + CarriedBy(c), shown + ShownBy(c))
  {
    R.FlushHolds(r.acc);
    R.FlushHolds(d.acc);
    if c.ChunkReasoning? {
      R.AddHolds(r.acc, c.piece);
      R.AddHolds(d.acc, c.piece);
    }
    assert st.text + (shown + ShownBy(c)) == st.text + shown + ShownBy(c);
    if c.ChunkToolCall? {
      assert st.toolCalls + (d.toolCalls + [c.call]) == st.toolCalls + d.toolCalls + [c.call];
    }
  }

  /** The sources the loop knows, but the reader does not, are those of ChunkFinish. */
  function Unseen(chunks: seq<Chunk>): seq<Source> {
    if chunks == [] then []
    else Unseen(chunks[..|chunks| - 1])
         + (if chunks[|chunks| - 1].ChunkFinish? then chunks[|chunks| - 1].end.sources else [])
  }

  lemma {:induction false} SourcesRebuilt(chunks: seq<Chunk>)
    ensures Carried(chunks) == Drain(chunks).sources <==> Unseen(chunks) == []
    ensures |Drain(chunks).sources| == |Carried(chunks)| + |Unseen(chunks)|
  {
    if chunks != [] {
      SourcesRebuilt(chunks[..|chunks| - 1]);
    }
  }

  // ------------------------------------------------------------- the encoder

  /** A streaming run: its limits, and what the model, the hooks and the tools answer at
      each step. A stream that could not be opened is None. */
  datatype Run = Run(maxSteps: nat, clientTools: bool, serverTools: bool,
                     stream: nat -> Option<seq<Chunk>>, beforeStop: nat -> bool,
                     tools: nat -> seq<ToolResult>, stopWhen: nat -> bool)

  predicate WellBehaved(run: Run) {
    forall k | 1 <= k <= run.maxSteps :: run.stream(k).Some? ==> FromProvider(run.stream(k).value)
  }

  function DrainedAt(run: Run, k: nat): Drained {
    match run.stream(k) case Some(cs) => Drain(cs) case None => NOTHING
  }

  /** The loop's record of step k, its tool results included. */
  function LoopStep(run: Run, k: nat): StepResult {
    var d := DrainedAt(run, k);
    StepResult(d.content, k, d.text, R.TextOf(R.Finish(d.acc)), d.toolCalls,
               if RunsTools(run, d) then run.tools(k) else [], d.finishReason, d.usage, d.sources, d.response,
               d.providerMeta)
  }

  /** The reader's record of step k: the same, the finish reason normalized, and without
      the sources that only ChunkFinish carried. */
  function ReaderStep(run: Run, k: nat): StepResult {
    var s := LoopStep(run, k);
    s.(finishReason := NormalizedReason(s.finishReason, s.toolCalls),
       sources := match run.stream(k) case Some(cs) => Carried(cs) case None => [])
  }

  function LoopSteps(run: Run, n: nat): seq<StepResult> {
    if n == 0 then [] else LoopSteps(run, n - 1) + [LoopStep(run, n)]
  }

  function ReaderSteps(run: Run, n: nat): seq<StepResult> {
    if n == 0 then [] else ReaderSteps(run, n - 1) + [ReaderStep(run, n)]
  }

  lemma {:induction false} StepCounts(run: Run, n: nat)
    ensures |LoopSteps(run, n)| == n && |ReaderSteps(run, n)| == n
  {
    if n > 0 {
      StepCounts(run, n - 1);
    }
  }

  function StepEndOf(d: Drained): StepEnd {
    StepEnd(d.content, NormalizedReason(d.finishReason, d.toolCalls), d.usage, d.response, [], Some(d.providerMeta),
            map[])
  }

  /** The chunks the loop adds for one completed step. */
  function StepChunks(run: Run, k: nat): seq<Chunk> {
    var d := DrainedAt(run, k);
    [ChunkStepFinish(GOAI, StepEndOf(d), [])]
    + (if RunsTools(run, d)
       then [ChunkStepFinish(GOAI_TOOL_RESULTS, StepEnd(None, "", NO_USAGE, NO_RESPONSE, [], None, map[]),
                             run.tools(k))]
       else [])
  }

  predicate Continues(run: Run, d: Drained) {
    && NormalizedReason(d.finishReason, d.toolCalls) == FINISH_TOOL_CALLS
    && (d.toolCalls != [] || run.serverTools)
    && (d.toolCalls == [] || run.clientTools)
  }

  predicate RunsTools(run: Run, d: Drained) {
    d.toolCalls != [] && Continues(run, d)
  }

  predicate IsEmptyStep(d: Drained) {
    d.text == "" && d.toolCalls == [] && d.finishReason == ""
  }

  /** The reader at a step boundary, after n whole steps. */
  predicate ReaderAt(run: Run, st: Stream, n: nat) {
    AtBoundary(st) && !st.failed && st.steps == ReaderSteps(run, n) && st.usage == TotalUsage(LoopSteps(run, n))
  }

  /** Decoding the chunks of one more step. */
  lemma DecodeStep(run: Run, st: Stream, chunks: seq<Chunk>, k: nat)
    requires k >= 1 && ReaderAt(run, st, k - 1) && run.stream(k).Some? && FromProvider(run.stream(k).value)
    requires !DrainedAt(run, k).failed && chunks == Forwarded(run.stream(k).value) + StepChunks(run, k)
    ensures ReaderAt(run, Consume(st, chunks), k)
  {
    var cs := run.stream(k).value;
    PassedOn(st, cs);
    StepCounts(run, k - 1);
    ConsumeAppend(st, Forwarded(cs), StepChunks(run, k));
    DecodeEnd(run, st, Consume(st, Forwarded(cs)), k);
    ReaderMoves(run, st, Consume(st, chunks), k);
  }

  lemma ReaderMoves(run: Run, st: Stream, s: Stream, k: nat)
    requires k >= 1 && ReaderAt(run, st, k - 1) && AtBoundary(s) && !s.failed
    requires s.steps == st.steps + [ReaderStep(run, k)] && s.usage == AddUsage(st.usage, DrainedAt(run, k).usage)
    ensures ReaderAt(run, s, k)
  {
    LoopSnoc(run, k);
  }

  lemma DecodeEnd(run: Run, st: Stream, r: Stream, k: nat)
    requires AtBoundary(st) && |st.steps| + 1 == k && run.stream(k).Some?
    requires var cs := run.stream(k).value; Agrees(st, r, Drain(cs), Carried(cs), Shown(cs))
    ensures var s := Consume(r, StepChunks(run, k));
            && s.steps == st.steps + [ReaderStep(run, k)]
            && AtBoundary(s) && s.usage == AddUsage(st.usage, DrainedAt(run, k).usage) && s.failed == r.failed
  {
    BoundaryMakesStep(run, st, r, k);
    DecodeBoundary(r, StepChunks(run, k));
    BackfillsLast(st.steps, ReaderStep(run, k).(toolResults := []), run.tools(k));
  }

  lemma BackfillsLast(steps: seq<StepResult>, last: StepResult, results: seq<ToolResult>)
    ensures WithToolResults(steps + [last], results) == steps + [last.(toolResults := results)]
  {
  }

  /** What the boundary chunk makes of the gathered pieces is the reader's step. */
  lemma BoundaryMakesStep(run: Run, st: Stream, r: Stream, k: nat)
    requires AtBoundary(st) && |st.steps| + 1 == k && run.stream(k).Some?
    requires var cs := run.stream(k).value; Agrees(st, r, Drain(cs), Carried(cs), Shown(cs))
    ensures var d := DrainedAt(run, k);
            var s := StepBoundary(r, StepEndOf(d));
            && s.steps == st.steps + [ReaderStep(run, k).(toolResults := [])]
            && AtBoundary(s) && s.usage == AddUsage(st.usage, d.usage) && s.failed == r.failed
  {
    FinishHolds(r.acc);
    FinishHolds(Drain(run.stream(k).value).acc);
  }

  lemma FinishHolds(a: R.Acc)
    ensures R.TextOf(R.Finish(a)) == R.Held(a)
  {
    R.FlushHolds(a);
    assert R.TextOf(R.Finish(a)) + "" == R.TextOf(R.Finish(a));
  }

  lemma LoopSnoc(run: Run, n: nat)
    requires n > 0
    ensures TotalUsage(LoopSteps(run, n)) == AddUsage(TotalUsage(LoopSteps(run, n - 1)), LoopStep(run, n).usage)
  {
    assert LoopSteps(run, n)[..|LoopSteps(run, n)| - 1] == LoopSteps(run, n - 1);
  }

  lemma ConsumeOne(r: Stream, c: Chunk)
    ensures Consume(r, [c]) == ConsumeChunk(r, c)
  {
    assert [c][..0] == [] && Consume(r, []) == r;
  }

  lemma DecodeBoundary(r: Stream, cs: seq<Chunk>)
    requires 1 <= |cs| <= 2 && cs[0].ChunkStepFinish? && cs[0].stepSource == GOAI
    requires |cs| == 2 ==> cs[1].ChunkStepFinish? && cs[1].stepSource == GOAI_TOOL_RESULTS
    ensures var s := StepBoundary(r, cs[0].end);
            Consume(r, cs) == if |cs| == 1 then s else s.(steps := WithToolResults(s.steps, cs[1].toolResults))
  {
    ConsumeOne(r, cs[0]);
    if |cs| == 1 {
      assert cs == [cs[0]];
    } else {
      var s := StepBoundary(r, cs[0].end);
      assert cs == [cs[0]] + [cs[1]];
      ConsumeAppend(r, [cs[0]], [cs[1]]);
      ConsumeOne(s, cs[1]);
    }
  }

  /** The closing chunk overwrites the total, and leaves the steps alone. */
  lemma DecodeFinal(st: Stream, cs: seq<Chunk>, e: StepEnd)
    ensures var r := Consume(st, cs + [ChunkFinish(e)]);
            var before := Consume(st, cs);
            && r.steps == before.steps && r.usage == e.usage && r.failed == before.failed
            && r.text == before.text && r.toolCalls == before.toolCalls && r.finishReason == e.finishReason
  {
    assert (cs + [ChunkFinish(e)])[..|cs|] == cs;
  }

  datatype Ending = NotStarted | Failed | Completed(cause: StopCause)

  datatype StopCause = Natural | MaxSteps | Predicate | BeforeStep | Empty

  /** Step k gets an answer that is recorded. */
  predicate Records(run: Run, k: nat) {
    && (k > 1 ==> !run.beforeStop(k))
    && run.stream(k).Some? && !DrainedAt(run, k).failed && !IsEmptyStep(DrainedAt(run, k))
  }

  /** The loop goes on after step k, if there are steps left. */
  predicate GoesOnAfter(run: Run, k: nat) {
    Continues(run, DrainedAt(run, k)) && !run.stopWhen(k)
  }

  /** How a run of n recorded steps ends: the answer to the last runs no tools, the predicate
      stops it, the limit is reached, the hook stops it, or the next stream fails or brings
      nothing. */
  function EndingAfter(run: Run, n: nat): Ending {
    if n > 0 && !Continues(run, DrainedAt(run, n)) then Completed(Natural)
    else if n > 0 && run.stopWhen(n) then Completed(Predicate)
    else if n >= run.maxSteps then
      Completed(if n > 0 && DrainedAt(run, n).toolCalls != [] then MaxSteps else Natural)
    else if n > 0 && run.beforeStop(n + 1) then Completed(BeforeStep)
    else if run.stream(n + 1).None? then (if n == 0 then NotStarted else Failed)
    else if DrainedAt(run, n + 1).failed then Failed
    else Completed(Empty)
  }

  /** The course of a run as its answers determine it. */
  ghost predicate TakesCourse(run: Run, n: nat, ending: Ending) {
    && n <= run.maxSteps && ending == EndingAfter(run, n)
    && (forall k | 1 <= k <= n :: Records(run, k)) && (forall k | 1 <= k < n :: GoesOnAfter(run, k))
    && (n < run.maxSteps && (n > 0 ==> GoesOnAfter(run, n)) ==> !Records(run, n + 1))
  }

  /** The first answer is empty but for reasoning, which a reader has been shown. */
  predicate ShowsOnlyReasoning(run: Run) {
    && run.stream(1).Some? && !DrainedAt(run, 1).failed && IsEmptyStep(DrainedAt(run, 1))
    && Shown(run.stream(1).value) != ""
  }

  /** A completed run records no step exactly if its first answer brings nothing. */
  lemma NoStepIsEmpty(run: Run, n: nat, ending: Ending)
    requires run.maxSteps >= 1 && TakesCourse(run, n, ending) && ending.Completed?
    ensures n == 0 <==> run.stream(1).Some? && !DrainedAt(run, 1).failed && IsEmptyStep(DrainedAt(run, 1))
  {
    assert n > 0 ==> Records(run, 1);
  }

  /** There is only one such course. */
  lemma CourseIsUnique(run: Run, n: nat, ending: Ending, m: nat, other: Ending)
    requires TakesCourse(run, n, ending) && TakesCourse(run, m, other)
    ensures n == m && ending == other
  {
    NotShorter(run, n, ending, m, other);
    NotShorter(run, m, other, n, ending);
  }

  lemma NotShorter(run: Run, n: nat, ending: Ending, m: nat, other: Ending)
    requires TakesCourse(run, n, ending) && TakesCourse(run, m, other)
    ensures n >= m
  {
    forall k | 1 <= k <= m ensures Records(run, k) && (k < m ==> GoesOnAfter(run, k)) { }
  }

  /** Such a run: one reasoning chunk and nothing else. */
  lemma OnlyReasoningIsShown(run: Run, text: string)
    requires text != "" && run.stream(1) == Some([ChunkReasoning(R.Chunk(text, map[]), None)])
    ensures ShowsOnlyReasoning(run)
  {
    var cs := run.stream(1).value;
    assert cs[..0] == [];
    assert Drain(cs) == DrainChunk(NOTHING, cs[0]) && Shown(cs) == "" + text;
  }

  /** TextStream.buildResult: the steps a caller gets. With no step boundary seen but some
      data, one step is made up from the totals. */
  function ResultStepCount(st: Stream): nat {
    if st.steps != [] then |st.steps|
    else if st.text != "" || st.toolCalls != [] || st.finishReason != "" then 1
    else 0
  }

  /** One drained step recorded and announced, its tools run, and whether the loop goes on. */
  method FinishStep(run: Run, step: nat, d: Drained, sent: seq<Chunk>, before: seq<StepResult>)
    returns (out: seq<Chunk>, steps: seq<StepResult>, cause: Option<StopCause>)
    requires d == DrainedAt(run, step)
    ensures out == sent + StepChunks(run, step) && steps == before + [LoopStep(run, step)]
    ensures cause == if !Continues(run, d) then Some(Natural) else if run.stopWhen(step) then Some(Predicate) else None
  {
    var reasoning := R.TextOf(R.Finish(d.acc));
    steps := before + [StepResult(d.content, step, d.text, reasoning, d.toolCalls, [], d.finishReason, d.usage,
                                  d.sources, d.response, d.providerMeta)];
    var reason := NormalizedReason(d.finishReason, d.toolCalls);
    var end := StepEnd(d.content, reason, d.usage, d.response, [], Some(d.providerMeta), map[]);
    out := sent + [ChunkStepFinish(GOAI, end, [])];
    cause := None;
    if reason != FINISH_TOOL_CALLS || (d.toolCalls == [] && !run.serverTools)
       || (d.toolCalls != [] && !run.clientTools) {
      cause := Some(Natural);
      return;
    }
    if d.toolCalls != [] {
      var results := run.tools(step);
      BackfillsLast(before, steps[|steps| - 1], results);
      steps := WithToolResults(steps, results);
      end := StepEnd(None, "", NO_USAGE, NO_RESPONSE, [], None, map[]);
      out := out + [ChunkStepFinish(GOAI_TOOL_RESULTS, end, results)];
    }
    if run.stopWhen(step) {
      cause := Some(Predicate);
    }
  }

  /** The invariant of the loop: between steps the reader of what was sent is at a step
      boundary; once the loop has ended it has the same steps. */
  predicate LoopState(run: Run, out: seq<Chunk>, steps: seq<StepResult>, total: Usage, over: bool) {
    var st := Consume(NEW_STREAM, out);
    && steps == LoopSteps(run, |steps|) && total == TotalUsage(steps)
    && st.steps == ReaderSteps(run, |steps|) && st.usage == total && !st.failed
    && (if over then steps == [] ==> run.stream(1).Some? && st.text == Shown(run.stream(1).value) && st.toolCalls == []
        else AtBoundary(st) && (steps == [] ==> st == NEW_STREAM))
  }

  /** The reader of these chunks has the loop's steps and their total usage. */
  predicate Decoded(run: Run, out: seq<Chunk>, steps: seq<StepResult>) {
    var st := Consume(NEW_STREAM, out);
    && st.steps == ReaderSteps(run, |steps|) && st.usage == TotalUsage(steps) && !st.failed
    && (steps == [] ==> run.stream(1).Some? && st.text == Shown(run.stream(1).value)
                        && st.toolCalls == [] && st.finishReason == "")
  }

  lemma NothingSent(run: Run)
    ensures LoopState(run, [], [], NO_USAGE, false)
  {
  }

  lemma ClosingDecoded(run: Run, out: seq<Chunk>, steps: seq<StepResult>, last: StepEnd, stopped: bool)
    requires LoopState(run, out, steps, last.usage, stopped) && (steps == [] ==> last.finishReason == "" && stopped)
    ensures Decoded(run, out + [ChunkFinish(last)], steps)
  {
    DecodeFinal(NEW_STREAM, out, last);
  }

  /** How one turn of the loop ends. */
  datatype Turn = GoesOn | Stops(cause: StopCause) | Breaks(ending: Ending)

  /** At this step the run ends, with or without having recorded it. */
  predicate EndsHere(run: Run, step: nat, n: nat, ending: Ending) {
    && (n == step || n + 1 == step) && ending == EndingAfter(run, n)
    && (if n == step then Records(run, step) && !GoesOnAfter(run, step) else !Records(run, step))
  }

  /** What one turn does: nothing, a stream that brings nothing, or one more step. */
  predicate Moved(run: Run, step: nat, sent: seq<Chunk>, before: seq<StepResult>, total: Usage,
                  out: seq<Chunk>, steps: seq<StepResult>, sum: Usage, turn: Turn)
    requires step >= 1
  {
    if step > 1 && run.beforeStop(step) then
      out == sent && steps == before && sum == total && turn == Stops(BeforeStep)
    else if run.stream(step).None? then steps == before && turn == Breaks(if step == 1 then NotStarted else Failed)
    else if DrainedAt(run, step).failed then steps == before && turn == Breaks(Failed)
    else if IsEmptyStep(DrainedAt(run, step)) then
      out == sent + Forwarded(run.stream(step).value) && steps == before && sum == total && turn == Stops(Empty)
    else
      && out == sent + Forwarded(run.stream(step).value) + StepChunks(run, step)
      && steps == before + [LoopStep(run, step)] && sum == AddUsage(total, DrainedAt(run, step).usage)
      && turn == (if !Continues(run, DrainedAt(run, step)) then Stops(Natural)
                  else if run.stopWhen(step) then Stops(Predicate) else GoesOn)
  }

  /** The body of the loop. `last` is what the closing chunk repeats of the last step. */
  method TakeStep(run: Run, step: nat, sent: seq<Chunk>, before: seq<StepResult>, total: Usage, last0: StepEnd)
    returns (out: seq<Chunk>, steps: seq<StepResult>, sum: Usage, last: StepEnd, turn: Turn)
    requires step >= 1
    ensures Moved(run, step, sent, before, total, out, steps, sum, turn) && (steps == [] ==> last == last0)
  {
    out, steps, sum, last := sent, before, total, last0;
    if step > 1 && run.beforeStop(step) {
      return out, steps, sum, last, Stops(BeforeStep);
    }
    var answer := run.stream(step);
    if answer.None? {
      return out + [ChunkError], steps, sum, last, Breaks(if step == 1 then NotStarted else Failed);
    }
    var d;
    out, d := DrainStep(answer.value, out);
    if d.failed {
      return out, steps, sum, last, Breaks(Failed);
    }
    if IsEmptyStep(d) {
      return out, steps, sum, last, Stops(Empty);
    }
    var cause;
    out, steps, cause := FinishStep(run, step, d, out, steps);
    sum := AddUsage(sum, d.usage);
    last := StepEnd(d.content, NormalizedReason(d.finishReason, d.toolCalls), NO_USAGE, d.response, [], None, map[]);
    turn := if cause.Some? then Stops(cause.value) else GoesOn;
  }

  /** After a turn: the loop goes on from the next step, or it is over. */
  predicate After(run: Run, step: nat, out: seq<Chunk>, steps: seq<StepResult>, sum: Usage, turn: Turn) {
    && steps == LoopSteps(run, |steps|)
    && match turn
       case GoesOn => |steps| == step && LoopState(run, out, steps, sum, false)
       case Stops(_) => LoopState(run, out, steps, sum, true)
       case Breaks(ending) => !ending.Completed?
  }

  lemma MovedHolds(run: Run, step: nat, sent: seq<Chunk>, before: seq<StepResult>, total: Usage,
                   out: seq<Chunk>, steps: seq<StepResult>, sum: Usage, turn: Turn)
    requires WellBehaved(run) && 1 <= step <= run.maxSteps && |before| == step - 1
    requires LoopState(run, sent, before, total, false)
    requires Moved(run, step, sent, before, total, out, steps, sum, turn)
    ensures After(run, step, out, steps, sum, turn)
  {
    StepCounts(run, |before|);
    if step > 1 && run.beforeStop(step) {
    } else if run.stream(step).Some? && !DrainedAt(run, step).failed {
      if IsEmptyStep(DrainedAt(run, step)) {
        EmptyStepDecoded(run, sent, step, before, total);
      } else {
        StepDecoded(run, sent, out, step);
        StepDone(run, out, step, sum);
        StepCounts(run, step);
      }
    }
  }

  /** And how the turn follows from the answers. */
  lemma MovedCourse(run: Run, step: nat, sent: seq<Chunk>, before: seq<StepResult>, total: Usage,
                    out: seq<Chunk>, steps: seq<StepResult>, sum: Usage, turn: Turn)
    requires 1 <= step <= run.maxSteps && |before| == step - 1 && (step > 1 ==> GoesOnAfter(run, step - 1))
    requires Moved(run, step, sent, before, total, out, steps, sum, turn)
    ensures match turn
            case GoesOn => |steps| == step && Records(run, step) && GoesOnAfter(run, step)
            case Stops(cause) => EndsHere(run, step, |steps|, Completed(cause))
            case Breaks(ending) => EndsHere(run, step, |steps|, ending)
  {
  }

  lemma EmptyStepDecoded(run: Run, sent: seq<Chunk>, step: nat, steps: seq<StepResult>, total: Usage)
    requires step >= 1 && run.stream(step).Some? && FromProvider(run.stream(step).value)
    requires !DrainedAt(run, step).failed && IsEmptyStep(DrainedAt(run, step)) && |steps| == step - 1
    requires LoopState(run, sent, steps, total, false)
    ensures LoopState(run, sent + Forwarded(run.stream(step).value), steps, total, true)
  {
    var st, cs := Consume(NEW_STREAM, sent), run.stream(step).value;
    ConsumeAppend(NEW_STREAM, sent, Forwarded(cs));
    PassedOn(st, cs);
    NothingMore(run, st, Consume(st, Forwarded(cs)), Drain(cs), Carried(cs), Shown(cs), steps, total);
  }

  lemma NothingMore(run: Run, st: Stream, r: Stream, d: Drained, carried: seq<Source>, shown: string,
                    steps: seq<StepResult>, total: Usage)
    requires Agrees(st, r, d, carried, shown) && !d.failed && d.toolCalls == []
    requires st.steps == ReaderSteps(run, |steps|) && st.usage == total && !st.failed
    ensures r.steps == ReaderSteps(run, |steps|) && r.usage == total && !r.failed
    ensures st == NEW_STREAM ==> r.text == shown && r.toolCalls == []
  {
    assert "" + shown == shown;
  }

  /** What is known of the course so far, before step `step`. */
  ghost predicate Underway(run: Run, step: nat, n: nat, turn: Turn) {
    && 1 <= step <= run.maxSteps + 1
    && (forall k | 1 <= k <= n :: Records(run, k))
    && (forall k | 1 <= k < step - (if turn.GoesOn? then 0 else 1) :: GoesOnAfter(run, k))
    && match turn
       case GoesOn => n == step - 1
       case Stops(cause) => step > 1 && EndsHere(run, step - 1, n, Completed(cause))
       case Breaks(ending) => step > 1 && EndsHere(run, step - 1, n, ending)
  }

  lemma UnderwayStep(run: Run, step: nat, sent: seq<Chunk>, before: seq<StepResult>, total: Usage,
                     out: seq<Chunk>, steps: seq<StepResult>, sum: Usage, turn: Turn)
    requires Underway(run, step, |before|, GoesOn) && step <= run.maxSteps
    requires Moved(run, step, sent, before, total, out, steps, sum, turn)
    ensures Underway(run, step + 1, |steps|, turn)
  {
    MovedCourse(run, step, sent, before, total, out, steps, sum, turn);
  }

  lemma CourseTaken(run: Run, step: nat, n: nat, turn: Turn, ending: Ending)
    requires Underway(run, step, n, turn) && (turn.GoesOn? ==> step > run.maxSteps)
    requires ending == match turn
                       case GoesOn => EndingAfter(run, n)
                       case Stops(cause) => Completed(cause)
                       case Breaks(e) => e
    ensures TakesCourse(run, n, ending)
  {
  }

  /** At the step limit the calls of the last step decide what is said of the end. */
  lemma ExhaustedEnding(run: Run, step: nat, steps: seq<StepResult>)
    requires Underway(run, step, |steps|, GoesOn) && step > run.maxSteps && steps == LoopSteps(run, |steps|)
    ensures EndingAfter(run, |steps|)
            == Completed(if steps != [] && steps[|steps| - 1].toolCalls != [] then MaxSteps else Natural)
  {
    if steps != [] {
      var n := |steps|;
      assert GoesOnAfter(run, n);
      StepCounts(run, n - 1);
      assert steps[n - 1] == LoopStep(run, n);
    }
  }

  /** What the loop keeps: its course so far, and what a reader has decoded so far. */
  ghost predicate Holds(run: Run, step: nat, out: seq<Chunk>, steps: seq<StepResult>, total: Usage,
                        last: StepEnd, turn: Turn)
  {
    && Underway(run, step, |steps|, turn) && steps == LoopSteps(run, |steps|)
    && (if turn.Breaks? then !turn.ending.Completed? else LoopState(run, out, steps, total, turn.Stops?))
    && (steps == [] ==> last.finishReason == "")
  }

  lemma HoldsAtStart(run: Run, last: StepEnd)
    requires last.finishReason == "" && run.maxSteps >= 1
    ensures Holds(run, 1, [], [], NO_USAGE, last, GoesOn)
  {
  }

  lemma TurnHolds(run: Run, step: nat, sent: seq<Chunk>, before: seq<StepResult>, total: Usage, last0: StepEnd,
                  out: seq<Chunk>, steps: seq<StepResult>, sum: Usage, last: StepEnd, turn: Turn)
    requires WellBehaved(run) && 1 <= step <= run.maxSteps && Holds(run, step, sent, before, total, last0, GoesOn)
    requires Moved(run, step, sent, before, total, out, steps, sum, turn) && (steps == [] ==> last == last0)
    ensures Holds(run, step + 1, out, steps, sum, last, turn)
  {
    MovedHolds(run, step, sent, before, total, out, steps, sum, turn);
    UnderwayStep(run, step, sent, before, total, out, steps, sum, turn);
  }

  method RunSteps(run: Run)
    returns (out: seq<Chunk>, steps: seq<StepResult>, total: Usage, last: StepEnd, turn: Turn, ghost step: nat)
    requires WellBehaved(run) && run.maxSteps >= 1
    ensures Holds(run, step, out, steps, total, last, turn) && (turn.GoesOn? ==> step > run.maxSteps)
  {
    out, steps, total, turn := [], [], NO_USAGE, GoesOn;
    last := StepEnd(None, "", NO_USAGE, NO_RESPONSE, [], None, map[]);
    HoldsAtStart(run, last);
    var next := 1;
    while next <= run.maxSteps && turn.GoesOn?
      invariant next >= 1 && Holds(run, next, out, steps, total, last, turn)
      decreases run.maxSteps + 1 - next
    {
      ghost var sent, before, was, last0 := out, steps, total, last;
      out, steps, total, last, turn := TakeStep(run, next, out, steps, total, last);
      TurnHolds(run, next, sent, before, was, last0, out, steps, total, last, turn);
      next := next + 1;
    }
    step := next;
  }

  /** A whole streaming run: it goes as the answers say, and the reader of its chunks has
      exactly the loop's steps. */
  method StreamWithToolLoop(run: Run) returns (out: seq<Chunk>, steps: seq<StepResult>, ending: Ending)
    requires WellBehaved(run) && run.maxSteps >= 1
    ensures steps == LoopSteps(run, |steps|) && TakesCourse(run, |steps|, ending)
    ensures ending.Completed? ==> Decoded(run, out, steps)
  {
    var total, last, turn;
    ghost var step;
    out, steps, total, last, turn, step := RunSteps(run);
    if turn.Breaks? {
      CourseTaken(run, step, |steps|, turn, turn.ending);
      return out, steps, turn.ending;
    }
    ghost var sent := out;
    out := out + [ChunkFinish(last.(usage := total))];
    ending := Completed(if turn.Stops? then turn.cause
                        else if steps != [] && steps[|steps| - 1].toolCalls != [] then MaxSteps else Natural);
    if turn.GoesOn? {
      ExhaustedEnding(run, step, steps);
    }
    EndHolds(run, step, sent, steps, total, last, turn, ending);
  }

  lemma EndHolds(run: Run, step: nat, sent: seq<Chunk>, steps: seq<StepResult>, total: Usage, last: StepEnd,
                 turn: Turn, ending: Ending)
    requires Holds(run, step, sent, steps, total, last, turn) && !turn.Breaks? && run.maxSteps >= 1
    requires turn.GoesOn? ==> step > run.maxSteps
    requires ending == if turn.Stops? then Completed(turn.cause) else EndingAfter(run, |steps|)
    ensures TakesCourse(run, |steps|, ending)
    ensures Decoded(run, sent + [ChunkFinish(last.(usage := total))], steps)
  {
    CourseTaken(run, step, |steps|, turn, ending);
    ClosingDecoded(run, sent, steps, last.(usage := total), turn.Stops?);
  }

  lemma StepDecoded(run: Run, sent: seq<Chunk>, out: seq<Chunk>, step: nat)
    requires step >= 1 && run.stream(step).Some? && FromProvider(run.stream(step).value)
    requires !DrainedAt(run, step).failed
    requires ReaderAt(run, Consume(NEW_STREAM, sent), step - 1)
    requires out == sent + Forwarded(run.stream(step).value) + StepChunks(run, step)
    ensures ReaderAt(run, Consume(NEW_STREAM, out), step)
  {
    ConsumeOn(sent, Forwarded(run.stream(step).value), StepChunks(run, step), out);
    DecodeStep(run, Consume(NEW_STREAM, sent), Forwarded(run.stream(step).value) + StepChunks(run, step), step);
  }

  lemma ConsumeOn(sent: seq<Chunk>, a: seq<Chunk>, b: seq<Chunk>, out: seq<Chunk>)
    requires out == sent + a + b
    ensures Consume(NEW_STREAM, out) == Consume(Consume(NEW_STREAM, sent), a + b)
  {
    assert out == sent + (a + b);
    ConsumeAppend(NEW_STREAM, sent, a + b);
  }

  lemma StepDone(run: Run, out: seq<Chunk>, step: nat, total: Usage)
    requires step >= 1 && ReaderAt(run, Consume(NEW_STREAM, out), step)
    requires total == AddUsage(TotalUsage(LoopSteps(run, step - 1)), DrainedAt(run, step).usage)
    ensures LoopState(run, out, LoopSteps(run, step), total, false) && LoopSteps(run, step) != []
    ensures LoopSteps(run, step) == LoopSteps(run, step - 1) + [LoopStep(run, step)]
    ensures LoopState(run, out, LoopSteps(run, step), total, true)
  {
    LoopSnoc(run, step);
    StepCounts(run, step);
  }

  // -------------------------------------------------------------- the decoder

  class TextStream {
    var st: Stream
    const reasoning: R.ReasoningAccumulator

    constructor ()
      ensures Valid() && View() == NEW_STREAM && fresh(reasoning)
    {
      st := NEW_STREAM;
      reasoning := new R.ReasoningAccumulator();
    }

    ghost predicate Valid()
      reads this, reasoning
    {
      reasoning.Valid()
    }

    /** The accumulated state; the reasoning accumulator holds its own part of it. */
    function View(): Stream
      reads this, reasoning
    {
      st.(acc := reasoning.View())
    }

    /** TextStream.consume, for a caller that only wants the result. */
    method ConsumeAll(source: seq<Chunk>)
      requires Valid()
      modifies this, reasoning
      ensures Valid() && View() == Consume(old(View()), source)
    {
      for i := 0 to |source|
        invariant Valid() && View() == Consume(old(View()), source[..i])
      {
        assert source[..i + 1][..i] == source[..i];
        ConsumeNext(source[i]);
      }
      assert source[..|source|] == source;
    }

    method EndStep(e: StepEnd)
      requires Valid()
      modifies this, reasoning
      ensures Valid() && View() == StepBoundary(old(View()), e)
    {
      var parts := reasoning.FinishParts();
      var meta := if e.providerMeta.Some? then e.providerMeta.value else map[];
      st := st.(currentStep := st.currentStep + 1);
      st := st.(steps := st.steps + [StepResult(e.content, st.currentStep, st.stepText, R.TextOf(parts),
                                                st.stepToolCalls, [], e.finishReason, e.usage, st.stepSources,
                                                e.response, meta)]);
      st := st.(usage := AddUsage(st.usage, e.usage), finishReason := e.finishReason,
                response := e.response, providerMeta := meta);
      st := st.(stepText := "", stepToolCalls := [], stepSources := []);
    }

    method ConsumeNext(c: Chunk)
      requires Valid()
      modifies this, reasoning
      ensures Valid() && View() == ConsumeChunk(old(View()), c)
    {
      match c {
        case ChunkText(t, s) =>
          st := st.(text := st.text + t, stepText := st.stepText + t);
          st := st.(sources := st.sources + Optional(s), stepSources := st.stepSources + Optional(s));
        case ChunkReasoning(p, s) =>
          st := st.(text := st.text + p.text);
          reasoning.AddChunk(p);
          st := st.(sources := st.sources + Optional(s), stepSources := st.stepSources + Optional(s));
        case ChunkToolCall(tc) =>
          st := st.(toolCalls := st.toolCalls + [tc], stepToolCalls := st.stepToolCalls + [tc]);
        case ChunkToolProgress =>
        case ChunkStepFinish(source, e, results) =>
          if source == GOAI_TOOL_RESULTS {
            if st.steps != [] {
              var last := st.steps[|st.steps| - 1];
              st := st.(steps := st.steps[|st.steps| - 1 := last.(toolResults := results)]);
            }
          } else if source == GOAI {
            EndStep(e);
          } else {
            reasoning.FlushCurrent();
            st := ProviderBoundary(st, e);
          }
        case ChunkFinish(e) =>
          st := FinalChunk(st, e);
        case ChunkError =>
          st := st.(failed := true);
      }
    }
  }

  /** The loop's chunks, read back: the reader ends with the loop's own steps, the finish
      reason normalized and the sources of ChunkFinish missing, and with their total
      usage. The number of steps in its result is the loop's too, unless the first answer
      is empty but for reasoning. */
  method StreamAndCollect(run: Run)
    returns (steps: seq<StepResult>, read: seq<StepResult>, usage: Usage, resultSteps: nat, completed: bool)
    requires WellBehaved(run) && run.maxSteps >= 1
    ensures steps == LoopSteps(run, |steps|)
    ensures completed ==> read == ReaderSteps(run, |steps|) && usage == TotalUsage(steps)
    ensures completed ==>
              (resultSteps == |steps| <==> !ShowsOnlyReasoning(run))
    ensures exists ending :: TakesCourse(run, |steps|, ending) && completed == ending.Completed?
  {
    var out, ending;
    out, steps, ending := StreamWithToolLoop(run);
    var stream := new TextStream();
    stream.ConsumeAll(out);
    StepCounts(run, |steps|);
    var st := stream.View();
    if ending.Completed? {
      NoStepIsEmpty(run, |steps|, ending);
    }
    read, usage, resultSteps, completed := st.steps, st.usage, ResultStepCount(st), ending.Completed?;
  }

  /** Field by field: what the reader's record of a step shares with the loop's. */
  lemma ReaderStepIsLoopStep(run: Run, k: nat)
    requires run.stream(k).Some?
    ensures var loop, read := LoopStep(run, k), ReaderStep(run, k);
            && read == loop.(finishReason := read.finishReason, sources := read.sources)
            && read.finishReason == (if loop.toolCalls != [] then FINISH_TOOL_CALLS else loop.finishReason)
            && (read.sources == loop.sources <==> Unseen(run.stream(k).value) == [])
  {
    SourcesRebuilt(run.stream(k).value);
  }
}
