/**
 provider/anthropic/anthropic.go: the two readers of a message's ordered content,
 parseSSE with orderedContent on the event stream, and parseResponse on the document that
 accumulateStreamedMessage rebuilds from the same stream.
 */
module AnthropicTransports {
  import opened Wrappers
  import opened Provider
  import opened A = AnthropicAssembly

  const RESULT_TYPES: set<string> :=
    {"web_search_tool_result", "web_fetch_tool_result", "code_execution_tool_result",
     "bash_code_execution_tool_result", "text_editor_code_execution_tool_result",
     "mcp_tool_result", "tool_search_tool_result"}

  datatype Shape = TextShape | ThinkingShape | RedactedShape | ToolShape | ServerShape | ResultShape | OtherShape

  /** The block types the two readers know. */
  function ShapeOf(b: Meta): Shape {
    var t := StrField(b, "type");
    if t == "text" then TextShape
    else if t == "thinking" then ThinkingShape
    else if t == "redacted_thinking" then RedactedShape
    else if t == "tool_use" then ToolShape
    else if t == "server_tool_use" then ServerShape
    else if t in RESULT_TYPES then ResultShape
    else OtherShape
  }

  function ThinkingOptions(signature: string): Meta {
    if signature == "" then map[] else map["signature" := Str(signature)]
  }

  // -------------------------------------------- parseResponse's content loop

  datatype Doc = Doc(parts: seq<Part>, servers: map<string, nat>)

  const NO_DOC: Doc := Doc([], map[])

  type Render = Json -> string

  function InputText(render: Render, b: Meta): string {
    if "input" in b then render(b["input"]) else ""
  }

  function DocStep(render: Render, d: Doc, b: Meta): Doc {
    match ShapeOf(b)
    case TextShape =>
      if StrField(b, "text") == "" then d else d.(parts := d.parts + [TextPart(StrField(b, "text"))])
    case ThinkingShape =>
      d.(parts := d.parts + [ReasoningPart(StrField(b, "thinking"), ThinkingOptions(StrField(b, "signature")))])
    case RedactedShape =>
      d.(parts := d.parts + [ReasoningPart("", map["redactedData" := Str(StrField(b, "data"))])])
    case ToolShape =>
      d.(parts := d.parts + [ToolCallPart(StrField(b, "id"), StrField(b, "name"), InputText(render, b), map[])])
    case ServerShape =>
      var id := StrField(b, "id");
      Doc(d.parts + [ToolCallPart(id, StrField(b, "name"), InputText(render, b), map[])],
          if id == "" then d.servers else d.servers[id := |d.parts|])
    case ResultShape =>
      var id := StrField(b, "tool_use_id");
      if id in d.servers && d.servers[id] < |d.parts| then
        var n := d.servers[id];
        Doc(d.parts[n := d.parts[n].(options := d.parts[n].options["resultBlock" := Obj(b)])], d.servers - {id})
      else d
    case OtherShape => d
  }

  function DocParts(render: Render, content: seq<Meta>): Doc {
    if content == [] then NO_DOC
    else DocStep(render, DocParts(render, content[..|content| - 1]), content[|content| - 1])
  }

  // -------------------------------------------------- parseSSE's ordered content

  datatype Ordered = Ordered(parts: seq<Part>, texts: seq<string>, pos: map<nat, nat>, tools: map<string, nat>)

  const NOTHING_ORDERED: Ordered := Ordered([], [], map[], map[])

  /** orderedContent.start: a block with a malformed index is not tracked. */
  function Track(c: Ordered, ix: Index, p: Part): Ordered {
    match BlockIndex(ix)
    case None => c
    case Some(i) =>
      Ordered(c.parts + [p], c.texts + [p.text], c.pos[i := |c.parts|],
              if p.typ == PartToolCall then c.tools[p.toolCallId := |c.parts|] else c.tools)
  }

  /** The part of the block that last used this index. */
  function Place(c: Ordered, ix: Index): Option<nat> {
    match BlockIndex(ix)
    case Some(i) => if i in c.pos && c.pos[i] < |c.parts| == |c.texts| then Some(c.pos[i]) else None
    case None => None
  }

  function ToolPlace(c: Ordered, id: string): Option<nat> {
    if id in c.tools && c.tools[id] < |c.parts| then Some(c.tools[id]) else None
  }

  function AppendText(c: Ordered, ix: Index, s: string): Ordered {
    match Place(c, ix)
    case Some(n) => c.(texts := c.texts[n := c.texts[n] + s])
    case None => c
  }

  function SetSignature(c: Ordered, ix: Index, s: string): Ordered {
    match Place(c, ix)
    case Some(n) =>
      if c.parts[n].typ == PartReasoning
      then c.(parts := c.parts[n := c.parts[n].(options := c.parts[n].options["signature" := Str(s)])]) else c
    case None => c
  }

  function SetToolInput(c: Ordered, id: string, input: string): Ordered {
    match ToolPlace(c, id)
    case Some(n) => c.(parts := c.parts[n := c.parts[n].(toolInput := input)])
    case None => c
  }

  function SetResultBlock(c: Ordered, id: string, b: Meta): Ordered {
    match ToolPlace(c, id)
    case Some(n) => c.(parts := c.parts[n := c.parts[n].(options := map["resultBlock" := Obj(b)])])
    case None => c
  }

  datatype Live = Live(c: Ordered, pending: set<string>, toolId: string, toolName: string, args: string,
                       firstDelta: bool, serverTool: bool, resultBlock: bool, resultUseId: string)

  const NO_LIVE: Live := Live(NOTHING_ORDERED, {}, "", "", "", false, false, false, "")

  predicate HasText(p: Part) {
    p.typ == PartText || p.typ == PartReasoning
  }

  function Shown(c: Ordered, n: nat): Part
    requires n < |c.parts| == |c.texts|
  {
    if HasText(c.parts[n]) then c.parts[n].(text := c.texts[n]) else c.parts[n]
  }

  /** orderedContent.finish. */
  function Finished(c: Ordered): (r: seq<Part>)
    requires |c.texts| == |c.parts|
    ensures |r| == |c.parts| && forall n | 0 <= n < |r| :: r[n] == Shown(c, n)
  {
    seq(|c.parts|, n requires 0 <= n < |c.parts| => Shown(c, n))
  }

  /** The two code-execution tools get their type put back into the first fragment. */
  function Wrapped(l: Live, s: string): string
    requires s != ""
  {
    if l.firstDelta && l.serverTool
       && (l.toolName == "bash_code_execution" || l.toolName == "text_editor_code_execution")
    then "{\"type\": \"" + l.toolName + "\"," + s[1..] else s
  }

  function BeginTool(l: Live, ix: Index, b: Meta, server: bool): Live {
    var id, name := StrField(b, "id"), StrField(b, "name");
    l.(toolId := id, toolName := name, firstDelta := true, serverTool := server,
       c := Track(l.c, ix, ToolCallPart(id, name, "", map[])))
  }

  /** content_block_start. Anything but a server call or a result gives up the results awaited. */
  function SseStart(l0: Live, ix: Index, b: Meta): Live {
    var shape := ShapeOf(b);
    var l := l0.(resultBlock := false, pending := if shape.ResultShape? || shape.ServerShape? then l0.pending else {});
    match shape
    case TextShape => l.(c := Track(l.c, ix, TextPart(StrField(b, "text"))))
    case ThinkingShape =>
      l.(c := Track(l.c, ix, ReasoningPart(StrField(b, "thinking"), ThinkingOptions(StrField(b, "signature")))))
    case RedactedShape =>
      if StrField(b, "data") == "" then l
      else l.(c := Track(l.c, ix, ReasoningPart("", map["redactedData" := Str(StrField(b, "data"))])))
    case ToolShape => BeginTool(l, ix, b, false)
    case ServerShape => BeginTool(l, ix, b, true)
    case ResultShape =>
      var id := StrField(b, "tool_use_id");
      l.(resultBlock := true, resultUseId := id, c := if id in l.pending then SetResultBlock(l.c, id, b) else l.c)
    case OtherShape => l
  }

  function SseDelta(l: Live, ix: Index, f: Frag): Live {
    match f
    case TextFrag(s) => if s == "" then l else l.(c := AppendText(l.c, ix, s))
    case ThinkingFrag(s) => if s == "" then l else l.(c := AppendText(l.c, ix, s))
    case SignatureFrag(s) => if s == "" then l else l.(c := SetSignature(l.c, ix, s))
    case InputFrag(s) => if s == "" then l else l.(args := l.args + Wrapped(l, s), firstDelta := false)
    case _ => l
  }

  function SseStop(l: Live): Live {
    var m :=
      if l.resultBlock then l.(pending := l.pending - {l.resultUseId}, resultBlock := false, resultUseId := "")
      else if l.toolId != "" then
        l.(c := SetToolInput(l.c, l.toolId, OrEmptyObject(l.args)), args := "",
           pending := if l.serverTool then l.pending + {l.toolId} else l.pending)
      else l;
    if m.toolId != "" then m.(toolId := "", toolName := "", serverTool := false) else m
  }

  function SseStep(l: Live, e: Event): Live {
    match e
    case BlockStart(ix, Some(b)) => SseStart(l, ix, b)
    case BlockDelta(ix, Some(f)) => SseDelta(l, ix, f)
    case BlockStop(_) => SseStop(l)
    case MessageDelta(delta, _, _, _) => if Lookup(delta, "stop_reason").Str? then l.(pending := {}) else l
    case _ => l
  }

  predicate Ends(e: Event) {
    e.MessageStop? || e.ErrorEvent?
  }

  /** The events parseSSE reads: message_stop and error end it. */
  function SseRead(l: Live, events: seq<Event>): Live
    decreases |events|
  {
    if events == [] || Ends(events[0]) then l else SseRead(SseStep(l, events[0]), events[1..])
  }

  /** No error event ends it. */
  predicate EndsWell(events: seq<Event>) {
    events != [] ==> !events[0].ErrorEvent? && (events[0].MessageStop? || EndsWell(events[1..]))
  }

  lemma {:induction false} SseReadAppend(l: Live, a: seq<Event>, b: seq<Event>)
    requires forall e | e in a :: !Ends(e)
    ensures SseRead(l, a + b) == SseRead(SseRead(l, a), b)
    decreases |a|
  {
    if a == [] {
      assert a + b == b;
    } else {
      assert (a + b)[1..] == a[1..] + b && (a + b)[0] == a[0] && a[0] in a;
      assert forall e | e in a[1..] :: e in a;
      SseReadAppend(SseStep(l, a[0]), a[1..], b);
    }
  }

  lemma SseReadOne(l: Live, e: Event)
    requires !Ends(e)
    ensures SseRead(l, [e]) == SseStep(l, e)
  {
    assert [e][1..] == [];
    assert SseRead(SseStep(l, e), []) == SseStep(l, e);
  }

  // --------------------------------------------- sequential, well-formed streams

  datatype Script = Script(index: nat, base: Meta, frags: seq<Frag>)

  function IndexOf(s: Script): Index {
    Number(s.index as real)
  }

  function EventsOf(s: Script): seq<Event> {
    Sent(IndexOf(s), s.base, s.frags)
  }

  /** The block the script sends. */
  function BlockOf(parse: Parse, s: Script): Meta {
    var grown := AddFrags(s.base, s.frags);
    match Joined(s.frags, InputKind)
    case None => grown
    case Some(t) => (match parse(OrEmptyObject(t)) case Some(v) => grown["input" := v] case None => grown)
  }

  predicate Allowed(b: Meta, f: Frag) {
    match ShapeOf(b)
    case TextShape => f.TextFrag? || f.CitationFrag? || f.OtherFrag?
    case ThinkingShape => f.ThinkingFrag? || f.SignatureFrag? || f.OtherFrag?
    case ToolShape => f.InputFrag? || f.OtherFrag?
    case ServerShape => f.InputFrag? || f.OtherFrag?
    case _ => f.OtherFrag?
  }

  function JoinedOr(frags: seq<Frag>, k: Kind): string {
    match Joined(frags, k) case Some(s) => s case None => ""
  }

  predicate CodeExecution(b: Meta) {
    StrField(b, "name") == "bash_code_execution" || StrField(b, "name") == "text_editor_code_execution"
  }

  /** What a provider may send as one block: fragments of its own type, tool calls with an id,
      tool input that is JSON, and no input for the two tools whose input is rewritten. */
  predicate Sends(parse: Parse, s: Script) {
    && s.index <= MAX_BLOCKS
    && (forall f | f in s.frags :: Allowed(s.base, f))
    && (IsToolShape(s.base) ==>
          && StrField(s.base, "id") != "" && ValidInput(parse, s)
          && (ShapeOf(s.base).ServerShape? && CodeExecution(s.base) ==> JoinedOr(s.frags, InputKind) == ""))
  }

  /** The fields that the document's decoding takes for strings. */
  const STRINGS: set<string> := {"type", "text", "id", "name", "thinking", "signature", "data", "tool_use_id"}

  /** A document with this block is decoded and not refused. */
  predicate Readable(b: Meta) {
    forall key | key in STRINGS && key in b :: b[key].Str? || b[key].Null?
  }

  predicate Sendable(parse: Parse, s: Script) {
    Sends(parse, s) && Readable(BlockOf(parse, s))
  }

  predicate ValidInput(parse: Parse, s: Script) {
    Joined(s.frags, InputKind).Some? ==> parse(OrEmptyObject(Joined(s.frags, InputKind).value)).Some?
  }

  /** Signatures that are not empty, the one of the start event included. */
  function Signatures(signature: string, frags: seq<Frag>): nat {
    if frags == [] then (if signature != "" then 1 else 0)
    else
      var f := frags[|frags| - 1];
      Signatures(signature, frags[..|frags| - 1]) + (if f.SignatureFrag? && f.s != "" then 1 else 0)
  }

  /** What makes the two readers agree on a block: a text or redacted payload that is not
      empty, one signature at most, and tool input that comes in fragments, unless the start
      event carries an empty object. */
  predicate BlockAgrees(s: Script) {
    match ShapeOf(s.base)
    case TextShape => StrField(s.base, "text") + JoinedOr(s.frags, TextKind) != ""
    case ThinkingShape => Signatures(StrField(s.base, "signature"), s.frags) <= 1
    case RedactedShape => StrField(s.base, "data") != ""
    case ToolShape => InputAgrees(s)
    case ServerShape => InputAgrees(s)
    case _ => true
  }

  predicate InputAgrees(s: Script) {
    Joined(s.frags, InputKind).Some? || ("input" in s.base && s.base["input"] == Obj(map[]))
  }

  predicate GoodScript(parse: Parse, s: Script) {
    Sendable(parse, s) && BlockAgrees(s)
  }

  predicate IsToolShape(b: Meta) {
    ShapeOf(b).ToolShape? || ShapeOf(b).ServerShape?
  }

  function ToolIds(ss: seq<Script>): set<string> {
    if ss == [] then {}
    else ToolIds(ss[..|ss| - 1])
         + (if IsToolShape(ss[|ss| - 1].base) then {StrField(ss[|ss| - 1].base, "id")} else {})
  }

  /** Server calls whose result has not come yet. */
  function Unanswered(ss: seq<Script>): set<string> {
    if ss == [] then {}
    else
      var u, b := Unanswered(ss[..|ss| - 1]), ss[|ss| - 1].base;
      match ShapeOf(b)
      case ServerShape => u + {StrField(b, "id")}
      case ResultShape => u - {StrField(b, "tool_use_id")}
      case _ => u
  }

  /** Those of them with nothing but server calls and results since. */
  function InRun(ss: seq<Script>): set<string> {
    if ss == [] then {}
    else
      var u, b := InRun(ss[..|ss| - 1]), ss[|ss| - 1].base;
      match ShapeOf(b)
      case ServerShape => u + {StrField(b, "id")}
      case ResultShape => u - {StrField(b, "tool_use_id")}
      case _ => {}
  }

  /** Distinct tool ids, and server results directly after the run of server calls they
      belong to. */
  predicate FollowsWell(front: seq<Script>, s: Script) {
    && (IsToolShape(s.base) ==> StrField(s.base, "id") !in ToolIds(front))
    && (ShapeOf(s.base).ResultShape? && StrField(s.base, "tool_use_id") in Unanswered(front) ==>
          StrField(s.base, "tool_use_id") in InRun(front))
  }

  /** A sequential stream of blocks on which both readers agree. */
  predicate GoodStream(parse: Parse, ss: seq<Script>) {
    ss != [] ==>
      && GoodStream(parse, ss[..|ss| - 1])
      && GoodScript(parse, ss[|ss| - 1]) && FollowsWell(ss[..|ss| - 1], ss[|ss| - 1])
  }

  predicate Ascending(ss: seq<Script>) {
    forall j, k | 0 <= j < k < |ss| :: ss[j].index < ss[k].index
  }

  function Body(ss: seq<Script>): seq<Event> {
    if ss == [] then [] else Body(ss[..|ss| - 1]) + EventsOf(ss[|ss| - 1])
  }

  /** A whole stream. */
  function StreamOf(m: Meta, ss: seq<Script>, delta: Event): seq<Event> {
    [MessageStart(Some(m))] + Body(ss) + [delta, MessageStop]
  }

  // --------------------------------------------------- the effect of one block

  predicate Idle(l: Live) {
    l.toolId == "" && !l.serverTool && !l.resultBlock && l.args == "" && |l.c.parts| == |l.c.texts|
  }

  /** Tracker c with a new block at index i, whose part and text are now p and t. */
  function Placed(c: Ordered, i: nat, p: Part, t: string): Ordered {
    Ordered(c.parts + [p], c.texts + [t], c.pos[i := |c.parts|],
            if p.typ == PartToolCall then c.tools[p.toolCallId := |c.parts|] else c.tools)
  }

  lemma DeltasDoNotEnd(ix: Index, frags: seq<Frag>)
    ensures forall e | e in Deltas(ix, frags) :: !Ends(e)
  {
  }

  lemma DeltasStep(l: Live, ix: Index, frags: seq<Frag>)
    requires frags != []
    ensures var n := |frags| - 1;
            SseRead(l, Deltas(ix, frags)) == SseDelta(SseRead(l, Deltas(ix, frags[..n])), ix, frags[n])
  {
    var n := |frags| - 1;
    DeltasDoNotEnd(ix, frags[..n]);
    var d := BlockDelta(ix, Some(frags[n]));
    SseReadAppend(l, Deltas(ix, frags[..n]), [d]);
    SseReadOne(SseRead(l, Deltas(ix, frags[..n])), d);
  }

  lemma {:induction false} TextDeltas(l: Live, c: Ordered, s: Script, p: Part, frags: seq<Frag>)
    requires s.index <= MAX_BLOCKS && |c.parts| == |c.texts|
    requires forall f | f in frags :: f.TextFrag? || f.CitationFrag? || f.OtherFrag?
    requires l.c == Placed(c, s.index, p, p.text)
    ensures SseRead(l, Deltas(IndexOf(s), frags))
            == l.(c := Placed(c, s.index, p, p.text + JoinedOr(frags, TextKind)))
  {
    if frags == [] {
      assert p.text + "" == p.text;
    } else {
      var front, f := frags[..|frags| - 1], frags[|frags| - 1];
      assert f in frags && forall g | g in front :: g in frags;
      TextDeltas(l, c, s, p, front);
      DeltasStep(l, IndexOf(s), frags);
      AppendsText(c, s, p, p.text, JoinedOr(front, TextKind), if f.TextFrag? then f.s else "");
    }
  }

  lemma AppendsText(c: Ordered, s: Script, p: Part, t: string, u: string, v: string)
    requires s.index <= MAX_BLOCKS && |c.parts| == |c.texts|
    ensures AppendText(Placed(c, s.index, p, t + u), IndexOf(s), v) == Placed(c, s.index, p, t + (u + v))
    ensures v == "" ==> Placed(c, s.index, p, t + u) == Placed(c, s.index, p, t + (u + v))
  {
    assert BlockIndex(IndexOf(s)) == Some(s.index);
    assert (t + u) + v == t + (u + v) && u + "" == u;
    var q := Placed(c, s.index, p, t + u);
    assert q.texts[|c.texts| := t + (u + v)] == c.texts + [t + (u + v)];
  }

  lemma SetsSignature(c: Ordered, s: Script, t: string, sig: string, u: string, v: string)
    requires s.index <= MAX_BLOCKS && |c.parts| == |c.texts| && v != ""
    ensures SetSignature(Placed(c, s.index, ReasoningPart(t, ThinkingOptions(sig)), u), IndexOf(s), v)
            == Placed(c, s.index, ReasoningPart(t, ThinkingOptions(v)), u)
  {
    assert BlockIndex(IndexOf(s)) == Some(s.index);
    var q := Placed(c, s.index, ReasoningPart(t, ThinkingOptions(sig)), u);
    var n := |c.parts|;
    assert q.parts[n] == ReasoningPart(t, ThinkingOptions(sig));
    assert ThinkingOptions(sig)["signature" := Str(v)] == ThinkingOptions(v);
    assert q.parts[n := ReasoningPart(t, ThinkingOptions(v))] == c.parts + [ReasoningPart(t, ThinkingOptions(v))];
  }

  /** parseSSE replaces the signature, by the last one that is not empty. */
  function LastSignature(signature: string, frags: seq<Frag>): string {
    if frags == [] then signature
    else
      var f := frags[|frags| - 1];
      if f.SignatureFrag? && f.s != "" then f.s else LastSignature(signature, frags[..|frags| - 1])
  }

  /** The document appends them, which is the same for one signature at most. */
  lemma {:induction false} OneSignature(signature: string, frags: seq<Frag>)
    ensures LastSignature(signature, frags) == signature + JoinedOr(frags, SignatureKind)
            <==> Signatures(signature, frags) <= 1
    ensures Signatures(signature, frags) == 0 <==> signature + JoinedOr(frags, SignatureKind) == ""
  {
    if frags == [] {
      assert signature + "" == signature;
    } else {
      var front, f := frags[..|frags| - 1], frags[|frags| - 1];
      OneSignature(signature, front);
      var before := JoinedOr(front, SignatureKind);
      if f.SignatureFrag? {
        assert signature + (before + f.s) == signature + before + f.s;
        assert |signature + before + f.s| == |signature + before| + |f.s|;
        assert f.s == "" ==> signature + before + f.s == signature + before;
        assert signature + before == "" ==> signature + before + f.s == f.s;
      }
    }
  }

  lemma {:induction false} ThinkingDeltas(l: Live, c: Ordered, s: Script, t: string, sig: string, frags: seq<Frag>)
    requires s.index <= MAX_BLOCKS && |c.parts| == |c.texts|
    requires forall f | f in frags :: f.ThinkingFrag? || f.SignatureFrag? || f.OtherFrag?
    requires l.c == Placed(c, s.index, ReasoningPart(t, ThinkingOptions(sig)), t)
    ensures SseRead(l, Deltas(IndexOf(s), frags))
            == l.(c := Placed(c, s.index, ReasoningPart(t, ThinkingOptions(LastSignature(sig, frags))),
                              t + JoinedOr(frags, ThinkingKind)))
  {
    if frags == [] {
      assert t + "" == t;
    } else {
      var front, f := frags[..|frags| - 1], frags[|frags| - 1];
      assert f in frags && forall g | g in front :: g in frags;
      ThinkingDeltas(l, c, s, t, sig, front);
      DeltasStep(l, IndexOf(s), frags);
      var last, text := LastSignature(sig, front), JoinedOr(front, ThinkingKind);
      if f.SignatureFrag? && f.s != "" {
        SetsSignature(c, s, t, last, t + text, f.s);
      } else {
        AppendsText(c, s, ReasoningPart(t, ThinkingOptions(last)), t, text, if f.ThinkingFrag? then f.s else "");
      }
    }
  }

  lemma {:induction false} InputDeltas(l: Live, ix: Index, frags: seq<Frag>)
    requires forall f | f in frags :: f.InputFrag? || f.OtherFrag?
    requires JoinedOr(frags, InputKind) == ""
             || !(l.serverTool && (l.toolName == "bash_code_execution" || l.toolName == "text_editor_code_execution"))
    ensures var r := SseRead(l, Deltas(ix, frags));
            r == l.(args := l.args + JoinedOr(frags, InputKind), firstDelta := r.firstDelta)
  {
    if frags == [] {
      assert l.args + "" == l.args;
    } else {
      var front, f := frags[..|frags| - 1], frags[|frags| - 1];
      assert f in frags && forall g | g in front :: g in frags;
      InputDeltas(l, ix, front);
      DeltasStep(l, ix, frags);
      if f.InputFrag? {
        assert l.args + JoinedOr(front, InputKind) + f.s == l.args + (JoinedOr(front, InputKind) + f.s);
      }
    }
  }

  lemma {:induction false} NoDeltas(l: Live, ix: Index, frags: seq<Frag>)
    requires forall f | f in frags :: f.OtherFrag?
    ensures SseRead(l, Deltas(ix, frags)) == l
  {
    if frags != [] {
      var front, f := frags[..|frags| - 1], frags[|frags| - 1];
      assert f in frags && forall g | g in front :: g in frags;
      NoDeltas(l, ix, front);
      DeltasStep(l, ix, frags);
    }
  }

  lemma BlockInThree(l: Live, s: Script)
    ensures SseRead(l, EventsOf(s))
            == SseStop(SseRead(SseStart(l, IndexOf(s), s.base), Deltas(IndexOf(s), s.frags)))
    ensures forall e | e in EventsOf(s) :: !Ends(e)
  {
    var ix := IndexOf(s);
    var start, stop := BlockStart(ix, Some(s.base)), BlockStop(ix);
    DeltasDoNotEnd(ix, s.frags);
    SseReadAppend(l, [start] + Deltas(ix, s.frags), [stop]);
    SseReadAppend(l, [start], Deltas(ix, s.frags));
    SseReadOne(l, start);
    SseReadOne(SseRead(SseStep(l, start), Deltas(ix, s.frags)), stop);
  }

  /** What parseSSE's state is after a whole block. */
  function AfterBlock(l: Live, s: Script): Live {
    var b, fs := s.base, s.frags;
    var id, name := StrField(b, "id"), StrField(b, "name");
    var input := OrEmptyObject(JoinedOr(fs, InputKind));
    match ShapeOf(b)
    case TextShape =>
      var t := StrField(b, "text");
      l.(pending := {}, c := Placed(l.c, s.index, TextPart(t), t + JoinedOr(fs, TextKind)))
    case ThinkingShape =>
      var t := StrField(b, "thinking");
      var sig := LastSignature(StrField(b, "signature"), fs);
      l.(pending := {},
         c := Placed(l.c, s.index, ReasoningPart(t, ThinkingOptions(sig)), t + JoinedOr(fs, ThinkingKind)))
    case RedactedShape =>
      if StrField(b, "data") == "" then l.(pending := {})
      else l.(pending := {},
              c := Placed(l.c, s.index, ReasoningPart("", map["redactedData" := Str(StrField(b, "data"))]), ""))
    case ToolShape =>
      l.(pending := {}, c := Placed(l.c, s.index, ToolCallPart(id, name, input, map[]), ""))
    case ServerShape =>
      l.(pending := l.pending + {id}, c := Placed(l.c, s.index, ToolCallPart(id, name, input, map[]), ""))
    case ResultShape =>
      var use := StrField(b, "tool_use_id");
      l.(pending := l.pending - {use}, c := if use in l.pending then SetResultBlock(l.c, use, b) else l.c)
    case OtherShape => l.(pending := {})
  }

  /** Equal but for the variables that do not matter between blocks. */
  predicate SameLive(a: Live, b: Live) {
    a.c == b.c && a.pending == b.pending && Idle(a) && Idle(b)
  }

  lemma ToolStarts(l: Live, s: Script)
    requires Idle(l) && s.index <= MAX_BLOCKS && IsToolShape(s.base)
    ensures var l1 := SseStart(l, IndexOf(s), s.base);
            && l1.toolId == StrField(s.base, "id") && l1.toolName == StrField(s.base, "name") && l1.args == ""
            && l1.serverTool == ShapeOf(s.base).ServerShape? && !l1.resultBlock
            && l1.pending == (if ShapeOf(s.base).ServerShape? then l.pending else {})
            && l1.c == Placed(l.c, s.index, ToolCallPart(l1.toolId, l1.toolName, "", map[]), "")
  {
    assert BlockIndex(IndexOf(s)) == Some(s.index);
  }

  lemma ToolStops(l: Live, c: Ordered, i: nat, input: string)
    requires l.toolId != "" && !l.resultBlock && OrEmptyObject(l.args) == input && |c.parts| == |c.texts|
    requires l.c == Placed(c, i, ToolCallPart(l.toolId, l.toolName, "", map[]), "")
    ensures var r := SseStop(l);
            && Idle(r) && r.c == Placed(c, i, ToolCallPart(l.toolId, l.toolName, input, map[]), "")
            && r.pending == (if l.serverTool then l.pending + {l.toolId} else l.pending)
  {
    var n, p := |c.parts|, ToolCallPart(l.toolId, l.toolName, input, map[]);
    assert l.c.parts[n := l.c.parts[n].(toolInput := input)] == c.parts + [p];
  }

  lemma ToolBlock(parse: Parse, l: Live, s: Script)
    requires Idle(l) && Sendable(parse, s) && IsToolShape(s.base)
    ensures SameLive(SseRead(l, EventsOf(s)), AfterBlock(l, s))
  {
    var ix, b := IndexOf(s), s.base;
    BlockInThree(l, s);
    forall f | f in s.frags ensures f.InputFrag? || f.OtherFrag? { assert Allowed(b, f); }
    ToolStarts(l, s);
    InputDeltas(SseStart(l, ix, b), ix, s.frags);
    var l2 := SseRead(SseStart(l, ix, b), Deltas(ix, s.frags));
    assert "" + JoinedOr(s.frags, InputKind) == JoinedOr(s.frags, InputKind);
    ToolStops(l2, l.c, s.index, OrEmptyObject(JoinedOr(s.frags, InputKind)));
  }

  lemma ThinkingBlock(parse: Parse, l: Live, s: Script)
    requires Idle(l) && Sendable(parse, s) && ShapeOf(s.base).ThinkingShape?
    ensures SameLive(SseRead(l, EventsOf(s)), AfterBlock(l, s))
  {
    var ix, b := IndexOf(s), s.base;
    assert BlockIndex(ix) == Some(s.index);
    BlockInThree(l, s);
    forall f | f in s.frags ensures f.ThinkingFrag? || f.SignatureFrag? || f.OtherFrag? { assert Allowed(b, f); }
    ThinkingDeltas(SseStart(l, ix, b), l.c, s, StrField(b, "thinking"), StrField(b, "signature"), s.frags);
  }

  lemma TextBlock(parse: Parse, l: Live, s: Script)
    requires Idle(l) && Sendable(parse, s) && ShapeOf(s.base).TextShape?
    ensures SameLive(SseRead(l, EventsOf(s)), AfterBlock(l, s))
  {
    var ix, b := IndexOf(s), s.base;
    assert BlockIndex(ix) == Some(s.index);
    BlockInThree(l, s);
    forall f | f in s.frags ensures f.TextFrag? || f.CitationFrag? || f.OtherFrag? { assert Allowed(b, f); }
    TextDeltas(SseStart(l, ix, b), l.c, s, TextPart(StrField(b, "text")), s.frags);
  }

  lemma OtherBlock(parse: Parse, l: Live, s: Script)
    requires Idle(l) && Sendable(parse, s)
    requires ShapeOf(s.base).RedactedShape? || ShapeOf(s.base).ResultShape? || ShapeOf(s.base).OtherShape?
    ensures SameLive(SseRead(l, EventsOf(s)), AfterBlock(l, s))
  {
    var ix, b := IndexOf(s), s.base;
    assert BlockIndex(ix) == Some(s.index);
    BlockInThree(l, s);
    forall f | f in s.frags ensures f.OtherFrag? { assert Allowed(b, f); }
    NoDeltas(SseStart(l, ix, b), ix, s.frags);
  }

  lemma BlockEffect(parse: Parse, l: Live, s: Script)
    requires Idle(l) && Sendable(parse, s)
    ensures SameLive(SseRead(l, EventsOf(s)), AfterBlock(l, s))
  {
    match ShapeOf(s.base)
    case TextShape => TextBlock(parse, l, s);
    case ThinkingShape => ThinkingBlock(parse, l, s);
    case ToolShape => ToolBlock(parse, l, s);
    case ServerShape => ToolBlock(parse, l, s);
    case _ => OtherBlock(parse, l, s);
  }

  // ------------------------------------------------- the block in the document

  lemma GrownTo(b: Meta, base: Meta, frags: seq<Frag>, k: Kind)
    requires SplitsField(b, base, frags, k)
    ensures StrField(b, FieldOf(k)) == StrField(base, FieldOf(k)) + JoinedOr(frags, k)
  {
    assert StrField(base, FieldOf(k)) + "" == StrField(base, FieldOf(k));
  }

  lemma KeptField(parse: Parse, s: Script, key: string)
    requires key !in {"text", "thinking", "signature", "input", "citations"}
    ensures StrField(BlockOf(parse, s), key) == StrField(s.base, key)
  {
    AddFragsGrows(s.base, s.frags);
    assert SameField(AddFrags(s.base, s.frags), s.base, key);
  }

  lemma GrownInBlock(parse: Parse, s: Script, k: Kind)
    requires k != InputKind
    ensures StrField(BlockOf(parse, s), FieldOf(k)) == StrField(s.base, FieldOf(k)) + JoinedOr(s.frags, k)
  {
    AddFragsGrows(s.base, s.frags);
    var grown := AddFrags(s.base, s.frags);
    assert SplitsField(grown, s.base, s.frags, k);
    GrownTo(grown, s.base, s.frags, k);
    assert FieldOf(k) != "input";
  }

  lemma ShapeKept(parse: Parse, s: Script)
    ensures ShapeOf(BlockOf(parse, s)) == ShapeOf(s.base)
  {
    KeptField(parse, s, "type");
  }

  /** The tool input of the document and the one parseSSE puts together are the same value. */
  lemma InputOfBlock(parse: Parse, s: Script)
    requires IsToolShape(s.base) && Sendable(parse, s) && InputAgrees(s) && parse("{}") == Some(Obj(map[]))
    ensures var b := BlockOf(parse, s);
            "input" in b && parse(OrEmptyObject(JoinedOr(s.frags, InputKind))) == Some(b["input"])
  {
    AddFragsGrows(s.base, s.frags);
    assert SameField(AddFrags(s.base, s.frags), s.base, "input");
  }

  lemma {:induction false} SilentBlock(b: Meta, frags: seq<Frag>)
    requires forall f | f in frags :: f.OtherFrag?
    ensures AddFrags(b, frags) == b && Joined(frags, InputKind).None?
  {
    if frags != [] {
      var front, f := frags[..|frags| - 1], frags[|frags| - 1];
      assert f in frags && forall g | g in front :: g in frags;
      SilentBlock(b, front);
    }
  }

  // ----------------------------------------------------------- the two agree

  /** Equal but for the spelling of the tool input, which has the same JSON value. */
  predicate SamePart(parse: Parse, a: Part, b: Part) {
    a == b.(toolInput := a.toolInput) && parse(a.toolInput) == parse(b.toolInput)
  }

  predicate SameParts(parse: Parse, a: seq<Part>, b: seq<Part>) {
    |a| == |b| && forall n | 0 <= n < |a| :: SamePart(parse, a[n], b[n])
  }

  /** The call with this id still waits for its result, at the same place in both. */
  predicate Awaits(c: Ordered, d: Doc, id: string) {
    && id in d.servers && d.servers[id] < |d.parts| && ToolPlace(c, id) == Some(d.servers[id])
    && d.parts[d.servers[id]].typ == PartToolCall
    && d.parts[d.servers[id]].options == map[] && d.parts[d.servers[id]].toolCallId == id
  }

  ghost predicate Agree(parse: Parse, c: Ordered, d: Doc) {
    && |c.parts| == |c.texts|
    && SameParts(parse, Finished(c), d.parts)
    && forall id | id in d.servers :: Awaits(c, d, id)
  }

  ghost predicate InStep(parse: Parse, l: Live, d: Doc, ss: seq<Script>) {
    && Idle(l) && Agree(parse, l.c, d) && l.pending == InRun(ss) && d.servers.Keys == Unanswered(ss)
  }

  lemma RunIsUnanswered(parse: Parse, ss: seq<Script>)
    requires GoodStream(parse, ss)
    ensures InRun(ss) <= Unanswered(ss) <= ToolIds(ss)
  {
  }

  lemma PlacedAgree(parse: Parse, c: Ordered, i: nat, p: Part, t: string, d: Doc, q: Part)
    requires Agree(parse, c, d) && SamePart(parse, if HasText(p) then p.(text := t) else p, q)
    requires p.typ == PartToolCall ==> p.toolCallId !in d.servers
    ensures Agree(parse, Placed(c, i, p, t), d.(parts := d.parts + [q]))
  {
    var c1, d1 := Placed(c, i, p, t), d.(parts := d.parts + [q]);
    forall n | 0 <= n < |c1.parts| ensures SamePart(parse, Finished(c1)[n], d1.parts[n]) {
      if n < |c.parts| {
        assert Shown(c1, n) == Shown(c, n) == Finished(c)[n];
      }
    }
    forall id | id in d1.servers ensures Awaits(c1, d1, id) {
      assert Awaits(c, d, id);
    }
  }

  lemma ServerPlacedAgree(parse: Parse, c: Ordered, i: nat, p: Part, d: Doc, q: Part)
    requires Agree(parse, c, d) && SamePart(parse, p, q) && p.typ == PartToolCall && p.options == map[]
    requires p.toolCallId !in d.servers
    ensures Agree(parse, Placed(c, i, p, ""), Doc(d.parts + [q], d.servers[p.toolCallId := |d.parts|]))
  {
    PlacedAgree(parse, c, i, p, "", d, q);
    var c1, d1 := Placed(c, i, p, ""), d.(parts := d.parts + [q]);
    var d2 := Doc(d.parts + [q], d.servers[p.toolCallId := |d.parts|]);
    assert |d.parts| == |Finished(c)| == |c.parts|;
    forall id | id in d2.servers ensures Awaits(c1, d2, id) {
      if id != p.toolCallId {
        assert Awaits(c1, d1, id);
      }
    }
  }

  lemma AnsweredAgree(parse: Parse, c: Ordered, d: Doc, id: string, b: Meta)
    requires Agree(parse, c, d) && id in d.servers
    ensures var n := d.servers[id];
            && n < |d.parts|
            && Agree(parse, SetResultBlock(c, id, b),
                     Doc(d.parts[n := d.parts[n].(options := d.parts[n].options["resultBlock" := Obj(b)])],
                         d.servers - {id}))
  {
    var n := d.servers[id];
    assert Awaits(c, d, id);
    var c1 := SetResultBlock(c, id, b);
    var d1 := Doc(d.parts[n := d.parts[n].(options := d.parts[n].options["resultBlock" := Obj(b)])], d.servers - {id});
    assert map[]["resultBlock" := Obj(b)] == map["resultBlock" := Obj(b)];
    forall k | 0 <= k < |c1.parts| ensures SamePart(parse, Finished(c1)[k], d1.parts[k]) {
      assert SamePart(parse, Finished(c)[k], d.parts[k]) && Finished(c)[k] == Shown(c, k);
    }
    forall other | other in d1.servers ensures Awaits(c1, d1, other) {
      assert Awaits(c, d, other);
    }
  }

  /** What is asked of JSON: an empty object is one, an empty text is none, and the tool
      inputs that occur are read as they were written. */
  ghost predicate ReadsBack(parse: Parse, render: Render, s: Script) {
    && parse("{}") == Some(Obj(map[])) && parse("").None?
    && (IsToolShape(s.base) && "input" in BlockOf(parse, s) ==>
          parse(render(BlockOf(parse, s)["input"])) == Some(BlockOf(parse, s)["input"]))
  }

  ghost predicate AllReadBack(parse: Parse, render: Render, ss: seq<Script>) {
    forall s | s in ss :: ReadsBack(parse, render, s)
  }

  lemma ToolStep(parse: Parse, render: Render, l: Live, d: Doc, front: seq<Script>, s: Script)
    requires ReadsBack(parse, render, s) && Idle(l) && Agree(parse, l.c, d) && d.servers.Keys == Unanswered(front)
    requires GoodStream(parse, front) && GoodScript(parse, s) && IsToolShape(s.base)
    requires StrField(s.base, "id") !in ToolIds(front)
    ensures Agree(parse, AfterBlock(l, s).c, DocStep(render, d, BlockOf(parse, s)))
  {
    var b := BlockOf(parse, s);
    ShapeKept(parse, s);
    KeptField(parse, s, "id");
    KeptField(parse, s, "name");
    InputOfBlock(parse, s);
    RunIsUnanswered(parse, front);
    var id, name := StrField(b, "id"), StrField(b, "name");
    var p := ToolCallPart(id, name, OrEmptyObject(JoinedOr(s.frags, InputKind)), map[]);
    var q := ToolCallPart(id, name, InputText(render, b), map[]);
    assert SamePart(parse, p, q);
    if ShapeOf(b).ServerShape? {
      ServerPlacedAgree(parse, l.c, s.index, p, d, q);
    } else {
      PlacedAgree(parse, l.c, s.index, p, "", d, q);
    }
  }

  lemma TextStep(parse: Parse, render: Render, l: Live, d: Doc, s: Script)
    requires Agree(parse, l.c, d) && GoodScript(parse, s) && ShapeOf(s.base).TextShape?
    ensures Agree(parse, AfterBlock(l, s).c, DocStep(render, d, BlockOf(parse, s)))
  {
    ShapeKept(parse, s);
    GrownInBlock(parse, s, TextKind);
    var t := StrField(s.base, "text");
    var u := t + JoinedOr(s.frags, TextKind);
    PlacedAgree(parse, l.c, s.index, TextPart(t), u, d, TextPart(u));
  }

  lemma ThinkingStep(parse: Parse, render: Render, l: Live, d: Doc, s: Script)
    requires Agree(parse, l.c, d) && GoodScript(parse, s) && ShapeOf(s.base).ThinkingShape?
    ensures Agree(parse, AfterBlock(l, s).c, DocStep(render, d, BlockOf(parse, s)))
  {
    ShapeKept(parse, s);
    GrownInBlock(parse, s, ThinkingKind);
    GrownInBlock(parse, s, SignatureKind);
    OneSignature(StrField(s.base, "signature"), s.frags);
    ThinkingAgree(parse, l.c, s.index, StrField(s.base, "thinking"), JoinedOr(s.frags, ThinkingKind),
                  ThinkingOptions(StrField(s.base, "signature") + JoinedOr(s.frags, SignatureKind)), d);
  }

  lemma ThinkingAgree(parse: Parse, c: Ordered, i: nat, t: string, u: string, options: Meta, d: Doc)
    requires Agree(parse, c, d)
    ensures Agree(parse, Placed(c, i, ReasoningPart(t, options), t + u),
                  d.(parts := d.parts + [ReasoningPart(t + u, options)]))
  {
    PlacedAgree(parse, c, i, ReasoningPart(t, options), t + u, d, ReasoningPart(t + u, options));
  }

  lemma QuietStep(parse: Parse, render: Render, l: Live, d: Doc, s: Script, front: seq<Script>)
    requires Agree(parse, l.c, d) && GoodScript(parse, s)
    requires ShapeOf(s.base).RedactedShape? || ShapeOf(s.base).ResultShape? || ShapeOf(s.base).OtherShape?
    requires l.pending == InRun(front) && d.servers.Keys == Unanswered(front) && InRun(front) <= Unanswered(front)
    requires ShapeOf(s.base).ResultShape? && StrField(s.base, "tool_use_id") in Unanswered(front) ==>
               StrField(s.base, "tool_use_id") in InRun(front)
    ensures Agree(parse, AfterBlock(l, s).c, DocStep(render, d, BlockOf(parse, s)))
  {
    forall f | f in s.frags ensures f.OtherFrag? { assert Allowed(s.base, f); }
    SilentBlock(s.base, s.frags);
    match ShapeOf(s.base)
    case RedactedShape =>
      var p := ReasoningPart("", map["redactedData" := Str(StrField(s.base, "data"))]);
      PlacedAgree(parse, l.c, s.index, p, "", d, p);
    case ResultShape =>
      var id := StrField(s.base, "tool_use_id");
      if id in d.servers {
        AnsweredAgree(parse, l.c, d, id, s.base);
      }
    case OtherShape =>
  }

  lemma ServersKept(parse: Parse, render: Render, l: Live, d: Doc, front: seq<Script>, s: Script)
    requires Agree(parse, l.c, d) && GoodScript(parse, s) && d.servers.Keys == Unanswered(front)
    ensures DocStep(render, d, BlockOf(parse, s)).servers.Keys == Unanswered(front + [s])
  {
    assert (front + [s])[..|front|] == front;
    ShapeKept(parse, s);
    KeptField(parse, s, "id");
    KeptField(parse, s, "tool_use_id");
    var id := StrField(s.base, "tool_use_id");
    if ShapeOf(s.base).ResultShape? && id in d.servers {
      assert Awaits(l.c, d, id);
    }
  }

  lemma AgreeKept(parse: Parse, render: Render, l: Live, d: Doc, front: seq<Script>, s: Script)
    requires ReadsBack(parse, render, s) && GoodStream(parse, front + [s]) && InStep(parse, l, d, front)
    ensures Agree(parse, AfterBlock(l, s).c, DocStep(render, d, BlockOf(parse, s)))
  {
    assert (front + [s])[..|front|] == front;
    RunIsUnanswered(parse, front);
    match ShapeOf(s.base)
    case TextShape => TextStep(parse, render, l, d, s);
    case ThinkingShape => ThinkingStep(parse, render, l, d, s);
    case ToolShape => ToolStep(parse, render, l, d, front, s);
    case ServerShape => ToolStep(parse, render, l, d, front, s);
    case _ => QuietStep(parse, render, l, d, s, front);
  }

  lemma PendingKept(l: Live, front: seq<Script>, s: Script)
    requires l.pending == InRun(front)
    ensures AfterBlock(l, s).pending == InRun(front + [s])
  {
    assert (front + [s])[..|front|] == front;
  }

  /** One more block keeps the two readers in step. */
  lemma BlockKeepsInStep(parse: Parse, render: Render, l: Live, d: Doc, front: seq<Script>, s: Script)
    requires ReadsBack(parse, render, s) && GoodStream(parse, front + [s]) && InStep(parse, l, d, front)
    ensures InStep(parse, SseRead(l, EventsOf(s)), DocStep(render, d, BlockOf(parse, s)), front + [s])
  {
    assert (front + [s])[..|front|] == front;
    AgreeKept(parse, render, l, d, front, s);
    PendingKept(l, front, s);
    ServersKept(parse, render, l, d, front, s);
    BlockEffect(parse, l, s);
  }

  /** The parts of a document whose blocks are in this order. */
  function DocOf(parse: Parse, render: Render, ss: seq<Script>): Doc {
    if ss == [] then NO_DOC
    else DocStep(render, DocOf(parse, render, ss[..|ss| - 1]), BlockOf(parse, ss[|ss| - 1]))
  }

  /** Reading the events gives the parts of a document whose blocks are in the order sent,
      whatever their indexes are. */
  lemma {:induction false} ReadersInStep(parse: Parse, render: Render, ss: seq<Script>)
    requires GoodStream(parse, ss) && AllReadBack(parse, render, ss)
    ensures InStep(parse, SseRead(NO_LIVE, Body(ss)), DocOf(parse, render, ss), ss)
    ensures forall e | e in Body(ss) :: !Ends(e)
  {
    if ss != [] {
      var front, s := ss[..|ss| - 1], ss[|ss| - 1];
      assert ss == front + [s] && s in ss && forall x | x in front :: x in ss;
      ReadersInStep(parse, render, front);
      var l := SseRead(NO_LIVE, Body(front));
      SseReadAppend(NO_LIVE, Body(front), EventsOf(s));
      BlockInThree(l, s);
      BlockKeepsInStep(parse, render, l, DocOf(parse, render, front), front, s);
    }
  }

  // ------------------------------------------------------ the rebuilt document

  /** Block i set, gaps before it left empty. */
  function Put(content: seq<Meta>, i: nat, b: Meta): (r: seq<Meta>)
    ensures |r| == if i < |content| then |content| else i + 1
    ensures forall k | 0 <= k < |r| ::
              r[k] == if k == i then b else if k < |content| then content[k] else map[]
  {
    Padded(content, i + 1)[i := b]
  }

  /** The content accumulateStreamedMessage builds. */
  function Layout(parse: Parse, ss: seq<Script>): seq<Meta> {
    if ss == [] then []
    else Put(Layout(parse, ss[..|ss| - 1]), ss[|ss| - 1].index, BlockOf(parse, ss[|ss| - 1]))
  }

  lemma DocSnoc(render: Render, content: seq<Meta>, b: Meta)
    ensures DocParts(render, content + [b]) == DocStep(render, DocParts(render, content), b)
  {
    assert (content + [b])[..|content|] == content;
  }

  lemma GapIsIgnored(render: Render, d: Doc)
    ensures DocStep(render, d, map[]) == d
  {
    var none: Meta := map[];
    assert StrField(none, "type") == "";
  }

  /** The last script with this index. */
  function AtIndex(ss: seq<Script>, i: nat): Option<Script> {
    if ss == [] then None
    else if ss[|ss| - 1].index == i then Some(ss[|ss| - 1])
    else AtIndex(ss[..|ss| - 1], i)
  }

  /** The scripts with an index below n, by index. */
  function SortedBelow(ss: seq<Script>, n: nat): seq<Script> {
    if n == 0 then []
    else
      SortedBelow(ss, n - 1) + (match AtIndex(ss, n - 1) case Some(s) => [s] case None => [])
  }

  lemma {:induction false} LayoutAt(parse: Parse, ss: seq<Script>, i: nat)
    ensures i < |Layout(parse, ss)| ==>
              Layout(parse, ss)[i] == match AtIndex(ss, i) case Some(s) => BlockOf(parse, s) case None => map[]
    ensures AtIndex(ss, i).Some? ==> i < |Layout(parse, ss)|
  {
    if ss != [] {
      LayoutAt(parse, ss[..|ss| - 1], i);
    }
  }

  /** Any reading of a content, block by block. */
  function Fold(f: (Doc, Meta) -> Doc, content: seq<Meta>): Doc {
    if content == [] then NO_DOC else f(Fold(f, content[..|content| - 1]), content[|content| - 1])
  }

  function Blocks(parse: Parse, ss: seq<Script>): seq<Meta> {
    if ss == [] then [] else Blocks(parse, ss[..|ss| - 1]) + [BlockOf(parse, ss[|ss| - 1])]
  }

  lemma FoldSnoc(f: (Doc, Meta) -> Doc, content: seq<Meta>, b: Meta)
    ensures Fold(f, content + [b]) == f(Fold(f, content), b)
  {
    assert (content + [b])[..|content|] == content;
  }

  lemma OneMore(f: (Doc, Meta) -> Doc, content: seq<Meta>, n: nat, sofar: seq<Meta>)
    requires n < |content| && Fold(f, content[..n]) == Fold(f, sofar)
    ensures Fold(f, content[..n + 1]) == Fold(f, sofar + [content[n]]) == f(Fold(f, sofar), content[n])
  {
    assert content[..n + 1] == content[..n] + [content[n]];
    FoldSnoc(f, content[..n], content[n]);
    FoldSnoc(f, sofar, content[n]);
  }

  lemma BlocksSnoc(parse: Parse, ss: seq<Script>, s: Script)
    ensures Blocks(parse, ss + [s]) == Blocks(parse, ss) + [BlockOf(parse, s)]
  {
    assert (ss + [s])[..|ss|] == ss;
  }

  lemma SortedNext(ss: seq<Script>, n: nat)
    ensures AtIndex(ss, n).Some? ==> SortedBelow(ss, n + 1) == SortedBelow(ss, n) + [AtIndex(ss, n).value]
    ensures AtIndex(ss, n).None? ==> SortedBelow(ss, n + 1) == SortedBelow(ss, n)
  {
  }

  ghost predicate SkipsGaps(f: (Doc, Meta) -> Doc) {
    forall d :: f(d, map[]) == d
  }

  lemma NextInOrder(parse: Parse, f: (Doc, Meta) -> Doc, ss: seq<Script>, n: nat)
    requires n < |Layout(parse, ss)| && SkipsGaps(f)
    requires Fold(f, Layout(parse, ss)[..n]) == Fold(f, Blocks(parse, SortedBelow(ss, n)))
    ensures Fold(f, Layout(parse, ss)[..n + 1]) == Fold(f, Blocks(parse, SortedBelow(ss, n + 1)))
  {
    LayoutAt(parse, ss, n);
    OneMore(f, Layout(parse, ss), n, Blocks(parse, SortedBelow(ss, n)));
    SortedNext(ss, n);
    if AtIndex(ss, n).Some? {
      BlocksSnoc(parse, SortedBelow(ss, n), AtIndex(ss, n).value);
    }
  }

  /** The document and the scripts by index are read alike, by any reader that skips gaps. */
  lemma {:induction false} LayoutInOrder(parse: Parse, f: (Doc, Meta) -> Doc, ss: seq<Script>, n: nat)
    requires n <= |Layout(parse, ss)| && SkipsGaps(f)
    ensures Fold(f, Layout(parse, ss)[..n]) == Fold(f, Blocks(parse, SortedBelow(ss, n)))
  {
    if n > 0 {
      LayoutInOrder(parse, f, ss, n - 1);
      NextInOrder(parse, f, ss, n - 1);
    }
  }

  lemma {:induction false} DocPartsFold(render: Render, f: (Doc, Meta) -> Doc, content: seq<Meta>)
    requires forall d, b :: f(d, b) == DocStep(render, d, b)
    ensures DocParts(render, content) == Fold(f, content)
  {
    if content != [] {
      DocPartsFold(render, f, content[..|content| - 1]);
    }
  }

  lemma {:induction false} DocOfFold(parse: Parse, render: Render, f: (Doc, Meta) -> Doc, ss: seq<Script>)
    requires forall d, b :: f(d, b) == DocStep(render, d, b)
    ensures DocOf(parse, render, ss) == Fold(f, Blocks(parse, ss))
  {
    if ss != [] {
      DocOfFold(parse, render, f, ss[..|ss| - 1]);
      FoldSnoc(f, Blocks(parse, ss[..|ss| - 1]), BlockOf(parse, ss[|ss| - 1]));
    }
  }

  lemma DocOfSnoc(parse: Parse, render: Render, ss: seq<Script>, s: Script)
    ensures DocOf(parse, render, ss + [s]) == DocStep(render, DocOf(parse, render, ss), BlockOf(parse, s))
  {
    assert (ss + [s])[..|ss|] == ss;
  }

  /** Whatever the order they were sent in, the document has the blocks by index. */
  function ByIndex(ss: seq<Script>): seq<Script> {
    SortedBelow(ss, MAX_BLOCKS + 1)
  }

  lemma {:induction false} NoneAbove(parse: Parse, ss: seq<Script>, n: nat, m: nat)
    requires |Layout(parse, ss)| <= n <= m
    ensures SortedBelow(ss, n) == SortedBelow(ss, m)
    decreases m
  {
    if n < m {
      NoneAbove(parse, ss, n, m - 1);
      LayoutAt(parse, ss, m - 1);
      assert SortedBelow(ss, m - 1) + [] == SortedBelow(ss, m - 1);
    }
  }

  lemma {:induction false} LayoutHeight(parse: Parse, ss: seq<Script>)
    requires forall s | s in ss :: s.index <= MAX_BLOCKS
    ensures |Layout(parse, ss)| <= MAX_BLOCKS + 1
  {
    if ss != [] {
      assert ss[|ss| - 1] in ss && forall s | s in ss[..|ss| - 1] :: s in ss;
      LayoutHeight(parse, ss[..|ss| - 1]);
    }
  }

  lemma DocOfLayout(parse: Parse, render: Render, ss: seq<Script>)
    requires forall s | s in ss :: s.index <= MAX_BLOCKS
    ensures DocParts(render, Layout(parse, ss)) == DocOf(parse, render, ByIndex(ss))
  {
    var content := Layout(parse, ss);
    var f := (d, b) => DocStep(render, d, b);
    LayoutHeight(parse, ss);
    forall d ensures f(d, map[]) == d { GapIsIgnored(render, d); }
    LayoutInOrder(parse, f, ss, |content|);
    NoneAbove(parse, ss, |content|, MAX_BLOCKS + 1);
    assert content[..|content|] == content;
    DocPartsFold(render, f, content);
    DocOfFold(parse, render, f, ByIndex(ss));
  }

  /** Block i is being sent: what it has so far and the input read so far. */
  ghost predicate Sending(parse: Parse, events: seq<Event>, st: Assembly, i: nat, b: Meta, input: Option<string>) {
    && Assemble(parse, events).Running?
    && Assemble(parse, events).st
       == Assembly(true, st.stopped, st.message, Put(st.content, i, b), st.open + {i},
                   if input.Some? then st.input[i := input.value] else st.input)
  }

  lemma PutAgain(content: seq<Meta>, i: nat, b: Meta, c: Meta)
    ensures Padded(Put(content, i, b), i + 1)[i := c] == Put(content, i, c)
  {
  }

  lemma SendDelta(parse: Parse, events: seq<Event>, st: Assembly, ix: Index, i: nat, b: Meta,
                  input: Option<string>, f: Frag)
    requires IsAt(ix, i) && i !in st.input && Sending(parse, events, st, i, b, input)
    ensures Sending(parse, events + [BlockDelta(ix, Some(f))], st, i, AddFrag(b, f),
                    if f.InputFrag? then Some((if input.Some? then input.value else "") + f.s) else input)
  {
    AssembleSnoc(parse, events, BlockDelta(ix, Some(f)));
    PutAgain(st.content, i, b, AddFrag(b, f));
    var input1 := if input.Some? then st.input[i := input.value] else st.input;
    if f.InputFrag? {
      var t := (if input.Some? then input.value else "") + f.s;
      assert input1[i := t] == st.input[i := t];
    }
  }

  lemma SendStart(parse: Parse, events: seq<Event>, st: Assembly, ix: Index, i: nat, b: Meta)
    requires Assemble(parse, events) == Running(st) && st.started && IsAt(ix, i) && i !in st.open
    ensures Sending(parse, events + [BlockStart(ix, Some(b))], st, i, b, None)
  {
    AssembleSnoc(parse, events, BlockStart(ix, Some(b)));
  }

  lemma {:induction false} SendDeltas(parse: Parse, events: seq<Event>, st: Assembly, ix: Index, i: nat, b: Meta,
                                      frags: seq<Frag>)
    requires Assemble(parse, events) == Running(st) && st.started && IsAt(ix, i)
    requires i !in st.open && i !in st.input
    ensures Sending(parse, events + ([BlockStart(ix, Some(b))] + Deltas(ix, frags)), st, i,
                    AddFrags(b, frags), Joined(frags, InputKind))
  {
    var start := [BlockStart(ix, Some(b))];
    if frags == [] {
      assert start + Deltas(ix, frags) == start;
      SendStart(parse, events, st, ix, i, b);
    } else {
      var front, f := frags[..|frags| - 1], frags[|frags| - 1];
      SendDeltas(parse, events, st, ix, i, b, front);
      var sofar := events + (start + Deltas(ix, front));
      SendDelta(parse, sofar, st, ix, i, AddFrags(b, front), Joined(front, InputKind), f);
      assert sofar + [BlockDelta(ix, Some(f))] == events + (start + Deltas(ix, frags));
    }
  }

  /** The last event of a block. */
  lemma SendStop(parse: Parse, events: seq<Event>, st: Assembly, s: Script)
    requires st.started && st.open == {} && st.input == map[] && s.index <= MAX_BLOCKS && ValidInput(parse, s)
    requires Sending(parse, events, st, s.index, AddFrags(s.base, s.frags), Joined(s.frags, InputKind))
    ensures Assemble(parse, events + [BlockStop(IndexOf(s))])
            == Running(st.(content := Put(st.content, s.index, BlockOf(parse, s))))
  {
    var i := s.index;
    assert IsAt(IndexOf(s), i);
    AssembleSnoc(parse, events, BlockStop(IndexOf(s)));
    assert {} + {i} - {i} == {};
    var joined := Joined(s.frags, InputKind);
    if joined.Some? {
      assert map[i := joined.value] - {i} == map[];
      PutAgain(st.content, i, AddFrags(s.base, s.frags), BlockOf(parse, s));
    }
  }

  lemma SendBlock(parse: Parse, events: seq<Event>, st: Assembly, s: Script)
    requires Assemble(parse, events) == Running(st) && st.started && st.open == {} && st.input == map[]
    requires s.index <= MAX_BLOCKS && ValidInput(parse, s)
    ensures Assemble(parse, events + EventsOf(s))
            == Running(st.(content := Put(st.content, s.index, BlockOf(parse, s))))
  {
    var ix, i := IndexOf(s), s.index;
    assert IsAt(ix, i);
    SendDeltas(parse, events, st, ix, i, s.base, s.frags);
    var sofar := events + ([BlockStart(ix, Some(s.base))] + Deltas(ix, s.frags));
    SendStop(parse, sofar, st, s);
    assert sofar + [BlockStop(ix)] == events + EventsOf(s);
  }

  lemma InputIsValid(parse: Parse, s: Script)
    requires Sends(parse, s)
    ensures ValidInput(parse, s)
  {
    if !IsToolShape(s.base) {
      forall f | f in s.frags ensures !f.InputFrag? { assert Allowed(s.base, f); }
      NoInput(s.frags);
    }
  }

  lemma {:induction false} NoInput(frags: seq<Frag>)
    requires forall f | f in frags :: !f.InputFrag?
    ensures Joined(frags, InputKind).None?
  {
    if frags != [] {
      assert frags[|frags| - 1] in frags;
      NoInput(frags[..|frags| - 1]);
    }
  }

  lemma StartAssembles(parse: Parse, m: Meta)
    requires Prefilled(m) == []
    ensures Assemble(parse, [] + [MessageStart(Some(m))]) == Running(Assembly(true, false, m, [], {}, map[]))
  {
    AssembleSnoc(parse, [], MessageStart(Some(m)));
    assert NOTHING.content + [] == [] && NOTHING.open + UpTo(0) - UpTo(0) == {};
  }

  ghost predicate Rebuilt(parse: Parse, m: Meta, ss: seq<Script>) {
    Assemble(parse, [MessageStart(Some(m))] + Body(ss))
    == Running(Assembly(true, false, m, Layout(parse, ss), {}, map[]))
  }

  lemma RebuildsOneMore(parse: Parse, m: Meta, front: seq<Script>, s: Script)
    requires Rebuilt(parse, m, front) && s.index <= MAX_BLOCKS && ValidInput(parse, s)
    ensures Rebuilt(parse, m, front + [s])
  {
    var st := Assembly(true, false, m, Layout(parse, front), {}, map[]);
    SendBlock(parse, [MessageStart(Some(m))] + Body(front), st, s);
    LayoutSnoc(parse, front, s);
    BodySnoc(m, front, s);
  }

  lemma LayoutSnoc(parse: Parse, front: seq<Script>, s: Script)
    ensures Layout(parse, front + [s]) == Put(Layout(parse, front), s.index, BlockOf(parse, s))
  {
    assert (front + [s])[..|front|] == front;
  }

  lemma BodySnoc(m: Meta, front: seq<Script>, s: Script)
    ensures [MessageStart(Some(m))] + Body(front + [s]) == [MessageStart(Some(m))] + Body(front) + EventsOf(s)
  {
    assert (front + [s])[..|front|] == front;
  }

  lemma NothingRebuilt(parse: Parse, m: Meta, ss: seq<Script>)
    requires Prefilled(m) == [] && ss == []
    ensures Rebuilt(parse, m, ss)
  {
    assert [MessageStart(Some(m))] + Body(ss) == [] + [MessageStart(Some(m))];
    StartAssembles(parse, m);
  }

  lemma {:induction false} BodyAssembles(parse: Parse, m: Meta, ss: seq<Script>)
    requires Prefilled(m) == [] && forall s | s in ss :: s.index <= MAX_BLOCKS && ValidInput(parse, s)
    ensures Rebuilt(parse, m, ss)
  {
    if ss == [] {
      NothingRebuilt(parse, m, ss);
    } else {
      var front, s := ss[..|ss| - 1], ss[|ss| - 1];
      assert ss == front + [s] && s in ss && forall x | x in front :: x in ss;
      BodyAssembles(parse, m, front);
      RebuildsOneMore(parse, m, front, s);
    }
  }

  lemma EndAccepted(parse: Parse, body: seq<Event>, st: Assembly, delta: Event)
    requires Assemble(parse, body) == Running(st) && st.started && st.open == {} && delta.MessageDelta?
    ensures var o := Close(Assemble(parse, body + [delta, MessageStop]));
            o.Accepted? && o.content == st.content
  {
    AssembleSnoc(parse, body, delta);
    AssembleSnoc(parse, body + [delta], MessageStop);
    assert body + [delta] + [MessageStop] == body + [delta, MessageStop];
  }

  /** A stream of such blocks is accepted, and its document has them at their indexes. */
  lemma DocumentOfStream(parse: Parse, render: Render, m: Meta, ss: seq<Script>, delta: Event)
    requires (forall s | s in ss :: Sends(parse, s)) && Prefilled(m) == [] && delta.MessageDelta?
    ensures var o := Close(Assemble(parse, StreamOf(m, ss, delta)));
            && o.Accepted? && o.content == Layout(parse, ss)
            && DocParts(render, o.content) == DocOf(parse, render, ByIndex(ss))
  {
    forall s | s in ss ensures s.index <= MAX_BLOCKS && ValidInput(parse, s) { InputIsValid(parse, s); }
    BodyAssembles(parse, m, ss);
    EndAccepted(parse, [MessageStart(Some(m))] + Body(ss), Assembly(true, false, m, Layout(parse, ss), {}, map[]),
                delta);
    DocOfLayout(parse, render, ss);
  }

  lemma LiveOfStream(m: Meta, ss: seq<Script>, delta: Event)
    requires delta.MessageDelta? && forall e | e in Body(ss) :: !Ends(e)
    ensures SseRead(NO_LIVE, StreamOf(m, ss, delta)).c == SseRead(NO_LIVE, Body(ss)).c
  {
    var start := MessageStart(Some(m));
    SseReadAppend(NO_LIVE, [start] + Body(ss), [delta, MessageStop]);
    SseReadAppend(NO_LIVE, [start], Body(ss));
    SseReadOne(NO_LIVE, start);
    var l := SseRead(NO_LIVE, Body(ss));
    assert [delta, MessageStop] == [delta] + [MessageStop];
    SseReadAppend(l, [delta], [MessageStop]);
    SseReadOne(l, delta);
  }

  // ------------------------------------------------------------ the main result

  /** The document can be decoded, and the parts of the events are those of the document. */
  ghost predicate TransportsAgree(parse: Parse, render: Render, events: seq<Event>) {
    var o := Close(Assemble(parse, events));
    var c := SseRead(NO_LIVE, events).c;
    && o.Accepted? && (forall b | b in o.content :: Readable(b)) && |c.parts| == |c.texts|
    && SameParts(parse, Finished(c), DocParts(render, o.content).parts)
  }

  lemma {:induction false} LayoutIsReadable(parse: Parse, ss: seq<Script>)
    requires forall s | s in ss :: Readable(BlockOf(parse, s))
    ensures forall b | b in Layout(parse, ss) :: Readable(b)
  {
    if ss != [] {
      var front, s := ss[..|ss| - 1], ss[|ss| - 1];
      assert ss == front + [s] && s in ss && forall x | x in front :: x in ss;
      LayoutIsReadable(parse, front);
      var content := Layout(parse, front);
      assert forall k | 0 <= k < |content| :: content[k] in content;
    }
  }

  /** With a block that has something else than a string in a string's place, the document is
      refused, while the events are read. */
  lemma UnreadableDisagrees(parse: Parse, render: Render, m: Meta, ss: seq<Script>, s: Script, delta: Event)
    requires (forall x | x in ss :: Sends(parse, x)) && Prefilled(m) == [] && delta.MessageDelta?
    requires AtIndex(ss, s.index) == Some(s) && !Readable(BlockOf(parse, s))
    ensures !TransportsAgree(parse, render, StreamOf(m, ss, delta))
  {
    DocumentOfStream(parse, render, m, ss, delta);
    LayoutAt(parse, ss, s.index);
    assert Layout(parse, ss)[s.index] in Layout(parse, ss);
  }

  lemma {:induction false} GoodAreSendable(parse: Parse, ss: seq<Script>)
    requires GoodStream(parse, ss)
    ensures forall s | s in ss :: GoodScript(parse, s)
  {
    if ss != [] {
      GoodAreSendable(parse, ss[..|ss| - 1]);
      assert ss == ss[..|ss| - 1] + [ss[|ss| - 1]];
    }
  }

  /** Whatever the indexes: the two agree exactly if a document with the blocks in the order
      sent has the same parts as one with the blocks by index. */
  lemma AgreeAsDocuments(parse: Parse, render: Render, m: Meta, ss: seq<Script>, delta: Event)
    requires GoodStream(parse, ss) && AllReadBack(parse, render, ss) && Prefilled(m) == [] && delta.MessageDelta?
    ensures TransportsAgree(parse, render, StreamOf(m, ss, delta))
            <==> SameParts(parse, DocOf(parse, render, ss).parts, DocOf(parse, render, ByIndex(ss)).parts)
  {
    GoodAreSendable(parse, ss);
    ReadersInStep(parse, render, ss);
    DocumentOfStream(parse, render, m, ss, delta);
    LayoutIsReadable(parse, ss);
    LiveOfStream(m, ss, delta);
    SamePartsShift(parse, Finished(SseRead(NO_LIVE, Body(ss)).c), DocOf(parse, render, ss).parts,
                   DocOf(parse, render, ByIndex(ss)).parts);
  }

  lemma SamePartsShift(parse: Parse, a: seq<Part>, b: seq<Part>, c: seq<Part>)
    requires SameParts(parse, a, b)
    ensures SameParts(parse, a, c) <==> SameParts(parse, b, c)
  {
    if SameParts(parse, a, c) {
      forall n | 0 <= n < |b| ensures SamePart(parse, b[n], c[n]) {
        assert SamePart(parse, a[n], b[n]) && SamePart(parse, a[n], c[n]);
      }
    }
    if SameParts(parse, b, c) {
      forall n | 0 <= n < |a| ensures SamePart(parse, a[n], c[n]) {
        assert SamePart(parse, a[n], b[n]) && SamePart(parse, b[n], c[n]);
      }
    }
  }

  /** Scripts with ascending indexes are by index already. */
  lemma {:induction false} AscendingInOrder(ss: seq<Script>, n: nat, k: nat)
    requires Ascending(ss) && k <= |ss|
    requires (forall j | 0 <= j < k :: ss[j].index < n) && (forall j | k <= j < |ss| :: ss[j].index >= n)
    ensures SortedBelow(ss, n) == ss[..k]
    decreases n
  {
    if n > 0 {
      if k > 0 && ss[k - 1].index == n - 1 {
        AscendingInOrder(ss, n - 1, k - 1);
        AtIndexIs(ss, k - 1);
        assert ss[..k] == ss[..k - 1] + [ss[k - 1]];
      } else {
        AscendingInOrder(ss, n - 1, k);
        NotAtIndex(ss, n - 1);
        assert ss[..k] + [] == ss[..k];
      }
    }
  }

  lemma {:induction false} NotAtIndex(ss: seq<Script>, i: nat)
    requires forall j | 0 <= j < |ss| :: ss[j].index != i
    ensures AtIndex(ss, i).None?
  {
    if ss != [] {
      NotAtIndex(ss[..|ss| - 1], i);
    }
  }

  lemma {:induction false} AtIndexIs(ss: seq<Script>, k: nat)
    requires k < |ss| && forall j | k < j < |ss| :: ss[j].index != ss[k].index
    ensures AtIndex(ss, ss[k].index) == Some(ss[k])
    decreases |ss|
  {
    if k < |ss| - 1 {
      AtIndexIs(ss[..|ss| - 1], k);
    }
  }

  lemma AscendingIsByIndex(ss: seq<Script>)
    requires Ascending(ss) && forall s | s in ss :: s.index <= MAX_BLOCKS
    ensures ByIndex(ss) == ss
  {
    forall j | 0 <= j < |ss| ensures ss[j].index < MAX_BLOCKS + 1 { assert ss[j] in ss; }
    AscendingInOrder(ss, MAX_BLOCKS + 1, |ss|);
    assert ss[..|ss|] == ss;
  }

  /** The two transports agree: reading the events of a sequential stream with ascending
      indexes gives the parts that reading the document rebuilt from them gives. */
  lemma TwoTransportsAgree(parse: Parse, render: Render, m: Meta, ss: seq<Script>, delta: Event)
    requires GoodStream(parse, ss) && Ascending(ss) && AllReadBack(parse, render, ss)
    requires Prefilled(m) == [] && delta.MessageDelta?
    ensures TransportsAgree(parse, render, StreamOf(m, ss, delta))
  {
    GoodAreSendable(parse, ss);
    AscendingIsByIndex(ss);
    AgreeAsDocuments(parse, render, m, ss, delta);
    SameAsItself(parse, DocOf(parse, render, ss).parts);
  }

  lemma SameAsItself(parse: Parse, a: seq<Part>)
    ensures SameParts(parse, a, a)
  {
  }

  // ------------------------------------------------------------- the program

  class OrderedContent {
    var parts: seq<Part>
    var text: seq<string>
    var pos: map<nat, nat>
    var tools: map<string, nat>

    ghost predicate Valid()
      reads this
    {
      && |parts| == |text|
      && (forall i | i in pos :: pos[i] < |parts|) && (forall id | id in tools :: tools[id] < |parts|)
    }

    ghost function View(): Ordered
      reads this
    {
      Ordered(parts, text, pos, tools)
    }

    constructor ()
      ensures Valid() && View() == NOTHING_ORDERED
    {
      parts, text, pos, tools := [], [], map[], map[];
    }

    method Start(ix: Index, p: Part)
      requires Valid()
      modifies this
      ensures Valid() && View() == Track(old(View()), ix, p)
    {
      var i := BlockIndex(ix);
      if i.None? {
        return;
      }
      pos := pos[i.value := |parts|];
      if p.typ == PartToolCall {
        tools := tools[p.toolCallId := |parts|];
      }
      parts := parts + [p];
      text := text + [p.text];
    }

    method Append(ix: Index, s: string)
      requires Valid()
      modifies this
      ensures Valid() && View() == AppendText(old(View()), ix, s)
    {
      var i := BlockIndex(ix);
      if i.Some? && i.value in pos {
        var n := pos[i.value];
        text := text[n := text[n] + s];
      }
    }

    method Sign(ix: Index, signature: string)
      requires Valid()
      modifies this
      ensures Valid() && View() == SetSignature(old(View()), ix, signature)
    {
      var i := BlockIndex(ix);
      if i.Some? && i.value in pos && parts[pos[i.value]].typ == PartReasoning {
        var n := pos[i.value];
        parts := parts[n := parts[n].(options := parts[n].options["signature" := Str(signature)])];
      }
    }

    method GiveInput(id: string, input: string)
      requires Valid()
      modifies this
      ensures Valid() && View() == SetToolInput(old(View()), id, input)
    {
      if id in tools {
        parts := parts[tools[id] := parts[tools[id]].(toolInput := input)];
      }
    }

    method GiveResult(id: string, b: Meta)
      requires Valid()
      modifies this
      ensures Valid() && View() == SetResultBlock(old(View()), id, b)
    {
      if id in tools {
        parts := parts[tools[id] := parts[tools[id]].(options := map["resultBlock" := Obj(b)])];
      }
    }

    method Finish() returns (r: seq<Part>)
      requires Valid()
      ensures r == Finished(View())
    {
      r := [];
      for n := 0 to |parts|
        invariant |r| == n && forall k | 0 <= k < n :: r[k] == Shown(View(), k)
      {
        var p := parts[n];
        if p.typ == PartText || p.typ == PartReasoning {
          p := p.(text := text[n]);
        }
        r := r + [p];
      }
    }
  }

  /** parseSSE with the ordered content it hands over at the end. */
  class StreamReader {
    const content: OrderedContent
    var pending: set<string>
    var toolId: string
    var toolName: string
    var args: string
    var firstDelta: bool
    var serverTool: bool
    var resultBlock: bool
    var resultUseId: string

    ghost predicate Valid()
      reads this, content
    {
      content.Valid()
    }

    ghost function View(): Live
      reads this, content
    {
      Live(content.View(), pending, toolId, toolName, args, firstDelta, serverTool, resultBlock, resultUseId)
    }

    constructor ()
      ensures Valid() && View() == NO_LIVE && fresh(content)
    {
      content := new OrderedContent();
      pending, toolId, toolName, args := {}, "", "", "";
      firstDelta, serverTool, resultBlock, resultUseId := false, false, false, "";
    }

    method StartTool(ix: Index, b: Meta, server: bool)
      requires Valid()
      modifies this, content
      ensures Valid() && View() == BeginTool(old(View()), ix, b, server)
    {
      toolId, toolName, firstDelta, serverTool := StrField(b, "id"), StrField(b, "name"), true, server;
      content.Start(ix, ToolCallPart(toolId, toolName, "", map[]));
    }

    method StartBlock(ix: Index, b: Meta)
      requires Valid()
      modifies this, content
      ensures Valid() && View() == SseStart(old(View()), ix, b)
    {
      resultBlock := false;
      var shape := ShapeOf(b);
      if !shape.ResultShape? && !shape.ServerShape? {
        pending := {};
      }
      match shape {
        case TextShape =>
          content.Start(ix, TextPart(StrField(b, "text")));
        case ThinkingShape =>
          content.Start(ix, ReasoningPart(StrField(b, "thinking"), ThinkingOptions(StrField(b, "signature"))));
        case RedactedShape =>
          var data := StrField(b, "data");
          if data != "" {
            content.Start(ix, ReasoningPart("", map["redactedData" := Str(data)]));
          }
        case ToolShape =>
          StartTool(ix, b, false);
        case ServerShape =>
          StartTool(ix, b, true);
        case ResultShape =>
          resultBlock, resultUseId := true, StrField(b, "tool_use_id");
          if resultUseId in pending {
            content.GiveResult(resultUseId, b);
          }
        case OtherShape =>
      }
    }

    method Continue(ix: Index, f: Frag)
      requires Valid()
      modifies this, content
      ensures Valid() && View() == SseDelta(old(View()), ix, f)
    {
      match f {
        case TextFrag(s) =>
          if s != "" {
            content.Append(ix, s);
          }
        case ThinkingFrag(s) =>
          if s != "" {
            content.Append(ix, s);
          }
        case SignatureFrag(s) =>
          if s != "" {
            content.Sign(ix, s);
          }
        case InputFrag(s) =>
          if s != "" {
            var emit := s;
            if firstDelta && serverTool
               && (toolName == "bash_code_execution" || toolName == "text_editor_code_execution") {
              emit := "{\"type\": \"" + toolName + "\"," + s[1..];
            }
            firstDelta := false;
            args := args + emit;
          }
        case _ =>
      }
    }

    method StopBlock()
      requires Valid()
      modifies this, content
      ensures Valid() && View() == SseStop(old(View()))
    {
      if resultBlock {
        pending, resultBlock, resultUseId := pending - {resultUseId}, false, "";
      } else if serverTool && toolId != "" {
        pending := pending + {toolId};
        content.GiveInput(toolId, OrEmptyObject(args));
        args := "";
      } else if toolId != "" {
        content.GiveInput(toolId, OrEmptyObject(args));
        args := "";
      }
      if toolId != "" {
        toolId, toolName, serverTool := "", "", false;
      }
    }

    method ReadEvent(e: Event)
      requires Valid()
      modifies this, content
      ensures Valid() && View() == SseStep(old(View()), e)
    {
      match e {
        case BlockStart(ix, Some(b)) => StartBlock(ix, b);
        case BlockDelta(ix, Some(f)) => Continue(ix, f);
        case BlockStop(_) => StopBlock();
        case MessageDelta(delta, _, _, _) =>
          if Lookup(delta, "stop_reason").Str? {
            pending := {};
          }
        case _ =>
      }
    }
  }

  /** parseSSE: the parts on its finishing chunk, which an error event leaves out. */
  method ParseSse(events: seq<Event>) returns (parts: Option<seq<Part>>)
    ensures var c := SseRead(NO_LIVE, events).c;
            |c.parts| == |c.texts| && parts == if EndsWell(events) then Some(Finished(c)) else None
  {
    var reader := new StreamReader();
    var n := 0;
    assert events[0..] == events;
    while n < |events| && !Ends(events[n])
      invariant n <= |events| && reader.Valid() && fresh(reader) && fresh(reader.content)
      invariant SseRead(reader.View(), events[n..]) == SseRead(NO_LIVE, events)
      invariant EndsWell(events[n..]) == EndsWell(events)
    {
      assert events[n..][0] == events[n] && events[n..][1..] == events[n + 1..];
      reader.ReadEvent(events[n]);
      n := n + 1;
    }
    assert n < |events| ==> events[n..][0] == events[n];
    if n < |events| && events[n].ErrorEvent? {
      parts := None;
    } else {
      var finished := reader.content.Finish();
      parts := Some(finished);
    }
  }

  /** The content loop of parseResponse. */
  method ReadContent(render: Render, content: seq<Meta>) returns (parts: seq<Part>)
    ensures parts == DocParts(render, content).parts
  {
    parts := [];
    var servers: map<string, nat> := map[];
    for n := 0 to |content|
      invariant DocParts(render, content[..n]) == Doc(parts, servers)
    {
      DocSnoc(render, content[..n], content[n]);
      assert content[..n] + [content[n]] == content[..n + 1];
      parts, servers := ReadBlock(render, parts, servers, content[n]);
    }
    assert content[..|content|] == content;
  }

  /** Its body, on the two variables it keeps. */
  method ReadBlock(render: Render, parts0: seq<Part>, servers0: map<string, nat>, b: Meta)
    returns (parts: seq<Part>, servers: map<string, nat>)
    ensures Doc(parts, servers) == DocStep(render, Doc(parts0, servers0), b)
  {
    parts, servers := parts0, servers0;
    match ShapeOf(b) {
      case TextShape =>
        var text := StrField(b, "text");
        if text != "" {
          parts := parts + [TextPart(text)];
        }
      case ThinkingShape =>
        parts := parts + [ReasoningPart(StrField(b, "thinking"), ThinkingOptions(StrField(b, "signature")))];
      case RedactedShape =>
        parts := parts + [ReasoningPart("", map["redactedData" := Str(StrField(b, "data"))])];
      case ToolShape =>
        parts := parts + [ToolCallPart(StrField(b, "id"), StrField(b, "name"), InputText(render, b), map[])];
      case ServerShape =>
        var id := StrField(b, "id");
        if id != "" {
          servers := servers[id := |parts|];
        }
        parts := parts + [ToolCallPart(id, StrField(b, "name"), InputText(render, b), map[])];
      case ResultShape =>
        var id := StrField(b, "tool_use_id");
        if id in servers && servers[id] < |parts| {
          var at := servers[id];
          parts := parts[at := parts[at].(options := parts[at].options["resultBlock" := Obj(b)])];
          servers := servers - {id};
        }
      case OtherShape =>
    }
  }
}
