/**
 provider/anthropic/anthropic.go, accumulateStreamedMessage: the message document
 rebuilt from a stream of events.

 Events are given after JSON decoding. Decoding and encoding of the tool input, which
 arrives as text, is a parameter.
 */
module AnthropicAssembly {
  import opened Wrappers
  import opened Provider

  /** The "index" field of a block event. */
  datatype Index = Missing | NotANumber | Number(r: real)

  const MAX_BLOCKS: nat := 500

  /** streamEventIndex: no index is 0; only whole numbers up to the limit are valid. */
  function BlockIndex(ix: Index): Option<nat> {
    match ix
    case Missing => Some(0)
    case NotANumber => None
    case Number(r) => if r < 0.0 || r > MAX_BLOCKS as real || r != r.Floor as real then None else Some(r.Floor)
  }

  datatype Frag =
    | TextFrag(s: string)
    | ThinkingFrag(s: string)
    | SignatureFrag(s: string)
    | InputFrag(s: string)
    | CitationFrag(citation: Json)
    | OtherFrag                              // unknown type, or a payload that is not a string

  datatype Event =
    | MessageStart(message: Option<Meta>)
    | BlockStart(index: Index, block: Option<Meta>)
    | BlockDelta(index: Index, frag: Option<Frag>)
    | BlockStop(index: Index)
    | MessageDelta(delta: Meta, usage: Option<Meta>, contextManagement: Option<Json>, transformations: Option<Json>)
    | MessageStop
    | ErrorEvent
    | Ping

  /** json.Unmarshal of a tool input. */
  type Parse = string -> Option<Json>

  function StrField(b: Meta, key: string): string {
    match Lookup(b, key) case Str(s) => s case _ => ""
  }

  function Items(j: Json): seq<Json> {
    match j case Arr(items) => items case _ => []
  }

  /** The objects of an array, in order. */
  function Objects(items: seq<Json>): seq<Meta> {
    if items == [] then []
    else Objects(items[..|items| - 1])
         + (match items[|items| - 1] case Obj(m) => [m] case _ => [])
  }

  function Fields(j: Json): Meta {
    match j case Obj(m) => m case _ => map[]
  }

  function AppendField(b: Meta, key: string, s: string): Meta {
    b[key := Str(StrField(b, key) + s)]
  }

  function AddFrag(b: Meta, f: Frag): Meta {
    match f
    case TextFrag(s) => AppendField(b, "text", s)
    case ThinkingFrag(s) => AppendField(b, "thinking", s)
    case SignatureFrag(s) => AppendField(b, "signature", s)
    case CitationFrag(c) => b["citations" := Arr(Items(Lookup(b, "citations")) + [c])]
    case _ => b
  }

  function OrEmptyObject(s: string): string {
    if s == "" then "{}" else s
  }

  // ------------------------------------------------------------- the fold

  datatype Assembly = Assembly(started: bool, stopped: bool, message: Meta, content: seq<Meta>,
                               open: set<nat>, input: map<nat, string>)

  const NOTHING: Assembly := Assembly(false, false, map[], [], {}, map[])

  function Padded(content: seq<Meta>, n: nat): (r: seq<Meta>)
    ensures |r| >= n && |r| >= |content| && content <= r
    ensures forall i | |content| <= i < |r| :: r[i] == map[]
    ensures |r| == if n <= |content| then |content| else n
    decreases n - |content|
  {
    if n <= |content| then content else Padded(content + [map[]], n)
  }

  function Prefilled(m: Meta): seq<Meta> {
    Objects(Items(Lookup(m, "content")))
  }

  function UpTo(n: nat): (s: set<nat>)
    ensures forall i: nat :: i in s <==> i < n
  {
    if n == 0 then {} else UpTo(n - 1) + {n - 1}
  }

  function Merged(message: Meta, e: Event): Meta
    requires e.MessageDelta?
  {
    var m := message + e.delta;
    var u := if e.usage.Some? then m["usage" := Obj(Fields(Lookup(m, "usage")) + e.usage.value)] else m;
    var c := if e.contextManagement.Some? then u["context_management" := e.contextManagement.value] else u;
    if e.transformations.Some? && e.transformations.value != Null
    then c["input_transformations" := e.transformations.value] else c
  }

  /** One event; None is a protocol error. */
  function Step(parse: Parse, st: Assembly, e: Event): Option<Assembly> {
    match e
    case MessageStart(m) =>
      if st.started || m.None? then None
      else
        var pre := Prefilled(m.value);
        Some(st.(started := true, message := m.value, content := st.content + pre,
                 open := st.open + UpTo(|st.content| + |pre|) - UpTo(|st.content|)))
    case BlockStart(ix, b) =>
      if !st.started || BlockIndex(ix).None? || BlockIndex(ix).value in st.open then None
      else
        var i := BlockIndex(ix).value;
        var block := if b.Some? then b.value else map[];
        Some(st.(content := Padded(st.content, i + 1)[i := block], open := st.open + {i}))
    case BlockDelta(ix, d) =>
      if !st.started || BlockIndex(ix).None? || BlockIndex(ix).value !in st.open then None
      else if d.None? then Some(st)
      else
        var i := BlockIndex(ix).value;
        var content := Padded(st.content, i + 1);
        var input := if d.value.InputFrag?
                     then st.input[i := (if i in st.input then st.input[i] else "") + d.value.s] else st.input;
        Some(st.(content := content[i := AddFrag(content[i], d.value)], input := input))
    case BlockStop(ix) =>
      if !st.started || BlockIndex(ix).None? || BlockIndex(ix).value !in st.open then None
      else
        var i := BlockIndex(ix).value;
        var closed := st.(open := st.open - {i}, input := st.input - {i});
        if i !in st.input then Some(closed)
        else
          var v := parse(OrEmptyObject(st.input[i]));
          var content := Padded(st.content, i + 1);
          if v.None? then None else Some(closed.(content := content[i := content[i]["input" := v.value]]))
    case MessageDelta(_, _, _, _) => if !st.started then None else Some(st.(message := Merged(st.message, e)))
    case MessageStop => if !st.started then None else Some(st.(stopped := true))
    case _ => Some(st)
  }

  datatype Progress = Running(st: Assembly) | Rejected | ErrorEnvelope

  function Advance(parse: Parse, p: Progress, e: Event): Progress {
    match p
    case Running(st) =>
      if e.ErrorEvent? then ErrorEnvelope
      else (match Step(parse, st, e) case Some(t) => Running(t) case None => Rejected)
    case _ => p
  }

  function Assemble(parse: Parse, events: seq<Event>): Progress {
    if events == [] then Running(NOTHING)
    else Advance(parse, Assemble(parse, events[..|events| - 1]), events[|events| - 1])
  }

  /** The rebuilt document: the message's own fields and its content. */
  datatype Outcome = Accepted(message: Meta, content: seq<Meta>) | Refused | ErrorReturned

  function Close(p: Progress): Outcome {
    match p
    case Running(st) =>
      if st.started && st.stopped && st.open == {} then Accepted(st.message, st.content) else Refused
    case Rejected => Refused
    case ErrorEnvelope => ErrorReturned
  }

  // -------------------------------------------------------- the lifecycle

  predicate Started(events: seq<Event>) {
    exists k | 0 <= k < |events| :: events[k].MessageStart?
  }

  predicate Stopped(events: seq<Event>) {
    exists k | 0 <= k < |events| :: events[k].MessageStop?
  }

  predicate IsAt(ix: Index, i: nat) {
    BlockIndex(ix) == Some(i)
  }

  /** Whether block i is open after these events: the events of block i, and the content
      the message may start with, decide. */
  function OpenAfter(events: seq<Event>, i: nat): bool {
    if events == [] then false
    else
      var before := OpenAfter(events[..|events| - 1], i);
      match events[|events| - 1]
      case MessageStart(Some(m)) => before || i < |Prefilled(m)|
      case BlockStart(ix, _) => before || IsAt(ix, i)
      case BlockStop(ix) => before && !IsAt(ix, i)
      case _ => before
  }

  /** The input fragments of block i since it was opened. */
  function InputAfter(events: seq<Event>, i: nat): Option<string> {
    if events == [] then None
    else
      var before := InputAfter(events[..|events| - 1], i);
      match events[|events| - 1]
      case BlockDelta(ix, Some(InputFrag(s))) =>
        if IsAt(ix, i) then Some((if before.Some? then before.value else "") + s) else before
      case BlockStop(ix) => if IsAt(ix, i) then None else before
      case _ => before
  }

  /** An event is in order after the events before it. */
  predicate InOrder(parse: Parse, before: seq<Event>, e: Event) {
    match e
    case MessageStart(m) => !Started(before) && m.Some?
    case BlockStart(ix, _) =>
      Started(before) && BlockIndex(ix).Some? && !OpenAfter(before, BlockIndex(ix).value)
    case BlockDelta(ix, _) =>
      Started(before) && BlockIndex(ix).Some? && OpenAfter(before, BlockIndex(ix).value)
    case BlockStop(ix) =>
      && Started(before) && BlockIndex(ix).Some? && OpenAfter(before, BlockIndex(ix).value)
      && (var s := InputAfter(before, BlockIndex(ix).value); s.Some? ==> parse(OrEmptyObject(s.value)).Some?)
    case MessageDelta(_, _, _, _) => Started(before)
    case MessageStop => Started(before)
    case ErrorEvent => false
    case Ping => true
  }

  ghost predicate WellFormed(parse: Parse, events: seq<Event>) {
    && (forall k | 0 <= k < |events| :: InOrder(parse, events[..k], events[k]))
    && Started(events) && Stopped(events) && forall i: nat :: !OpenAfter(events, i)
  }

  ghost predicate Describes(st: Assembly, events: seq<Event>) {
    && (st.started <==> Started(events)) && (st.stopped <==> Stopped(events))
    && (forall i: nat :: i in st.open <==> OpenAfter(events, i))
    && (forall i: nat ::
          if i in st.input then InputAfter(events, i) == Some(st.input[i]) else InputAfter(events, i).None?)
    && (!st.started ==> st.content == [] && st.open == {} && st.input == map[])
    && (forall i: nat | i in st.open :: i < |st.content|)
  }

  lemma StartedSnoc(events: seq<Event>, e: Event)
    ensures Started(events + [e]) <==> Started(events) || e.MessageStart?
    ensures Stopped(events + [e]) <==> Stopped(events) || e.MessageStop?
  {
    var all := events + [e];
    if Started(events) {
      var k :| 0 <= k < |events| && events[k].MessageStart?;
      assert all[k].MessageStart?;
    }
    if Stopped(events) {
      var k :| 0 <= k < |events| && events[k].MessageStop?;
      assert all[k].MessageStop?;
    }
    assert all[|events|] == e;
  }

  /** One event is accepted exactly when it is in order. */
  lemma StepInOrder(parse: Parse, st: Assembly, events: seq<Event>, e: Event)
    requires Describes(st, events) && !e.ErrorEvent?
    ensures Step(parse, st, e).Some? <==> InOrder(parse, events, e)
    ensures Step(parse, st, e).Some? ==> Describes(Step(parse, st, e).value, events + [e])
  {
    if e.BlockDelta? {
      DeltaInOrder(parse, st, events, e);
    } else if e.BlockStop? {
      StopInOrder(parse, st, events, e);
    } else {
      OtherInOrder(parse, st, events, e);
    }
  }

  lemma DeltaInOrder(parse: Parse, st: Assembly, events: seq<Event>, e: Event)
    requires Describes(st, events) && e.BlockDelta?
    ensures Step(parse, st, e).Some? <==> InOrder(parse, events, e)
    ensures Step(parse, st, e).Some? ==> Describes(Step(parse, st, e).value, events + [e])
  {
    assert (events + [e])[..|events|] == events;
    StartedSnoc(events, e);
  }

  lemma StopInOrder(parse: Parse, st: Assembly, events: seq<Event>, e: Event)
    requires Describes(st, events) && e.BlockStop?
    ensures Step(parse, st, e).Some? <==> InOrder(parse, events, e)
    ensures Step(parse, st, e).Some? ==> Describes(Step(parse, st, e).value, events + [e])
  {
    assert (events + [e])[..|events|] == events;
    StartedSnoc(events, e);
  }

  lemma OtherInOrder(parse: Parse, st: Assembly, events: seq<Event>, e: Event)
    requires Describes(st, events) && !e.ErrorEvent? && !e.BlockDelta? && !e.BlockStop?
    ensures Step(parse, st, e).Some? <==> InOrder(parse, events, e)
    ensures Step(parse, st, e).Some? ==> Describes(Step(parse, st, e).value, events + [e])
  {
    assert (events + [e])[..|events|] == events;
    StartedSnoc(events, e);
  }

  ghost predicate AllInOrder(parse: Parse, events: seq<Event>, n: nat)
    requires n <= |events|
  {
    forall k | 0 <= k < n :: InOrder(parse, events[..k], events[k])
  }

  lemma AssembleSnoc(parse: Parse, events: seq<Event>, e: Event)
    ensures Assemble(parse, events + [e]) == Advance(parse, Assemble(parse, events), e)
  {
    assert (events + [e])[..|events|] == events;
  }

  lemma AdvanceInOrder(parse: Parse, p: Progress, events: seq<Event>, e: Event)
    requires p.Running? ==> Describes(p.st, events)
    ensures var q := Advance(parse, p, e);
            && (q.Running? <==> p.Running? && InOrder(parse, events, e))
            && (q.Running? ==> Describes(q.st, events + [e]))
  {
    if p.Running? && !e.ErrorEvent? {
      StepInOrder(parse, p.st, events, e);
    }
  }

  lemma {:induction false} AssembleInOrder(parse: Parse, events: seq<Event>, n: nat)
    requires n <= |events|
    ensures var p := Assemble(parse, events[..n]);
            && (p.Running? <==> AllInOrder(parse, events, n))
            && (p.Running? ==> Describes(p.st, events[..n]))
  {
    if n > 0 {
      AssembleInOrder(parse, events, n - 1);
      var front, e := events[..n - 1], events[n - 1];
      assert events[..n] == front + [e];
      AssembleSnoc(parse, front, e);
      AdvanceInOrder(parse, Assemble(parse, front), front, e);
      OneMoreInOrder(parse, events, n);
    }
  }

  lemma OneMoreInOrder(parse: Parse, events: seq<Event>, n: nat)
    requires 0 < n <= |events|
    ensures AllInOrder(parse, events, n)
            <==> AllInOrder(parse, events, n - 1) && InOrder(parse, events[..n - 1], events[n - 1])
  {
  }

  /** A document is returned exactly for the well-formed streams: one message_start
      before every other message and block event, each block opened, continued and closed
      in turn, every tool input valid, and a message_stop. */
  lemma AcceptedIffWellFormed(parse: Parse, events: seq<Event>)
    ensures Close(Assemble(parse, events)).Accepted? <==> WellFormed(parse, events)
  {
    AssembleInOrder(parse, events, |events|);
    assert events[..|events|] == events;
  }

  // --------------------------------------------------- one block at a time

  predicate Concerns(e: Event, i: nat) {
    match e
    case BlockStart(ix, _) => IsAt(ix, i)
    case BlockDelta(ix, _) => IsAt(ix, i)
    case BlockStop(ix) => IsAt(ix, i)
    case _ => false
  }

  /** The events of block i, in order. */
  function Own(events: seq<Event>, i: nat): seq<Event> {
    if events == [] then []
    else Own(events[..|events| - 1], i) + (if Concerns(events[|events| - 1], i) then [events[|events| - 1]] else [])
  }

  /** Block i after these events, as its own events make it. */
  function BlockAfter(parse: Parse, events: seq<Event>, i: nat): Meta {
    if events == [] then map[]
    else
      var front := events[..|events| - 1];
      var b := BlockAfter(parse, front, i);
      match events[|events| - 1]
      case BlockStart(ix, block) => if IsAt(ix, i) then (if block.Some? then block.value else map[]) else b
      case BlockDelta(ix, f) => if IsAt(ix, i) && f.Some? then AddFrag(b, f.value) else b
      case BlockStop(ix) =>
        var s := InputAfter(front, i);
        if IsAt(ix, i) && s.Some? && parse(OrEmptyObject(s.value)).Some?
        then b["input" := parse(OrEmptyObject(s.value)).value] else b
      case _ => b
  }

  /** Other blocks' events do not matter, however they are interleaved. */
  lemma {:induction false} OnlyOwnEvents(parse: Parse, events: seq<Event>, i: nat)
    ensures BlockAfter(parse, events, i) == BlockAfter(parse, Own(events, i), i)
    ensures InputAfter(events, i) == InputAfter(Own(events, i), i)
  {
    if events != [] {
      var front, e := events[..|events| - 1], events[|events| - 1];
      OnlyOwnEvents(parse, front, i);
      if Concerns(e, i) {
        assert (Own(front, i) + [e])[..|Own(front, i)|] == Own(front, i);
      } else {
        assert Own(front, i) + [] == Own(front, i);
      }
    }
  }

  function Height(events: seq<Event>): nat {
    if events == [] then 0
    else
      var h := Height(events[..|events| - 1]);
      match events[|events| - 1]
      case BlockStart(ix, _) => (match BlockIndex(ix) case Some(i) => (if i + 1 > h then i + 1 else h) case None => h)
      case _ => h
  }

  function MessageAfter(events: seq<Event>): Meta {
    if events == [] then map[]
    else
      var m := MessageAfter(events[..|events| - 1]);
      match events[|events| - 1]
      case MessageStart(Some(msg)) => msg
      case MessageDelta(_, _, _, _) => Merged(m, events[|events| - 1])
      case _ => m
  }

  predicate NothingPrefilled(events: seq<Event>) {
    forall e | e in events :: e.MessageStart? && e.message.Some? ==> Prefilled(e.message.value) == []
  }

  ghost predicate HasContent(parse: Parse, content: seq<Meta>, events: seq<Event>) {
    && |content| == Height(events)
    && (forall i | 0 <= i < |content| :: content[i] == BlockAfter(parse, events, i))
    && (forall i: nat | i >= |content| :: BlockAfter(parse, events, i) == map[])
  }

  ghost predicate Holds(parse: Parse, st: Assembly, events: seq<Event>) {
    Describes(st, events) && st.message == MessageAfter(events) && HasContent(parse, st.content, events)
  }

  lemma OpensBlock(parse: Parse, content: seq<Meta>, events: seq<Event>, e: Event)
    requires HasContent(parse, content, events) && e.BlockStart? && BlockIndex(e.index).Some?
    ensures var i := BlockIndex(e.index).value;
            HasContent(parse, Padded(content, i + 1)[i := if e.block.Some? then e.block.value else map[]], events + [e])
  {
    var all := events + [e];
    assert all[..|all| - 1] == events && all[|events|] == e;
    var i := BlockIndex(e.index).value;
    var after := Padded(content, i + 1)[i := if e.block.Some? then e.block.value else map[]];
    forall j: nat ensures BlockAfter(parse, all, j) == if j == i then after[i] else BlockAfter(parse, events, j) {
      assert IsAt(e.index, j) <==> j == i;
    }
  }

  lemma ContinuesBlock(parse: Parse, content: seq<Meta>, events: seq<Event>, e: Event)
    requires HasContent(parse, content, events) && e.BlockDelta? && e.frag.Some?
    requires BlockIndex(e.index).Some? && BlockIndex(e.index).value < |content|
    ensures var i := BlockIndex(e.index).value;
            HasContent(parse, content[i := AddFrag(content[i], e.frag.value)], events + [e])
  {
    var all := events + [e];
    assert all[..|all| - 1] == events && all[|events|] == e;
    var i := BlockIndex(e.index).value;
    var after := content[i := AddFrag(content[i], e.frag.value)];
    forall j: nat ensures BlockAfter(parse, all, j) == if j == i then after[i] else BlockAfter(parse, events, j) {
      assert IsAt(e.index, j) <==> j == i;
    }
  }

  lemma ClosesBlock(parse: Parse, content: seq<Meta>, events: seq<Event>, e: Event, v: Json)
    requires HasContent(parse, content, events) && e.BlockStop?
    requires BlockIndex(e.index).Some? && BlockIndex(e.index).value < |content|
    requires var s := InputAfter(events, BlockIndex(e.index).value);
             s.Some? && parse(OrEmptyObject(s.value)) == Some(v)
    ensures var i := BlockIndex(e.index).value;
            HasContent(parse, content[i := content[i]["input" := v]], events + [e])
  {
    var all := events + [e];
    assert all[..|all| - 1] == events && all[|events|] == e;
    var i := BlockIndex(e.index).value;
    var after := content[i := content[i]["input" := v]];
    forall j: nat ensures BlockAfter(parse, all, j) == if j == i then after[i] else BlockAfter(parse, events, j) {
      assert IsAt(e.index, j) <==> j == i;
    }
  }

  lemma LeavesContent(parse: Parse, content: seq<Meta>, events: seq<Event>, e: Event)
    requires HasContent(parse, content, events) && !e.BlockStart? && !(e.BlockDelta? && e.frag.Some?)
    requires e.BlockStop? && BlockIndex(e.index).Some? ==> InputAfter(events, BlockIndex(e.index).value).None?
    ensures HasContent(parse, content, events + [e])
  {
    var all := events + [e];
    assert all[..|all| - 1] == events;
  }

  lemma StopHolds(parse: Parse, st: Assembly, events: seq<Event>, e: Event)
    requires Describes(st, events) && HasContent(parse, st.content, events) && e.BlockStop? && Step(parse, st, e).Some?
    ensures HasContent(parse, Step(parse, st, e).value.content, events + [e])
  {
    var i := BlockIndex(e.index).value;
    if i in st.input {
      ClosesBlock(parse, st.content, events, e, parse(OrEmptyObject(st.input[i])).value);
    } else {
      LeavesContent(parse, st.content, events, e);
    }
  }

  lemma StartHolds(parse: Parse, st: Assembly, events: seq<Event>, e: Event)
    requires HasContent(parse, st.content, events) && e.MessageStart? && Step(parse, st, e).Some?
    requires e.message.Some? ==> Prefilled(e.message.value) == []
    ensures HasContent(parse, Step(parse, st, e).value.content, events + [e])
  {
    LeavesContent(parse, st.content, events, e);
    assert st.content + [] == st.content;
  }

  lemma StepContent(parse: Parse, st: Assembly, events: seq<Event>, e: Event)
    requires Describes(st, events) && HasContent(parse, st.content, events) && Step(parse, st, e).Some?
    requires e.MessageStart? && e.message.Some? ==> Prefilled(e.message.value) == []
    ensures HasContent(parse, Step(parse, st, e).value.content, events + [e])
  {
    match e
    case MessageStart(_) => StartHolds(parse, st, events, e);
    case BlockStart(_, _) => OpensBlock(parse, st.content, events, e);
    case BlockDelta(_, Some(_)) => ContinuesBlock(parse, st.content, events, e);
    case BlockStop(_) => StopHolds(parse, st, events, e);
    case _ => LeavesContent(parse, st.content, events, e);
  }

  lemma StepHolds(parse: Parse, st: Assembly, events: seq<Event>, e: Event)
    requires Holds(parse, st, events) && !e.ErrorEvent? && Step(parse, st, e).Some?
    requires e.MessageStart? && e.message.Some? ==> Prefilled(e.message.value) == []
    ensures Holds(parse, Step(parse, st, e).value, events + [e])
  {
    assert (events + [e])[..|events|] == events;
    StepInOrder(parse, st, events, e);
    StepContent(parse, st, events, e);
  }

  lemma {:induction false} AssembleHolds(parse: Parse, events: seq<Event>)
    requires Assemble(parse, events).Running? && NothingPrefilled(events)
    ensures Holds(parse, Assemble(parse, events).st, events)
  {
    if events != [] {
      var front, e := events[..|events| - 1], events[|events| - 1];
      assert events == front + [e];
      AssembleSnoc(parse, front, e);
      assert forall x | x in front :: x in events;
      AssembleHolds(parse, front);
      StepHolds(parse, Assemble(parse, front).st, front, e);
    }
  }

  // ---------------------------------------------- serializing and reassembling

  datatype Kind = TextKind | ThinkingKind | SignatureKind | InputKind

  predicate HasKind(f: Frag, k: Kind) {
    match k
    case TextKind => f.TextFrag?
    case ThinkingKind => f.ThinkingFrag?
    case SignatureKind => f.SignatureFrag?
    case InputKind => f.InputFrag?
  }

  /** The pieces of one kind, concatenated; None if there are none. */
  function Joined(frags: seq<Frag>, k: Kind): Option<string> {
    if frags == [] then None
    else
      var before := Joined(frags[..|frags| - 1], k);
      var f := frags[|frags| - 1];
      if HasKind(f, k) then Some((if before.Some? then before.value else "") + f.s) else before
  }

  function Citations(frags: seq<Frag>): seq<Json> {
    if frags == [] then []
    else Citations(frags[..|frags| - 1])
         + (match frags[|frags| - 1] case CitationFrag(c) => [c] case _ => [])
  }

  function FieldOf(k: Kind): string {
    match k
    case TextKind => "text"
    case ThinkingKind => "thinking"
    case SignatureKind => "signature"
    case InputKind => "input"
  }

  predicate SameField(a: Meta, b: Meta, key: string) {
    (key in a <==> key in b) && (key in a ==> a[key] == b[key])
  }

  /** A string field cut into what the start event carries and the deltas' pieces. */
  predicate SplitsField(b: Meta, base: Meta, frags: seq<Frag>, k: Kind) {
    CutAs(b, base, Joined(frags, k), FieldOf(k))
  }

  predicate CutAs(b: Meta, base: Meta, joined: Option<string>, key: string) {
    match joined
    case None => SameField(b, base, key)
    case Some(s) => key in b && b[key] == Str(StrField(base, key) + s)
  }

  predicate GrowsCitations(b: Meta, base: Meta, frags: seq<Frag>) {
    if Citations(frags) == [] then SameField(b, base, "citations")
    else "citations" in b && b["citations"] == Arr(Items(Lookup(base, "citations")) + Citations(frags))
  }

  /** A start event with `base` and these fragments are one way to send block b. */
  ghost predicate Splits(parse: Parse, b: Meta, base: Meta, frags: seq<Frag>) {
    && (forall key :: key !in {"text", "thinking", "signature", "input", "citations"} ==> SameField(b, base, key))
    && SplitsField(b, base, frags, TextKind) && SplitsField(b, base, frags, ThinkingKind)
    && SplitsField(b, base, frags, SignatureKind)
    && (match Joined(frags, InputKind)
        case None => SameField(b, base, "input")
        case Some(s) => "input" in b && parse(OrEmptyObject(s)) == Some(b["input"]))
    && GrowsCitations(b, base, frags)
  }

  function AddFrags(b: Meta, frags: seq<Frag>): Meta {
    if frags == [] then b else AddFrag(AddFrags(b, frags[..|frags| - 1]), frags[|frags| - 1])
  }

  /** What adding fragments does, field by field. */
  ghost predicate Grown(b: Meta, base: Meta, frags: seq<Frag>) {
    && (forall key :: key !in {"text", "thinking", "signature", "citations"} ==> SameField(b, base, key))
    && SplitsField(b, base, frags, TextKind) && SplitsField(b, base, frags, ThinkingKind)
    && SplitsField(b, base, frags, SignatureKind) && GrowsCitations(b, base, frags)
  }

  lemma GrownStep(b: Meta, base: Meta, frags: seq<Frag>, f: Frag)
    requires Grown(b, base, frags)
    ensures Grown(AddFrag(b, f), base, frags + [f])
  {
    forall key | key !in {"text", "thinking", "signature", "citations"} ensures SameField(AddFrag(b, f), base, key) {
      assert SameField(b, base, key);
    }
    GrownField(b, base, frags, f, TextKind);
    GrownField(b, base, frags, f, ThinkingKind);
    GrownField(b, base, frags, f, SignatureKind);
    GrownCitations(b, base, frags, f);
  }

  /** A fragment changes one field. */
  lemma AddFragField(b: Meta, f: Frag, k: Kind)
    requires k != InputKind
    ensures HasKind(f, k) ==> AddFrag(b, f) == AppendField(b, FieldOf(k), f.s)
    ensures !HasKind(f, k) ==> SameField(AddFrag(b, f), b, FieldOf(k))
  {
    assert "text"[0] == 't' && "text"[1] == 'e' && "thinking"[1] == 'h';
    assert "signature"[0] == 's' && "citations"[0] == 'c';
    match k
    case TextKind =>
    case ThinkingKind =>
    case SignatureKind =>
  }

  lemma GrownField(b: Meta, base: Meta, frags: seq<Frag>, f: Frag, k: Kind)
    requires SplitsField(b, base, frags, k) && k != InputKind
    ensures SplitsField(AddFrag(b, f), base, frags + [f], k)
  {
    assert (frags + [f])[..|frags|] == frags;
    var before, key := Joined(frags, k), FieldOf(k);
    AddFragField(b, f, k);
    if HasKind(f, k) {
      GrownByOne(b, base, before, key, f.s);
    } else {
      UnchangedField(AddFrag(b, f), b, base, before, key);
    }
  }

  lemma GrownByOne(b: Meta, base: Meta, before: Option<string>, key: string, s: string)
    requires CutAs(b, base, before, key)
    ensures CutAs(AppendField(b, key, s), base, Some((if before.Some? then before.value else "") + s), key)
  {
    match before
    case None => assert "" + s == s;
    case Some(t) => assert StrField(base, key) + t + s == StrField(base, key) + (t + s);
  }

  lemma UnchangedField(c: Meta, b: Meta, base: Meta, joined: Option<string>, key: string)
    requires CutAs(b, base, joined, key) && SameField(c, b, key)
    ensures CutAs(c, base, joined, key)
  {
  }

  lemma GrownCitations(b: Meta, base: Meta, frags: seq<Frag>, f: Frag)
    requires GrowsCitations(b, base, frags)
    ensures GrowsCitations(AddFrag(b, f), base, frags + [f])
  {
    assert (frags + [f])[..|frags|] == frags;
    var items := Items(Lookup(base, "citations"));
    if f.CitationFrag? {
      assert items + (Citations(frags) + [f.citation]) == items + Citations(frags) + [f.citation];
      assert items + [] == items;
    } else {
      assert Citations(frags) + [] == Citations(frags);
    }
  }

  lemma {:induction false} AddFragsGrows(base: Meta, frags: seq<Frag>)
    ensures Grown(AddFrags(base, frags), base, frags)
  {
    if frags != [] {
      AddFragsGrows(base, frags[..|frags| - 1]);
      GrownStep(AddFrags(base, frags[..|frags| - 1]), base, frags[..|frags| - 1], frags[|frags| - 1]);
      assert frags == frags[..|frags| - 1] + [frags[|frags| - 1]];
    }
  }

  /** The events that send one block. */
  function Sent(ix: Index, base: Meta, frags: seq<Frag>): seq<Event> {
    [BlockStart(ix, Some(base))] + Deltas(ix, frags) + [BlockStop(ix)]
  }

  function Deltas(ix: Index, frags: seq<Frag>): seq<Event> {
    if frags == [] then []
    else Deltas(ix, frags[..|frags| - 1]) + [BlockDelta(ix, Some(frags[|frags| - 1]))]
  }

  lemma {:induction false} AfterDeltas(parse: Parse, ix: Index, i: nat, base: Meta, frags: seq<Frag>)
    requires IsAt(ix, i)
    ensures var evs := [BlockStart(ix, Some(base))] + Deltas(ix, frags);
            BlockAfter(parse, evs, i) == AddFrags(base, frags) && InputAfter(evs, i) == Joined(frags, InputKind)
  {
    var start := [BlockStart(ix, Some(base))];
    if frags == [] {
      assert start + Deltas(ix, frags) == start && start[..0] == [];
    } else {
      var front, f := frags[..|frags| - 1], frags[|frags| - 1];
      AfterDeltas(parse, ix, i, base, front);
      var evs := start + Deltas(ix, frags);
      assert evs == start + Deltas(ix, front) + [BlockDelta(ix, Some(f))];
      assert evs[..|evs| - 1] == start + Deltas(ix, front);
    }
  }

  /** However a block is cut into fragments, its events rebuild it. */
  lemma SentBlockIsRebuilt(parse: Parse, ix: Index, i: nat, b: Meta, base: Meta, frags: seq<Frag>)
    requires IsAt(ix, i) && Splits(parse, b, base, frags)
    ensures BlockAfter(parse, Sent(ix, base, frags), i) == b
  {
    var evs := Sent(ix, base, frags);
    var front := [BlockStart(ix, Some(base))] + Deltas(ix, frags);
    assert evs[..|evs| - 1] == front && evs[|evs| - 1] == BlockStop(ix);
    AfterDeltas(parse, ix, i, base, frags);
    AddFragsGrows(base, frags);
    var r := BlockAfter(parse, evs, i);
    forall key ensures SameField(b, r, key) {
      RebuiltField(parse, b, base, frags, r, key);
    }
    SameFields(b, r);
  }

  lemma RebuiltField(parse: Parse, b: Meta, base: Meta, frags: seq<Frag>, r: Meta, key: string)
    requires Splits(parse, b, base, frags)
    requires var grown := AddFrags(base, frags);
             && Grown(grown, base, frags)
             && r == match Joined(frags, InputKind)
                     case None => grown
                     case Some(s) =>
                       var v := parse(OrEmptyObject(s));
                       if v.Some? then grown["input" := v.value] else grown
    ensures SameField(b, r, key)
  {
    var grown := AddFrags(base, frags);
    if key !in {"text", "thinking", "signature", "input", "citations"} {
      assert SameField(b, base, key) && SameField(grown, base, key);
    } else if key == "input" {
      assert SameField(grown, base, key);
    } else if key == "citations" {
    } else {
      var k := if key == "text" then TextKind else if key == "thinking" then ThinkingKind else SignatureKind;
      assert SplitsField(b, base, frags, k) && SplitsField(grown, base, frags, k);
    }
  }

  lemma SameFields(a: Meta, b: Meta)
    requires forall key :: SameField(a, b, key)
    ensures a == b
  {
    assert forall key :: SameField(a, b, key);
    forall key ensures key in a <==> key in b { assert SameField(a, b, key); }
    forall key | key in a ensures a[key] == b[key] { assert SameField(a, b, key); }
  }

  // ------------------------------------------------------- the main result

  /** The events of block i are a serialization of b, in some way. */
  ghost predicate Serializes(parse: Parse, evs: seq<Event>, i: nat, b: Meta) {
    exists ix, base, frags :: IsAt(ix, i) && Splits(parse, b, base, frags) && evs == Sent(ix, base, frags)
  }

  lemma {:induction false} HeightAtMost(events: seq<Event>, n: nat)
    requires forall i: nat | i >= n :: Own(events, i) == []
    ensures Height(events) <= n
  {
    if events != [] {
      var front, e := events[..|events| - 1], events[|events| - 1];
      forall i: nat | i >= n ensures Own(front, i) == [] {
        assert Own(events, i) == [];
      }
      HeightAtMost(front, n);
      if e.BlockStart? && BlockIndex(e.index).Some? {
        assert Own(events, BlockIndex(e.index).value) != [];
      }
    }
  }

  lemma {:induction false} HeightAtLeast(events: seq<Event>, i: nat, k: nat)
    requires k < |Own(events, i)| && Own(events, i)[k].BlockStart?
    ensures Height(events) > i
  {
    var front, e := events[..|events| - 1], events[|events| - 1];
    if k < |Own(front, i)| {
      HeightAtLeast(front, i, k);
    }
  }

  /** The frame of a stream: one message_start before all other message and block events,
      which brings no content yet, a message_stop, no error, and usable indexes. */
  ghost predicate Framed(events: seq<Event>) {
    && Started(events) && Stopped(events) && NothingPrefilled(events)
    && forall k | 0 <= k < |events| :: FramedAt(events[..k], events[k])
  }

  predicate FramedAt(before: seq<Event>, e: Event) {
    match e
    case MessageStart(m) => m.Some? && !Started(before)
    case BlockStart(ix, _) => Started(before) && BlockIndex(ix).Some?
    case BlockDelta(ix, _) => Started(before) && BlockIndex(ix).Some?
    case BlockStop(ix) => Started(before) && BlockIndex(ix).Some?
    case MessageDelta(_, _, _, _) => Started(before)
    case MessageStop => Started(before)
    case ErrorEvent => false
    case Ping => true
  }

  /** The events of block i come in the order of its own events. */
  lemma {:induction false} OwnPrefix(events: seq<Event>, k: nat, i: nat)
    requires k <= |events|
    ensures Own(events[..k], i) <= Own(events, i)
    ensures k < |events| && Concerns(events[k], i) ==>
              |Own(events[..k], i)| < |Own(events, i)| && Own(events, i)[|Own(events[..k], i)|] == events[k]
    decreases |events|
  {
    if k < |events| {
      var front := events[..|events| - 1];
      assert front[..k] == events[..k];
      OwnPrefix(front, k, i);
    } else {
      assert events[..k] == events;
    }
  }

  lemma {:induction false} OpenIsOwn(events: seq<Event>, i: nat)
    requires NothingPrefilled(events)
    ensures OpenAfter(events, i) == OpenAfter(Own(events, i), i)
  {
    if events != [] {
      var front, e := events[..|events| - 1], events[|events| - 1];
      assert e in events && forall x | x in front :: x in events;
      OpenIsOwn(front, i);
      if Concerns(e, i) {
        assert (Own(front, i) + [e])[..|Own(front, i)|] == Own(front, i);
      } else {
        assert Own(front, i) + [] == Own(front, i);
      }
    }
  }

  lemma {:induction false} DeltasAre(ix: Index, frags: seq<Frag>, k: nat)
    requires k <= |frags|
    ensures |Deltas(ix, frags)| == |frags| && Deltas(ix, frags)[..k] == Deltas(ix, frags[..k])
    ensures k < |frags| ==> Deltas(ix, frags)[k] == BlockDelta(ix, Some(frags[k]))
    decreases |frags|
  {
    if k == |frags| {
      assert frags[..k] == frags;
      if frags != [] {
        DeltasAre(ix, frags[..k - 1], 0);
      }
    } else {
      var front := frags[..|frags| - 1];
      DeltasAre(ix, front, k);
      assert front[..k] == frags[..k];
    }
  }

  /** Between its start and its stop a block is open, and only then. */
  lemma OpenWhileSent(ix: Index, i: nat, base: Meta, frags: seq<Frag>, p: nat)
    requires IsAt(ix, i) && p <= |frags| + 2
    ensures var evs := Sent(ix, base, frags);
            |evs| == |frags| + 2 && (OpenAfter(evs[..p], i) <==> 0 < p < |evs|)
  {
    var evs := Sent(ix, base, frags);
    DeltasAre(ix, frags, 0);
    if 0 < p < |evs| {
      DeltasAre(ix, frags, p - 1);
      assert evs[..p] == [BlockStart(ix, Some(base))] + Deltas(ix, frags[..p - 1]);
      OpenAfterDeltas(ix, i, base, frags[..p - 1]);
    } else if p == |evs| {
      assert evs[..p] == evs && evs[|evs| - 1] == BlockStop(ix);
    }
  }

  lemma {:induction false} OpenAfterDeltas(ix: Index, i: nat, base: Meta, frags: seq<Frag>)
    requires IsAt(ix, i)
    ensures OpenAfter([BlockStart(ix, Some(base))] + Deltas(ix, frags), i)
  {
    var start := [BlockStart(ix, Some(base))];
    if frags == [] {
      assert start + Deltas(ix, frags) == start && start[..0] == [];
    } else {
      var front := frags[..|frags| - 1];
      OpenAfterDeltas(ix, i, base, front);
      var evs := start + Deltas(ix, frags);
      assert evs[..|evs| - 1] == start + Deltas(ix, front);
    }
  }

  lemma SentAt(ix: Index, base: Meta, frags: seq<Frag>, p: nat)
    requires p < |frags| + 2
    ensures var evs := Sent(ix, base, frags);
            && |evs| == |frags| + 2
            && evs[p] == if p == 0 then BlockStart(ix, Some(base))
                         else if p <= |frags| then BlockDelta(ix, Some(frags[p - 1])) else BlockStop(ix)
  {
    DeltasAre(ix, frags, if 0 < p <= |frags| then p - 1 else 0);
  }

  /** The events of one block are in order among themselves. */
  lemma SentInOrder(parse: Parse, events: seq<Event>, k: nat, i: nat, b: Meta)
    requires k < |events| && Concerns(events[k], i) && Serializes(parse, Own(events, i), i, b)
    requires NothingPrefilled(events) && Started(events[..k])
    ensures InOrder(parse, events[..k], events[k])
  {
    var ix, base, frags :| IsAt(ix, i) && Splits(parse, b, base, frags) && Own(events, i) == Sent(ix, base, frags);
    var evs, before := Own(events, i), events[..k];
    OwnPrefix(events, k, i);
    var p := |Own(before, i)|;
    assert Own(before, i) == evs[..p] && evs[p] == events[k];
    assert forall e | e in before :: e in events;
    OpenIsOwn(before, i);
    DeltasAre(ix, frags, 0);
    OpenWhileSent(ix, i, base, frags, p);
    SentAt(ix, base, frags, p);
    if events[k].BlockStop? {
      OnlyOwnEvents(parse, before, i);
      assert evs[..p] == [BlockStart(ix, Some(base))] + Deltas(ix, frags);
      AfterDeltas(parse, ix, i, base, frags);
    }
  }

  lemma SentIsClosed(parse: Parse, events: seq<Event>, i: nat, b: Meta)
    requires NothingPrefilled(events) && (Own(events, i) == [] || Serializes(parse, Own(events, i), i, b))
    ensures !OpenAfter(events, i)
  {
    OpenIsOwn(events, i);
    if Own(events, i) != [] {
      var ix, base, frags :| IsAt(ix, i) && Splits(parse, b, base, frags) && Own(events, i) == Sent(ix, base, frags);
      OpenWhileSent(ix, i, base, frags, |frags| + 2);
      assert Own(events, i)[..|frags| + 2] == Own(events, i);
    }
  }

  ghost predicate SendsBlocks(parse: Parse, events: seq<Event>, blocks: seq<Meta>) {
    && (forall i | 0 <= i < |blocks| :: Serializes(parse, Own(events, i), i, blocks[i]))
    && forall i: nat | i >= |blocks| :: Own(events, i) == []
  }

  lemma BlockEventInOrder(parse: Parse, events: seq<Event>, blocks: seq<Meta>, k: nat, ix: Index)
    requires Framed(events) && SendsBlocks(parse, events, blocks) && k < |events| && BlockIndex(ix).Some?
    requires Concerns(events[k], BlockIndex(ix).value) && Started(events[..k])
    ensures InOrder(parse, events[..k], events[k])
  {
    var i := BlockIndex(ix).value;
    OwnPrefix(events, k, i);
    assert Own(events, i) != [] && i < |blocks|;
    SentInOrder(parse, events, k, i, blocks[i]);
  }

  lemma SentIsWellFormed(parse: Parse, events: seq<Event>, blocks: seq<Meta>)
    requires Framed(events) && SendsBlocks(parse, events, blocks)
    ensures WellFormed(parse, events)
  {
    forall k | 0 <= k < |events| ensures InOrder(parse, events[..k], events[k]) {
      assert FramedAt(events[..k], events[k]);
      match events[k]
      case BlockStart(ix, _) => BlockEventInOrder(parse, events, blocks, k, ix);
      case BlockDelta(ix, _) => BlockEventInOrder(parse, events, blocks, k, ix);
      case BlockStop(ix) => BlockEventInOrder(parse, events, blocks, k, ix);
      case _ =>
    }
    forall i: nat ensures !OpenAfter(events, i) {
      SentIsClosed(parse, events, i, if i < |blocks| then blocks[i] else map[]);
    }
  }

  // ------------------------------------------------- the message's own fields

  function Get(m: Meta, key: string): Option<Json> {
    if key in m then Some(m[key]) else None
  }

  /** A field of the message, other than its usage, as it was sent last. */
  function LastSent(events: seq<Event>, key: string): Option<Json> {
    if events == [] then None
    else
      var before := LastSent(events[..|events| - 1], key);
      match events[|events| - 1]
      case MessageStart(Some(m)) => Get(m, key)
      case MessageDelta(delta, _, context, transformations) =>
        if key == "input_transformations" && transformations.Some? && transformations.value != Null
        then transformations
        else if key == "context_management" && context.Some? then context
        else if key in delta then Some(delta[key])
        else before
      case _ => before
  }

  /** One count of the usage, as it was sent last. */
  function LastUsage(events: seq<Event>, key: string): Option<Json> {
    if events == [] then None
    else
      var before := LastUsage(events[..|events| - 1], key);
      match events[|events| - 1]
      case MessageStart(Some(m)) => Get(Fields(Lookup(m, "usage")), key)
      case MessageDelta(_, Some(usage), _, _) => if key in usage then Some(usage[key]) else before
      case _ => before
  }

  /** Usage comes in the start, or in deltas of its own. */
  predicate UsageApart(events: seq<Event>) {
    forall e | e in events :: e.MessageDelta? ==> "usage" !in e.delta
  }

  /** The start and the deltas send message m, each field where it is sent last. */
  ghost predicate CutsMessage(events: seq<Event>, m: Meta) {
    && UsageApart(events)
    && (forall key :: key != "usage" ==> Get(m, key) == LastSent(events, key))
    && (if SendsUsage(events)
        then "usage" in m && m["usage"].Obj? && forall key :: Get(m["usage"].fields, key) == LastUsage(events, key)
        else Get(m, "usage") == LastSent(events, "usage"))
  }

  lemma {:induction false} FieldsAreLastSent(events: seq<Event>, key: string)
    requires UsageApart(events) && key != "usage"
    ensures Get(MessageAfter(events), key) == LastSent(events, key)
  {
    if events != [] {
      var front, e := events[..|events| - 1], events[|events| - 1];
      assert e in events && forall x | x in front :: x in events;
      FieldsAreLastSent(front, key);
      if e.MessageDelta? {
        MergedField(MessageAfter(front), e, key);
      }
    }
  }

  lemma MergedField(m: Meta, e: Event, key: string)
    requires e.MessageDelta? && key != "usage"
    ensures Get(Merged(m, e), key)
            == if key == "input_transformations" && e.transformations.Some? && e.transformations.value != Null
               then e.transformations
               else if key == "context_management" && e.contextManagement.Some? then e.contextManagement
               else if key in e.delta then Some(e.delta[key]) else Get(m, key)
  {
  }

  predicate SendsUsage(events: seq<Event>) {
    exists e :: e in events && e.MessageDelta? && e.usage.Some?
  }

  /** No start after a delta. */
  predicate StartFirst(events: seq<Event>) {
    forall j, k | 0 <= j < k < |events| :: events[j].MessageDelta? ==> !events[k].MessageStart?
  }

  lemma FramedStartsFirst(events: seq<Event>)
    requires Framed(events)
    ensures StartFirst(events)
  {
    forall j, k | 0 <= j < k < |events| && events[j].MessageDelta? ensures !events[k].MessageStart? {
      assert FramedAt(events[..j], events[j]) && FramedAt(events[..k], events[k]);
      var s :| 0 <= s < j && events[..j][s].MessageStart?;
      assert events[..k][s].MessageStart?;
    }
  }

  lemma {:induction false} UsageIsLastSent(events: seq<Event>, key: string)
    requires UsageApart(events) && StartFirst(events)
    ensures Get(Fields(Lookup(MessageAfter(events), "usage")), key) == LastUsage(events, key)
    ensures if SendsUsage(events) then Lookup(MessageAfter(events), "usage").Obj?
            else Get(MessageAfter(events), "usage") == LastSent(events, "usage")
  {
    if events != [] {
      var front, e := events[..|events| - 1], events[|events| - 1];
      assert events == front + [e] && e in events && forall x | x in front :: x in events;
      UsageIsLastSent(front, key);
      UsageSnoc(front, e);
      if e.MessageDelta? {
        MergedUsage(MessageAfter(front), e);
      }
    }
  }

  lemma UsageSnoc(front: seq<Event>, e: Event)
    requires StartFirst(front + [e])
    ensures SendsUsage(front + [e]) <==> SendsUsage(front) || (e.MessageDelta? && e.usage.Some?)
    ensures e.MessageStart? ==> !SendsUsage(front)
  {
    var all := front + [e];
    assert all[|front|] == e && e in all;
    forall x | x in front ensures x in all && (e.MessageStart? ==> !x.MessageDelta?) {
      var j :| 0 <= j < |front| && front[j] == x;
      assert all[j] == x;
    }
  }

  lemma MergedUsage(m: Meta, e: Event)
    requires e.MessageDelta? && "usage" !in e.delta
    ensures var before := Lookup(m, "usage");
            if e.usage.Some? then
              "usage" in Merged(m, e) && Merged(m, e)["usage"] == Obj(Fields(before) + e.usage.value)
            else Get(Merged(m, e), "usage") == Get(m, "usage")
  {
  }

  /** A message cut into a start and deltas comes back. */
  lemma MessageComesBack(events: seq<Event>, m: Meta)
    requires StartFirst(events) && CutsMessage(events, m)
    ensures MessageAfter(events) == m
  {
    var r := MessageAfter(events);
    forall key ensures SameField(r, m, key) {
      if key == "usage" {
        SameUsage(events, m);
      } else {
        FieldsAreLastSent(events, key);
        assert Get(m, key) == Get(r, key);
      }
    }
    SameFields(r, m);
  }

  lemma SameUsage(events: seq<Event>, m: Meta)
    requires StartFirst(events) && CutsMessage(events, m)
    ensures SameField(MessageAfter(events), m, "usage")
  {
    var r := MessageAfter(events);
    UsageIsLastSent(events, "");
    if SendsUsage(events) {
      forall key ensures SameField(r["usage"].fields, m["usage"].fields, key) {
        UsageIsLastSent(events, key);
        assert Get(m["usage"].fields, key) == LastUsage(events, key);
      }
      SameFields(r["usage"].fields, m["usage"].fields);
    }
  }

  /** Reassembly inverts serialization: from any framed stream that sends the message's
      fields, and its blocks in any interleaving, each cut in any way, that message comes
      back with exactly those blocks. */
  lemma ReassemblyInvertsSerialization(parse: Parse, events: seq<Event>, m: Meta, blocks: seq<Meta>)
    requires Framed(events) && CutsMessage(events, m) && SendsBlocks(parse, events, blocks)
    ensures Close(Assemble(parse, events)) == Accepted(m, blocks)
  {
    SentIsWellFormed(parse, events, blocks);
    AcceptedIffWellFormed(parse, events);
    AssembleHolds(parse, events);
    HeightAtMost(events, |blocks|);
    forall i | 0 <= i < |blocks| ensures Height(events) > i && BlockAfter(parse, events, i) == blocks[i] {
      OwnBlockIsRebuilt(parse, events, i, blocks[i]);
    }
    ContentIsBlocks(parse, Assemble(parse, events).st, events, blocks);
    FramedStartsFirst(events);
    MessageComesBack(events, m);
  }

  lemma ContentIsBlocks(parse: Parse, st: Assembly, events: seq<Event>, blocks: seq<Meta>)
    requires Holds(parse, st, events) && Height(events) <= |blocks|
    requires forall i | 0 <= i < |blocks| :: Height(events) > i && BlockAfter(parse, events, i) == blocks[i]
    ensures st.content == blocks
  {
    if |blocks| > 0 {
      assert blocks[|blocks| - 1] == BlockAfter(parse, events, |blocks| - 1);
    }
    assert |st.content| == |blocks|;
  }

  lemma OwnBlockIsRebuilt(parse: Parse, events: seq<Event>, i: nat, b: Meta)
    requires Serializes(parse, Own(events, i), i, b)
    ensures Height(events) > i && BlockAfter(parse, events, i) == b
  {
    var ix, base, frags :| IsAt(ix, i) && Splits(parse, b, base, frags) && Own(events, i) == Sent(ix, base, frags);
    OnlyOwnEvents(parse, events, i);
    SentBlockIsRebuilt(parse, ix, i, b, base, frags);
    assert Own(events, i)[0].BlockStart?;
    HeightAtLeast(events, i, 0);
  }

  // ------------------------------------------------------------- the program

  /** accumulateStreamedMessage. */
  method AccumulateStreamedMessage(parse: Parse, events: seq<Event>) returns (r: Outcome)
    ensures r == Close(Assemble(parse, events))
  {
    var st := NOTHING;
    for n := 0 to |events|
      invariant Assemble(parse, events[..n]) == Running(st)
    {
      var e := events[n];
      assert events[..n + 1] == events[..n] + [e];
      AssembleSnoc(parse, events[..n], e);
      if e.ErrorEvent? {
        Settled(parse, events, n + 1);
        return ErrorReturned;
      }
      var next := Accumulate(parse, st, e);
      if next.None? {
        Settled(parse, events, n + 1);
        return Refused;
      }
      st := next.value;
    }
    assert events[..|events|] == events;
    if !st.started || !st.stopped || st.open != {} {
      return Refused;
    }
    return Accepted(st.message, st.content);
  }

  lemma {:induction false} Settled(parse: Parse, events: seq<Event>, n: nat)
    requires n <= |events| && !Assemble(parse, events[..n]).Running?
    ensures Assemble(parse, events) == Assemble(parse, events[..n])
    decreases |events| - n
  {
    if n == |events| {
      assert events[..n] == events;
    } else {
      assert events[..n + 1] == events[..n] + [events[n]];
      AssembleSnoc(parse, events[..n], events[n]);
      Settled(parse, events, n + 1);
    }
  }

  /** The body of its loop, on the local variables it keeps. */
  method Accumulate(parse: Parse, st: Assembly, e: Event) returns (r: Option<Assembly>)
    ensures r == Step(parse, st, e)
  {
    var started, stopped, message, content := st.started, st.stopped, st.message, st.content;
    var open, input := st.open, st.input;
    match e {
      case MessageStart(m) =>
        if started || m.None? {
          return None;
        }
        started := true;
        message := m.value;
        var pre := Prefilled(m.value);
        open := open + UpTo(|content| + |pre|) - UpTo(|content|);
        content := content + pre;
      case BlockStart(ix, b) =>
        var i := BlockIndex(ix);
        if !started || i.None? || i.value in open {
          return None;
        }
        content := Padded(content, i.value + 1);
        content := content[i.value := if b.Some? then b.value else map[]];
        open := open + {i.value};
      case BlockDelta(ix, f) =>
        var i := BlockIndex(ix);
        if !started || i.None? || i.value !in open {
          return None;
        }
        if f.None? {
          return Some(st);
        }
        content := Padded(content, i.value + 1);
        content := content[i.value := AddFrag(content[i.value], f.value)];
        if f.value.InputFrag? {
          var sofar := if i.value in input then input[i.value] else "";
          input := input[i.value := sofar + f.value.s];
        }
      case BlockStop(ix) =>
        var i := BlockIndex(ix);
        if !started || i.None? || i.value !in open {
          return None;
        }
        open := open - {i.value};
        if i.value in input {
          var v := parse(OrEmptyObject(input[i.value]));
          if v.None? {
            return None;
          }
          content := Padded(content, i.value + 1);
          content := content[i.value := content[i.value]["input" := v.value]];
        }
        input := input - {i.value};
      case MessageDelta(_, _, _, _) =>
        if !started {
          return None;
        }
        message := Merged(message, e);
      case MessageStop =>
        if !started {
          return None;
        }
        stopped := true;
      case _ =>
    }
    return Some(Assembly(started, stopped, message, content, open, input));
  }
}
