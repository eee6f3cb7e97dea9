/**
 provider/anthropic/anthropic.go: exactly when the two readers of a message's content agree,
 block by block and in the order of the blocks.
 */
module AnthropicOrder {
  import opened Wrappers
  import opened Provider
  import opened A = AnthropicAssembly
  import opened T = AnthropicTransports

  // ---------------------------------------------------------- one block alone

  /** One block, read from its events and from its document. */
  ghost predicate AloneAlike(parse: Parse, render: Render, s: Script) {
    var c := AfterBlock(NO_LIVE, s).c;
    |c.parts| == |c.texts| && SameParts(parse, Finished(c), DocStep(render, NO_DOC, BlockOf(parse, s)).parts)
  }

  lemma OneBody(s: Script)
    ensures Body([s]) == EventsOf(s)
  {
    assert [s][..0] == [] && Body([s]) == Body([]) + EventsOf(s);
  }

  lemma OneDocument(parse: Parse, render: Render, s: Script)
    ensures DocOf(parse, render, [s]) == DocStep(render, NO_DOC, BlockOf(parse, s))
  {
    DocOfSnoc(parse, render, [], s);
    assert [] + [s] == [s];
  }

  lemma AloneIsStream(parse: Parse, render: Render, m: Meta, s: Script, delta: Event)
    requires Sendable(parse, s) && Prefilled(m) == [] && delta.MessageDelta?
    ensures TransportsAgree(parse, render, StreamOf(m, [s], delta)) <==> AloneAlike(parse, render, s)
  {
    OneBody(s);
    BlockEffect(parse, NO_LIVE, s);
    BlockInThree(NO_LIVE, s);
    LiveOfStream(m, [s], delta);
    DocumentOfStream(parse, render, m, [s], delta);
    LayoutIsReadable(parse, [s]);
    AscendingIsByIndex([s]);
    OneDocument(parse, render, s);
  }

  /** Both readers have one part, this one from the events and that one from the document. */
  lemma OnePart(parse: Parse, i: nat, p: Part, t: string, q: Part)
    ensures var c := Placed(NOTHING_ORDERED, i, p, t);
            |c.parts| == |c.texts|
            && (SameParts(parse, Finished(c), [q]) <==> SamePart(parse, if HasText(p) then p.(text := t) else p, q))
  {
    var c := Placed(NOTHING_ORDERED, i, p, t);
    assert Finished(c)[0] == Shown(c, 0);
  }

  lemma ToolAlone(parse: Parse, render: Render, s: Script)
    requires Sendable(parse, s) && ReadsBack(parse, render, s) && IsToolShape(s.base)
    ensures AloneAlike(parse, render, s) <==> InputAgrees(s)
  {
    var b := BlockOf(parse, s);
    ShapeKept(parse, s);
    KeptField(parse, s, "id");
    KeptField(parse, s, "name");
    InputAlone(parse, render, s);
    var id, name := StrField(b, "id"), StrField(b, "name");
    var p := ToolCallPart(id, name, OrEmptyObject(JoinedOr(s.frags, InputKind)), map[]);
    var q := ToolCallPart(id, name, InputText(render, b), map[]);
    OnePart(parse, s.index, p, "", q);
    assert DocStep(render, NO_DOC, b).parts == [q];
  }

  lemma InputAlone(parse: Parse, render: Render, s: Script)
    requires Sendable(parse, s) && ReadsBack(parse, render, s) && IsToolShape(s.base)
    ensures parse(OrEmptyObject(JoinedOr(s.frags, InputKind))) == parse(InputText(render, BlockOf(parse, s)))
            <==> InputAgrees(s)
  {
    AddFragsGrows(s.base, s.frags);
    assert SameField(AddFrags(s.base, s.frags), s.base, "input");
    if InputAgrees(s) {
      InputOfBlock(parse, s);
    }
  }

  lemma TextAlone(parse: Parse, render: Render, s: Script)
    requires ShapeOf(s.base).TextShape?
    ensures AloneAlike(parse, render, s) <==> BlockAgrees(s)
  {
    ShapeKept(parse, s);
    GrownInBlock(parse, s, TextKind);
    var t := StrField(s.base, "text");
    var u := t + JoinedOr(s.frags, TextKind);
    OnePart(parse, s.index, TextPart(t), u, TextPart(u));
    if u == "" {
      assert DocStep(render, NO_DOC, BlockOf(parse, s)).parts == [];
    } else {
      assert DocStep(render, NO_DOC, BlockOf(parse, s)).parts == [TextPart(u)];
    }
  }

  lemma ThinkingAlone(parse: Parse, render: Render, s: Script)
    requires ShapeOf(s.base).ThinkingShape?
    ensures AloneAlike(parse, render, s) <==> BlockAgrees(s)
  {
    ShapeKept(parse, s);
    GrownInBlock(parse, s, ThinkingKind);
    GrownInBlock(parse, s, SignatureKind);
    var sig := StrField(s.base, "signature");
    OneSignature(sig, s.frags);
    var t := StrField(s.base, "thinking");
    var u := t + JoinedOr(s.frags, ThinkingKind);
    var last, all := LastSignature(sig, s.frags), sig + JoinedOr(s.frags, SignatureKind);
    OnePart(parse, s.index, ReasoningPart(t, ThinkingOptions(last)), u, ReasoningPart(u, ThinkingOptions(all)));
    assert DocStep(render, NO_DOC, BlockOf(parse, s)).parts == [ReasoningPart(u, ThinkingOptions(all))];
    OptionsTellSignature(last, all);
  }

  lemma OptionsTellSignature(a: string, b: string)
    ensures ThinkingOptions(a) == ThinkingOptions(b) <==> a == b
  {
    assert a != "" ==> "signature" in ThinkingOptions(a) && ThinkingOptions(a)["signature"] == Str(a);
    assert b != "" ==> "signature" in ThinkingOptions(b) && ThinkingOptions(b)["signature"] == Str(b);
  }

  lemma RedactedAlone(parse: Parse, render: Render, s: Script)
    requires ShapeOf(s.base).RedactedShape?
    ensures AloneAlike(parse, render, s) <==> BlockAgrees(s)
  {
    ShapeKept(parse, s);
    KeptField(parse, s, "data");
    var p := ReasoningPart("", map["redactedData" := Str(StrField(s.base, "data"))]);
    OnePart(parse, s.index, p, "", p);
    assert DocStep(render, NO_DOC, BlockOf(parse, s)).parts == [p];
  }

  /** A stream of one block is read alike exactly if the block is one they agree on, and its
      strings are strings. */
  lemma OneBlockAgrees(parse: Parse, render: Render, m: Meta, s: Script, delta: Event)
    requires Sends(parse, s) && ReadsBack(parse, render, s) && Prefilled(m) == [] && delta.MessageDelta?
    ensures TransportsAgree(parse, render, StreamOf(m, [s], delta)) <==> Readable(BlockOf(parse, s)) && BlockAgrees(s)
  {
    if Readable(BlockOf(parse, s)) {
      ReadableBlockAgrees(parse, render, m, s, delta);
    } else {
      UnreadableDisagrees(parse, render, m, [s], s, delta);
    }
  }

  lemma ReadableBlockAgrees(parse: Parse, render: Render, m: Meta, s: Script, delta: Event)
    requires Sendable(parse, s) && ReadsBack(parse, render, s) && Prefilled(m) == [] && delta.MessageDelta?
    ensures TransportsAgree(parse, render, StreamOf(m, [s], delta)) <==> BlockAgrees(s)
  {
    AloneIsStream(parse, render, m, s, delta);
    match ShapeOf(s.base)
    case TextShape => TextAlone(parse, render, s);
    case ThinkingShape => ThinkingAlone(parse, render, s);
    case RedactedShape => RedactedAlone(parse, render, s);
    case ToolShape => ToolAlone(parse, render, s);
    case ServerShape => ToolAlone(parse, render, s);
    case _ => ShapeKept(parse, s);
  }

  /** A start event that brings tool input, and no fragments: the events give an empty
      object, the document the input. */
  lemma StartInputDisagrees(parse: Parse, render: Render, m: Meta, s: Script, delta: Event)
    requires Sends(parse, s) && ReadsBack(parse, render, s) && Prefilled(m) == [] && delta.MessageDelta?
    requires ShapeOf(s.base).ToolShape? && s.frags == []
    requires "input" in s.base && s.base["input"] != Obj(map[])
    ensures !TransportsAgree(parse, render, StreamOf(m, [s], delta))
  {
    OneBlockAgrees(parse, render, m, s, delta);
  }

  /** A start event that brings a signature, and a delta that brings another: the events
      give the second, the document both. */
  lemma TwoSignaturesDisagree(parse: Parse, render: Render, m: Meta, s: Script, signature: string, delta: Event)
    requires Sends(parse, s) && ReadsBack(parse, render, s) && Prefilled(m) == [] && delta.MessageDelta?
    requires ShapeOf(s.base).ThinkingShape? && StrField(s.base, "signature") != ""
    requires signature != "" && s.frags == [SignatureFrag(signature)]
    ensures !TransportsAgree(parse, render, StreamOf(m, [s], delta))
  {
    assert s.frags[..0] == [];
    assert Signatures(StrField(s.base, "signature"), s.frags) == 2;
    OneBlockAgrees(parse, render, m, s, delta);
  }

  // ------------------------------------------------------ the order of the blocks

  predicate Distinct(ss: seq<Script>) {
    forall j, k | 0 <= j < k < |ss| :: ss[j].index != ss[k].index
  }

  /** The block shows as a part. */
  predicate Produces(s: Script) {
    !ShapeOf(s.base).ResultShape? && !ShapeOf(s.base).OtherShape?
  }

  function Producing(ss: seq<Script>): seq<Script> {
    if ss == [] then []
    else Producing(ss[..|ss| - 1]) + (if Produces(ss[|ss| - 1]) then [ss[|ss| - 1]] else [])
  }

  lemma {:induction false} ProducingAre(ss: seq<Script>, s: Script)
    ensures s in Producing(ss) <==> s in ss && Produces(s)
  {
    if ss != [] {
      ProducingAre(ss[..|ss| - 1], s);
      assert ss == ss[..|ss| - 1] + [ss[|ss| - 1]];
    }
  }

  lemma {:induction false} ProducingAscends(ss: seq<Script>)
    requires Ascending(ss)
    ensures Ascending(Producing(ss))
  {
    if ss != [] {
      var front, last := ss[..|ss| - 1], ss[|ss| - 1];
      ProducingAscends(front);
      forall k | 0 <= k < |Producing(front)| ensures Producing(front)[k].index < last.index {
        ProducingAre(front, Producing(front)[k]);
        var j :| 0 <= j < |front| && front[j] == Producing(front)[k];
        assert ss[j].index < last.index;
      }
    }
  }

  lemma {:induction false} AtIndexFinds(ss: seq<Script>, i: nat, s: Script)
    requires Distinct(ss)
    ensures AtIndex(ss, i) == Some(s) <==> s in ss && s.index == i
  {
    if ss != [] {
      var front, last := ss[..|ss| - 1], ss[|ss| - 1];
      assert ss == front + [last];
      AtIndexFinds(front, i, s);
      if s in front && last.index == i {
        var j :| 0 <= j < |front| && front[j] == s;
        assert ss[j].index != last.index;
      }
    }
  }

  lemma {:induction false} InOrderAre(ss: seq<Script>, n: nat)
    requires Distinct(ss)
    ensures Ascending(SortedBelow(ss, n)) && forall s :: s in SortedBelow(ss, n) <==> s in ss && s.index < n
  {
    if n > 0 {
      InOrderAre(ss, n - 1);
      forall s ensures AtIndex(ss, n - 1) == Some(s) <==> s in ss && s.index == n - 1 {
        AtIndexFinds(ss, n - 1, s);
      }
      var front := SortedBelow(ss, n - 1);
      forall k | 0 <= k < |front| ensures front[k].index < n - 1 {
        assert front[k] in front;
      }
    }
  }

  /** Sorting by index keeps the blocks. */
  lemma ByIndexAre(ss: seq<Script>)
    requires Distinct(ss) && forall s | s in ss :: s.index <= MAX_BLOCKS
    ensures Ascending(ByIndex(ss)) && forall s :: s in ByIndex(ss) <==> s in ss
  {
    InOrderAre(ss, MAX_BLOCKS + 1);
  }

  lemma SomeIn(a: seq<Script>, b: seq<Script>)
    requires forall s | s in a :: s in b
    ensures a != [] ==> b != []
  {
    if a != [] {
      assert a[0] in a;
    }
  }

  /** The same blocks can ascend in one way only. */
  lemma {:induction false} AscendingIsUnique(a: seq<Script>, b: seq<Script>)
    requires Ascending(a) && Ascending(b) && forall s :: s in a <==> s in b
    ensures a == b
  {
    SomeIn(a, b);
    SomeIn(b, a);
    if a != [] {
      var front, other := a[..|a| - 1], b[..|b| - 1];
      SameLast(a, b, front, other);
      AscendingIsUnique(front, other);
      assert a == front + [a[|a| - 1]] && b == other + [b[|b| - 1]];
    }
  }

  lemma SameLast(a: seq<Script>, b: seq<Script>, front: seq<Script>, other: seq<Script>)
    requires Ascending(a) && Ascending(b) && a != [] && b != [] && forall s :: s in a <==> s in b
    requires front == a[..|a| - 1] && other == b[..|b| - 1]
    ensures a[|a| - 1] == b[|b| - 1] && forall s :: s in front <==> s in other
  {
    var x, y := a[|a| - 1], b[|b| - 1];
    assert x in a && y in b;
    IsLargest(a, y);
    IsLargest(b, x);
    forall s ensures s in front <==> s in other {
      WithoutLast(a, s);
      WithoutLast(b, s);
    }
  }

  lemma IsLargest(a: seq<Script>, s: Script)
    requires Ascending(a) && s in a
    ensures s.index <= a[|a| - 1].index && (s.index == a[|a| - 1].index ==> s == a[|a| - 1])
  {
  }

  lemma WithoutLast(a: seq<Script>, s: Script)
    requires Ascending(a) && a != []
    ensures s in a[..|a| - 1] <==> s in a && s != a[|a| - 1]
  {
    assert a == a[..|a| - 1] + [a[|a| - 1]];
    if s in a[..|a| - 1] {
      var k :| 0 <= k < |a| - 1 && a[k] == s;
      assert s.index < a[|a| - 1].index;
    }
  }

  // ------------------------------------------------------- parts and their blocks

  /** The part a block shows as, its result apart. */
  function PartOf(render: Render, b: Meta): Part {
    match ShapeOf(b)
    case ThinkingShape => ReasoningPart(StrField(b, "thinking"), ThinkingOptions(StrField(b, "signature")))
    case RedactedShape => ReasoningPart("", map["redactedData" := Str(StrField(b, "data"))])
    case ToolShape => ToolCallPart(StrField(b, "id"), StrField(b, "name"), InputText(render, b), map[])
    case ServerShape => ToolCallPart(StrField(b, "id"), StrField(b, "name"), InputText(render, b), map[])
    case _ => TextPart(StrField(b, "text"))
  }

  /** What is left of a part without its result and the text of its input. */
  function Bare(p: Part): Part {
    p.(toolInput := "", options := p.options - {"resultBlock"})
  }

  function WithResult(p: Part, b: Meta): Part {
    p.(options := p.options["resultBlock" := Obj(b)])
  }

  /** One block read, without a look at what kind of block it is. */
  predicate ReadsAs(s: Script, b: Meta, p: Part, d: Doc, e: Doc) {
    if Produces(s) then
      && e.parts == d.parts + [p]
      && e.servers == if ShapeOf(s.base).ServerShape? then d.servers[StrField(s.base, "id") := |d.parts|] else d.servers
    else if ShapeOf(s.base).ResultShape? && StrField(s.base, "tool_use_id") in d.servers
            && d.servers[StrField(s.base, "tool_use_id")] < |d.parts| then
      var id := StrField(s.base, "tool_use_id");
      var n := d.servers[id];
      e == Doc(d.parts[n := WithResult(d.parts[n], b)], d.servers - {id})
    else e == d
  }

  lemma StepReads(parse: Parse, render: Render, d: Doc, s: Script)
    requires GoodScript(parse, s)
    ensures var b := BlockOf(parse, s);
            ReadsAs(s, b, PartOf(render, b), d, DocStep(render, d, b))
  {
    var b := BlockOf(parse, s);
    ShapeKept(parse, s);
    KeptField(parse, s, "id");
    KeptField(parse, s, "data");
    KeptField(parse, s, "tool_use_id");
    GrownInBlock(parse, s, TextKind);
  }

  /** The results that the document attaches, in an order: every call has one at most, after it. */
  ghost predicate ResultsFollow(ss: seq<Script>) {
    && (forall a, b | a in ss && b in ss && IsToolShape(a.base) && IsToolShape(b.base) ::
          StrField(a.base, "id") == StrField(b.base, "id") ==> a == b)
    && (forall a, b | a in ss && b in ss && ShapeOf(a.base).ResultShape? && ShapeOf(b.base).ResultShape? ::
          StrField(a.base, "tool_use_id") == StrField(b.base, "tool_use_id") ==> a == b)
    && (forall j, k | 0 <= j < |ss| && 0 <= k < |ss| && IsResultOf(ss[k], ss[j]) :: j < k)
  }

  predicate IsResultOf(r: Script, s: Script) {
    && ShapeOf(s.base).ServerShape? && ShapeOf(r.base).ResultShape?
    && StrField(s.base, "id") == StrField(r.base, "tool_use_id")
  }

  function ResultFor(parse: Parse, ss: seq<Script>, id: string): Option<Meta> {
    if ss == [] then None
    else
      var r := ss[|ss| - 1];
      if IsFor(r, id) then Some(BlockOf(parse, r))
      else ResultFor(parse, ss[..|ss| - 1], id)
  }

  /** A part without its result, and the call it makes if a result may follow it. */
  datatype Entry = Entry(part: Part, call: Option<string>)

  function EntryOf(parse: Parse, render: Render, s: Script): Entry {
    Entry(PartOf(render, BlockOf(parse, s)),
          if ShapeOf(s.base).ServerShape? then Some(StrField(s.base, "id")) else None)
  }

  function Entries(parse: Parse, render: Render, ss: seq<Script>): seq<Entry> {
    if ss == [] then []
    else Entries(parse, render, ss[..|ss| - 1]) + [EntryOf(parse, render, ss[|ss| - 1])]
  }

  type Results = string -> Option<Meta>

  function Full(entry: Entry, results: Results): Part {
    if entry.call.Some? && results(entry.call.value).Some? then WithResult(entry.part, results(entry.call.value).value)
    else entry.part
  }

  /** What is known when these entries have been read and these results attached: the parts,
      and where the calls are that still wait for one. */
  ghost predicate Tells(entries: seq<Entry>, results: Results, d: Doc) {
    && |d.parts| == |entries|
    && (forall n | 0 <= n < |entries| :: d.parts[n] == Full(entries[n], results))
    && (forall id | id in d.servers ::
          d.servers[id] < |entries| && entries[d.servers[id]].call == Some(id) && results(id).None?)
    && (forall n | 0 <= n < |entries| && entries[n].call.Some? && results(entries[n].call.value).None? ::
          entries[n].call.value in d.servers)
  }

  lemma TellsPart(entries: seq<Entry>, results: Results, more: Results, d: Doc, entry: Entry)
    requires Tells(entries, results, d) && forall id :: more(id) == results(id)
    requires entry.call.Some? ==>
               results(entry.call.value).None? && forall n | 0 <= n < |entries| :: entries[n].call != entry.call
    ensures Tells(entries + [entry], more,
                  Doc(d.parts + [entry.part],
                      if entry.call.Some? then d.servers[entry.call.value := |d.parts|] else d.servers))
  {
  }

  predicate CallsApart(entries: seq<Entry>) {
    forall j, k | 0 <= j < k < |entries| && entries[j].call.Some? :: entries[j].call != entries[k].call
  }

  lemma TellsResult(entries: seq<Entry>, results: Results, more: Results, d: Doc, use: string, b: Meta)
    requires Tells(entries, results, d) && results(use).None?
    requires forall id :: more(id) == if id == use then Some(b) else results(id)
    requires CallsApart(entries)
    ensures Tells(entries, more, Attached(d, use, b))
  {
  }

  lemma ResultSnoc(parse: Parse, ss: seq<Script>, s: Script, id: string)
    ensures ResultFor(parse, ss + [s], id)
            == if IsFor(s, id) then Some(BlockOf(parse, s)) else ResultFor(parse, ss, id)
  {
    assert (ss + [s])[..|ss|] == ss;
  }

  lemma ProducingSnoc(ss: seq<Script>, s: Script)
    ensures Producing(ss + [s]) == Producing(ss) + (if Produces(s) then [s] else [])
  {
    assert (ss + [s])[..|ss|] == ss;
  }

  /** The block is a result for this call. */
  predicate IsFor(r: Script, id: string) {
    ShapeOf(r.base).ResultShape? && StrField(r.base, "tool_use_id") == id
  }

  lemma {:induction false} ResultIs(parse: Parse, ss: seq<Script>, id: string)
    ensures ResultFor(parse, ss, id).Some? ==>
              exists r :: r in ss && IsFor(r, id) && ResultFor(parse, ss, id) == Some(BlockOf(parse, r))
    ensures ResultFor(parse, ss, id).None? ==> forall r | r in ss :: !IsFor(r, id)
  {
    if ss != [] {
      var front, s := ss[..|ss| - 1], ss[|ss| - 1];
      ResultIs(parse, front, id);
      assert ss == front + [s] && s in ss && forall x | x in front :: x in ss;
    }
  }

  /** No result of this call yet. */
  lemma NoResultYet(parse: Parse, front: seq<Script>, s: Script)
    requires ResultsFollow(front + [s]) && ShapeOf(s.base).ServerShape?
    ensures ResultFor(parse, front, StrField(s.base, "id")).None?
  {
    var all := front + [s];
    ResultIs(parse, front, StrField(s.base, "id"));
    forall r | r in front ensures !IsFor(r, StrField(s.base, "id")) {
      var k :| 0 <= k < |front| && front[k] == r;
      assert all[k] == r && all[|front|] == s;
      assert IsResultOf(all[k], all[|front|]) ==> |front| < k;
    }
  }

  /** No earlier result for the same call. */
  lemma NoResultBefore(parse: Parse, front: seq<Script>, r: Script)
    requires ResultsFollow(front + [r]) && ShapeOf(r.base).ResultShape? && r !in front
    ensures ResultFor(parse, front, StrField(r.base, "tool_use_id")).None?
  {
    var id := StrField(r.base, "tool_use_id");
    ResultIs(parse, front, id);
    assert r in front + [r] && forall x | x in front :: x in front + [r];
  }

  lemma FollowsBefore(front: seq<Script>, s: Script)
    requires ResultsFollow(front + [s])
    ensures ResultsFollow(front)
  {
    var all := front + [s];
    assert forall x | x in front :: x in all;
    forall j, k | 0 <= j < |front| && 0 <= k < |front| && IsResultOf(front[k], front[j]) ensures j < k {
      assert all[k] == front[k] && all[j] == front[j];
    }
  }

  /** Results so far, as a function. */
  function ResultsOf(parse: Parse, ss: seq<Script>): Results {
    id => ResultFor(parse, ss, id)
  }

  lemma {:induction false} EntriesAre(parse: Parse, render: Render, ss: seq<Script>, n: nat)
    requires n < |ss|
    ensures |Entries(parse, render, ss)| == |ss| && Entries(parse, render, ss)[n] == EntryOf(parse, render, ss[n])
  {
    if |ss| > 1 {
      EntriesAre(parse, render, ss[..|ss| - 1], if n < |ss| - 1 then n else 0);
    }
  }

  lemma EntriesSnoc(parse: Parse, render: Render, ss: seq<Script>, s: Script)
    ensures Entries(parse, render, ss + [s]) == Entries(parse, render, ss) + [EntryOf(parse, render, s)]
  {
    assert (ss + [s])[..|ss|] == ss;
  }

  lemma {:induction false} ProducingDistinct(ss: seq<Script>)
    requires Distinct(ss)
    ensures Distinct(Producing(ss))
  {
    if ss != [] {
      var front, last := ss[..|ss| - 1], ss[|ss| - 1];
      ProducingDistinct(front);
      forall k | 0 <= k < |Producing(front)| ensures Producing(front)[k].index != last.index {
        ProducingAre(front, Producing(front)[k]);
        var j :| 0 <= j < |front| && front[j] == Producing(front)[k];
        assert ss[j].index != last.index;
      }
    }
  }

  /** Two calls in one stream have two ids. */
  lemma OneCall(parse: Parse, render: Render, ss: seq<Script>, j: nat, k: nat)
    requires ResultsFollow(ss) && Distinct(ss) && j < k < |Producing(ss)|
    ensures var entries := Entries(parse, render, Producing(ss));
            |entries| == |Producing(ss)| && (entries[j].call.Some? ==> entries[j].call != entries[k].call)
  {
    var ps := Producing(ss);
    EntriesAre(parse, render, ps, j);
    EntriesAre(parse, render, ps, k);
    ProducingDistinct(ss);
    ProducingAre(ss, ps[j]);
    ProducingAre(ss, ps[k]);
    assert ps[j] in ps && ps[k] in ps;
  }

  ghost predicate Told(parse: Parse, render: Render, ss: seq<Script>, d: Doc) {
    Tells(Entries(parse, render, Producing(ss)), ResultsOf(parse, ss), d)
  }

  lemma PartTold(parse: Parse, render: Render, front: seq<Script>, s: Script, d: Doc, e: Doc)
    requires Told(parse, render, front, d) && ResultsFollow(front + [s]) && Distinct(front + [s]) && Produces(s)
    requires ReadsAs(s, BlockOf(parse, s), PartOf(render, BlockOf(parse, s)), d, e)
    ensures Told(parse, render, front + [s], e)
  {
    ProducingSnoc(front, s);
    EntriesSnoc(parse, render, Producing(front), s);
    forall id ensures ResultsOf(parse, front + [s])(id) == ResultsOf(parse, front)(id) {
      ResultSnoc(parse, front, s, id);
    }
    if ShapeOf(s.base).ServerShape? {
      NewCall(parse, render, front, s);
    }
    var entries := Entries(parse, render, Producing(front));
    TellsPart(entries, ResultsOf(parse, front), ResultsOf(parse, front + [s]), d, EntryOf(parse, render, s));
  }

  /** What a result does, said of the call it names. */
  function Attached(d: Doc, use: string, b: Meta): Doc {
    if use in d.servers && d.servers[use] < |d.parts|
    then Doc(d.parts[d.servers[use] := WithResult(d.parts[d.servers[use]], b)], d.servers - {use}) else d
  }

  lemma ResultReads(s: Script, b: Meta, p: Part, d: Doc, e: Doc, use: string)
    requires ReadsAs(s, b, p, d, e) && ShapeOf(s.base).ResultShape? && use == StrField(s.base, "tool_use_id")
    ensures e == Attached(d, use, b)
  {
  }

  lemma SameEntries(front: seq<Script>, s: Script)
    requires ShapeOf(s.base).ResultShape? || ShapeOf(s.base).OtherShape?
    ensures Producing(front + [s]) == Producing(front)
  {
    ProducingSnoc(front, s);
    assert Producing(front) + [] == Producing(front);
  }

  lemma ResultsGrow(parse: Parse, front: seq<Script>, s: Script, use: string)
    requires ShapeOf(s.base).ResultShape? && use == StrField(s.base, "tool_use_id")
    ensures forall id :: ResultsOf(parse, front + [s])(id)
                         == if id == use then Some(BlockOf(parse, s)) else ResultsOf(parse, front)(id)
  {
    forall id
      ensures ResultsOf(parse, front + [s])(id)
              == if id == use then Some(BlockOf(parse, s)) else ResultsOf(parse, front)(id)
    {
      ResultSnoc(parse, front, s, id);
    }
  }

  lemma ResultTold(parse: Parse, render: Render, front: seq<Script>, s: Script, d: Doc, e: Doc)
    requires Told(parse, render, front, d) && ResultsFollow(front + [s]) && Distinct(front + [s])
    requires ShapeOf(s.base).ResultShape? && ReadsAs(s, BlockOf(parse, s), PartOf(render, BlockOf(parse, s)), d, e)
    ensures Told(parse, render, front + [s], e)
  {
    SameEntries(front, s);
    AttachedTold(parse, render, front, s, d, StrField(s.base, "tool_use_id"));
    ResultReads(s, BlockOf(parse, s), PartOf(render, BlockOf(parse, s)), d, e, StrField(s.base, "tool_use_id"));
  }

  lemma AttachedTold(parse: Parse, render: Render, front: seq<Script>, s: Script, d: Doc, use: string)
    requires Told(parse, render, front, d) && ResultsFollow(front + [s]) && Distinct(front + [s])
    requires ShapeOf(s.base).ResultShape? && use == StrField(s.base, "tool_use_id")
    ensures Tells(Entries(parse, render, Producing(front)), ResultsOf(parse, front + [s]),
                  Attached(d, use, BlockOf(parse, s)))
  {
    ResultsGrow(parse, front, s, use);
    OldCalls(parse, render, front, s, use);
    TellsResult(Entries(parse, render, Producing(front)), ResultsOf(parse, front), ResultsOf(parse, front + [s]), d,
                use, BlockOf(parse, s));
  }

  lemma OtherTold(parse: Parse, render: Render, front: seq<Script>, s: Script, d: Doc)
    requires Told(parse, render, front, d) && ShapeOf(s.base).OtherShape?
    ensures Told(parse, render, front + [s], d)
  {
    SameEntries(front, s);
    forall id ensures ResultsOf(parse, front + [s])(id) == ResultsOf(parse, front)(id) {
      ResultSnoc(parse, front, s, id);
    }
    SameResultsTell(Entries(parse, render, Producing(front)), ResultsOf(parse, front), ResultsOf(parse, front + [s]),
                    d);
  }

  lemma SameResultsTell(entries: seq<Entry>, results: Results, more: Results, d: Doc)
    requires Tells(entries, results, d) && forall id :: more(id) == results(id)
    ensures Tells(entries, more, d)
  {
  }

  lemma StepTells(parse: Parse, render: Render, front: seq<Script>, s: Script, d: Doc)
    requires GoodScript(parse, s) && ResultsFollow(front + [s]) && Distinct(front + [s])
    requires Told(parse, render, front, d)
    ensures Told(parse, render, front + [s], DocStep(render, d, BlockOf(parse, s)))
  {
    var e := DocStep(render, d, BlockOf(parse, s));
    StepReads(parse, render, d, s);
    if Produces(s) {
      PartTold(parse, render, front, s, d, e);
    } else if ShapeOf(s.base).ResultShape? {
      ResultTold(parse, render, front, s, d, e);
    } else {
      OtherTold(parse, render, front, s, d);
    }
  }

  lemma NotInFront(front: seq<Script>, s: Script)
    requires Distinct(front + [s])
    ensures s !in front && Distinct(front)
  {
    var all := front + [s];
    forall j | 0 <= j < |front| ensures front[j].index != s.index { assert all[j].index != all[|front|].index; }
    forall j, k | 0 <= j < k < |front| ensures front[j].index != front[k].index { assert all[j].index != all[k].index; }
  }

  lemma NewCall(parse: Parse, render: Render, front: seq<Script>, s: Script)
    requires ResultsFollow(front + [s]) && Distinct(front + [s]) && ShapeOf(s.base).ServerShape?
    ensures ResultFor(parse, front, StrField(s.base, "id")).None?
    ensures var entries := Entries(parse, render, Producing(front));
            forall n | 0 <= n < |entries| :: entries[n].call != Some(StrField(s.base, "id"))
  {
    var ps := Producing(front);
    NoResultYet(parse, front, s);
    NotInFront(front, s);
    forall n | 0 <= n < |Entries(parse, render, ps)|
      ensures Entries(parse, render, ps)[n].call != Some(StrField(s.base, "id"))
    {
      EntryCount(parse, render, ps);
      EntriesAre(parse, render, ps, n);
      ProducingAre(front, ps[n]);
      assert ps[n] in ps && s in front + [s] && forall x | x in front :: x in front + [s];
    }
  }

  lemma EntryCount(parse: Parse, render: Render, ss: seq<Script>)
    ensures |Entries(parse, render, ss)| == |ss|
  {
    if ss != [] {
      EntriesAre(parse, render, ss, 0);
    }
  }

  lemma OldCalls(parse: Parse, render: Render, front: seq<Script>, r: Script, use: string)
    requires ResultsFollow(front + [r]) && Distinct(front + [r])
    requires ShapeOf(r.base).ResultShape? && use == StrField(r.base, "tool_use_id")
    ensures ResultFor(parse, front, use).None?
    ensures CallsApart(Entries(parse, render, Producing(front)))
  {
    NotInFront(front, r);
    NoResultBefore(parse, front, r);
    FollowsBefore(front, r);
    AllApart(parse, render, front);
  }

  lemma AllApart(parse: Parse, render: Render, ss: seq<Script>)
    requires ResultsFollow(ss) && Distinct(ss)
    ensures CallsApart(Entries(parse, render, Producing(ss)))
  {
    EntryCount(parse, render, Producing(ss));
    forall j, k | 0 <= j < k < |Entries(parse, render, Producing(ss))|
      ensures var entries := Entries(parse, render, Producing(ss));
              entries[j].call.Some? ==> entries[j].call != entries[k].call
    {
      OneCall(parse, render, ss, j, k);
    }
  }

  /** The parts of a document with the blocks in this order. */
  lemma {:induction false} DocTells(parse: Parse, render: Render, ss: seq<Script>)
    requires (forall s | s in ss :: GoodScript(parse, s)) && ResultsFollow(ss) && Distinct(ss)
    ensures Told(parse, render, ss, DocOf(parse, render, ss))
  {
    if ss != [] {
      var front, s := ss[..|ss| - 1], ss[|ss| - 1];
      assert ss == front + [s] && s in ss && forall x | x in front :: x in ss;
      FollowsBefore(front, s);
      NotInFront(front, s);
      DocTells(parse, render, front);
      NextTells(parse, render, front, s);
    }
  }

  lemma NextTells(parse: Parse, render: Render, front: seq<Script>, s: Script)
    requires GoodScript(parse, s) && ResultsFollow(front + [s]) && Distinct(front + [s])
    requires Told(parse, render, front, DocOf(parse, render, front))
    ensures Told(parse, render, front + [s], DocOf(parse, render, front + [s]))
  {
    DocOfSnoc(parse, render, front, s);
    StepTells(parse, render, front, s, DocOf(parse, render, front));
  }

  // ------------------------------------------------------------- main result

  /** The blocks that show, no two of which show as the same part, results apart. */
  ghost predicate PartsDiffer(parse: Parse, render: Render, ss: seq<Script>) {
    var ps := Producing(ss);
    forall j, k | 0 <= j < k < |ps| ::
      Bare(PartOf(render, BlockOf(parse, ps[j]))) != Bare(PartOf(render, BlockOf(parse, ps[k])))
  }

  /** Results come after their calls by index too. */
  predicate ResultsFollowByIndex(ss: seq<Script>) {
    forall s, r | s in ss && r in ss && IsResultOf(r, s) :: s.index < r.index
  }

  lemma SortedFollows(ss: seq<Script>)
    requires ResultsFollow(ss) && ResultsFollowByIndex(ss) && Distinct(ss)
    requires forall s | s in ss :: s.index <= MAX_BLOCKS
    ensures ResultsFollow(ByIndex(ss)) && Distinct(ByIndex(ss))
  {
    ByIndexAre(ss);
    OrderFollows(ss, ByIndex(ss));
  }

  lemma Later(io: seq<Script>, j: nat, k: nat)
    requires Ascending(io) && j < |io| && k < |io| && io[j].index < io[k].index
    ensures j < k
  {
  }

  lemma OrderFollows(ss: seq<Script>, io: seq<Script>)
    requires ResultsFollow(ss) && ResultsFollowByIndex(ss) && Ascending(io) && forall s :: s in io <==> s in ss
    ensures ResultsFollow(io) && Distinct(io)
  {
    forall j, k | 0 <= j < |io| && 0 <= k < |io| && IsResultOf(io[k], io[j]) ensures j < k {
      assert io[j] in io && io[k] in io && io[j].index < io[k].index;
      Later(io, j, k);
    }
  }

  lemma SameResults(parse: Parse, ss: seq<Script>, other: seq<Script>, id: string)
    requires ResultsFollow(ss) && forall s :: s in other <==> s in ss
    ensures ResultFor(parse, ss, id) == ResultFor(parse, other, id)
  {
    ResultIs(parse, ss, id);
    ResultIs(parse, other, id);
  }

  /** The same results on the same producing blocks make the same parts. */
  lemma SameDocument(parse: Parse, render: Render, ss: seq<Script>, other: seq<Script>, d: Doc, e: Doc)
    requires Told(parse, render, ss, d) && Told(parse, render, other, e) && Producing(ss) == Producing(other)
    requires forall id :: ResultFor(parse, ss, id) == ResultFor(parse, other, id)
    ensures d.parts == e.parts
  {
    var entries := Entries(parse, render, Producing(ss));
    assert forall id :: ResultsOf(parse, ss)(id) == ResultsOf(parse, other)(id);
    forall n | 0 <= n < |entries| ensures d.parts[n] == e.parts[n] {
      assert Full(entries[n], ResultsOf(parse, ss)) == Full(entries[n], ResultsOf(parse, other));
    }
  }

  lemma BareOfFull(entry: Entry, results: Results)
    ensures Bare(Full(entry, results)) == Bare(entry.part)
  {
  }

  /** Blocks at the same place in two alike documents show as the same bare part. */
  lemma SameBare(parse: Parse, render: Render, ss: seq<Script>, other: seq<Script>, d: Doc, e: Doc, n: nat)
    requires Told(parse, render, ss, d) && Told(parse, render, other, e) && SameParts(parse, d.parts, e.parts)
    requires n < |Producing(ss)|
    ensures n < |Producing(other)|
            && Bare(PartOf(render, BlockOf(parse, Producing(ss)[n])))
               == Bare(PartOf(render, BlockOf(parse, Producing(other)[n])))
  {
    var ps, qs := Producing(ss), Producing(other);
    EntryCount(parse, render, ps);
    EntryCount(parse, render, qs);
    EntriesAre(parse, render, ps, n);
    EntriesAre(parse, render, qs, n);
    BareOfFull(Entries(parse, render, ps)[n], ResultsOf(parse, ss));
    BareOfFull(Entries(parse, render, qs)[n], ResultsOf(parse, other));
    assert SamePart(parse, d.parts[n], e.parts[n]);
  }

  lemma AlikeIsSameBlocks(parse: Parse, render: Render, ss: seq<Script>, other: seq<Script>, d: Doc, e: Doc)
    requires Told(parse, render, ss, d) && Told(parse, render, other, e) && SameParts(parse, d.parts, e.parts)
    requires PartsDiffer(parse, render, ss) && forall s :: s in other <==> s in ss
    ensures Producing(ss) == Producing(other)
  {
    var ps, qs := Producing(ss), Producing(other);
    EntryCount(parse, render, ps);
    EntryCount(parse, render, qs);
    assert |ps| == |qs|;
    forall n | 0 <= n < |ps| ensures ps[n] == qs[n] {
      SameBare(parse, render, ss, other, d, e, n);
      assert qs[n] in qs;
      ProducingAre(other, qs[n]);
      ProducingAre(ss, qs[n]);
      var m :| 0 <= m < |ps| && ps[m] == qs[n];
      assert m == n;
    }
  }

  /** For distinct indexes: where the blocks that show differ, the two transports agree
      exactly if those blocks are sent in ascending order. */
  lemma AgreeIffAscending(parse: Parse, render: Render, m: Meta, ss: seq<Script>, delta: Event)
    requires GoodStream(parse, ss) && Distinct(ss) && ResultsFollow(ss) && ResultsFollowByIndex(ss)
    requires AllReadBack(parse, render, ss) && PartsDiffer(parse, render, ss)
    requires Prefilled(m) == [] && delta.MessageDelta?
    ensures TransportsAgree(parse, render, StreamOf(m, ss, delta)) <==> Ascending(Producing(ss))
  {
    GoodAreSendable(parse, ss);
    AgreeAsDocuments(parse, render, m, ss, delta);
    ByIndexAre(ss);
    SortedFollows(ss);
    SameOrNot(parse, render, ss, ByIndex(ss));
  }

  lemma SameOrNot(parse: Parse, render: Render, ss: seq<Script>, io: seq<Script>)
    requires (forall s | s in ss :: GoodScript(parse, s)) && PartsDiffer(parse, render, ss)
    requires Ascending(io) && (forall s :: s in io <==> s in ss)
    requires ResultsFollow(ss) && Distinct(ss) && ResultsFollow(io) && Distinct(io)
    ensures SameParts(parse, DocOf(parse, render, ss).parts, DocOf(parse, render, io).parts)
            <==> Ascending(Producing(ss))
  {
    var d, e := DocOf(parse, render, ss), DocOf(parse, render, io);
    DocTells(parse, render, ss);
    DocTells(parse, render, io);
    ProducingAscends(io);
    if SameParts(parse, d.parts, e.parts) {
      AlikeIsSameBlocks(parse, render, ss, io, d, e);
    }
    if Ascending(Producing(ss)) {
      forall s ensures s in Producing(ss) <==> s in Producing(io) {
        ProducingAre(ss, s);
        ProducingAre(io, s);
      }
      AscendingIsUnique(Producing(ss), Producing(io));
      forall id ensures ResultFor(parse, ss, id) == ResultFor(parse, io, id) { SameResults(parse, ss, io, id); }
      SameDocument(parse, render, ss, io, d, e);
      SameAsItself(parse, d.parts);
    }
  }

  function TextScript(i: nat, t: string): Script {
    Script(i, map["type" := Str("text"), "text" := Str(t)], [])
  }

  /** For one, two different texts sent with falling indexes. */
  lemma FallingIndexesDisagree(parse: Parse, render: Render, t: string, u: string, delta: Event)
    requires t != "" && u != "" && t != u && delta.MessageDelta?
    requires parse("{}") == Some(Obj(map[])) && parse("").None?
    ensures !TransportsAgree(parse, render, StreamOf(map[], [TextScript(1, t), TextScript(0, u)], delta))
  {
    var a, b := TextScript(1, t), TextScript(0, u);
    TwoTexts(parse, render, a, b, t, u);
    AgreeIffAscending(parse, render, map[], [a, b], delta);
  }

  /** A block with a text and nothing more. */
  lemma OneText(parse: Parse, render: Render, s: Script, i: nat, t: string)
    requires t != "" && s == TextScript(i, t) && i <= MAX_BLOCKS
    requires parse("{}") == Some(Obj(map[])) && parse("").None?
    ensures GoodScript(parse, s) && ReadsBack(parse, render, s) && ShapeOf(s.base).TextShape?
    ensures Bare(PartOf(render, BlockOf(parse, s))).text == t
  {
    assert t + JoinedOr([], TextKind) == t;
    ShapeKept(parse, s);
    GrownInBlock(parse, s, TextKind);
  }

  lemma TwoTexts(parse: Parse, render: Render, a: Script, b: Script, t: string, u: string)
    requires t != "" && u != "" && t != u && a == TextScript(1, t) && b == TextScript(0, u)
    requires parse("{}") == Some(Obj(map[])) && parse("").None?
    ensures GoodStream(parse, [a, b]) && Distinct([a, b]) && ResultsFollow([a, b]) && ResultsFollowByIndex([a, b])
    ensures AllReadBack(parse, render, [a, b]) && PartsDiffer(parse, render, [a, b]) && !Ascending(Producing([a, b]))
  {
    OneText(parse, render, a, 1, t);
    OneText(parse, render, b, 0, u);
    BothTexts(a, b);
    TwoDiffer(parse, render, a, b);
    TwoAreGood(parse, a, b);
  }

  lemma TwoDiffer(parse: Parse, render: Render, a: Script, b: Script)
    requires Producing([a, b]) == [a, b]
    requires Bare(PartOf(render, BlockOf(parse, a))).text != Bare(PartOf(render, BlockOf(parse, b))).text
    ensures PartsDiffer(parse, render, [a, b])
  {
  }

  lemma TwoAreGood(parse: Parse, a: Script, b: Script)
    requires GoodScript(parse, a) && GoodScript(parse, b) && ShapeOf(a.base).TextShape? && ShapeOf(b.base).TextShape?
    ensures GoodStream(parse, [a, b])
  {
    assert [a, b][..1] == [a] && [a][..0] == [];
  }

  lemma BothTexts(a: Script, b: Script)
    requires ShapeOf(a.base).TextShape? && ShapeOf(b.base).TextShape? && a.index > b.index
    ensures Producing([a, b]) == [a, b] && !Ascending([a, b]) && ResultsFollow([a, b]) && ResultsFollowByIndex([a, b])
  {
    assert [] + [a] == [a] && [a] + [b] == [a, b];
    ProducingSnoc([], a);
    ProducingSnoc([a], b);
    assert [a, b][0].index > [a, b][1].index;
  }
}
