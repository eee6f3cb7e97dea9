/**
 generate.go, reasoningAccumulator: the segmentation of a stream of reasoning chunks
 into parts.
 */
module Reasoning {
  import opened Wrappers
  import opened Provider

  datatype Chunk = Chunk(text: string, meta: Meta)

  datatype Acc = Acc(parts: seq<Part>, current: Option<Part>, key: string)

  const EMPTY: Acc := Acc([], None, "")

  function KeyNamed(meta: Meta, name: string): Option<string> {
    match Lookup(meta, name)
    case Str(s) => if s != "" then Some(name + ":" + s) else None
    case _ => None
  }

  /** reasoningBoundaryKey: the first of three names that identifies the block. */
  function BoundaryKey(meta: Meta): Option<string> {
    if KeyNamed(meta, "reasoningId").Some? then KeyNamed(meta, "reasoningId")
    else if KeyNamed(meta, "blockId").Some? then KeyNamed(meta, "blockId")
    else KeyNamed(meta, "itemId")
  }

  function Signature(meta: Meta): Option<string> {
    match Lookup(meta, "signature")
    case Str(s) => Some(s)
    case _ => None
  }

  predicate SignatureChanged(old_: Meta, new_: Meta) {
    var o, n := Signature(old_), Signature(new_);
    o.Some? && n.Some? && o.value != "" && n.value != "" && o.value != n.value
  }

  predicate SignaturePresenceChanged(old_: Meta, new_: Meta) {
    Signature(old_).Some? != Signature(new_).Some?
  }

  predicate BoundaryChanged(current: Part, currentKey: string, incoming: Option<string>, c: Chunk) {
    if currentKey != "" && incoming.Some? && currentKey != incoming.value then true
    else if c.text == "" then false
    else if (currentKey == "" && incoming.Some?) || (currentKey != "" && incoming.None?) then current.text != ""
    else SignatureChanged(current.options, c.meta) || SignaturePresenceChanged(current.options, c.meta)
  }

  function Flush(a: Acc): Acc {
    match a.current
    case None => a
    case Some(p) =>
      Acc(if p.text != "" || p.options != map[] then a.parts + [p] else a.parts, None, "")
  }

  /** Chunk metadata over what the part has, the citation source left out. */
  function Merge(options: Meta, meta: Meta): Meta {
    options + (meta - {"source"})
  }

  function Add(a: Acc, c: Chunk): Acc {
    var key := BoundaryKey(c.meta);
    var b := if a.current.Some? && BoundaryChanged(a.current.value, a.key, key, c) then Flush(a) else a;
    var cur := if b.current.Some? then b.current.value else ReasoningPart("", map[]);
    var k := if b.current.Some? then b.key else if key.Some? then key.value else "";
    b.(current := Some(cur.(text := cur.text + c.text, options := Merge(cur.options, c.meta))), key := k)
  }

  function Finish(a: Acc): seq<Part> {
    Flush(a).parts
  }

  function TextOf(parts: seq<Part>): string {
    if parts == [] then "" else TextOf(parts[..|parts| - 1]) + parts[|parts| - 1].text
  }

  // ------------------------------------------------------- nothing is lost

  function Held(a: Acc): string {
    TextOf(a.parts) + (if a.current.Some? then a.current.value.text else "")
  }

  datatype Op = AddChunk(c: Chunk) | FlushNow

  function Run(a: Acc, ops: seq<Op>): Acc {
    if ops == [] then a
    else
      var b := Run(a, ops[..|ops| - 1]);
      match ops[|ops| - 1]
      case AddChunk(c) => Add(b, c)
      case FlushNow => Flush(b)
  }

  function Texts(ops: seq<Op>): string {
    if ops == [] then ""
    else Texts(ops[..|ops| - 1]) + (match ops[|ops| - 1] case AddChunk(c) => c.text case FlushNow => "")
  }

  lemma FlushHolds(a: Acc)
    ensures Held(Flush(a)) == Held(a) && Flush(a).current.None?
  {
    match a.current
    case None =>
    case Some(p) =>
      assert (a.parts + [p])[..|a.parts|] == a.parts;
  }

  lemma AddHolds(a: Acc, c: Chunk)
    ensures Held(Add(a, c)) == Held(a) + c.text
  {
    FlushHolds(a);
  }

  /** However chunks and flushes are interleaved, the parts' texts concatenate to all the
      chunks' texts. */
  lemma {:induction false} RunKeepsText(a: Acc, ops: seq<Op>)
    ensures Held(Run(a, ops)) == Held(a) + Texts(ops)
    ensures TextOf(Finish(Run(a, ops))) == Held(a) + Texts(ops)
  {
    if ops == [] {
      assert Held(a) + "" == Held(a);
    } else {
      var front := ops[..|ops| - 1];
      RunKeepsText(a, front);
      match ops[|ops| - 1]
      case AddChunk(c) =>
        AddHolds(Run(a, front), c);
        assert Held(a) + Texts(front) + c.text == Held(a) + (Texts(front) + c.text);
      case FlushNow =>
        FlushHolds(Run(a, front));
        assert Texts(front) + "" == Texts(front);
    }
    FlushHolds(Run(a, ops));
  }

  // -------------------------------------------------------- keyed blocks

  /** Text chunks of one key, then possibly its signature. */
  datatype Block = Block(key: string, texts: seq<Chunk>, signature: Option<Chunk>)

  function Chunks(b: Block): seq<Chunk> {
    b.texts + (if b.signature.Some? then [b.signature.value] else [])
  }

  predicate Keyed(b: Block) {
    && b.key != ""
    && (forall c | c in Chunks(b) :: BoundaryKey(c.meta) == Some(b.key))
    && (forall c | c in b.texts :: Signature(c.meta).None?)
    && (b.signature.Some? ==> b.signature.value.text == "" && Signature(b.signature.value.meta).Some?)
  }

  function ChunkText(cs: seq<Chunk>): string {
    if cs == [] then "" else ChunkText(cs[..|cs| - 1]) + cs[|cs| - 1].text
  }

  function ChunkOptions(cs: seq<Chunk>): Meta {
    if cs == [] then map[] else Merge(ChunkOptions(cs[..|cs| - 1]), cs[|cs| - 1].meta)
  }

  /** The part a block should become: its own text and its own options. */
  function BlockPart(b: Block): Part {
    ReasoningPart(ChunkText(Chunks(b)), ChunkOptions(Chunks(b)))
  }

  function BlockParts(bs: seq<Block>): seq<Part> {
    if bs == [] then []
    else BlockParts(bs[..|bs| - 1]) + [BlockPart(bs[|bs| - 1])]
  }

  function AddAll(a: Acc, cs: seq<Chunk>): Acc {
    if cs == [] then a else Add(AddAll(a, cs[..|cs| - 1]), cs[|cs| - 1])
  }

  function AddBlocks(bs: seq<Block>): Acc {
    if bs == [] then EMPTY else AddAll(AddBlocks(bs[..|bs| - 1]), Chunks(bs[|bs| - 1]))
  }

  /** Non-empty blocks, neighbours with different keys. */
  predicate Separated(bs: seq<Block>) {
    && (forall b | b in bs :: Keyed(b) && Chunks(b) != [])
    && (forall i | 0 < i < |bs| :: bs[i - 1].key != bs[i].key)
  }

  lemma AddToSame(a: Acc, c: Chunk, key: string)
    requires a.current.Some? && key != "" && a.key == key && BoundaryKey(c.meta) == Some(key)
    requires c.text == "" || (Signature(a.current.value.options).None? && Signature(c.meta).None?)
    ensures var p := a.current.value;
            Add(a, c) == a.(current := Some(p.(text := p.text + c.text, options := Merge(p.options, c.meta))))
  {
  }

  lemma AddToNew(a: Acc, c: Chunk, key: string)
    requires a.current.Some? ==> a.key != "" && a.key != key
    requires BoundaryKey(c.meta) == Some(key)
    ensures Add(a, c) == Acc(Flush(a).parts, Some(ReasoningPart(c.text, Merge(map[], c.meta))), key)
  {
    assert "" + c.text == c.text;
  }

  lemma MergeWithoutSignature(options: Meta, meta: Meta)
    requires Signature(options).None? && Signature(meta).None?
    ensures Signature(Merge(options, meta)).None?
  {
  }

  lemma {:induction false} NoSignature(cs: seq<Chunk>)
    requires forall i | 0 <= i < |cs| :: Signature(cs[i].meta).None?
    ensures Signature(ChunkOptions(cs)).None?
  {
    if cs != [] {
      NoSignature(cs[..|cs| - 1]);
      MergeWithoutSignature(ChunkOptions(cs[..|cs| - 1]), cs[|cs| - 1].meta);
    }
  }

  /** Within a block every chunk goes to one part. */
  lemma {:induction false} OneBlock(a: Acc, b: Block, n: nat)
    requires Keyed(b) && 0 < n <= |Chunks(b)|
    requires a.current.Some? ==> a.key != "" && a.key != b.key
    ensures var cs := Chunks(b)[..n];
            AddAll(a, cs) == Acc(Flush(a).parts, Some(ReasoningPart(ChunkText(cs), ChunkOptions(cs))), b.key)
  {
    var cs := Chunks(b)[..n];
    var front, c := cs[..n - 1], cs[n - 1];
    assert c in Chunks(b);
    assert front == Chunks(b)[..n - 1];
    if n == 1 {
      assert AddAll(a, front) == a && ChunkText(front) == "" && ChunkOptions(front) == map[];
      AddToNew(a, c, b.key);
    } else {
      OneBlock(a, b, n - 1);
      if n <= |b.texts| {
        assert c == b.texts[n - 1];
        forall i | 0 <= i < |front| ensures Signature(front[i].meta).None? {
          assert front[i] == b.texts[i];
        }
        NoSignature(front);
      }
      AddToSame(AddAll(a, front), c, b.key);
    }
  }

  lemma KeyIsKept(options: Meta, meta: Meta)
    requires BoundaryKey(meta).Some?
    ensures Merge(options, meta) != map[]
  {
    var name := if "reasoningId" in meta then "reasoningId" else if "blockId" in meta then "blockId" else "itemId";
    assert name in Merge(options, meta);
  }

  /** Blocks of the form text* then an optional signature, with different keys next to
      each other, come out as exactly one part each. */
  lemma {:induction false} BlocksAreParts(bs: seq<Block>)
    requires Separated(bs)
    ensures Finish(AddBlocks(bs)) == BlockParts(bs)
    ensures if bs == [] then AddBlocks(bs) == EMPTY
            else AddBlocks(bs).current.Some? && AddBlocks(bs).key == bs[|bs| - 1].key
  {
    if bs != [] {
      var front, b := bs[..|bs| - 1], bs[|bs| - 1];
      SeparatedFront(bs);
      BlocksAreParts(front);
      AddBlock(AddBlocks(front), b);
    }
  }

  lemma SeparatedFront(bs: seq<Block>)
    requires Separated(bs) && bs != []
    ensures Separated(bs[..|bs| - 1]) && Keyed(bs[|bs| - 1]) && Chunks(bs[|bs| - 1]) != []
    ensures |bs| > 1 ==> bs[..|bs| - 1][|bs| - 2].key != bs[|bs| - 1].key
  {
    var front := bs[..|bs| - 1];
    assert bs[|bs| - 1] in bs && forall x | x in front :: x in bs;
    assert |bs| > 1 ==> bs[(|bs| - 1) - 1].key != bs[|bs| - 1].key;
  }

  lemma AddBlock(a: Acc, b: Block)
    requires Keyed(b) && Chunks(b) != [] && (a.current.Some? ==> a.key != "" && a.key != b.key)
    ensures var r := AddAll(a, Chunks(b));
            r.current.Some? && r.key == b.key && Finish(r) == Finish(a) + [BlockPart(b)]
  {
    var cs := Chunks(b);
    OneBlock(a, b, |cs|);
    assert cs[..|cs|] == cs;
    assert cs[|cs| - 1] in cs;
    KeyIsKept(ChunkOptions(cs[..|cs| - 1]), cs[|cs| - 1].meta);
  }

  /** A part's signature is its own block's. */
  lemma OwnSignature(b: Block)
    requires Keyed(b) && Chunks(b) != []
    ensures Signature(BlockPart(b).options)
            == if b.signature.Some? then Signature(b.signature.value.meta) else None
  {
    var cs := Chunks(b);
    if b.signature.Some? {
      assert cs[|cs| - 1] == b.signature.value;
      assert "signature" in b.signature.value.meta;
    } else {
      assert cs == b.texts;
      forall i | 0 <= i < |cs| ensures Signature(cs[i].meta).None? {
        assert cs[i] in b.texts;
      }
      NoSignature(cs);
    }
  }

  // ---------------------------------------------------------------- the program

  /** The accumulator; its text builder always holds the current part's text. */
  class ReasoningAccumulator {
    var text: string
    var parts: seq<Part>
    var current: Option<Part>
    var key: string

    constructor ()
      ensures Valid() && View() == EMPTY
    {
      text, parts, current, key := "", [], None, "";
    }

    ghost predicate Valid()
      reads this
    {
      && (current.Some? ==> current.value.text == text)
      && (current.None? ==> text == "" && key == "")
    }

    function View(): Acc
      reads this
    {
      Acc(parts, current, key)
    }

    method AddChunk(c: Chunk)
      requires Valid()
      modifies this
      ensures Valid() && View() == Add(old(View()), c)
      ensures Held(View()) == old(Held(View())) + c.text
      ensures old(parts) <= parts && |parts| <= |old(parts)| + 1 && current.Some?
    {
      AddHolds(View(), c);
      var incoming := BoundaryKey(c.meta);
      if current.Some? && BoundaryChanged(current.value, key, incoming, c) {
        FlushCurrent();
      }
      if current.None? {
        current := Some(ReasoningPart("", map[]));
        key := if incoming.Some? then incoming.value else "";
      }
      text := text + c.text;
      current := Some(current.value.(text := text, options := Merge(current.value.options, c.meta)));
    }

    method FlushCurrent()
      requires Valid()
      modifies this
      ensures Valid() && View() == Flush(old(View()))
    {
      if current.None? {
        return;
      }
      if current.value.text != "" || current.value.options != map[] {
        parts := parts + [current.value];
      }
      current := None;
      text := "";
      key := "";
    }

    method FinishParts() returns (r: seq<Part>)
      requires Valid()
      modifies this
      ensures Valid() && r == Finish(old(View())) && View() == EMPTY
    {
      FlushCurrent();
      r := parts;
      parts := [];
    }
  }
}
