/**
 internal/openaicompat/openaicompat.go, ParseStream: tool calls put together from the
 fragments of a chat completion stream, where the fragments of parallel calls are mixed.
 */
module OpenAIToolCalls {
  import opened Wrappers

  /** One entry of delta.tool_calls. `spare` is the id generateToolCallID gives if asked. */
  datatype Fragment = Fragment(index: int, id: string, name: string, args: string, spare: string)

  datatype Op =
    | Show(text: string)                 // reasoning, text or a source
    | Part(f: Fragment)
    | Finished(reason: string)
    | Failing                            // an error event, or a limit outside tool calls

  /** One SSE event, decoded. */
  datatype Payload =
    | Unreadable
    | NoChoice
    | BadEvent
    | Choice(shown: seq<string>, fragments: seq<Fragment>, finish: string)

  datatype Chunk =
    | Shown(text: string)
    | Start(id: string, name: string)
    | Delta(id: string, name: string, input: string)
    | Call(id: string, name: string, input: string)
    | StepFinish(reason: string)
    | Failure
    | Unresolved
    | Finish

  /** A chunk and the tool call index it belongs to, which is not sent. */
  datatype Sent = Sent(index: Option<int>, chunk: Chunk)

  const TOOL_CALLS := "tool_calls"

  datatype Active = Active(id: string, name: string, args: string, started: bool)

  const NO_CALL: Active := Active("", "", "", false)

  datatype State = State(active: map<int, Active>, log: seq<Sent>, failed: bool)

  const INITIAL: State := State(map[], [], false)

  // ------------------------------------------------------------ one fragment

  function Named(a: Active, f: Fragment): Active {
    var id := if f.id != "" && !a.started then f.id
              else if a.id == "" && f.name != "" then f.spare
              else a.id;
    a.(id := id, name := if f.name != "" then f.name else a.name)
  }

  function DeltaOf(a: Active, i: int, input: string): seq<Sent> {
    if input == "" then [] else [Sent(Some(i), Delta(a.id, a.name, input))]
  }

  /** The chunks sent when the call is announced. */
  function Announced(a: Active, i: int): seq<Sent> {
    if a.id != "" && a.name != "" && !a.started
    then [Sent(Some(i), Start(a.id, a.name))] + DeltaOf(a, i, a.args) else []
  }

  /** `cap` is maxToolCallArgsBytes. */
  function TakeFragment(cap: nat, st: State, f: Fragment): State {
    var a := Named(if f.index in st.active then st.active[f.index] else NO_CALL, f);
    var started := a.started || (a.id != "" && a.name != "");
    var log := st.log + Announced(a, f.index);
    if |a.args| + |f.args| > cap && f.args != "" then
      State(st.active[f.index := a.(started := started)], log + [Sent(None, Failure)], true)
    else
      State(st.active[f.index := a.(started := started, args := a.args + f.args)],
            log + (if started then DeltaOf(a, f.index, f.args) else []), false)
  }

  // ---------------------------------------------------------------- flushing

  ghost predicate Ascending(s: seq<int>) {
    forall j, k | 0 <= j < k < |s| :: s[j] < s[k]
  }

  ghost predicate Sorts(s: seq<int>, keys: set<int>) {
    Ascending(s) && forall i :: i in s <==> i in keys
  }

  lemma Inhabited(keys: set<int>)
    ensures keys == {} || exists x :: x in keys
  {
    if forall x :: x !in keys {
      assert keys == {};
    }
  }

  predicate IsMax(m: int, keys: set<int>) {
    m in keys && forall k | k in keys :: k <= m
  }

  lemma {:induction false} MaxExists(keys: set<int>)
    requires keys != {}
    ensures exists m :: IsMax(m, keys)
    decreases keys
  {
    Inhabited(keys);
    var x :| x in keys;
    if keys - {x} == {} {
      assert forall k | k in keys :: k == x || k in keys - {x};
      assert IsMax(x, keys);
    } else {
      MaxExists(keys - {x});
      var m :| IsMax(m, keys - {x});
      assert forall k | k in keys :: k == x || k in keys - {x};
      assert IsMax(if x < m then m else x, keys);
    }
  }

  /** The keys in ascending order, as sort.Ints gives them. */
  ghost function Sorted(keys: set<int>): (s: seq<int>)
    ensures Sorts(s, keys)
  {
    if keys == {} then []
    else
      MaxExists(keys);
      var m :| IsMax(m, keys);
      Sorted(keys - {m}) + [m]
  }

  lemma SortsSome(s: seq<int>, keys: set<int>)
    requires Sorts(s, keys)
    ensures s != [] ==> keys != {}
  {
    if s != [] {
      assert s[0] in s;
    }
  }

  lemma {:induction false} SortedUnique(s: seq<int>, t: seq<int>, keys: set<int>)
    requires Sorts(s, keys) && Sorts(t, keys)
    ensures s == t
  {
    if keys == {} {
      SortsSome(s, keys);
      SortsSome(t, keys);
    } else {
      Inhabited(keys);
      var x :| x in keys;
      assert x in s && x in t;
      var a, b := s[|s| - 1], t[|t| - 1];
      assert a in s && a in t && b in t && b in s;
      assert a == b;
      WithoutLast(s, keys);
      WithoutLast(t, keys);
      SortedUnique(s[..|s| - 1], t[..|t| - 1], keys - {a});
    }
  }

  lemma WithoutLast(s: seq<int>, keys: set<int>)
    requires Sorts(s, keys) && s != []
    ensures Sorts(s[..|s| - 1], keys - {s[|s| - 1]})
  {
    var a := s[|s| - 1];
    forall i ensures i in s[..|s| - 1] <==> i in keys - {a} {
      if i in keys - {a} {
        var k :| 0 <= k < |s| && s[k] == i;
        assert s[..|s| - 1][k] == i;
      }
    }
  }

  function FinalOf(active: map<int, Active>, i: int): seq<Sent> {
    if i in active && active[i].started
    then [Sent(Some(i), Call(active[i].id, active[i].name, active[i].args))] else []
  }

  /** The final chunks of the started calls, in the order of `s`. */
  function Finals(active: map<int, Active>, s: seq<int>): seq<Sent> {
    if s == [] then [] else Finals(active, s[..|s| - 1]) + FinalOf(active, s[|s| - 1])
  }

  ghost function Flushed(active: map<int, Active>): seq<Sent> {
    Finals(active, Sorted(active.Keys))
  }

  function Unstarted(active: map<int, Active>): map<int, Active> {
    map i | i in active && !active[i].started :: active[i]
  }

  // ------------------------------------------------------------ the whole run

  ghost function Finishes(st: State, reason: string): State {
    if reason == TOOL_CALLS
    then State(Unstarted(st.active), st.log + Flushed(st.active) + [Sent(None, StepFinish(reason))], false)
    else st.(log := st.log + [Sent(None, StepFinish(reason))])
  }

  ghost function Step(cap: nat, st: State, op: Op): State {
    if st.failed then st
    else
      match op
      case Show(text) => st.(log := st.log + [Sent(None, Shown(text))])
      case Part(f) => TakeFragment(cap, st, f)
      case Finished(reason) => Finishes(st, reason)
      case Failing => st.(log := st.log + [Sent(None, Failure)], failed := true)
  }

  ghost function Run(cap: nat, ops: seq<Op>): State {
    if ops == [] then INITIAL else Step(cap, Run(cap, ops[..|ops| - 1]), ops[|ops| - 1])
  }

  predicate SomeUnstarted(active: map<int, Active>) {
    Unstarted(active) != map[]
  }

  /** The end of the stream; `details` is a metadata chunk, if there is one. */
  ghost function End(st: State, readError: bool, details: Option<string>): seq<Sent> {
    if st.failed then st.log
    else if readError then st.log + [Sent(None, Failure)]
    else if SomeUnstarted(st.active) then st.log + Flushed(st.active) + [Sent(None, Unresolved)]
    else st.log + Flushed(st.active)
         + (if details.Some? then [Sent(None, Shown(details.value))] else []) + [Sent(None, Finish)]
  }

  // ----------------------------------------------- what the input says of a call

  /** Fragments of call i since it was last sent in full. */
  function Segment(ops: seq<Op>, i: int): seq<Fragment> {
    if ops == [] then []
    else
      var before := Segment(ops[..|ops| - 1], i);
      match ops[|ops| - 1]
      case Part(f) => if f.index == i then before + [f] else before
      case Finished(reason) => if reason == TOOL_CALLS && HasName(before) then [] else before
      case _ => before
  }

  /** A call is known from its first name on. */
  predicate HasName(fs: seq<Fragment>) {
    exists f | f in fs :: f.name != ""
  }

  function LastName(fs: seq<Fragment>): string {
    if fs == [] then ""
    else if fs[|fs| - 1].name != "" then fs[|fs| - 1].name else LastName(fs[..|fs| - 1])
  }

  /** The last id that comes no later than the first name; if there is none, a new one. */
  function IdOf(fs: seq<Fragment>): string {
    if fs == [] then ""
    else
      var front, f := fs[..|fs| - 1], fs[|fs| - 1];
      if HasName(front) then IdOf(front)
      else if f.id != "" then f.id
      else if IdOf(front) == "" && f.name != "" then f.spare
      else IdOf(front)
  }

  function ArgsOf(fs: seq<Fragment>): string {
    if fs == [] then "" else ArgsOf(fs[..|fs| - 1]) + fs[|fs| - 1].args
  }

  function CallOf(fs: seq<Fragment>): Chunk {
    Call(IdOf(fs), LastName(fs), ArgsOf(fs))
  }

  /** The final chunks call index i must get before the end of the stream. */
  function Due(ops: seq<Op>, i: int): seq<Chunk> {
    if ops == [] then []
    else
      var front := ops[..|ops| - 1];
      Due(front, i)
      + (if ops[|ops| - 1] == Finished(TOOL_CALLS) && HasName(Segment(front, i))
         then [CallOf(Segment(front, i))] else [])
  }

  /** And those it must get in all. */
  function AllDue(ops: seq<Op>, i: int): seq<Chunk> {
    Due(ops, i) + (if HasName(Segment(ops, i)) then [CallOf(Segment(ops, i))] else [])
  }

  /** Whether the parser stops early: a bad event, or arguments over the limit. */
  predicate StopsEarly(cap: nat, ops: seq<Op>) {
    if ops == [] then false
    else
      var front := ops[..|ops| - 1];
      StopsEarly(cap, front)
      || match ops[|ops| - 1]
         case Failing => true
         case Part(f) => f.args != "" && |ArgsOf(Segment(front, f.index))| + |f.args| > cap
         case _ => false
  }

  // ------------------------------------------- what a reader of the chunks sees

  /** The chunks of one call index. */
  function Own(log: seq<Sent>, i: int): seq<Chunk> {
    if log == [] then []
    else Own(log[..|log| - 1], i) + (if log[|log| - 1].index == Some(i) then [log[|log| - 1].chunk] else [])
  }

  datatype Reader = Between | Within(id: string, sofar: string) | Confused

  /** A reader that expects start, deltas and a final chunk that repeats what the deltas said. */
  function Read(r: Reader, c: Chunk): Reader {
    match r
    case Between => if c.Start? then Within(c.id, "") else Confused
    case Within(id, sofar) =>
      if c.Delta? && c.id == id then Within(id, sofar + c.input)
      else if c.Call? && c.id == id && c.input == sofar then Between
      else Confused
    case Confused => Confused
  }

  function ReadAll(chunks: seq<Chunk>): Reader {
    if chunks == [] then Between else Read(ReadAll(chunks[..|chunks| - 1]), chunks[|chunks| - 1])
  }

  function Calls(chunks: seq<Chunk>): seq<Chunk> {
    if chunks == [] then []
    else Calls(chunks[..|chunks| - 1]) + (if chunks[|chunks| - 1].Call? then [chunks[|chunks| - 1]] else [])
  }

  predicate Terminal(c: Chunk) {
    c.Failure? || c.Unresolved? || c.Finish?
  }

  ghost predicate NoneTerminal(log: seq<Sent>) {
    forall k | 0 <= k < |log| :: !Terminal(log[k].chunk)
  }

  /** Calls sent one directly after the other have ascending indexes. */
  ghost predicate CallsAscend(log: seq<Sent>) {
    forall k | 0 <= k < |log| - 1 && log[k].chunk.Call? && log[k + 1].chunk.Call? ::
      log[k].index.Some? && log[k + 1].index.Some? && log[k].index.value < log[k + 1].index.value
  }

  // ------------------------------------------------------------ the invariant

  ghost predicate Knows(st: State, ops: seq<Op>, i: int) {
    var fs := Segment(ops, i);
    if i in st.active
    then fs != [] && st.active[i] == Active(IdOf(fs), LastName(fs), ArgsOf(fs), HasName(fs))
    else fs == []
  }

  ghost predicate Told(st: State, ops: seq<Op>, i: int) {
    var fs := Segment(ops, i);
    && ReadAll(Own(st.log, i)) == (if HasName(fs) then Within(IdOf(fs), ArgsOf(fs)) else Between)
    && Calls(Own(st.log, i)) == Due(ops, i)
  }

  ghost predicate Spares(ops: seq<Op>) {
    forall op | op in ops && op.Part? :: op.f.spare != ""
  }

  lemma OwnAppend(a: seq<Sent>, b: seq<Sent>, i: int)
    ensures Own(a + b, i) == Own(a, i) + Own(b, i)
  {
    if b == [] {
      assert a + b == a;
    } else {
      assert (a + b)[..|a + b| - 1] == a + b[..|b| - 1];
      OwnAppend(a, b[..|b| - 1], i);
    }
  }

  lemma {:induction false} SegmentSnoc(ops: seq<Op>, op: Op, i: int)
    ensures Segment(ops + [op], i)
            == match op
               case Part(f) => if f.index == i then Segment(ops, i) + [f] else Segment(ops, i)
               case Finished(reason) => if reason == TOOL_CALLS && HasName(Segment(ops, i)) then [] else Segment(ops, i)
               case _ => Segment(ops, i)
    ensures Due(ops + [op], i)
            == Due(ops, i)
               + (if op == Finished(TOOL_CALLS) && HasName(Segment(ops, i)) then [CallOf(Segment(ops, i))] else [])
  {
    assert (ops + [op])[..|ops|] == ops;
  }

  lemma HasNameSnoc(fs: seq<Fragment>, f: Fragment)
    ensures HasName(fs + [f]) <==> HasName(fs) || f.name != ""
  {
    if HasName(fs) {
      var g :| g in fs && g.name != "";
      assert g in fs + [f];
    }
    assert f in fs + [f];
  }

  lemma {:induction false} Unnamed(fs: seq<Fragment>)
    ensures LastName(fs) != "" <==> HasName(fs)
    ensures (forall f | f in fs :: f.spare != "") && HasName(fs) ==> IdOf(fs) != ""
  {
    if fs != [] {
      var front, f := fs[..|fs| - 1], fs[|fs| - 1];
      Unnamed(front);
      assert fs == front + [f];
      HasNameSnoc(front, f);
      assert f in fs && forall g | g in front :: g in fs;
    }
  }

  lemma FragmentSnoc(fs: seq<Fragment>, f: Fragment)
    ensures LastName(fs + [f]) == if f.name != "" then f.name else LastName(fs)
    ensures ArgsOf(fs + [f]) == ArgsOf(fs) + f.args
    ensures IdOf(fs + [f])
            == if HasName(fs) then IdOf(fs) else if f.id != "" then f.id
               else if IdOf(fs) == "" && f.name != "" then f.spare else IdOf(fs)
  {
    assert (fs + [f])[..|fs|] == fs;
  }

  function ActiveOf(fs: seq<Fragment>): Active {
    Active(IdOf(fs), LastName(fs), ArgsOf(fs), HasName(fs))
  }

  lemma {:induction false} SegmentSpares(ops: seq<Op>, i: int)
    requires Spares(ops)
    ensures forall f | f in Segment(ops, i) :: f.spare != ""
  {
    if ops != [] {
      var front, op := ops[..|ops| - 1], ops[|ops| - 1];
      assert op in ops && forall o | o in front :: o in ops;
      SegmentSpares(front, i);
    }
  }

  /** Naming a call from one more fragment. */
  lemma NamedOf(fs: seq<Fragment>, f: Fragment)
    requires f.spare != "" && forall g | g in fs :: g.spare != ""
    ensures var a, b := Named(ActiveOf(fs), f), ActiveOf(fs + [f]);
            && a.id == b.id && a.name == b.name
            && (a.started || (a.id != "" && a.name != "") <==> b.started)
  {
    FragmentSnoc(fs, f);
    HasNameSnoc(fs, f);
    Unnamed(fs);
    Unnamed(fs + [f]);
  }

  lemma Knowing(cap: nat, st: State, ops: seq<Op>, f: Fragment)
    requires !st.failed && Spares(ops + [Part(f)]) && Knows(st, ops, f.index)
    ensures var t, fs := TakeFragment(cap, st, f), Segment(ops, f.index);
            && (t.failed <==> f.args != "" && |ArgsOf(fs)| + |f.args| > cap)
            && (!t.failed ==> Knows(t, ops + [Part(f)], f.index))
  {
    var fs := Segment(ops, f.index);
    Spared(ops, f);
    NamedOf(fs, f);
    FragmentSnoc(fs, f);
    SegmentSnoc(ops, Part(f), f.index);
    assert ActiveOf([]) == NO_CALL;
  }

  lemma Spared(ops: seq<Op>, f: Fragment)
    requires Spares(ops + [Part(f)])
    ensures Spares(ops) && f.spare != "" && forall g | g in Segment(ops, f.index) :: g.spare != ""
  {
    assert Part(f) in ops + [Part(f)];
    assert forall o | o in ops :: o in ops + [Part(f)];
    SegmentSpares(ops, f.index);
  }

  lemma OwnAnnounced(a: Active, i: int, j: int)
    ensures Own(Announced(a, i), j)
            == if j == i && a.id != "" && a.name != "" && !a.started
               then [Start(a.id, a.name)] + (if a.args == "" then [] else [Delta(a.id, a.name, a.args)]) else []
  {
    if a.id != "" && a.name != "" && !a.started {
      OwnAppend([Sent(Some(i), Start(a.id, a.name))], DeltaOf(a, i, a.args), j);
      OwnOne(Sent(Some(i), Start(a.id, a.name)), j);
      OwnDelta(a, i, a.args, j);
    }
  }

  lemma OwnOne(c: Sent, j: int)
    ensures Own([c], j) == if c.index == Some(j) then [c.chunk] else []
  {
    assert [c][..0] == [];
  }

  lemma OwnDelta(a: Active, i: int, input: string, j: int)
    ensures Own(DeltaOf(a, i, input), j) == if j == i && input != "" then [Delta(a.id, a.name, input)] else []
  {
    OwnOne(Sent(Some(i), Delta(a.id, a.name, input)), j);
  }

  lemma ReadSnoc(cs: seq<Chunk>, c: Chunk)
    ensures ReadAll(cs + [c]) == Read(ReadAll(cs), c)
    ensures Calls(cs + [c]) == Calls(cs) + (if c.Call? then [c] else [])
  {
    assert (cs + [c])[..|cs|] == cs;
  }

  lemma ReadsDelta(own: seq<Chunk>, id: string, name: string, sofar: string, args: string)
    requires ReadAll(own) == Within(id, sofar)
    ensures var told := own + (if args == "" then [] else [Delta(id, name, args)]);
            ReadAll(told) == Within(id, sofar + args) && Calls(told) == Calls(own)
  {
    if args == "" {
      assert own + [] == own && sofar + "" == sofar;
    } else {
      ReadSnoc(own, Delta(id, name, args));
    }
  }

  /** The reader follows the announcement and the deltas. */
  lemma ReadsStart(own: seq<Chunk>, id: string, name: string, args: string)
    requires ReadAll(own) == Between
    ensures var told := own + ([Start(id, name)] + (if args == "" then [] else [Delta(id, name, args)]));
            ReadAll(told) == Within(id, args) && Calls(told) == Calls(own)
  {
    var more := if args == "" then [] else [Delta(id, name, args)];
    ReadSnoc(own, Start(id, name));
    ReadsDelta(own + [Start(id, name)], id, name, "", args);
    assert own + ([Start(id, name)] + more) == own + [Start(id, name)] + more;
    assert "" + args == args;
  }

  ghost predicate Confident(st: State, ops: seq<Op>, i: int) {
    Knows(st, ops, i) && Told(st, ops, i)
  }

  /** One fragment leaves the other calls alone. */
  lemma OtherCalls(cap: nat, st: State, ops: seq<Op>, f: Fragment, i: int)
    requires i != f.index && Confident(st, ops, i)
    ensures Confident(TakeFragment(cap, st, f), ops + [Part(f)], i)
  {
    SegmentSnoc(ops, Part(f), i);
    OtherOwn(cap, st, f, i);
  }

  lemma OtherOwn(cap: nat, st: State, f: Fragment, j: int)
    requires j != f.index
    ensures Own(TakeFragment(cap, st, f).log, j) == Own(st.log, j)
  {
    var a := Named(if f.index in st.active then st.active[f.index] else NO_CALL, f);
    OwnTaken(cap, st, f, j);
    OwnAnnounced(a, f.index, j);
  }

  lemma OwnTaken(cap: nat, st: State, f: Fragment, j: int)
    ensures var a := Named(if f.index in st.active then st.active[f.index] else NO_CALL, f);
            var t := TakeFragment(cap, st, f);
            Own(t.log, j)
            == Own(st.log, j) + Own(Announced(a, f.index), j)
               + (if !t.failed && j == f.index && (a.started || (a.id != "" && a.name != "")) && f.args != ""
                  then [Delta(a.id, a.name, f.args)] else [])
  {
    var i := f.index;
    var a := Named(if i in st.active then st.active[i] else NO_CALL, f);
    var t := TakeFragment(cap, st, f);
    OwnAppend(st.log, Announced(a, i), j);
    var log := st.log + Announced(a, i);
    if t.failed {
      OwnAppend(log, [Sent(None, Failure)], j);
      OwnOne(Sent(None, Failure), j);
    } else {
      var a1 := t.active[i];
      OwnAppend(log, DeltaOf(a1, i, f.args), j);
      OwnDelta(a1, i, f.args, j);
      assert log + [] == log;
      assert DeltaOf(a, i, f.args) == DeltaOf(a1, i, f.args);
    }
  }

  /** What is sent for one more fragment of a call, told by its fragments. */
  lemma SameCallOwn(cap: nat, st: State, ops: seq<Op>, f: Fragment)
    requires !st.failed && Spares(ops + [Part(f)]) && Knows(st, ops, f.index)
    ensures var i, fs := f.index, Segment(ops, f.index);
            var id, name := IdOf(fs + [f]), LastName(fs + [f]);
            var t := TakeFragment(cap, st, f);
            var args := if t.failed then "" else f.args;
            var announced := if HasName(fs + [f]) && !HasName(fs)
                             then [Start(id, name)] + (if ArgsOf(fs) == "" then [] else [Delta(id, name, ArgsOf(fs))])
                             else [];
            && Own(t.log, i)
               == Own(st.log, i) + announced + (if HasName(fs + [f]) && args != "" then [Delta(id, name, args)] else [])
  {
    var i, fs := f.index, Segment(ops, f.index);
    var a := Named(ActiveOf(fs), f);
    Spared(ops, f);
    NamedOf(fs, f);
    HasNameSnoc(fs, f);
    assert ActiveOf([]) == NO_CALL;
    OwnTaken(cap, st, f, i);
    OwnAnnounced(a, i, i);
  }

  lemma SameCall(cap: nat, st: State, ops: seq<Op>, f: Fragment)
    requires !st.failed && Spares(ops + [Part(f)]) && Confident(st, ops, f.index)
    ensures var t := TakeFragment(cap, st, f);
            && (!t.failed ==> Confident(t, ops + [Part(f)], f.index))
            && ReadAll(Own(t.log, f.index)) != Confused
            && Calls(Own(t.log, f.index)) == Due(ops + [Part(f)], f.index)
  {
    var i, fs := f.index, Segment(ops, f.index);
    Knowing(cap, st, ops, f);
    FragmentSnoc(fs, f);
    SegmentSnoc(ops, Part(f), i);
    HasNameSnoc(fs, f);
    SameCallOwn(cap, st, ops, f);
    var id, name := IdOf(fs + [f]), LastName(fs + [f]);
    var announced := if HasName(fs + [f]) && !HasName(fs)
                     then [Start(id, name)] + (if ArgsOf(fs) == "" then [] else [Delta(id, name, ArgsOf(fs))]) else [];
    SameCallReads(Own(st.log, i), HasName(fs), HasName(fs + [f]), id, name, ArgsOf(fs), announced,
                  if TakeFragment(cap, st, f).failed then "" else f.args);
  }

  /** A reader's view of one more fragment: `known` before it, `named` after it. */
  lemma SameCallReads(own: seq<Chunk>, known: bool, named: bool, id: string, name: string, sofar: string,
                      announced: seq<Chunk>, args: string)
    requires ReadAll(own) == if known then Within(id, sofar) else Between
    requires known ==> named
    requires announced == if named && !known
                          then [Start(id, name)] + (if sofar == "" then [] else [Delta(id, name, sofar)]) else []
    ensures var told := own + announced + (if named && args != "" then [Delta(id, name, args)] else []);
            Calls(told) == Calls(own) && ReadAll(told) == if named then Within(id, sofar + args) else Between
  {
    if !named {
      assert own + announced + [] == own;
    } else {
      if known {
        assert own + announced == own;
      } else {
        ReadsStart(own, id, name, sofar);
      }
      ReadsDelta(own + announced, id, name, sofar, args);
    }
  }

  // ---------------------------------------------------------- flushed calls

  lemma OwnFinal(active: map<int, Active>, j: int, i: int)
    ensures Own(FinalOf(active, j), i) == if j == i then FinalChunk(active, i) else []
  {
    if j in active && active[j].started {
      OwnOne(Sent(Some(j), Call(active[j].id, active[j].name, active[j].args)), i);
    }
  }

  function FinalChunk(active: map<int, Active>, i: int): seq<Chunk> {
    if i in active && active[i].started then [Call(active[i].id, active[i].name, active[i].args)] else []
  }

  lemma {:induction false} OwnFinals(active: map<int, Active>, s: seq<int>, i: int)
    requires Ascending(s)
    ensures Own(Finals(active, s), i) == if i in s then FinalChunk(active, i) else []
  {
    if s != [] {
      var front, last := s[..|s| - 1], s[|s| - 1];
      OwnFinals(active, front, i);
      OwnAppend(Finals(active, front), FinalOf(active, last), i);
      OwnFinal(active, last, i);
      InFront(s, i);
    }
  }

  lemma InFront(s: seq<int>, i: int)
    requires Ascending(s) && s != []
    ensures var front, last := s[..|s| - 1], s[|s| - 1];
            (i in s <==> i in front || i == last) && (i == last ==> i !in front)
  {
    assert s == s[..|s| - 1] + [s[|s| - 1]];
  }

  lemma OwnFlushed(active: map<int, Active>, i: int)
    ensures Own(Flushed(active), i) == FinalChunk(active, i)
  {
    OwnFinals(active, Sorted(active.Keys), i);
  }

  ghost predicate Rising(log: seq<Sent>) {
    && (forall k | 0 <= k < |log| :: log[k].index.Some? && log[k].chunk.Call?)
    && (forall j, k | 0 <= j < k < |log| :: log[j].index.value < log[k].index.value)
  }

  /** Rising, with indexes taken from s. */
  ghost predicate RisingIn(log: seq<Sent>, s: seq<int>) {
    Rising(log) && forall k | 0 <= k < |log| :: log[k].index.value in s
  }

  lemma {:induction false} FinalsRise(active: map<int, Active>, s: seq<int>)
    requires Ascending(s)
    ensures RisingIn(Finals(active, s), s)
  {
    if s != [] {
      var front, last := s[..|s| - 1], s[|s| - 1];
      FinalsRise(active, front);
      RisesMore(Finals(active, front), FinalOf(active, last), front, last);
      assert s == front + [last];
    }
  }

  lemma RisesMore(l: seq<Sent>, more: seq<Sent>, front: seq<int>, last: int)
    requires RisingIn(l, front) && Rising(more) && |more| <= 1 && Ascending(front + [last])
    requires forall k | 0 <= k < |more| :: more[k].index.value == last
    ensures RisingIn(l + more, front + [last])
  {
    var s := front + [last];
    assert s[|front|] == last;
    forall i | i in front ensures i in s && i < last {
      var k :| 0 <= k < |front| && front[k] == i;
      assert s[k] == i;
    }
  }

  // ------------------------------------------------------- every run keeps it

  lemma ReadsFinal(own: seq<Chunk>, id: string, name: string, args: string)
    requires ReadAll(own) == Within(id, args)
    ensures ReadAll(own + [Call(id, name, args)]) == Between
    ensures Calls(own + [Call(id, name, args)]) == Calls(own) + [Call(id, name, args)]
  {
    ReadSnoc(own, Call(id, name, args));
  }

  /** The final chunk of call i, if it is due, is what its fragments say. */
  lemma FlushTells(st: State, ops: seq<Op>, i: int)
    requires Confident(st, ops, i)
    ensures var own, fs := Own(st.log + Flushed(st.active), i), Segment(ops, i);
            && ReadAll(own) == Between
            && Calls(own) == Due(ops, i) + (if HasName(fs) then [CallOf(fs)] else [])
  {
    OwnAppend(st.log, Flushed(st.active), i);
    OwnFlushed(st.active, i);
    var own, fs := Own(st.log, i), Segment(ops, i);
    if HasName(fs) {
      ReadsFinal(own, IdOf(fs), LastName(fs), ArgsOf(fs));
    } else {
      assert own + [] == own && Due(ops, i) + [] == Due(ops, i);
    }
  }

  lemma OwnUntagged(log: seq<Sent>, c: Chunk, i: int)
    ensures Own(log + [Sent(None, c)], i) == Own(log, i)
  {
    OwnAppend(log, [Sent(None, c)], i);
    OwnOne(Sent(None, c), i);
  }

  lemma FinishKeeps(st: State, ops: seq<Op>, reason: string, i: int)
    requires Confident(st, ops, i) && !st.failed
    ensures Confident(Finishes(st, reason), ops + [Finished(reason)], i)
  {
    SegmentSnoc(ops, Finished(reason), i);
    if reason == TOOL_CALLS {
      FlushTells(st, ops, i);
      OwnUntagged(st.log + Flushed(st.active), StepFinish(reason), i);
      var fs := Segment(ops, i);
      if !HasName(fs) {
        assert Due(ops, i) + [] == Due(ops, i);
      }
    } else {
      OwnUntagged(st.log, StepFinish(reason), i);
      assert Due(ops, i) + [] == Due(ops, i);
    }
  }

  lemma ShowKeeps(st: State, ops: seq<Op>, text: string, i: int)
    requires Confident(st, ops, i)
    ensures Confident(st.(log := st.log + [Sent(None, Shown(text))]), ops + [Show(text)], i)
  {
    SegmentSnoc(ops, Show(text), i);
    OwnUntagged(st.log, Shown(text), i);
  }

  /** Nothing wrong was said about call i, whether or not the parser has stopped. */
  ghost predicate Sane(st: State, ops: seq<Op>, i: int) {
    && ReadAll(Own(st.log, i)) != Confused
    && (!st.failed ==> Confident(st, ops, i))
  }

  lemma StepKeeps(cap: nat, st: State, ops: seq<Op>, op: Op, i: int)
    requires Sane(st, ops, i) && Spares(ops + [op])
    ensures Sane(Step(cap, st, op), ops + [op], i)
  {
    if !st.failed {
      match op
      case Show(text) => ShowKeeps(st, ops, text, i);
      case Part(f) =>
        if i == f.index {
          SameCall(cap, st, ops, f);
        } else {
          OtherCalls(cap, st, ops, f, i);
        }
      case Finished(reason) => FinishKeeps(st, ops, reason, i);
      case Failing => OwnUntagged(st.log, Failure, i);
    }
  }

  lemma {:induction false} RunIsSane(cap: nat, ops: seq<Op>, i: int)
    requires Spares(ops)
    ensures Sane(Run(cap, ops), ops, i)
  {
    if ops != [] {
      var front, op := ops[..|ops| - 1], ops[|ops| - 1];
      assert ops == front + [op];
      assert forall o | o in front :: o in ops;
      RunIsSane(cap, front, i);
      StepKeeps(cap, Run(cap, front), front, op, i);
    }
  }

  /** The parser stops early exactly when the input says so. */
  lemma {:induction false} RunStops(cap: nat, ops: seq<Op>)
    requires Spares(ops)
    ensures Run(cap, ops).failed <==> StopsEarly(cap, ops)
  {
    if ops != [] {
      var front, op := ops[..|ops| - 1], ops[|ops| - 1];
      assert ops == front + [op];
      assert forall o | o in front :: o in ops;
      RunStops(cap, front);
      var st := Run(cap, front);
      if op.Part? && !st.failed {
        RunIsSane(cap, front, op.f.index);
        Knowing(cap, st, front, op.f);
      }
    }
  }

  // ------------------------------------------------ order and the last chunk

  ghost predicate EndsInCall(log: seq<Sent>) {
    log != [] && log[|log| - 1].chunk.Call?
  }

  ghost predicate EndsTerminal(log: seq<Sent>) {
    log != [] && Terminal(log[|log| - 1].chunk) && NoneTerminal(log[..|log| - 1])
  }

  /** More chunks may follow. */
  ghost predicate Open(log: seq<Sent>) {
    CallsAscend(log) && NoneTerminal(log) && !EndsInCall(log)
  }

  ghost predicate Closed(log: seq<Sent>) {
    CallsAscend(log) && EndsTerminal(log)
  }

  lemma Ends(log: seq<Sent>, c: Chunk)
    requires CallsAscend(log) && NoneTerminal(log) && !c.Call?
    ensures if Terminal(c) then Closed(log + [Sent(None, c)]) else Open(log + [Sent(None, c)])
  {
    assert (log + [Sent(None, c)])[..|log|] == log;
  }

  lemma FlushedOrder(log: seq<Sent>, more: seq<Sent>)
    requires Open(log) && Rising(more)
    ensures CallsAscend(log + more) && NoneTerminal(log + more)
  {
    var l := log + more;
    forall k | 0 <= k < |l| ensures !Terminal(l[k].chunk) {
      if k >= |log| {
        assert l[k] == more[k - |log|];
      }
    }
    forall k | 0 <= k < |l| - 1 && l[k].chunk.Call? && l[k + 1].chunk.Call?
      ensures l[k].index.Some? && l[k + 1].index.Some? && l[k].index.value < l[k + 1].index.value
    {
      if k >= |log| {
        assert l[k] == more[k - |log|] && l[k + 1] == more[k + 1 - |log|];
      } else {
        assert k + 1 < |log|;
      }
    }
  }

  lemma Flushes(log: seq<Sent>, active: map<int, Active>)
    requires Open(log)
    ensures CallsAscend(log + Flushed(active)) && NoneTerminal(log + Flushed(active))
  {
    FinalsRise(active, Sorted(active.Keys));
    FlushedOrder(log, Flushed(active));
  }

  lemma Adds(log: seq<Sent>, more: seq<Sent>)
    requires Open(log)
    requires forall k | 0 <= k < |more| :: more[k].chunk.Start? || more[k].chunk.Delta?
    ensures Open(log + more)
  {
  }

  ghost predicate Orderly(st: State) {
    if st.failed then Closed(st.log) else Open(st.log)
  }

  lemma FragmentOrderly(cap: nat, st: State, f: Fragment)
    requires Orderly(st) && !st.failed
    ensures Orderly(TakeFragment(cap, st, f))
  {
    var a := Named(if f.index in st.active then st.active[f.index] else NO_CALL, f);
    var t := TakeFragment(cap, st, f);
    var log := st.log + Announced(a, f.index);
    Adds(st.log, Announced(a, f.index));
    if t.failed {
      Ends(log, Failure);
    } else {
      Adds(log, DeltaOf(t.active[f.index], f.index, f.args));
      assert log + [] == log;
    }
  }

  lemma FinishOrderly(st: State, reason: string)
    requires Open(st.log)
    ensures Open(Finishes(st, reason).log)
  {
    if reason == TOOL_CALLS {
      Flushes(st.log, st.active);
      Ends(st.log + Flushed(st.active), StepFinish(reason));
    } else {
      Ends(st.log, StepFinish(reason));
    }
  }

  lemma StepOrderly(cap: nat, st: State, op: Op)
    requires Orderly(st)
    ensures Orderly(Step(cap, st, op))
  {
    if !st.failed {
      match op
      case Show(text) => Ends(st.log, Shown(text));
      case Part(f) => FragmentOrderly(cap, st, f);
      case Finished(reason) => FinishOrderly(st, reason);
      case Failing => Ends(st.log, Failure);
    }
  }

  lemma {:induction false} RunOrderly(cap: nat, ops: seq<Op>)
    ensures Orderly(Run(cap, ops))
  {
    if ops != [] {
      RunOrderly(cap, ops[..|ops| - 1]);
      StepOrderly(cap, Run(cap, ops[..|ops| - 1]), ops[|ops| - 1]);
    }
  }

  // ------------------------------------------------------------ main results

  /** However the stream goes, its last chunk is its only Finish or error, and calls sent
      together are in ascending index order. */
  lemma OneTerminalChunk(cap: nat, ops: seq<Op>, readError: bool, details: Option<string>)
    ensures var log := End(Run(cap, ops), readError, details); EndsTerminal(log) && CallsAscend(log)
  {
    RunOrderly(cap, ops);
    var st := Run(cap, ops);
    if !st.failed {
      EndCloses(st, readError, details);
    }
  }

  lemma EndCloses(st: State, readError: bool, details: Option<string>)
    requires !st.failed && Open(st.log)
    ensures Closed(End(st, readError, details))
  {
    if readError {
      Ends(st.log, Failure);
    } else {
      var log := st.log + Flushed(st.active);
      Flushes(st.log, st.active);
      if SomeUnstarted(st.active) {
        Ends(log, Unresolved);
      } else if details.Some? {
        Ends(log, Shown(details.value));
        Ends(log + [Sent(None, Shown(details.value))], Finish);
      } else {
        assert log + [] == log;
        Ends(log, Finish);
      }
    }
  }

  /** The chunks of one call never contradict each other. */
  lemma NeverConfused(cap: nat, ops: seq<Op>, readError: bool, details: Option<string>, i: int)
    requires Spares(ops)
    ensures ReadAll(Own(End(Run(cap, ops), readError, details), i)) != Confused
  {
    var st := Run(cap, ops);
    RunIsSane(cap, ops, i);
    if !st.failed {
      OwnUntagged(st.log, Failure, i);
      OwnEnd(st, details, i);
      FlushTells(st, ops, i);
    }
  }

  lemma OwnEnd(st: State, details: Option<string>, i: int)
    requires !st.failed
    ensures Own(End(st, false, details), i) == Own(st.log + Flushed(st.active), i)
  {
    var log := st.log + Flushed(st.active);
    OwnUntagged(log, Unresolved, i);
    OwnUntagged(log, Finish, i);
    assert log + [] == log;
    if details.Some? {
      OwnUntagged(log, Shown(details.value), i);
      OwnUntagged(log + [Sent(None, Shown(details.value))], Finish, i);
    }
  }

  ghost predicate Dangling(ops: seq<Op>, i: int) {
    Segment(ops, i) != [] && !HasName(Segment(ops, i))
  }

  /** On a stream read to its end, every started call gets its final chunk, which repeats its
      deltas and is what its fragments in the input say; the stream ends with an error
      exactly when some fragments never got a name. */
  lemma EveryCallIsFinished(cap: nat, ops: seq<Op>, details: Option<string>)
    requires Spares(ops) && !StopsEarly(cap, ops)
    ensures var log := End(Run(cap, ops), false, details);
            && (forall i :: ReadAll(Own(log, i)) == Between && Calls(Own(log, i)) == AllDue(ops, i))
            && log != [] && log[|log| - 1].chunk == (if exists i :: Dangling(ops, i) then Unresolved else Finish)
  {
    var st := Run(cap, ops);
    RunStops(cap, ops);
    var log := End(st, false, details);
    forall i ensures ReadAll(Own(log, i)) == Between && Calls(Own(log, i)) == AllDue(ops, i) {
      RunIsSane(cap, ops, i);
      OwnEnd(st, details, i);
      FlushTells(st, ops, i);
    }
    forall i ensures i in Unstarted(st.active) <==> Dangling(ops, i) {
      RunIsSane(cap, ops, i);
    }
    if SomeUnstarted(st.active) {
      Inhabited(Unstarted(st.active).Keys);
      var i :| i in Unstarted(st.active);
      assert Dangling(ops, i);
    }
  }

  // ------------------------------------------------------------- the program

  /** What one event does, in the order ParseStream looks at it. */
  function OpsOf(p: Payload): seq<Op> {
    match p
    case BadEvent => [Failing]
    case Choice(shown, fragments, finish) =>
      Shows(shown) + Parts(fragments) + FinishOps(finish)
    case _ => []
  }

  function FinishOps(finish: string): seq<Op> {
    if finish == "" then [] else [Finished(finish)]
  }

  function Shows(texts: seq<string>): seq<Op> {
    if texts == [] then [] else Shows(texts[..|texts| - 1]) + [Show(texts[|texts| - 1])]
  }

  function Parts(fs: seq<Fragment>): seq<Op> {
    if fs == [] then [] else Parts(fs[..|fs| - 1]) + [Part(fs[|fs| - 1])]
  }

  /** What all payloads do, one after the other. */
  function AllOps(ps: seq<Payload>): seq<Op> {
    Concat(Groups(ps))
  }

  function Groups(ps: seq<Payload>): seq<seq<Op>> {
    seq(|ps|, n requires 0 <= n < |ps| => OpsOf(ps[n]))
  }

  function Concat(groups: seq<seq<Op>>): seq<Op> {
    if groups == [] then [] else Concat(groups[..|groups| - 1]) + groups[|groups| - 1]
  }

  lemma {:induction false} ConcatAppend(a: seq<seq<Op>>, b: seq<seq<Op>>)
    ensures Concat(a + b) == Concat(a) + Concat(b)
  {
    if b == [] {
      assert a + b == a;
    } else {
      ConcatAppend(a, b[..|b| - 1]);
      assert (a + b)[..|a + b| - 1] == a + b[..|b| - 1];
    }
  }

  lemma AllOpsAppend(a: seq<Payload>, b: seq<Payload>)
    ensures AllOps(a + b) == AllOps(a) + AllOps(b)
  {
    assert Groups(a + b) == Groups(a) + Groups(b);
    ConcatAppend(Groups(a), Groups(b));
  }

  lemma OneGroup(p: Payload)
    ensures AllOps([p]) == OpsOf(p)
  {
    var g := Groups([p]);
    assert g[..|g| - 1] == [] && g[|g| - 1] == OpsOf(p);
    assert Concat(g) == [] + OpsOf(p);
  }

  ghost function RunFrom(cap: nat, st: State, ops: seq<Op>): State {
    if ops == [] then st else Step(cap, RunFrom(cap, st, ops[..|ops| - 1]), ops[|ops| - 1])
  }

  lemma RunSplits(cap: nat, a: seq<Op>, b: seq<Op>)
    ensures Run(cap, a + b) == RunFrom(cap, Run(cap, a), b)
  {
    if b == [] {
      assert a + b == a;
    } else {
      assert (a + b)[..|a + b| - 1] == a + b[..|b| - 1];
      RunSplits(cap, a, b[..|b| - 1]);
    }
  }

  lemma FromSplits(cap: nat, st: State, a: seq<Op>, b: seq<Op>)
    ensures RunFrom(cap, st, a + b) == RunFrom(cap, RunFrom(cap, st, a), b)
  {
    if b == [] {
      assert a + b == a;
    } else {
      assert (a + b)[..|a + b| - 1] == a + b[..|b| - 1];
      FromSplits(cap, st, a, b[..|b| - 1]);
    }
  }

  lemma {:induction false} StaysFailed(cap: nat, st: State, ops: seq<Op>)
    requires st.failed
    ensures RunFrom(cap, st, ops) == st
  {
    if ops != [] {
      StaysFailed(cap, st, ops[..|ops| - 1]);
    }
  }

  lemma FromOne(cap: nat, st: State, op: Op)
    ensures RunFrom(cap, st, [op]) == Step(cap, st, op)
  {
    assert [op][..0] == [];
    assert RunFrom(cap, st, []) == st;
  }

  /** sort.Ints over the keys of the map, by insertion. */
  method SortedIndices(active: map<int, Active>) returns (s: seq<int>)
    ensures s == Sorted(active.Keys)
  {
    s := [];
    var rest := active.Keys;
    while rest != {}
      invariant rest <= active.Keys && Sorts(s, active.Keys - rest)
      decreases rest
    {
      Inhabited(rest);
      var x :| x in rest;
      var n := |s|;
      while n > 0 && s[n - 1] > x
        invariant 0 <= n <= |s| && forall k | n <= k < |s| :: s[k] > x
      {
        n := n - 1;
      }
      BelowInserted(s, active.Keys - rest, n, x);
      Inserted(s, active.Keys - rest, n, x);
      s := s[..n] + [x] + s[n..];
      assert active.Keys - rest + {x} == active.Keys - (rest - {x});
      rest := rest - {x};
    }
    assert active.Keys - {} == active.Keys;
    SortedUnique(s, Sorted(active.Keys), active.Keys);
  }

  lemma Inserted(s: seq<int>, keys: set<int>, n: nat, x: int)
    requires Sorts(s, keys) && n <= |s| && x !in keys
    requires (forall k | 0 <= k < n :: s[k] < x) && forall k | n <= k < |s| :: s[k] > x
    ensures Sorts(s[..n] + [x] + s[n..], keys + {x})
  {
    var t := s[..n] + [x] + s[n..];
    assert s == s[..n] + s[n..];
    forall i ensures i in t <==> i in keys + {x} {
      assert i in t <==> i in s[..n] || i == x || i in s[n..];
    }
    InsertedAscends(s, n, x);
  }

  lemma InsertedAscends(s: seq<int>, n: nat, x: int)
    requires Ascending(s) && n <= |s| && (forall k | 0 <= k < n :: s[k] < x) && forall k | n <= k < |s| :: s[k] > x
    ensures Ascending(s[..n] + [x] + s[n..])
  {
    var t := s[..n] + [x] + s[n..];
    forall j, k | 0 <= j < k < |t| ensures t[j] < t[k] {
      assert t[k] == if k < n then s[k] else if k == n then x else s[k - 1];
      assert t[j] == if j < n then s[j] else if j == n then x else s[j - 1];
    }
  }

  lemma BelowInserted(s: seq<int>, keys: set<int>, n: nat, x: int)
    requires Sorts(s, keys) && n <= |s| && x !in keys && (n > 0 ==> s[n - 1] <= x)
    ensures forall k | 0 <= k < n :: s[k] < x
  {
    forall k | 0 <= k < n ensures s[k] < x {
      assert s[k] in s;
    }
  }

  class StreamParser {
    const cap: nat
    var active: map<int, Active>
    var out: seq<Sent>
    var stopped: bool

    ghost function View(): State
      reads this
    {
      State(active, out, stopped)
    }

    constructor (cap: nat)
      ensures this.cap == cap && View() == INITIAL
    {
      this.cap := cap;
      active, out, stopped := map[], [], false;
    }

    method Send(index: Option<int>, c: Chunk)
      modifies this`out
      ensures out == old(out) + [Sent(index, c)]
    {
      out := out + [Sent(index, c)];
    }

    method HandleFragment(f: Fragment)
      requires !stopped
      modifies this
      ensures View() == TakeFragment(cap, old(View()), f)
    {
      var a := if f.index in active then active[f.index] else NO_CALL;
      if f.id != "" && !a.started {
        a := a.(id := f.id);
      } else if a.id == "" && f.name != "" {
        a := a.(id := f.spare);
      }
      if f.name != "" {
        a := a.(name := f.name);
      }
      ghost var named := a;
      if a.id != "" && a.name != "" && !a.started {
        Send(Some(f.index), Start(a.id, a.name));
        a := a.(started := true);
        if a.args != "" {
          Send(Some(f.index), Delta(a.id, a.name, a.args));
        }
      }
      assert named == Named(if f.index in active then active[f.index] else NO_CALL, f);
      assert out == old(out) + Announced(named, f.index);
      if f.args != "" {
        if |a.args| + |f.args| > cap {
          active := active[f.index := a];
          Send(None, Failure);
          stopped := true;
          return;
        }
        a := a.(args := a.args + f.args);
        if a.started {
          Send(Some(f.index), Delta(a.id, a.name, f.args));
        }
      }
      assert named.args + "" == named.args;
      assert out == old(out) + Announced(named, f.index) + (if a.started then DeltaOf(a, f.index, f.args) else []);
      active := active[f.index := a];
    }

    method SendFinal(i: int) returns (sent: bool)
      requires i in active
      modifies this`out
      ensures out == old(out) + FinalOf(active, i) && sent == active[i].started
    {
      sent := active[i].started;
      if sent {
        Send(Some(i), Call(active[i].id, active[i].name, active[i].args));
      }
    }

    method SendFinals(indices: seq<int>) returns (unresolved: bool)
      requires forall k | 0 <= k < |indices| :: indices[k] in active
      modifies this`out
      ensures out == old(out) + Finals(active, indices)
      ensures unresolved == LeftIn(active, indices, |indices|)
    {
      unresolved := false;
      for n := 0 to |indices|
        invariant out == old(out) + Finals(active, indices[..n])
        invariant unresolved == LeftIn(active, indices, n)
      {
        var i := indices[n];
        assert indices[..n + 1] == indices[..n] + [i];
        FinalsSnoc(active, indices[..n], i);
        LeftSnoc(active, indices, n);
        var sent := SendFinal(i);
        if !sent {
          unresolved := true;
        }
      }
      assert indices[..|indices|] == indices;
    }

    /** Sends the final chunk of every started call; tells whether there are others. */
    method Flush() returns (unresolved: bool)
      modifies this`out
      ensures out == old(out) + Flushed(active)
      ensures unresolved == SomeUnstarted(active)
    {
      var indices := SortedIndices(active);
      forall k | 0 <= k < |indices| ensures indices[k] in active {
        assert indices[k] in indices;
      }
      unresolved := SendFinals(indices);
      SomeLeft(active, indices);
    }

    /** The end of the stream. */
    method Close(readError: bool, details: Option<string>) returns (log: seq<Sent>)
      modifies this`out
      ensures log == End(old(View()), readError, details)
    {
      if stopped {
        return out;
      }
      if readError {
        Send(None, Failure);
        return out;
      }
      var unresolved := Flush();
      if unresolved {
        Send(None, Unresolved);
        return out;
      }
      if details.Some? {
        Send(None, Shown(details.value));
      }
      Send(None, Chunk.Finish);
      return out;
    }

    method Finish(reason: string)
      requires !stopped
      modifies this
      ensures View() == Finishes(old(View()), reason)
    {
      if reason == TOOL_CALLS {
        var _ := Flush();
        active := map i | i in active && !active[i].started :: active[i];
      }
      Send(None, StepFinish(reason));
    }

    method HandlePayload(p: Payload)
      requires !stopped
      modifies this
      ensures View() == RunFrom(cap, old(View()), OpsOf(p))
    {
      if p.BadEvent? {
        HandleBadEvent();
      } else if p.Choice? {
        HandleChoice(p.shown, p.fragments, p.finish);
      }
    }

    method HandleBadEvent()
      requires !stopped
      modifies this
      ensures View() == RunFrom(cap, old(View()), OpsOf(BadEvent))
    {
      FromOne(cap, View(), Failing);
      Send(None, Failure);
      stopped := true;
    }

    method HandleChoice(shown: seq<string>, fragments: seq<Fragment>, finish: string)
      requires !stopped
      modifies this
      ensures View() == RunFrom(cap, old(View()), OpsOf(Choice(shown, fragments, finish)))
    {
      ghost var st := View();
      SendShown(shown);
      HandleFragments(fragments);
      FromSplits(cap, st, Shows(shown), Parts(fragments));
      FromSplits(cap, st, Shows(shown) + Parts(fragments), FinishOps(finish));
      HandleFinish(finish);
    }

    method HandleFinish(finish: string)
      modifies this
      ensures View() == RunFrom(cap, old(View()), FinishOps(finish))
    {
      FromOne(cap, View(), Finished(finish));
      if !stopped && finish != "" {
        Finish(finish);
      }
    }

    method SendShown(shown: seq<string>)
      requires !stopped
      modifies this`out
      ensures View() == RunFrom(cap, old(View()), Shows(shown))
    {
      for n := 0 to |shown|
        invariant View() == RunFrom(cap, old(View()), Shows(shown[..n]))
      {
        assert shown[..n + 1][..n] == shown[..n];
        ghost var before := Shows(shown[..n]);
        assert (before + [Show(shown[n])])[..|before|] == before;
        Send(None, Shown(shown[n]));
      }
      assert shown[..|shown|] == shown;
    }

    method HandleFragments(fragments: seq<Fragment>)
      requires !stopped
      modifies this
      ensures View() == RunFrom(cap, old(View()), Parts(fragments))
    {
      var n := 0;
      while n < |fragments| && !stopped
        invariant 0 <= n <= |fragments|
        invariant View() == RunFrom(cap, old(View()), Parts(fragments[..n]))
      {
        assert fragments[..n + 1][..n] == fragments[..n];
        ghost var before := Parts(fragments[..n]);
        assert (before + [Part(fragments[n])])[..|before|] == before;
        HandleFragment(fragments[n]);
        n := n + 1;
      }
      assert fragments == fragments[..n] + fragments[n..];
      PartsAppend(fragments[..n], fragments[n..]);
      FromSplits(cap, old(View()), Parts(fragments[..n]), Parts(fragments[n..]));
      if stopped {
        StaysFailed(cap, View(), Parts(fragments[n..]));
      } else {
        assert fragments[n..] == [];
      }
    }
  }

  predicate LeftIn(active: map<int, Active>, indices: seq<int>, n: nat)
    requires n <= |indices|
  {
    exists k | 0 <= k < n :: indices[k] in active && !active[indices[k]].started
  }

  lemma LeftSnoc(active: map<int, Active>, indices: seq<int>, n: nat)
    requires n < |indices|
    ensures LeftIn(active, indices, n + 1)
            <==> LeftIn(active, indices, n) || (indices[n] in active && !active[indices[n]].started)
  {
  }

  lemma FinalsSnoc(active: map<int, Active>, s: seq<int>, i: int)
    ensures Finals(active, s + [i]) == Finals(active, s) + FinalOf(active, i)
  {
    assert (s + [i])[..|s|] == s;
  }

  lemma SomeLeft(active: map<int, Active>, indices: seq<int>)
    requires indices == Sorted(active.Keys)
    ensures SomeUnstarted(active) <==> LeftIn(active, indices, |indices|)
  {
    if LeftIn(active, indices, |indices|) {
      var k :| 0 <= k < |indices| && indices[k] in active && !active[indices[k]].started;
      assert indices[k] in Unstarted(active);
    } else {
      forall i ensures i !in Unstarted(active) {
        if i in active {
          assert i in indices;
        }
      }
    }
  }

  lemma {:induction false} PartsAppend(a: seq<Fragment>, b: seq<Fragment>)
    ensures Parts(a + b) == Parts(a) + Parts(b)
  {
    if b == [] {
      assert a + b == a;
    } else {
      PartsAppend(a, b[..|b| - 1]);
      assert (a + b)[..|a + b| - 1] == a + b[..|b| - 1];
    }
  }

  lemma RunOne(cap: nat, payloads: seq<Payload>, n: nat)
    requires n < |payloads|
    ensures Run(cap, AllOps(payloads[..n + 1])) == RunFrom(cap, Run(cap, AllOps(payloads[..n])), OpsOf(payloads[n]))
  {
    assert payloads[..n + 1] == payloads[..n] + [payloads[n]];
    AllOpsAppend(payloads[..n], [payloads[n]]);
    OneGroup(payloads[n]);
    RunSplits(cap, AllOps(payloads[..n]), OpsOf(payloads[n]));
  }

  /** Payloads after the parser has stopped do not matter. */
  lemma RestIgnored(cap: nat, payloads: seq<Payload>, n: nat)
    requires n <= |payloads| && (n == |payloads| || Run(cap, AllOps(payloads[..n])).failed)
    ensures Run(cap, AllOps(payloads)) == Run(cap, AllOps(payloads[..n]))
  {
    assert payloads[..n] + payloads[n..] == payloads;
    if n == |payloads| {
      assert payloads[..n] == payloads;
    } else {
      AllOpsAppend(payloads[..n], payloads[n..]);
      RunSplits(cap, AllOps(payloads[..n]), AllOps(payloads[n..]));
      StaysFailed(cap, Run(cap, AllOps(payloads[..n])), AllOps(payloads[n..]));
    }
  }

  /** ParseStream. */
  method ParseStream(cap: nat, payloads: seq<Payload>, readError: bool, details: Option<string>)
    returns (log: seq<Sent>)
    ensures log == End(Run(cap, AllOps(payloads)), readError, details)
  {
    var parser := new StreamParser(cap);
    var n := 0;
    while n < |payloads| && !parser.stopped
      invariant 0 <= n <= |payloads| && fresh(parser) && parser.cap == cap
      invariant parser.View() == Run(cap, AllOps(payloads[..n]))
    {
      RunOne(cap, payloads, n);
      parser.HandlePayload(payloads[n]);
      n := n + 1;
    }
    RestIgnored(cap, payloads, n);
    log := parser.Close(readError, details);
  }
}
