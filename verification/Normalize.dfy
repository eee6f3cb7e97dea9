/**
 provider/normalize.go: a message history made acceptable to providers that want every tool
 call answered and the roles to alternate.
 */
module Normalize {
  import opened Provider

  const ABORTED: string := "Tool execution aborted"

  /** Tool messages go to the provider as user messages. */
  function Effective(m: Message): Role {
    if m.role == Tool then User else m.role
  }

  predicate Answers(m: Message) {
    m.role == Tool || m.role == User
  }

  /** A call that a following message has to answer. */
  predicate Expects(p: Part) {
    p.typ == PartToolCall && p.toolCallId != "" && "resultBlock" !in p.options
  }

  function Calls(ps: seq<Part>): seq<Part> {
    if ps == [] then []
    else Calls(ps[..|ps| - 1]) + (if Expects(ps[|ps| - 1]) then [ps[|ps| - 1]] else [])
  }

  /** The ids answered in one message. */
  function Answered(ps: seq<Part>): set<string> {
    set p | p in ps && p.typ == PartToolResult && p.toolCallId != "" :: p.toolCallId
  }

  /** The ids answered in the tool and user messages that the history starts with. */
  function AnsweredNext(ms: seq<Message>): set<string> {
    if ms == [] || !Answers(ms[0]) then {} else Answered(ms[0].content) + AnsweredNext(ms[1..])
  }

  function Abort(p: Part): Part {
    ToolResultPart(p.toolCallId, p.toolName, ABORTED)
  }

  function Orphans(calls: seq<Part>, answered: set<string>): seq<Part> {
    if calls == [] then []
    else Orphans(calls[..|calls| - 1], answered)
         + (if calls[|calls| - 1].toolCallId in answered then [] else [Abort(calls[|calls| - 1])])
  }

  /** The results that the first message of a history lacks. */
  function Missing(ms: seq<Message>): seq<Part>
    requires ms != []
  {
    if ms[0].role != Assistant then [] else Orphans(Calls(ms[0].content), AnsweredNext(ms[1..]))
  }

  /** ensureToolResultPairing. */
  function Paired(ms: seq<Message>): seq<Message> {
    if ms == [] then []
    else
      var orphans := Missing(ms);
      if orphans == [] then [ms[0]] + Paired(ms[1..])
      else if |ms| > 1 && Answers(ms[1]) then
        [ms[0]] + ([Message(ms[1].role, ms[1].content + orphans)] + Paired(ms[2..]))
      else [ms[0]] + ([Message(Tool, orphans)] + Paired(ms[1..]))
  }

  function Only(ps: seq<Part>, results: bool): seq<Part> {
    if ps == [] then []
    else
      Only(ps[..|ps| - 1], results)
      + (if (ps[|ps| - 1].typ == PartToolResult) == results then [ps[|ps| - 1]] else [])
  }

  function Joined(a: seq<Part>, b: seq<Part>): seq<Part> {
    if Only(a + b, true) == [] then a + b else Only(a + b, true) + Only(a + b, false)
  }

  function Add(result: seq<Message>, m: Message): seq<Message> {
    var n := |result|;
    if n > 0 && Effective(result[n - 1]) == Effective(m)
    then result[n - 1 := Message(result[n - 1].role, Joined(result[n - 1].content, m.content))]
    else result + [m]
  }

  /** mergeConsecutiveRoles. */
  function Merged(ms: seq<Message>): seq<Message> {
    if ms == [] then [] else Add(Merged(ms[..|ms| - 1]), ms[|ms| - 1])
  }

  function Normalized(ms: seq<Message>): seq<Message> {
    Merged(Paired(ms))
  }

  // ------------------------------------------------------------ what is wanted

  /** No two neighbours have the same role. */
  ghost predicate Alternating(ms: seq<Message>) {
    forall k | 0 <= k < |ms| - 1 :: Effective(ms[k]) != Effective(ms[k + 1])
  }

  /** The call with this id, made in message k, is answered in the tool and user messages
      directly after it. */
  ghost predicate AnsweredAfter(ms: seq<Message>, k: nat, id: string) {
    exists j | k < j < |ms| ::
      id in Answered(ms[j].content) && forall i | k < i <= j :: Answers(ms[i])
  }

  /** Every call of message k is answered by the messages directly after it. */
  ghost predicate PairedAt(ms: seq<Message>, k: nat)
    requires k < |ms|
  {
    ms[k].role == Assistant ==>
      forall p | p in ms[k].content && Expects(p) :: AnsweredAfter(ms, k, p.toolCallId)
  }

  ghost predicate AllPaired(ms: seq<Message>) {
    forall k | 0 <= k < |ms| :: PairedAt(ms, k)
  }

  /** Every call of message k is answered in the very next message. */
  ghost predicate AnsweredNextTo(ms: seq<Message>, k: nat)
    requires k < |ms|
  {
    ms[k].role == Assistant ==>
      forall p | p in ms[k].content && Expects(p) ::
        k + 1 < |ms| && Answers(ms[k + 1]) && p.toolCallId in Answered(ms[k + 1].content)
  }

  // ---------------------------------------------------- reference for the pairing

  lemma {:induction false} AnsweredNextIs(ms: seq<Message>, k: nat, id: string)
    requires k < |ms|
    ensures id in AnsweredNext(ms[k + 1..]) <==> AnsweredAfter(ms, k, id)
    decreases |ms| - k
  {
    var rest := ms[k + 1..];
    if rest != [] {
      assert rest[0] == ms[k + 1] && rest[1..] == ms[k + 2..];
      AnsweredNextIs(ms, k + 1, id);
      if Answers(rest[0]) {
        AnsweredStep(ms, k, id);
      }
    }
  }

  lemma AnsweredStep(ms: seq<Message>, k: nat, id: string)
    requires k + 1 < |ms| && Answers(ms[k + 1])
    ensures AnsweredAfter(ms, k, id) <==> id in Answered(ms[k + 1].content) || AnsweredAfter(ms, k + 1, id)
  {
    if AnsweredAfter(ms, k, id) {
      var j :| k < j < |ms| && id in Answered(ms[j].content) && forall i | k < i <= j :: Answers(ms[i]);
      if j > k + 1 {
        assert AnsweredAfter(ms, k + 1, id);
      }
    }
    if id in Answered(ms[k + 1].content) {
      assert forall i | k < i <= k + 1 :: Answers(ms[i]);
    }
    if AnsweredAfter(ms, k + 1, id) {
      var j :| k + 1 < j < |ms| && id in Answered(ms[j].content) && forall i | k + 1 < i <= j :: Answers(ms[i]);
      assert forall i | k < i <= j :: i == k + 1 || Answers(ms[i]);
    }
  }

  lemma {:induction false} CallsAre(ps: seq<Part>, p: Part)
    ensures p in Calls(ps) <==> p in ps && Expects(p)
  {
    if ps != [] {
      CallsAre(ps[..|ps| - 1], p);
      assert ps == ps[..|ps| - 1] + [ps[|ps| - 1]];
    }
  }

  lemma {:induction false} NoOrphans(calls: seq<Part>, answered: set<string>)
    ensures Orphans(calls, answered) == [] <==> forall p | p in calls :: p.toolCallId in answered
  {
    if calls != [] {
      NoOrphans(calls[..|calls| - 1], answered);
      assert calls == calls[..|calls| - 1] + [calls[|calls| - 1]];
    }
  }

  /** Nothing is missing for a message exactly when its calls are all answered. */
  lemma MissingIs(ms: seq<Message>, k: nat)
    requires k < |ms|
    ensures Missing(ms[k..]) == [] <==> PairedAt(ms, k)
  {
    assert ms[k..][0] == ms[k] && ms[k..][1..] == ms[k + 1..];
    if ms[k].role == Assistant {
      NoOrphans(Calls(ms[k].content), AnsweredNext(ms[k + 1..]));
      forall p ensures p in Calls(ms[k].content) <==> p in ms[k].content && Expects(p) { CallsAre(ms[k].content, p); }
      forall p | p in ms[k].content
        ensures p.toolCallId in AnsweredNext(ms[k + 1..]) <==> AnsweredAfter(ms, k, p.toolCallId)
      {
        AnsweredNextIs(ms, k, p.toolCallId);
      }
    }
  }

  // ------------------------------------------------------- pairing makes it so

  /** Nothing is missing anywhere. */
  predicate Clean(ms: seq<Message>) {
    ms == [] || (Missing(ms) == [] && Clean(ms[1..]))
  }

  lemma {:induction false} CleanIs(ms: seq<Message>, n: nat)
    requires n <= |ms|
    ensures Clean(ms[n..]) <==> forall k | n <= k < |ms| :: PairedAt(ms, k)
    decreases |ms| - n
  {
    if n < |ms| {
      assert ms[n..][1..] == ms[n + 1..];
      CleanIs(ms, n + 1);
      MissingIs(ms, n);
    }
  }

  lemma AnsweredUnion(a: seq<Part>, b: seq<Part>)
    ensures Answered(a + b) == Answered(a) + Answered(b)
  {
    assert forall p :: p in a + b <==> p in a || p in b;
  }

  lemma {:induction false} PairedAnswers(ms: seq<Message>)
    ensures AnsweredNext(ms) == AnsweredNext(Paired(ms))
  {
    if ms != [] && Answers(ms[0]) {
      assert Missing(ms) == [];
      PairedAnswers(ms[1..]);
      assert Paired(ms)[1..] == Paired(ms[1..]);
    }
  }

  lemma {:induction false} AbortsAnswer(calls: seq<Part>, answered: set<string>)
    requires forall p | p in calls :: Expects(p)
    ensures forall p | p in calls :: p.toolCallId in answered || p.toolCallId in Answered(Orphans(calls, answered))
  {
    if calls != [] {
      var front, last := calls[..|calls| - 1], calls[|calls| - 1];
      assert calls == front + [last];
      AbortsAnswer(front, answered);
      AnsweredUnion(Orphans(front, answered), [Abort(last)]);
      assert Abort(last) in [Abort(last)];
      assert Orphans(front, answered) + [] == Orphans(front, answered);
      assert last in calls;
    }
  }

  /** With its orphans answered, nothing is missing for the first message. */
  lemma NothingMissing(ms: seq<Message>, out: seq<Message>)
    requires ms != [] && out != [] && out[0] == ms[0]
    requires AnsweredNext(ms[1..]) + Answered(Missing(ms)) <= AnsweredNext(out[1..])
    ensures Missing(out) == []
  {
    if ms[0].role == Assistant {
      var calls := Calls(ms[0].content);
      forall p | p in calls ensures Expects(p) { CallsAre(ms[0].content, p); }
      AbortsAnswer(calls, AnsweredNext(ms[1..]));
      NoOrphans(calls, AnsweredNext(out[1..]));
    }
  }

  lemma {:induction false} PairedIsClean(ms: seq<Message>)
    ensures Clean(Paired(ms))
    decreases |ms|
  {
    if ms != [] {
      var orphans, out := Missing(ms), Paired(ms);
      PairedIsClean(ms[1..]);
      PairedAnswers(ms[1..]);
      if orphans == [] {
        assert out[1..] == Paired(ms[1..]) && Answered([]) == {};
        NothingMissing(ms, out);
      } else if |ms| > 1 && Answers(ms[1]) {
        PairedIsClean(ms[2..]);
        PairedAnswers(ms[2..]);
        assert out[1..][1..] == Paired(ms[2..]) && ms[1..][1..] == ms[2..];
        AnsweredUnion(ms[1].content, orphans);
        NothingMissing(ms, out);
      } else {
        assert out[1..][1..] == Paired(ms[1..]);
        NothingMissing(ms, out);
      }
    }
  }

  lemma {:induction false} CleanIsKept(ms: seq<Message>)
    requires Clean(ms)
    ensures Paired(ms) == ms
  {
    if ms != [] {
      CleanIsKept(ms[1..]);
      assert ms == [ms[0]] + ms[1..];
    }
  }

  // ------------------------------------------------------------------ merging

  lemma {:induction false} OnlyHas(ps: seq<Part>, results: bool, p: Part)
    ensures p in Only(ps, results) <==> p in ps && (p.typ == PartToolResult) == results
  {
    if ps != [] {
      OnlyHas(ps[..|ps| - 1], results, p);
      assert ps == ps[..|ps| - 1] + [ps[|ps| - 1]];
    }
  }

  lemma JoinedHas(a: seq<Part>, b: seq<Part>, p: Part)
    ensures p in Joined(a, b) <==> p in a || p in b
  {
    OnlyHas(a + b, true, p);
    OnlyHas(a + b, false, p);
  }

  lemma JoinedAnswers(a: seq<Part>, b: seq<Part>)
    ensures Answered(Joined(a, b)) == Answered(a) + Answered(b)
  {
    forall p ensures p in Joined(a, b) <==> p in a || p in b { JoinedHas(a, b, p); }
  }

  /** The ids a message wants answered. */
  function Demands(m: Message): set<string> {
    if m.role != Assistant then {} else set p | p in m.content && Expects(p) :: p.toolCallId
  }

  function Supply(m: Message): set<string> {
    if Answers(m) then Answered(m.content) else {}
  }

  lemma JoinedDemands(r: Role, a: seq<Part>, b: seq<Part>)
    ensures Demands(Message(r, Joined(a, b))) == Demands(Message(r, a)) + Demands(Message(r, b))
  {
    forall p ensures p in Joined(a, b) <==> p in a || p in b { JoinedHas(a, b, p); }
  }

  /** Part way through the merge: the messages before the last two are answered, and what
      the last two want is in the last one or is still to come. */
  ghost predicate Underway(r: seq<Message>, rest: seq<Message>) {
    && (forall k | 0 <= k < |r| - 2 :: Demands(r[k]) <= Supply(r[k + 1]))
    && (|r| >= 2 ==>
          Demands(r[|r| - 2]) <= Supply(r[|r| - 1]) + (if Answers(r[|r| - 1]) then AnsweredNext(rest) else {}))
    && (|r| >= 1 ==> Demands(r[|r| - 1]) <= AnsweredNext(rest))
  }

  lemma CleanDemands(rest: seq<Message>)
    requires rest != [] && Missing(rest) == []
    ensures Demands(rest[0]) <= AnsweredNext(rest[1..])
  {
    if rest[0].role == Assistant {
      NoOrphans(Calls(rest[0].content), AnsweredNext(rest[1..]));
      forall p ensures p in Calls(rest[0].content) <==> p in rest[0].content && Expects(p) {
        CallsAre(rest[0].content, p);
      }
    }
  }

  lemma UnderwayStep(r: seq<Message>, rest: seq<Message>)
    requires rest != [] && Missing(rest) == [] && Underway(r, rest)
    ensures Underway(Add(r, rest[0]), rest[1..])
  {
    var m, n := rest[0], |r|;
    CleanDemands(rest);
    if n > 0 && Effective(r[n - 1]) == Effective(m) {
      JoinedAnswers(r[n - 1].content, m.content);
      JoinedDemands(r[n - 1].role, r[n - 1].content, m.content);
    }
  }

  lemma {:induction false} MergeUnderway(ms: seq<Message>, n: nat)
    requires n <= |ms| && Clean(ms)
    ensures Underway(Merged(ms[..n]), ms[n..]) && Clean(ms[n..])
  {
    if n == 0 {
      assert ms[0..] == ms;
    } else {
      MergeUnderway(ms, n - 1);
      UnderwayStep(Merged(ms[..n - 1]), ms[n - 1..]);
      assert ms[..n][..n - 1] == ms[..n - 1] && ms[n - 1..][1..] == ms[n..];
    }
  }

  lemma AddAlternates(r: seq<Message>, m: Message)
    requires Alternating(r)
    ensures Alternating(Add(r, m))
  {
  }

  /** Whatever the history, the roles of the merged one alternate. */
  lemma {:induction false} MergedAlternates(ms: seq<Message>)
    ensures Alternating(Merged(ms))
  {
    if ms != [] {
      MergedAlternates(ms[..|ms| - 1]);
      AddAlternates(Merged(ms[..|ms| - 1]), ms[|ms| - 1]);
    }
  }

  lemma {:induction false} AlternatingIsKept(ms: seq<Message>)
    requires Alternating(ms)
    ensures Merged(ms) == ms
  {
    if ms != [] {
      AlternatingIsKept(ms[..|ms| - 1]);
      assert ms == ms[..|ms| - 1] + [ms[|ms| - 1]];
    }
  }

  // ------------------------------------------------------------- main results

  /** After normalizing, the roles alternate, and every call is answered in the very next message. */
  lemma NormalizedIsPaired(ms: seq<Message>)
    ensures Alternating(Normalized(ms))
    ensures forall k | 0 <= k < |Normalized(ms)| :: AnsweredNextTo(Normalized(ms), k)
  {
    var x := Paired(ms);
    var out := Normalized(ms);
    MergedAlternates(x);
    PairedIsClean(ms);
    MergeUnderway(x, |x|);
    assert x[..|x|] == x && x[|x|..] == [];
    forall k | 0 <= k < |out| ensures AnsweredNextTo(out, k) {
      MetDemands(out, k);
    }
  }

  lemma MetDemands(ms: seq<Message>, k: nat)
    requires k < |ms| && Underway(ms, [])
    ensures AnsweredNextTo(ms, k)
  {
    assert AnsweredNext([]) == {};
    if ms[k].role == Assistant {
      forall p | p in ms[k].content && Expects(p) ensures p.toolCallId in Demands(ms[k]) {
      }
    }
  }

  /** A history that needs nothing. */
  ghost predicate Normal(ms: seq<Message>) {
    Alternating(ms) && AllPaired(ms)
  }

  /** Exactly the histories that are paired and alternate are left as they are. */
  lemma NormalIsKept(ms: seq<Message>)
    ensures Normalized(ms) == ms <==> Normal(ms)
  {
    assert ms[0..] == ms;
    CleanIs(ms, 0);
    if Normal(ms) {
      CleanIsKept(ms);
      AlternatingIsKept(ms);
    }
    if Normalized(ms) == ms {
      NormalizedIsPaired(ms);
      forall k | 0 <= k < |ms| ensures PairedAt(ms, k) { NextIsAfter(ms, k); }
    }
  }

  lemma NextIsAfter(ms: seq<Message>, k: nat)
    requires k < |ms| && AnsweredNextTo(ms, k)
    ensures PairedAt(ms, k)
  {
    if ms[k].role == Assistant {
      forall p | p in ms[k].content && Expects(p) ensures AnsweredAfter(ms, k, p.toolCallId) {
        assert forall i | k < i <= k + 1 :: Answers(ms[i]);
      }
    }
  }

  /** Normalizing twice is normalizing once. */
  lemma NormalizedIsNormal(ms: seq<Message>)
    ensures Normal(Normalized(ms)) && Normalized(Normalized(ms)) == Normalized(ms)
  {
    var out := Normalized(ms);
    NormalizedIsPaired(ms);
    forall k | 0 <= k < |out| ensures PairedAt(out, k) { NextIsAfter(out, k); }
    NormalIsKept(out);
  }

  // -------------------------------------------------------------- conservation

  /** A part and whose turn it is in. */
  datatype Placed = Placed(role: Role, part: Part)

  function Tagged(r: Role, ps: seq<Part>): seq<Placed> {
    if ps == [] then [] else Tagged(r, ps[..|ps| - 1]) + [Placed(r, ps[|ps| - 1])]
  }

  /** All tool results of a history in order, or all other parts. */
  function Flat(ms: seq<Message>, results: bool): seq<Placed> {
    if ms == [] then []
    else Flat(ms[..|ms| - 1], results)
         + Tagged(Effective(ms[|ms| - 1]), Only(ms[|ms| - 1].content, results))
  }

  lemma Regroup<T>(a: seq<T>, b: seq<T>, c: seq<T>)
    ensures a + b + c == a + (b + c)
  {
  }

  lemma TaggedSnoc(r: Role, ps: seq<Part>, p: Part)
    ensures Tagged(r, ps + [p]) == Tagged(r, ps) + [Placed(r, p)]
  {
    assert (ps + [p])[..|ps|] == ps;
  }

  lemma {:induction false} TaggedAppend(r: Role, a: seq<Part>, b: seq<Part>)
    ensures Tagged(r, a + b) == Tagged(r, a) + Tagged(r, b)
  {
    if b == [] {
      assert a + b == a;
    } else {
      var front, p := b[..|b| - 1], b[|b| - 1];
      TaggedAppend(r, a, front);
      assert a + b == (a + front) + [p];
      TaggedSnoc(r, a + front, p);
      Regroup(Tagged(r, a), Tagged(r, front), [Placed(r, p)]);
    }
  }

  lemma OnlySnoc(ps: seq<Part>, p: Part, results: bool)
    ensures Only(ps + [p], results) == Only(ps, results) + (if (p.typ == PartToolResult) == results then [p] else [])
  {
    assert (ps + [p])[..|ps|] == ps;
  }

  lemma {:induction false} OnlyAppend(a: seq<Part>, b: seq<Part>, results: bool)
    ensures Only(a + b, results) == Only(a, results) + Only(b, results)
  {
    if b == [] {
      assert a + b == a;
    } else {
      var front, p := b[..|b| - 1], b[|b| - 1];
      OnlyAppend(a, front, results);
      assert a + b == (a + front) + [p];
      OnlySnoc(a + front, p, results);
      Regroup(Only(a, results), Only(front, results), if (p.typ == PartToolResult) == results then [p] else []);
    }
  }

  lemma {:induction false} OnlyOnly(ps: seq<Part>, results: bool)
    ensures Only(Only(ps, results), results) == Only(ps, results)
    ensures Only(Only(ps, results), !results) == []
  {
    if ps != [] {
      var front, p := ps[..|ps| - 1], ps[|ps| - 1];
      OnlyOnly(front, results);
      if (p.typ == PartToolResult) == results {
        assert (Only(front, results) + [p])[..|Only(front, results)|] == Only(front, results);
      } else {
        assert Only(front, results) + [] == Only(front, results);
      }
    }
  }

  lemma JoinedKeeps(a: seq<Part>, b: seq<Part>, results: bool)
    ensures Only(Joined(a, b), results) == Only(a, results) + Only(b, results)
  {
    OnlyAppend(a, b, results);
    OnlyAppend(Only(a + b, true), Only(a + b, false), results);
    OnlyOnly(a + b, true);
    OnlyOnly(a + b, false);
  }

  lemma FlatSnoc(ms: seq<Message>, m: Message, results: bool)
    ensures Flat(ms + [m], results) == Flat(ms, results) + Tagged(Effective(m), Only(m.content, results))
  {
    assert (ms + [m])[..|ms|] == ms;
  }

  lemma AddKeeps(r: seq<Message>, m: Message, results: bool)
    ensures Flat(Add(r, m), results) == Flat(r, results) + Tagged(Effective(m), Only(m.content, results))
  {
    var n := |r|;
    if n > 0 && Effective(r[n - 1]) == Effective(m) {
      assert r == r[..n - 1] + [r[n - 1]];
      JoinKeeps(r[..n - 1], r[n - 1], m, results);
      assert Add(r, m) == r[..n - 1] + [Message(r[n - 1].role, Joined(r[n - 1].content, m.content))];
    } else {
      FlatSnoc(r, m, results);
    }
  }

  lemma JoinKeeps(front: seq<Message>, last: Message, m: Message, results: bool)
    requires Effective(last) == Effective(m)
    ensures Flat(front + [Message(last.role, Joined(last.content, m.content))], results)
            == Flat(front + [last], results) + Tagged(Effective(m), Only(m.content, results))
  {
    FlatSnoc(front, Message(last.role, Joined(last.content, m.content)), results);
    FlatSnoc(front, last, results);
    JoinedKeeps(last.content, m.content, results);
    TaggedAppend(Effective(m), Only(last.content, results), Only(m.content, results));
    Regroup(Flat(front, results), Tagged(Effective(m), Only(last.content, results)),
            Tagged(Effective(m), Only(m.content, results)));
  }

  /** Merging moves no part to another role's turn and reorders neither the results nor the rest. */
  lemma {:induction false} MergedKeeps(ms: seq<Message>, results: bool)
    ensures Flat(Merged(ms), results) == Flat(ms, results)
  {
    if ms != [] {
      MergedKeeps(ms[..|ms| - 1], results);
      AddKeeps(Merged(ms[..|ms| - 1]), ms[|ms| - 1], results);
    }
  }

  /** c is a and b shuffled together, each in its own order. */
  ghost predicate Woven<T>(a: seq<T>, b: seq<T>, c: seq<T>)
    decreases |c|
  {
    if c == [] then a == [] && b == []
    else (a != [] && a[0] == c[0] && Woven(a[1..], b, c[1..])) || (b != [] && b[0] == c[0] && Woven(a, b[1..], c[1..]))
  }

  lemma {:induction false} WovenSelf<T>(a: seq<T>)
    ensures Woven(a, [], a) && Woven([], a, a)
  {
    if a != [] {
      WovenSelf(a[1..]);
    }
  }

  lemma {:induction false} WovenAppend<T>(a1: seq<T>, b1: seq<T>, c1: seq<T>, a2: seq<T>, b2: seq<T>, c2: seq<T>)
    requires Woven(a1, b1, c1) && Woven(a2, b2, c2)
    ensures Woven(a1 + a2, b1 + b2, c1 + c2)
    decreases |c1|
  {
    if c1 == [] {
      assert a1 + a2 == a2 && b1 + b2 == b2 && c1 + c2 == c2;
    } else {
      assert (c1 + c2)[1..] == c1[1..] + c2;
      if a1 != [] && a1[0] == c1[0] && Woven(a1[1..], b1, c1[1..]) {
        WovenAppend(a1[1..], b1, c1[1..], a2, b2, c2);
        assert (a1 + a2)[1..] == a1[1..] + a2;
      } else {
        WovenAppend(a1, b1[1..], c1[1..], a2, b2, c2);
        assert (b1 + b2)[1..] == b1[1..] + b2;
      }
    }
  }

  /** The results added: for every message those it lacks. */
  function Synthetic(ms: seq<Message>): seq<Placed> {
    if ms == [] then [] else Tagged(User, Missing(ms)) + Synthetic(ms[1..])
  }

  lemma {:induction false} FlatAppend(a: seq<Message>, b: seq<Message>, results: bool)
    ensures Flat(a + b, results) == Flat(a, results) + Flat(b, results)
  {
    if b == [] {
      assert a + b == a;
    } else {
      FlatAppend(a, b[..|b| - 1], results);
      FlatJoin(a, b[..|b| - 1], b[|b| - 1], results);
      assert b == b[..|b| - 1] + [b[|b| - 1]];
    }
  }

  lemma FlatJoin(a: seq<Message>, front: seq<Message>, m: Message, results: bool)
    requires Flat(a + front, results) == Flat(a, results) + Flat(front, results)
    ensures Flat(a + (front + [m]), results) == Flat(a, results) + Flat(front + [m], results)
  {
    assert a + (front + [m]) == (a + front) + [m];
    var t := Tagged(Effective(m), Only(m.content, results));
    JoinedFlat(a + front, m, results, Flat(a, results), Flat(front, results), t);
    FlatSnoc(front, m, results);
  }

  lemma JoinedFlat(ms: seq<Message>, m: Message, results: bool, x: seq<Placed>, y: seq<Placed>, z: seq<Placed>)
    requires Flat(ms, results) == x + y && z == Tagged(Effective(m), Only(m.content, results))
    ensures Flat(ms + [m], results) == x + (y + z)
  {
    FlatSnoc(ms, m, results);
    Regroup(x, y, z);
  }

  lemma {:induction false} OrphansAreResults(calls: seq<Part>, answered: set<string>)
    ensures Only(Orphans(calls, answered), true) == Orphans(calls, answered)
    ensures Only(Orphans(calls, answered), false) == []
  {
    if calls != [] {
      var front, p := calls[..|calls| - 1], calls[|calls| - 1];
      OrphansAreResults(front, answered);
      if p.toolCallId !in answered {
        OnlyAppend(Orphans(front, answered), [Abort(p)], true);
        OnlyAppend(Orphans(front, answered), [Abort(p)], false);
        assert [Abort(p)][..0] == [];
      } else {
        assert Orphans(front, answered) + [] == Orphans(front, answered);
      }
    }
  }

  lemma FlatCons(m: Message, rest: seq<Message>, results: bool)
    ensures Flat([m] + rest, results) == Tagged(Effective(m), Only(m.content, results)) + Flat(rest, results)
  {
    FlatAppend([m], rest, results);
    FlatSnoc([], m, results);
    assert [] + [m] == [m];
    assert [] + Tagged(Effective(m), Only(m.content, results)) == Tagged(Effective(m), Only(m.content, results));
  }

  lemma MissingAreResults(ms: seq<Message>)
    requires ms != []
    ensures Only(Missing(ms), true) == Missing(ms) && Only(Missing(ms), false) == []
  {
    if ms[0].role == Assistant {
      OrphansAreResults(Calls(ms[0].content), AnsweredNext(ms[1..]));
    }
  }

  /** Out of these messages come those: the same parts, with the synthetic results woven in. */
  ghost predicate Adds(ms: seq<Message>, added: seq<Placed>, out: seq<Message>) {
    Flat(out, false) == Flat(ms, false) && Woven(Flat(ms, true), added, Flat(out, true))
  }

  lemma AddsUnchanged(m: Message, rest: seq<Message>, added: seq<Placed>, out: seq<Message>)
    requires Adds(rest, added, out)
    ensures Adds([m] + rest, added, [m] + out)
  {
    FlatCons(m, rest, false);
    FlatCons(m, out, false);
    FlatCons(m, rest, true);
    FlatCons(m, out, true);
    var t := Tagged(Effective(m), Only(m.content, true));
    WovenSelf(t);
    WovenAppend(t, [], t, Flat(rest, true), added, Flat(out, true));
    assert [] + added == added;
  }

  lemma AddsMessage(orphans: seq<Part>, rest: seq<Message>, added: seq<Placed>, out: seq<Message>)
    requires Adds(rest, added, out) && Only(orphans, true) == orphans && Only(orphans, false) == []
    ensures Adds(rest, Tagged(User, orphans) + added, [Message(Tool, orphans)] + out)
  {
    var m := Message(Tool, orphans);
    FlatCons(m, out, false);
    FlatCons(m, out, true);
    assert [] + Flat(out, false) == Flat(out, false);
    var t := Tagged(User, orphans);
    WovenSelf(t);
    WovenAppend([], t, t, Flat(rest, true), added, Flat(out, true));
    assert [] + Flat(rest, true) == Flat(rest, true);
  }

  lemma AddsToMessage(m: Message, orphans: seq<Part>, rest: seq<Message>, added: seq<Placed>, out: seq<Message>)
    requires Adds(rest, added, out) && Only(orphans, true) == orphans && Only(orphans, false) == [] && Answers(m)
    ensures Adds([m] + rest, Tagged(User, orphans) + added, [Message(m.role, m.content + orphans)] + out)
  {
    var m1 := Message(m.role, m.content + orphans);
    FlatCons(m, rest, false);
    FlatCons(m, rest, true);
    FlatCons(m1, out, false);
    FlatCons(m1, out, true);
    OnlyAppend(m.content, orphans, false);
    OnlyAppend(m.content, orphans, true);
    TaggedAppend(User, Only(m.content, true), orphans);
    assert Only(m.content, false) + [] == Only(m.content, false);
    WovenTwo(Tagged(User, Only(m.content, true)), Tagged(User, orphans), Flat(rest, true), added, Flat(out, true));
  }

  lemma WovenTwo<T>(t: seq<T>, u: seq<T>, a: seq<T>, b: seq<T>, c: seq<T>)
    requires Woven(a, b, c)
    ensures Woven(t + a, u + b, t + u + c)
  {
    WovenSelf(t);
    WovenSelf(u);
    WovenAppend(t, [], t, [], u, u);
    assert t + [] == t && [] + u == u;
    WovenAppend(t, u, t + u, a, b, c);
  }

  lemma AddsAppended(m: Message, next: Message, orphans: seq<Part>, rest: seq<Message>, added: seq<Placed>,
                     out: seq<Message>)
    requires Only(orphans, true) == orphans && Only(orphans, false) == [] && Answers(next) && Adds(rest, added, out)
    ensures Adds([m] + ([next] + rest), Tagged(User, orphans) + added,
                 [m] + ([Message(next.role, next.content + orphans)] + out))
  {
    AddsToMessage(next, orphans, rest, added, out);
    AddsUnchanged(m, [next] + rest, Tagged(User, orphans) + added, [Message(next.role, next.content + orphans)] + out);
  }

  lemma AddsInserted(m: Message, orphans: seq<Part>, rest: seq<Message>, added: seq<Placed>, out: seq<Message>)
    requires Only(orphans, true) == orphans && Only(orphans, false) == [] && Adds(rest, added, out)
    ensures Adds([m] + rest, Tagged(User, orphans) + added, [m] + ([Message(Tool, orphans)] + out))
  {
    AddsMessage(orphans, rest, added, out);
    AddsUnchanged(m, rest, Tagged(User, orphans) + added, [Message(Tool, orphans)] + out);
  }

  lemma PairedCons(m: Message, rest: seq<Message>)
    ensures var orphans := Missing([m] + rest);
            Paired([m] + rest)
            == if orphans == [] then [m] + Paired(rest)
               else if rest != [] && Answers(rest[0])
               then [m] + ([Message(rest[0].role, rest[0].content + orphans)] + Paired(rest[1..]))
               else [m] + ([Message(Tool, orphans)] + Paired(rest))
  {
    assert ([m] + rest)[1..] == rest;
    if rest != [] {
      assert ([m] + rest)[2..] == rest[1..];
    }
  }

  lemma SyntheticCons(m: Message, rest: seq<Message>)
    ensures Synthetic([m] + rest) == Tagged(User, Missing([m] + rest)) + Synthetic(rest)
  {
    assert ([m] + rest)[1..] == rest;
  }

  lemma NoneSynthetic(m: Message, rest: seq<Message>)
    requires Missing([m] + rest) == []
    ensures Synthetic([m] + rest) == Synthetic(rest)
  {
    SyntheticCons(m, rest);
    assert [] + Synthetic(rest) == Synthetic(rest);
  }

  /** With the answers in the next message: its results are what both lists lack. */
  lemma SyntheticAppended(m: Message, next: Message, rest: seq<Message>, ms: seq<Message>)
    requires ms == [m] + ([next] + rest) && Answers(next)
    ensures Synthetic(ms) == Tagged(User, Missing(ms)) + Synthetic(rest)
  {
    SyntheticCons(m, [next] + rest);
    NoneSynthetic(next, rest);
  }

  lemma PairedAppended(m: Message, next: Message, rest: seq<Message>, ms: seq<Message>)
    requires ms == [m] + ([next] + rest) && Missing(ms) != [] && Answers(next)
    ensures Paired(ms) == [m] + ([Message(next.role, next.content + Missing(ms))] + Paired(rest))
  {
    PairedCons(m, [next] + rest);
    assert ([next] + rest)[1..] == rest;
  }

  lemma AddsForAppended(m: Message, next: Message, rest: seq<Message>, ms: seq<Message>)
    requires ms == [m] + ([next] + rest) && Missing(ms) != [] && Answers(next)
    requires Adds(rest, Synthetic(rest), Paired(rest))
    ensures Adds(ms, Synthetic(ms), Paired(ms))
  {
    MissingAreResults(ms);
    AddsAppended(m, next, Missing(ms), rest, Synthetic(rest), Paired(rest));
    PairedAppended(m, next, rest, ms);
    SyntheticAppended(m, next, rest, ms);
  }

  lemma AddsForOthers(m: Message, rest: seq<Message>)
    requires Missing([m] + rest) == [] || rest == [] || !Answers(rest[0])
    requires Adds(rest, Synthetic(rest), Paired(rest))
    ensures Adds([m] + rest, Synthetic([m] + rest), Paired([m] + rest))
  {
    PairedCons(m, rest);
    if Missing([m] + rest) == [] {
      AddsUnchanged(m, rest, Synthetic(rest), Paired(rest));
      NoneSynthetic(m, rest);
    } else {
      MissingAreResults([m] + rest);
      AddsInserted(m, Missing([m] + rest), rest, Synthetic(rest), Paired(rest));
      SyntheticCons(m, rest);
    }
  }

  /** Pairing adds the synthetic results and nothing else, and drops and moves nothing. */
  lemma {:induction false} PairedAdds(ms: seq<Message>)
    ensures Adds(ms, Synthetic(ms), Paired(ms))
    decreases |ms|
  {
    if ms != [] {
      assert ms == [ms[0]] + ms[1..];
      if Missing(ms) != [] && |ms| > 1 && Answers(ms[1]) {
        PairedAdds(ms[2..]);
        assert ms[1..] == [ms[1]] + ms[2..];
        AddsForAppended(ms[0], ms[1], ms[2..], ms);
      } else {
        PairedAdds(ms[1..]);
        AddsForOthers(ms[0], ms[1..]);
      }
    }
  }

  function Count(ps: seq<Part>, id: string): nat {
    if ps == [] then 0 else Count(ps[..|ps| - 1], id) + (if ps[|ps| - 1].toolCallId == id then 1 else 0)
  }

  /** One synthetic result for each call that is not answered, none for the others. */
  lemma {:induction false} OneEach(calls: seq<Part>, answered: set<string>, id: string)
    ensures Count(Orphans(calls, answered), id) == if id in answered then 0 else Count(calls, id)
  {
    if calls != [] {
      OneEach(calls[..|calls| - 1], answered, id);
      OneMore(calls[..|calls| - 1], calls[|calls| - 1], answered, id);
      assert calls == calls[..|calls| - 1] + [calls[|calls| - 1]];
    }
  }

  lemma OneMore(front: seq<Part>, p: Part, answered: set<string>, id: string)
    requires Count(Orphans(front, answered), id) == if id in answered then 0 else Count(front, id)
    ensures Count(Orphans(front + [p], answered), id) == if id in answered then 0 else Count(front + [p], id)
  {
    CountSnoc(front, p, id);
    assert (front + [p])[..|front|] == front;
    var os := Orphans(front, answered);
    CountSnoc(os, Abort(p), id);
    assert os + [] == os;
  }

  lemma CountSnoc(ps: seq<Part>, p: Part, id: string)
    ensures Count(ps + [p], id) == Count(ps, id) + (if p.toolCallId == id then 1 else 0)
  {
    assert (ps + [p])[..|ps|] == ps;
  }

  /** Conservation: everything but the tool results is kept in order and in the same role's
      turns; the results are the original ones in order, with exactly one more, of the
      aborted kind, for each call nothing answers. */
  lemma NormalizedConserves(ms: seq<Message>)
    ensures Adds(ms, Synthetic(ms), Normalized(ms))
    ensures forall k, id | 0 <= k < |ms| ::
              Count(Missing(ms[k..]), id)
              == if ms[k].role != Assistant || AnsweredAfter(ms, k, id) then 0 else Count(Calls(ms[k].content), id)
  {
    PairedAdds(ms);
    MergedKeeps(Paired(ms), true);
    MergedKeeps(Paired(ms), false);
    forall k, id | 0 <= k < |ms|
      ensures Count(Missing(ms[k..]), id)
              == if ms[k].role != Assistant || AnsweredAfter(ms, k, id) then 0 else Count(Calls(ms[k].content), id)
    {
      MissingCount(ms, k, id);
    }
  }

  lemma MissingCount(ms: seq<Message>, k: nat, id: string)
    requires k < |ms|
    ensures Count(Missing(ms[k..]), id)
            == if ms[k].role != Assistant || AnsweredAfter(ms, k, id) then 0 else Count(Calls(ms[k].content), id)
  {
    assert ms[k..][0] == ms[k] && ms[k..][1..] == ms[k + 1..];
    OneEach(Calls(ms[k].content), AnsweredNext(ms[k + 1..]), id);
    AnsweredNextIs(ms, k, id);
  }

  // -------------------------------------------------------------- the program

  function Assistants(ms: seq<Message>): nat {
    if ms == [] then 0 else Assistants(ms[1..]) + (if ms[0].role == Assistant then 1 else 0)
  }

  method ToolCalls(ps: seq<Part>) returns (calls: seq<Part>)
    ensures calls == Calls(ps)
  {
    calls := [];
    for n := 0 to |ps|
      invariant calls == Calls(ps[..n])
    {
      assert ps[..n + 1][..n] == ps[..n];
      var p := ps[n];
      if p.typ == PartToolCall && p.toolCallId != "" {
        if "resultBlock" in p.options {
          continue;
        }
        calls := calls + [p];
      }
    }
    assert ps[..|ps|] == ps;
  }

  /** The scan over the tool and user messages after message i. */
  method ResultIds(ms: seq<Message>, i: nat) returns (ids: set<string>)
    requires i < |ms|
    ensures ids == AnsweredNext(ms[i + 1..])
  {
    ids := {};
    var j := i + 1;
    while j < |ms|
      invariant i < j <= |ms|
      invariant ids + AnsweredNext(ms[j..]) == AnsweredNext(ms[i + 1..])
      decreases |ms| - j
    {
      assert ms[j..][0] == ms[j] && ms[j..][1..] == ms[j + 1..];
      var r := ms[j].role;
      if r != Tool && r != User {
        break;
      }
      ids := ids + (set p | p in ms[j].content && p.typ == PartToolResult && p.toolCallId != "" :: p.toolCallId);
      j := j + 1;
    }
  }

  method Aborts(calls: seq<Part>, ids: set<string>) returns (orphans: seq<Part>)
    ensures orphans == Orphans(calls, ids)
  {
    orphans := [];
    for n := 0 to |calls|
      invariant orphans == Orphans(calls[..n], ids)
    {
      assert calls[..n + 1][..n] == calls[..n];
      if calls[n].toolCallId !in ids {
        orphans := orphans + [ToolResultPart(calls[n].toolCallId, calls[n].toolName, ABORTED)];
      }
    }
    assert calls[..|calls|] == calls;
  }

  /** The history as it will be when the scan, now at message i, is over. */
  function Outcome(ms: seq<Message>, i: nat): seq<Message>
    requires i <= |ms|
  {
    ms[..i] + Paired(ms[i..])
  }

  lemma Passed(ms: seq<Message>, i: nat)
    requires i < |ms| && Missing(ms[i..]) == []
    ensures Outcome(ms, i + 1) == Outcome(ms, i) && Assistants(ms[i + 1..]) <= Assistants(ms[i..])
  {
    assert ms[i..][1..] == ms[i + 1..] && ms[..i + 1] == ms[..i] + [ms[i]];
    assert ms[..i] + [ms[i]] + Paired(ms[i + 1..]) == ms[..i] + ([ms[i]] + Paired(ms[i + 1..]));
  }

  lemma Fixed(ms: seq<Message>, i: nat, m: Message, rest: seq<Message>)
    requires i < |ms| && ms[i].role == Assistant && Answers(m)
    requires Paired(ms[i..]) == [ms[i]] + ([m] + Paired(rest))
    requires Assistants(rest) <= Assistants(ms[i + 1..])
    ensures var out := ms[..i + 1] + ([m] + rest);
            Outcome(out, i + 1) == Outcome(ms, i) && Assistants(out[i + 1..]) < Assistants(ms[i..])
  {
    var out := ms[..i + 1] + ([m] + rest);
    assert out[i + 1..] == [m] + rest;
    PassedOver(m, rest);
    FewerAssistants(ms, i);
    assert out[..i + 1] == ms[..i] + [ms[i]];
    Regroup(ms[..i], [ms[i]], [m] + Paired(rest));
  }

  lemma PassedOver(m: Message, rest: seq<Message>)
    requires Answers(m)
    ensures Paired([m] + rest) == [m] + Paired(rest) && Assistants([m] + rest) == Assistants(rest)
  {
    assert ([m] + rest)[1..] == rest;
    assert Missing([m] + rest) == [];
  }

  lemma FewerAssistants(ms: seq<Message>, i: nat)
    requires i < |ms| && ms[i].role == Assistant
    ensures Assistants(ms[i + 1..]) < Assistants(ms[i..])
  {
    assert ms[i..][1..] == ms[i + 1..] && ms[i..][0] == ms[i];
  }

  /** The list grows under the scan, but the assistant messages ahead get fewer each time it does. */
  method EnsureToolResultPairing(input: seq<Message>) returns (ms: seq<Message>)
    ensures ms == Paired(input)
  {
    ms := input;
    var i := 0;
    assert ms[..0] + Paired(ms[0..]) == Paired(ms[0..]) && ms[0..] == input;
    while i < |ms|
      invariant i <= |ms| && Outcome(ms, i) == Paired(input)
      decreases Assistants(ms[i..]), |ms| - i
    {
      assert ms[i..][0] == ms[i] && ms[i..][1..] == ms[i + 1..];
      if ms[i].role != Assistant {
        Passed(ms, i);
        i := i + 1;
        continue;
      }
      var calls := ToolCalls(ms[i].content);
      if |calls| == 0 {
        Passed(ms, i);
        i := i + 1;
        continue;
      }
      var ids := ResultIds(ms, i);
      var orphans := Aborts(calls, ids);
      if |orphans| == 0 {
        Passed(ms, i);
        i := i + 1;
        continue;
      }
      ms := AddOrphans(ms, i, orphans);
      i := i + 1;
    }
    assert ms[..i] == ms && ms[i..] == [];
    assert ms + [] == ms;
  }

  method AddOrphans(ms: seq<Message>, i: nat, orphans: seq<Part>) returns (out: seq<Message>)
    requires i < |ms| && ms[i].role == Assistant && orphans == Missing(ms[i..]) && orphans != []
    ensures i + 1 <= |out| && Outcome(out, i + 1) == Outcome(ms, i)
    ensures Assistants(out[i + 1..]) < Assistants(ms[i..])
  {
    if i + 1 < |ms| && (ms[i + 1].role == Tool || ms[i + 1].role == User) {
      var m := Message(ms[i + 1].role, ms[i + 1].content + orphans);
      out := ms[i + 1 := m];
      assert out == ms[..i + 1] + ([m] + ms[i + 2..]);
      assert ms[i..][2..] == ms[i + 2..] && ms[i + 1..][1..] == ms[i + 2..] && ms[i..][1] == ms[i + 1];
      Fixed(ms, i, m, ms[i + 2..]);
    } else {
      var m := Message(Tool, orphans);
      out := ms[..i + 1] + ([m] + ms[i + 1..]);
      assert ms[i..][1..] == ms[i + 1..];
      assert |ms[i..]| > 1 ==> ms[i..][1] == ms[i + 1];
      Fixed(ms, i, m, ms[i + 1..]);
    }
  }

  method MergeConsecutiveRoles(ms: seq<Message>) returns (result: seq<Message>)
    ensures result == Merged(ms)
  {
    result := [];
    for n := 0 to |ms|
      invariant result == Merged(ms[..n])
    {
      assert ms[..n + 1][..n] == ms[..n];
      var msg, last := ms[n], |result| - 1;
      if last >= 0 && Effective(result[last]) == Effective(msg) {
        var merged := result[last].content + msg.content;
        var toolResults, others := Sort(merged);
        if |toolResults| > 0 {
          merged := toolResults + others;
        }
        result := result[last := Message(result[last].role, merged)];
      } else {
        result := result + [msg];
      }
    }
    assert ms[..|ms|] == ms;
  }

  method Sort(ps: seq<Part>) returns (toolResults: seq<Part>, others: seq<Part>)
    ensures toolResults == Only(ps, true) && others == Only(ps, false)
  {
    toolResults, others := [], [];
    for n := 0 to |ps|
      invariant toolResults == Only(ps[..n], true) && others == Only(ps[..n], false)
    {
      assert ps[..n + 1][..n] == ps[..n];
      if ps[n].typ == PartToolResult {
        toolResults := toolResults + [ps[n]];
      } else {
        others := others + [ps[n]];
      }
    }
    assert ps[..|ps|] == ps;
  }

  method NormalizeToolMessages(input: seq<Message>) returns (ms: seq<Message>)
    ensures ms == Normalized(input)
    ensures Alternating(ms) && forall k | 0 <= k < |ms| :: AnsweredNextTo(ms, k)
  {
    ms := EnsureToolResultPairing(input);
    ms := MergeConsecutiveRoles(ms);
    NormalizedIsPaired(input);
  }
}
