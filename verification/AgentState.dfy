/** agent_state.go: the packed lifecycle word that the tool loop writes and others poll. */
module AgentState {
  datatype Kind = Starting | LLMInFlight | StepFinished | ToolExecuting | Idle | Done | Cancelled | Error

  function Code(k: Kind): nat {
    match k
    case Starting => 0
    case LLMInFlight => 1
    case StepFinished => 2
    case ToolExecuting => 3
    case Idle => 4
    case Done => 5
    case Cancelled => 6
    case Error => 7
  }

  const HALF: nat := 0x1_0000_0000

  predicate TerminalCode(code: nat) {
    code == Code(Done) || code == Code(Cancelled) || code == Code(Error)
  }

  predicate Terminal(k: Kind) {
    k.Done? || k.Cancelled? || k.Error?
  }

  /** The step in the high 32 bits, the kind in the low ones; the step is truncated. */
  function Pack(code: nat, step: nat): nat {
    (step % HALF) * HALF + code % HALF
  }

  function KindOf(word: nat): nat {
    word % HALF
  }

  function StepOf(word: nat): nat {
    word / HALF % HALF
  }

  lemma Halves(step: nat, code: nat)
    requires step < HALF && code < HALF
    ensures (step * HALF + code) % HALF == code && (step * HALF + code) / HALF == step
  {
  }

  /** Both fields are read back, the step exactly when it fits in 32 bits. */
  lemma PackIsExact(k: Kind, step: nat)
    ensures KindOf(Pack(Code(k), step)) == Code(k)
    ensures StepOf(Pack(Code(k), step)) == step <==> step < HALF
    ensures Pack(Code(k), step) < HALF * HALF
  {
    Halves(step % HALF, Code(k));
  }

  /** What a call that read `seen` last may have done. */
  predicate Settled(k: Kind, seen: nat, ok: bool, after: nat) {
    if ok then !TerminalCode(KindOf(seen)) && after == Pack(Code(k), StepOf(seen))
    else TerminalCode(KindOf(seen)) && after == seen
  }

  function SeenAt(first: nat, between: seq<nat>, n: nat): nat
    requires n <= |between|
  {
    if n == 0 then first else between[n - 1]
  }

  // ------------------------------------------------- many goroutines, one word

  /** A SetTerminal call: not yet looked, has read v, has returned. */
  datatype Caller = Ready(kind: Kind) | Loaded(kind: Kind, v: nat) | Returned(kind: Kind, ok: bool)

  /** The word, what the loop still has to write, and the calls. */
  datatype System = System(word: nat, todo: seq<nat>, callers: seq<Caller>)

  predicate LoopWrites(s: System, t: System) {
    s.todo != [] && t == System(s.todo[0], s.todo[1..], s.callers)
  }

  predicate Loads(s: System, t: System, i: nat) {
    && i < |s.callers| && s.callers[i].Ready?
    && t == s.(callers := s.callers[i := if TerminalCode(KindOf(s.word)) then Returned(s.callers[i].kind, false)
                                         else Loaded(s.callers[i].kind, s.word)])
  }

  predicate Swaps(s: System, t: System, i: nat) {
    && i < |s.callers| && s.callers[i].Loaded?
    && var c := s.callers[i];
       t == if s.word == c.v
            then s.(word := Pack(Code(c.kind), StepOf(c.v)), callers := s.callers[i := Returned(c.kind, true)])
            else s.(callers := s.callers[i := Ready(c.kind)])
  }

  ghost predicate Next(s: System, t: System) {
    LoopWrites(s, t) || (exists i: nat :: Loads(s, t, i)) || (exists i: nat :: Swaps(s, t, i))
  }

  ghost predicate Run(trace: seq<System>) {
    trace != [] && forall k | 0 <= k < |trace| - 1 :: Next(trace[k], trace[k + 1])
  }

  predicate Sound(s: System) {
    && s.word < HALF * HALF && (forall c | c in s.callers :: Terminal(c.kind))
    && forall c | c in s.callers && c.Loaded? :: !TerminalCode(KindOf(c.v)) && c.v < HALF * HALF
  }

  /** Same calls, and a call that has returned stays as it is. */
  ghost predicate Continues(s: System, t: System) {
    && |t.callers| == |s.callers|
    && forall i | 0 <= i < |s.callers| ::
         t.callers[i].kind == s.callers[i].kind && (s.callers[i].Returned? ==> t.callers[i] == s.callers[i])
  }

  /** Nobody has won since s: no word changed, no call returned. */
  ghost predicate Undecided(s: System, t: System) {
    && |t.callers| == |s.callers| && t.word == s.word
    && forall i | 0 <= i < |s.callers| :: t.callers[i].Returned? ==> t.callers[i] == s.callers[i]
  }

  /** Call i has won since s: it alone returned true, and the word has its kind and the old step. */
  ghost predicate WonBy(s: System, t: System, i: nat) {
    && i < |s.callers| == |t.callers| && !s.callers[i].Returned? && t.callers[i] == Returned(s.callers[i].kind, true)
    && t.word == Pack(Code(s.callers[i].kind), StepOf(s.word))
    && forall j | 0 <= j < |s.callers| && j != i && !s.callers[j].Returned? && t.callers[j].Returned? ::
         !t.callers[j].ok
  }

  ghost predicate Won(s: System, t: System) {
    exists i: nat :: WonBy(s, t, i)
  }

  ghost predicate Quiet(s: System) {
    s.todo == [] && Sound(s) && !TerminalCode(KindOf(s.word))
  }

  /** What holds from s on, once the loop has stopped writing. */
  ghost predicate Decides(s: System, t: System) {
    && t.todo == [] && Sound(t) && Continues(s, t)
    && (Undecided(s, t) || Won(s, t))
  }

  lemma WonIsTerminal(s: System, t: System, i: nat)
    requires WonBy(s, t, i) && Sound(s)
    ensures TerminalCode(KindOf(t.word))
  {
    PackIsExact(s.callers[i].kind, StepOf(s.word));
    assert s.callers[i] in s.callers;
  }

  lemma LoadDecides(s: System, t: System, u: System, i: nat)
    requires Quiet(s) && Decides(s, t) && Loads(t, u, i)
    ensures Decides(s, u)
  {
    assert t.callers[i] in t.callers;
    if Undecided(s, t) {
      assert Undecided(s, u);
    } else {
      var w: nat :| WonBy(s, t, w);
      assert WonBy(s, u, w);
    }
  }

  lemma SwapDecides(s: System, t: System, u: System, i: nat)
    requires Quiet(s) && Decides(s, t) && Swaps(t, u, i)
    ensures Decides(s, u)
  {
    var c := t.callers[i];
    assert c in t.callers;
    PackIsExact(c.kind, StepOf(c.v));
    if Undecided(s, t) {
      if t.word == c.v {
        assert WonBy(s, u, i);
      } else {
        assert Undecided(s, u);
      }
    } else {
      var w: nat :| WonBy(s, t, w);
      WonIsTerminal(s, t, w);
      assert WonBy(s, u, w);
    }
  }

  /** Once the loop has stopped writing and the word is not terminal, every run decides at
      most one winner. */
  lemma {:induction false} RunDecides(trace: seq<System>, n: nat)
    requires Run(trace) && Quiet(trace[0]) && n < |trace|
    ensures Decides(trace[0], trace[n])
  {
    var s := trace[0];
    if n == 0 {
      assert Undecided(s, s);
    } else {
      RunDecides(trace, n - 1);
      var t, u := trace[n - 1], trace[n];
      assert Next(t, u);
      if i: nat :| Loads(t, u, i) {
        LoadDecides(s, t, u, i);
      } else {
        var i: nat :| Swaps(t, u, i);
        SwapDecides(s, t, u, i);
      }
    }
  }

  /** When all calls have returned, exactly one of those under way then was the one that
      succeeded, and the word has its kind and the step it had. */
  lemma ExactlyOneWins(trace: seq<System>)
    requires Run(trace) && Quiet(trace[0])
    requires exists i :: 0 <= i < |trace[0].callers| && !trace[0].callers[i].Returned?
    requires forall c | c in trace[|trace| - 1].callers :: c.Returned?
    ensures Won(trace[0], trace[|trace| - 1])
  {
    var s, t := trace[0], trace[|trace| - 1];
    RunDecides(trace, |trace| - 1);
    var i :| 0 <= i < |s.callers| && !s.callers[i].Returned?;
    assert t.callers[i] in t.callers;
  }

  /** The loop has nothing else left to write than the word itself. */
  predicate WritesOnly(s: System, word: nat) {
    forall w | w in s.todo :: w == word
  }

  lemma {:induction false} StaysTerminal(trace: seq<System>, n: nat)
    requires Run(trace) && Sound(trace[0]) && TerminalCode(KindOf(trace[0].word))
    requires WritesOnly(trace[0], trace[0].word) && n < |trace|
    ensures trace[n].word == trace[0].word && WritesOnly(trace[n], trace[0].word) && Sound(trace[n])
  {
    if n > 0 {
      StaysTerminal(trace, n - 1);
      var t, u := trace[n - 1], trace[n];
      assert Next(t, u);
      if LoopWrites(t, u) {
        assert t.todo[0] in t.todo && forall w | w in u.todo :: w in t.todo;
      } else if i: nat :| Loads(t, u, i) {
        assert t.callers[i] in t.callers;
      } else {
        var i: nat :| Swaps(t, u, i);
        assert t.callers[i] in t.callers;
      }
    }
  }

  ghost predicate SticksFrom(s: System) {
    forall trace: seq<System>, n: nat | Run(trace) && trace[0] == s && n < |trace| :: trace[n].word == s.word
  }

  /** The state after the loop has written k of the words it has left. */
  function AfterWrites(s: System, k: nat): System
    requires k <= |s.todo|
  {
    System(if k == 0 then s.word else s.todo[k - 1], s.todo[k..], s.callers)
  }

  lemma LoopCanWrite(s: System, k: nat)
    requires 0 < k <= |s.todo|
    ensures exists trace: seq<System>, n: nat ::
              Run(trace) && trace[0] == s && n < |trace| && trace[n].word == s.todo[k - 1]
  {
    var trace := seq(k + 1, i requires 0 <= i <= k => AfterWrites(s, i));
    forall i | 0 <= i < |trace| - 1 ensures Next(trace[i], trace[i + 1]) {
      assert s.todo[i..][0] == s.todo[i] && s.todo[i..][1..] == s.todo[i + 1..];
      assert LoopWrites(trace[i], trace[i + 1]);
    }
    assert s.todo[0..] == s.todo;
    assert Run(trace) && trace[0] == s && trace[k].word == s.todo[k - 1];
  }

  /** A terminal word never changes again, whatever the scheduling, exactly if the loop has
      nothing else left to write. */
  lemma TerminalSticks(s: System)
    requires Sound(s) && TerminalCode(KindOf(s.word))
    ensures SticksFrom(s) <==> WritesOnly(s, s.word)
  {
    if WritesOnly(s, s.word) {
      forall trace: seq<System>, n: nat | Run(trace) && trace[0] == s && n < |trace| ensures trace[n].word == s.word {
        StaysTerminal(trace, n);
      }
    }
    if SticksFrom(s) {
      forall w | w in s.todo ensures w == s.word {
        var k :| 0 <= k < |s.todo| && s.todo[k] == w;
        LoopCanWrite(s, k + 1);
      }
    }
  }

  /** While the loop still writes, a terminal state can be overwritten, and two calls succeed. */
  lemma LoopOverwritesTerminal(a: Kind, b: Kind, step: nat)
    requires Terminal(a) && Terminal(b) && step < HALF
    ensures exists trace :: Run(trace) && |trace| == 6
              && trace[0] == System(Pack(Code(LLMInFlight), step), [Pack(Code(Idle), step)], [Ready(a), Ready(b)])
              && trace[5] == System(Pack(Code(b), step), [], [Returned(a, true), Returned(b, true)])
  {
    var w, x := Pack(Code(LLMInFlight), step), Pack(Code(Idle), step);
    PackIsExact(LLMInFlight, step);
    PackIsExact(Idle, step);
    PackIsExact(a, step);
    var s0 := System(w, [x], [Ready(a), Ready(b)]);
    var s1 := System(w, [x], [Loaded(a, w), Ready(b)]);
    var s2 := System(Pack(Code(a), step), [x], [Returned(a, true), Ready(b)]);
    var s3 := System(x, [], [Returned(a, true), Ready(b)]);
    var s4 := System(x, [], [Returned(a, true), Loaded(b, x)]);
    var s5 := System(Pack(Code(b), step), [], [Returned(a, true), Returned(b, true)]);
    assert Loads(s0, s1, 0) && Swaps(s1, s2, 0) && LoopWrites(s2, s3) && Loads(s3, s4, 1) && Swaps(s4, s5, 1);
    var trace := [s0, s1, s2, s3, s4, s5];
    assert Run(trace);
  }

  // ------------------------------------------------- what an observer reads

  /** The last of the words that the loop has written, k of them since s. */
  function Written(s: System, k: nat): nat
    requires k <= |s.todo|
  {
    if k == 0 then s.word else s.todo[k - 1]
  }

  /** Since s the loop has written k words. The word has the step of the last one, and its kind
      if no call has put a terminal one in its place. */
  ghost predicate Follows(s: System, t: System, k: nat) {
    && k <= |s.todo| && t.todo == s.todo[k..] && (forall c | c in t.callers :: Terminal(c.kind))
    && StepOf(t.word) == StepOf(Written(s, k))
    && (KindOf(t.word) == KindOf(Written(s, k)) || TerminalCode(KindOf(t.word)))
  }

  lemma FollowsOn(s: System, t: System, u: System, k: nat)
    requires Follows(s, t, k) && Next(t, u)
    ensures Follows(s, u, k) || Follows(s, u, k + 1)
  {
    if LoopWrites(t, u) {
      assert s.todo[k..][0] == s.todo[k] && s.todo[k..][1..] == s.todo[k + 1..];
    } else if i: nat :| Loads(t, u, i) {
      assert t.callers[i] in t.callers;
    } else {
      var i: nat :| Swaps(t, u, i);
      assert t.callers[i] in t.callers;
      PackIsExact(t.callers[i].kind, StepOf(t.callers[i].v));
    }
  }

  /** Along every interleaving of the loop's writes with calls, the word at n and, before it,
      the word at m have the steps of the loop's own words, in their order. */
  lemma {:induction false} RunFollows(trace: seq<System>, m: nat, n: nat) returns (j: nat, k: nat)
    requires Run(trace) && m <= n < |trace| && forall c | c in trace[0].callers :: Terminal(c.kind)
    ensures j <= k && Follows(trace[0], trace[m], j) && Follows(trace[0], trace[n], k)
  {
    if n == 0 {
      assert trace[0].todo[0..] == trace[0].todo;
      j, k := 0, 0;
    } else {
      assert Next(trace[n - 1], trace[n]);
      j, k := RunFollows(trace, if m < n then m else n - 1, n - 1);
      FollowsOn(trace[0], trace[n - 1], trace[n], k);
      k := if Follows(trace[0], trace[n], k) then k else k + 1;
      j := if m < n then j else k;
    }
  }

  // ------------------------------------------------------------- the program

  class State {
    var packed: nat
    ghost var history: seq<nat>

    constructor ()
      ensures packed == Pack(Code(Starting), 0) && history == []
    {
      packed := 0;
      history := [];
    }

    method Set(k: Kind, step: nat)
      modifies this
      ensures packed == Pack(Code(k), step) && history == old(history) + [packed]
    {
      packed := (step % HALF) * HALF + Code(k) % HALF;
      history := history + [packed];
    }

    method Observe() returns (kind: nat, step: nat)
      ensures kind == KindOf(packed) && step == StepOf(packed)
    {
      return packed % HALF, packed / HALF % HALF;
    }

    method CompareAndSwap(v: nat, next: nat) returns (ok: bool)
      modifies this`packed
      ensures ok == (old(packed) == v) && packed == if ok then next else old(packed)
    {
      ok := packed == v;
      if ok {
        packed := next;
      }
    }

    /** `between` are the words other goroutines store between this one's loads and swaps. */
    method SetTerminal(k: Kind, between: seq<nat>) returns (ok: bool)
      requires Terminal(k) && packed < HALF * HALF && forall w | w in between :: w < HALF * HALF
      modifies this`packed
      ensures exists n | 0 <= n <= |between| :: Settled(k, SeenAt(old(packed), between, n), ok, packed)
    {
      var n := 0;
      while true
        invariant n <= |between| && packed == SeenAt(old(packed), between, n) && packed < HALF * HALF
        decreases |between| - n
      {
        var v := packed;
        if TerminalCode(v % HALF) {
          assert Settled(k, SeenAt(old(packed), between, n), false, packed);
          return false;
        }
        var step := v / HALF;
        var next := step * HALF + Code(k);
        Halves(step, Code(k));
        if n < |between| {
          packed := between[n];
          assert between[n] in between;
          n := n + 1;
        }
        ok := CompareAndSwap(v, next);
        if ok {
          assert Settled(k, SeenAt(old(packed), between, n), true, packed);
          return true;
        }
      }
    }
  }
}
