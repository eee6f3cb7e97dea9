/**
 internal/openaicompat/reasoning_details.go: streamed reasoning details joined into the
 list that is sent back on the next turn.
 */
module ReasoningDetails {
  import opened Wrappers
  import opened Provider

  const TEXT: string := "reasoning.text"
  const SUMMARY: string := "reasoning.summary"

  type Detail = Meta

  predicate Visible(d: Detail) {
    Lookup(d, "type") == Str(TEXT) || Lookup(d, "type") == Str(SUMMARY)
  }

  /** Where a visible detail keeps its text. */
  function TextKey(d: Detail): string {
    if Lookup(d, "type") == Str(SUMMARY) then "summary" else "text"
  }

  function StringAt(d: Detail, k: string): string {
    match Lookup(d, k) case Str(s) => s case _ => ""
  }

  /** Both have it, and it differs. */
  predicate Differ(a: Detail, b: Detail, k: string) {
    Lookup(a, k) != Null && Lookup(b, k) != Null && Lookup(a, k) != Lookup(b, k)
  }

  const IDENTITY: seq<string> := ["id", "index", "format"]

  /** sameReasoningDetail. */
  predicate Same(a: Detail, b: Detail) {
    forall k | k in IDENTITY :: !Differ(a, b, k)
  }

  predicate Mergeable(last: Detail, d: Detail) {
    Visible(d) && Lookup(last, "type") == Lookup(d, "type") && Same(last, d)
  }

  /** What a field of the joined detail is. */
  function JoinedField(last: Detail, d: Detail, k: string): Json {
    if k !in d then Lookup(last, k)
    else if k == TextKey(d) then Str(StringAt(last, k) + StringAt(d, k))
    else if d[k] != Null || Lookup(last, k) == Null then d[k]
    else Lookup(last, k)
  }

  function Join(last: Detail, d: Detail): Detail {
    map k | k in last.Keys + d.Keys :: JoinedField(last, d, k)
  }

  function AddOne(list: seq<Detail>, d: Detail): seq<Detail> {
    var n := |list|;
    if n > 0 && Mergeable(list[n - 1], d) then list[n - 1 := Join(list[n - 1], d)] else list + [d]
  }

  function AddAll(list: seq<Detail>, ds: seq<Detail>): seq<Detail> {
    if ds == [] then list else AddOne(AddAll(list, ds[..|ds| - 1]), ds[|ds| - 1])
  }

  function TextOf(d: Detail): string {
    if Visible(d) then StringAt(d, TextKey(d)) else ""
  }

  /** reasoningDetailsText. */
  function AllText(ds: seq<Detail>): string {
    if ds == [] then "" else AllText(ds[..|ds| - 1]) + TextOf(ds[|ds| - 1])
  }

  /** No detail could still be joined to the one before it. */
  ghost predicate Canonical(list: seq<Detail>) {
    forall k | 0 < k < |list| :: !Mergeable(list[k - 1], list[k])
  }

  lemma JoinLookup(last: Detail, d: Detail, k: string)
    ensures Lookup(Join(last, d), k) == JoinedField(last, d, k)
  {
  }

  lemma TextKeyIsNot(d: Detail, k: string)
    requires k == "type" || k in IDENTITY
    ensures k != TextKey(d)
  {
    assert IDENTITY == ["id", "index", "format"];
    assert "type"[1] == 'y' && "id"[0] == 'i' && "index"[0] == 'i' && "format"[0] == 'f';
    assert "text"[0] == 't' && "text"[1] == 'e' && "summary"[0] == 's';
  }

  /** Joining keeps the kind, adds up the text, and only adds to the identity. */
  lemma JoinKeeps(last: Detail, d: Detail)
    requires Mergeable(last, d)
    ensures Lookup(Join(last, d), "type") == Lookup(d, "type")
    ensures TextOf(Join(last, d)) == TextOf(last) + TextOf(d)
    ensures forall k | k in IDENTITY :: Lookup(last, k) != Null ==> Lookup(Join(last, d), k) == Lookup(last, k)
  {
    var key := TextKey(d);
    TextKeyIsNot(d, "type");
    JoinLookup(last, d, "type");
    JoinLookup(last, d, key);
    assert StringAt(last, key) + "" == StringAt(last, key);
    forall k | k in IDENTITY && Lookup(last, k) != Null ensures Lookup(Join(last, d), k) == Lookup(last, k) {
      TextKeyIsNot(d, k);
      JoinLookup(last, d, k);
      assert !Differ(last, d, k);
    }
  }

  lemma JoinStaysApart(before: Detail, last: Detail, d: Detail)
    requires Mergeable(last, d) && !Mergeable(before, last)
    ensures !Mergeable(before, Join(last, d))
  {
    JoinKeeps(last, d);
    if Lookup(before, "type") == Lookup(last, "type") {
      var k :| k in IDENTITY && Differ(before, last, k);
      assert Differ(before, Join(last, d), k);
    }
  }

  lemma AddKeepsCanonical(list: seq<Detail>, d: Detail)
    requires Canonical(list)
    ensures Canonical(AddOne(list, d))
  {
    var n := |list|;
    if n > 1 && Mergeable(list[n - 1], d) {
      JoinStaysApart(list[n - 2], list[n - 1], d);
    }
  }

  lemma TextSnoc(ds: seq<Detail>, d: Detail)
    ensures AllText(ds + [d]) == AllText(ds) + TextOf(d)
  {
    assert (ds + [d])[..|ds|] == ds;
  }

  lemma AddKeepsText(list: seq<Detail>, d: Detail)
    ensures AllText(AddOne(list, d)) == AllText(list) + TextOf(d)
  {
    var n := |list|;
    if n > 0 && Mergeable(list[n - 1], d) {
      JoinKeepsText(list[..n - 1], list[n - 1], d);
      assert list == list[..n - 1] + [list[n - 1]];
      assert AddOne(list, d) == list[..n - 1] + [Join(list[n - 1], d)];
    } else {
      TextSnoc(list, d);
    }
  }

  lemma JoinKeepsText(front: seq<Detail>, last: Detail, d: Detail)
    requires Mergeable(last, d)
    ensures AllText(front + [Join(last, d)]) == AllText(front + [last]) + TextOf(d)
  {
    JoinKeeps(last, d);
    TextSnoc(front, Join(last, d));
    TextSnoc(front, last);
    Regroup(AllText(front), TextOf(last), TextOf(d));
  }

  /** The visible text is the deltas' visible text, and nothing mergeable is left. */
  lemma {:induction false} AccumulatedIsCanonical(list: seq<Detail>, ds: seq<Detail>)
    requires Canonical(list)
    ensures Canonical(AddAll(list, ds)) && AllText(AddAll(list, ds)) == AllText(list) + AllText(ds)
  {
    if ds == [] {
      assert AllText(list) + "" == AllText(list);
    } else {
      var front, d := ds[..|ds| - 1], ds[|ds| - 1];
      AccumulatedIsCanonical(list, front);
      AddKeepsCanonical(AddAll(list, front), d);
      AddKeepsText(AddAll(list, front), d);
      Regroup(AllText(list), AllText(front), TextOf(d));
    }
  }

  lemma Regroup(a: string, b: string, c: string)
    ensures a + b + c == a + (b + c)
  {
  }

  /** Accumulating a list again gives it back exactly when nothing in it is mergeable. */
  lemma {:induction false} CanonicalIsKept(list: seq<Detail>)
    ensures AddAll([], list) == list <==> Canonical(list)
    ensures |AddAll([], list)| <= |list|
  {
    if list != [] {
      var n := |list|;
      var front, d := list[..n - 1], list[n - 1];
      CanonicalIsKept(front);
      var r := AddAll([], front);
      assert list == front + [d];
      assert Canonical(list) <==> Canonical(front) && (n > 1 ==> !Mergeable(list[n - 2], d));
      if AddAll([], list) == list {
        assert r + [d] == front + [d] ==> r == front by {
          assert (r + [d])[..|r|] == r && (front + [d])[..|front|] == front;
        }
      }
    }
  }

  /** So accumulating what was accumulated changes nothing. */
  lemma AccumulatingTwice(ds: seq<Detail>)
    ensures AddAll([], AddAll([], ds)) == AddAll([], ds)
  {
    AccumulatedIsCanonical([], ds);
    CanonicalIsKept(AddAll([], ds));
  }

  // ------------------------------------------------------------- the program

  /** The length of a detail as JSON. */
  type Size = Detail -> nat

  function SizeOf(size: Size, ds: seq<Detail>): nat {
    if ds == [] then 0 else SizeOf(size, ds[..|ds| - 1]) + size(ds[|ds| - 1])
  }

  /** How many of the details fit under the cap. */
  function Fitting(size: Size, used: nat, cap: nat, ds: seq<Detail>): (n: nat)
    ensures n <= |ds|
    ensures forall k | 0 <= k <= n :: k > 0 ==> used + SizeOf(size, ds[..k]) <= cap
    ensures n < |ds| ==> used + SizeOf(size, ds[..n + 1]) > cap
  {
    if ds == [] then 0
    else
      var front := ds[..|ds| - 1];
      assert ds[..|ds|] == ds;
      assert forall k | 0 <= k <= |front| :: front[..k] == ds[..k];
      var n := Fitting(size, used, cap, front);
      if n < |front| || used + SizeOf(size, ds) > cap then n else |ds|
  }

  class Accumulator {
    const size: Size
    const cap: nat
    var details: Option<seq<Detail>>
    var used: nat

    constructor (size: Size, cap: nat)
      ensures this.size == size && this.cap == cap && details == None && used == 0
    {
      this.size := size;
      this.cap := cap;
      details, used := None, 0;
    }

    function List(): seq<Detail>
      reads this
    {
      if details.Some? then details.value else []
    }

    method Add(ds: Option<seq<Detail>>) returns (ok: bool)
      modifies this
      ensures ds.None? ==> ok && details == old(details) && used == old(used)
      ensures ds.Some? ==>
                var n := Fitting(size, old(used), cap, ds.value);
                && details.Some? && List() == AddAll(old(List()), ds.value[..n]) && ok == (n == |ds.value|)
                && used == old(used) + SizeOf(size, ds.value[..if ok then n else n + 1])
    {
      if ds.None? {
        return true;
      }
      details := Some(List());
      var n := AddList(ds.value);
      FittingIs(size, old(used), cap, ds.value, n);
      return n == |ds.value|;
    }

    /** The loop; n details are taken before the cap is reached. */
    method AddList(ds: seq<Detail>) returns (n: nat)
      requires details.Some?
      modifies this
      ensures details.Some? && n <= |ds| && List() == AddAll(old(List()), ds[..n])
      ensures used == old(used) + SizeOf(size, ds[..if n < |ds| then n + 1 else n])
      ensures AllFit(size, old(used), cap, ds, n) && (n < |ds| ==> used > cap)
    {
      n := 0;
      assert ds[..0] == [];
      while n < |ds|
        invariant n <= |ds| && details.Some? && List() == AddAll(old(List()), ds[..n])
        invariant used == old(used) + SizeOf(size, ds[..n])
        invariant AllFit(size, old(used), cap, ds, n)
      {
        SizeSnoc(size, ds, n);
        used := used + size(ds[n]);
        if used > cap {
          return;
        }
        AddAllSnoc(old(List()), ds, n);
        Put(ds[n]);
        n := n + 1;
      }
    }

    method Put(d: Detail)
      modifies this`details
      ensures details.Some? && List() == AddOne(old(List()), d)
    {
      var list := List();
      var last := |list| - 1;
      if last >= 0 && Mergeable(list[last], d) {
        var joined := JoinInto(list[last], d);
        details := Some(list[last := joined]);
      } else {
        details := Some(list + [d]);
      }
    }
  }

  predicate AllFit(size: Size, used: nat, cap: nat, ds: seq<Detail>, n: nat)
    requires n <= |ds|
  {
    forall k | 0 < k <= n :: used + SizeOf(size, ds[..k]) <= cap
  }

  lemma FittingIs(size: Size, used: nat, cap: nat, ds: seq<Detail>, n: nat)
    requires n <= |ds| && AllFit(size, used, cap, ds, n)
    requires n < |ds| ==> used + SizeOf(size, ds[..n + 1]) > cap
    ensures Fitting(size, used, cap, ds) == n
  {
  }

  lemma SizeSnoc(size: Size, ds: seq<Detail>, n: nat)
    requires n < |ds|
    ensures SizeOf(size, ds[..n + 1]) == SizeOf(size, ds[..n]) + size(ds[n])
  {
    assert ds[..n + 1][..n] == ds[..n];
  }

  lemma AddAllSnoc(list: seq<Detail>, ds: seq<Detail>, n: nat)
    requires n < |ds|
    ensures AddAll(list, ds[..n + 1]) == AddOne(AddAll(list, ds[..n]), ds[n])
  {
    assert ds[..n + 1][..n] == ds[..n];
  }

  /** The loop over the fields of the new detail, in any order. */
  method JoinInto(last: Detail, d: Detail) returns (r: Detail)
    ensures r == Join(last, d)
  {
    r := last;
    var keys := d.Keys;
    while keys != {}
      invariant keys <= d.Keys && r.Keys == last.Keys + (d.Keys - keys)
      invariant forall k | k in r :: r[k] == if k in keys then last[k] else JoinedField(last, d, k)
      decreases keys
    {
      var k :| k in keys;
      if k == TextKey(d) {
        r := r[k := Str(StringAt(r, k) + StringAt(d, k))];
      } else if d[k] != Null || Lookup(r, k) == Null {
        r := r[k := d[k]];
      }
      keys := keys - {k};
    }
  }
}
