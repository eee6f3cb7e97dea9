/** internal/gemini/schema.go: $ref references replaced by what they refer to. */
module RefInline {
  import opened Wrappers
  import opened Provider

  const MAX_DEPTH: nat := 10

  const PREFIX: string := "#/$defs/"

  const BLOCKED: set<string> := {"$defs", "if", "then", "else", "$schema", "$id", "$comment"}

  const GENERIC: Json := Obj(map["type" := Str("object")])

  /** resolveDefRef: null is no target. */
  function Resolve(reference: string, defs: Meta): Option<Json> {
    if PREFIX <= reference && reference[|PREFIX|..] in defs && defs[reference[|PREFIX|..]] != Null
    then Some(defs[reference[|PREFIX|..]]) else None
  }

  predicate IsRef(j: Json) {
    j.Obj? && Lookup(j.fields, "$ref").Str?
  }

  function RefOf(j: Json): string
    requires IsRef(j)
  {
    Lookup(j.fields, "$ref").s
  }

  /** inlineRefsAndStripDrafts, with the number of references that may still be followed. */
  function Inline(cap: nat, j: Json, defs: Meta): Json
    decreases cap, j
  {
    if IsRef(j) then
      if cap == 0 then GENERIC
      else
        match Resolve(RefOf(j), defs)
        case Some(target) => Inline(cap - 1, target, defs)
        case None => GENERIC
    else
      match j
      case Obj(fields) => Obj(map k | k in fields && k !in BLOCKED :: Inline(cap, fields[k], defs))
      case Arr(items) => Arr(seq(|items|, i requires 0 <= i < |items| => Inline(cap, items[i], defs)))
      case _ => j
  }

  /** The first pass of SanitizeSchema: what is not an object does not replace the schema. */
  function Preprocess(schema: Meta): Meta {
    match Inline(MAX_DEPTH, Obj(schema), DefsOf(schema)) case Obj(fields) => fields case _ => schema
  }

  function DefsOf(schema: Meta): Meta {
    match Lookup(schema, "$defs") case Obj(m) => m case _ => map[]
  }

  // ------------------------------------------------- what is left in the output

  /** No object anywhere in j has one of these keys. */
  predicate Without(j: Json, keys: set<string>) {
    match j
    case Obj(fields) => (forall k | k in fields :: k !in keys) && forall k | k in fields :: Without(fields[k], keys)
    case Arr(items) => forall i | 0 <= i < |items| :: Without(items[i], keys)
    case _ => true
  }

  lemma GenericWithout(keys: set<string>)
    requires "type" !in keys
    ensures Without(GENERIC, keys)
  {
    assert Without(Str("object"), keys);
  }

  /** No blocked keyword survives, whatever the schema and its definitions are. */
  lemma {:induction false} NothingBlocked(cap: nat, j: Json, defs: Meta)
    ensures Without(Inline(cap, j, defs), BLOCKED)
    decreases cap, j
  {
    if IsRef(j) {
      GenericWithout(BLOCKED);
      if cap > 0 && Resolve(RefOf(j), defs).Some? {
        NothingBlocked(cap - 1, Resolve(RefOf(j), defs).value, defs);
      }
    } else if j.Obj? {
      forall k | k in j.fields && k !in BLOCKED ensures Without(Inline(cap, j.fields[k], defs), BLOCKED) {
        NothingBlocked(cap, j.fields[k], defs);
      }
    } else if j.Arr? {
      forall i | 0 <= i < |j.items| ensures Without(Inline(cap, j.items[i], defs), BLOCKED) {
        NothingBlocked(cap, j.items[i], defs);
      }
    }
  }

  /** Wherever the walk gets to, a "$ref" is a string. */
  predicate ReachesStringRefs(cap: nat, j: Json, defs: Meta)
    decreases cap, j
  {
    if IsRef(j) then
      cap > 0 && Resolve(RefOf(j), defs).Some? ==> ReachesStringRefs(cap - 1, Resolve(RefOf(j), defs).value, defs)
    else
      match j
      case Obj(fields) =>
        "$ref" !in fields && forall k | k in fields && k !in BLOCKED :: ReachesStringRefs(cap, fields[k], defs)
      case Arr(items) => forall i | 0 <= i < |items| :: ReachesStringRefs(cap, items[i], defs)
      case _ => true
  }

  const REF: set<string> := {"$ref"}

  /** No reference survives exactly if every "$ref" the walk gets to is a string. */
  lemma {:induction false} NoRefLeft(cap: nat, j: Json, defs: Meta)
    ensures Without(Inline(cap, j, defs), REF) <==> ReachesStringRefs(cap, j, defs)
    decreases cap, j
  {
    if IsRef(j) {
      GenericWithout(REF);
      if cap > 0 && Resolve(RefOf(j), defs).Some? {
        NoRefLeft(cap - 1, Resolve(RefOf(j), defs).value, defs);
      }
    } else if j.Obj? {
      var out := Inline(cap, j, defs);
      forall k | k in j.fields && k !in BLOCKED
        ensures Without(out.fields[k], REF) <==> ReachesStringRefs(cap, j.fields[k], defs)
      {
        NoRefLeft(cap, j.fields[k], defs);
      }
      assert "$ref" in j.fields ==> "$ref" in out.fields;
    } else if j.Arr? {
      var out := Inline(cap, j, defs);
      forall i | 0 <= i < |j.items| ensures Without(out.items[i], REF) <==> ReachesStringRefs(cap, j.items[i], defs) {
        NoRefLeft(cap, j.items[i], defs);
      }
    }
  }

  /** Every "$ref" in j is a string. */
  predicate StringRefs(j: Json) {
    match j
    case Obj(fields) =>
      ("$ref" in fields ==> fields["$ref"].Str?) && forall k | k in fields :: StringRefs(fields[k])
    case Arr(items) => forall i | 0 <= i < |items| :: StringRefs(items[i])
    case _ => true
  }

  lemma {:induction false} StringRefsReached(cap: nat, j: Json, defs: Meta)
    requires StringRefs(j) && forall k | k in defs :: StringRefs(defs[k])
    ensures ReachesStringRefs(cap, j, defs)
    decreases cap, j
  {
    if IsRef(j) {
      if cap > 0 && Resolve(RefOf(j), defs).Some? {
        StringRefsReached(cap - 1, Resolve(RefOf(j), defs).value, defs);
      }
    } else if j.Obj? {
      forall k | k in j.fields && k !in BLOCKED ensures ReachesStringRefs(cap, j.fields[k], defs) {
        StringRefsReached(cap, j.fields[k], defs);
      }
    } else if j.Arr? {
      forall i | 0 <= i < |j.items| ensures ReachesStringRefs(cap, j.items[i], defs) {
        StringRefsReached(cap, j.items[i], defs);
      }
    }
  }

  /** A document without blocked keywords and references is left as it is. */
  lemma {:induction false} PlainIsKept(cap: nat, j: Json, defs: Meta)
    requires Without(j, BLOCKED) && Without(j, REF)
    ensures Inline(cap, j, defs) == j
    decreases cap, j
  {
    if j.Obj? {
      assert "$ref" !in j.fields;
      forall k | k in j.fields ensures Inline(cap, j.fields[k], defs) == j.fields[k] {
        PlainIsKept(cap, j.fields[k], defs);
      }
    } else if j.Arr? {
      forall i | 0 <= i < |j.items| ensures Inline(cap, j.items[i], defs) == j.items[i] {
        PlainIsKept(cap, j.items[i], defs);
      }
    }
  }

  /** What a row of references from j comes to, if it is not too long; else the generic object. */
  function EndOf(cap: nat, j: Json, defs: Meta): Json {
    if !IsRef(j) then j
    else if cap > 0 && Resolve(RefOf(j), defs).Some? then EndOf(cap - 1, Resolve(RefOf(j), defs).value, defs)
    else GENERIC
  }

  /** The schema is not a reference that comes to something else than an object, such as a
      schema that is true or false. */
  predicate EndsInObject(schema: Meta) {
    EndOf(MAX_DEPTH, Obj(schema), DefsOf(schema)).Obj?
  }

  lemma {:induction false} ObjectIffEnd(cap: nat, j: Json, defs: Meta)
    ensures Inline(cap, j, defs).Obj? <==> EndOf(cap, j, defs).Obj?
  {
    if IsRef(j) && cap > 0 && Resolve(RefOf(j), defs).Some? {
      ObjectIffEnd(cap - 1, Resolve(RefOf(j), defs).value, defs);
    }
  }

  predicate Clean(schema: Meta) {
    Without(Obj(schema), BLOCKED) && Without(Obj(schema), REF)
  }

  /** The first pass leaves neither references nor blocked keywords exactly if the schema is not
      a reference to something else than an object, and every "$ref" the walk gets to is a
      string. Such a reference itself is kept with its definitions. */
  lemma PreprocessIsClean(schema: Meta)
    ensures Clean(Preprocess(schema)) <==>
              EndsInObject(schema) && ReachesStringRefs(MAX_DEPTH, Obj(schema), DefsOf(schema))
    ensures !EndsInObject(schema) ==> Preprocess(schema) == schema
  {
    var defs := DefsOf(schema);
    ObjectIffEnd(MAX_DEPTH, Obj(schema), defs);
    if EndsInObject(schema) {
      NothingBlocked(MAX_DEPTH, Obj(schema), defs);
      NoRefLeft(MAX_DEPTH, Obj(schema), defs);
    } else {
      assert IsRef(Obj(schema)) && "$ref" in schema;
    }
  }

  /** For a schema whose references are all strings, cyclic or not, it is exactly the first
      condition; and a second pass changes nothing in either case. */
  lemma PreprocessTwice(schema: Meta)
    requires StringRefs(Obj(schema))
    ensures Clean(Preprocess(schema)) <==> EndsInObject(schema)
    ensures Preprocess(Preprocess(schema)) == Preprocess(schema)
  {
    var own, out := DefsOf(schema), Preprocess(schema);
    forall k | k in own ensures StringRefs(own[k]) {
      assert StringRefs(schema["$defs"]);
    }
    StringRefsReached(MAX_DEPTH, Obj(schema), own);
    PreprocessIsClean(schema);
    if Clean(out) {
      PlainIsKept(MAX_DEPTH, Obj(out), DefsOf(out));
    }
  }

  /** For one, a reference to a definition that is true. */
  lemma ReferenceToTrueIsKept(schema: Meta)
    requires schema == map["$ref" := Str(PREFIX + "X"), "$defs" := Obj(map["X" := Bool(true)])]
    ensures StringRefs(Obj(schema)) && Preprocess(schema) == schema && !Clean(schema)
  {
    var defs := map["X" := Bool(true)];
    assert schema["$defs"] == Obj(defs) && DefsOf(schema) == defs;
    assert (PREFIX + "X")[|PREFIX|..] == "X";
    assert StringRefs(schema["$defs"]) && StringRefs(schema["$ref"]);
    assert IsRef(Obj(schema)) && Resolve(RefOf(Obj(schema)), defs) == Some(Bool(true));
    assert EndOf(MAX_DEPTH - 1, Bool(true), defs) == Bool(true);
    PreprocessIsClean(schema);
  }

  // ------------------------------------------------ the expansion without a cap

  /** r is j with every reference followed to the end; n bounds the derivation, not the
      number of references replaced in a result that exists. */
  predicate Expands(n: nat, j: Json, defs: Meta, r: Json)
    decreases n, j
  {
    if IsRef(j) then
      match Resolve(RefOf(j), defs)
      case Some(target) => n > 0 && Expands(n - 1, target, defs, r)
      case None => r == GENERIC
    else
      match j
      case Obj(fields) =>
        && r.Obj? && (forall k | k in r.fields :: k in fields && k !in BLOCKED)
        && forall k | k in fields && k !in BLOCKED :: k in r.fields && Expands(n, fields[k], defs, r.fields[k])
      case Arr(items) =>
        r.Arr? && |r.items| == |items| && forall i | 0 <= i < |items| :: Expands(n, items[i], defs, r.items[i])
      case _ => r == j
  }

  /** There is at most one full expansion. */
  lemma {:induction false} ExpansionIsUnique(n: nat, m: nat, j: Json, defs: Meta, r: Json, q: Json)
    requires Expands(n, j, defs, r) && Expands(m, j, defs, q)
    ensures r == q
    decreases n, j
  {
    if IsRef(j) {
      match Resolve(RefOf(j), defs)
      case Some(target) => ExpansionIsUnique(n - 1, m - 1, target, defs, r, q);
      case None =>
    } else if j.Obj? {
      assert r.fields.Keys == q.fields.Keys;
      forall k | k in r.fields ensures r.fields[k] == q.fields[k] {
        ExpansionIsUnique(n, m, j.fields[k], defs, r.fields[k], q.fields[k]);
      }
    } else if j.Arr? {
      forall i | 0 <= i < |j.items| ensures r.items[i] == q.items[i] {
        ExpansionIsUnique(n, m, j.items[i], defs, r.items[i], q.items[i]);
      }
    }
  }

  /** No chain of references from j is longer than n. */
  predicate Chains(n: nat, j: Json, defs: Meta)
    decreases n, j
  {
    if IsRef(j) then
      match Resolve(RefOf(j), defs)
      case Some(target) => n > 0 && Chains(n - 1, target, defs)
      case None => true
    else
      match j
      case Obj(fields) => forall k | k in fields && k !in BLOCKED :: Chains(n, fields[k], defs)
      case Arr(items) => forall i | 0 <= i < |items| :: Chains(n, items[i], defs)
      case _ => true
  }

  lemma {:induction false} ChainsExpand(n: nat, j: Json, defs: Meta)
    requires Chains(n, j, defs)
    ensures Expands(n, j, defs, Inline(n, j, defs))
    decreases n, j
  {
    if IsRef(j) {
      match Resolve(RefOf(j), defs)
      case Some(target) => ChainsExpand(n - 1, target, defs);
      case None =>
    } else if j.Obj? {
      forall k | k in j.fields && k !in BLOCKED ensures Expands(n, j.fields[k], defs, Inline(n, j.fields[k], defs)) {
        ChainsExpand(n, j.fields[k], defs);
      }
    } else if j.Arr? {
      forall i | 0 <= i < |j.items| ensures Expands(n, j.items[i], defs, Inline(n, j.items[i], defs)) {
        ChainsExpand(n, j.items[i], defs);
      }
    }
  }

  lemma {:induction false} ExpansionBoundsChains(n: nat, j: Json, defs: Meta, r: Json)
    requires Expands(n, j, defs, r)
    ensures Chains(n, j, defs)
    decreases n, j
  {
    if IsRef(j) {
      match Resolve(RefOf(j), defs)
      case Some(target) => ExpansionBoundsChains(n - 1, target, defs, r);
      case None =>
    } else if j.Obj? {
      forall k | k in j.fields && k !in BLOCKED ensures Chains(n, j.fields[k], defs) {
        ExpansionBoundsChains(n, j.fields[k], defs, r.fields[k]);
      }
    } else if j.Arr? {
      forall i | 0 <= i < |j.items| ensures Chains(n, j.items[i], defs) {
        ExpansionBoundsChains(n, j.items[i], defs, r.items[i]);
      }
    }
  }

  /** An expansion exists exactly where the chains are bounded, which a cycle is not. */
  lemma ExpansionExists(n: nat, j: Json, defs: Meta)
    ensures Chains(n, j, defs) <==> exists r :: Expands(n, j, defs, r)
  {
    if Chains(n, j, defs) {
      ChainsExpand(n, j, defs);
      assert Expands(n, j, defs, Inline(n, j, defs));
    } else {
      forall r ensures !Expands(n, j, defs, r) {
        if Expands(n, j, defs, r) {
          ExpansionBoundsChains(n, j, defs, r);
        }
      }
    }
  }

  /** Up to chains of ten references, inlining gives the full expansion and no other document. */
  lemma InlineIsExpansion(n: nat, j: Json, defs: Meta, r: Json)
    requires Chains(MAX_DEPTH, j, defs)
    ensures Expands(n, j, defs, r) ==> r == Inline(MAX_DEPTH, j, defs)
    ensures Expands(MAX_DEPTH, j, defs, Inline(MAX_DEPTH, j, defs))
  {
    ChainsExpand(MAX_DEPTH, j, defs);
    if Expands(n, j, defs, r) {
      ExpansionIsUnique(n, MAX_DEPTH, j, defs, r, Inline(MAX_DEPTH, j, defs));
    }
  }

  // ----------------------------------------------------------- cycles and limits

  function Reference(name: string): Json {
    Obj(map["$ref" := Str(PREFIX + name)])
  }

  lemma ReferenceResolves(name: string, defs: Meta)
    requires name in defs && defs[name] != Null
    ensures IsRef(Reference(name)) && Resolve(RefOf(Reference(name)), defs) == Some(defs[name])
  {
    assert (PREFIX + name)[|PREFIX|..] == name;
  }

  /** A definition that is only a reference to itself has no expansion; inlining ends all the
      same, with the generic object. */
  lemma {:induction false} CycleEnds(n: nat, name: string, r: Json)
    ensures var defs := map[name := Reference(name)];
            !Expands(n, Reference(name), defs, r) && Inline(n, Reference(name), defs) == GENERIC
  {
    var defs := map[name := Reference(name)];
    ReferenceResolves(name, defs);
    if n > 0 {
      CycleEnds(n - 1, name, r);
    }
  }

  /** j is n references in a row, then `end`. */
  predicate Row(n: nat, j: Json, defs: Meta, end: Json) {
    if n == 0 then j == end && !IsRef(end)
    else IsRef(j) && Resolve(RefOf(j), defs).Some? && Row(n - 1, Resolve(RefOf(j), defs).value, defs, end)
  }

  /** Where the limit is: a row of references as long as the limit is followed to its end, a
      longer one is given up, whatever is at its end. */
  lemma {:induction false} RowIsFollowed(cap: nat, n: nat, j: Json, defs: Meta, end: Json)
    requires Row(n, j, defs, end)
    ensures Inline(cap, j, defs) == if n <= cap then Inline(cap - n, end, defs) else GENERIC
  {
    if n > 0 && cap > 0 {
      RowIsFollowed(cap - 1, n - 1, Resolve(RefOf(j), defs).value, defs, end);
    }
  }

  // ------------------------------------------------------------ property names

  /** r has every name of every object that the walk over j gets to, references followed. */
  predicate KeepsNames(cap: nat, j: Json, defs: Meta, r: Json)
    decreases cap, j
  {
    if IsRef(j) then
      cap > 0 && Resolve(RefOf(j), defs).Some? ==> KeepsNames(cap - 1, Resolve(RefOf(j), defs).value, defs, r)
    else
      match j
      case Obj(fields) =>
        r.Obj? && forall k | k in fields :: k in r.fields && KeepsNames(cap, fields[k], defs, r.fields[k])
      case Arr(items) =>
        && r.Arr? && |r.items| == |items|
        && forall i | 0 <= i < |items| :: KeepsNames(cap, items[i], defs, r.items[i])
      case _ => true
  }

  /** No object that the walk gets to has a name that is blocked, be it a keyword or the
      name of a property. */
  predicate ReachesNoBlocked(cap: nat, j: Json, defs: Meta)
    decreases cap, j
  {
    if IsRef(j) then
      cap > 0 && Resolve(RefOf(j), defs).Some? ==> ReachesNoBlocked(cap - 1, Resolve(RefOf(j), defs).value, defs)
    else
      match j
      case Obj(fields) => forall k | k in fields :: k !in BLOCKED && ReachesNoBlocked(cap, fields[k], defs)
      case Arr(items) => forall i | 0 <= i < |items| :: ReachesNoBlocked(cap, items[i], defs)
      case _ => true
  }

  /** Inlining keeps every name of every object exactly if none that it gets to is blocked. */
  lemma {:induction false} NamesKept(cap: nat, j: Json, defs: Meta)
    ensures KeepsNames(cap, j, defs, Inline(cap, j, defs)) <==> ReachesNoBlocked(cap, j, defs)
    decreases cap, j
  {
    if IsRef(j) {
      if cap > 0 && Resolve(RefOf(j), defs).Some? {
        NamesKept(cap - 1, Resolve(RefOf(j), defs).value, defs);
      }
    } else if j.Obj? {
      forall k | k in j.fields
        ensures KeepsNames(cap, j.fields[k], defs, Inline(cap, j.fields[k], defs))
                <==> ReachesNoBlocked(cap, j.fields[k], defs)
      {
        NamesKept(cap, j.fields[k], defs);
      }
    } else if j.Arr? {
      forall i | 0 <= i < |j.items|
        ensures KeepsNames(cap, j.items[i], defs, Inline(cap, j.items[i], defs))
                <==> ReachesNoBlocked(cap, j.items[i], defs)
      {
        NamesKept(cap, j.items[i], defs);
      }
    }
  }

  /** For one, a property that is called like a blocked keyword is dropped. */
  lemma PropertyNamedIfIsLost(cap: nat, j: Json, defs: Meta)
    ensures Inline(cap, Obj(map["properties" := Obj(map["if" := j])]), defs) == Obj(map["properties" := Obj(map[])])
  {
    var props := Obj(map["if" := j]);
    assert Inline(cap, props, defs).fields == map[];
    assert !IsRef(props) && !IsRef(Obj(map["properties" := props]));
  }
}
