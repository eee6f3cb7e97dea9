/**
 provider/anthropic/anthropic.go, transformNativeOutputSchema: a JSON schema cut down to the
 keywords that native structured output supports.

 Object keys are the keywords the code names, or any other name. An error is only told
 apart from success: any error refuses the whole schema, so the order in which a map is
 walked does not matter.
 */
module NativeSchema {
  import opened Wrappers

  datatype Key =
    | Defs | Ref | Type | AnyOf | OneOf | AllOf | Enum | Const | Description | Title
    | Properties | AdditionalProperties | Required | Items | MinItems | Format
    | Name(name: string)

  type Fields = map<Key, Value>

  datatype Value =
    | Null
    | Bool(b: bool)
    | Num(n: real)
    | Str(s: string)
    | Arr(items: seq<Value>)
    | Obj(fields: Fields)

  /** formatUnsupportedSchemaKeywords. */
  type Show = Fields -> string

  datatype Kind = NoType | ObjectType | ArrayType | StringType | PlainType | UnknownType

  function KindOf(m: Fields): Kind {
    if Type !in m || !m[Type].Str? || m[Type].s == "" then NoType
    else
      var t := m[Type].s;
      if t == "object" then ObjectType
      else if t == "array" then ArrayType
      else if t == "string" then StringType
      else if t == "integer" || t == "number" || t == "boolean" || t == "null" then PlainType
      else UnknownType
  }

  const FORMATS: set<string> :=
    {"date-time", "time", "date", "duration", "email", "hostname", "ipv4", "ipv6", "uuid", "uri"}

  predicate IsList(m: Fields, k: Key) {
    k in m && m[k].Arr?
  }

  /** The first composition keyword that holds a list. */
  function Composition(m: Fields): Option<Key> {
    if IsList(m, AnyOf) then Some(AnyOf)
    else if IsList(m, OneOf) then Some(OneOf)
    else if IsList(m, AllOf) then Some(AllOf)
    else None
  }

  predicate FewItems(m: Fields) {
    MinItems in m && (m[MinItems] == Num(0.0) || m[MinItems] == Num(1.0))
  }

  predicate KnownFormat(m: Fields) {
    Format in m && m[Format].Str? && m[Format].s in FORMATS
  }

  /** What the output says for this kind of schema; `sub` holds the nested schemas' outputs. */
  function Body(m: Fields, kind: Kind, sub: Fields): Fields {
    match kind
    case ObjectType =>
      map[Properties := if Properties in sub then sub[Properties] else Obj(map[]), AdditionalProperties := Bool(false)]
      + (if Required in m then map[Required := m[Required]] else map[])
    case ArrayType =>
      (if Items in sub then map[Items := sub[Items]] else map[])
      + (if FewItems(m) then map[MinItems := m[MinItems]] else map[])
    case StringType => if KnownFormat(m) then map[Format := m[Format]] else map[]
    case _ => map[]
  }

  /** The keywords that are dealt with; the others go into the description. */
  predicate Used(m: Fields, k: Key) {
    match k
    case Defs => true
    case Type => true
    case Enum => true
    case Const => true
    case Description => true
    case Title => true
    case Properties => KindOf(m) == ObjectType
    case AdditionalProperties => KindOf(m) == ObjectType
    case Required => KindOf(m) == ObjectType
    case Items => KindOf(m) == ArrayType
    case MinItems => KindOf(m) == ArrayType && FewItems(m)
    case Format => KindOf(m) == StringType && KnownFormat(m)
    case _ => Composition(m) == Some(k)
  }

  function Rest(m: Fields): Fields {
    map k | k in m && !Used(m, k) :: m[k]
  }

  function Literals(m: Fields): Fields {
    map k | k in m && k in {Enum, Const, Description, Title} :: m[k]
  }

  function Described(show: Show, out: Fields, rest: Fields): Fields {
    if rest == map[] then out
    else
      var d := if Description in out && out[Description].Str? then out[Description].s else "";
      out[Description := Str(if d != "" then d + "\n\n" + show(rest) else show(rest))]
  }

  function Only(sub: Fields, k: Key): Fields {
    if k in sub then map[k := sub[k]] else map[]
  }

  /** The type or the composition; Anthropic has no oneOf. */
  function Head(m: Fields, sub: Fields): Fields {
    match Composition(m)
    case Some(OneOf) => if OneOf in sub then map[AnyOf := sub[OneOf]] else map[]
    case Some(k) => Only(sub, k)
    case None => Only(m, Type)
  }

  /** The output for a schema without a reference, from the outputs of its nested schemas. */
  function Assembled(show: Show, m: Fields, sub: Fields): Fields {
    Described(show, Only(sub, Defs) + Head(m, sub) + Literals(m) + Body(m, KindOf(m), sub), Rest(m))
  }

  /** The keywords of m that hold nested schemas which are looked at. */
  predicate Nested(m: Fields, k: Key) {
    && k in m
    && match k
       case Defs => true
       case Properties => Ref !in m && KindOf(m) == ObjectType
       case Items => Ref !in m && KindOf(m) == ArrayType
       case _ => Ref !in m && Composition(m) == Some(k)
  }

  predicate Typed(m: Fields) {
    KindOf(m) != UnknownType && (KindOf(m) == NoType ==> Composition(m).Some?)
  }

  function Transform(show: Show, j: Value): Option<Value>
    decreases j, 1
  {
    match j
    case Obj(m) =>
      if forall k | k in m && Nested(m, k) :: Within(show, k, m[k]).Some? then
        var sub := map k | k in m && Nested(m, k) :: Within(show, k, m[k]).value;
        if Ref in m then Some(Obj(Only(sub, Defs)[Ref := m[Ref]]))
        else if Typed(m) then Some(Obj(Assembled(show, m, sub)))
        else None
      else None
    case _ => None
  }

  /** The nested schemas under one keyword: a map of them, one, or a list. */
  function Within(show: Show, k: Key, v: Value): Option<Value>
    decreases v, 2
  {
    match k
    case Defs => Map(show, v)
    case Properties => Map(show, v)
    case Items => Transform(show, v)
    case _ => List(show, v)
  }

  /** transformSchemaMap. */
  function Map(show: Show, v: Value): Option<Value>
    decreases v, 0
  {
    match v
    case Obj(m) =>
      if forall k | k in m :: Transform(show, m[k]).Some?
      then Some(Obj(map k | k in m :: Transform(show, m[k]).value)) else None
    case _ => None
  }

  /** transformSchemaList. */
  function List(show: Show, v: Value): Option<Value>
    decreases v, 0
  {
    match v
    case Arr(items) =>
      if forall i | 0 <= i < |items| :: Transform(show, items[i]).Some?
      then Some(Arr(seq(|items|, i requires 0 <= i < |items| => Transform(show, items[i]).value))) else None
    case _ => None
  }

  /** The outputs of the nested schemas. */
  function Inner(show: Show, m: Fields): Fields {
    map k | k in m && Nested(m, k) && Within(show, k, m[k]).Some? :: Within(show, k, m[k]).value
  }

  predicate Accepts(show: Show, m: Fields) {
    && (forall k | k in m && Nested(m, k) :: Within(show, k, m[k]).Some?)
    && (Ref !in m ==> Typed(m))
  }

  function Output(show: Show, m: Fields): Fields {
    if Ref in m then Only(Inner(show, m), Defs)[Ref := m[Ref]] else Assembled(show, m, Inner(show, m))
  }

  lemma TransformIs(show: Show, m: Fields)
    ensures Transform(show, Obj(m)) == if Accepts(show, m) then Some(Obj(Output(show, m))) else None
  {
    if forall k | k in m && Nested(m, k) :: Within(show, k, m[k]).Some? {
      var sub := map k | k in m && Nested(m, k) :: Within(show, k, m[k]).value;
      assert sub == Inner(show, m);
    }
  }

  function Get(m: Fields, k: Key): Option<Value> {
    if k in m then Some(m[k]) else None
  }

  lemma SameFields(a: Fields, b: Fields)
    requires forall k :: Get(a, k) == Get(b, k)
    ensures a == b
  {
    forall k ensures k in a <==> k in b { assert Get(a, k) == Get(b, k); }
    forall k | k in a ensures a[k] == b[k] { assert Get(a, k) == Get(b, k); }
  }

  /** What the output has under each keyword, but for the description. */
  function Field(m: Fields, sub: Fields, k: Key): Option<Value> {
    match k
    case Defs => Get(sub, Defs)
    case AnyOf =>
      (match Composition(m) case Some(AnyOf) => Get(sub, AnyOf) case Some(OneOf) => Get(sub, OneOf) case _ => None)
    case AllOf => if Composition(m) == Some(AllOf) then Get(sub, AllOf) else None
    case Type => if Composition(m).None? then Get(m, Type) else None
    case Enum => Get(m, Enum)
    case Const => Get(m, Const)
    case Title => Get(m, Title)
    case Properties =>
      if KindOf(m) != ObjectType then None
      else if Properties in sub then Some(sub[Properties]) else Some(Obj(map[]))
    case AdditionalProperties => if KindOf(m) == ObjectType then Some(Bool(false)) else None
    case Required => if KindOf(m) == ObjectType then Get(m, Required) else None
    case Items => if KindOf(m) == ArrayType then Get(sub, Items) else None
    case MinItems => if KindOf(m) == ArrayType && FewItems(m) then Get(m, MinItems) else None
    case Format => if KindOf(m) == StringType && KnownFormat(m) then Get(m, Format) else None
    case _ => None
  }

  /** The part of a schema each keyword of the output comes from. */
  datatype Origin = FromDefs | FromHead | FromLiterals | FromBody | Nowhere

  function OriginOf(k: Key): Origin {
    match k
    case Defs => FromDefs
    case AnyOf => FromHead
    case AllOf => FromHead
    case Type => FromHead
    case Enum => FromLiterals
    case Const => FromLiterals
    case Title => FromLiterals
    case Description => FromLiterals
    case Ref => Nowhere
    case OneOf => Nowhere
    case Name(_) => Nowhere
    case _ => FromBody
  }

  lemma HeadIs(m: Fields, sub: Fields, k: Key)
    ensures OriginOf(k) == FromHead ==> Get(Head(m, sub), k) == Field(m, sub, k)
    ensures OriginOf(k) != FromHead ==> k !in Head(m, sub)
  {
  }

  lemma BodyIs(m: Fields, sub: Fields, k: Key)
    ensures OriginOf(k) == FromBody ==> Get(Body(m, KindOf(m), sub), k) == Field(m, sub, k)
    ensures OriginOf(k) != FromBody ==> k !in Body(m, KindOf(m), sub)
  {
  }

  lemma LiteralsIs(m: Fields, k: Key)
    ensures OriginOf(k) == FromLiterals ==> Get(Literals(m), k) == Get(m, k)
    ensures OriginOf(k) != FromLiterals ==> k !in Literals(m)
  {
  }

  lemma AssembledIs(show: Show, m: Fields, sub: Fields, k: Key)
    requires k != Description
    ensures Get(Assembled(show, m, sub), k) == Field(m, sub, k)
  {
    HeadIs(m, sub, k);
    BodyIs(m, sub, k);
    LiteralsIs(m, k);
    Pieces(Only(sub, Defs), Head(m, sub), Literals(m), Body(m, KindOf(m), sub), k);
    assert k in Only(sub, Defs) ==> k == Defs;
  }

  lemma Pieces(a: Fields, b: Fields, c: Fields, d: Fields, k: Key)
    ensures Get(a + b + c + d, k)
            == if k in d then Get(d, k) else if k in c then Get(c, k) else if k in b then Get(b, k) else Get(a, k)
  {
  }

  // ------------------------------------------------------------------- closure

  /** The keywords a supported schema may have. */
  predicate Fits(m: Fields, k: Key)
    requires k in m
  {
    match k
    case Defs => true
    case Enum => true
    case Const => true
    case Description => true
    case Title => true
    case Type => KindOf(m) != NoType && Composition(m).None?
    case AnyOf => m[k].Arr? && AllOf !in m
    case AllOf => m[k].Arr? && AnyOf !in m
    case Properties => (KindOf(m) == ObjectType || Composition(m).Some?) && AdditionalProperties in m
    case AdditionalProperties => (KindOf(m) == ObjectType || Composition(m).Some?) && m[k] == Bool(false)
    case Required => (KindOf(m) == ObjectType || Composition(m).Some?) && AdditionalProperties in m
    case Items => KindOf(m) == ArrayType || Composition(m).Some?
    case MinItems => (KindOf(m) == ArrayType || Composition(m).Some?) && FewItems(m)
    case Format => (KindOf(m) == StringType || Composition(m).Some?) && KnownFormat(m)
    case _ => false
  }

  predicate HoldsSchemas(k: Key) {
    k.Defs? || k.Properties? || k.Items? || k.AnyOf? || k.AllOf?
  }

  /** Supported keywords only, throughout: no oneOf, and every object type closed. */
  predicate Supported(j: Value)
    decreases j, 1
  {
    match j
    case Obj(m) =>
      && (if Ref in m then forall k | k in m :: k == Defs || k == Ref else SupportedHere(m))
      && forall k | k in m && HoldsSchemas(k) :: SupportedWithin(k, m[k])
    case _ => false
  }

  predicate SupportedHere(m: Fields) {
    && (forall k | k in m :: Fits(m, k)) && Typed(m)
    && (KindOf(m) == ObjectType ==> Properties in m && AdditionalProperties in m)
  }

  predicate SupportedWithin(k: Key, v: Value)
    decreases v, 2
  {
    if k.Defs? || k.Properties? then v.Obj? && forall n | n in v.fields :: Supported(v.fields[n])
    else if k.Items? then Supported(v)
    else v.Arr? && forall i | 0 <= i < |v.items| :: Supported(v.items[i])
  }

  /** What is known of the nested outputs: they are there, and a composition is a list. */
  ghost predicate Full(m: Fields, sub: Fields) {
    && (forall k :: k in sub <==> Nested(m, k))
    && (Composition(m).Some? ==> Composition(m).value in sub && sub[Composition(m).value].Arr?)
  }

  /** Keyword by keyword, `out` is the output. */
  ghost predicate Made(out: Fields, m: Fields, sub: Fields) {
    forall k :: k != Description ==> Get(out, k) == Field(m, sub, k)
  }

  lemma AssembledIsMade(show: Show, m: Fields, sub: Fields)
    ensures Made(Assembled(show, m, sub), m, sub)
  {
    forall k | k != Description ensures Get(Assembled(show, m, sub), k) == Field(m, sub, k) {
      AssembledIs(show, m, sub, k);
    }
  }

  lemma KindOfMade(out: Fields, m: Fields, sub: Fields)
    requires Ref !in m && Full(m, sub) && Made(out, m, sub)
    ensures KindOf(out) == (if Composition(m).Some? then NoType else KindOf(m))
    ensures Composition(out) == (if Composition(m) == Some(OneOf) then Some(AnyOf) else Composition(m))
    ensures OneOf !in out && Ref !in out
  {
    assert Get(out, Type) == Field(m, sub, Type);
    assert Get(out, AnyOf) == Field(m, sub, AnyOf);
    assert Get(out, OneOf) == Field(m, sub, OneOf);
    assert Get(out, AllOf) == Field(m, sub, AllOf);
    assert Get(out, Ref) == Field(m, sub, Ref);
  }

  lemma KindOfOutput(show: Show, m: Fields, sub: Fields)
    requires Ref !in m && Full(m, sub)
    ensures var out := Assembled(show, m, sub);
            && KindOf(out) == (if Composition(m).Some? then NoType else KindOf(m))
            && Composition(out) == (if Composition(m) == Some(OneOf) then Some(AnyOf) else Composition(m))
            && OneOf !in out && Ref !in out
  {
    AssembledIsMade(show, m, sub);
    KindOfMade(Assembled(show, m, sub), m, sub);
  }

  lemma FewInMade(out: Fields, m: Fields, sub: Fields)
    requires Made(out, m, sub)
    ensures (MinItems in out ==> FewItems(out)) && (Format in out ==> KnownFormat(out))
    ensures AdditionalProperties in out <==> KindOf(m) == ObjectType
    ensures Properties in out <==> KindOf(m) == ObjectType
    ensures AdditionalProperties in out ==> out[AdditionalProperties] == Bool(false)
  {
    assert Get(out, MinItems) == Field(m, sub, MinItems);
    assert Get(out, Format) == Field(m, sub, Format);
    assert Get(out, AdditionalProperties) == Field(m, sub, AdditionalProperties);
    assert Get(out, Properties) == Field(m, sub, Properties);
  }

  lemma FewKept(show: Show, m: Fields, sub: Fields)
    ensures var out := Assembled(show, m, sub);
            && (MinItems in out ==> FewItems(out)) && (Format in out ==> KnownFormat(out))
            && (AdditionalProperties in out <==> KindOf(m) == ObjectType)
            && (Properties in out <==> KindOf(m) == ObjectType)
            && (AdditionalProperties in out ==> out[AdditionalProperties] == Bool(false))
  {
    AssembledIsMade(show, m, sub);
    FewInMade(Assembled(show, m, sub), m, sub);
  }

  lemma FitsMade(out: Fields, m: Fields, sub: Fields, k: Key)
    requires Ref !in m && Full(m, sub) && Typed(m) && Made(out, m, sub) && k in out
    ensures Fits(out, k)
  {
    KindOfMade(out, m, sub);
    FewInMade(out, m, sub);
    assert Get(out, AnyOf) == Field(m, sub, AnyOf) && Get(out, AllOf) == Field(m, sub, AllOf);
    assert k != Description ==> Get(out, k) == Field(m, sub, k);
  }

  lemma OutputFits(show: Show, m: Fields, sub: Fields, k: Key)
    requires Ref !in m && Full(m, sub) && Typed(m) && k in Assembled(show, m, sub)
    ensures Fits(Assembled(show, m, sub), k)
  {
    AssembledIsMade(show, m, sub);
    FitsMade(Assembled(show, m, sub), m, sub, k);
  }

  lemma OutputSupported(show: Show, m: Fields, sub: Fields)
    requires Ref !in m && Full(m, sub) && Typed(m)
    ensures SupportedHere(Assembled(show, m, sub))
  {
    forall k | k in Assembled(show, m, sub) ensures Fits(Assembled(show, m, sub), k) {
      OutputFits(show, m, sub, k);
    }
    KindOfOutput(show, m, sub);
    FewKept(show, m, sub);
  }

  /** The keyword of m that a keyword of the output comes from. */
  function SourceOf(m: Fields, k: Key): Key {
    if k == AnyOf && Composition(m) == Some(OneOf) then OneOf else k
  }

  lemma NestedMade(out: Fields, m: Fields, sub: Fields, k: Key)
    requires Full(m, sub) && Made(out, m, sub) && HoldsSchemas(k) && k in out
    ensures if SourceOf(m, k) in sub then out[k] == sub[SourceOf(m, k)] else k == Properties && out[k] == Obj(map[])
  {
    assert Get(out, k) == Field(m, sub, k);
  }

  lemma NestedOutput(show: Show, m: Fields, sub: Fields, k: Key)
    requires Full(m, sub) && HoldsSchemas(k) && k in Assembled(show, m, sub)
    ensures var out, s := Assembled(show, m, sub), SourceOf(m, k);
            if s in sub then out[k] == sub[s] else k == Properties && out[k] == Obj(map[])
  {
    AssembledIsMade(show, m, sub);
    NestedMade(Assembled(show, m, sub), m, sub, k);
  }

  lemma InnerIsFull(show: Show, m: Fields)
    requires Accepts(show, m) && Ref !in m
    ensures Full(m, Inner(show, m))
  {
    if Composition(m).Some? {
      var k := Composition(m).value;
      assert Nested(m, k);
      assert Within(show, k, m[k]) == List(show, m[k]);
    }
  }

  lemma {:induction false} WithinCloses(show: Show, k: Key, v: Value)
    requires Within(show, k, v).Some?
    ensures SupportedWithin(k, Within(show, k, v).value)
    decreases v, 2
  {
    match k
    case Items => TransformCloses(show, v);
    case Defs =>
      forall n | n in v.fields ensures Supported(Transform(show, v.fields[n]).value) {
        TransformCloses(show, v.fields[n]);
      }
    case Properties =>
      forall n | n in v.fields ensures Supported(Transform(show, v.fields[n]).value) {
        TransformCloses(show, v.fields[n]);
      }
    case _ =>
      forall i | 0 <= i < |v.items| ensures Supported(Transform(show, v.items[i]).value) {
        TransformCloses(show, v.items[i]);
      }
  }

  /** Whatever is accepted becomes a schema of supported keywords only. */
  lemma {:induction false} TransformCloses(show: Show, j: Value)
    requires Transform(show, j).Some?
    ensures Supported(Transform(show, j).value)
    decreases j, 1
  {
    var m := j.fields;
    var sub, out := Inner(show, m), Output(show, m);
    TransformIs(show, m);
    forall k | k in m && Nested(m, k) ensures SupportedWithin(k, sub[k]) { WithinCloses(show, k, m[k]); }
    if Ref !in m {
      InnerIsFull(show, m);
      OutputSupported(show, m, sub);
      KindOfOutput(show, m, sub);
      forall k | k in out && HoldsSchemas(k) ensures SupportedWithin(k, out[k]) {
        NestedOutput(show, m, sub, k);
      }
    }
  }

  // --------------------------------------------------------------- a second pass

  /** A composition whose type keywords are kept although the type is not. */
  predicate Mixed(m: Fields) {
    && Ref !in m && Composition(m).Some?
    && match KindOf(m)
       case ObjectType => true
       case ArrayType => Items in m || FewItems(m)
       case StringType => KnownFormat(m)
       case _ => false
  }

  /** No schema that is looked at is mixed. */
  predicate Unmixed(j: Value)
    decreases j, 1
  {
    match j
    case Obj(m) => !Mixed(m) && forall k | k in m && Nested(m, k) :: UnmixedWithin(k, m[k])
    case _ => true
  }

  predicate UnmixedWithin(k: Key, v: Value)
    decreases v, 2
  {
    match k
    case Items => Unmixed(v)
    case Defs => v.Obj? ==> forall n | n in v.fields :: Unmixed(v.fields[n])
    case Properties => v.Obj? ==> forall n | n in v.fields :: Unmixed(v.fields[n])
    case _ => v.Arr? ==> forall i | 0 <= i < |v.items| :: Unmixed(v.items[i])
  }

  lemma DescriptionKept(show: Show, m: Fields, sub: Fields)
    requires Rest(m) == map[]
    ensures Get(Assembled(show, m, sub), Description) == Get(m, Description)
  {
    HeadIs(m, sub, Description);
    BodyIs(m, sub, Description);
    LiteralsIs(m, Description);
    Pieces(Only(sub, Defs), Head(m, sub), Literals(m), Body(m, KindOf(m), sub), Description);
    assert Description !in Only(sub, Defs);
  }

  /** The output of an unmixed schema has nothing left over. */
  lemma NothingLeft(show: Show, m: Fields, sub: Fields)
    requires Ref !in m && Full(m, sub) && !Mixed(m)
    ensures Rest(Assembled(show, m, sub)) == map[]
  {
    var out := Assembled(show, m, sub);
    KindOfOutput(show, m, sub);
    FewKept(show, m, sub);
    forall k | k in out ensures Used(out, k) {
      if k != Description {
        AssembledIs(show, m, sub, k);
      }
    }
  }

  /** Where the nested outputs are kept by a second pass, so is the whole. */
  lemma FieldAgain(show: Show, m: Fields, sub: Fields, again: Fields, k: Key)
    requires Ref !in m && Full(m, sub) && !Mixed(m) && k != Description
    requires var out := Assembled(show, m, sub);
             forall n :: Get(again, n) == if Nested(out, n) then Get(out, n) else None
    ensures var out := Assembled(show, m, sub); Field(out, again, k) == Get(out, k)
  {
    var out := Assembled(show, m, sub);
    AssembledIsMade(show, m, sub);
    assert Get(again, k) == if Nested(out, k) then Get(out, k) else None;
    if OriginOf(k) == FromBody {
      BodyAgain(out, m, sub, again, k);
    } else {
      OthersAgain(out, m, sub, again, k);
    }
  }

  lemma BodyAgain(out: Fields, m: Fields, sub: Fields, again: Fields, k: Key)
    requires Ref !in m && Full(m, sub) && !Mixed(m) && Made(out, m, sub) && OriginOf(k) == FromBody
    requires Get(again, k) == if Nested(out, k) then Get(out, k) else None
    ensures Field(out, again, k) == Get(out, k)
  {
    KindOfMade(out, m, sub);
    FewInMade(out, m, sub);
    assert Get(out, k) == Field(m, sub, k);
  }

  lemma OthersAgain(out: Fields, m: Fields, sub: Fields, again: Fields, k: Key)
    requires Ref !in m && Full(m, sub) && Made(out, m, sub) && OriginOf(k) != FromBody && k != Description
    requires Get(again, k) == if Nested(out, k) then Get(out, k) else None
    ensures Field(out, again, k) == Get(out, k)
  {
    KindOfMade(out, m, sub);
    assert Get(out, k) == Field(m, sub, k);
  }

  lemma KeptAgain(show: Show, m: Fields, sub: Fields, again: Fields)
    requires Ref !in m && Full(m, sub) && !Mixed(m)
    requires var out := Assembled(show, m, sub);
             forall n :: Get(again, n) == if Nested(out, n) then Get(out, n) else None
    ensures var out := Assembled(show, m, sub); Assembled(show, out, again) == out
  {
    var out := Assembled(show, m, sub);
    forall k ensures Get(Assembled(show, out, again), k) == Get(out, k) {
      NothingLeft(show, m, sub);
      if k == Description {
        DescriptionKept(show, out, again);
      } else {
        FieldAgain(show, m, sub, again, k);
        AssembledIs(show, out, again, k);
      }
    }
    SameFields(Assembled(show, out, again), out);
  }

  lemma MixedChanges(show: Show, m: Fields, sub: Fields, again: Fields)
    requires Full(m, sub) && Mixed(m)
    ensures var out := Assembled(show, m, sub); Assembled(show, out, again) != out
  {
    var out := Assembled(show, m, sub);
    AssembledIsMade(show, m, sub);
    AssembledIsMade(show, out, again);
    KindOfMade(out, m, sub);
    MadeDiffers(m, sub, out, again, Assembled(show, out, again));
  }

  lemma MadeDiffers(m: Fields, sub: Fields, out: Fields, again: Fields, next: Fields)
    requires Full(m, sub) && Mixed(m) && Made(out, m, sub) && Made(next, out, again) && KindOf(out) == NoType
    ensures next != out
  {
    var k := match KindOf(m)
             case ObjectType => Properties
             case ArrayType => if Items in m then Items else MinItems
             case _ => Format;
    assert Get(out, k) == Field(m, sub, k);
    assert Get(next, k) == Field(out, again, k);
  }

  /** Every nested schema of this output is kept by a second pass. */
  ghost predicate Settled(show: Show, out: Fields) {
    forall k | k in out && Nested(out, k) :: Within(show, k, out[k]) == Some(out[k])
  }

  lemma SettledInner(show: Show, out: Fields)
    requires Settled(show, out)
    ensures forall n :: Get(Inner(show, out), n) == if Nested(out, n) then Get(out, n) else None
    ensures Ref in out || Typed(out) ==> Accepts(show, out)
  {
    forall n ensures Get(Inner(show, out), n) == if Nested(out, n) then Get(out, n) else None {
      if Nested(out, n) {
        assert Within(show, n, out[n]) == Some(out[n]);
      }
    }
  }

  /** An unmixed schema's output is kept exactly if its nested outputs are. */
  lemma LevelAgain(show: Show, m: Fields)
    requires Accepts(show, m) && Ref !in m && !Mixed(m)
    ensures var out := Output(show, m);
            Transform(show, Obj(out)) == Some(Obj(out)) <==> Settled(show, out)
  {
    var sub, out := Inner(show, m), Output(show, m);
    TransformIs(show, out);
    InnerIsFull(show, m);
    KindOfOutput(show, m, sub);
    if Settled(show, out) {
      SettledIsSteady(show, m, sub, out);
    }
    if Steady(show, out) {
      SteadyIsSettled(show, out);
    }
  }

  /** The output is accepted and its own output. */
  ghost predicate Steady(show: Show, out: Fields) {
    Accepts(show, out) && Output(show, out) == out
  }

  lemma SettledIsSteady(show: Show, m: Fields, sub: Fields, out: Fields)
    requires Accepts(show, m) && Ref !in m && !Mixed(m) && sub == Inner(show, m) && out == Assembled(show, m, sub)
    requires Full(m, sub) && Settled(show, out)
    ensures Steady(show, out)
  {
    KindOfOutput(show, m, sub);
    SettledInner(show, out);
    KeptAgain(show, m, sub, Inner(show, out));
  }

  lemma SteadyIsSettled(show: Show, out: Fields)
    requires Ref !in out && OneOf !in out && Steady(show, out)
    ensures Settled(show, out)
  {
    InnerIsFull(show, out);
    forall k | k in out && Nested(out, k) ensures Within(show, k, out[k]) == Some(out[k]) {
      assert HoldsSchemas(k);
      NestedOutput(show, out, Inner(show, out), k);
    }
  }

  function TargetOf(k: Key): Key {
    if k == OneOf then AnyOf else k
  }

  /** A nested schema of m is a nested schema of the output. */
  lemma NestedTarget(show: Show, m: Fields, sub: Fields, k: Key)
    requires Ref !in m && Full(m, sub) && !Mixed(m) && Nested(m, k)
    ensures var out := Assembled(show, m, sub);
            TargetOf(k) in out && Nested(out, TargetOf(k)) && out[TargetOf(k)] == sub[k]
  {
    KindOfOutput(show, m, sub);
    AssembledIs(show, m, sub, TargetOf(k));
  }

  lemma MapFixed(show: Show, w: Value)
    requires w.Obj?
    ensures Map(show, w) == Some(w) <==> forall n | n in w.fields :: Transform(show, w.fields[n]) == Some(w.fields[n])
  {
    if Map(show, w) == Some(w) {
      forall n | n in w.fields ensures Transform(show, w.fields[n]) == Some(w.fields[n]) {
        assert Map(show, w).value.fields[n] == w.fields[n];
      }
    }
    if forall n | n in w.fields :: Transform(show, w.fields[n]) == Some(w.fields[n]) {
      assert Map(show, w).value.fields == w.fields;
    }
  }

  lemma ListFixed(show: Show, w: Value)
    requires w.Arr?
    ensures List(show, w) == Some(w)
            <==> forall i | 0 <= i < |w.items| :: Transform(show, w.items[i]) == Some(w.items[i])
  {
    if List(show, w) == Some(w) {
      forall i | 0 <= i < |w.items| ensures Transform(show, w.items[i]) == Some(w.items[i]) {
        assert List(show, w).value.items[i] == w.items[i];
      }
    }
    if forall i | 0 <= i < |w.items| :: Transform(show, w.items[i]) == Some(w.items[i]) {
      assert List(show, w).value.items == w.items;
    }
  }

  lemma {:induction false} MapAgain(show: Show, k: Key, v: Value)
    requires Map(show, v).Some? && (k == Defs || k == Properties)
    ensures Map(show, Map(show, v).value) == Map(show, v) <==> UnmixedWithin(k, v)
    decreases v, 0
  {
    var w := Map(show, v).value;
    forall n | n in v.fields ensures Transform(show, w.fields[n]) == Some(w.fields[n]) <==> Unmixed(v.fields[n]) {
      TransformAgain(show, v.fields[n]);
    }
    MapFixed(show, w);
    assert w.fields.Keys == v.fields.Keys;
  }

  lemma {:induction false} ListAgain(show: Show, k: Key, v: Value)
    requires List(show, v).Some? && (k == AnyOf || k == OneOf || k == AllOf)
    ensures List(show, List(show, v).value) == List(show, v) <==> UnmixedWithin(k, v)
    decreases v, 0
  {
    var w := List(show, v).value;
    forall i | 0 <= i < |v.items| ensures Transform(show, w.items[i]) == Some(w.items[i]) <==> Unmixed(v.items[i]) {
      TransformAgain(show, v.items[i]);
    }
    ListFixed(show, w);
  }

  lemma {:induction false} WithinAgain(show: Show, m: Fields, k: Key, v: Value)
    requires Nested(m, k) && m[k] == v && Within(show, k, v).Some?
    ensures Within(show, TargetOf(k), Within(show, k, v).value) == Within(show, k, v) <==> UnmixedWithin(k, v)
    decreases v, 2
  {
    if k == Items {
      TransformAgain(show, v);
    } else if k == Defs || k == Properties {
      MapAgain(show, k, v);
    } else {
      ListAgain(show, k, v);
    }
  }

  lemma SettledIs(show: Show, m: Fields)
    requires Accepts(show, m) && Ref !in m && !Mixed(m)
    requires forall k | k in m && Nested(m, k) ::
               Within(show, TargetOf(k), Within(show, k, m[k]).value) == Within(show, k, m[k])
               <==> UnmixedWithin(k, m[k])
    ensures Settled(show, Output(show, m)) <==> Unmixed(Obj(m))
  {
    var sub, out := Inner(show, m), Output(show, m);
    InnerIsFull(show, m);
    KindOfOutput(show, m, sub);
    if Settled(show, out) {
      forall k | k in m && Nested(m, k) ensures UnmixedWithin(k, m[k]) {
        NestedTarget(show, m, sub, k);
      }
    }
    if Unmixed(Obj(m)) {
      forall k | k in out && Nested(out, k) ensures Within(show, k, out[k]) == Some(out[k]) {
        SettledAt(show, m, k);
      }
    }
  }

  lemma SettledAt(show: Show, m: Fields, k: Key)
    requires Accepts(show, m) && Ref !in m && !Mixed(m) && Unmixed(Obj(m))
    requires forall n | n in m && Nested(m, n) ::
               Within(show, TargetOf(n), Within(show, n, m[n]).value) == Within(show, n, m[n])
               <==> UnmixedWithin(n, m[n])
    requires var out := Output(show, m); k in out && Nested(out, k)
    ensures Within(show, k, Output(show, m)[k]) == Some(Output(show, m)[k])
  {
    var sub := Inner(show, m);
    InnerIsFull(show, m);
    KindOfOutput(show, m, sub);
    assert HoldsSchemas(k);
    NestedOutput(show, m, sub, k);
    var s := SourceOf(m, k);
    if s in sub {
      assert Nested(m, s) && TargetOf(s) == k;
    } else {
      assert Map(show, Obj(map[])) == Some(Obj(map[]));
    }
  }

  /** A reference keeps nothing but its definitions, so only they matter. */
  lemma ReferenceAgain(show: Show, m: Fields)
    requires Accepts(show, m) && Ref in m
    requires Defs in m ==>
               (Within(show, Defs, Within(show, Defs, m[Defs]).value) == Within(show, Defs, m[Defs])
                <==> UnmixedWithin(Defs, m[Defs]))
    ensures var out := Obj(Output(show, m)); Transform(show, out) == Some(out) <==> Unmixed(Obj(m))
  {
    var out := Output(show, m);
    TransformIs(show, out);
    forall k | k in out && Nested(out, k) ensures k == Defs { }
    forall k | k in m && Nested(m, k) ensures k == Defs { }
    if Defs in m {
      assert Nested(m, Defs) && out[Defs] == Within(show, Defs, m[Defs]).value;
      assert Nested(out, Defs);
      if Transform(show, Obj(out)) == Some(Obj(out)) {
        assert Output(show, out)[Defs] == out[Defs];
      }
    }
    var defs := if Defs in out then out[Defs] else Obj(map[]);
    if Within(show, Defs, defs) == Some(defs) {
      SameFields(Output(show, out), out);
    }
  }

  /** Transforming again changes nothing exactly when no schema that is looked at has a
      composition next to the keywords of an object, array or string type. */
  lemma {:induction false} TransformAgain(show: Show, j: Value)
    requires Transform(show, j).Some?
    ensures Transform(show, Transform(show, j).value) == Transform(show, j) <==> Unmixed(j)
    decreases j, 1
  {
    var m := j.fields;
    TransformIs(show, m);
    forall k | k in m && Nested(m, k)
      ensures Within(show, TargetOf(k), Within(show, k, m[k]).value) == Within(show, k, m[k])
              <==> UnmixedWithin(k, m[k])
    {
      WithinAgain(show, m, k, m[k]);
    }
    if Ref in m {
      assert Defs in m ==> Nested(m, Defs);
      ReferenceAgain(show, m);
    } else if Mixed(m) {
      MixedAgain(show, m);
    } else {
      LevelAgain(show, m);
      SettledIs(show, m);
    }
  }

  lemma MixedAgain(show: Show, m: Fields)
    requires Accepts(show, m) && Mixed(m)
    ensures var out := Obj(Output(show, m)); Transform(show, out) != Some(out)
  {
    var sub, out := Inner(show, m), Output(show, m);
    InnerIsFull(show, m);
    KindOfOutput(show, m, sub);
    MixedChanges(show, m, sub, Inner(show, out));
    TransformIs(show, out);
  }
}
