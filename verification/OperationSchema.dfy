/**
 Typed operations: one function compiles a parameter annotation to a JSON Schema, another matches
 values against the annotation directly.
 */
module OperationSchema {
  import opened Outcomes

  /** A payload value. Objects keep their order: the matcher visits entries in it. */
  datatype Value =
    | Null
    | Bool(b: bool)
    | Int(i: int)
    | Float(r: real)
    | Str(s: string)
    | Arr(items: seq<Value>)
    | Obj(entries: seq<Entry>)

  datatype Entry = Entry(key: string, value: Value)

  /** The values a `Literal` may list here. */
  datatype Scalar = NullLit | BoolLit(b: bool) | IntLit(i: int) | StrLit(s: string)

  /**
   Type annotations. `ListOf` is a parametrised list, tuple or set (only the first argument is
   ever used); `Opaque` is a class none of whose instances is a JSON value, bare tuple and set
   among them; `NoneType` is the class of `None`.
   */
  datatype Annotation =
    | AnyType
    | StrType
    | IntType
    | FloatType
    | BoolType
    | NoneType
    | BareDict
    | BareList
    | Opaque
    | ListOf(item: Option<Annotation>)
    | DictOf(key: Annotation, value: Annotation)
    | Union(members: seq<Annotation>)
    | Literal(values: seq<Scalar>)

  datatype TypeName = StringName | IntegerName | NumberName | BooleanName | ArrayName | ObjectName | NullName

  /** A JSON Schema as its keywords, each present or not; the empty schema has none. */
  datatype Schema = Schema(
    typeName: Option<TypeName>,
    items: Option<Schema>,
    additionalProperties: Option<Schema>,
    anyOf: Branches,
    enumValues: Option<seq<Scalar>>)

  datatype Branches = NoBranches | Branches(schemas: seq<Schema>)

  const EMPTY: Schema := Schema(None, None, None, NoBranches, None)

  function Typed(name: TypeName): Schema
  {
    EMPTY.(typeName := Some(name))
  }

  /** `_optional_inner`: the other member of a union of `None` with exactly one more. */
  function OptionalInner(a: Annotation): Option<Annotation>
    ensures OptionalInner(a).Some? ==> OptionalInner(a).value < a
  {
    if a.Union? && NoneType in a.members then
      var rest := NonNone(a.members);
      if |rest| == 1 then
        NonNoneMember(a.members, rest[0]);
        Some(rest[0])
      else None
    else None
  }

  function NonNone(members: seq<Annotation>): seq<Annotation>
  {
    if members == [] then [] else (if members[0] == NoneType then [] else [members[0]]) + NonNone(members[1..])
  }

  lemma {:induction false} NonNoneMember(members: seq<Annotation>, a: Annotation)
    requires a in NonNone(members)
    ensures a in members && a != NoneType
  {
    if members[0] == NoneType || a != members[0] {
      NonNoneMember(members[1..], a);
    }
  }

  /** `_annotation_to_schema` */
  function ToSchema(a: Annotation): Schema
    decreases a
  {
    var inner := OptionalInner(a);
    if a.AnyType? then EMPTY
    else if inner.Some? then
      var s := ToSchema(inner.value);
      if s == EMPTY then EMPTY else EMPTY.(anyOf := Branches([s, Typed(NullName)]))
    else
      match a
      case ListOf(item) => Typed(ArrayName).(items := Some(if item.Some? then ToSchema(item.value) else EMPTY))
      case DictOf(_, value) =>
        var s := ToSchema(value);
        if s == EMPTY then Typed(ObjectName) else Typed(ObjectName).(additionalProperties := Some(s))
      case Union(members) => EMPTY.(anyOf := Branches(seq(|members|, i requires 0 <= i < |members| => ToSchema(members[i]))))
      case Literal(values) => EMPTY.(enumValues := Some(values))
      case StrType => Typed(StringName)
      case IntType => Typed(IntegerName)
      case FloatType => Typed(NumberName)
      case BoolType => Typed(BooleanName)
      case _ => Typed(ObjectName)
  }

  predicate Integral(r: real)
  {
    r == r.Floor as real
  }

  /** The `type` keyword (section 6.1.1 of JSON Schema Validation 2020-12): integers are numbers without fractional part. */
  predicate HasType(v: Value, name: TypeName)
  {
    match name
    case StringName => v.Str?
    case IntegerName => v.Int? || (v.Float? && Integral(v.r))
    case NumberName => v.Int? || v.Float?
    case BooleanName => v.Bool?
    case ArrayName => v.Arr?
    case ObjectName => v.Obj?
    case NullName => v.Null?
  }

  /** Equality of the `enum` keyword (section 6.1.2): numbers by value, booleans apart from numbers. */
  predicate EnumEqual(x: Scalar, v: Value)
  {
    match x
    case NullLit => v.Null?
    case BoolLit(b) => v == Bool(b)
    case IntLit(i) => v == Int(i) || v == Float(i as real)
    case StrLit(s) => v == Str(s)
  }

  /** Validation: every keyword present must accept; `items` and `additionalProperties` speak of arrays and objects only. */
  ghost predicate Accepts(s: Schema, v: Value)
    decreases s
  {
    && (s.typeName.Some? ==> HasType(v, s.typeName.value))
    && (s.items.Some? && v.Arr? ==> forall i | 0 <= i < |v.items| :: Accepts(s.items.value, v.items[i]))
    && (s.additionalProperties.Some? && v.Obj? ==>
          forall i | 0 <= i < |v.entries| :: Accepts(s.additionalProperties.value, v.entries[i].value))
    && (s.anyOf.Branches? ==> exists i :: 0 <= i < |s.anyOf.schemas| && Accepts(s.anyOf.schemas[i], v))
    && (s.enumValues.Some? ==> exists x :: x in s.enumValues.value && EnumEqual(x, v))
  }

  /** A match can also raise: a list or dict cannot be looked up in the set of literals. */
  datatype Verdict = Yes | No | Crash

  /** Python equality: `True == 1`, `False == 0`, and numbers by value. */
  predicate PyEqual(x: Scalar, v: Value)
  {
    match x
    case NullLit => v.Null?
    case StrLit(s) => v == Str(s)
    case BoolLit(b) => v == Bool(b) || v == Int(if b then 1 else 0) || v == Float(if b then 1.0 else 0.0)
    case IntLit(i) => v == Int(i) || v == Float(i as real) || (i == 1 && v == Bool(true)) || (i == 0 && v == Bool(false))
  }

  predicate Listed(values: seq<Scalar>, v: Value)
  {
    exists x :: x in values && PyEqual(x, v)
  }

  /** `_matches_annotation` */
  function Matches(v: Value, a: Annotation): Verdict
    decreases a, 2, 0
  {
    var inner := OptionalInner(a);
    if a.AnyType? then Yes
    else if inner.Some? then (if v.Null? then Yes else Matches(v, inner.value))
    else
      match a
      case Union(members) => MatchesAny(v, members)
      case Literal(values) => if v.Arr? || v.Obj? then Crash else if Listed(values, v) then Yes else No
      case ListOf(item) => if !v.Arr? then No else if item.None? then Yes else AllItems(v.items, item.value)
      case DictOf(_, _) => if !v.Obj? then No else AllEntries(v.entries, a)
      case BoolType => if v.Bool? then Yes else No
      case IntType => if v.Int? then Yes else No
      case FloatType => if v.Float? || v.Int? then Yes else No
      case StrType => if v.Str? then Yes else No
      case BareDict => if v.Obj? then Yes else No
      case BareList => if v.Arr? then Yes else No
      case NoneType => if v.Null? then Yes else No
      case Opaque => No
  }

  /** `any(...)`, left to right. */
  function MatchesAny(v: Value, members: seq<Annotation>): Verdict
    decreases members, 2, 0
  {
    if members == [] then No else
      var first := Matches(v, members[0]);
      if first.No? then MatchesAny(v, members[1..]) else first
  }

  /** `all(...)` over list items. */
  function AllItems(items: seq<Value>, a: Annotation): Verdict
    decreases a, 3, |items|
  {
    if items == [] then Yes else
      var first := Matches(items[0], a);
      if first.Yes? then AllItems(items[1..], a) else first
  }

  /** `all(...)` over the entries of a dict, key before value. */
  function AllEntries(entries: seq<Entry>, dict: Annotation): Verdict
    requires dict.DictOf?
    decreases dict, 1, |entries|
  {
    if entries == [] then Yes else
      var k := Matches(Str(entries[0].key), dict.key);
      if !k.Yes? then k else
        var v := Matches(entries[0].value, dict.value);
        if v.Yes? then AllEntries(entries[1..], dict) else v
  }

  /** No number inside the value is a float with an integral value. */
  predicate Normal(v: Value)
  {
    match v
    case Float(r) => !Integral(r)
    case Arr(items) => forall i | 0 <= i < |items| :: Normal(items[i])
    case Obj(entries) => forall i | 0 <= i < |entries| :: Normal(entries[i].value)
    case _ => true
  }

  /** A literal list names both of `1` and `True`, and both of `0` and `False`, or neither. */
  predicate Unambiguous(values: seq<Scalar>)
  {
    && (IntLit(1) in values <==> BoolLit(true) in values)
    && (IntLit(0) in values <==> BoolLit(false) in values)
  }

  /** Some string matches, so that a dict key annotation lets the value be looked at. */
  predicate TakesSomeString(a: Annotation)
  {
    match a
    case Literal(values) => exists x :: x in values && x.StrLit?
    case Union(members) => exists i :: 0 <= i < |members| && TakesSomeString(members[i])
    case _ => a.AnyType? || a.StrType?
  }

  /** No value makes the matcher raise (for unions of several members: a sufficient condition). */
  predicate CrashFree(a: Annotation)
  {
    match a
    case Literal(_) => false
    case ListOf(item) => item.Some? ==> CrashFree(item.value)
    case DictOf(key, value) => TakesSomeString(key) ==> CrashFree(value)
    case Union(members) => forall i | 0 <= i < |members| :: CrashFree(members[i])
    case _ => true
  }

  /** Every string matches: what a dict key annotation has to do, since a schema says nothing about keys. */
  predicate TakesAnyString(a: Annotation)
  {
    a.AnyType? || a.StrType? || (a.Union? && exists i :: 0 <= i < |a.members| && TakesAnyString(a.members[i]))
  }

  /** The annotations on which compiler and matcher agree (for unions of several members: a sufficient condition). */
  predicate Faithful(a: Annotation)
  {
    var inner := OptionalInner(a);
    if inner.Some? then Faithful(inner.value)
    else
      match a
      case BareList => false
      case Opaque => false
      case NoneType => false
      case Literal(values) => Unambiguous(values)
      case ListOf(item) => item.Some? ==> Faithful(item.value)
      case DictOf(key, value) => TakesAnyString(key) && Faithful(value)
      case Union(members) =>
        && (forall i | 0 <= i < |members| :: Faithful(members[i]))
        && (forall i | 0 <= i < |members| - 1 :: CrashFree(members[i]))
      case _ => true
  }

  /** Compiler and matcher agree on one value. */
  ghost predicate AgreeOn(a: Annotation, v: Value)
  {
    Accepts(ToSchema(a), v) <==> Matches(v, a).Yes?
  }

  lemma {:induction false} StringsNeverCrash(s: string, a: Annotation)
    ensures !Matches(Str(s), a).Crash?
    decreases a, 2
  {
    var inner := OptionalInner(a);
    if inner.Some? {
      StringsNeverCrash(s, inner.value);
    } else if a.Union? {
      StringsNeverCrashAny(s, a.members);
    }
  }

  lemma {:induction false} StringsNeverCrashAny(s: string, members: seq<Annotation>)
    ensures !MatchesAny(Str(s), members).Crash?
    decreases members, 2
  {
    if members != [] {
      StringsNeverCrash(s, members[0]);
      StringsNeverCrashAny(s, members[1..]);
    }
  }

  lemma {:induction false} AnyMember(v: Value, members: seq<Annotation>)
    requires forall i | 0 <= i < |members| - 1 :: !Matches(v, members[i]).Crash?
    ensures MatchesAny(v, members).Yes? <==> exists i :: 0 <= i < |members| && Matches(v, members[i]).Yes?
  {
    if members != [] {
      AnyMember(v, members[1..]);
      assert forall i | 1 <= i < |members| :: members[i] == members[1..][i - 1];
      if exists i :: 0 <= i < |members| && Matches(v, members[i]).Yes? {
        var i :| 0 <= i < |members| && Matches(v, members[i]).Yes?;
        if i > 0 { assert Matches(v, members[1..][i - 1]).Yes?; }
      }
    }
  }

  lemma {:induction false} AllItemsYes(items: seq<Value>, a: Annotation)
    ensures AllItems(items, a).Yes? <==> forall i | 0 <= i < |items| :: Matches(items[i], a).Yes?
  {
    if items != [] {
      AllItemsYes(items[1..], a);
      assert forall i | 1 <= i < |items| :: items[i] == items[1..][i - 1];
    }
  }

  lemma {:induction false} AllEntriesYes(entries: seq<Entry>, dict: Annotation)
    requires dict.DictOf?
    ensures AllEntries(entries, dict).Yes? <==>
            forall i | 0 <= i < |entries| :: Matches(Str(entries[i].key), dict.key).Yes? && Matches(entries[i].value, dict.value).Yes?
  {
    if entries != [] {
      AllEntriesYes(entries[1..], dict);
      assert forall i | 1 <= i < |entries| :: entries[i] == entries[1..][i - 1];
    }
  }
}
