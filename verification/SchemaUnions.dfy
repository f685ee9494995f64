/**
 Unions whose members are told apart by the JSON kind of a value, or take scalars only. For them,
 nested to any depth, the condition under which compiler and matcher define one language is exact.
 */
module SchemaUnions {
  import opened OperationSchema
  import opened SchemaAgreement

  datatype Kind = NullKind | BoolKind | NumberKind | StringKind | ArrayKind | ObjectKind

  const ALL_KINDS: set<Kind> := {NullKind, BoolKind, NumberKind, StringKind, ArrayKind, ObjectKind}

  const CONTAINERS: set<Kind> := {ArrayKind, ObjectKind}

  function KindOf(v: Value): Kind
  {
    match v
    case Null => NullKind
    case Bool(_) => BoolKind
    case Int(_) => NumberKind
    case Float(_) => NumberKind
    case Str(_) => StringKind
    case Arr(_) => ArrayKind
    case Obj(_) => ObjectKind
  }

  function ScalarKinds(x: Scalar): set<Kind>
  {
    match x
    case NullLit => {NullKind}
    case StrLit(_) => {StringKind}
    case _ => {BoolKind, NumberKind}
  }

  /** The kinds of values that compiler or matcher may take. */
  function Kinds(a: Annotation): set<Kind>
    decreases a
  {
    var inner := OptionalInner(a);
    if a.AnyType? then ALL_KINDS
    else if inner.Some? then Kinds(inner.value) + {NullKind}
    else
      match a
      case Literal(values) => set x, k | x in values && k in ScalarKinds(x) :: k
      case ListOf(_) => {ArrayKind}
      case Union(members) => set i, k | 0 <= i < |members| && k in Kinds(members[i]) :: k
      case StrType => {StringKind}
      case IntType => {NumberKind}
      case FloatType => {NumberKind}
      case BoolType => {BoolKind}
      case NoneType => {NullKind, ObjectKind}
      case BareList => {ArrayKind, ObjectKind}
      case _ => {ObjectKind}
  }

  lemma {:induction false} EmptySchemaTakesAll(a: Annotation)
    requires ToSchema(a) == EMPTY
    ensures Kinds(a) == ALL_KINDS
    decreases a
  {
    if OptionalInner(a).Some? {
      EmptySchemaTakesAll(OptionalInner(a).value);
    }
  }

  lemma StrangerSchemaIsNotEmpty(v: Value, a: Annotation)
    requires KindOf(v) !in Kinds(a)
    ensures ToSchema(a) != EMPTY
  {
    if ToSchema(a) == EMPTY {
      EmptySchemaTakesAll(a);
    }
  }

  lemma OptionalRefusesStranger(v: Value, a: Annotation)
    requires OptionalInner(a).Some? && !v.Null? && ToSchema(OptionalInner(a).value) != EMPTY
    requires !Accepts(ToSchema(OptionalInner(a).value), v) && !Matches(v, OptionalInner(a).value).Yes?
    ensures !Accepts(ToSchema(a), v) && !Matches(v, a).Yes?
  {
    var branches := ToSchema(a).anyOf.schemas;
    assert branches == [ToSchema(OptionalInner(a).value), Typed(NullName)];
    assert !Accepts(branches[1], v);
  }

  lemma LiteralRefusesStranger(v: Value, values: seq<Scalar>)
    requires KindOf(v) !in Kinds(Literal(values))
    ensures !Accepts(ToSchema(Literal(values)), v) && !Matches(v, Literal(values)).Yes?
  {
    forall x | x in values
      ensures !EnumEqual(x, v) && !PyEqual(x, v)
    {
      assert forall k | k in ScalarKinds(x) :: k in Kinds(Literal(values));
    }
  }

  lemma UnionRefusesStranger(v: Value, a: Annotation)
    requires a.Union? && OptionalInner(a).None?
    requires forall i | 0 <= i < |a.members| :: !Accepts(ToSchema(a.members[i]), v) && !Matches(v, a.members[i]).Yes?
    ensures !Accepts(ToSchema(a), v) && !Matches(v, a).Yes?
  {
    NoneMatches(v, a.members);
  }

  /** A value of no such kind is a stranger: neither takes it. */
  lemma {:induction false} StrangerIsRefused(v: Value, a: Annotation)
    requires KindOf(v) !in Kinds(a)
    ensures !Accepts(ToSchema(a), v) && !Matches(v, a).Yes?
    decreases a
  {
    var inner := OptionalInner(a);
    if inner.Some? {
      StrangerIsRefused(v, inner.value);
      StrangerSchemaIsNotEmpty(v, inner.value);
      OptionalRefusesStranger(v, a);
    } else if a.Union? {
      forall i | 0 <= i < |a.members|
        ensures !Accepts(ToSchema(a.members[i]), v) && !Matches(v, a.members[i]).Yes?
      {
        StrangerIsRefused(v, a.members[i]);
      }
      UnionRefusesStranger(v, a);
    } else if a.Literal? {
      LiteralRefusesStranger(v, a.values);
    } else {
      PlainRefusesStranger(v, a);
    }
  }

  lemma PlainRefusesStranger(v: Value, a: Annotation)
    requires KindOf(v) !in Kinds(a) && !a.Union? && !a.Literal?
    ensures !Accepts(ToSchema(a), v) && !Matches(v, a).Yes?
  {
  }

  lemma {:induction false} NoneMatches(v: Value, members: seq<Annotation>)
    requires forall i | 0 <= i < |members| :: !Matches(v, members[i]).Yes?
    ensures !MatchesAny(v, members).Yes?
    ensures MatchesAny(v, members).Crash? <==> exists i :: 0 <= i < |members| && Matches(v, members[i]).Crash?
  {
    if members != [] {
      NoneMatches(v, members[1..]);
      assert forall i | 1 <= i < |members| :: members[i] == members[1..][i - 1];
    }
  }

  /** The types that take scalars only. */
  predicate Flat(a: Annotation)
  {
    a.StrType? || a.IntType? || a.FloatType? || a.BoolType? || a.Literal?
  }

  /**
   The members of proper unions take values of different kinds, except that flat ones may overlap;
   literals are not empty, and dict keys have no proper unions.
   */
  predicate Apart(a: Annotation)
  {
    var inner := OptionalInner(a);
    if inner.Some? then Apart(inner.value)
    else
      match a
      case Literal(values) => values != []
      case ListOf(item) => item.Some? ==> Apart(item.value)
      case DictOf(key, value) => Plain(key) && Apart(value)
      case Union(members) =>
        && members != []
        && (forall i | 0 <= i < |members| :: Apart(members[i]))
        && (forall i, j | 0 <= i < j < |members| ::
              (Flat(members[i]) && Flat(members[j])) || Kinds(members[i]) !! Kinds(members[j]))
      case _ => true
  }

  /** A literal is looked up in whatever container gets here. */
  predicate LiteralInside(a: Annotation)
  {
    var inner := OptionalInner(a);
    if inner.Some? then LiteralInside(inner.value)
    else a.Literal? || (a.Union? && exists i :: 0 <= i < |a.members| && LiteralInside(a.members[i]))
  }

  /** No member that takes containers comes behind a literal. */
  predicate InOrder(members: seq<Annotation>)
  {
    forall i, j | 0 <= i < j < |members| && LiteralInside(members[i]) :: Kinds(members[j]) !! CONTAINERS
  }

  /** Some literal of the union lists the scalar. */
  predicate Lists(members: seq<Annotation>, x: Scalar)
  {
    exists i :: 0 <= i < |members| && members[i].Literal? && x in members[i].values
  }

  /** No listed scalar lets in, for the matcher alone, the boolean or number that Python takes for equal to it. */
  predicate Unconfused(members: seq<Annotation>)
  {
    && (Lists(members, IntLit(1)) ==> BoolType in members || Lists(members, BoolLit(true)))
    && (Lists(members, IntLit(0)) ==> BoolType in members || Lists(members, BoolLit(false)))
    && (Lists(members, BoolLit(true)) ==> IntType in members || FloatType in members || Lists(members, IntLit(1)))
    && (Lists(members, BoolLit(false)) ==> IntType in members || FloatType in members || Lists(members, IntLit(0)))
  }

  /** The exact condition for annotations whose unions are apart. */
  predicate Exact(a: Annotation)
  {
    var inner := OptionalInner(a);
    if inner.Some? then Exact(inner.value)
    else
      match a
      case BareList => false
      case Opaque => false
      case NoneType => false
      case Literal(values) => Unambiguous(values)
      case ListOf(item) => item.Some? ==> Exact(item.value)
      case DictOf(key, value) => TakesAnyString(key) && Exact(value)
      case Union(members) =>
        && (forall i | 0 <= i < |members| :: Flat(members[i]) || Exact(members[i]))
        && Unconfused(members) && InOrder(members)
      case _ => true
  }

  /** On a stranger the matcher raises exactly for containers that reach a literal. */
  lemma {:induction false} StrangerCrashes(v: Value, a: Annotation)
    requires KindOf(v) !in Kinds(a)
    ensures Matches(v, a).Crash? <==> LiteralInside(a) && KindOf(v) in CONTAINERS
    decreases a
  {
    StrangerIsRefused(v, a);
    var inner := OptionalInner(a);
    if inner.Some? {
      StrangerCrashes(v, inner.value);
    } else if a.Union? {
      forall i | 0 <= i < |a.members|
        ensures Matches(v, a.members[i]).Crash? <==> LiteralInside(a.members[i]) && KindOf(v) in CONTAINERS
        ensures !Matches(v, a.members[i]).Yes?
      {
        StrangerIsRefused(v, a.members[i]);
        StrangerCrashes(v, a.members[i]);
      }
      NoneMatches(v, a.members);
    }
  }

  lemma {:induction false} DecidedAt(v: Value, members: seq<Annotation>, i: nat)
    requires i < |members|
    requires forall j | 0 <= j < |members| && j != i :: !Matches(v, members[j]).Yes?
    ensures (forall j | 0 <= j < i :: !Matches(v, members[j]).Crash?) ==>
              (MatchesAny(v, members).Yes? <==> Matches(v, members[i]).Yes?)
    ensures (exists j :: 0 <= j < i && Matches(v, members[j]).Crash?) ==> MatchesAny(v, members).Crash?
    decreases i
  {
    var rest := members[1..];
    assert forall j | 1 <= j < |members| :: members[j] == rest[j - 1];
    if i == 0 {
      NoneMatches(v, rest);
    } else {
      DecidedAt(v, rest, i - 1);
    }
  }

  /** To a value of the kind of a member that is not flat, every other member is a stranger. */
  lemma OthersAreStrangers(a: Annotation, v: Value, i: nat, j: nat)
    requires a.Union? && OptionalInner(a).None? && Apart(a) && i < |a.members| && j < |a.members| && i != j
    requires KindOf(v) in Kinds(a.members[i]) && !Flat(a.members[i])
    ensures KindOf(v) !in Kinds(a.members[j])
  {
    assert Kinds(a.members[if i < j then i else j]) !! Kinds(a.members[if i < j then j else i]);
  }

  /** That member alone answers for the value. */
  lemma OneMemberAnswers(a: Annotation, v: Value, i: nat)
    requires a.Union? && OptionalInner(a).None? && Apart(a)
    requires i < |a.members| && KindOf(v) in Kinds(a.members[i]) && !Flat(a.members[i])
    ensures Accepts(ToSchema(a), v) <==> Accepts(ToSchema(a.members[i]), v)
    ensures InOrder(a.members) ==> (Matches(v, a).Yes? <==> Matches(v, a.members[i]).Yes?)
    ensures (exists j :: 0 <= j < i && LiteralInside(a.members[j])) && KindOf(v) in CONTAINERS ==> Matches(v, a).Crash?
  {
    forall j | 0 <= j < |a.members| && j != i
      ensures !Accepts(ToSchema(a.members[j]), v) && !Matches(v, a.members[j]).Yes?
      ensures Matches(v, a.members[j]).Crash? <==> LiteralInside(a.members[j]) && KindOf(v) in CONTAINERS
    {
      OthersAreStrangers(a, v, i, j);
      StrangerIsRefused(v, a.members[j]);
      StrangerCrashes(v, a.members[j]);
    }
    SchemaOfMembers(a, v);
    DecidedAt(v, a.members, i);
    assert Matches(v, a) == MatchesAny(v, a.members);
  }

  lemma SchemaOfMembers(a: Annotation, v: Value)
    requires a.Union? && OptionalInner(a).None?
    ensures Accepts(ToSchema(a), v) <==> exists i :: 0 <= i < |a.members| && Accepts(ToSchema(a.members[i]), v)
  {
    var branches := ToSchema(a).anyOf.schemas;
    assert |branches| == |a.members|;
    if i: int :| 0 <= i < |a.members| && Accepts(ToSchema(a.members[i]), v) {
      assert Accepts(branches[i], v);
    }
  }

  lemma UnionOfStrangers(a: Annotation, v: Value)
    requires a.Union? && OptionalInner(a).None? && KindOf(v) !in Kinds(a)
    ensures AgreeOn(a, v)
  {
    StrangerIsRefused(v, a);
  }

  // -------- flat members --------

  ghost predicate FlatAccepts(members: seq<Annotation>, v: Value)
  {
    exists i :: 0 <= i < |members| && Flat(members[i]) && Accepts(ToSchema(members[i]), v)
  }

  ghost predicate FlatMatches(members: seq<Annotation>, v: Value)
  {
    exists i :: 0 <= i < |members| && Flat(members[i]) && Matches(v, members[i]).Yes?
  }

  /** A type of the union, not a literal, takes the scalar; compiler and matcher do not differ here. */
  predicate TypeTakes(members: seq<Annotation>, v: Value)
  {
    || (StrType in members && v.Str?) || (BoolType in members && v.Bool?)
    || (IntType in members && v.Int?) || (FloatType in members && (v.Int? || v.Float?))
  }

  lemma FlatTypeTakes(a: Annotation, v: Value)
    requires Flat(a) && !a.Literal? && Normal(v)
    ensures Accepts(ToSchema(a), v) <==> TypeTakes([a], v)
    ensures Matches(v, a).Yes? <==> TypeTakes([a], v)
  {
  }

  lemma LiteralTakes(values: seq<Scalar>, v: Value)
    requires KindOf(v) !in CONTAINERS
    ensures Accepts(ToSchema(Literal(values)), v) <==> exists x :: x in values && EnumEqual(x, v)
    ensures Matches(v, Literal(values)).Yes? <==> exists x :: x in values && PyEqual(x, v)
  {
  }

  lemma FlatAcceptsIs(members: seq<Annotation>, v: Value)
    requires Normal(v) && KindOf(v) !in CONTAINERS
    ensures FlatAccepts(members, v) <==> TypeTakes(members, v) || exists x :: Lists(members, x) && EnumEqual(x, v)
  {
    if i :| 0 <= i < |members| && Flat(members[i]) && Accepts(ToSchema(members[i]), v) {
      if members[i].Literal? {
        LiteralTakes(members[i].values, v);
        var x :| x in members[i].values && EnumEqual(x, v);
        assert Lists(members, x);
      } else {
        FlatTypeTakes(members[i], v);
      }
    }
    if TypeTakes(members, v) {
      var a :| a in members && Flat(a) && !a.Literal? && TypeTakes([a], v);
      FlatTypeTakes(a, v);
    }
    if x :| Lists(members, x) && EnumEqual(x, v) {
      var i :| 0 <= i < |members| && members[i].Literal? && x in members[i].values;
      LiteralTakes(members[i].values, v);
    }
  }

  lemma FlatMatchesIs(members: seq<Annotation>, v: Value)
    requires Normal(v) && KindOf(v) !in CONTAINERS
    ensures FlatMatches(members, v) <==> TypeTakes(members, v) || exists x :: Lists(members, x) && PyEqual(x, v)
  {
    if i :| 0 <= i < |members| && Flat(members[i]) && Matches(v, members[i]).Yes? {
      if members[i].Literal? {
        LiteralTakes(members[i].values, v);
        var x :| x in members[i].values && PyEqual(x, v);
        assert Lists(members, x);
      } else {
        FlatTypeTakes(members[i], v);
      }
    }
    if TypeTakes(members, v) {
      var a :| a in members && Flat(a) && !a.Literal? && TypeTakes([a], v);
      FlatTypeTakes(a, v);
    }
    if x :| Lists(members, x) && PyEqual(x, v) {
      var i :| 0 <= i < |members| && members[i].Literal? && x in members[i].values;
      LiteralTakes(members[i].values, v);
    }
  }

  /** What a list of scalars lets in: `enum` takes the scalar itself, Python also the boolean or number equal to it. */
  lemma ListedValues(members: seq<Annotation>, v: Value)
    requires Normal(v) && KindOf(v) !in CONTAINERS
    ensures (exists x :: Lists(members, x) && EnumEqual(x, v)) <==> !v.Float? && Lists(members, AsScalar(v))
    ensures (exists x :: Lists(members, x) && PyEqual(x, v)) <==>
              !v.Float? && (Lists(members, AsScalar(v)) || (HasTwin(v) && Lists(members, Twin(v))))
  {
    if !v.Float? {
      assert EnumEqual(AsScalar(v), v) && PyEqual(AsScalar(v), v);
      assert HasTwin(v) ==> PyEqual(Twin(v), v);
    }
  }

  function AsScalar(v: Value): Scalar
    requires KindOf(v) !in CONTAINERS && !v.Float?
  {
    match v
    case Null => NullLit
    case Bool(b) => BoolLit(b)
    case Int(i) => IntLit(i)
    case Str(s) => StrLit(s)
  }

  predicate HasTwin(v: Value)
  {
    v.Bool? || v == Int(0) || v == Int(1)
  }

  /** The scalar of the other type that Python takes for equal. */
  function Twin(v: Value): Scalar
    requires HasTwin(v)
  {
    if v.Bool? then IntLit(if v.b then 1 else 0) else BoolLit(v == Int(1))
  }

  /** The value is let in by its twin only. */
  predicate Confused(members: seq<Annotation>, v: Value)
  {
    HasTwin(v) && Lists(members, Twin(v)) && !TypeTakes(members, v) && !Lists(members, AsScalar(v))
  }

  /** On scalars the flat members agree at every value if and only if they are unconfused; they part at one of four values. */
  lemma FlatAgreeIffUnconfused(members: seq<Annotation>, v: Value)
    requires Normal(v) && KindOf(v) !in CONTAINERS
    ensures Unconfused(members) ==> (FlatAccepts(members, v) <==> FlatMatches(members, v))
    ensures (FlatAccepts(members, v) <==> FlatMatches(members, v)) <==> !Confused(members, v)
  {
    FlatAcceptsIs(members, v);
    FlatMatchesIs(members, v);
    ListedValues(members, v);
  }

  lemma ConfusedValue(members: seq<Annotation>)
    requires !Unconfused(members)
    ensures exists v :: Confused(members, v)
  {
    var v;
    if Lists(members, IntLit(1)) && BoolType !in members && !Lists(members, BoolLit(true)) {
      v := Bool(true);
    } else if Lists(members, IntLit(0)) && BoolType !in members && !Lists(members, BoolLit(false)) {
      v := Bool(false);
    } else if Lists(members, BoolLit(true)) && !Lists(members, IntLit(1)) {
      v := Int(1);
    } else {
      v := Int(0);
    }
    assert Confused(members, v);
  }

  /** A scalar that no other member takes is answered by the flat ones, and nothing raises. */
  lemma FlatMembersAnswer(a: Annotation, v: Value)
    requires a.Union? && OptionalInner(a).None? && KindOf(v) !in CONTAINERS
    requires forall i | 0 <= i < |a.members| && !Flat(a.members[i]) :: KindOf(v) !in Kinds(a.members[i])
    ensures Accepts(ToSchema(a), v) <==> FlatAccepts(a.members, v)
    ensures Matches(v, a).Yes? <==> FlatMatches(a.members, v)
  {
    forall i | 0 <= i < |a.members|
      ensures !Matches(v, a.members[i]).Crash?
      ensures !Flat(a.members[i]) ==> !Accepts(ToSchema(a.members[i]), v) && !Matches(v, a.members[i]).Yes?
    {
      if !Flat(a.members[i]) {
        StrangerIsRefused(v, a.members[i]);
        StrangerCrashes(v, a.members[i]);
      }
    }
    SchemaOfMembers(a, v);
    AnyMember(v, a.members);
    assert Matches(v, a) == MatchesAny(v, a.members);
  }

  lemma FlatTakesScalars(a: Annotation)
    requires Flat(a)
    ensures Kinds(a) !! CONTAINERS
  {
  }

  /** An exact union of which all members that are not flat agree on the value. */
  lemma UnionAgreesApart(a: Annotation, v: Value)
    requires a.Union? && OptionalInner(a).None? && Apart(a) && Exact(a) && Normal(v)
    requires forall i | 0 <= i < |a.members| && !Flat(a.members[i]) :: AgreeOn(a.members[i], v)
    ensures AgreeOn(a, v)
  {
    if i :| 0 <= i < |a.members| && !Flat(a.members[i]) && KindOf(v) in Kinds(a.members[i]) {
      OneMemberAnswers(a, v, i);
    } else if KindOf(v) in CONTAINERS {
      forall i | 0 <= i < |a.members|
        ensures KindOf(v) !in Kinds(a.members[i])
      {
        if Flat(a.members[i]) { FlatTakesScalars(a.members[i]); }
      }
      UnionOfStrangers(a, v);
    } else {
      FlatMembersAnswer(a, v);
      FlatAgreeIffUnconfused(a.members, v);
    }
  }

  lemma {:induction false} ExactAgrees(a: Annotation, v: Value)
    requires Apart(a) && Exact(a) && Normal(v)
    ensures AgreeOn(a, v)
    decreases a
  {
    var inner := OptionalInner(a);
    if inner.Some? {
      ExactAgrees(inner.value, v);
      OptionalAgrees(a, v);
    } else {
      match a
      case Literal(values) => LiteralAgrees(values, v);
      case ListOf(item) =>
        if item.Some? {
          if v.Arr? {
            forall i | 0 <= i < |v.items|
              ensures AgreeOn(item.value, v.items[i])
            {
              ExactAgrees(item.value, v.items[i]);
            }
          }
          ListAgrees(item.value, v);
        }
      case DictOf(key, value) =>
        if v.Obj? {
          forall i | 0 <= i < |v.entries|
            ensures AgreeOn(value, v.entries[i].value)
          {
            ExactAgrees(value, v.entries[i].value);
          }
        }
        DictAgrees(a, v);
      case Union(members) =>
        forall i | 0 <= i < |members| && !Flat(members[i])
          ensures AgreeOn(members[i], v)
        {
          ExactAgrees(members[i], v);
        }
        UnionAgreesApart(a, v);
      case _ =>
    }
  }

  /** A value the schema of an annotation whose unions are apart accepts. */
  lemma {:induction false} SampleExists(a: Annotation)
    requires Apart(a)
    ensures exists v :: Normal(v) && Accepts(ToSchema(a), v)
    decreases a
  {
    var v := Obj([]);
    var inner := OptionalInner(a);
    if inner.Some? {
      v := Null;
      if ToSchema(inner.value) != EMPTY {
        assert Accepts(ToSchema(a).anyOf.schemas[1], Null);
      }
    } else {
      match a
      case Literal(values) =>
        v := ScalarValue(values[0]);
        assert values[0] in values && EnumEqual(values[0], v);
      case Union(members) =>
        SampleExists(members[0]);
        v :| Normal(v) && Accepts(ToSchema(members[0]), v);
        assert Accepts(ToSchema(a).anyOf.schemas[0], v);
      case ListOf(_) => v := Arr([]);
      case StrType => v := Str("");
      case IntType => v := Int(0);
      case FloatType => v := Int(0);
      case BoolType => v := Bool(true);
      case _ =>
    }
    assert Normal(v) && Accepts(ToSchema(a), v);
  }

  const EMPTY_CONTAINERS := [Arr([]), Obj([])]

  /** An annotation that takes containers has a schema that accepts an empty one. */
  lemma {:induction false} EmptyContainerIsTaken(a: Annotation)
    requires !(Kinds(a) !! CONTAINERS)
    ensures exists v :: v in EMPTY_CONTAINERS && KindOf(v) in Kinds(a) && Accepts(ToSchema(a), v)
    decreases a
  {
    var v := Obj([]);
    var inner := OptionalInner(a);
    if inner.Some? {
      EmptyContainerIsTaken(inner.value);
      v :| v in EMPTY_CONTAINERS && KindOf(v) in Kinds(inner.value) && Accepts(ToSchema(inner.value), v);
      if ToSchema(inner.value) != EMPTY {
        assert Accepts(ToSchema(a).anyOf.schemas[0], v);
      }
    } else if a.Union? {
      var k :| k in Kinds(a) && k in CONTAINERS;
      var i :| 0 <= i < |a.members| && k in Kinds(a.members[i]);
      EmptyContainerIsTaken(a.members[i]);
      v :| v in EMPTY_CONTAINERS && KindOf(v) in Kinds(a.members[i]) && Accepts(ToSchema(a.members[i]), v);
      assert Accepts(ToSchema(a).anyOf.schemas[i], v);
    } else if a.ListOf? {
      v := Arr([]);
    }
    assert v in EMPTY_CONTAINERS && KindOf(v) in Kinds(a) && Accepts(ToSchema(a), v);
  }

  lemma ForeignKeyParts(dict: Annotation)
    requires dict.DictOf? && Apart(dict) && !TakesAnyString(dict.key)
    ensures exists v :: Parts(dict, v)
  {
    var key := ALongString(LongerThanLiterals(dict.key));
    SampleExists(dict.value);
    var w :| Normal(w) && Accepts(ToSchema(dict.value), w);
    var v := Obj([Entry(key, w)]);
    LongStringRefused(key, dict.key);
    AllEntriesYes(v.entries, dict);
    assert Accepts(ToSchema(dict), v);
    assert Parts(dict, v);
  }

  lemma UnorderedAt(a: Annotation, v: Value, i: nat, j: nat)
    requires a.Union? && OptionalInner(a).None? && Apart(a) && i < j < |a.members| && LiteralInside(a.members[i])
    requires !Flat(a.members[j]) && v in EMPTY_CONTAINERS && KindOf(v) in Kinds(a.members[j])
    requires Accepts(ToSchema(a.members[j]), v)
    ensures Parts(a, v)
  {
    OneMemberAnswers(a, v, j);
  }

  lemma UnorderedParts(a: Annotation)
    requires a.Union? && OptionalInner(a).None? && Apart(a) && !InOrder(a.members)
    ensures exists v :: Parts(a, v)
  {
    var i, j :| 0 <= i < j < |a.members| && LiteralInside(a.members[i]) && !(Kinds(a.members[j]) !! CONTAINERS);
    if Flat(a.members[j]) { FlatTakesScalars(a.members[j]); }
    EmptyContainerIsTaken(a.members[j]);
    var v :| v in EMPTY_CONTAINERS && KindOf(v) in Kinds(a.members[j]) && Accepts(ToSchema(a.members[j]), v);
    UnorderedAt(a, v, i, j);
  }

  lemma MemberParts(a: Annotation, i: nat, w: Value)
    requires a.Union? && OptionalInner(a).None? && Apart(a) && InOrder(a.members)
    requires i < |a.members| && !Flat(a.members[i]) && Parts(a.members[i], w)
    ensures Parts(a, w)
  {
    if KindOf(w) !in Kinds(a.members[i]) {
      StrangerIsRefused(w, a.members[i]);
    }
    OneMemberAnswers(a, w, i);
  }

  /** To a value that a literal lets in by its twin, members that are not flat are strangers. */
  lemma StrangersToTwin(a: Annotation, v: Value, i: nat)
    requires a.Union? && OptionalInner(a).None? && Apart(a) && i < |a.members|
    requires HasTwin(v) && a.members[i].Literal? && Twin(v) in a.members[i].values
    ensures forall j | 0 <= j < |a.members| && !Flat(a.members[j]) :: KindOf(v) !in Kinds(a.members[j])
  {
    assert forall k | k in ScalarKinds(Twin(v)) :: k in Kinds(a.members[i]);
    assert forall j | 0 <= j < |a.members| && !Flat(a.members[j]) :: Kinds(a.members[if i < j then i else j]) !! Kinds(a.members[if i < j then j else i]);
  }

  lemma ConfusedParts(a: Annotation)
    requires a.Union? && OptionalInner(a).None? && Apart(a) && !Unconfused(a.members)
    ensures exists v :: Parts(a, v)
  {
    ConfusedValue(a.members);
    var v :| Confused(a.members, v);
    ConfusedPartsAt(a, v);
  }

  lemma ConfusedPartsAt(a: Annotation, v: Value)
    requires a.Union? && OptionalInner(a).None? && Apart(a) && Confused(a.members, v)
    ensures Parts(a, v)
  {
    var i :| 0 <= i < |a.members| && a.members[i].Literal? && Twin(v) in a.members[i].values;
    StrangersToTwin(a, v, i);
    FlatAgreeIffUnconfused(a.members, v);
    FlatMembersAnswer(a, v);
    assert Parts(a, v);
  }

  lemma {:induction false} InexactParts(a: Annotation)
    requires Apart(a) && !Exact(a)
    ensures exists v :: Parts(a, v)
    decreases a
  {
    var inner := OptionalInner(a);
    if inner.Some? {
      InexactParts(inner.value);
      var w :| Parts(inner.value, w);
      OptionalParts(a, w);
    } else {
      match a
      case BareList => assert Parts(a, Arr([]));
      case Opaque => assert Parts(a, Obj([]));
      case NoneType => assert Parts(a, Obj([]));
      case Literal(values) => LiteralParts(values);
      case ListOf(item) =>
        InexactParts(item.value);
        var w :| Parts(item.value, w);
        ItemParts(a, w);
      case DictOf(key, value) =>
        if TakesAnyString(key) {
          InexactParts(value);
          var w :| Parts(value, w);
          EntryParts(a, w);
        } else {
          ForeignKeyParts(a);
        }
      case Union(members) =>
        if !InOrder(members) {
          UnorderedParts(a);
        } else if !Unconfused(members) {
          ConfusedParts(a);
        } else {
          var i :| 0 <= i < |members| && !Flat(members[i]) && !Exact(members[i]);
          InexactParts(members[i]);
          var w :| Parts(members[i], w);
          MemberParts(a, i, w);
        }
    }
  }

  /**
   For annotations whose proper unions, at any depth, have members of different kinds or flat ones,
   compiler and matcher agree on all values if and only if the condition holds.
   */
  lemma AgreementIsExactness(a: Annotation)
    requires Apart(a)
    ensures (forall v | Normal(v) :: AgreeOn(a, v)) <==> Exact(a)
  {
    if Exact(a) {
      forall v | Normal(v)
        ensures AgreeOn(a, v)
      {
        ExactAgrees(a, v);
      }
    } else {
      InexactParts(a);
    }
  }
}
