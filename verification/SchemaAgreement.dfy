/** The compiled schema and the matcher define the same language: when, and exactly when. */
module SchemaAgreement {
  import opened Outcomes
  import opened OperationSchema

  /** In an optional, every member but `None` is the inner annotation. */
  lemma OptionalMembers(a: Annotation, i: nat)
    requires OptionalInner(a).Some? && i < |a.members| && a.members[i] != NoneType
    ensures a.members[i] == OptionalInner(a).value
  {
    NonNoneKeeps(a.members, a.members[i]);
  }

  lemma {:induction false} NonNoneKeeps(members: seq<Annotation>, a: Annotation)
    requires a in members && a != NoneType
    ensures a in NonNone(members)
  {
    if members[0] != a {
      NonNoneKeeps(members[1..], a);
    }
  }

  lemma InnerIsMember(a: Annotation)
    requires OptionalInner(a).Some?
    ensures OptionalInner(a).value in a.members && OptionalInner(a).value != NoneType
  {
    NonNoneMember(a.members, OptionalInner(a).value);
  }

  lemma {:induction false} TakesAnyStringMatches(s: string, a: Annotation)
    requires TakesAnyString(a)
    ensures Matches(Str(s), a).Yes?
    decreases a
  {
    if a.Union? {
      var i :| 0 <= i < |a.members| && TakesAnyString(a.members[i]);
      TakesAnyStringMatches(s, a.members[i]);
      if OptionalInner(a).Some? {
        OptionalMembers(a, i);
      } else {
        forall j | 0 <= j < |a.members|
          ensures !Matches(Str(s), a.members[j]).Crash?
        {
          StringsNeverCrash(s, a.members[j]);
        }
        AnyMember(Str(s), a.members);
      }
    }
  }

  lemma {:induction false} ItemsDoNotCrash(items: seq<Value>, a: Annotation)
    requires forall i | 0 <= i < |items| :: !Matches(items[i], a).Crash?
    ensures !AllItems(items, a).Crash?
  {
    if items != [] {
      ItemsDoNotCrash(items[1..], a);
    }
  }

  lemma {:induction false} EntriesDoNotCrash(entries: seq<Entry>, dict: Annotation)
    requires dict.DictOf?
    requires forall i | 0 <= i < |entries| ::
               Matches(Str(entries[i].key), dict.key).Yes? ==> !Matches(entries[i].value, dict.value).Crash?
    ensures !AllEntries(entries, dict).Crash?
  {
    if entries != [] {
      StringsNeverCrash(entries[0].key, dict.key);
      EntriesDoNotCrash(entries[1..], dict);
    }
  }

  /** Only the strings that `TakesSomeString` foresees match. */
  lemma {:induction false} MatchedStringIsForeseen(s: string, a: Annotation)
    requires Matches(Str(s), a).Yes?
    ensures TakesSomeString(a)
    decreases a
  {
    if OptionalInner(a).Some? {
      InnerIsMember(a);
      MatchedStringIsForeseen(s, OptionalInner(a).value);
    } else if a.Union? {
      forall i | 0 <= i < |a.members|
        ensures !Matches(Str(s), a.members[i]).Crash?
      {
        StringsNeverCrash(s, a.members[i]);
      }
      AnyMember(Str(s), a.members);
      var i :| 0 <= i < |a.members| && Matches(Str(s), a.members[i]).Yes?;
      MatchedStringIsForeseen(s, a.members[i]);
    }
  }

  lemma {:induction false} MembersDoNotCrash(v: Value, members: seq<Annotation>)
    requires forall i | 0 <= i < |members| :: !Matches(v, members[i]).Crash?
    ensures !MatchesAny(v, members).Crash?
  {
    if members != [] {
      MembersDoNotCrash(v, members[1..]);
    }
  }

  lemma {:induction false} CrashFreeNeverCrashes(v: Value, a: Annotation)
    requires CrashFree(a)
    ensures !Matches(v, a).Crash?
    decreases a
  {
    var inner := OptionalInner(a);
    if inner.Some? {
      InnerIsMember(a);
      CrashFreeNeverCrashes(v, inner.value);
    } else {
      match a
      case ListOf(item) =>
        if item.Some? && v.Arr? {
          forall i | 0 <= i < |v.items|
            ensures !Matches(v.items[i], item.value).Crash?
          {
            CrashFreeNeverCrashes(v.items[i], item.value);
          }
          ItemsDoNotCrash(v.items, item.value);
        }
      case DictOf(key, value) =>
        if v.Obj? {
          forall i | 0 <= i < |v.entries| && Matches(Str(v.entries[i].key), key).Yes?
            ensures !Matches(v.entries[i].value, value).Crash?
          {
            MatchedStringIsForeseen(v.entries[i].key, key);
            CrashFreeNeverCrashes(v.entries[i].value, value);
          }
          EntriesDoNotCrash(v.entries, a);
        }
      case Union(members) =>
        forall i | 0 <= i < |members|
          ensures !Matches(v, members[i]).Crash?
        {
          CrashFreeNeverCrashes(v, members[i]);
        }
        MembersDoNotCrash(v, members);
      case _ =>
    }
  }

  lemma LiteralAgrees(values: seq<Scalar>, v: Value)
    requires Unambiguous(values) && Normal(v)
    ensures AgreeOn(Literal(values), v)
  {
  }

  lemma ListAgrees(item: Annotation, v: Value)
    requires v.Arr? ==> forall i | 0 <= i < |v.items| :: AgreeOn(item, v.items[i])
    ensures AgreeOn(ListOf(Some(item)), v)
  {
    if v.Arr? {
      AllItemsYes(v.items, item);
    }
  }

  lemma DictAgrees(dict: Annotation, v: Value)
    requires dict.DictOf? && TakesAnyString(dict.key)
    requires v.Obj? ==> forall i | 0 <= i < |v.entries| :: AgreeOn(dict.value, v.entries[i].value)
    ensures AgreeOn(dict, v)
  {
    if v.Obj? {
      AllEntriesYes(v.entries, dict);
      forall i | 0 <= i < |v.entries|
        ensures Matches(Str(v.entries[i].key), dict.key).Yes?
        ensures Accepts(ToSchema(dict.value), v.entries[i].value) <==> Matches(v.entries[i].value, dict.value).Yes?
      {
        TakesAnyStringMatches(v.entries[i].key, dict.key);
        assert AgreeOn(dict.value, v.entries[i].value);
      }
    }
  }

  lemma UnionAgrees(a: Annotation, v: Value)
    requires a.Union? && OptionalInner(a).None?
    requires forall i | 0 <= i < |a.members| :: AgreeOn(a.members[i], v)
    requires forall i | 0 <= i < |a.members| - 1 :: !Matches(v, a.members[i]).Crash?
    ensures AgreeOn(a, v)
  {
    AnyMember(v, a.members);
    var branches := ToSchema(a).anyOf.schemas;
    assert forall i | 0 <= i < |a.members| :: branches[i] == ToSchema(a.members[i]);
    assert forall i | 0 <= i < |a.members| :: AgreeOn(a.members[i], v);
    if i: int :| 0 <= i < |a.members| && Matches(v, a.members[i]).Yes? {
      assert Accepts(branches[i], v);
    }
    if Accepts(ToSchema(a), v) {
      var i :| 0 <= i < |branches| && Accepts(branches[i], v);
      assert Matches(v, a.members[i]).Yes?;
    }
  }

  lemma OptionalAgrees(a: Annotation, v: Value)
    requires OptionalInner(a).Some? && AgreeOn(OptionalInner(a).value, v)
    ensures AgreeOn(a, v)
  {
    var s := ToSchema(OptionalInner(a).value);
    if s != EMPTY {
      var branches := ToSchema(a).anyOf.schemas;
      assert branches == [s, Typed(NullName)];
      assert Accepts(branches[1], v) <==> v.Null?;
      assert Accepts(branches[0], v) <==> Accepts(s, v);
    }
  }

  /** On a faithful annotation, the schema accepts a value if and only if the matcher does. */
  lemma {:induction false} FaithfulAgrees(a: Annotation, v: Value)
    requires Faithful(a) && Normal(v)
    ensures AgreeOn(a, v)
    decreases a
  {
    var inner := OptionalInner(a);
    if inner.Some? {
      FaithfulAgrees(inner.value, v);
      OptionalAgrees(a, v);
    } else {
      match a
      case Literal(values) => LiteralAgrees(values, v);
      case ListOf(item) =>
        if item.Some? {
          if v.Arr? {
            forall i | 0 <= i < |v.items|
              ensures AgreeOn(item.value, v.items[i])
            {
              FaithfulAgrees(item.value, v.items[i]);
            }
          }
          ListAgrees(item.value, v);
        }
      case DictOf(key, value) =>
        if v.Obj? {
          forall i | 0 <= i < |v.entries|
            ensures AgreeOn(value, v.entries[i].value)
          {
            FaithfulAgrees(value, v.entries[i].value);
          }
        }
        DictAgrees(a, v);
      case Union(members) =>
        forall i | 0 <= i < |members|
          ensures AgreeOn(members[i], v)
        {
          FaithfulAgrees(members[i], v);
        }
        forall i | 0 <= i < |members| - 1
          ensures !Matches(v, members[i]).Crash?
        {
          CrashFreeNeverCrashes(v, members[i]);
        }
        UnionAgrees(a, v);
      case _ =>
    }
  }

  /** The only unions inside are optionals, and every literal lists something. */
  predicate Plain(a: Annotation)
  {
    var inner := OptionalInner(a);
    if inner.Some? then Plain(inner.value)
    else
      match a
      case Union(_) => false
      case Literal(values) => values != []
      case ListOf(item) => item.Some? ==> Plain(item.value)
      case DictOf(key, value) => Plain(key) && Plain(value)
      case _ => true
  }

  function ScalarValue(x: Scalar): Value
  {
    match x
    case NullLit => Null
    case BoolLit(b) => Bool(b)
    case IntLit(i) => Int(i)
    case StrLit(s) => Str(s)
  }

  /** No literal listed inside is as long as this. */
  function LongerThanLiterals(a: Annotation): nat
  {
    var inner := OptionalInner(a);
    if inner.Some? then LongerThanLiterals(inner.value)
    else if a.Literal? then LongerThan(a.values)
    else 0
  }

  function LongerThan(values: seq<Scalar>): nat
  {
    if values == [] then 0 else
      var n := if values[0].StrLit? then |values[0].s| + 1 else 0;
      var m := LongerThan(values[1..]);
      if n > m then n else m
  }

  lemma {:induction false} LongerThanEach(values: seq<Scalar>, x: Scalar)
    requires x in values && x.StrLit?
    ensures |x.s| < LongerThan(values)
  {
    if x != values[0] {
      LongerThanEach(values[1..], x);
    }
  }

  /** A plain key annotation that does not take any string refuses all long enough ones. */
  lemma {:induction false} LongStringRefused(s: string, a: Annotation)
    requires Plain(a) && !TakesAnyString(a) && |s| >= LongerThanLiterals(a)
    ensures !Matches(Str(s), a).Yes?
    decreases a
  {
    var inner := OptionalInner(a);
    if inner.Some? {
      InnerIsMember(a);
      LongStringRefused(s, inner.value);
    } else if a.Literal? {
      forall x | x in a.values
        ensures !PyEqual(x, Str(s))
      {
        if x.StrLit? { LongerThanEach(a.values, x); }
      }
    }
  }

  /** A value, other than null, on which compiler and matcher part. */
  ghost predicate Parts(a: Annotation, v: Value)
  {
    Normal(v) && !v.Null? && !AgreeOn(a, v)
  }

  function ALongString(n: nat): string
  {
    seq(n, _ => 'x')
  }

  lemma LiteralParts(values: seq<Scalar>)
    requires !Unambiguous(values)
    ensures exists v :: Parts(Literal(values), v)
  {
    if IntLit(1) in values && BoolLit(true) !in values {
      LiteralPartsAt(values, IntLit(1), Bool(true));
    } else if BoolLit(true) in values && IntLit(1) !in values {
      LiteralPartsAt(values, BoolLit(true), Int(1));
    } else if IntLit(0) in values && BoolLit(false) !in values {
      LiteralPartsAt(values, IntLit(0), Bool(false));
    } else {
      LiteralPartsAt(values, BoolLit(false), Int(0));
    }
  }

  lemma LiteralPartsAt(values: seq<Scalar>, x: Scalar, v: Value)
    requires x in values && PyEqual(x, v) && (v.Bool? || v.Int?)
    requires (if v.Bool? then BoolLit(v.b) else IntLit(v.i)) !in values
    ensures Parts(Literal(values), v)
  {
  }

  lemma ItemParts(a: Annotation, w: Value)
    requires a.ListOf? && a.item.Some? && Parts(a.item.value, w)
    ensures Parts(a, Arr([w]))
  {
    AllItemsYes([w], a.item.value);
    assert Accepts(ToSchema(a), Arr([w])) <==> Accepts(ToSchema(a.item.value), w);
  }

  lemma EntryParts(a: Annotation, w: Value)
    requires a.DictOf? && TakesAnyString(a.key) && Parts(a.value, w)
    ensures Parts(a, Obj([Entry("", w)]))
  {
    var v := Obj([Entry("", w)]);
    AllEntriesYes(v.entries, a);
    TakesAnyStringMatches("", a.key);
    assert Accepts(ToSchema(a), v) <==> Accepts(ToSchema(a.value), w);
  }

  lemma OptionalParts(a: Annotation, w: Value)
    requires OptionalInner(a).Some? && Parts(OptionalInner(a).value, w)
    ensures Parts(a, w)
  {
    var s := ToSchema(OptionalInner(a).value);
    if s != EMPTY {
      var branches := ToSchema(a).anyOf.schemas;
      assert branches == [s, Typed(NullName)];
      assert Accepts(branches[1], w) <==> w.Null?;
      assert Accepts(branches[0], w) <==> Accepts(s, w);
    }
  }

  lemma {:induction false} ForeseenStringMatches(a: Annotation) returns (s: string)
    requires Plain(a) && TakesSomeString(a)
    ensures Matches(Str(s), a).Yes?
    decreases a
  {
    s := "";
    if OptionalInner(a).Some? {
      var i :| 0 <= i < |a.members| && TakesSomeString(a.members[i]);
      OptionalMembers(a, i);
      s := ForeseenStringMatches(OptionalInner(a).value);
    } else if a.Literal? {
      var x :| x in a.values && x.StrLit?;
      s := x.s;
    }
  }

  /** On a plain annotation that is not crash-free, some value makes the matcher raise. */
  lemma {:induction false} CrashingValue(a: Annotation) returns (v: Value)
    requires Plain(a) && !CrashFree(a)
    ensures Matches(v, a).Crash?
    decreases a
  {
    if OptionalInner(a).Some? {
      var i :| 0 <= i < |a.members| && !CrashFree(a.members[i]);
      OptionalMembers(a, i);
      v := CrashingValue(OptionalInner(a).value);
    } else {
      match a
      case Literal(_) => v := Arr([]);
      case ListOf(item) =>
        var w := CrashingValue(item.value);
        v := Arr([w]);
      case DictOf(key, value) =>
        var s := ForeseenStringMatches(key);
        var w := CrashingValue(value);
        v := Obj([Entry(s, w)]);
    }
  }

  /** For annotations without proper unions the condition is exact: the matcher never raises if and only if it holds. */
  lemma NeverCrashesIffCrashFree(a: Annotation)
    requires Plain(a)
    ensures (forall v :: !Matches(v, a).Crash?) <==> CrashFree(a)
  {
    if CrashFree(a) {
      forall v
        ensures !Matches(v, a).Crash?
      {
        CrashFreeNeverCrashes(v, a);
      }
    } else {
      var v := CrashingValue(a);
    }
  }

  /** Integral floats, and no other values, are integers to the schema and not to the matcher. */
  lemma IntegralFloatParts(v: Value)
    ensures AgreeOn(IntType, v) <==> !(v.Float? && Integral(v.r))
  {
  }

  /**
   The order of union members matters: with a literal in front the matcher raises on every list and
   every object, while the schema accepts those that any other member does.
   */
  lemma LiteralInFrontRaises(values: seq<Scalar>, rest: seq<Annotation>, v: Value)
    requires OptionalInner(Union([Literal(values)] + rest)).None? && (v.Arr? || v.Obj?)
    ensures var a := Union([Literal(values)] + rest);
            && Matches(v, a).Crash?
            && (Accepts(ToSchema(a), v) <==> exists i :: 0 <= i < |rest| && Accepts(ToSchema(rest[i]), v))
  {
    var members := [Literal(values)] + rest;
    var branches := ToSchema(Union(members)).anyOf.schemas;
    assert members[0] == Literal(values);
    assert Matches(v, members[0]).Crash?;
    assert MatchesAny(v, members).Crash?;
    if Accepts(ToSchema(Union(members)), v) {
      var i :| 0 <= i < |branches| && Accepts(branches[i], v);
      assert branches[i] == ToSchema(members[i]);
      assert i > 0 && members[i] == rest[i - 1];
    }
    if i: int :| 0 <= i < |rest| && Accepts(ToSchema(rest[i]), v) {
      assert members[i + 1] == rest[i] && Accepts(branches[i + 1], v);
    }
  }

  lemma {:induction false} NullMatchesNone(members: seq<Annotation>)
    requires NoneType in members && forall m | m in members :: !Matches(Null, m).Crash?
    ensures MatchesAny(Null, members).Yes?
  {
    var i :| 0 <= i < |members| && members[i] == NoneType;
    AnyMember(Null, members);
    assert Matches(Null, members[i]).Yes?;
  }

  lemma {:induction false} NullNeverCrashes(a: Annotation)
    ensures !Matches(Null, a).Crash?
    decreases a
  {
    if OptionalInner(a).None? && a.Union? {
      forall i | 0 <= i < |a.members|
        ensures !Matches(Null, a.members[i]).Crash?
      {
        NullNeverCrashes(a.members[i]);
      }
      MembersDoNotCrash(Null, a.members);
    }
  }

  /**
   `None` beside several other members is compiled as an object: the matcher takes null, and the
   schema does if and only if another member's schema happens to.
   */
  lemma NoneBesideSeveralParts(a: Annotation)
    requires a.Union? && NoneType in a.members && OptionalInner(a).None?
    ensures Matches(Null, a).Yes?
    ensures AgreeOn(a, Null) <==> exists i :: 0 <= i < |a.members| && a.members[i] != NoneType && Accepts(ToSchema(a.members[i]), Null)
  {
    forall m | m in a.members
      ensures !Matches(Null, m).Crash?
    {
      NullNeverCrashes(m);
    }
    NullMatchesNone(a.members);
    var branches := ToSchema(a).anyOf.schemas;
    if Accepts(ToSchema(a), Null) {
      var i :| 0 <= i < |branches| && Accepts(branches[i], Null);
      assert branches[i] == ToSchema(a.members[i]);
      assert !Accepts(ToSchema(NoneType), Null);
    }
    if i: int :| 0 <= i < |a.members| && Accepts(ToSchema(a.members[i]), Null) {
      assert Accepts(branches[i], Null);
    }
  }
}
