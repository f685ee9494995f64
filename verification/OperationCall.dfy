/** The contract built from a whole signature, and its invocation up to the body of the handler. */
module OperationCall {
  import opened Outcomes
  import opened OperationSchema
  import opened SchemaUnions
  import opened OperationContract

  function Rank(kind: ParameterKind): nat
  {
    match kind
    case PositionalOnly => 0
    case Ordinary => 1
    case VarPositional => 2
    case KeywordOnly => 3
    case VarKeyword => 4
  }

  /** What the language demands of any signature: distinct names, kinds in order, at most one parameter of each variadic kind. */
  ghost predicate WellFormed(signature: seq<Parameter>)
  {
    && DistinctNames(signature)
    && forall i, j | 0 <= i < j < |signature| ::
         if Variadic(signature[i]) then Rank(signature[i].kind) < Rank(signature[j].kind) else Rank(signature[i].kind) <= Rank(signature[j].kind)
  }

  /** A leading parameter of one of these names is the context. */
  predicate AcceptsContext(signature: seq<Parameter>)
  {
    signature != [] && signature[0].name in {"ctx", "context"}
  }

  /** The parameters that are filled from the payload. */
  function Specs(signature: seq<Parameter>): seq<Parameter>
  {
    if AcceptsContext(signature) then signature[1..] else signature
  }

  /** A contract keeps the function it was built from, here its signature. */
  datatype Contract = Contract(signature: seq<Parameter>, payloadStyle: bool, schema: ObjectSchema)

  /** The contract is what building it from its signature gives. */
  ghost predicate Built(c: Contract)
  {
    && WellFormed(c.signature)
    && c.payloadStyle == IsPayloadStyle(Specs(c.signature))
    && if c.payloadStyle then c.schema == ObjectSchema(map[], [], false)
       else !HasVariadic(Specs(c.signature)) && Describes(c.schema, Specs(c.signature))
  }

  lemma SpecsAreDistinct(signature: seq<Parameter>)
    requires DistinctNames(signature)
    ensures DistinctNames(Specs(signature))
  {
  }

  /** The number of leading parameters that take the context. */
  function ContextCount(signature: seq<Parameter>): (n: nat)
    ensures n <= |signature|
  {
    if signature != [] && (signature[0].name == "ctx" || signature[0].name == "context") then 1 else 0
  }

  /** A lone `payload` or `input_payload` that takes any object, behind the context. */
  ghost predicate TakesThePayloadWhole(signature: seq<Parameter>)
  {
    var n := ContextCount(signature);
    && |signature| == n + 1 && (signature[n].name == "payload" || signature[n].name == "input_payload")
    && (signature[n].annotation == AnyType || signature[n].annotation == BareDict || signature[n].annotation.DictOf?)
  }

  /** The schema lists the parameters from the `n`-th on, demands those without default, and takes no other key. */
  ghost predicate ListsParameters(schema: ObjectSchema, s: seq<Parameter>, n: nat)
  {
    && schema.closed
    && (forall k :: k in schema.properties <==> exists i :: n <= i < |s| && s[i].name == k)
    && (forall k :: k in schema.required <==> exists i :: n <= i < |s| && s[i].name == k && s[i].default == None)
    && forall i | n <= i < |s| :: s[i].name in schema.properties && schema.properties[s[i].name] == ToSchema(s[i].annotation)
  }

  /** What the contract publishes, in terms of the signature's own names, kinds and defaults. */
  ghost predicate PublishedFor(signature: seq<Parameter>, c: Contract)
  {
    && c.signature == signature
    && (c.payloadStyle <==> TakesThePayloadWhole(signature))
    && if c.payloadStyle then c.schema == ObjectSchema(map[], [], false) else ListsParameters(c.schema, signature, ContextCount(signature))
  }

  lemma SpecsAreBehindContext(signature: seq<Parameter>)
    ensures Specs(signature) == signature[ContextCount(signature)..]
    ensures AcceptsContext(signature) <==> ContextCount(signature) == 1
  {
  }

  lemma StyleIsPlain(signature: seq<Parameter>)
    ensures IsPayloadStyle(Specs(signature)) <==> TakesThePayloadWhole(signature)
  {
    SpecsAreBehindContext(signature);
  }

  lemma DescribedIsListed(schema: ObjectSchema, s: seq<Parameter>, n: nat)
    requires n <= |s| && Describes(schema, s[n..])
    ensures ListsParameters(schema, s, n)
  {
    forall k
      ensures k in schema.properties <==> exists i :: n <= i < |s| && s[i].name == k
      ensures k in schema.required <==> exists i :: n <= i < |s| && s[i].name == k && s[i].default == None
    {
      RequiredAre(s[n..], k);
      SpecsFrom(s, n, k);
    }
    assert forall i | n <= i < |s| :: s[i] == s[n..][i - n];
  }

  lemma SpecsFrom(s: seq<Parameter>, n: nat, k: string)
    requires n <= |s|
    ensures IsName(s[n..], k) <==> exists i :: n <= i < |s| && s[i].name == k
    ensures (exists i :: 0 <= i < |s[n..]| && s[n..][i].name == k && s[n..][i].default.None?)
            <==> exists i :: n <= i < |s| && s[i].name == k && s[i].default == None
  {
    assert forall i | n <= i < |s| :: s[i] == s[n..][i - n];
  }

  /** `build_operation_contract`: only a variadic parameter of a typed signature is refused. */
  method BuildContract(signature: seq<Parameter>) returns (r: Result<Contract>)
    requires WellFormed(signature)
    ensures r.Err? <==> !IsPayloadStyle(Specs(signature)) && HasVariadic(Specs(signature))
    ensures r.Ok? ==> r.value.signature == signature && Built(r.value)
    ensures r.Err? ==> r.code == ValueError
    ensures r.Ok? ==> PublishedFor(signature, r.value)
  {
    var parameters := signature;
    if parameters != [] && parameters[0].name in {"ctx", "context"} {
      parameters := parameters[1..];
    }
    SpecsAreDistinct(signature);
    SpecsAreBehindContext(signature);
    StyleIsPlain(signature);
    if IsPayloadStyle(parameters) {
      return Ok(Contract(signature, true, ObjectSchema(map[], [], false)));
    }
    var schema := CompileParameters(parameters);
    if schema.Err? {
      return Err(schema.code);
    }
    DescribedIsListed(schema.value, signature, ContextCount(signature));
    r := Ok(Contract(signature, false, schema.value));
  }

  // -------- the call --------

  /** An argument of the final call. */
  datatype Argument = Context | Given(value: Value)

  predicate Positional(p: Parameter)
  {
    p.kind.PositionalOnly? || p.kind.Ordinary?
  }

  predicate ByKeyword(p: Parameter)
  {
    p.kind.Ordinary? || p.kind.KeywordOnly?
  }

  predicate HasKind(signature: seq<Parameter>, kind: ParameterKind)
  {
    exists i :: 0 <= i < |signature| && signature[i].kind == kind
  }

  /** Parameter `i` is filled by one of `n` positional arguments. */
  predicate ByPosition(signature: seq<Parameter>, n: nat, i: nat)
  {
    i < |signature| && i < n && Positional(signature[i])
  }

  predicate KeywordFits(signature: seq<Parameter>, n: nat, key: string)
  {
    if exists i :: 0 <= i < |signature| && signature[i].name == key && ByKeyword(signature[i])
    then exists i :: 0 <= i < |signature| && signature[i].name == key && ByKeyword(signature[i]) && !ByPosition(signature, n, i)
    else HasKind(signature, VarKeyword)
  }

  /**
   Python's rule for calls (section 6.3.4 of the language reference), for `n` positional arguments
   and one keyword argument for each of `keys`: too many positional arguments, an unknown or doubly
   given keyword and a missing argument are refused with a `TypeError` before the body runs.
   */
  predicate Bindable(signature: seq<Parameter>, n: nat, keys: set<string>)
  {
    && (HasKind(signature, VarPositional) || forall i | 0 <= i < n :: ByPosition(signature, n, i))
    && (forall k | k in keys :: KeywordFits(signature, n, k))
    && forall i | 0 <= i < |signature| ::
         Variadic(signature[i]) || ByPosition(signature, n, i)
         || (ByKeyword(signature[i]) && signature[i].name in keys) || signature[i].default.Some?
  }

  /** What parameter `i` receives from the call, unless its default or what a variadic one collects. */
  function Received(signature: seq<Parameter>, positional: seq<Argument>, keywords: map<string, Argument>, i: nat): Option<Argument>
    requires i < |signature|
  {
    if ByPosition(signature, |positional|, i) then Some(positional[i])
    else if ByKeyword(signature[i]) && signature[i].name in keywords then Some(keywords[signature[i].name])
    else None
  }

  /** What an invocation comes to: the handler's body with the arguments of the call, a refusal of the payload, or another error. */
  datatype Invocation = Reached(positional: seq<Argument>, keywords: map<string, Argument>) | Rejected | Broken

  /** The keys of the keyword arguments of the final call. */
  function Keywords(c: Contract): set<string>
  {
    if c.payloadStyle then {} else NamesOf(Specs(c.signature), |Specs(c.signature)|)
  }

  /** A payload-style call has the payload as its one argument, also where the first parameter is a context. */
  function PositionalCount(c: Contract): nat
  {
    if c.payloadStyle || AcceptsContext(c.signature) then 1 else 0
  }

  /** The payload gets through to the body of the handler. */
  ghost predicate Reaches(c: Contract, payload: Value)
  {
    && payload.Obj? && (c.payloadStyle || BindsAll(Specs(c.signature), payload))
    && Bindable(c.signature, PositionalCount(c), Keywords(c))
  }

  function AsArguments(values: map<string, Value>): map<string, Argument>
  {
    map k | k in values :: Given(values[k])
  }

  /** Every parameter is handed what the payload has under its name, and its default if there is nothing; the payload has no other name. */
  ghost predicate Delivers(specs: seq<Parameter>, entries: seq<Entry>, keywords: map<string, Argument>)
  {
    && (DistinctKeys(entries) ==> forall i, j | 0 <= i < |specs| && 0 <= j < |entries| && entries[j].key == specs[i].name ::
          specs[i].name in keywords && keywords[specs[i].name] == Given(entries[j].value))
    && (forall i | 0 <= i < |specs| && (forall j | 0 <= j < |entries| :: entries[j].key != specs[i].name) ::
          specs[i].default.Some? && specs[i].name in keywords && keywords[specs[i].name] == Given(specs[i].default.value))
    && forall j | 0 <= j < |entries| :: IsName(specs, entries[j].key)
  }

  lemma BoundIsDelivered(specs: seq<Parameter>, payload: Value, arguments: map<string, Value>)
    requires BindsAll(specs, payload) && BoundTo(specs, payload, arguments) && GivenOrDefault(specs, payload.entries, arguments)
    ensures AsArguments(arguments).Keys == NamesOf(specs, |specs|)
    ensures Delivers(specs, payload.entries, AsArguments(arguments))
  {
  }

  /** What a typed call hands to the handler: the context by position, and the bound values by name. */
  ghost predicate TypedCall(c: Contract, payload: Value, r: Invocation)
    requires r.Reached? && !c.payloadStyle
  {
    && r.positional == (if ContextCount(c.signature) == 1 then [Context] else [])
    && r.keywords.Keys == Keywords(c)
    && payload.Obj? && Delivers(Specs(c.signature), payload.entries, r.keywords)
  }

  lemma TypedIsDelivered(c: Contract, payload: Value, positional: seq<Argument>, arguments: map<string, Value>)
    requires Built(c) && !c.payloadStyle && BindsAll(Specs(c.signature), payload)
    requires BoundTo(Specs(c.signature), payload, arguments) && GivenOrDefault(Specs(c.signature), payload.entries, arguments)
    requires positional == if AcceptsContext(c.signature) then [Context] else []
    ensures AsArguments(arguments).Keys == Keywords(c) && |positional| == PositionalCount(c)
    ensures TypedCall(c, payload, Reached(positional, AsArguments(arguments)))
  {
    SpecsAreBehindContext(c.signature);
    BoundIsDelivered(Specs(c.signature), payload, arguments);
  }

  /** The closure `invoke` of a payload-style contract. */
  method InvokeWhole(c: Contract, payload: Value) returns (r: Invocation)
    requires Built(c) && c.payloadStyle
    ensures r.Reached? <==> Reaches(c, payload)
    ensures r.Reached? ==> r == Reached([Given(payload)], map[])
  {
    if !payload.Obj? {
      return Rejected;
    }
    var keywords: map<string, Argument> := map[];
    r := if Bindable(c.signature, 1, {}) then Reached([Given(payload)], keywords) else Broken;
  }

  /** The closure `invoke` of a typed contract. */
  method InvokeTyped(c: Contract, payload: Value) returns (r: Invocation)
    requires Built(c) && !c.payloadStyle
    ensures r.Reached? <==> Reaches(c, payload)
    ensures r.Reached? ==> TypedCall(c, payload, r)
  {
    SpecsAreDistinct(c.signature);
    var bound := BindArguments(Specs(c.signature), payload);
    if !bound.Bound? {
      return if bound.Refused? then Rejected else Broken;
    }
    var positional := if AcceptsContext(c.signature) then [Context] else [];
    TypedIsDelivered(c, payload, positional, bound.arguments);
    var keywords := AsArguments(bound.arguments);
    r := if Bindable(c.signature, |positional|, keywords.Keys) then Reached(positional, keywords) else Broken;
  }

  /** The invocation of a contract of either style. */
  method Invoke(c: Contract, payload: Value) returns (r: Invocation)
    requires Built(c)
    ensures r.Reached? <==> Reaches(c, payload)
    ensures r.Reached? && c.payloadStyle ==> r == Reached([Given(payload)], map[])
    ensures r.Reached? && !c.payloadStyle ==> TypedCall(c, payload, r)
  {
    if c.payloadStyle {
      r := InvokeWhole(c, payload);
    } else {
      r := InvokeTyped(c, payload);
    }
  }

  // -------- which signatures can be called --------

  /**
   The kinds and defaults with which the final call succeeds. A typed operation is called by keyword,
   so none of its parameters may be positional-only; a context, and a payload taken whole, come by
   position; and a payload-style operation with a context gets the payload in the context's place, so
   that its own payload parameter has to do without.
   */
  predicate Callable(signature: seq<Parameter>)
  {
    var specs := Specs(signature);
    if IsPayloadStyle(specs) then
      && (Positional(signature[0]) || signature[0].kind.VarPositional?)
      && (AcceptsContext(signature) ==> Variadic(specs[0]) || specs[0].default.Some?)
    else
      && (AcceptsContext(signature) ==> Positional(signature[0]) || signature[0].kind.VarPositional?)
      && forall i | 0 <= i < |specs| :: !specs[i].kind.PositionalOnly?
  }

  lemma PayloadStyleCallable(c: Contract)
    requires Built(c) && c.payloadStyle
    ensures Callable(c.signature) <==> Bindable(c.signature, 1, {})
  {
    var s := c.signature;
    assert ByPosition(s, 1, 0) <==> Positional(s[0]);
    if s[0].kind.VarPositional? {
      assert HasKind(s, VarPositional);
    }
    if AcceptsContext(s) {
      assert Specs(s)[0] == s[1];
    }
    if HasKind(s, VarPositional) && !s[0].kind.VarPositional? {
      var i :| 0 <= i < |s| && s[i].kind == VarPositional;
      assert i == 1 && Rank(s[0].kind) <= Rank(s[1].kind);
    }
  }

  lemma SpecPosition(signature: seq<Parameter>, i: nat)
    requires i < |Specs(signature)|
    ensures var at := if AcceptsContext(signature) then i + 1 else i;
            at < |signature| && signature[at] == Specs(signature)[i] && !ByPosition(signature, if AcceptsContext(signature) then 1 else 0, at)
  {
  }

  /** In a typed call every keyword fits if and only if no parameter is positional-only. */
  lemma KeywordsFit(c: Contract)
    requires Built(c) && !c.payloadStyle
    ensures (forall k | k in Keywords(c) :: KeywordFits(c.signature, PositionalCount(c), k))
            <==> forall i | 0 <= i < |Specs(c.signature)| :: !Specs(c.signature)[i].kind.PositionalOnly?
  {
    var s, specs := c.signature, Specs(c.signature);
    forall i | 0 <= i < |specs|
      ensures specs[i].name in Keywords(c) && (KeywordFits(s, PositionalCount(c), specs[i].name) <==> !specs[i].kind.PositionalOnly?)
    {
      KeywordFit(c, i);
    }
  }

  lemma KeywordFit(c: Contract, i: nat)
    requires Built(c) && !c.payloadStyle && i < |Specs(c.signature)|
    ensures var p := Specs(c.signature)[i];
            p.name in Keywords(c) && (KeywordFits(c.signature, PositionalCount(c), p.name) <==> !p.kind.PositionalOnly?)
  {
    var s, p := c.signature, Specs(c.signature)[i];
    var at := if AcceptsContext(s) then i + 1 else i;
    SpecPosition(s, i);
    assert !Variadic(p);
    assert forall j | 0 <= j < |s| && s[j].name == p.name :: j == at;
    if p.kind.PositionalOnly? && HasKind(s, VarKeyword) {
      var j :| 0 <= j < |s| && s[j].kind == VarKeyword;
      NoVarKeywordBehind(c, j);
    }
  }

  /** A variadic keyword parameter could only be the context itself, and then nothing follows it. */
  lemma NoVarKeywordBehind(c: Contract, j: nat)
    requires Built(c) && !c.payloadStyle && j < |c.signature| && c.signature[j].kind == VarKeyword
    ensures |Specs(c.signature)| == 0
  {
  }

  /** In a typed call of a callable signature every parameter gets its argument. */
  lemma TypedArgumentsFit(c: Contract, i: nat)
    requires Built(c) && !c.payloadStyle && Callable(c.signature) && i < |c.signature|
    ensures var s := c.signature;
            Variadic(s[i]) || ByPosition(s, PositionalCount(c), i) || (ByKeyword(s[i]) && s[i].name in Keywords(c)) || s[i].default.Some?
  {
    var s := c.signature;
    if !AcceptsContext(s) || i > 0 {
      var k := if AcceptsContext(s) then i - 1 else i;
      assert Specs(s)[k] == s[i];
      KeywordFit(c, k);
    }
  }

  lemma TypedCallable(c: Contract)
    requires Built(c) && !c.payloadStyle
    ensures Callable(c.signature) <==> Bindable(c.signature, PositionalCount(c), Keywords(c))
  {
    KeywordsFit(c);
    if AcceptsContext(c.signature) {
      ContextFits(c);
    }
    if Callable(c.signature) {
      forall i | 0 <= i < |c.signature|
        ensures var s := c.signature;
                Variadic(s[i]) || ByPosition(s, PositionalCount(c), i) || (ByKeyword(s[i]) && s[i].name in Keywords(c)) || s[i].default.Some?
      {
        TypedArgumentsFit(c, i);
      }
    }
  }

  lemma ContextFits(c: Contract)
    requires Built(c) && !c.payloadStyle && AcceptsContext(c.signature)
    ensures (HasKind(c.signature, VarPositional) || ByPosition(c.signature, 1, 0))
            <==> Positional(c.signature[0]) || c.signature[0].kind.VarPositional?
  {
    if c.signature[0].kind.VarPositional? {
      assert HasKind(c.signature, VarPositional);
    }
  }

  /** The guard is exact: whatever the payload, the final call succeeds if and only if the signature is callable. */
  lemma CallSucceedsIffCallable(c: Contract)
    requires Built(c)
    ensures Callable(c.signature) <==> Bindable(c.signature, PositionalCount(c), Keywords(c))
  {
    if c.payloadStyle {
      PayloadStyleCallable(c);
    } else {
      TypedCallable(c);
    }
  }

  // -------- the schema and the invocation --------

  /** The published schema accepts exactly the payloads that reach the handler. */
  ghost predicate SchemaIsExact(c: Contract)
  {
    forall payload | Delivered(payload) :: ObjectAccepts(c.schema, payload) <==> Reaches(c, payload)
  }

  /**
   For every contract that can be built, with unions apart: the published schema accepts exactly
   the payloads that reach the handler if and only if the signature is callable and, unless the
   payload is taken whole, every parameter's annotation is exact.
   */
  lemma SchemaIsExactIffCallableAndExact(c: Contract)
    requires Built(c) && (c.payloadStyle || forall i | 0 <= i < |Specs(c.signature)| :: Apart(Specs(c.signature)[i].annotation))
    ensures SchemaIsExact(c) <==>
              && Callable(c.signature)
              && (c.payloadStyle || forall i | 0 <= i < |Specs(c.signature)| :: Exact(Specs(c.signature)[i].annotation))
  {
    CallSucceedsIffCallable(c);
    SpecsAreDistinct(c.signature);
    if Callable(c.signature) {
      if !c.payloadStyle {
        SchemaIsExactIffAnnotationsAre(c.schema, Specs(c.signature));
      }
    } else {
      PayloadIsAccepted(c);
      var payload :| Delivered(payload) && ObjectAccepts(c.schema, payload);
      assert !Reaches(c, payload);
    }
  }

  /** Some payload is accepted by the published schema. */
  lemma PayloadIsAccepted(c: Contract)
    requires Built(c) && (c.payloadStyle || forall i | 0 <= i < |Specs(c.signature)| :: Apart(Specs(c.signature)[i].annotation))
    ensures exists payload :: Delivered(payload) && ObjectAccepts(c.schema, payload)
  {
    var payload := Obj([]);
    if !c.payloadStyle {
      SpecsAreDistinct(c.signature);
      AcceptedValues(Specs(c.signature));
      var values :| Accepted(Specs(c.signature), values);
      payload := Filled(Specs(c.signature), values);
      FilledDelivers(Specs(c.signature), values);
      FilledIsAccepted(c.schema, Specs(c.signature), values);
    }
    assert Delivered(payload) && ObjectAccepts(c.schema, payload);
  }

  /** Beyond such unions the condition on annotations is sufficient. */
  lemma SchemaIsExactIfReliable(c: Contract)
    requires Built(c) && Callable(c.signature)
    requires c.payloadStyle || forall i | 0 <= i < |Specs(c.signature)| :: Reliable(Specs(c.signature)[i].annotation)
    ensures SchemaIsExact(c)
  {
    CallSucceedsIffCallable(c);
    SpecsAreDistinct(c.signature);
    forall payload | Delivered(payload)
      ensures ObjectAccepts(c.schema, payload) <==> Reaches(c, payload)
    {
      if !c.payloadStyle {
        SchemaAcceptsIffBound(c.schema, Specs(c.signature), payload);
      }
    }
  }

  const X: Parameter := Parameter("x", IntType, None, PositionalOnly)

  const ONE_X: Contract := Contract([X], false, ObjectSchema(map["x" := ToSchema(IntType)], ["x"], true))

  lemma OneXIsBuilt()
    ensures Built(ONE_X) && Specs(ONE_X.signature) == [X] && !Callable(ONE_X.signature)
  {
    assert [X][0] == X;
    assert RequiredNames([X]) == ["x"] + RequiredNames([]);
    assert IsName([X], "x");
  }

  /** One positional-only parameter: its annotation is exact, the schema accepts a payload, the payload can be bound, and the call breaks. */
  lemma PositionalOnlyParts()
    ensures var payload := Obj([Entry("x", Int(1))]);
            && Built(ONE_X) && Exact(IntType) && Delivered(payload) && ObjectAccepts(ONE_X.schema, payload)
            && BindsAll(Specs(ONE_X.signature), payload) && !Callable(ONE_X.signature) && !Reaches(ONE_X, payload)
  {
    OneXIsBuilt();
    CallSucceedsIffCallable(ONE_X);
    FilledDelivers([X], [Int(1)]);
    FilledIsAccepted(ONE_X.schema, [X], [Int(1)]);
    assert Filled([X], [Int(1)]) == Obj([Entry("x", Int(1))]);
  }

  /** A required payload beside a context breaks the call as well; where it has a default, the payload arrives as the context. */
  lemma PayloadTakesContextsPlace(c: Contract, payload: Value)
    requires Built(c) && c.payloadStyle && AcceptsContext(c.signature) && payload.Obj?
    requires Positional(c.signature[0]) && Positional(c.signature[1])
    ensures Reaches(c, payload) <==> c.signature[1].default.Some?
    ensures Received(c.signature, [Given(payload)], map[], 0) == Some(Given(payload))
    ensures Received(c.signature, [Given(payload)], map[], 1) == None
  {
    CallSucceedsIffCallable(c);
    assert Specs(c.signature)[0] == c.signature[1];
  }

  /** A typed call delivers: the context by position, and to every other parameter the value bound to its name. */
  lemma TypedCallDelivers(c: Contract, keywords: map<string, Argument>, i: nat)
    requires Built(c) && !c.payloadStyle && Callable(c.signature) && i < |c.signature|
    requires keywords.Keys == Keywords(c)
    ensures var positional := if AcceptsContext(c.signature) then [Context] else [];
            var got := Received(c.signature, positional, keywords, i);
            if AcceptsContext(c.signature) && i == 0
            then c.signature[0].kind.VarPositional? || got == Some(Context)
            else c.signature[i].name in keywords && got == Some(keywords[c.signature[i].name])
  {
    var s := c.signature;
    if !AcceptsContext(s) || i > 0 {
      var k := if AcceptsContext(s) then i - 1 else i;
      assert Specs(s)[k] == s[i];
      KeywordFit(c, k);
    }
  }
}
