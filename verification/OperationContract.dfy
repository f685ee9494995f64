/** The parameters of a typed operation: the schema compiled from them, and the payload bound to them. */
module OperationContract {
  import opened Outcomes
  import opened OperationSchema
  import opened SchemaAgreement
  import opened SchemaUnions
  import opened Sequences

  /** The kinds of parameters, in the order in which a signature lists them. */
  datatype ParameterKind = PositionalOnly | Ordinary | VarPositional | KeywordOnly | VarKeyword

  datatype Parameter = Parameter(name: string, annotation: Annotation, default: Option<Value>, kind: ParameterKind)

  /** `*args` and `**kwargs` */
  predicate Variadic(p: Parameter)
  {
    p.kind.VarPositional? || p.kind.VarKeyword?
  }

  /** The object schema of an operation: `closed` is `additionalProperties: false`. */
  datatype ObjectSchema = ObjectSchema(properties: map<string, Schema>, required: seq<string>, closed: bool)

  /** Parameter names are distinct, as the language demands of any signature. */
  ghost predicate DistinctNames(parameters: seq<Parameter>)
  {
    forall i, j | 0 <= i < j < |parameters| :: parameters[i].name != parameters[j].name
  }

  predicate IsName(parameters: seq<Parameter>, name: string)
  {
    exists i :: 0 <= i < |parameters| && parameters[i].name == name
  }

  /** `_is_payload_style_signature` */
  predicate IsPayloadStyle(parameters: seq<Parameter>)
  {
    && |parameters| == 1
    && parameters[0].name in {"payload", "input_payload"}
    && (parameters[0].annotation.AnyType? || parameters[0].annotation.BareDict? || parameters[0].annotation.DictOf?)
  }

  function RequiredNames(parameters: seq<Parameter>): seq<string>
  {
    if parameters == [] then [] else
      (if parameters[0].default.None? then [parameters[0].name] else []) + RequiredNames(parameters[1..])
  }

  /** The schema of a typed signature: every parameter a property, those without default required, nothing else allowed. */
  ghost predicate Describes(schema: ObjectSchema, parameters: seq<Parameter>)
  {
    && (forall k :: k in schema.properties <==> IsName(parameters, k))
    && (forall i | 0 <= i < |parameters| ::
          parameters[i].name in schema.properties && schema.properties[parameters[i].name] == ToSchema(parameters[i].annotation))
    && schema.required == RequiredNames(parameters)
    && schema.closed
  }

  lemma RequiredNamesStep(parameters: seq<Parameter>, i: nat, required: seq<string>)
    requires i < |parameters|
    ensures var now := if parameters[i].default.None? then required + [parameters[i].name] else required;
            now + RequiredNames(parameters[i + 1..]) == required + RequiredNames(parameters[i..])
  {
    assert parameters[i..][1..] == parameters[i + 1..];
    if parameters[i].default.None? {
      Associate(required, [parameters[i].name], RequiredNames(parameters[i + 1..]));
    } else {
      assert [] + RequiredNames(parameters[i + 1..]) == RequiredNames(parameters[i + 1..]);
    }
  }

  predicate HasVariadic(parameters: seq<Parameter>)
  {
    exists i :: 0 <= i < |parameters| && Variadic(parameters[i])
  }

  function NamesOf(parameters: seq<Parameter>, n: nat): set<string>
    requires n <= |parameters|
  {
    set j | 0 <= j < n :: parameters[j].name
  }

  /** The properties compiled from the first `n` parameters. */
  ghost predicate Compiled(parameters: seq<Parameter>, n: nat, properties: map<string, Schema>)
    requires n <= |parameters|
  {
    && properties.Keys == NamesOf(parameters, n)
    && forall j | 0 <= j < n && parameters[j].name in properties ::
         properties[parameters[j].name] == ToSchema(parameters[j].annotation)
  }

  lemma CompiledStep(parameters: seq<Parameter>, i: nat, properties: map<string, Schema>)
    requires DistinctNames(parameters) && i < |parameters| && Compiled(parameters, i, properties)
    ensures Compiled(parameters, i + 1, properties[parameters[i].name := ToSchema(parameters[i].annotation)])
  {
    assert NamesOf(parameters, i + 1) == NamesOf(parameters, i) + {parameters[i].name};
  }

  lemma CompiledDescribes(parameters: seq<Parameter>, properties: map<string, Schema>, required: seq<string>)
    requires Compiled(parameters, |parameters|, properties) && required == RequiredNames(parameters)
    ensures Describes(ObjectSchema(properties, required, true), parameters)
  {
    forall i | 0 <= i < |parameters|
      ensures parameters[i].name in properties
    {
      assert parameters[i].name in NamesOf(parameters, |parameters|);
    }
  }

  /** The loop of `build_operation_contract`; `ValueError` stands for the `TypeError` of a variadic signature. */
  method CompileParameters(parameters: seq<Parameter>) returns (r: Result<ObjectSchema>)
    requires DistinctNames(parameters)
    ensures if HasVariadic(parameters) then r == Err(ValueError) else r.Ok? && Describes(r.value, parameters)
  {
    var properties: map<string, Schema> := map[];
    var required: seq<string> := [];
    for i := 0 to |parameters|
      invariant forall j | 0 <= j < i :: !Variadic(parameters[j])
      invariant Compiled(parameters, i, properties)
      invariant required + RequiredNames(parameters[i..]) == RequiredNames(parameters)
    {
      var parameter := parameters[i];
      if Variadic(parameter) {
        return Err(ValueError);
      }
      CompiledStep(parameters, i, properties);
      properties := properties[parameter.name := ToSchema(parameter.annotation)];
      RequiredNamesStep(parameters, i, required);
      if parameter.default.None? {
        required := required + [parameter.name];
      }
    }
    CompiledDescribes(parameters, properties, required);
    r := Ok(ObjectSchema(properties, required, true));
  }

  predicate HasKey(entries: seq<Entry>, key: string)
  {
    exists i :: 0 <= i < |entries| && entries[i].key == key
  }

  /** A dict has each key once. */
  ghost predicate DistinctKeys(entries: seq<Entry>)
  {
    forall i, j | 0 <= i < j < |entries| :: entries[i].key != entries[j].key
  }

  function ValueAt(entries: seq<Entry>, key: string): Value
    requires HasKey(entries, key)
  {
    if entries[0].key == key then entries[0].value else
      assert HasKey(entries[1..], key) by {
        var i :| 0 <= i < |entries| && entries[i].key == key;
        assert entries[1..][i - 1].key == key;
      }
      ValueAt(entries[1..], key)
  }

  lemma {:induction false} ValueAtEntry(entries: seq<Entry>, i: nat)
    requires DistinctKeys(entries) && i < |entries|
    ensures HasKey(entries, entries[i].key) && ValueAt(entries, entries[i].key) == entries[i].value
  {
    if i > 0 {
      assert entries[0].key != entries[i].key;
      assert entries[1..][i - 1] == entries[i];
      ValueAtEntry(entries[1..], i - 1);
    }
  }

  /** Validation of the object keywords (sections 6.5.3 of JSON Schema Validation and 10.3.2 of JSON Schema Core 2020-12). */
  ghost predicate ObjectAccepts(schema: ObjectSchema, payload: Value)
  {
    && payload.Obj?
    && (forall k | k in schema.required :: HasKey(payload.entries, k))
    && (forall i | 0 <= i < |payload.entries| ::
          if payload.entries[i].key in schema.properties
          then Accepts(schema.properties[payload.entries[i].key], payload.entries[i].value)
          else !schema.closed)
  }

  /** What binding a payload comes to: the arguments, a refusal, or the matcher raising. */
  datatype Binding = Bound(arguments: map<string, Value>) | Refused | Raises

  /** Parameter `p` can be bound from the payload. */
  predicate Binds(p: Parameter, entries: seq<Entry>)
  {
    if HasKey(entries, p.name) then Matches(ValueAt(entries, p.name), p.annotation).Yes? else p.default.Some?
  }

  function BoundValue(p: Parameter, entries: seq<Entry>): Value
    requires Binds(p, entries)
  {
    if HasKey(entries, p.name) then ValueAt(entries, p.name) else p.default.value
  }

  /** No payload key falls outside the parameters. */
  ghost predicate NothingUnexpected(specs: seq<Parameter>, entries: seq<Entry>)
  {
    forall i | 0 <= i < |entries| :: IsName(specs, entries[i].key)
  }

  method KnownKeysOnly(specs: seq<Parameter>, entries: seq<Entry>) returns (ok: bool)
    ensures ok <==> NothingUnexpected(specs, entries)
  {
    for i := 0 to |entries|
      invariant forall k | 0 <= k < i :: IsName(specs, entries[k].key)
    {
      if !IsName(specs, entries[i].key) {
        return false;
      }
    }
    ok := true;
  }

  /** The part of `invoke` that builds the keyword arguments: they exist exactly if every parameter binds, and are the bound values. */
  method BindArguments(specs: seq<Parameter>, payload: Value) returns (r: Binding)
    requires DistinctNames(specs)
    ensures r.Bound? <==> BindsAll(specs, payload)
    ensures r.Bound? ==> BoundTo(specs, payload, r.arguments) && GivenOrDefault(specs, payload.entries, r.arguments)
  {
    if !payload.Obj? {
      return Refused;
    }
    var known := KnownKeysOnly(specs, payload.entries);
    if !known {
      return Refused;
    }
    var arguments: map<string, Value> := map[];
    for i := 0 to |specs|
      invariant forall j | 0 <= j < i :: Binds(specs[j], payload.entries)
      invariant forall k :: k in arguments <==> exists j :: 0 <= j < i && specs[j].name == k
      invariant forall j | 0 <= j < i :: specs[j].name in arguments && arguments[specs[j].name] == BoundValue(specs[j], payload.entries)
    {
      var spec := specs[i];
      if !HasKey(payload.entries, spec.name) {
        if spec.default.None? {
          return Refused;
        }
        arguments := arguments[spec.name := spec.default.value];
        continue;
      }
      var value := ValueAt(payload.entries, spec.name);
      var verdict := Matches(value, spec.annotation);
      if !verdict.Yes? {
        return if verdict.Crash? then Raises else Refused;
      }
      arguments := arguments[spec.name := value];
    }
    BoundIsGiven(specs, payload, arguments);
    r := Bound(arguments);
  }

  /** The arguments are named like the parameters, and are what the payload or else the default gives each. */
  ghost predicate BoundTo(specs: seq<Parameter>, payload: Value, arguments: map<string, Value>)
    requires BindsAll(specs, payload)
  {
    && (forall k :: k in arguments <==> IsName(specs, k))
    && (forall i | 0 <= i < |specs| :: specs[i].name in arguments && arguments[specs[i].name] == BoundValue(specs[i], payload.entries))
  }

  /** In plain terms: every argument is what the payload has under its name, or the default if there is nothing. */
  ghost predicate GivenOrDefault(specs: seq<Parameter>, entries: seq<Entry>, arguments: map<string, Value>)
  {
    && (DistinctKeys(entries) ==> forall i, j | 0 <= i < |specs| && 0 <= j < |entries| && entries[j].key == specs[i].name ::
          specs[i].name in arguments && arguments[specs[i].name] == entries[j].value)
    && (forall i | 0 <= i < |specs| && (forall j | 0 <= j < |entries| :: entries[j].key != specs[i].name) ::
          specs[i].name in arguments && specs[i].default == Some(arguments[specs[i].name]))
  }

  lemma BoundIsGiven(specs: seq<Parameter>, payload: Value, arguments: map<string, Value>)
    requires BindsAll(specs, payload) && BoundTo(specs, payload, arguments)
    ensures GivenOrDefault(specs, payload.entries, arguments)
  {
    var entries := payload.entries;
    forall i, j | DistinctKeys(entries) && 0 <= i < |specs| && 0 <= j < |entries| && entries[j].key == specs[i].name
      ensures arguments[specs[i].name] == entries[j].value
    {
      ValueAtEntry(entries, j);
      assert HasKey(entries, specs[i].name);
    }
  }

  lemma {:induction false} RequiredAre(parameters: seq<Parameter>, k: string)
    ensures k in RequiredNames(parameters) <==> exists i :: 0 <= i < |parameters| && parameters[i].name == k && parameters[i].default.None?
  {
    if parameters != [] {
      RequiredAre(parameters[1..], k);
      assert forall i | 1 <= i < |parameters| :: parameters[i] == parameters[1..][i - 1];
      if exists i :: 0 <= i < |parameters| && parameters[i].name == k && parameters[i].default.None? {
        var i :| 0 <= i < |parameters| && parameters[i].name == k && parameters[i].default.None?;
        assert i > 0 ==> parameters[1..][i - 1].name == k;
      }
    }
  }

  /** The payload can be bound: the condition `BindArguments` meets. */
  ghost predicate BindsAll(specs: seq<Parameter>, payload: Value)
  {
    && payload.Obj?
    && NothingUnexpected(specs, payload.entries)
    && forall i | 0 <= i < |specs| :: Binds(specs[i], payload.entries)
  }

  /** Compiler and matcher agree on the annotation: by the sufficient condition for any unions, or the exact one for unions apart. */
  predicate Reliable(a: Annotation)
  {
    Faithful(a) || (Apart(a) && Exact(a))
  }

  lemma ReliableAgrees(a: Annotation, v: Value)
    requires Reliable(a) && Normal(v)
    ensures AgreeOn(a, v)
  {
    if Faithful(a) {
      FaithfulAgrees(a, v);
    } else {
      ExactAgrees(a, v);
    }
  }

  lemma AcceptedBinds(schema: ObjectSchema, specs: seq<Parameter>, payload: Value, i: nat)
    requires DistinctNames(specs) && Describes(schema, specs) && i < |specs|
    requires payload.Obj? && DistinctKeys(payload.entries) && Normal(payload)
    requires Reliable(specs[i].annotation)
    requires ObjectAccepts(schema, payload)
    ensures Binds(specs[i], payload.entries)
  {
    var p := specs[i];
    if HasKey(payload.entries, p.name) {
      var j :| 0 <= j < |payload.entries| && payload.entries[j].key == p.name;
      ValueAtEntry(payload.entries, j);
      ReliableAgrees(p.annotation, payload.entries[j].value);
    } else {
      RequiredAre(specs, p.name);
    }
  }

  lemma BoundIsAccepted(schema: ObjectSchema, specs: seq<Parameter>, payload: Value)
    requires DistinctNames(specs) && Describes(schema, specs)
    requires payload.Obj? && DistinctKeys(payload.entries) && Normal(payload)
    requires forall i | 0 <= i < |specs| :: Reliable(specs[i].annotation)
    requires BindsAll(specs, payload)
    ensures ObjectAccepts(schema, payload)
  {
    forall k | k in schema.required
      ensures HasKey(payload.entries, k)
    {
      RequiredAre(specs, k);
      var i :| 0 <= i < |specs| && specs[i].name == k && specs[i].default.None?;
      assert Binds(specs[i], payload.entries);
    }
    forall j | 0 <= j < |payload.entries|
      ensures payload.entries[j].key in schema.properties
      ensures Accepts(schema.properties[payload.entries[j].key], payload.entries[j].value)
    {
      assert IsName(specs, payload.entries[j].key);
      var i :| 0 <= i < |specs| && specs[i].name == payload.entries[j].key;
      assert Binds(specs[i], payload.entries);
      ValueAtEntry(payload.entries, j);
      ReliableAgrees(specs[i].annotation, payload.entries[j].value);
    }
  }

  /** A payload as JSON delivers it: an object has each key once, and integral numbers are integers. */
  ghost predicate Delivered(payload: Value)
  {
    Normal(payload) && (payload.Obj? ==> DistinctKeys(payload.entries))
  }

  /** The compiled schema accepts a payload if and only if it can be bound. */
  lemma SchemaAcceptsIffBound(schema: ObjectSchema, specs: seq<Parameter>, payload: Value)
    requires DistinctNames(specs) && Describes(schema, specs)
    requires forall i | 0 <= i < |specs| :: Reliable(specs[i].annotation)
    requires Delivered(payload)
    ensures ObjectAccepts(schema, payload) <==> BindsAll(specs, payload)
  {
    if ObjectAccepts(schema, payload) {
      forall i | 0 <= i < |specs|
        ensures Binds(specs[i], payload.entries)
      {
        AcceptedBinds(schema, specs, payload, i);
      }
      assert NothingUnexpected(specs, payload.entries);
    }
    if BindsAll(specs, payload) {
      BoundIsAccepted(schema, specs, payload);
    }
  }

  /** One value for each parameter, each accepted by its schema. */
  ghost predicate Accepted(specs: seq<Parameter>, values: seq<Value>)
  {
    |values| == |specs| && forall i | 0 <= i < |specs| :: Normal(values[i]) && Accepts(ToSchema(specs[i].annotation), values[i])
  }

  lemma AcceptedCons(specs: seq<Parameter>, v: Value, rest: seq<Value>)
    requires specs != [] && Accepted(specs[1..], rest) && Normal(v) && Accepts(ToSchema(specs[0].annotation), v)
    ensures Accepted(specs, [v] + rest)
  {
    forall i | 1 <= i < |specs|
      ensures Normal(([v] + rest)[i]) && Accepts(ToSchema(specs[i].annotation), ([v] + rest)[i])
    {
      assert specs[i] == specs[1..][i - 1] && ([v] + rest)[i] == rest[i - 1];
    }
  }

  lemma {:induction false} AcceptedValues(specs: seq<Parameter>)
    requires forall i | 0 <= i < |specs| :: Apart(specs[i].annotation)
    ensures exists values :: Accepted(specs, values)
  {
    if specs == [] {
      assert Accepted(specs, []);
    } else {
      SampleExists(specs[0].annotation);
      var v :| Normal(v) && Accepts(ToSchema(specs[0].annotation), v);
      AcceptedValues(specs[1..]);
      var rest :| Accepted(specs[1..], rest);
      AcceptedCons(specs, v, rest);
    }
  }

  /** The payload that names every parameter. */
  function Filled(specs: seq<Parameter>, values: seq<Value>): Value
    requires |values| == |specs|
  {
    Obj(seq(|specs|, i requires 0 <= i < |specs| => Entry(specs[i].name, values[i])))
  }

  lemma FilledDelivers(specs: seq<Parameter>, values: seq<Value>)
    requires DistinctNames(specs) && |values| == |specs| && forall i | 0 <= i < |specs| :: Normal(values[i])
    ensures Delivered(Filled(specs, values))
    ensures NothingUnexpected(specs, Filled(specs, values).entries)
    ensures forall i | 0 <= i < |specs| ::
              HasKey(Filled(specs, values).entries, specs[i].name) && ValueAt(Filled(specs, values).entries, specs[i].name) == values[i]
  {
    var entries := Filled(specs, values).entries;
    forall i | 0 <= i < |specs|
      ensures HasKey(entries, specs[i].name) && ValueAt(entries, specs[i].name) == values[i]
    {
      assert entries[i] == Entry(specs[i].name, values[i]);
      ValueAtEntry(entries, i);
    }
  }

  lemma EntriesAreAccepted(schema: ObjectSchema, specs: seq<Parameter>, entries: seq<Entry>, i: nat)
    requires Describes(schema, specs) && i < |specs| == |entries| && entries[i].key == specs[i].name
    ensures entries[i].key in schema.properties
    ensures Accepts(schema.properties[entries[i].key], entries[i].value) <==> Accepts(ToSchema(specs[i].annotation), entries[i].value)
  {
  }

  /** An object with exactly one entry for each parameter. */
  lemma NamedEntriesAccepted(schema: ObjectSchema, specs: seq<Parameter>, entries: seq<Entry>)
    requires Describes(schema, specs) && |entries| == |specs| && forall i | 0 <= i < |specs| :: entries[i].key == specs[i].name
    requires forall k | k in schema.required :: HasKey(entries, k)
    ensures ObjectAccepts(schema, Obj(entries)) <==> forall i | 0 <= i < |specs| :: Accepts(ToSchema(specs[i].annotation), entries[i].value)
  {
    forall i | 0 <= i < |specs|
      ensures entries[i].key in schema.properties
      ensures Accepts(schema.properties[entries[i].key], entries[i].value) <==> Accepts(ToSchema(specs[i].annotation), entries[i].value)
    {
      EntriesAreAccepted(schema, specs, entries, i);
    }
  }

  lemma FilledHasRequired(schema: ObjectSchema, specs: seq<Parameter>, values: seq<Value>, k: string)
    requires Describes(schema, specs) && |values| == |specs| && k in schema.required
    ensures HasKey(Filled(specs, values).entries, k)
  {
    RequiredAre(specs, k);
    var i :| 0 <= i < |specs| && specs[i].name == k;
    assert Filled(specs, values).entries[i].key == k;
  }

  lemma FilledIsAccepted(schema: ObjectSchema, specs: seq<Parameter>, values: seq<Value>)
    requires Describes(schema, specs) && |values| == |specs|
    ensures ObjectAccepts(schema, Filled(specs, values)) <==> forall i | 0 <= i < |specs| :: Accepts(ToSchema(specs[i].annotation), values[i])
  {
    forall k | k in schema.required
      ensures HasKey(Filled(specs, values).entries, k)
    {
      FilledHasRequired(schema, specs, values, k);
    }
    NamedEntriesAccepted(schema, specs, Filled(specs, values).entries);
  }

  /** The schema and the binding part on a filled payload where they part on one value, and on no other wrongly. */
  lemma FilledParts(schema: ObjectSchema, specs: seq<Parameter>, values: seq<Value>, i: nat)
    requires DistinctNames(specs) && Describes(schema, specs) && |values| == |specs| && i < |specs|
    requires forall j | 0 <= j < |specs| :: Normal(values[j])
    requires !AgreeOn(specs[i].annotation, values[i])
    requires forall j | 0 <= j < |specs| && j != i :: Accepts(ToSchema(specs[j].annotation), values[j])
    requires Matches(values[i], specs[i].annotation).Yes? ==>
               forall j | 0 <= j < |specs| && j != i :: Matches(values[j], specs[j].annotation).Yes?
    ensures var payload := Filled(specs, values);
            Delivered(payload) && !(ObjectAccepts(schema, payload) <==> BindsAll(specs, payload))
  {
    FilledDelivers(specs, values);
    FilledIsAccepted(schema, specs, values);
    var payload := Filled(specs, values);
    assert forall j | 0 <= j < |specs| :: Binds(specs[j], payload.entries) <==> Matches(values[j], specs[j].annotation).Yes?;
  }

  /** The matcher refuses, of some parameter, a value its schema accepts. */
  ghost predicate TooWide(specs: seq<Parameter>, i: nat, v: Value)
  {
    i < |specs| && Normal(v) && Accepts(ToSchema(specs[i].annotation), v) && !Matches(v, specs[i].annotation).Yes?
  }

  ghost predicate PartsOnPayload(schema: ObjectSchema, specs: seq<Parameter>, payload: Value)
  {
    Delivered(payload) && !(ObjectAccepts(schema, payload) <==> BindsAll(specs, payload))
  }

  lemma TooWideParts(schema: ObjectSchema, specs: seq<Parameter>, values: seq<Value>, i: nat, v: Value)
    requires DistinctNames(specs) && Describes(schema, specs) && Accepted(specs, values) && TooWide(specs, i, v)
    ensures PartsOnPayload(schema, specs, Filled(specs, values[i := v]))
  {
    FilledParts(schema, specs, values[i := v], i);
  }

  lemma TooNarrowParts(schema: ObjectSchema, specs: seq<Parameter>, values: seq<Value>, i: nat, w: Value)
    requires DistinctNames(specs) && Describes(schema, specs) && Accepted(specs, values)
    requires i < |specs| && Parts(specs[i].annotation, w)
    requires forall j: nat, v :: !TooWide(specs, j, v)
    ensures PartsOnPayload(schema, specs, Filled(specs, values[i := w]))
  {
    forall j | 0 <= j < |specs|
      ensures Matches(values[j], specs[j].annotation).Yes?
    {
      assert !TooWide(specs, j, values[j]);
    }
    FilledParts(schema, specs, values[i := w], i);
  }

  lemma InexactSchemaParts(schema: ObjectSchema, specs: seq<Parameter>, i: nat)
    requires DistinctNames(specs) && Describes(schema, specs) && i < |specs| && !Exact(specs[i].annotation)
    requires forall j | 0 <= j < |specs| :: Apart(specs[j].annotation)
    ensures exists payload :: PartsOnPayload(schema, specs, payload)
  {
    AcceptedValues(specs);
    var values :| Accepted(specs, values);
    InexactParts(specs[i].annotation);
    var w :| Parts(specs[i].annotation, w);
    if j: nat, v :| TooWide(specs, j, v) {
      TooWideParts(schema, specs, values, j, v);
    } else {
      TooNarrowParts(schema, specs, values, i, w);
    }
  }

  /**
   For parameters whose unions are apart, the compiled schema accepts exactly the payloads that can
   be bound if and only if every parameter's annotation is exact.
   */
  lemma SchemaIsExactIffAnnotationsAre(schema: ObjectSchema, specs: seq<Parameter>)
    requires DistinctNames(specs) && Describes(schema, specs)
    requires forall i | 0 <= i < |specs| :: Apart(specs[i].annotation)
    ensures (forall payload | Delivered(payload) :: ObjectAccepts(schema, payload) <==> BindsAll(specs, payload))
            <==> forall i | 0 <= i < |specs| :: Exact(specs[i].annotation)
  {
    if forall i | 0 <= i < |specs| :: Exact(specs[i].annotation) {
      forall payload | Delivered(payload)
        ensures ObjectAccepts(schema, payload) <==> BindsAll(specs, payload)
      {
        SchemaAcceptsIffBound(schema, specs, payload);
      }
    } else {
      var i :| 0 <= i < |specs| && !Exact(specs[i].annotation);
      InexactSchemaParts(schema, specs, i);
      var payload :| PartsOnPayload(schema, specs, payload);
    }
  }
}
