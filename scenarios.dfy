/** The concrete schema and scenarios of the library's tests (mod_test.ts). */
module Scenarios {
  import opened FlagTypes
  import opened Resolver
  import opened Store

  /** devTools: false|true; migrateDatabase: read-only false|true; max: 2|4. */
  function TestSchema(): (schema: Schema)
    ensures schema.WellFormed()
  {
    Schema(["devTools", "migrateDatabase", "max"],
           map["devTools" := FlagDefinition(false, [Bool(false), Bool(true)]),
               "migrateDatabase" := FlagDefinition(true, [Bool(false), Bool(true)]),
               "max" := FlagDefinition(false, [Num(2), Num(4)])])
  }

  /** Defaults for the "dev" and "preview" environments; none for "prod". */
  function TestDefaults(): map<string, Defaults> {
    map["dev" := map["migrateDatabase" := Bool(true), "devTools" := Bool(true), "max" := Num(4)],
        "preview" := map["devTools" := Bool(true)]]
  }

  /** The override source of the overrides test. */
  function TestOverrides(flag: string): Unknown {
    if flag == "max" then Value(Num(4))
    else if flag == "migrateDatabase" then Value(Bool(true))
    else if flag == "devTools" then Value(Bool(true))
    else Undefined
  }

  /** The store resolved for an environment with the test defaults. */
  function InitialStore(environment: string, overrides: Option<Overrides>): map<string, FlagValue> {
    ComputeStore(TestSchema(), SelectDefaults(Some(TestDefaults()), environment), overrides)
  }

  /** A store equals a given map when it has the same flags and each flag
      resolves to the given value. */
  lemma StoreIs(schema: Schema, defaults: Option<Defaults>, overrides: Option<Overrides>, expected: map<string, FlagValue>)
    requires schema.WellFormed()
    requires forall k :: k in expected <==> k in schema.definitions
    requires forall k :: k in expected ==> ComputeValue(schema, k, defaults, overrides, None, None) == expected[k]
    ensures ComputeStore(schema, defaults, overrides) == expected
  {
  }

  /** "prod" has no defaults entry, so every flag takes its first option. */
  lemma ProdStore()
    ensures InitialStore("prod", None) == map["devTools" := Bool(false), "migrateDatabase" := Bool(false), "max" := Num(2)]
  {
    var schema := TestSchema();
    assert SelectDefaults(Some(TestDefaults()), "prod") == None;
    Fallback(schema, "devTools");
    Fallback(schema, "migrateDatabase");
    Fallback(schema, "max");
    StoreIs(schema, None, None, map["devTools" := Bool(false), "migrateDatabase" := Bool(false), "max" := Num(2)]);
  }

  /** "dev" sets every flag, the read-only one included. */
  lemma DevStore()
    ensures InitialStore("dev", None) == map["devTools" := Bool(true), "migrateDatabase" := Bool(true), "max" := Num(4)]
  {
    var schema := TestSchema();
    var d := SelectDefaults(Some(TestDefaults()), "dev");
    assert d == Some(map["migrateDatabase" := Bool(true), "devTools" := Bool(true), "max" := Num(4)]);
    assert DefaultCandidate(schema, "devTools", d) == Some(Bool(true));
    assert DefaultCandidate(schema, "migrateDatabase", d) == Some(Bool(true));
    assert DefaultCandidate(schema, "max", d) == Some(Num(4));
    StoreIs(schema, d, None, map["devTools" := Bool(true), "migrateDatabase" := Bool(true), "max" := Num(4)]);
  }

  /** "preview" sets only devTools; the others fall back to their first option. */
  lemma PreviewStore()
    ensures InitialStore("preview", None) == map["devTools" := Bool(true), "migrateDatabase" := Bool(false), "max" := Num(2)]
  {
    var schema := TestSchema();
    var d := SelectDefaults(Some(TestDefaults()), "preview");
    assert d == Some(map["devTools" := Bool(true)]);
    assert DefaultCandidate(schema, "devTools", d) == Some(Bool(true));
    assert DefaultCandidate(schema, "migrateDatabase", d) == None;
    assert DefaultCandidate(schema, "max", d) == None;
    StoreIs(schema, d, None, map["devTools" := Bool(true), "migrateDatabase" := Bool(false), "max" := Num(2)]);
  }

  /** On "prod" the override source sets max and devTools but not the
      read-only migrateDatabase. */
  lemma OverriddenProdStore()
    ensures InitialStore("prod", Some(TestOverrides)) ==
            map["devTools" := Bool(true), "migrateDatabase" := Bool(false), "max" := Num(4)]
  {
    var schema := TestSchema();
    var o := Some(TestOverrides);
    assert SelectDefaults(Some(TestDefaults()), "prod") == None;
    assert OverrideCandidate(schema, "devTools", o) == Some(Bool(true));
    assert OverrideCandidate(schema, "migrateDatabase", o) == None;
    assert OverrideCandidate(schema, "max", o) == Some(Num(4));
    StoreIs(schema, None, o, map["devTools" := Bool(true), "migrateDatabase" := Bool(false), "max" := Num(4)]);
  }

  /** The updating test: on "prod", enabling devTools commits and reads back;
      setting migrateDatabase throws and leaves it false. */
  method UpdatingScenario() returns (enable: Outcome, devTools: FlagValue, migrate: Outcome, migrateDatabase: FlagValue)
    ensures enable == Pass
    ensures devTools == Bool(true)
    ensures migrate == Fail(TrapReturnedFalsish("migrateDatabase"))
    ensures migrateDatabase == Bool(false)
  {
    enable, devTools, migrate, migrateDatabase := UpdatingRun(TestSchema(), Some(TestDefaults()));
  }

  /** The updating test on a "prod" instance of any schema whose devTools and
      migrateDatabase flags are those of the test schema, with defaults that
      have no "prod" entry. */
  method UpdatingRun(schema: Schema, defaults: Option<map<string, Defaults>>)
    returns (enable: Outcome, devTools: FlagValue, migrate: Outcome, migrateDatabase: FlagValue)
    requires schema.WellFormed()
    requires "devTools" in schema.definitions && schema.definitions["devTools"] == FlagDefinition(false, [Bool(false), Bool(true)])
    requires "migrateDatabase" in schema.definitions
    requires schema.definitions["migrateDatabase"] == FlagDefinition(true, [Bool(false), Bool(true)])
    requires SelectDefaults(defaults, "prod") == None
    ensures enable == Pass
    ensures devTools == Bool(true)
    ensures migrate == Fail(TrapReturnedFalsish("migrateDatabase"))
    ensures migrateDatabase == Bool(false)
  {
    var prod := new FeatureFlags(schema, "prod", defaults, None, None);
    Fallback(schema, "migrateDatabase");
    enable := prod.Set("devTools", Bool(true));
    devTools := prod.Get("devTools");
    migrate := prod.Set("migrateDatabase", Bool(true));
    migrateDatabase := prod.Get("migrateDatabase");
  }

  /** The subscriptions test: a constructor subscriber (0) and a later one (1)
      each receive the four committed writes, in order. */
  method SubscriptionScenario() returns (first: seq<(string, FlagValue)>, second: seq<(string, FlagValue)>)
    ensures first == second == [("max", Num(4)), ("devTools", Bool(true)), ("max", Num(2)), ("devTools", Bool(false))]
  {
    first, second := SubscriptionRun(TestSchema(), Some(TestDefaults()));
  }

  /** The writes of the subscriptions test on a "prod" instance of any schema
      whose devTools and max flags are those of the test schema. */
  method SubscriptionRun(schema: Schema, defaults: Option<map<string, Defaults>>)
    returns (first: seq<(string, FlagValue)>, second: seq<(string, FlagValue)>)
    requires schema.WellFormed()
    requires "devTools" in schema.definitions && schema.definitions["devTools"] == FlagDefinition(false, [Bool(false), Bool(true)])
    requires "max" in schema.definitions && schema.definitions["max"] == FlagDefinition(false, [Num(2), Num(4)])
    ensures first == second == [("max", Num(4)), ("devTools", Bool(true)), ("max", Num(2)), ("devTools", Bool(false))]
  {
    var prod := WithTwoSubscribers(schema, defaults);
    ghost var log := WriteMaxThenDevTools(prod, Num(4), Bool(true), []);
    log := WriteMaxThenDevTools(prod, Num(2), Bool(false), log);
    first, second := Received(prod.trace, 0), Received(prod.trace, 1);
  }

  /** A "prod" instance with subscriber 0 from the constructor, then
      subscriber 1, before any write. */
  method WithTwoSubscribers(schema: Schema, defaults: Option<map<string, Defaults>>) returns (prod: FeatureFlags)
    requires schema.WellFormed()
    ensures fresh(prod) && prod.Valid() && prod.schema == schema && prod.subscriptions == [0, 1]
    ensures Received(prod.trace, 0) == Received(prod.trace, 1) == []
  {
    prod := new FeatureFlags(schema, "prod", defaults, None, Some(0));
    prod.Subscribe(1);
  }

  /** Two steps of the subscriptions test: a write to max, then one to devTools. */
  method WriteMaxThenDevTools(prod: FeatureFlags, max: FlagValue, devTools: FlagValue, ghost received: seq<(string, FlagValue)>)
    returns (ghost now: seq<(string, FlagValue)>)
    requires prod.Valid() && prod.subscriptions == [0, 1]
    requires "max" in prod.schema.definitions && prod.schema.definitions["max"] == FlagDefinition(false, [Num(2), Num(4)])
    requires "devTools" in prod.schema.definitions && prod.schema.definitions["devTools"] == FlagDefinition(false, [Bool(false), Bool(true)])
    requires max in [Num(2), Num(4)] && devTools in [Bool(false), Bool(true)]
    requires Received(prod.trace, 0) == Received(prod.trace, 1) == received
    modifies prod
    ensures prod.Valid() && prod.subscriptions == [0, 1]
    ensures now == received + [("max", max), ("devTools", devTools)]
    ensures Received(prod.trace, 0) == Received(prod.trace, 1) == now
  {
    now := WriteReaches(prod, "max", max, received);
    now := WriteReaches(prod, "devTools", devTools, now);
  }

  /** One step of the subscriptions test: a valid write to a writable flag
      reaches both subscribers. */
  method WriteReaches(prod: FeatureFlags, flag: string, value: FlagValue, ghost received: seq<(string, FlagValue)>)
    returns (ghost now: seq<(string, FlagValue)>)
    requires prod.Valid() && prod.subscriptions == [0, 1]
    requires flag in prod.schema.definitions && !prod.schema.definitions[flag].readonly
    requires value in prod.schema.definitions[flag].options
    requires Received(prod.trace, 0) == Received(prod.trace, 1) == received
    modifies prod
    ensures prod.Valid() && prod.subscriptions == [0, 1]
    ensures now == received + [(flag, value)]
    ensures Received(prod.trace, 0) == Received(prod.trace, 1) == now
  {
    ghost var before := prod.trace;
    var outcome := prod.Set(flag, value);
    ReceivedAfterWrite(before, [0, 1], flag, value, prod.store, 0);
    ReceivedAfterWrite(before, [0, 1], flag, value, prod.store, 1);
    assert multiset([0, 1])[0] == 1 && multiset([0, 1])[1] == 1;
    now := received + [(flag, value)];
  }
}
