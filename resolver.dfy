/** The value resolver: the static members of `FeatureFlags` (mod.ts:67-149).
    Everything here is a pure function of its arguments. */
module Resolver {
  import opened FlagTypes

  /** The defaults of one environment: a partial map from flag to value. */
  type Defaults = map<string, FlagValue>

  /** An override source, fixed for the duration of a call. */
  type Overrides = string -> Unknown

  /** `isValidValue`: the value is a string, a number or a boolean. */
  function IsValidValue(v: Unknown): (ok: bool)
    ensures ok <==> !(v.Undefined? || v.Null? || v.Other?)
  {
    v.Value?
  }

  /** `computeOverride`: nothing for a read-only flag or a missing source;
      otherwise what the source returns for the flag, if it has a flag type. */
  function ComputeOverride(schema: Schema, flag: string, overrides: Option<Overrides>): (r: Option<FlagValue>)
    requires flag in schema.definitions
    ensures r.Some? <==> !schema.definitions[flag].readonly && overrides.Some? && IsValidValue(overrides.value(flag))
    ensures r.Some? ==> overrides.Some? && overrides.value(flag) == Value(r.value)
  {
    if schema.definitions[flag].readonly then None
    else
      var value := if overrides.Some? then overrides.value(flag) else Undefined;
      if !IsValidValue(value) then None else Some(value.value)
  }

  /** The candidate filter inside `computeValue`: a candidate survives only
      if it is one of the flag's options. */
  function Filter(flag: FlagDefinition, candidate: Option<FlagValue>): Option<FlagValue> {
    if candidate.Some? && candidate.value in flag.options then candidate else None
  }

  /** `defaults?.[flag]` */
  function Lookup(defaults: Option<Defaults>, flag: string): Option<FlagValue> {
    if defaults.Some? && flag in defaults.value then Some(defaults.value[flag]) else None
  }

  /** The manual candidate after filtering; a read-only flag has none. */
  function ManualCandidate(schema: Schema, flag: string, manual: Option<FlagValue>): Option<FlagValue>
    requires flag in schema.definitions
  {
    var definition := schema.definitions[flag];
    Filter(definition, if !definition.readonly then manual else None)
  }

  /** The override candidate after filtering. */
  function OverrideCandidate(schema: Schema, flag: string, overrides: Option<Overrides>): Option<FlagValue>
    requires flag in schema.definitions
  {
    Filter(schema.definitions[flag], ComputeOverride(schema, flag, overrides))
  }

  /** The environment-default candidate after filtering. */
  function DefaultCandidate(schema: Schema, flag: string, defaults: Option<Defaults>): Option<FlagValue>
    requires flag in schema.definitions
  {
    Filter(schema.definitions[flag], Lookup(defaults, flag))
  }

  /** `computeValue`: manual ?? override ?? default ?? current ?? options[0].
      Every source except `current` is filtered, so the result is one of the
      flag's options unless it is the unfiltered current value. */
  function ComputeValue(schema: Schema, flag: string, defaults: Option<Defaults>, overrides: Option<Overrides>,
                        current: Option<FlagValue>, manual: Option<FlagValue>): (r: FlagValue)
    requires flag in schema.definitions
    ensures r in schema.definitions[flag].options || current == Some(r)
  {
    var vSchema := schema.definitions[flag].options[0];
    var vDefault := DefaultCandidate(schema, flag, defaults);
    var vOverride := OverrideCandidate(schema, flag, overrides);
    var vManual := ManualCandidate(schema, flag, manual);
    vManual.OrElse(vOverride.OrElse(vDefault.OrElse(current))).GetOr(vSchema)
  }

  /** `listOptionsFromSchema`: the schema's flag names in key order. That each
      key is listed once is what `Object.keys` guarantees; here it is the
      schema representation's own invariant (`WellFormed`), which the result
      carries over, not something this function establishes. */
  function ListOptionsFromSchema(schema: Schema): (flags: seq<string>)
    requires schema.WellFormed()
    ensures forall k :: k in flags <==> k in schema.definitions
    ensures forall i, j :: 0 <= i < j < |flags| ==> flags[i] != flags[j]
  {
    schema.keys
  }

  /** The `reduce` of `computeStore` over a prefix of the key list: each flag
      is added with its value resolved from defaults and overrides alone. */
  function StoreOf(schema: Schema, flags: seq<string>, defaults: Option<Defaults>, overrides: Option<Overrides>)
    : (store: map<string, FlagValue>)
    requires forall k :: k in flags ==> k in schema.definitions
    ensures forall k :: k in store <==> k in flags
    ensures forall k :: k in store ==> store[k] == ComputeValue(schema, k, defaults, overrides, None, None)
    decreases |flags|
  {
    if flags == [] then map[]
    else
      var last := flags[|flags| - 1];
      StoreOf(schema, flags[..|flags| - 1], defaults, overrides)[last := ComputeValue(schema, last, defaults, overrides, None, None)]
  }

  /** `computeStore`: one entry per schema flag, resolved with no current and
      no manual value. */
  function ComputeStore(schema: Schema, defaults: Option<Defaults>, overrides: Option<Overrides>)
    : (store: map<string, FlagValue>)
    requires schema.WellFormed()
    ensures forall k :: k in store <==> k in schema.definitions
    ensures forall k :: k in store ==> store[k] == ComputeValue(schema, k, defaults, overrides, None, None)
    ensures Consistent(schema, store)
  {
    StoreOf(schema, ListOptionsFromSchema(schema), defaults, overrides)
  }

  /** The constructor's choice of defaults: the entry for the environment, and
      none when there is no defaults map or it has no such entry. */
  function SelectDefaults(defaultsInput: Option<map<string, Defaults>>, environment: string): (r: Option<Defaults>)
    ensures r.Some? <==> defaultsInput.Some? && environment in defaultsInput.value
    ensures r.Some? ==> r.value == defaultsInput.value[environment]
  {
    if defaultsInput.Some? && environment in defaultsInput.value then Some(defaultsInput.value[environment]) else None
  }

  /** The store invariant: exactly the schema's flags, each holding one of its options. */
  ghost predicate Consistent(schema: Schema, store: map<string, FlagValue>) {
    (forall k :: k in schema.definitions ==> k in store) &&
    (forall k :: k in store ==> k in schema.definitions && store[k] in schema.definitions[k].options)
  }

  /** The write gate of the store's `set` trap: the proposed value is resolved
      again as the manual value, with the stored value as current and neither
      defaults nor overrides, and the write passes iff the result is the
      proposed value. */
  function Admits(schema: Schema, flag: string, current: FlagValue, value: FlagValue): (ok: bool)
    requires flag in schema.definitions
    ensures ok <==> if schema.definitions[flag].readonly then value == current
                    else value in schema.definitions[flag].options || value == current
  {
    value == ComputeValue(schema, flag, None, None, Some(current), Some(value))
  }

  /** The first defined element of a list of candidates. */
  function FirstDefined<T>(candidates: seq<Option<T>>): Option<T> {
    if candidates == [] then None
    else if candidates[0].Some? then candidates[0]
    else FirstDefined(candidates[1..])
  }

  // ----- Lemmas -----

  /** FirstDefined yields x exactly when some candidate is x and every earlier
      one is undefined, and nothing exactly when every candidate is undefined. */
  lemma {:induction false} FirstDefinedIsFirst<T>(candidates: seq<Option<T>>, x: T)
    ensures FirstDefined(candidates) == Some(x) <==>
            exists i :: 0 <= i < |candidates| && candidates[i] == Some(x) &&
                        forall j :: 0 <= j < i ==> candidates[j] == None
    ensures FirstDefined(candidates) == None <==> forall i :: 0 <= i < |candidates| ==> candidates[i] == None
  {
    if candidates != [] {
      var rest := candidates[1..];
      FirstDefinedIsFirst(rest, x);
      if candidates[0].Some? {
        if candidates[0] == Some(x) {
          assert candidates[0] == Some(x);
        } else {
          forall i | 0 <= i < |candidates| && candidates[i] == Some(x)
            ensures exists j :: 0 <= j < i && candidates[j] != None
          {
            assert i != 0;
          }
        }
      } else {
        assert forall i :: 1 <= i < |candidates| ==> candidates[i] == rest[i - 1];
        if FirstDefined(candidates) == Some(x) {
          var i :| 0 <= i < |rest| && rest[i] == Some(x) && forall j :: 0 <= j < i ==> rest[j] == None;
          assert candidates[i + 1] == Some(x);
        }
      }
    }
  }

  /** Precedence: the resolved value is the first defined of the filtered
      manual value, the override, the environment default and the current
      value, in that order, and otherwise the flag's first option. */
  lemma Precedence(schema: Schema, flag: string, defaults: Option<Defaults>, overrides: Option<Overrides>,
                   current: Option<FlagValue>, manual: Option<FlagValue>)
    requires flag in schema.definitions
    ensures ComputeValue(schema, flag, defaults, overrides, current, manual) ==
            FirstDefined([ManualCandidate(schema, flag, manual), OverrideCandidate(schema, flag, overrides),
                          DefaultCandidate(schema, flag, defaults), current]).GetOr(schema.definitions[flag].options[0])
  {
    var m, o, d := ManualCandidate(schema, flag, manual), OverrideCandidate(schema, flag, overrides),
                   DefaultCandidate(schema, flag, defaults);
    FirstDefinedCons(current, []);
    FirstDefinedCons(d, [current]);
    FirstDefinedCons(o, [d, current]);
    FirstDefinedCons(m, [o, d, current]);
  }

  /** FirstDefined of a list is its head if defined, else FirstDefined of the rest. */
  lemma FirstDefinedCons<T>(head: Option<T>, rest: seq<Option<T>>)
    ensures FirstDefined([head] + rest) == head.OrElse(FirstDefined(rest))
  {
  }

  /** With nothing supplied the resolved value is exactly the first option. */
  lemma Fallback(schema: Schema, flag: string)
    requires flag in schema.definitions
    ensures ComputeValue(schema, flag, None, None, None, None) == schema.definitions[flag].options[0]
  {
  }

  /** A valid manual value on a writable flag wins over every other source. */
  lemma ManualWins(schema: Schema, flag: string, defaults: Option<Defaults>, overrides: Option<Overrides>,
                   current: Option<FlagValue>, m: FlagValue)
    requires flag in schema.definitions && !schema.definitions[flag].readonly
    requires m in schema.definitions[flag].options
    ensures ComputeValue(schema, flag, defaults, overrides, current, Some(m)) == m
  {
  }

  /** Closed world: a manual value, an override result or an environment
      default that is not one of the flag's options is treated as undefined. */
  lemma ClosedWorld(schema: Schema, flag: string, defaults: Option<Defaults>, overrides: Option<Overrides>,
                    current: Option<FlagValue>, manual: Option<FlagValue>)
    requires flag in schema.definitions
    ensures manual.Some? && manual.value !in schema.definitions[flag].options ==>
            ComputeValue(schema, flag, defaults, overrides, current, manual) ==
            ComputeValue(schema, flag, defaults, overrides, current, None)
    ensures overrides.Some? && !(overrides.value(flag).Value? && overrides.value(flag).value in schema.definitions[flag].options) ==>
            ComputeValue(schema, flag, defaults, overrides, current, manual) ==
            ComputeValue(schema, flag, defaults, None, current, manual)
    ensures defaults.Some? && flag in defaults.value && defaults.value[flag] !in schema.definitions[flag].options ==>
            ComputeValue(schema, flag, defaults, overrides, current, manual) ==
            ComputeValue(schema, flag, None, overrides, current, manual)
  {
  }

  /** Read-only immunity: for a read-only flag neither the manual value nor the
      override source matters; the result is the valid environment default,
      else the current value, else the first option. */
  lemma ReadOnlyImmunity(schema: Schema, flag: string, defaults: Option<Defaults>, overrides: Option<Overrides>,
                         current: Option<FlagValue>, manual: Option<FlagValue>)
    requires flag in schema.definitions && schema.definitions[flag].readonly
    ensures ComputeValue(schema, flag, defaults, overrides, current, manual) ==
            ComputeValue(schema, flag, defaults, None, current, None)
    ensures ComputeValue(schema, flag, defaults, overrides, current, manual) ==
            if defaults.Some? && flag in defaults.value && defaults.value[flag] in schema.definitions[flag].options
            then defaults.value[flag]
            else if current.Some? then current.value
            else schema.definitions[flag].options[0]
  {
  }

  /** Under the store invariant the write gate accepts, on a writable flag,
      exactly the flag's options, and on a read-only flag only the value
      already stored. */
  lemma GateUnderInvariant(schema: Schema, store: map<string, FlagValue>, flag: string, value: FlagValue)
    requires Consistent(schema, store) && flag in schema.definitions
    ensures Admits(schema, flag, store[flag], value) <==>
            if schema.definitions[flag].readonly then value == store[flag]
            else value in schema.definitions[flag].options
  {
  }

  /** A write the gate admits keeps the store invariant. */
  lemma GatePreservesInvariant(schema: Schema, store: map<string, FlagValue>, flag: string, value: FlagValue)
    requires Consistent(schema, store) && flag in schema.definitions
    requires Admits(schema, flag, store[flag], value)
    ensures Consistent(schema, store[flag := value])
  {
  }
}
