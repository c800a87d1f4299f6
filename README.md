# Feature flags: resolver and guarded observable store

A Dafny model of the `FeatureFlags` class of the feature-flags library (`mod.ts`).
A schema declares each flag's ordered list of allowed values (the first is the fallback)
and whether the flag is read-only. The library resolves each flag's value from a fixed
precedence chain. It keeps the resolved values in a store. The only way to write the
store is a guarded `set` trap that re-runs the resolver on the proposed value. Every
committed write is then broadcast to the subscribers.

Files:

- `types.dfy` (module `FlagTypes`): flag values (boolean, integer number, string), flag
  definitions, schemas, and the `Unknown` type of whatever an override source returns.
- `resolver.dfy` (module `Resolver`): the static members `computeValue`,
  `computeOverride`, `isValidValue`, `listOptionsFromSchema` and `computeStore`, the
  constructor's choice of defaults, the write gate, and the lemmas about them.
- `store.dfy` (module `Store`): the class `FeatureFlags` with its store, subscription list
  and a trace of subscriber calls. `Assign` models the Proxy `set` trap; `Set`, `Get`
  and `Subscribe` model the public methods.
- `scenarios.dfy` (module `Scenarios`): the schema and the four scenarios of `mod_test.ts`,
  proved as lemmas and client methods.

Behaviour as the code has it:

- A write passes the gate iff the resolver, given the stored value as `current` and the
  proposed value as `manual` and with no defaults and no overrides, returns the proposed
  value. Under the store invariant this means: for a writable flag, the value is one of
  its options; for a read-only flag, the value equals the value already stored. So a
  write of its current value to a read-only flag commits and notifies every subscriber.
- Overrides and environment defaults are used only at construction; writes never
  consult them.
- `current` is not filtered by the resolver. The store invariant (every stored value is
  one of its flag's options) is what keeps the gate from admitting an out-of-schema
  value. `GateUnderInvariant` needs the invariant; `Admits` states the gate without it.
- `mod.ts` has no `unsubscribe`, no frozen initial snapshot, and no construction error
  for defaults without an environment, so the model has none of these either.

## Model

| member | source | states |
|---|---|---|
| `Resolver.ComputeValue` | mod.ts:89-119 | the resolved value is one of the flag's options, unless it is the unfiltered current value |
| `Resolver.Precedence` | mod.ts:107-118 | the resolved value is the first defined of the filtered manual value, override and environment default and the current value, in that order, else `options[0]` |
| `Resolver.FirstDefinedIsFirst` | mod.ts:118 | the `??` chain yields x iff some candidate is x and all earlier ones are undefined, and yields nothing iff all are undefined |
| `Resolver.Fallback` | mod.ts:111-118 | with no defaults, overrides, current or manual value the result is exactly `options[0]` |
| `Resolver.ManualWins` | mod.ts:116-118 | a manual value that is one of a writable flag's options wins over every other source |
| `Resolver.ClosedWorld` | mod.ts:107-116 | a manual value, override result or environment default outside the options is treated as undefined |
| `Resolver.IsValidValue` | mod.ts:147-149 | a value is accepted iff it is a string, number or boolean: `undefined`, `null` and any object, function, symbol or big integer are rejected |
| `Resolver.ComputeOverride` | mod.ts:121-139 | the override is defined iff the flag is writable, a source exists and it returns a boolean, number or string, and it is then exactly what the source returned |
| `Resolver.ReadOnlyImmunity` | mod.ts:107-139 | for a read-only flag neither manual value nor override matters: the result is the valid default, else current, else `options[0]` |
| `Resolver.ListOptionsFromSchema` | mod.ts:141-145 | the key list names every schema flag exactly once; that each key appears once is the schema representation's invariant (standing for what `Object.keys` guarantees), carried over from the precondition rather than established here |
| `Resolver.StoreOf` | mod.ts:78-86 | the fold over a key prefix maps exactly those keys, each to its value resolved with no current or manual value |
| `Resolver.SelectDefaults` | mod.ts:22-24 | the environment's defaults entry is used iff a defaults map is given and has the environment as a key, and it is then exactly that entry; otherwise there are no defaults |
| `Resolver.ComputeStore` | mod.ts:67-87 | the initial store has exactly the schema's flags, each resolved from defaults and overrides alone, and satisfies the store invariant |
| `Resolver.Admits` | mod.ts:32-39 | the gate admits a read-only flag's write iff it equals the current value, and a writable flag's iff the value is an option or equals the current value |
| `Resolver.GateUnderInvariant` | mod.ts:32-41 | under the store invariant a write commits iff the value is an option (writable flag) or equals the stored value (read-only flag) |
| `Resolver.GatePreservesInvariant` | mod.ts:32-42 | a write the gate admits keeps every stored value one of its flag's options |
| `Store.Broadcast` | mod.ts:43 | a commit makes one call per subscription entry, the i-th call going to the i-th subscription, with the committed flag and value |
| `Store.ReceivedFromBroadcast` | mod.ts:43 | a subscriber receives the committed pair once per entry it has in the subscription list, and nothing if it has none |
| `Store.ReceivedAfterWrite` | mod.ts:42-43 | after a commit each subscriber's received list is its old list followed by the new pair, once per subscription entry |
| `Store.FeatureFlags.constructor` | mod.ts:9-50 | defaults apply only if the environment is a key of the defaults map; the store is the computed initial store; the constructor subscriber is the first subscription; no call is made |
| `Store.FeatureFlags.Subscribe` | mod.ts:52-54 | appends to the subscription list and changes nothing else |
| `Store.FeatureFlags.Get` | mod.ts:56-58 | returns the stored value, which is always one of the flag's options |
| `Store.FeatureFlags.Assign` | mod.ts:29-45 | commits iff the gate admits the write. On commit only that flag changes and every subscription is then called in order, each seeing the updated store. On rejection nothing changes. The invariant is kept |
| `Store.FeatureFlags.Set` | mod.ts:60-65 | a rejected write throws the trap's `TypeError` and changes nothing; a committed one behaves as `Assign` |
| `Scenarios.TestSchema` | mod_test.ts:7-18 | the test schema is well formed |
| `Scenarios.ProdStore` | mod_test.ts:35-44 | "prod" has no defaults entry: devTools false, migrateDatabase false, max 2 |
| `Scenarios.DevStore` | mod_test.ts:46-53 | "dev": devTools true, migrateDatabase true, max 4 |
| `Scenarios.PreviewStore` | mod_test.ts:55-63 | "preview": devTools true, migrateDatabase false, max 2 |
| `Scenarios.OverriddenProdStore` | mod_test.ts:87-101 | overrides set max and devTools, while the read-only migrateDatabase stays false |
| `Scenarios.UpdatingScenario` | mod_test.ts:66-85 | enabling devTools returns normally (`Pass`) and reads back true; writing migrateDatabase throws and it stays false |
| `Scenarios.SubscriptionScenario` | mod_test.ts:103-141 | the constructor subscriber and a later subscriber each receive the four committed writes, in order |

## Left out

- Non-string property keys (mod.ts:30): flags are strings in the model.
- Writes to a flag the schema does not declare: `Assign` and `Set` require a declared flag. The source reads `schema[flag].options` for such a key and crashes with a `TypeError`.
- Reads of a flag the schema does not declare: `Get` requires a declared flag, as the TypeScript signature does (`keyof Schema`). Without the type check the source's `get` returns `undefined` (or an inherited property) for such a key.
- `Reflect.set` on the plain store object always succeeds, so a write that passes the gate always commits.
- Other ways to change the store: the other Proxy operations (`delete`, `defineProperty`), which pass through unguarded, and reassignment of the public `store` field.
- Subscriber callbacks: what they do, the promises they return, and re-entrant writes from inside a callback. Each call is recorded in a trace as the subscriber, flag, value and the store it could read.
- The override source is a fixed pure function. Impurity and time variation between calls are not modelled.
- JavaScript equality details: NaN, signed zero, `SameValueZero` (used by `includes`) versus `===`. Numbers are integers.
- Prototype-chain lookups: `environment in defaultsInput` and `defaults[flag]` also see inherited properties (an environment named `toString`, say). The model looks only at the map's own keys.
- The TypeScript generic types (mod.ts:169-205) beyond their data shapes, and the identity helper `createOptions` (mod.ts:151-162).
- react.ts, vue.ts and compile.ts are not part of this model: they are UI-framework glue and build scripting. react.ts also calls an `unsubscribe` method that mod.ts does not define.
