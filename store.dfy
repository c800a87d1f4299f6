/** The observable store: the `FeatureFlags` instance, its guarded `set` trap
    and its subscribers (mod.ts:1-65). */
module Store {
  import opened FlagTypes
  import opened Resolver

  /** A subscriber callback, identified by a number; the same number may be
      subscribed more than once, as the same callback may. */
  type SubscriberId = nat

  /** One subscriber call: who was called, with which flag and value, and the
      store as the callee could read it at that moment. */
  datatype Notification = Notification(subscriber: SubscriberId, flag: string, value: FlagValue,
                                       seen: map<string, FlagValue>)

  /** The `TypeError` that strict-mode assignment raises when the trap
      returns false. */
  datatype SetError = TrapReturnedFalsish(flag: string)

  /** What `set` does: returns normally, or throws. */
  datatype Outcome = Pass | Fail(error: SetError)

  /** The calls one committed write makes: the i-th call goes to the i-th
      subscription, once each, with the committed flag and value. */
  function Broadcast(subscriptions: seq<SubscriberId>, flag: string, value: FlagValue,
                     seen: map<string, FlagValue>): (calls: seq<Notification>)
    ensures |calls| == |subscriptions|
    ensures forall i :: 0 <= i < |subscriptions| ==> calls[i] == Notification(subscriptions[i], flag, value, seen)
    decreases |subscriptions|
  {
    if subscriptions == [] then []
    else
      var n := |subscriptions| - 1;
      Broadcast(subscriptions[..n], flag, value, seen) + [Notification(subscriptions[n], flag, value, seen)]
  }

  /** The (flag, value) pairs a subscriber has received, in the order received. */
  function Received(trace: seq<Notification>, s: SubscriberId): seq<(string, FlagValue)>
    decreases |trace|
  {
    if trace == [] then []
    else
      var n := |trace| - 1;
      Received(trace[..n], s) + (if trace[n].subscriber == s then [(trace[n].flag, trace[n].value)] else [])
  }

  /** What a subscriber receives from two stretches of calls is what it
      receives from each, in order. */
  lemma {:induction false} ReceivedAppend(a: seq<Notification>, b: seq<Notification>, s: SubscriberId)
    ensures Received(a + b, s) == Received(a, s) + Received(b, s)
    decreases |b|
  {
    if b == [] {
      assert a + b == a;
    } else {
      var n := |b| - 1;
      assert (a + b)[..|a + b| - 1] == a + b[..n];
      ReceivedAppend(a, b[..n], s);
    }
  }

  /** n copies of x. */
  function Repeat<T>(x: T, n: nat): seq<T> {
    if n == 0 then [] else Repeat(x, n - 1) + [x]
  }

  /** A subscriber receives a committed (flag, value) once per time it is in
      the subscription list, and a subscriber not in the list receives nothing. */
  lemma {:induction false} ReceivedFromBroadcast(subscriptions: seq<SubscriberId>, flag: string, value: FlagValue,
                                                 seen: map<string, FlagValue>, s: SubscriberId)
    ensures Received(Broadcast(subscriptions, flag, value, seen), s) == Repeat((flag, value), multiset(subscriptions)[s])
    decreases |subscriptions|
  {
    if subscriptions != [] {
      var n := |subscriptions| - 1;
      var init := subscriptions[..n];
      var note := Notification(subscriptions[n], flag, value, seen);
      var before := Broadcast(init, flag, value, seen);
      assert Broadcast(subscriptions, flag, value, seen) == before + [note];
      ReceivedFromBroadcast(init, flag, value, seen, s);
      ReceivedAppend(before, [note], s);
      assert [note][..0] == [];
      assert Received([note], s) == if subscriptions[n] == s then [(flag, value)] else [];
      assert subscriptions == init + [subscriptions[n]];
      assert multiset(subscriptions) == multiset(init) + multiset{subscriptions[n]};
    }
  }

  /** After one more committed write, a subscriber has received what it had
      before and then the written (flag, value) once per subscription it holds. */
  lemma ReceivedAfterWrite(trace: seq<Notification>, subscriptions: seq<SubscriberId>, flag: string, value: FlagValue,
                           seen: map<string, FlagValue>, s: SubscriberId)
    ensures Received(trace + Broadcast(subscriptions, flag, value, seen), s) ==
            Received(trace, s) + Repeat((flag, value), multiset(subscriptions)[s])
  {
    ReceivedAppend(trace, Broadcast(subscriptions, flag, value, seen), s);
    ReceivedFromBroadcast(subscriptions, flag, value, seen, s);
  }

  /** A `FeatureFlags` instance. The Proxy around the store is modelled by the
      explicit `Assign` method, the only way the model changes `store`; the
      subscriber callbacks are modelled by the calls they receive, recorded in
      `trace`. */
  class FeatureFlags {
    const schema: Schema
    var store: map<string, FlagValue>
    var subscriptions: seq<SubscriberId>
    var trace: seq<Notification>

    /** The object invariant: every schema flag is stored, with one of its options. */
    ghost predicate Valid()
      reads this
    {
      schema.WellFormed() && Consistent(schema, store)
    }

    /** The constructor: defaults apply only when the environment is a key of
        the defaults map; the store is resolved from defaults and overrides;
        the constructor's subscriber, if any, becomes the first subscription. */
    constructor (schema: Schema, environment: string, defaultsInput: Option<map<string, Defaults>>,
                 overrides: Option<Overrides>, subscription: Option<SubscriberId>)
      requires schema.WellFormed()
      ensures Valid() && this.schema == schema
      ensures store == ComputeStore(schema, SelectDefaults(defaultsInput, environment), overrides)
      ensures subscriptions == if subscription.Some? then [subscription.value] else []
      ensures trace == []
    {
      var defaults := SelectDefaults(defaultsInput, environment);
      this.schema := schema;
      store := ComputeStore(schema, defaults, overrides);
      subscriptions := [];
      trace := [];
      new;
      if subscription.Some? {
        subscriptions := subscriptions + [subscription.value];
      }
    }

    /** `subscribe`: append to the subscription list. */
    method Subscribe(subscription: SubscriberId)
      requires Valid()
      modifies this
      ensures Valid()
      ensures subscriptions == old(subscriptions) + [subscription]
      ensures store == old(store) && trace == old(trace)
    {
      subscriptions := subscriptions + [subscription];
    }

    /** `get`: the stored value, always one of the flag's options. */
    function Get(flag: string): (value: FlagValue)
      reads this
      requires Valid() && flag in schema.definitions
      ensures value in schema.definitions[flag].options
      ensures value == store[flag]
    {
      store[flag]
    }

    /** The Proxy `set` trap: the write commits iff the resolver, given the
        stored value as current and the proposed value as manual, yields the
        proposed value. On commit the one flag is updated and then every
        subscription is called in order, each seeing the updated store. */
    method Assign(flag: string, value: FlagValue) returns (committed: bool)
      requires Valid() && flag in schema.definitions
      modifies this
      ensures Valid()
      ensures committed == Admits(schema, flag, old(store)[flag], value)
      ensures committed <==> if schema.definitions[flag].readonly then value == old(store)[flag]
                             else value in schema.definitions[flag].options
      ensures subscriptions == old(subscriptions)
      ensures committed ==> store == old(store)[flag := value] &&
                            trace == old(trace) + Broadcast(subscriptions, flag, value, store)
      ensures !committed ==> store == old(store) && trace == old(trace)
    {
      GateUnderInvariant(schema, store, flag, value);
      committed := value == ComputeValue(schema, flag, None, None, Some(store[flag]), Some(value));
      if !committed {
        return;
      }
      GatePreservesInvariant(schema, store, flag, value);
      store := store[flag := value];
      var i := 0;
      while i < |subscriptions|
        invariant 0 <= i <= |subscriptions|
        invariant Valid() && store == old(store)[flag := value] && subscriptions == old(subscriptions)
        invariant trace == old(trace) + Broadcast(subscriptions[..i], flag, value, store)
      {
        assert subscriptions[..i + 1][..i] == subscriptions[..i];
        trace := trace + [Notification(subscriptions[i], flag, value, store)];
        i := i + 1;
      }
      assert subscriptions[..i] == subscriptions;
    }

    /** `set`: assignment through the Proxy in strict-mode code; a rejected
        write throws a `TypeError` and changes nothing. */
    method Set(flag: string, value: FlagValue) returns (outcome: Outcome)
      requires Valid() && flag in schema.definitions
      modifies this
      ensures Valid()
      ensures outcome == if Admits(schema, flag, old(store)[flag], value) then Pass else Fail(TrapReturnedFalsish(flag))
      ensures subscriptions == old(subscriptions)
      ensures outcome.Pass? ==> store == old(store)[flag := value] &&
                                trace == old(trace) + Broadcast(subscriptions, flag, value, store)
      ensures outcome.Fail? ==> store == old(store) && trace == old(trace)
    {
      var committed := Assign(flag, value);
      outcome := if committed then Pass else Fail(TrapReturnedFalsish(flag));
    }
  }
}
