/** Value and schema types of the feature-flag library (mod.ts, type section). */
module FlagTypes {

  /** A flag value: a boolean, a number (integers only in this model) or a string.
      Equality is by value, as `===` is on these three JavaScript types. */
  datatype FlagValue = Bool(b: bool) | Num(n: int) | Str(s: string)

  /** The ordered list of values a flag may take; the type demands at least one,
      and the first is the fallback. */
  type Options = s: seq<FlagValue> | |s| > 0 witness [Bool(false)]

  /** One schema entry. A missing `readonly` property reads as false. */
  datatype FlagDefinition = FlagDefinition(readonly: bool, options: Options)

  /** A schema: its flag names in key order (what `Object.keys` yields) and the
      definition of each flag. */
  datatype Schema = Schema(keys: seq<string>, definitions: map<string, FlagDefinition>) {

    /** The key list names every defined flag exactly once. */
    ghost predicate WellFormed() {
      (forall i, j :: 0 <= i < j < |keys| ==> keys[i] != keys[j]) &&
      (forall k :: k in keys <==> k in definitions)
    }
  }

  /** Any JavaScript value an override source may return: only `Value` is one
      of the three flag types; `Other` stands for objects, functions, symbols
      and big integers. */
  datatype Unknown = Value(value: FlagValue) | Undefined | Null | Other

  /** A value that may be `undefined`. */
  datatype Option<T> = None | Some(value: T) {

    /** `this ?? other`: this value if defined, else `other`. */
    function OrElse(other: Option<T>): Option<T> {
      if Some? then this else other
    }

    /** The value if defined, else `fallback`. */
    function GetOr(fallback: T): T {
      if Some? then value else fallback
    }
  }
}
