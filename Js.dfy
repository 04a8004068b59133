/** JavaScript value semantics that the components rely on: optional
    properties (`undefined`), truthiness of strings, and reading a key
    from an object literal used as a lookup table. */
module Js {

  /** A property that may be `undefined`. */
  datatype Option<T> = None | Some(value: T)

  /** Truthiness of an optional string: `undefined` and `""` are falsy. */
  predicate TruthyString(s: Option<string>)
  {
    s.Some? && s.value != ""
  }

  /** Truthiness of an optional boolean: only `true` is truthy. */
  predicate TruthyBool(b: Option<bool>)
  {
    b == Some(true)
  }

  /** `a ?? b` on two optional values: `a` unless it is `undefined`. */
  function Coalesce<T>(a: Option<T>, b: Option<T>): (r: Option<T>)
    ensures a.Some? ==> r == a
    ensures a.None? ==> r == b
  {
    if a.Some? then a else b
  }

  /** The property names every object literal inherits from
      `Object.prototype`; reading one of them from a table that does not
      define it yields a non-nullish built-in, never `undefined`. */
  const PrototypeKeys: set<string> := {
    "constructor", "hasOwnProperty", "isPrototypeOf", "propertyIsEnumerable",
    "toLocaleString", "toString", "valueOf", "__proto__",
    "__defineGetter__", "__defineSetter__", "__lookupGetter__", "__lookupSetter__"
  }

  /** What a property read on an object literal can produce once `??` has
      been applied: one of the table's own values (or the fallback), or an
      inherited built-in named by its key. */
  datatype Found<T> = Own(value: T) | Inherited(key: string)

  /** `table[key] ?? fallback` evaluated as JavaScript does it on an object
      literal: the fallback is taken only when the read gives `undefined`,
      which an inherited key never does. */
  function NullishLookup<T>(table: map<string, T>, key: string, fallback: T): (r: Found<T>)
    ensures r.Inherited? <==> key !in table && key in PrototypeKeys
    ensures key in table ==> r == Own(table[key])
    ensures key !in table && key !in PrototypeKeys ==> r == Own(fallback)
  {
    if key in table then Own(table[key])
    else if key in PrototypeKeys then Inherited(key)
    else Own(fallback)
  }

  /** The lookup with fallback the components intend: an own entry if there
      is one, the fallback for every other key. */
  function OwnLookup<T>(table: map<string, T>, key: string, fallback: T): (r: T)
    ensures key in table ==> r == table[key]
    ensures key !in table ==> r == fallback
  {
    if key in table then table[key] else fallback
  }

  /** The two lookups agree exactly on the keys that are not inherited
      names missing from the table. */
  lemma LookupsAgree<T>(table: map<string, T>, key: string, fallback: T)
    ensures NullishLookup(table, key, fallback) == Own(OwnLookup(table, key, fallback))
            <==> !(key !in table && key in PrototypeKeys)
  {
  }
}
