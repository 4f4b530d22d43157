/** The device's persisted key-value store (`AsyncStorage`) as an
    immutable map, with each call's success or failure supplied by the
    environment, and the JSON serialisation of stored values as an
    abstract codec. */
module Storage {
  import opened Wrappers

  type Store = map<string, string>

  /** The entry under `key`, if any. */
  function Lookup(s: Store, key: string): Option<string>
  {
    if key in s then Some(s[key]) else None
  }

  /** `getItem(key)`: the stored string, `null` when the key is absent,
      or the error the call threw. */
  function GetItem(s: Store, key: string, io: Effect): (r: Result<Option<string>>)
    ensures io.Throws? ==> r == Err(io.message)
    ensures io.Completes? && key in s ==> r == Ok(Some(s[key]))
    ensures io.Completes? && key !in s ==> r == Ok(None)
  {
    match io
    case Throws(m) => Err(m)
    case Completes => Ok(Lookup(s, key))
  }

  /** `setItem(key, value)`: a failed call writes nothing. */
  function SetItem(s: Store, key: string, value: string, io: Effect): (r: Result<Store>)
    ensures io.Throws? ==> r == Err(io.message)
    ensures io.Completes? ==> r.Ok? && r.value.Keys == s.Keys + {key} && r.value[key] == value
    ensures r.Ok? ==> AgreeExcept(s, r.value, {key})
  {
    match io
    case Throws(m) => Err(m)
    case Completes => Ok(s[key := value])
  }

  /** `removeItem(key)`: a failed call removes nothing; removing an absent
      key is not an error. */
  function RemoveItem(s: Store, key: string, io: Effect): (r: Result<Store>)
    ensures io.Throws? ==> r == Err(io.message)
    ensures io.Completes? ==> r.Ok? && r.value.Keys == s.Keys - {key}
    ensures r.Ok? ==> AgreeExcept(s, r.value, {key})
  {
    match io
    case Throws(m) => Err(m)
    case Completes => Ok(s - {key})
  }

  /** Two stores hold the same entries outside `keys`. */
  ghost predicate AgreeExcept(a: Store, b: Store, keys: set<string>)
  {
    forall k :: k !in keys ==> (k in a <==> k in b) && (k in a ==> a[k] == b[k])
  }

  lemma AgreeExceptWiden(a: Store, b: Store, keys: set<string>, more: set<string>)
    requires AgreeExcept(a, b, keys) && keys <= more
    ensures AgreeExcept(a, b, more)
  {
  }

  lemma AgreeExceptChain(a: Store, b: Store, c: Store, keys: set<string>)
    requires AgreeExcept(a, b, keys) && AgreeExcept(b, c, keys)
    ensures AgreeExcept(a, c, keys)
  {
  }

  /** `JSON.stringify` / `JSON.parse` for values of type `T`; a parse
      failure throws a `SyntaxError`, modelled by its message. */
  datatype Codec<!T> = Codec(encode: T -> string, decode: string -> Result<T>)

  /** What the application relies on of JSON for one value it stores:
      parsing what was stringified gives the value back, and the stringified
      text is never empty (so it is truthy when read back). Stated per value:
      no encoding into strings is injective on every value of a type with
      real-number fields. */
  ghost predicate RoundTrips<T>(c: Codec<T>, x: T)
  {
    c.decode(c.encode(x)) == Ok(x) && c.encode(x) != ""
  }
}
