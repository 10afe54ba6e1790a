/**
 * The browser's durable key/value store (`localStorage`) as the session layer
 * uses it, with JSON serialisation taken as an exact round trip on an abstract
 * record.
 */
module Storage {
  import opened Wrappers

  /** The sign-in response body, stored whole as the session record. The
      session layer stores, restores and hands it around but never looks inside
      it, so it is kept opaque: a JSON object's properties. */
  datatype Profile = Profile(fields: map<string, string>)

  /** What can sit under a key of the store:
      - `Serialized(p)`: the JSON text of a record (what `JSON.stringify(p)` wrote);
      - `FalsyJson`: JSON text of a falsy value (`null`, `false`, `0`, `""`);
      - `NotJson(text)`: text on which `JSON.parse` throws. */
  datatype Entry = Serialized(record: Profile) | FalsyJson | NotJson(text: string)

  type Store = map<string, Entry>

  /** The single well-known key under which the session is persisted. */
  const UserKey: string := "user"

  /** The `SyntaxError` that `JSON.parse` throws, with the text it choked on. */
  datatype ParseError = SyntaxError(text: string)

  /** `JSON.stringify` of a record. */
  function Serialize(p: Profile): Entry
  {
    Serialized(p)
  }

  /**
   * `JSON.parse(localStorage.getItem(key))`, with a falsy parse result read as
   * "no user". `getItem` yields `null` for an absent key, and `JSON.parse(null)`
   * is `null`, so an absent key is not an error.
   */
  function ParseItem(store: Store, key: string): (r: Result<Option<Profile>, ParseError>)
    ensures key !in store ==> r == Success(None)
    ensures r.Failure? <==> key in store && store[key].NotJson?
    ensures r.Success? && r.value.Some? <==> key in store && store[key].Serialized?
  {
    if key !in store then Success(None)
    else match store[key]
      case Serialized(p) => Success(Some(p))
      case FalsyJson => Success(None)
      case NotJson(text) => Failure(SyntaxError(text))
  }

  /** Writing a record and reading it back yields the record: the JSON round trip. */
  lemma SerializeRoundTrip(store: Store, key: string, p: Profile)
    ensures ParseItem(store[key := Serialize(p)], key) == Success(Some(p))
  {
  }
}
