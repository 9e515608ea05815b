/**
 * The browser's persisted key-value store (`localStorage`) as both scripts see
 * it through their `safeGetStorage` / `safeSetStorage` wrappers: an unavailable
 * store reads as empty and silently ignores writes, and neither wrapper throws.
 */
module Storage {
  import opened Wrappers

  datatype Store = Store(available: bool, entries: map<string, string>) {

    /** `safeGetStorage(key)`: the stored string, or null when absent or unavailable. */
    function Get(key: string): (r: Option<string>)
      ensures r.Some? <==> available && key in entries
      ensures r.Some? ==> r.value == entries[key]
    {
      if available && key in entries then Some(entries[key]) else None
    }

    /** `safeSetStorage(key, value)`: the store after the write (a no-op when unavailable). */
    function Put(key: string, value: string): (r: Store)
      ensures r.available == available
      ensures available ==> r.Get(key) == Some(value)
      ensures !available ==> r == this
      ensures forall k :: k != key ==> r.Get(k) == Get(k)
    {
      if available then Store(available, entries[key := value]) else this
    }
  }

  /** Writing the value a key already holds leaves the store as it was. */
  lemma PutSameValue(s: Store, key: string)
    requires s.Get(key).Some?
    ensures s.Put(key, s.Get(key).value) == s
  {
    assert s.entries[key := s.entries[key]] == s.entries;
  }

  /** On an available store, writing a key that is absent or holds another value changes the store. */
  lemma PutChanges(s: Store, key: string, value: string)
    requires s.available && s.Get(key) != Some(value)
    ensures s.Put(key, value) != s
  {
    assert s.Put(key, value).Get(key) == Some(value);
  }
}
