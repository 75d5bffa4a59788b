/**
 * Go's `url.Values`: a multi-valued query map that the handlers update in
 * place through `Set`, `Add` and `Del`.
 */
module UrlValues {

  /** The contents of a `url.Values` map: each key with its list of values. */
  type Entries = map<string, seq<string>>

  /** The values stored under `key`; a missing key reads as the empty list (a nil slice). */
  function ValuesOf(m: Entries, key: string): seq<string>
  {
    if key in m then m[key] else []
  }

  /** What `Values.Add(key, value)` leaves: `value` after whatever `key` held. */
  function Added(m: Entries, key: string, value: string): Entries
  {
    m[key := ValuesOf(m, key) + [value]]
  }

  /** `Values.Get`: the first value under `key`, or "" when there is none. */
  function First(m: Entries, key: string): string
  {
    if key in m && |m[key]| > 0 then m[key][0] else ""
  }

  class Values {
    var entries: Entries

    /** A map holding `initial`, as `URL.Query()` returns one. */
    constructor (initial: Entries)
      ensures entries == initial
    {
      entries := initial;
    }

    /** `Values.Has`: whether `key` is present, even with no values. */
    predicate Has(key: string)
      reads this
    {
      key in entries
    }

    /** `Values.Set`: `key` holds exactly `value` afterwards; no other key changes. */
    method Set(key: string, value: string)
      modifies this
      ensures entries == old(entries)[key := [value]]
    {
      entries := entries[key := [value]];
    }

    /** `Values.Add`: `value` is appended after whatever `key` held; no other key changes. */
    method Add(key: string, value: string)
      modifies this
      ensures entries == Added(old(entries), key, value)
    {
      entries := entries[key := ValuesOf(entries, key) + [value]];
    }

    /** `Values.Del`: `key` is gone afterwards; no other key changes. */
    method Del(key: string)
      modifies this
      ensures entries == old(entries) - {key}
    {
      entries := entries - {key};
    }
  }
}
