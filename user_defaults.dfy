/** The shared `UserDefaults` key-value store behind EtagStorage and
    AllowlistManager, reduced to the kinds of object the two of them meet. */
module UserDefaultsStore {
  import opened Wrappers

  datatype Value =
    | Text(text: string)               // a String object
    | EncodedSet(domains: set<string>) // Data holding a JSON-encoded Set<String>
    | OpaqueData                       // Data that does not decode as Set<String>
    | OtherObject                      // any other property-list object

  class UserDefaults {
    var entries: map<string, Value>

    constructor ()
      ensures entries == map[]
    {
      entries := map[];
    }

    /** `object(forKey:)`. */
    function Object(key: string): (v: Option<Value>)
      reads this
      ensures v.Some? <==> key in entries
      ensures v.Some? ==> entries[key] == v.value
    {
      if key in entries then Some(entries[key]) else None
    }

    /** `set(_:forKey:)`: replaces whatever the key held; no other key changes. */
    method Set(key: string, v: Value)
      modifies this
      ensures entries == old(entries)[key := v]
    {
      entries := entries[key := v];
    }
  }
}
