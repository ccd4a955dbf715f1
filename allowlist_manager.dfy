/** TrackerBlockingMVP/TrackerBlocking/AllowlistManager.swift: the set of domains on
    which blocking is off, persisted as one JSON-encoded `Set<String>` under a single
    UserDefaults key. Every mutation reads the whole set, changes it and writes the
    whole set back. */
module AllowlistManager {
  import opened Wrappers
  import opened UserDefaultsStore

  const AllowlistKey: string := "website_allowlist"

  /** The set `getAllowlist` decodes from what the key holds: only encoded set data
      decodes; an absent key, other data or another object reads as empty. */
  function DecodedAllowlist(stored: Option<Value>): (domains: set<string>)
    ensures stored.Some? && stored.value.EncodedSet? ==> domains == stored.value.domains
    ensures !(stored.Some? && stored.value.EncodedSet?) ==> domains == {}
  {
    match stored
    case Some(EncodedSet(domains)) => domains
    case _ => {}
  }

  /** The set after toggling `domain`. */
  function Toggled(domains: set<string>, domain: string): (r: set<string>)
    ensures domain in r <==> domain !in domains
    ensures forall d :: d != domain ==> (d in r <==> d in domains)
  {
    if domain in domains then domains - {domain} else domains + {domain}
  }

  /** Two toggles of the same domain restore the set. */
  lemma ToggleTwice(domains: set<string>, domain: string)
    ensures Toggled(Toggled(domains, domain), domain) == domains
  {
  }

  class AllowlistManager {
    const userDefaults: UserDefaults

    constructor (userDefaults: UserDefaults)
      ensures this.userDefaults == userDefaults
    {
      this.userDefaults := userDefaults;
    }

    /** `getAllowlist()`. */
    function GetAllowlist(): (domains: set<string>)
      reads userDefaults
      ensures AllowlistKey in userDefaults.entries && userDefaults.entries[AllowlistKey].EncodedSet? ==>
                domains == userDefaults.entries[AllowlistKey].domains
      ensures !(AllowlistKey in userDefaults.entries && userDefaults.entries[AllowlistKey].EncodedSet?) ==> domains == {}
    {
      DecodedAllowlist(userDefaults.Object(AllowlistKey))
    }

    /** `isAllowlisted(domain:)`: membership in the decoded set. */
    predicate IsAllowlisted(domain: string)
      reads userDefaults
      ensures IsAllowlisted(domain) <==>
                AllowlistKey in userDefaults.entries && userDefaults.entries[AllowlistKey].EncodedSet? &&
                domain in userDefaults.entries[AllowlistKey].domains
    {
      domain in GetAllowlist()
    }

    /** `saveAllowlist(_:)`: encoding a set of strings cannot fail, so the whole set
        always replaces what the key held; no other key changes. */
    method SaveAllowlist(domains: set<string>)
      modifies userDefaults
      ensures userDefaults.entries == old(userDefaults.entries)[AllowlistKey := EncodedSet(domains)]
      ensures GetAllowlist() == domains
    {
      userDefaults.Set(AllowlistKey, EncodedSet(domains));
    }

    /** `addToAllowlist(domain:)`. */
    method AddToAllowlist(domain: string)
      modifies userDefaults
      ensures userDefaults.entries == old(userDefaults.entries)[AllowlistKey := EncodedSet(old(GetAllowlist()) + {domain})]
      ensures GetAllowlist() == old(GetAllowlist()) + {domain}
      ensures IsAllowlisted(domain)
    {
      var allowlist := GetAllowlist();
      allowlist := allowlist + {domain};
      SaveAllowlist(allowlist);
    }

    /** `removeFromAllowlist(domain:)`. */
    method RemoveFromAllowlist(domain: string)
      modifies userDefaults
      ensures userDefaults.entries == old(userDefaults.entries)[AllowlistKey := EncodedSet(old(GetAllowlist()) - {domain})]
      ensures GetAllowlist() == old(GetAllowlist()) - {domain}
      ensures !IsAllowlisted(domain)
    {
      var allowlist := GetAllowlist();
      allowlist := allowlist - {domain};
      SaveAllowlist(allowlist);
    }

    /** `toggleAllowlist(domain:)`: flips the domain, leaves every other domain as it
        was and returns the new membership. */
    method ToggleAllowlist(domain: string) returns (allowed: bool)
      modifies userDefaults
      ensures allowed == !old(IsAllowlisted(domain))
      ensures IsAllowlisted(domain) == allowed
      ensures GetAllowlist() == Toggled(old(GetAllowlist()), domain)
      ensures userDefaults.entries == old(userDefaults.entries)[AllowlistKey := EncodedSet(GetAllowlist())]
    {
      var isCurrentlyAllowed := IsAllowlisted(domain);
      if isCurrentlyAllowed {
        RemoveFromAllowlist(domain);
      } else {
        AddToAllowlist(domain);
      }
      allowed := !isCurrentlyAllowed;
    }
  }

  /** Adding twice stores what adding once stores. */
  method AddTwice(manager: AllowlistManager, domain: string)
    modifies manager.userDefaults
    ensures manager.userDefaults.entries ==
              old(manager.userDefaults.entries)[AllowlistKey := EncodedSet(old(manager.GetAllowlist()) + {domain})]
  {
    manager.AddToAllowlist(domain);
    manager.AddToAllowlist(domain);
  }

  /** Removing twice stores what removing once stores. */
  method RemoveTwice(manager: AllowlistManager, domain: string)
    modifies manager.userDefaults
    ensures manager.userDefaults.entries ==
              old(manager.userDefaults.entries)[AllowlistKey := EncodedSet(old(manager.GetAllowlist()) - {domain})]
  {
    manager.RemoveFromAllowlist(domain);
    manager.RemoveFromAllowlist(domain);
    assert old(manager.GetAllowlist()) - {domain} - {domain} == old(manager.GetAllowlist()) - {domain};
  }

  /** Two toggles restore the decoded set and return opposite answers; the key then
      holds that set in encoded form even if it was absent or undecodable before. */
  method ToggleTwiceRestores(manager: AllowlistManager, domain: string) returns (first: bool, second: bool)
    modifies manager.userDefaults
    ensures second == !first
    ensures manager.GetAllowlist() == old(manager.GetAllowlist())
    ensures manager.userDefaults.entries ==
              old(manager.userDefaults.entries)[AllowlistKey := EncodedSet(old(manager.GetAllowlist()))]
  {
    ghost var before := manager.userDefaults.entries;
    first := manager.ToggleAllowlist(domain);
    ghost var between := manager.userDefaults.entries;
    second := manager.ToggleAllowlist(domain);
    ToggleTwice(old(manager.GetAllowlist()), domain);
    assert between == before[AllowlistKey := between[AllowlistKey]];
    assert manager.userDefaults.entries == before[AllowlistKey := EncodedSet(old(manager.GetAllowlist()))];
  }
}
