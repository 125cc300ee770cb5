/** The tab-scoped session storage: string keys mapped to stored values. The pages
    use two keys, "user" (the signed-in profile) and "isAuthenticated". */
module Session {
  import opened Records

  const UserKey := "user"
  const AuthKey := "isAuthenticated"

  class SessionStore {
    var entries: map<string, Stored>

    constructor (entries: map<string, Stored>)
      ensures this.entries == entries
    {
      this.entries := entries;
    }

    /** `sessionStorage.setItem`: the key now holds the value, every other key is kept. */
    method SetItem(key: string, value: Stored)
      modifies this
      ensures entries == old(entries)[key := value]
    {
      entries := entries[key := value];
    }
  }

  /** `JSON.parse(sessionStorage.getItem("user"))` as the pages read it: the stored
      profile, or nothing when the key is absent. */
  function CurrentUser(entries: map<string, Stored>): (r: Option<Profile>)
    ensures r.Some? <==> UserKey in entries && entries[UserKey].Json?
    ensures r.Some? ==> entries[UserKey] == Json(r.value)
  {
    if UserKey in entries && entries[UserKey].Json? then Some(entries[UserKey].profile) else None
  }
}
