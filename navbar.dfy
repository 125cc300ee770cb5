/** The navigation bar: sign-out and the highlighting of the current route. */
module Navbar {
  import opened Records
  import opened Session

  /** The session after `removeItem("user")` and `removeItem("isAuthenticated")`. */
  function SignedOut(entries: map<string, Stored>): (r: map<string, Stored>)
    ensures UserKey !in r && AuthKey !in r
    ensures forall k :: k != UserKey && k != AuthKey ==> (k in r <==> k in entries)
    ensures forall k :: k in r ==> r[k] == entries[k]
  {
    entries - {UserKey, AuthKey}
  }

  /** Signing out twice leaves the session as signing out once did. */
  lemma SignOutIdempotent(entries: map<string, Stored>)
    ensures SignedOut(SignedOut(entries)) == SignedOut(entries)
  {
    var once := SignedOut(entries);
    assert SignedOut(once).Keys == once.Keys;
  }

  /** After signing out nobody is signed in. */
  lemma SignedOutHasNoUser(entries: map<string, Stored>)
    ensures CurrentUser(SignedOut(entries)).None?
  {
  }

  method HandleLogout(session: SessionStore)
    modifies session
    ensures session.entries == SignedOut(old(session.entries))
  {
    session.entries := session.entries - {UserKey};
    session.entries := session.entries - {AuthKey};
  }

  /** The CSS class of a navigation link: "active" exactly on the current route. */
  function IsActive(pathname: string, path: string): (r: string)
    ensures r == "active" <==> pathname == path
    ensures r == "" <==> pathname != path
  {
    if pathname == path then "active" else ""
  }
}
