/** The client session (frontend/src/context/authContext.tsx): the token and
    user pair held by AuthProvider, mirrored into localStorage under the keys
    "token" and "user". React's state setters are modelled as field updates
    and each effect as a method. JSON.stringify and JSON.parse are foreign and
    come in as a Codec. */
module AuthContext {
  import opened Text
  import Browser

  const TokenKey: string := "token"
  const UserKey: string := "user"

  /** The client's User: an optional id, a name and an email ("" when absent). */
  datatype SessionUser = SessionUser(id: Option<string>, name: string, email: string)

  /** `JSON.stringify` of a user, and `JSON.parse` of a stored text: None when
      parsing throws or yields no object. */
  datatype Codec = Codec(stringify: SessionUser -> string, parse: string -> Option<SessionUser>)

  /** `newUser?.name && newUser?.email`: the user login and restore accept. */
  predicate Acceptable(u: SessionUser) {
    u.name != "" && u.email != ""
  }

  /** The session the restore step takes from storage, if both items are
      present and non-empty and the stored user parses to an acceptable one. */
  function StoredSession(items: map<string, string>, codec: Codec): (s: Option<(string, SessionUser)>)
    ensures s.Some? ==> TokenKey in items && s.value.0 == items[TokenKey] && s.value.0 != ""
    ensures s.Some? ==> UserKey in items && codec.parse(items[UserKey]) == Some(s.value.1) && Acceptable(s.value.1)
    ensures s.None? ==> TokenKey !in items || items[TokenKey] == "" || UserKey !in items || items[UserKey] == ""
                        || codec.parse(items[UserKey]).None? || !Acceptable(codec.parse(items[UserKey]).value)
  {
    if TokenKey in items && items[TokenKey] != "" && UserKey in items && items[UserKey] != "" then
      var parsed := codec.parse(items[UserKey]);
      if parsed.Some? && Acceptable(parsed.value) then Some((items[TokenKey], parsed.value)) else None
    else None
  }

  /** The storage the sync step leaves behind: both items written when both
      values are set (and the token non-empty), both removed otherwise. */
  function SyncedItems(items: map<string, string>, token: Option<string>, user: Option<SessionUser>, codec: Codec)
    : (after: map<string, string>)
    ensures TokenKey in after <==> UserKey in after
    ensures TokenKey in after <==> token.Some? && token.value != "" && user.Some?
    ensures TokenKey in after ==> after[TokenKey] == token.value && after[UserKey] == codec.stringify(user.value)
    ensures forall k :: k != TokenKey && k != UserKey ==> (k in after <==> k in items)
    ensures forall k :: k in after && k != TokenKey && k != UserKey ==> after[k] == items[k]
  {
    if token.Some? && token.value != "" && user.Some? then
      items[TokenKey := token.value][UserKey := codec.stringify(user.value)]
    else items - {TokenKey, UserKey}
  }

  /** What sync writes, restore reads back, when the codec round-trips the user. */
  lemma RestoreAfterSync(items: map<string, string>, token: string, user: SessionUser, codec: Codec)
    requires token != "" && Acceptable(user)
    requires codec.stringify(user) != "" && codec.parse(codec.stringify(user)) == Some(user)
    ensures StoredSession(SyncedItems(items, Some(token), Some(user), codec), codec) == Some((token, user))
  {
  }

  /** After a sync with no session, restore finds nothing. */
  lemma RestoreAfterClear(items: map<string, string>, codec: Codec)
    ensures StoredSession(SyncedItems(items, None, None, codec), codec).None?
  {
  }

  class AuthProvider {
    var user: Option<SessionUser>
    var token: Option<string>
    var loading: bool
    const storage: Browser.LocalStorage

    /** Every transition sets both or clears both. */
    ghost predicate Valid()
      reads this
    {
      token.Some? <==> user.Some?
    }

    /** The first render: no session, still loading. */
    constructor (storage: Browser.LocalStorage)
      ensures Valid() && this.storage == storage
      ensures user.None? && token.None? && loading
    {
      this.storage := storage;
      user := None;
      token := None;
      loading := true;
    }

    /** login: a user without a name or an email is refused and nothing changes. */
    method Login(newToken: string, newUser: SessionUser)
      requires Valid()
      modifies this
      ensures Valid() && loading == old(loading)
      ensures Acceptable(newUser) ==> token == Some(newToken) && user == Some(newUser)
      ensures !Acceptable(newUser) ==> token == old(token) && user == old(user)
    {
      if !Acceptable(newUser) {
        return;
      }
      token := Some(newToken);
      user := Some(newUser);
    }

    method Logout()
      requires Valid()
      modifies this
      ensures Valid() && loading == old(loading)
      ensures token.None? && user.None?
    {
      token := None;
      user := None;
    }

    /** The restore-on-mount effect. An acceptable stored pair becomes the
        session; a stored pair whose user does not parse to an acceptable one
        is removed; without both items nothing happens. Loading ends in every
        case. */
    method Restore(codec: Codec)
      requires Valid()
      modifies this, storage
      ensures Valid() && !loading
      ensures var stored := StoredSession(old(storage.items), codec);
        && (stored.Some? ==> token == Some(stored.value.0) && user == Some(stored.value.1)
                             && storage.items == old(storage.items))
        && (stored.None? ==> token == old(token) && user == old(user))
      ensures StoredSession(old(storage.items), codec).None? ==>
        var items := old(storage.items);
        storage.items == if TokenKey in items && items[TokenKey] != "" && UserKey in items && items[UserKey] != ""
                         then items - {TokenKey, UserKey} else items
    {
      var storedToken := storage.GetItem(TokenKey);
      var storedUser := storage.GetItem(UserKey);
      if storedToken.Some? && storedToken.value != "" && storedUser.Some? && storedUser.value != "" {
        var parsed := codec.parse(storedUser.value);
        if parsed.Some? && Acceptable(parsed.value) {
          token := Some(storedToken.value);
          user := Some(parsed.value);
        } else {
          storage.RemoveItem(TokenKey);
          storage.RemoveItem(UserKey);
        }
      }
      loading := false;
    }

    /** The storage-sync effect. */
    method Sync(codec: Codec)
      modifies storage
      ensures storage.items == SyncedItems(old(storage.items), token, user, codec)
    {
      if token.Some? && token.value != "" && user.Some? {
        storage.SetItem(TokenKey, token.value);
        storage.SetItem(UserKey, codec.stringify(user.value));
      } else {
        storage.RemoveItem(TokenKey);
        storage.RemoveItem(UserKey);
      }
    }
  }
}
