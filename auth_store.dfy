/** The authentication store (src/lib/store/authStore.ts): the signed-in user and the
    `isAuthenticated`/`isLoading` flags, kept together with the access token held by the
    API client and the two local-storage slots of the session. JSON serialisation of the
    user is a parameter: `serialize` stands for `JSON.stringify`, `parse` for `JSON.parse`
    (None when it throws). */
module AuthStore {
  import opened Wrappers
  import opened Types
  import opened AppConfig
  import ApiClient
  import Browser

  /** The user `initializeAuth` restores from storage: only when both slots hold non-empty
      strings and the stored user decodes. */
  function RestoredUser(items: map<string, string>, parse: string -> Option<User>): (r: Option<User>)
    ensures r.Some? ==>
      && UserStorageKey in items && items[UserStorageKey] != ""
      && RefreshTokenStorageKey in items && items[RefreshTokenStorageKey] != ""
      && parse(items[UserStorageKey]) == r
    ensures (UserStorageKey in items && items[UserStorageKey] != ""
             && RefreshTokenStorageKey in items && items[RefreshTokenStorageKey] != "")
            ==> r == parse(items[UserStorageKey])
  {
    if UserStorageKey in items && items[UserStorageKey] != ""
       && RefreshTokenStorageKey in items && items[RefreshTokenStorageKey] != ""
    then parse(items[UserStorageKey])
    else None
  }

  /** The storage a login leaves behind. */
  function StoredSession(items: map<string, string>, user: User, refreshToken: string,
                         serialize: User -> string): map<string, string>
  {
    items[RefreshTokenStorageKey := refreshToken][UserStorageKey := serialize(user)]
  }

  /** The storage a logout leaves behind. */
  function ClearedSession(items: map<string, string>): map<string, string> {
    items - {RefreshTokenStorageKey, UserStorageKey}
  }

  class AuthStore {
    var user: Option<User>
    var isAuthenticated: bool
    var isLoading: bool
    const tokens: ApiClient.TokenHolder
    const storage: Browser.LocalStorage

    /** The store's initial state: no user, not authenticated, loading. */
    constructor (tokens: ApiClient.TokenHolder, storage: Browser.LocalStorage)
      ensures user == None && !isAuthenticated && isLoading
      ensures this.tokens == tokens && this.storage == storage
    {
      user, isAuthenticated, isLoading := None, false, true;
      this.tokens, this.storage := tokens, storage;
    }

    /** `login`: hold the access token, store the refresh token and the serialised user,
        and mark the session authenticated. */
    method Login(u: User, accessToken: string, refreshToken: string, serialize: User -> string)
      modifies this, tokens, storage
      ensures tokens.accessToken == Some(accessToken)
      ensures storage.items == StoredSession(old(storage.items), u, refreshToken, serialize)
      ensures user == Some(u) && isAuthenticated && !isLoading
    {
      tokens.SetAccessToken(Some(accessToken));
      storage.SetItem(RefreshTokenStorageKey, refreshToken);
      storage.SetItem(UserStorageKey, serialize(u));
      user, isAuthenticated, isLoading := Some(u), true, false;
    }

    /** `logout`: drop the access token and exactly the two session slots. */
    method Logout()
      modifies this, tokens, storage
      ensures tokens.accessToken == None
      ensures storage.items == ClearedSession(old(storage.items))
      ensures user == None && !isAuthenticated && !isLoading
    {
      tokens.SetAccessToken(None);
      storage.RemoveItem(RefreshTokenStorageKey);
      storage.RemoveItem(UserStorageKey);
      user, isAuthenticated, isLoading := None, false, false;
    }

    /** `setUser`: authenticated exactly when a user is given; loading is untouched. */
    method SetUser(u: Option<User>)
      modifies this
      ensures user == u && isAuthenticated == u.Some?
      ensures isLoading == old(isLoading)
    {
      user, isAuthenticated := u, u.Some?;
    }

    /** `initializeAuth`: restore the session from storage when both slots are present and
        the user decodes; otherwise only stop loading. */
    method InitializeAuth(parse: string -> Option<User>)
      modifies this
      ensures RestoredUser(storage.items, parse).Some? ==>
        user == RestoredUser(storage.items, parse) && isAuthenticated
      ensures RestoredUser(storage.items, parse).None? ==>
        user == old(user) && isAuthenticated == old(isAuthenticated)
      ensures !isLoading
    {
      var userStr := storage.GetItem(UserStorageKey);
      var refreshToken := storage.GetItem(RefreshTokenStorageKey);
      if userStr.Some? && userStr.value != "" && refreshToken.Some? && refreshToken.value != "" {
        var decoded := parse(userStr.value);
        if decoded.Some? {
          user, isAuthenticated, isLoading := decoded, true, false;
        } else {
          // JSON.parse threw: the catch block only stops loading.
          isLoading := false;
        }
      } else {
        isLoading := false;
      }
    }
  }

  /** A session stored by `login` is restored by the next `initializeAuth`, provided the
      refresh token is non-empty and the user survives its JSON round trip. */
  lemma {:induction false} LoginSurvivesReload(
    items: map<string, string>, u: User, refreshToken: string,
    serialize: User -> string, parse: string -> Option<User>)
    requires refreshToken != "" && serialize(u) != ""
    requires parse(serialize(u)) == Some(u)
    ensures RestoredUser(StoredSession(items, u, refreshToken, serialize), parse) == Some(u)
  {
    var stored := StoredSession(items, u, refreshToken, serialize);
    assert stored[UserStorageKey] == serialize(u);
    assert stored[RefreshTokenStorageKey] == refreshToken;
  }

  /** After `logout` nothing is restored, and every other slot (the cart's among them)
      keeps its value. */
  lemma LogoutForgetsSession(items: map<string, string>, parse: string -> Option<User>)
    ensures RestoredUser(ClearedSession(items), parse) == None
    ensures forall k :: k in items && k != RefreshTokenStorageKey && k != UserStorageKey ==>
      k in ClearedSession(items) && ClearedSession(items)[k] == items[k]
    ensures CartStorageKey in items ==>
      CartStorageKey in ClearedSession(items) && ClearedSession(items)[CartStorageKey] == items[CartStorageKey]
  {
  }
}
