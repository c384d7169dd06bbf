/**
 * The persisted login session of the web client: the user, kept in three
 * local-storage items and mirrored in the default `Authorization` request
 * header, restored when the provider mounts, written by `login` and removed
 * by `logout`.
 */
module AuthContext {
  import opened Wrappers
  import opened JsStrings

  datatype User = User(address: string, token: string, streamToken: string)

  const JwtKey := "jwt"
  const StreamTokenKey := "streamToken"
  const AddressKey := "address"
  const AuthorizationHeader := "Authorization"
  const NoAccountAlert := "Please connect your wallet first."
  const NoWalletAlert := "No wallet instance found."
  const OutsideProviderError := "useAuth must be used within an AuthProvider"

  /** `localStorage.getItem(key)`: null for a missing item. */
  function GetItem(store: map<string, string>, key: string): Option<string> {
    if key in store then Some(store[key]) else None
  }

  /** `"Bearer " + token`, the header value the client sends. */
  function BearerValue(token: string): string {
    "Bearer " + token
  }

  /** The user the mount effect finds in storage: all three items must be present and non-empty. */
  function RestoredUser(store: map<string, string>): (r: Option<User>)
    ensures r.Some? <==> Truthy(GetItem(store, JwtKey)) && Truthy(GetItem(store, StreamTokenKey))
                         && Truthy(GetItem(store, AddressKey))
    ensures r.Some? ==> r.value.token == store[JwtKey] && r.value.streamToken == store[StreamTokenKey]
                        && r.value.address == store[AddressKey]
  {
    var token, streamToken, address := GetItem(store, JwtKey), GetItem(store, StreamTokenKey), GetItem(store, AddressKey);
    if Truthy(token) && Truthy(streamToken) && Truthy(address)
    then Some(User(address.value, token.value, streamToken.value))
    else None
  }

  /** Storage after `login` wrote the user's three items. */
  function StoreUser(store: map<string, string>, u: User): (r: map<string, string>)
    ensures r.Keys == store.Keys + {JwtKey, StreamTokenKey, AddressKey}
    ensures r[JwtKey] == u.token && r[StreamTokenKey] == u.streamToken && r[AddressKey] == u.address
    ensures forall k :: k in store && k !in {JwtKey, StreamTokenKey, AddressKey} ==> r[k] == store[k]
  {
    store[JwtKey := u.token][StreamTokenKey := u.streamToken][AddressKey := u.address]
  }

  /** Storage after `logout` removed the three items; every other item stays. */
  function ClearUser(store: map<string, string>): (r: map<string, string>)
    ensures r.Keys == store.Keys - {JwtKey, StreamTokenKey, AddressKey}
    ensures forall k :: k in r ==> r[k] == store[k]
  {
    store - {JwtKey, StreamTokenKey, AddressKey}
  }

  /** A later mount restores exactly the user a login stored, provided none of its three values is empty. */
  lemma LoginThenRestore(store: map<string, string>, u: User)
    ensures RestoredUser(StoreUser(store, u)) ==
      if u.token != "" && u.streamToken != "" && u.address != "" then Some(u) else None
  {
    var r := StoreUser(store, u);
    assert GetItem(r, JwtKey) == Some(u.token);
    assert GetItem(r, StreamTokenKey) == Some(u.streamToken);
    assert GetItem(r, AddressKey) == Some(u.address);
  }

  /** After a logout a later mount restores no user, whatever else storage holds. */
  lemma LogoutThenRestore(store: map<string, string>)
    ensures RestoredUser(ClearUser(store)) == None
  {
    assert GetItem(ClearUser(store), JwtKey) == None;
  }

  /** How `login` ends: an alert and early return, a failed request, or a stored user. */
  datatype LoginOutcome = Alerted(message: string) | RequestFailed | LoggedIn(user: User)

  /** The value the provider hands to its children. */
  datatype AuthContextValue = AuthContextValue(user: Option<User>, isLoading: bool)

  /** `useAuth()`: the provider's value, or an error when there is no enclosing provider. */
  function UseAuth(context: Option<AuthContextValue>): (r: Result<AuthContextValue, string>)
    ensures r.Failure? <==> context.None?
    ensures r.Failure? ==> r.error == OutsideProviderError
    ensures r.Success? ==> r.value == context.value
  {
    match context
    case None => Failure(OutsideProviderError)
    case Some(value) => Success(value)
  }

  /**
   * `AuthProvider` with the browser's local storage and axios's common request
   * headers as fields. Both are process-wide in the browser: a provider
   * created later is given the maps an earlier one left behind. The connected
   * account, the wallet and the outcome of the three requests login makes are
   * inputs of `Login`.
   */
  class AuthProvider {
    var user: Option<User>
    var isLoading: bool
    var storage: map<string, string>
    var headers: map<string, string>

    function Value(): AuthContextValue
      reads this
    {
      AuthContextValue(user, isLoading)
    }

    constructor (storage: map<string, string>, headers: map<string, string>)
      ensures user == None && isLoading
      ensures this.storage == storage && this.headers == headers
    {
      user := None;
      isLoading := true;
      this.storage := storage;
      this.headers := headers;
    }

    /** The effect that runs on mount: restore the stored user, if any, and stop loading. */
    method Mount()
      modifies this
      ensures storage == old(storage) && !isLoading
      ensures var restored := RestoredUser(storage);
        && (restored.Some? ==> user == restored && headers == old(headers)[AuthorizationHeader := BearerValue(restored.value.token)])
        && (restored.None? ==> user == old(user) && headers == old(headers))
    {
      var token, streamToken, address := GetItem(storage, JwtKey), GetItem(storage, StreamTokenKey), GetItem(storage, AddressKey);
      if Truthy(token) && Truthy(streamToken) && Truthy(address) {
        user := Some(User(address.value, token.value, streamToken.value));
        headers := headers[AuthorizationHeader := BearerValue(token.value)];
      }
      isLoading := false;
    }

    /**
     * `login`: `account` is the connected account's address, `hasWallet` whether
     * a wallet is active, and `response` what the payload, signing and login
     * requests end with (the user the server returned, or an error).
     */
    method Login(account: Option<string>, hasWallet: bool, response: Result<User, string>) returns (outcome: LoginOutcome)
      modifies this
      ensures !Truthy(account) ==> outcome == Alerted(NoAccountAlert)
      ensures Truthy(account) && !hasWallet ==> outcome == Alerted(NoWalletAlert)
      ensures Truthy(account) && hasWallet && response.Failure? ==> outcome == RequestFailed
      ensures !outcome.LoggedIn? ==> unchanged(this)
      ensures outcome.LoggedIn? <==> Truthy(account) && hasWallet && response.Success?
      ensures outcome.LoggedIn? ==>
        && outcome.user == response.value
        && storage == StoreUser(old(storage), response.value)
        && headers == old(headers)[AuthorizationHeader := BearerValue(response.value.token)]
        && user == Some(response.value)
        && isLoading == old(isLoading)
    {
      if !Truthy(account) {
        return Alerted(NoAccountAlert);
      }
      if !hasWallet {
        return Alerted(NoWalletAlert);
      }
      if response.Failure? {
        return RequestFailed;
      }
      var u := response.value;
      storage := storage[JwtKey := u.token];
      storage := storage[StreamTokenKey := u.streamToken];
      storage := storage[AddressKey := u.address];
      headers := headers[AuthorizationHeader := BearerValue(u.token)];
      user := Some(u);
      outcome := LoggedIn(u);
    }

    /** `logout`: remove the three items and the header, and forget the user. */
    method Logout()
      modifies this
      ensures storage == ClearUser(old(storage))
      ensures headers == old(headers) - {AuthorizationHeader}
      ensures user == None && isLoading == old(isLoading)
    {
      storage := storage - {JwtKey};
      storage := storage - {StreamTokenKey};
      storage := storage - {AddressKey};
      headers := headers - {AuthorizationHeader};
      user := None;
    }
  }

  /**
   * A fresh provider mounted over the storage a login left behind has the
   * logged-in user again and sends the same header; after a logout it has none.
   */
  method RemountAfterLogin(storage: map<string, string>, headers: map<string, string>, u: User)
    returns (again: Option<User>, afterLogout: Option<User>)
    requires u.token != "" && u.streamToken != "" && u.address != ""
    ensures again == Some(u)
    ensures afterLogout == None
  {
    var first := new AuthProvider(storage, headers);
    first.Mount();
    var outcome := first.Login(Some(u.address), true, Success(u));
    var second := new AuthProvider(first.storage, first.headers);
    LoginThenRestore(storage, u);
    second.Mount();
    assert second.headers[AuthorizationHeader] == BearerValue(u.token);
    again := second.user;
    first.Logout();
    var third := new AuthProvider(first.storage, first.headers);
    LogoutThenRestore(second.storage);
    third.Mount();
    afterLogout := third.user;
  }
}
