/**
 * The authentication store (src/stores/auth.ts): the session token, mirrored into the
 * client's `Api.token` and optionally remembered in `localStorage`, and the signed-in user.
 */
module AuthStore {
  import opened Common
  import Client
  import UserApi

  /** The `localStorage` key of the remembered token. */
  const SecurityTokenKey: string := "auth_token"

  /** `Object.assign(target, source)` for a user parsed from JSON: every property `source` has wins. */
  function AssignUser(target: UserApi.User, source: UserApi.User): UserApi.User
  {
    UserApi.User(
      if source.id.Some? then source.id else target.id,
      source.email, source.name, source.surname,
      if source.metadata.Some? then source.metadata else target.metadata,
      if source.createdAt.Some? then source.createdAt else target.createdAt,
      if source.updatedAt.Some? then source.updatedAt else target.updatedAt)
  }

  /**
   * `mapUser(data)`: data without a truthy id is returned as it is; otherwise it is copied
   * onto `new User(email, name, surname)`, so the only thing that can change is a missing
   * `metadata`, which becomes `{}`.
   */
  function MapUser(data: UserApi.User): (u: UserApi.User)
    ensures !IdTruthy(data.id) ==> u == data
    ensures u.id == data.id && u.email == data.email && u.name == data.name && u.surname == data.surname
    ensures u.createdAt == data.createdAt && u.updatedAt == data.updatedAt
    ensures IdTruthy(data.id) ==> u.metadata == Some(OrDefault(data.metadata, map[]))
  {
    if !IdTruthy(data.id) then data
    else AssignUser(UserApi.NewUser(data.email, data.name, data.surname, None, None, None, None), data)
  }

  /** Mapping a mapped user again changes nothing. */
  lemma MapUserIdempotent(data: UserApi.User)
    ensures MapUser(MapUser(data)) == MapUser(data)
  {
  }

  /** A user the server sends with a truthy id comes out in the shape the `User` constructor gives. */
  lemma MapUserNormalizes(data: UserApi.User)
    requires IdTruthy(data.id)
    ensures UserApi.Normalized(MapUser(data))
  {
  }

  /** The stored token, as `localStorage.getItem(SECURITY_TOKEN_KEY)` returns it. */
  function StoredToken(storage: map<string, string>): (t: Option<string>)
    ensures t.Some? <==> SecurityTokenKey in storage
    ensures t.Some? ==> t.value == storage[SecurityTokenKey]
  {
    if SecurityTokenKey in storage then Some(storage[SecurityTokenKey]) else None
  }

  /** The store: `token`, `user`, the browser's `localStorage` and the client whose `Api.token` it sets. */
  class Store {
    var token: Option<string>
    var user: Option<UserApi.User>
    var storage: map<string, string>
    const api: Client.ApiSession

    /**
     * `isAuthenticated`: a token is set (even an empty one). While the client mirrors the store,
     * it holds a token exactly then, but an empty token sends no `Authorization` header.
     */
    predicate IsAuthenticated()
      reads this, api
      ensures Mirrored() ==> (IsAuthenticated() <==> api.token.Some?)
      ensures Mirrored() && IsAuthenticated() && !TextTruthy(token) ==> Client.AuthorizationHeader(true, api.token).None?
    {
      token.Some?
    }

    /** The client sends exactly the store's token. */
    predicate Mirrored()
      reads this, api
    {
      api.token == token
    }

    /** Creating the store runs `initialize()`. */
    constructor(localStorage: map<string, string>, client: Client.ApiSession)
      modifies client
      ensures api == client && storage == localStorage && user.None?
      ensures TextTruthy(StoredToken(localStorage)) ==> token == StoredToken(localStorage) && Mirrored()
      ensures !TextTruthy(StoredToken(localStorage)) ==> token.None? && client.token == old(client.token)
    {
      token := None;
      user := None;
      storage := localStorage;
      api := client;
      new;
      Initialize();
    }

    /** `initialize()`: adopt the remembered token only when it is a non-empty string. */
    method Initialize()
      modifies this, api
      ensures storage == old(storage) && user == old(user)
      ensures TextTruthy(StoredToken(storage)) ==> token == StoredToken(storage) && Mirrored()
      ensures !TextTruthy(StoredToken(storage)) ==> token == old(token) && api.token == old(api.token)
    {
      var storedToken := StoredToken(storage);
      if TextTruthy(storedToken) {
        SetToken(storedToken);
      }
    }

    /** `setToken(value)`: the store and the client get the same token. */
    method SetToken(value: Option<string>)
      modifies this, api
      ensures token == value && api.token == value
      ensures storage == old(storage) && user == old(user)
    {
      token := value;
      api.token := value;
    }

    /** `updateToken(value, rememberMe = true)`: remembered only when asked, always set. */
    method UpdateToken(value: string, rememberMe: Option<bool>)
      modifies this, api
      ensures token == Some(value) && Mirrored()
      ensures storage == if OrDefault(rememberMe, true) then old(storage)[SecurityTokenKey := value] else old(storage)
      ensures user == old(user)
    {
      if OrDefault(rememberMe, true) {
        storage := storage[SecurityTokenKey := value];
      }
      SetToken(Some(value));
    }

    /** `removeToken()`: forget the remembered token and clear the session. */
    method RemoveToken()
      modifies this, api
      ensures token.None? && Mirrored() && !IsAuthenticated()
      ensures storage == old(storage) - {SecurityTokenKey}
      ensures user == old(user)
    {
      storage := storage - {SecurityTokenKey};
      SetToken(None);
    }

    /**
     * `fetchProfile()` given the answer of `UserApi.getProfile` (`outcome`): without a truthy
     * token nothing is asked; a failure is swallowed and leaves `user` as it was.
     */
    method FetchProfile(outcome: Result<UserApi.User, Client.ApiError>) returns (asked: bool, result: Option<UserApi.User>)
      modifies this
      ensures asked <==> TextTruthy(old(token))
      ensures asked && outcome.Ok? ==> user == Some(MapUser(outcome.value)) && result == user
      ensures !(asked && outcome.Ok?) ==> user == old(user) && result.None?
      ensures token == old(token) && storage == old(storage)
    {
      if !TextTruthy(token) {
        asked := false;
        result := None;
        return;
      }
      asked := true;
      match outcome {
        case Ok(data) =>
          user := Some(MapUser(data));
          result := user;
        case Err(_) =>
          result := None;
      }
    }

    /**
     * `login(credentials)` given the answers of `UserApi.login` and `UserApi.getProfile`: a
     * rejected login propagates and changes nothing; otherwise the token is remembered
     * (`rememberMe = true`) before the profile is fetched.
     */
    method Login(credentials: UserApi.Credentials, answer: Result<UserApi.AuthenticationToken, Client.ApiError>,
                 profile: Result<UserApi.User, Client.ApiError>)
      returns (request: Client.Request<UserApi.UserBody>, result: Result<(), Client.ApiError>)
      modifies this, api
      ensures request == UserApi.LogIn(UserApi.Credentials(credentials.email, credentials.password))
      ensures answer.Err? ==> result == Err(answer.error) && token == old(token) && storage == old(storage)
                              && user == old(user) && api.token == old(api.token)
      ensures answer.Ok? ==> result == Ok(()) && token == Some(answer.value.token) && Mirrored()
                             && storage == old(storage)[SecurityTokenKey := answer.value.token]
      ensures answer.Ok? && answer.value.token != "" && profile.Ok? ==> user == Some(MapUser(profile.value))
      ensures answer.Ok? && !(answer.value.token != "" && profile.Ok?) ==> user == old(user)
    {
      request := UserApi.LogIn(UserApi.Credentials(credentials.email, credentials.password));
      match answer {
        case Err(e) =>
          result := Err(e);
        case Ok(t) =>
          UpdateToken(t.token, Some(true));
          var asked, fetched := FetchProfile(profile);
          result := Ok(());
      }
    }

    /**
     * `logout()` given the answer of `UserApi.logout`: the user is dropped first and the token
     * is removed whatever the server answered.
     */
    method Logout(answer: Result<(), Client.ApiError>) returns (request: Client.Request<UserApi.UserBody>)
      modifies this, api
      ensures request == UserApi.LogOut()
      ensures user.None? && token.None? && Mirrored() && !IsAuthenticated()
      ensures storage == old(storage) - {SecurityTokenKey} && SecurityTokenKey !in storage
    {
      user := None;
      request := UserApi.LogOut();
      RemoveToken();
    }

    /** `updateProfile(updates)` given the answer of `UserApi.updateProfile`: a failure propagates. */
    method UpdateProfile(updates: UserApi.ProfileUpdates, answer: Result<UserApi.User, Client.ApiError>)
      returns (request: Client.Request<UserApi.UserBody>, result: Result<UserApi.User, Client.ApiError>)
      modifies this
      ensures request == UserApi.UpdateProfile(updates)
      ensures answer.Ok? ==> user == Some(MapUser(answer.value)) && result == Ok(MapUser(answer.value))
      ensures answer.Err? ==> user == old(user) && result == Err(answer.error)
      ensures token == old(token) && storage == old(storage)
    {
      request := UserApi.UpdateProfile(updates);
      match answer {
        case Ok(data) =>
          user := Some(MapUser(data));
          result := Ok(MapUser(data));
        case Err(e) =>
          result := Err(e);
      }
    }

    /** `register(data)` given the answer of `UserApi.register`: the created user comes back mapped. */
    method Register(data: UserApi.RegistrationData, answer: Result<UserApi.User, Client.ApiError>)
      returns (request: Client.Request<UserApi.UserBody>, result: Result<UserApi.User, Client.ApiError>)
      ensures request == UserApi.Register(data)
      ensures answer.Ok? ==> result == Ok(MapUser(answer.value))
      ensures answer.Err? ==> result == Err(answer.error)
    {
      var regData := UserApi.RegistrationData(data.email, data.name, data.surname, data.password, data.metadata);
      request := UserApi.Register(regData);
      match answer {
        case Ok(created) => result := Ok(MapUser(created));
        case Err(e) => result := Err(e);
      }
    }

    /** `verifyAccount(code)` given the answer of `UserApi.verifyAccount`: the verified user comes back mapped. */
    method VerifyAccount(code: string, answer: Result<UserApi.User, Client.ApiError>)
      returns (request: Client.Request<UserApi.UserBody>, result: Result<UserApi.User, Client.ApiError>)
      ensures request == UserApi.VerifyAccount(code)
      ensures answer.Ok? ==> result == Ok(MapUser(answer.value))
      ensures answer.Err? ==> result == Err(answer.error)
    {
      request := UserApi.VerifyAccount(code);
      match answer {
        case Ok(verified) => result := Ok(MapUser(verified));
        case Err(e) => result := Err(e);
      }
    }
  }
}
