/** `auth.service.ts`: the session of the signed-in customer. The service
    keeps the user and the token in memory and mirrors them in storage;
    the API client's token is a ghost field. The clock is the `now`
    parameter, and the biometric plugin's answers are parameters too. */
module Auth {
  import opened Wrappers
  import opened Records
  import opened Strings
  import opened Storage

  const MOCK_USER_ID: string := "1"
  const MOCK_USER_NAME: string := "Paul Ngando"
  const MOCK_USER_EMAIL: string := "paul.ngando@email.com"
  const MOCK_USER_PHONE: string := "+237 6XX XX XX XX"
  const TOKEN_PREFIX: string := "mock_jwt_token_"
  const REFRESH_TOKEN_PREFIX: string := "mock_refresh_token_"
  const NEW_TOKEN_PREFIX: string := "new_mock_token_"

  const BIOMETRIC_UNAVAILABLE: string := "Authentification biométrique non disponible"
  const BIOMETRIC_FAILED: string := "Authentification biométrique échouée"
  const NO_BIOMETRIC_DATA: string := "Aucune donnée biométrique sauvegardée"
  const NO_REFRESH_TOKEN: string := "Aucun refresh token disponible"

  /** The answer `login` builds at `now`: the customer of the meter given,
      with a token and a refresh token stamped with the time. */
  function MockResponse(credentials: LoginCredentials, now: int): (r: AuthResponse)
    ensures r.user.compteur == credentials.compteur
    ensures r.token != "" && r.refreshToken != "" && r.token != r.refreshToken
  {
    assert TOKEN_PREFIX[5] != REFRESH_TOKEN_PREFIX[5];
    AuthResponse(User(MOCK_USER_ID, MOCK_USER_NAME, credentials.compteur, MOCK_USER_EMAIL, MOCK_USER_PHONE),
                 TOKEN_PREFIX + IntToString(now), REFRESH_TOKEN_PREFIX + IntToString(now))
  }

  /** The token `refreshToken` issues at `now`. */
  function NewToken(now: int): (token: string)
    ensures |token| > |NEW_TOKEN_PREFIX| && token[..|NEW_TOKEN_PREFIX|] == NEW_TOKEN_PREFIX
  {
    NEW_TOKEN_PREFIX + IntToString(now)
  }

  /** A token read from storage, as the service's `if (!token)` tests see it:
      absent or empty is no token. */
  function PresentToken(items: Items, k: string): (t: Option<string>)
    requires ValidItems(items) && IsTextKey(k)
    ensures t.Some? <==> k in items && items[k].text != ""
    ensures t.Some? ==> t.value == items[k].text
  {
    match TextAt(items, k)
    case Some(s) => if s != "" then Some(s) else None
    case None => None
  }

  /** What `setAuthData` writes: both tokens, the user and the status "true". */
  function WithAuthData(items: Items, data: AuthResponse): Items {
    items[AUTH_TOKEN_KEY := Text(data.token)]
         [REFRESH_TOKEN_KEY := Text(data.refreshToken)]
         [USER_DATA_KEY := Json(UserDoc(data.user))]
         [AUTH_STATUS_KEY := Text(BoolText(true))]
  }

  /** What `clearAuthData` leaves: no tokens, no user, and the status "false". */
  function WithoutAuthData(items: Items): Items {
    (items - {AUTH_TOKEN_KEY, REFRESH_TOKEN_KEY, USER_DATA_KEY})[AUTH_STATUS_KEY := Text(BoolText(false))]
  }

  /** The keys the session owns. */
  predicate IsSessionKey(k: string) {
    k == AUTH_TOKEN_KEY || k == REFRESH_TOKEN_KEY || k == USER_DATA_KEY || k == AUTH_STATUS_KEY
  }

  /** After `setAuthData` the stored session is the one given: the token
      reads back, the user reads back, the status is true; every other key
      is as it was. */
  lemma WithAuthDataStored(items: Items, data: AuthResponse)
    requires ValidItems(items)
    ensures var after := WithAuthData(items, data);
      && ValidItems(after)
      && TextAt(after, AUTH_TOKEN_KEY) == Some(data.token)
      && TextAt(after, REFRESH_TOKEN_KEY) == Some(data.refreshToken)
      && UserDataOf(after) == Some(data.user)
      && AuthStatusOf(after)
      && forall k :: !IsSessionKey(k) ==> (k in after <==> k in items) && (k in items ==> after[k] == items[k])
  {
  }

  /** After `clearAuthData` no session is stored: no token, no refresh
      token, no user, the status false; every other key is as it was. */
  lemma WithoutAuthDataCleared(items: Items)
    requires ValidItems(items)
    ensures var after := WithoutAuthData(items);
      && ValidItems(after)
      && TextAt(after, AUTH_TOKEN_KEY).None?
      && TextAt(after, REFRESH_TOKEN_KEY).None?
      && UserDataOf(after).None?
      && !AuthStatusOf(after)
      && forall k :: !IsSessionKey(k) ==> (k in after <==> k in items) && (k in items ==> after[k] == items[k])
  {
  }

  /** Clearing twice is clearing once, so `logout` clearing again after an
      error leaves the same storage; and signing in then out leaves what
      signing out alone leaves. */
  lemma ClearAuthDataIdempotent(items: Items, data: AuthResponse)
    ensures WithoutAuthData(WithoutAuthData(items)) == WithoutAuthData(items)
    ensures WithoutAuthData(WithAuthData(items, data)) == WithoutAuthData(items)
  {
    var a := WithoutAuthData(WithoutAuthData(items));
    assert a.Keys == WithoutAuthData(items).Keys;
    var b := WithoutAuthData(WithAuthData(items, data));
    assert b.Keys == WithoutAuthData(items).Keys;
  }

  class AuthService {
    const storage: StorageService
    var currentUser: Option<User>
    var authToken: Option<string>
    /** The token the API client sends (`apiClient.setAuthToken`). */
    ghost var apiToken: Option<string>

    constructor (storage: StorageService)
      ensures this.storage == storage
      ensures currentUser == None && authToken == None && apiToken == None
    {
      this.storage := storage;
      currentUser := None;
      authToken := None;
      apiToken := None;
    }

    /** `setAuthData`: the session in memory, in the API client and in storage. */
    method SetAuthData(data: AuthResponse)
      requires storage.Valid()
      modifies this, storage
      ensures storage.Valid()
      ensures currentUser == Some(data.user) && authToken == Some(data.token) && apiToken == Some(data.token)
      ensures storage.items == WithAuthData(old(storage.items), data)
    {
      currentUser := Some(data.user);
      authToken := Some(data.token);
      apiToken := Some(data.token);
      storage.SetAuthToken(data.token);
      storage.SetRefreshToken(data.refreshToken);
      storage.SetUserData(data.user);
      storage.SetAuthStatus(true);
    }

    /** `clearAuthData`: no session in memory, in the API client or in storage. */
    method ClearAuthData()
      requires storage.Valid()
      modifies this, storage
      ensures storage.Valid()
      ensures currentUser == None && authToken == None && apiToken == None
      ensures storage.items == WithoutAuthData(old(storage.items))
    {
      currentUser := None;
      authToken := None;
      apiToken := None;
      storage.ClearAuthToken();
      storage.ClearRefreshToken();
      storage.ClearUserData();
      storage.SetAuthStatus(false);
    }

    /** `login`: signs in the customer of the meter given. */
    method Login(credentials: LoginCredentials, now: int) returns (response: AuthResponse)
      requires storage.Valid()
      modifies this, storage
      ensures storage.Valid()
      ensures response == MockResponse(credentials, now)
      ensures currentUser == Some(response.user) && authToken == Some(response.token)
      ensures apiToken == Some(response.token)
      ensures storage.items == WithAuthData(old(storage.items), response)
    {
      response := MockResponse(credentials, now);
      SetAuthData(response);
    }

    /** `loginWithBiometric`: fails when biometrics are unavailable, when
        the authentication fails or when no credentials are saved, changing
        nothing; otherwise signs in with the saved credentials. */
    method LoginWithBiometric(available: bool, authenticated: bool, now: int) returns (result: Result<AuthResponse>)
      requires storage.Valid()
      modifies this, storage
      ensures storage.Valid()
      ensures !available ==> result == Err(BIOMETRIC_UNAVAILABLE)
      ensures available && !authenticated ==> result == Err(BIOMETRIC_FAILED)
      ensures available && authenticated && BiometricCredentialsOf(old(storage.items)).None? ==>
        result == Err(NO_BIOMETRIC_DATA)
      ensures result.Err? ==> unchanged(this) && unchanged(storage)
      ensures result.Ok? ==>
        && available && authenticated
        && BiometricCredentialsOf(old(storage.items)).Some?
        && result.value == MockResponse(BiometricCredentialsOf(old(storage.items)).value, now)
        && currentUser == Some(result.value.user) && authToken == Some(result.value.token)
        && storage.items == WithAuthData(old(storage.items), result.value)
    {
      if !available {
        return Err(BIOMETRIC_UNAVAILABLE);
      }
      if !authenticated {
        return Err(BIOMETRIC_FAILED);
      }
      var saved := storage.GetBiometricCredentials();
      if saved.None? {
        return Err(NO_BIOMETRIC_DATA);
      }
      var response := Login(saved.value, now);
      result := Ok(response);
    }

    /** `logout`: clears the session. */
    method Logout()
      requires storage.Valid()
      modifies this, storage
      ensures storage.Valid()
      ensures currentUser == None && authToken == None && apiToken == None
      ensures storage.items == WithoutAuthData(old(storage.items))
    {
      ClearAuthData();
    }

    /** `refreshToken`: with a stored refresh token, stores and uses a new
        token; without one, signs out and fails. */
    method RefreshToken(now: int) returns (result: Result<string>)
      requires storage.Valid()
      modifies this, storage
      ensures storage.Valid()
      ensures PresentToken(old(storage.items), REFRESH_TOKEN_KEY).None? ==>
        && result == Err(NO_REFRESH_TOKEN)
        && currentUser == None && authToken == None && apiToken == None
        && storage.items == WithoutAuthData(old(storage.items))
      ensures PresentToken(old(storage.items), REFRESH_TOKEN_KEY).Some? ==>
        && result == Ok(NewToken(now))
        && authToken == Some(NewToken(now)) && apiToken == Some(NewToken(now))
        && currentUser == old(currentUser)
        && storage.items == old(storage.items)[AUTH_TOKEN_KEY := Text(NewToken(now))]
    {
      var refreshToken := storage.GetRefreshToken();
      if refreshToken.None? || refreshToken.value == "" {
        Logout();
        return Err(NO_REFRESH_TOKEN);
      }
      var newToken := NewToken(now);
      storage.SetAuthToken(newToken);
      apiToken := Some(newToken);
      authToken := Some(newToken);
      result := Ok(newToken);
    }

    /** `isAuthenticated`: true exactly when a non-empty token is stored,
        which then becomes the service's token. */
    method IsAuthenticated() returns (authenticated: bool)
      requires storage.Valid()
      modifies this
      ensures authenticated <==> PresentToken(storage.items, AUTH_TOKEN_KEY).Some?
      ensures authenticated ==> authToken == PresentToken(storage.items, AUTH_TOKEN_KEY) && apiToken == authToken
      ensures !authenticated ==> authToken == old(authToken) && apiToken == old(apiToken)
      ensures currentUser == old(currentUser)
    {
      var token := storage.GetAuthToken();
      if token.None? || token.value == "" {
        return false;
      }
      authToken := token;
      apiToken := token;
      authenticated := true;
    }

    /** `getCurrentUser`: the user in memory, else the stored user, which
        is then kept in memory, else none. */
    method GetCurrentUser() returns (user: Option<User>)
      requires storage.Valid()
      modifies this
      ensures user == (if old(currentUser).Some? then old(currentUser) else UserDataOf(storage.items))
      ensures currentUser == user
      ensures authToken == old(authToken) && apiToken == old(apiToken)
    {
      if currentUser.Some? {
        return currentUser;
      }
      user := storage.GetUserData();
      if user.Some? {
        currentUser := user;
      }
    }
  }

  /** After `login` the session is authenticated and its user is the
      customer of the meter given; after `logout` it is not, and no user is
      found. */
  lemma LoginThenLogout(items: Items, credentials: LoginCredentials, now: int)
    requires ValidItems(items)
    ensures var signedIn := WithAuthData(items, MockResponse(credentials, now));
      && ValidItems(signedIn)
      && PresentToken(signedIn, AUTH_TOKEN_KEY) == Some(MockResponse(credentials, now).token)
      && UserDataOf(signedIn).Some? && UserDataOf(signedIn).value.compteur == credentials.compteur
    ensures var signedOut := WithoutAuthData(items);
      && ValidItems(signedOut)
      && PresentToken(signedOut, AUTH_TOKEN_KEY).None?
      && PresentToken(signedOut, REFRESH_TOKEN_KEY).None?
      && UserDataOf(signedOut).None?
  {
    WithAuthDataStored(items, MockResponse(credentials, now));
    WithoutAuthDataCleared(items);
  }

  /** A refresh right after a sign-out fails: the sign-out removed the
      refresh token. */
  lemma RefreshAfterLogoutFails(items: Items)
    requires ValidItems(items)
    ensures ValidItems(WithoutAuthData(items))
    ensures PresentToken(WithoutAuthData(items), REFRESH_TOKEN_KEY).None?
  {
    WithoutAuthDataCleared(items);
  }
}
