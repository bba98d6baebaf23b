/**
 * The session store behind `useAuth`: the signed-in user, the loading and
 * initialising flags, the error message, the provider's token client, and the
 * browser storage holding the "user" entry.
 *
 * Each asynchronous step of the provider is one method here. The outcomes of
 * the calls into the identity provider (loading its script, creating the token
 * client, requesting a token, the profile it answers with) are parameters.
 * Navigation is recorded as the last route pushed.
 */
module AuthContext {
  import opened Wrappers
  import opened PizzaTypes
  import Config
  import UserCodec

  /** The profile the identity provider hands to the callback. */
  datatype GoogleUser = GoogleUser(id: string, name: string, email: string, picture: string)

  /** The provider's token client; only whether there is one matters here. */
  datatype TokenClient = TokenClient(clientId: string)

  const StorageKey: string := "user"

  const ConfigError: string :=
    "Configuration error: Google Client ID not found. Please check your environment variables."
  const ScriptLoadError: string := "Failed to load Google authentication"
  const ClientInitError: string :=
    "Failed to initialize Google authentication. Please check your configuration."
  const AuthFailedError: string := "Failed to authenticate with Google"
  const RequestFailedError: string := "Failed to start Google authentication"
  const NotInitializedError: string := "Google authentication not initialized"

  /** The record kept for a provider profile; the picture becomes the image. */
  function ToUser(g: GoogleUser): User {
    User(g.id, Some(g.name), Some(g.email), Some(g.picture))
  }

  /** The stored entry is present and not empty (JavaScript truthiness). */
  predicate HasEntry(storage: map<string, string>) {
    StorageKey in storage && storage[StorageKey] != ""
  }

  /**
   * Hydration from storage: the user the "user" entry decodes to, or, when the
   * entry is malformed, the storage with that entry removed.
   */
  function Hydrate(user: Option<User>, storage: map<string, string>): (r: (Option<User>, map<string, string>))
    ensures r.1 == storage || r.1 == storage - {StorageKey}
    ensures HasEntry(r.1) ==> UserCodec.Decode(r.1[StorageKey]).Some?
    ensures r.0 == if HasEntry(r.1) then UserCodec.Decode(r.1[StorageKey]) else user
    ensures HasEntry(storage) ==> (HasEntry(r.1) <==> UserCodec.Decode(storage[StorageKey]).Some?)
    ensures !HasEntry(storage) ==> r == (user, storage)
  {
    if HasEntry(storage) then
      var decoded := UserCodec.Decode(storage[StorageKey]);
      if decoded.Some? then (decoded, storage) else (user, storage - {StorageKey})
    else (user, storage)
  }

  class AuthProvider {
    var user: Option<User>
    var isLoading: bool
    var isInitializing: bool
    var error: Option<string>
    var googleClient: Option<TokenClient>
    /** The browser's local storage. */
    var storage: map<string, string>
    /** The last route handed to the router. */
    var route: Option<string>
    /** How often the provider's script was asked to load. */
    var scriptLoads: nat
    /** The delayed client initialisation is scheduled and has not yet run. */
    var timerPending: bool
    /** How often a token was requested from the provider. */
    var tokenRequests: nat

    /** The user in memory is the one the stored entry decodes to. */
    ghost predicate Valid()
      reads this
    {
      user.Some? ==> StorageKey in storage && UserCodec.Decode(storage[StorageKey]) == user
    }

    /** The provider as it mounts: no user, not loading, initialising. */
    constructor (initialStorage: map<string, string>)
      ensures Valid()
      ensures user.None? && !isLoading && isInitializing && error.None? && googleClient.None?
      ensures storage == initialStorage && route.None?
      ensures scriptLoads == 0 && !timerPending && tokenRequests == 0
    {
      user := None;
      isLoading := false;
      isInitializing := true;
      error := None;
      googleClient := None;
      storage := initialStorage;
      route := None;
      scriptLoads := 0;
      timerPending := false;
      tokenRequests := 0;
    }

    /**
     * `isAuthenticated`: there is a user, and in a consistent session that
     * user is the one the stored entry decodes to.
     */
    function IsAuthenticated(): (b: bool)
      reads this
      ensures b <==> user.Some?
      ensures Valid() && b ==> StorageKey in storage && UserCodec.Decode(storage[StorageKey]) == user
    {
      user.Some?
    }

    /**
     * `initAuth` up to the scheduling of the delayed client set-up. A rejected
     * configuration stops before anything is loaded; a failed script load
     * stops before hydration; otherwise the stored user is hydrated.
     */
    method InitAuth(env: Config.Env, scriptLoadSucceeds: bool)
      requires Valid()
      modifies this
      ensures Valid()
      ensures googleClient == old(googleClient) && isLoading == old(isLoading)
      ensures route == old(route) && tokenRequests == old(tokenRequests)
      ensures !Config.ValidateConfig(env) ==>
                && error == Some(ConfigError) && !isInitializing
                && user == old(user) && storage == old(storage)
                && scriptLoads == old(scriptLoads) && timerPending == old(timerPending)
      ensures Config.ValidateConfig(env) ==> scriptLoads == old(scriptLoads) + 1
      ensures Config.ValidateConfig(env) && !scriptLoadSucceeds ==>
                && error == Some(ScriptLoadError) && !isInitializing
                && user == old(user) && storage == old(storage) && timerPending == old(timerPending)
      ensures Config.ValidateConfig(env) && scriptLoadSucceeds ==>
                && (user, storage) == Hydrate(old(user), old(storage))
                && error == old(error) && isInitializing == old(isInitializing) && timerPending
    {
      if !Config.ValidateConfig(env) {
        error := Some(ConfigError);
        isInitializing := false;
        return;
      }
      scriptLoads := scriptLoads + 1;
      if !scriptLoadSucceeds {
        error := Some(ScriptLoadError);
        isInitializing := false;
        return;
      }
      if HasEntry(storage) {
        var decoded := UserCodec.Decode(storage[StorageKey]);
        if decoded.Some? {
          user := decoded;
        } else {
          storage := storage - {StorageKey};
        }
      }
      timerPending := true;
    }

    /**
     * The delayed client set-up: keeps the client the provider created, or
     * records the error when it created none; initialisation is over either way.
     */
    method CompleteInit(client: Option<TokenClient>)
      requires Valid() && timerPending
      modifies this
      ensures Valid()
      ensures !isInitializing && !timerPending
      ensures client.Some? ==> googleClient == client && error == old(error)
      ensures client.None? ==> googleClient == old(googleClient) && error == Some(ClientInitError)
      ensures user == old(user) && isLoading == old(isLoading) && storage == old(storage)
      ensures route == old(route) && scriptLoads == old(scriptLoads) && tokenRequests == old(tokenRequests)
    {
      if client.Some? {
        googleClient := client;
      } else {
        error := Some(ClientInitError);
      }
      isInitializing := false;
      timerPending := false;
    }

    /**
     * The callback the provider answers with. A profile becomes the user, is
     * stored under "user" and leads to the dashboard; no profile records the
     * failure and leaves the user and the storage alone.
     */
    method OnProviderResult(googleUser: Option<GoogleUser>)
      requires Valid()
      modifies this
      ensures Valid()
      ensures !isLoading
      ensures googleUser.Some? ==>
                && user == Some(ToUser(googleUser.value))
                && storage == old(storage)[StorageKey := UserCodec.Encode(ToUser(googleUser.value))]
                && route == Some("/dashboard") && error == old(error)
      ensures googleUser.None? ==>
                && error == Some(AuthFailedError)
                && user == old(user) && storage == old(storage) && route == old(route)
      ensures isInitializing == old(isInitializing) && googleClient == old(googleClient)
      ensures scriptLoads == old(scriptLoads) && timerPending == old(timerPending)
      ensures tokenRequests == old(tokenRequests)
    {
      isLoading := false;
      if googleUser.Some? {
        var userData := ToUser(googleUser.value);
        user := Some(userData);
        storage := storage[StorageKey := UserCodec.Encode(userData)];
        UserCodec.DecodeEncode(userData);
        route := Some("/dashboard");
      } else {
        error := Some(AuthFailedError);
      }
    }

    /**
     * `login`: clears the error and starts loading; with a client it requests a
     * token (a request that throws ends loading with an error), without one it
     * ends loading with "not initialized" and requests nothing.
     */
    method Login(requestThrows: bool)
      requires Valid()
      modifies this
      ensures Valid()
      ensures googleClient.Some? ==> tokenRequests == old(tokenRequests) + 1
      ensures googleClient.Some? && !requestThrows ==> isLoading && error.None?
      ensures googleClient.Some? && requestThrows ==> !isLoading && error == Some(RequestFailedError)
      ensures googleClient.None? ==>
                tokenRequests == old(tokenRequests) && !isLoading && error == Some(NotInitializedError)
      ensures user == old(user) && isInitializing == old(isInitializing) && googleClient == old(googleClient)
      ensures storage == old(storage) && route == old(route)
      ensures scriptLoads == old(scriptLoads) && timerPending == old(timerPending)
    {
      isLoading := true;
      error := None;
      if googleClient.Some? {
        tokenRequests := tokenRequests + 1;
        if requestThrows {
          error := Some(RequestFailedError);
          isLoading := false;
        }
      } else {
        error := Some(NotInitializedError);
        isLoading := false;
      }
    }

    /** `logout`: forgets the user, removes the stored entry and goes home. */
    method Logout()
      modifies this
      ensures Valid()
      ensures user.None? && storage == old(storage) - {StorageKey} && route == Some("/")
      ensures isLoading == old(isLoading) && isInitializing == old(isInitializing)
      ensures error == old(error) && googleClient == old(googleClient)
      ensures scriptLoads == old(scriptLoads) && timerPending == old(timerPending)
      ensures tokenRequests == old(tokenRequests)
    {
      user := None;
      storage := storage - {StorageKey};
      route := Some("/");
    }
  }

  /**
   * From any consistent session, a sign-in followed by mounting a new provider
   * on the same storage restores the user just signed in.
   */
  method SignInSurvivesReload(p: AuthProvider, env: Config.Env, g: GoogleUser) returns (restored: Option<User>)
    requires p.Valid() && Config.ValidateConfig(env)
    modifies p
    ensures restored == Some(ToUser(g)) && restored == p.user
  {
    p.OnProviderResult(Some(g));
    var second := new AuthProvider(p.storage);
    UserCodec.DecodeEncode(ToUser(g));
    second.InitAuth(env, true);
    restored := second.user;
  }

  /**
   * From any consistent session, a sign-out followed by mounting a new
   * provider on the same storage restores no user, whatever the
   * configuration and whether the script loads.
   */
  method SignOutSurvivesReload(p: AuthProvider, env: Config.Env, scriptLoadSucceeds: bool) returns (restored: Option<User>)
    requires p.Valid()
    modifies p
    ensures restored.None? && p.user.None?
  {
    p.Logout();
    var second := new AuthProvider(p.storage);
    second.InitAuth(env, scriptLoadSucceeds);
    restored := second.user;
  }

  /**
   * A non-empty stored entry that does not decode is purged at start-up and no
   * user is restored; an empty entry is skipped and stays.
   */
  method HydrateStoredText(env: Config.Env, text: string) returns (restored: Option<User>, kept: bool)
    requires Config.ValidateConfig(env)
    ensures UserCodec.Decode(text).None? ==> restored.None?
    ensures UserCodec.Decode(text).Some? ==> restored == UserCodec.Decode(text)
    ensures kept <==> text == "" || UserCodec.Decode(text).Some?
  {
    var p := new AuthProvider(map[StorageKey := text]);
    p.InitAuth(env, true);
    restored := p.user;
    kept := StorageKey in p.storage;
  }

  /** Logging in before a client exists fails with "not initialized" and requests no token. */
  method LoginBeforeInit() returns (err: Option<string>, requests: nat, loading: bool)
    ensures err == Some(NotInitializedError) && requests == 0 && !loading
  {
    var p := new AuthProvider(map[]);
    p.Login(false);
    err, requests, loading := p.error, p.tokenRequests, p.isLoading;
  }

  /**
   * In production without a client id, start-up ends at once with the
   * configuration error: nothing is loaded and no stored user is restored.
   */
  method ProductionWithoutIdStops(env: Config.Env, initialStorage: map<string, string>)
    returns (err: Option<string>, initializing: bool, loads: nat, restored: Option<User>)
    requires Config.IsProduction(env) && !Config.ClientIdSet(env)
    ensures err == Some(ConfigError) && !initializing && loads == 0 && restored.None?
  {
    var p := new AuthProvider(initialStorage);
    p.InitAuth(env, true);
    err, initializing, loads, restored := p.error, p.isInitializing, p.scriptLoads, p.user;
  }
}
