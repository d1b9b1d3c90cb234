/** The oldest wrapper (src/spotify-wrapper.ts): the auth code is passed to
    authenticate rather than kept, a refresh does not persist, failures are
    thrown, and persistTokens writes the pair with no guard, empty tokens
    included. */
module SpotifyWrapper {
  import opened WebApi
  import opened TokenStore
  import opened Sessions

  /** persistTokens without a guard: every call is a write attempt, and a
      failed write is swallowed. */
  function Persisted(s: Session): (r: Session)
    ensures r.client == s.client
    ensures r.file.writes == s.file.writes + 1
    ensures !s.file.writeFails ==> r.file.content == Parsed(Serialize(s.client.cred))
    ensures s.file.writeFails ==> r.file.content == s.file.content
  {
    s.(file := Write(s.file, s.client.cred))
  }

  /** Unlike the guarded versions, an empty credential is written too, and the
      document it leaves reads back as no tokens. */
  lemma EmptyCredentialIsWritten(s: Session)
    requires s.client.cred == NoCredential && !s.file.writeFails
    ensures Persisted(s).file.content == Parsed(JObject(Some(""), Some("")))
    ensures Load(Persisted(s).file.content) == None
    ensures PersistGuarded(s) == s
  {
  }

  /** refreshToken: on success only the access token is replaced and nothing is
      written; on failure SPOTIFY_REFRESH_TOKEN_ERROR is thrown with the
      credentials unchanged. */
  function Refreshed(s: Session): (r: Step<Outcome>)
    ensures r.result == Normal <==> Next(s.client.refreshReplies).Ok?
    ensures r.result != Normal ==> r.result == Thrown(SpotifyRefreshTokenError)
    ensures r.session.file == s.file
    ensures r.session.client == RefreshCalled(s).client.(cred := r.session.client.cred)
    ensures r.session.client.cred.refreshToken == s.client.cred.refreshToken
    ensures r.session.client.cred.accessToken
            == (if r.result == Normal then Next(s.client.refreshReplies).value else s.client.cred.accessToken)
  {
    var called := RefreshCalled(s);
    match Next(s.client.refreshReplies)
    case Ok(token) => Step(WithCred(called, s.client.cred.(accessToken := token)), Normal)
    case Err(_) => Step(called, Thrown(SpotifyRefreshTokenError))
  }

  /** fetchTokensFromStorage: no pair, no change; a loaded pair survives only
      if its refresh succeeds, the caught refresh error resetting the
      credentials. It never writes the file. */
  function Fetched(s: Session): (r: Session)
    ensures r.file == s.file
    ensures Load(s.file.content).None? ==> r == s
    ensures Load(s.file.content).Some? ==>
              && r.client.refreshCalls == s.client.refreshCalls + 1
              && r.client.cred == (match Next(s.client.refreshReplies)
                                   case Ok(t) => Load(s.file.content).value.(accessToken := t)
                                   case Err(_) => NoCredential)
    ensures r.client.grantReplies == s.client.grantReplies && r.client.grantCodes == s.client.grantCodes
  {
    match Load(s.file.content)
    case None => s
    case Some(pair) =>
      var refreshed := Refreshed(WithCred(s, pair));
      if refreshed.result == Normal then refreshed.session
      else WithCred(refreshed.session, NoCredential)
  }

  /** authWithCodeGrant(authCode): one grant call with the given code; a
      failure throws SPOTIFY_AUTH_ERROR with the credentials unchanged. */
  function Granted(s: Session, authCode: string): (r: Step<Outcome>)
    ensures r.result == Normal <==> Next(s.client.grantReplies).Ok?
    ensures r.result != Normal ==> r.result == Thrown(SpotifyAuthError)
    ensures r.session.client == GrantCalled(s, authCode).client.(cred := r.session.client.cred)
    ensures r.session.file == s.file
    ensures r.session.client.cred == (match Next(s.client.grantReplies)
                                      case Ok(pair) => pair
                                      case Err(_) => s.client.cred)
  {
    var called := GrantCalled(s, authCode);
    match Next(s.client.grantReplies)
    case Ok(pair) => Step(WithCred(called, pair), Normal)
    case Err(_) => Step(called, Thrown(SpotifyAuthError))
  }

  /** authenticate(authCode): returns normally exactly when an access token is
      set at the end, and otherwise throws SPOTIFY_AUTH_ERROR; it never writes
      the token file. */
  function Authenticated(s: Session, authCode: string): (r: Step<Outcome>)
    ensures r.result == Normal <==> r.session.client.cred.accessToken != ""
    ensures r.result != Normal ==> r.result == Thrown(SpotifyAuthError)
    ensures r.session.file == s.file
    ensures Fetched(s).client.cred.accessToken != "" ==> r.session == Fetched(s)
    ensures Fetched(s).client.cred.accessToken == "" ==> r.session == Granted(Fetched(s), authCode).session
  {
    var fetched := Fetched(s);
    if fetched.client.cred.accessToken != "" then Step(fetched, Normal)
    else
      var granted := Granted(fetched, authCode);
      if granted.result != Normal then granted
      else if granted.session.client.cred.accessToken != "" then granted
      else Step(granted.session, Thrown(SpotifyAuthError))
  }

  /** Saved tokens that refresh: no grant. Otherwise exactly one grant attempt
      with the given code, whose failure throws SPOTIFY_AUTH_ERROR. */
  lemma AuthenticateGrantsOnlyWithoutSavedTokens(s: Session, authCode: string)
    requires s.client.cred == NoCredential
    ensures Load(s.file.content).Some? && Next(s.client.refreshReplies).Ok?
            && Next(s.client.refreshReplies).value != "" ==>
              && Authenticated(s, authCode).result == Normal
              && Authenticated(s, authCode).session.client.grantCodes == s.client.grantCodes
    ensures Load(s.file.content).None? || Next(s.client.refreshReplies).Err? ==>
              && Authenticated(s, authCode).session.client.grantCodes == s.client.grantCodes + [authCode]
              && (Next(s.client.grantReplies).Err? ==> Authenticated(s, authCode).result == Thrown(SpotifyAuthError))
  {
  }

  /** The wrapper object. */
  class SpotifyWrapper {
    const spotifyApi: SpotifyWebApi
    const store: TokenFile

    ghost function Snapshot(): Session
      reads spotifyApi, store
    {
      Session(spotifyApi.State(), store.State())
    }

    /** The part of the constructor after its configuration check. */
    constructor (config: PlatformConfig, spotifyApi: SpotifyWebApi, store: TokenFile)
      requires CheckConfig(config) == Normal
      ensures this.spotifyApi == spotifyApi && this.store == store
    {
      this.spotifyApi := spotifyApi;
      this.store := store;
    }

    method Authenticate(authCode: string) returns (outcome: Outcome)
      modifies spotifyApi, store
      ensures Step(Snapshot(), outcome) == Authenticated(old(Snapshot()), authCode)
    {
      FetchTokensFromStorage();
      var token := spotifyApi.GetAccessToken();
      if token != "" {
        return Normal;
      }
      outcome := AuthWithCodeGrant(authCode);
      if outcome != Normal {
        return;
      }
      token := spotifyApi.GetAccessToken();
      if token != "" {
        return Normal;
      }
      outcome := Thrown(SpotifyAuthError);
    }

    method AuthWithCodeGrant(authCode: string) returns (outcome: Outcome)
      modifies spotifyApi
      ensures Step(Snapshot(), outcome) == Granted(old(Snapshot()), authCode)
    {
      var reply := spotifyApi.AuthorizationCodeGrant(authCode);
      match reply
      case Ok(pair) =>
        spotifyApi.SetAccessToken(pair.accessToken);
        spotifyApi.SetRefreshToken(pair.refreshToken);
        outcome := Normal;
      case Err(_) =>
        outcome := Thrown(SpotifyAuthError);
    }

    method FetchTokensFromStorage()
      modifies spotifyApi
      ensures Snapshot() == Fetched(old(Snapshot()))
    {
      var content := store.ReadFileSync();
      match content
      case Unreadable => return;
      case Malformed => return;
      case Parsed(tokens) =>
        if !tokens.JObject? || !Truthy(tokens.accessToken) || !Truthy(tokens.refreshToken) {
          return;
        }
        spotifyApi.SetAccessToken(tokens.accessToken.value);
        spotifyApi.SetRefreshToken(tokens.refreshToken.value);
        var refreshed := RefreshToken();
        if refreshed != Normal {
          spotifyApi.ResetCredentials();
        }
    }

    method PersistTokens()
      modifies store
      ensures Snapshot() == Persisted(old(Snapshot()))
    {
      var access := spotifyApi.GetAccessToken();
      var refresh := spotifyApi.GetRefreshToken();
      var _ := store.WriteFileSync(Credential(access, refresh));
    }

    method RefreshToken() returns (outcome: Outcome)
      modifies spotifyApi
      ensures Step(Snapshot(), outcome) == Refreshed(old(Snapshot()))
    {
      var reply := spotifyApi.RefreshAccessToken();
      match reply
      case Ok(token) =>
        spotifyApi.SetAccessToken(token);
        outcome := Normal;
      case Err(_) =>
        outcome := Thrown(SpotifyRefreshTokenError);
    }
  }

  /** `new SpotifyWrapper(...)`, up to its configuration check:
      SPOTIFY_MISSING_CONFIGURATION_ERROR is thrown, and no object built,
      exactly when a configuration field is falsy. */
  method New(config: PlatformConfig, spotifyApi: SpotifyWebApi, store: TokenFile)
    returns (w: SpotifyWrapper?, outcome: Outcome)
    ensures outcome == CheckConfig(config)
    ensures w != null <==> outcome == Normal
    ensures w != null ==> fresh(w) && w.spotifyApi == spotifyApi && w.store == store
  {
    outcome := CheckConfig(config);
    if outcome != Normal {
      return null, outcome;
    }
    w := new SpotifyWrapper(config, spotifyApi, store);
  }
}
