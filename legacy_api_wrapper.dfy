/** The older class wrapper (src/spotifyApiWrapper.ts): the same credential
    lifecycle as the current wrapper, but failures are thrown (a refresh
    failure, a failed or empty code grant), the constructor checks the
    configuration, and play and pause call the service directly, with no
    retry and no refresh, so a remote error reaches the caller. */
module LegacyApiWrapper {
  import opened WebApi
  import opened TokenStore
  import opened Sessions

  /** refreshToken: on success only the access token is replaced and the pair
      persisted; on failure SPOTIFY_REFRESH_TOKEN_ERROR is thrown and neither
      the credentials nor the file change. */
  function Refreshed(s: Session): (r: Step<Outcome>)
    ensures r.result == Normal <==> Next(s.client.refreshReplies).Ok?
    ensures r.result != Normal ==> r.result == Thrown(SpotifyRefreshTokenError)
    ensures r.session.client == RefreshCalled(s).client.(cred := r.session.client.cred)
    ensures r.session.client.cred.refreshToken == s.client.cred.refreshToken
    ensures r.result == Normal ==>
              && r.session.client.cred.accessToken == Next(s.client.refreshReplies).value
              && r.session.file == GuardedWrite(s.file, r.session.client.cred)
    ensures r.result != Normal ==> r.session.client.cred == s.client.cred && r.session.file == s.file
  {
    var called := RefreshCalled(s);
    match Next(s.client.refreshReplies)
    case Ok(token) =>
      Step(PersistGuarded(WithCred(called, s.client.cred.(accessToken := token))), Normal)
    case Err(_) => Step(called, Thrown(SpotifyRefreshTokenError))
  }

  /** fetchTokensFromStorage: a file that yields no pair changes nothing; a
      loaded pair is installed and refreshed, and the thrown refresh error is
      caught and answered by resetting the credentials, so no refresh error
      escapes. */
  function Fetched(s: Session): (r: Session)
    ensures Load(s.file.content).None? ==> r == s
    ensures Load(s.file.content).Some? ==>
              && r.client.refreshCalls == s.client.refreshCalls + 1
              && r.client.cred == (match Next(s.client.refreshReplies)
                                   case Ok(t) => Load(s.file.content).value.(accessToken := t)
                                   case Err(_) => NoCredential)
    ensures r.client.grantReplies == s.client.grantReplies && r.client.grantCodes == s.client.grantCodes
  {
    match Load(s.file.content)
    case None => s
    case Some(pair) =>
      var refreshed := Refreshed(WithCred(s, pair));
      if refreshed.result == Normal then refreshed.session
      else WithCred(refreshed.session, NoCredential)
  }

  /** authWithCodeGrant: one grant call; a success installs the returned pair,
      a failure throws SPOTIFY_AUTH_ERROR with the credentials unchanged. */
  function Granted(s: Session, code: string): (r: Step<Outcome>)
    ensures r.result == Normal <==> Next(s.client.grantReplies).Ok?
    ensures r.result != Normal ==> r.result == Thrown(SpotifyAuthError)
    ensures r.session.client == GrantCalled(s, code).client.(cred := r.session.client.cred)
    ensures r.session.file == s.file
    ensures r.session.client.cred == (match Next(s.client.grantReplies)
                                      case Ok(pair) => pair
                                      case Err(_) => s.client.cred)
  {
    var called := GrantCalled(s, code);
    match Next(s.client.grantReplies)
    case Ok(pair) => Step(WithCred(called, pair), Normal)
    case Err(_) => Step(called, Thrown(SpotifyAuthError))
  }

  /** authenticate: returns normally exactly when an access token is set at
      the end; otherwise it throws SPOTIFY_AUTH_ERROR, whether the grant
      failed or returned no access token. */
  function Authenticated(s: Session, code: string): (r: Step<Outcome>)
    ensures r.result == Normal <==> r.session.client.cred.accessToken != ""
    ensures r.result != Normal ==> r.result == Thrown(SpotifyAuthError)
    ensures Fetched(s).client.cred.accessToken != "" ==> r.session == Fetched(s)
    ensures Fetched(s).client.cred.accessToken == "" ==> r.session == Granted(Fetched(s), code).session
  {
    var fetched := Fetched(s);
    if fetched.client.cred.accessToken != "" then Step(fetched, Normal)
    else
      var granted := Granted(fetched, code);
      if granted.result != Normal then granted
      else if granted.session.client.cred.accessToken != "" then granted
      else Step(granted.session, Thrown(SpotifyAuthError))
  }

  /** Saved tokens that refresh to a usable access token: authenticate
      returns normally without a code grant. */
  lemma AuthenticateWithSavedTokens(s: Session, code: string)
    requires s.client.cred == NoCredential
    requires Load(s.file.content).Some?
    requires Next(s.client.refreshReplies).Ok? && Next(s.client.refreshReplies).value != ""
    ensures Authenticated(s, code).result == Normal
    ensures Authenticated(s, code).session.client.grantCodes == s.client.grantCodes
  {
  }

  /** No usable saved tokens: one code-grant call; a failed grant, or a grant
      that yields no access token, throws SPOTIFY_AUTH_ERROR. */
  lemma AuthenticateThrowsAuthError(s: Session, code: string)
    requires s.client.cred == NoCredential
    requires Load(s.file.content).None? || Next(s.client.refreshReplies).Err?
    requires Next(s.client.grantReplies).Err? || Next(s.client.grantReplies).value.accessToken == ""
    ensures Authenticated(s, code).result == Thrown(SpotifyAuthError)
    ensures Authenticated(s, code).session.client.grantCodes == s.client.grantCodes + [code]
  {
  }

  /** play and pause without the retry rule: one request; a remote error is
      thrown to the caller and no refresh is attempted. */
  function Sent(s: Session, req: Request): (r: Step<Outcome>)
    ensures r.session == RequestSent(s, req)
    ensures r.result == (match Next(s.client.requestReplies)
                         case Ok(_) => Normal
                         case Err(e) => Thrown(Remote(e)))
  {
    match Next(s.client.requestReplies)
    case Ok(_) => Step(RequestSent(s, req), Normal)
    case Err(e) => Step(RequestSent(s, req), Thrown(Remote(e)))
  }

  /** A 401 on an unwrapped request is not retried: one call, no refresh, the
      error thrown. */
  lemma UnwrappedUnauthorizedThrows(s: Session, req: Request)
    requires Next(s.client.requestReplies) == Err(Unauthorized)
    ensures Sent(s, req).result == Thrown(Remote(Unauthorized))
    ensures Sent(s, req).session.client.refreshCalls == s.client.refreshCalls
    ensures |Sent(s, req).session.client.requests| == |s.client.requests| + 1
  {
  }

  /** The wrapper object. */
  class SpotifyApiWrapper {
    const authCode: string
    const spotifyApi: SpotifyWebApi
    const store: TokenFile

    ghost function Snapshot(): Session
      reads spotifyApi, store
    {
      Session(spotifyApi.State(), store.State())
    }

    /** The part of the constructor after its configuration check. */
    constructor (config: PlatformConfig, spotifyApi: SpotifyWebApi, store: TokenFile)
      requires CheckConfig(config) == Normal
      ensures this.authCode == config.spotifyAuthCode
      ensures this.spotifyApi == spotifyApi && this.store == store
    {
      this.authCode := config.spotifyAuthCode;
      this.spotifyApi := spotifyApi;
      this.store := store;
    }

    method Authenticate() returns (outcome: Outcome)
      modifies spotifyApi, store
      ensures Step(Snapshot(), outcome) == Authenticated(old(Snapshot()), authCode)
    {
      FetchTokensFromStorage();
      var token := spotifyApi.GetAccessToken();
      if token != "" {
        return Normal;
      }
      outcome := AuthWithCodeGrant();
      if outcome != Normal {
        return;
      }
      token := spotifyApi.GetAccessToken();
      if token != "" {
        return Normal;
      }
      outcome := Thrown(SpotifyAuthError);
    }

    method PersistTokens()
      modifies store
      ensures Snapshot() == PersistGuarded(old(Snapshot()))
    {
      var access := spotifyApi.GetAccessToken();
      var refresh := spotifyApi.GetRefreshToken();
      if access == "" || refresh == "" {
        return;
      }
      var _ := store.WriteFileSync(Credential(access, refresh));
    }

    method RefreshToken() returns (outcome: Outcome)
      modifies spotifyApi, store
      ensures Step(Snapshot(), outcome) == Refreshed(old(Snapshot()))
    {
      var reply := spotifyApi.RefreshAccessToken();
      match reply
      case Ok(token) =>
        spotifyApi.SetAccessToken(token);
        PersistTokens();
        outcome := Normal;
      case Err(_) =>
        outcome := Thrown(SpotifyRefreshTokenError);
    }

    method AuthWithCodeGrant() returns (outcome: Outcome)
      modifies spotifyApi
      ensures Step(Snapshot(), outcome) == Granted(old(Snapshot()), authCode)
    {
      var reply := spotifyApi.AuthorizationCodeGrant(authCode);
      match reply
      case Ok(pair) =>
        spotifyApi.SetAccessToken(pair.accessToken);
        spotifyApi.SetRefreshToken(pair.refreshToken);
        outcome := Normal;
      case Err(_) =>
        outcome := Thrown(SpotifyAuthError);
    }

    method FetchTokensFromStorage()
      modifies spotifyApi, store
      ensures Snapshot() == Fetched(old(Snapshot()))
    {
      var content := store.ReadFileSync();
      match content
      case Unreadable => return;
      case Malformed => return;
      case Parsed(tokens) =>
        if !tokens.JObject? || !Truthy(tokens.accessToken) || !Truthy(tokens.refreshToken) {
          return;
        }
        spotifyApi.SetAccessToken(tokens.accessToken.value);
        spotifyApi.SetRefreshToken(tokens.refreshToken.value);
        var refreshed := RefreshToken();
        if refreshed != Normal {
          spotifyApi.ResetCredentials();
        }
    }

    method Play(deviceId: string, contextUri: string, uris: Option<string>,
                offset: Option<int>, positionMs: Option<int>) returns (outcome: Outcome)
      modifies spotifyApi
      ensures Step(Snapshot(), outcome)
              == Sent(old(Snapshot()), Request.Play(PlayOptionsFor(deviceId, contextUri, uris, offset, positionMs)))
    {
      var options := PlayOptionsFor(deviceId, contextUri, uris, offset, positionMs);
      var reply := spotifyApi.Send(Request.Play(options));
      outcome := if reply.Ok? then Normal else Thrown(Remote(reply.error));
    }

    method Pause(deviceId: string) returns (outcome: Outcome)
      modifies spotifyApi
      ensures Step(Snapshot(), outcome) == Sent(old(Snapshot()), Request.Pause(deviceId))
    {
      var reply := spotifyApi.Send(Request.Pause(deviceId));
      outcome := if reply.Ok? then Normal else Thrown(Remote(reply.error));
    }

    method GetMyDevices() returns (r: Option<seq<Device>>)
      modifies spotifyApi
      ensures Step(Snapshot(), r) == MyDevices(old(Snapshot()))
    {
      var reply := spotifyApi.GetMyDevices();
      match reply
      case Ok(devices) => r := Some(devices);
      case Err(_) => r := None;
    }
  }

  /** `new SpotifyApiWrapper(...)`: SPOTIFY_MISSING_CONFIGURATION_ERROR is
      thrown, and no object built, exactly when a configuration field is
      falsy. */
  method New(config: PlatformConfig, spotifyApi: SpotifyWebApi, store: TokenFile)
    returns (w: SpotifyApiWrapper?, outcome: Outcome)
    ensures outcome == CheckConfig(config)
    ensures w != null <==> outcome == Normal
    ensures w != null ==> fresh(w) && w.authCode == config.spotifyAuthCode
                          && w.spotifyApi == spotifyApi && w.store == store
  {
    outcome := CheckConfig(config);
    if outcome != Normal {
      return null, outcome;
    }
    w := new SpotifyApiWrapper(config, spotifyApi, store);
  }
}
