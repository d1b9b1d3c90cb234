/** The current API wrapper (src/spotify-api-wrapper.ts): it loads and
    validates saved tokens, falls back to one authorization-code grant, persists
    tokens after every refresh, and sends every playback request through a
    retry rule that refreshes the access token on a 401 and tries again.
    Failures come back as `false` or as an absent result, never as exceptions,
    except from a token file holding `null` (see TokenStore.LoadAsWritten);
    this module reads the file as TokenStore.Load does. */
module ApiWrapper {
  import opened WebApi
  import opened TokenStore
  import opened Sessions

  /** refreshTokens: on success the access token alone is replaced and the pair
      persisted, and the result is true; on failure the result is false and
      neither the credentials nor the file change. It does not throw. */
  function Refreshed(s: Session): (r: Step<bool>)
    ensures r.result <==> Next(s.client.refreshReplies).Ok?
    ensures r.session.client == RefreshCalled(s).client.(cred := r.session.client.cred)
    ensures r.session.client.cred.refreshToken == s.client.cred.refreshToken
    ensures r.result ==>
              && r.session.client.cred.accessToken == Next(s.client.refreshReplies).value
              && r.session.file == GuardedWrite(s.file, r.session.client.cred)
    ensures !r.result ==> r.session.client.cred == s.client.cred && r.session.file == s.file
  {
    var called := RefreshCalled(s);
    match Next(s.client.refreshReplies)
    case Ok(token) =>
      Step(PersistGuarded(WithCred(called, s.client.cred.(accessToken := token))), true)
    case Err(_) => Step(called, false)
  }

  /** fetchTokensFromStorage: a file that yields no pair leaves everything as
      it was; a loaded pair is installed and validated by one refresh, and
      survives only if that refresh succeeds, the credentials being reset
      otherwise. */
  function Fetched(s: Session): (r: Session)
    ensures Load(s.file.content).None? ==> r == s
    ensures Load(s.file.content).Some? ==>
              && r.client.refreshCalls == s.client.refreshCalls + 1
              && r.client.refreshReplies == Consume(s.client.refreshReplies)
              && r.client.cred == (match Next(s.client.refreshReplies)
                                   case Ok(t) => Load(s.file.content).value.(accessToken := t)
                                   case Err(_) => NoCredential)
    ensures r.client.grantReplies == s.client.grantReplies && r.client.grantCodes == s.client.grantCodes
    ensures r.client.requestReplies == s.client.requestReplies && r.client.requests == s.client.requests
  {
    match Load(s.file.content)
    case None => s
    case Some(pair) =>
      var refreshed := Refreshed(WithCred(s, pair));
      if refreshed.result then refreshed.session else WithCred(refreshed.session, NoCredential)
  }

  /** authWithCodeGrant: one grant call with the configured code; on success
      the returned pair is installed, on failure nothing but the call log
      changes. */
  function Granted(s: Session, code: string): (r: Session)
    ensures r.file == s.file
    ensures r.client == s.client.(cred := r.client.cred,
                                  grantReplies := Consume(s.client.grantReplies),
                                  grantCodes := s.client.grantCodes + [code])
    ensures r.client.cred == (match Next(s.client.grantReplies)
                              case Ok(pair) => pair
                              case Err(_) => s.client.cred)
  {
    var called := GrantCalled(s, code);
    match Next(s.client.grantReplies)
    case Ok(pair) => WithCred(called, pair)
    case Err(_) => called
  }

  /** authenticate: saved tokens first, then one code grant if no access token
      is set; the result says whether an access token is set at the end. */
  function Authenticated(s: Session, code: string): (r: Step<bool>)
    ensures r.result <==> r.session.client.cred.accessToken != ""
    ensures Fetched(s).client.cred.accessToken != "" ==>
              r.session == Fetched(s)
    ensures Fetched(s).client.cred.accessToken == "" ==>
              r.session == Granted(Fetched(s), code)
  {
    var fetched := Fetched(s);
    if fetched.client.cred.accessToken != "" then Step(fetched, true)
    else
      var granted := Granted(fetched, code);
      Step(granted, granted.client.cred.accessToken != "")
  }

  /** Saved tokens that refresh to a usable access token authenticate without
      a code grant, with exactly one refresh call. */
  lemma AuthenticateWithSavedTokens(s: Session, code: string)
    requires s.client.cred == NoCredential
    requires Load(s.file.content).Some?
    requires Next(s.client.refreshReplies).Ok? && Next(s.client.refreshReplies).value != ""
    ensures Authenticated(s, code).result
    ensures Authenticated(s, code).session.client.grantCodes == s.client.grantCodes
    ensures Authenticated(s, code).session.client.refreshCalls == s.client.refreshCalls + 1
    ensures Authenticated(s, code).session.client.cred
            == Credential(Next(s.client.refreshReplies).value, Load(s.file.content).value.refreshToken)
  {
  }

  /** With no usable saved tokens, authenticate makes exactly one code-grant
      call with the configured code; a failed grant leaves the credentials as
      the failed fetch left them, so the result is false. */
  lemma AuthenticateFallsBackToGrant(s: Session, code: string)
    requires s.client.cred == NoCredential
    requires Load(s.file.content).None? || Next(s.client.refreshReplies).Err?
    ensures Authenticated(s, code).session.client.grantCodes == s.client.grantCodes + [code]
    ensures Next(s.client.grantReplies).Err? ==>
              !Authenticated(s, code).result && Authenticated(s, code).session.client.cred == NoCredential
    ensures Next(s.client.grantReplies).Ok? ==>
              Authenticated(s, code).session.client.cred == Next(s.client.grantReplies).value
  {
  }

  /** Tokens obtained by the code grant are not written by authenticate: the
      file is what the fetch left. */
  lemma GrantedTokensNotPersisted(s: Session, code: string)
    requires Load(s.file.content).None?
    ensures Authenticated(s, code).session.file == s.file
  {
  }

  /** The reference count of retry rounds: the leading requests answered with
      401 whose refresh succeeded. */
  function RetryRounds(requestReplies: seq<Reply<Response>>, refreshReplies: seq<Reply<string>>): (k: nat)
    ensures k <= |requestReplies| && k <= |refreshReplies|
    ensures forall i :: 0 <= i < k ==> requestReplies[i] == Err(Unauthorized) && refreshReplies[i].Ok?
    ensures k > 0 ==> requestReplies[k - 1] == Err(Unauthorized) && refreshReplies[k - 1].Ok?
    ensures !(k < |requestReplies| && requestReplies[k] == Err(Unauthorized)
              && k < |refreshReplies| && refreshReplies[k].Ok?)
  {
    if requestReplies != [] && requestReplies[0] == Err(Unauthorized)
       && refreshReplies != [] && refreshReplies[0].Ok?
    then 1 + RetryRounds(requestReplies[1..], refreshReplies[1..])
    else 0
  }

  function Repeat<T>(x: T, n: nat): (r: seq<T>)
    ensures |r| == n
  {
    if n == 0 then [] else [x] + Repeat(x, n - 1)
  }

  /** wrappedRequest: invoke the request; a success is returned; a 401 leads
      to one refresh and, if that succeeds, to the same request again; every
      other failure gives an absent result. The script of replies bounds the
      recursion. */
  function Wrapped(s: Session, req: Request): (r: Step<Option<Response>>)
    decreases |s.client.requestReplies|
    ensures r.session.client.grantReplies == s.client.grantReplies
    ensures r.session.client.grantCodes == s.client.grantCodes
    ensures r.session.client.deviceReplies == s.client.deviceReplies
    ensures r.session.client.deviceCalls == s.client.deviceCalls
    ensures r.session.client.cred.refreshToken == s.client.cred.refreshToken
    ensures |r.session.client.requests| > |s.client.requests|
  {
    var sent := RequestSent(s, req);
    match Next(s.client.requestReplies)
    case Ok(v) => Step(sent, Some(v))
    case Err(e) =>
      if e == Unauthorized then
        var refreshed := Refreshed(sent);
        if refreshed.result then Wrapped(refreshed.session, req)
        else Step(refreshed.session, None)
      else Step(sent, None)
  }

  /** What the retry rule does when its first k answers are 401s each followed
      by a successful refresh: the calls it makes and the credentials it
      leaves (RetriedCalls), and the token file it leaves (RetriedFile). */
  ghost predicate RetriedAs(s: Session, req: Request, k: nat, r: Step<Option<Response>>)
    requires k <= |s.client.requestReplies| && k <= |s.client.refreshReplies|
    requires k > 0 ==> s.client.refreshReplies[k - 1].Ok?
  {
    RetriedCalls(s, req, k, r) && RetriedFile(s, k, r)
  }

  /** The request is invoked k + 1 times, refreshed k times plus once more if
      the last answer is a 401, the result is the last answer if it is a
      success and absent otherwise, and the access token is the one of the last
      successful refresh. */
  ghost predicate RetriedCalls(s: Session, req: Request, k: nat, r: Step<Option<Response>>)
    requires k <= |s.client.requestReplies| && k <= |s.client.refreshReplies|
    requires k > 0 ==> s.client.refreshReplies[k - 1].Ok?
  {
    var last := Next(s.client.requestReplies[k..]);
    && r.session.client.requests == s.client.requests + Repeat(req, k + 1)
    && r.session.client.requestReplies == Consume(s.client.requestReplies[k..])
    && r.result == (if last.Ok? then Some(last.value) else None)
    && r.session.client.refreshCalls
       == s.client.refreshCalls + k + (if last == Err(Unauthorized) then 1 else 0)
    && r.session.client.refreshReplies
       == (if last == Err(Unauthorized) then Consume(s.client.refreshReplies[k..]) else s.client.refreshReplies[k..])
    && r.session.client.cred.accessToken
       == (if k == 0 then s.client.cred.accessToken else s.client.refreshReplies[k - 1].value)
  }

  /** Without a round the token file is untouched; after k rounds it holds the
      pair of the last successful refresh, unless writes fail or a token of that
      pair is empty. */
  ghost predicate RetriedFile(s: Session, k: nat, r: Step<Option<Response>>)
    requires k <= |s.client.refreshReplies|
    requires k > 0 ==> s.client.refreshReplies[k - 1].Ok?
  {
    && r.session.file.writeFails == s.file.writeFails
    && (k == 0 ==> r.session.file == s.file)
    && (s.file.writeFails ==> r.session.file.content == s.file.content)
    && r.session.file.writes
       == s.file.writes + (if s.client.cred.refreshToken == "" then 0 else TokensGranted(s.client.refreshReplies[..k]))
    && (k > 0 && !s.file.writeFails && s.client.refreshReplies[k - 1].value != "" && s.client.cred.refreshToken != "" ==>
          Load(r.session.file.content) == Some(Credential(s.client.refreshReplies[k - 1].value, s.client.cred.refreshToken)))
  }

  /** The number of successful refreshes that answered a non-empty access
      token. */
  function TokensGranted(refs: seq<Reply<string>>): (n: nat)
    ensures n <= |refs|
  {
    if refs == [] then 0
    else (if refs[0].Ok? && refs[0].value != "" then 1 else 0) + TokensGranted(refs[1..])
  }

  /** The answer that ends the retry rule at once. */
  lemma WrappedStopsAtFirstAnswer(s: Session, req: Request)
    requires RetryRounds(s.client.requestReplies, s.client.refreshReplies) == 0
    ensures RetriedAs(s, req, 0, Wrapped(s, req))
  {
    assert s.client.requestReplies[0..] == s.client.requestReplies;
    assert s.client.refreshReplies[0..] == s.client.refreshReplies;
  }

  /** One retry round: a 401 whose refresh succeeds leads to the same request
      on the rest of the scripts, with the refreshed access token and the pair
      persisted through the guard. */
  lemma RetryRound(s: Session, req: Request) returns (s': Session)
    requires s.client.requestReplies != [] && s.client.requestReplies[0] == Err(Unauthorized)
    requires s.client.refreshReplies != [] && s.client.refreshReplies[0].Ok?
    ensures s' == Refreshed(RequestSent(s, req)).session
    ensures Wrapped(s, req) == Wrapped(s', req)
    ensures s'.client.requestReplies == s.client.requestReplies[1..]
    ensures s'.client.refreshReplies == s.client.refreshReplies[1..]
    ensures s'.client.requests == s.client.requests + [req]
    ensures s'.client.refreshCalls == s.client.refreshCalls + 1
    ensures s'.client.cred == Credential(s.client.refreshReplies[0].value, s.client.cred.refreshToken)
    ensures s'.file == GuardedWrite(s.file, s'.client.cred)
    ensures RetryRounds(s'.client.requestReplies, s'.client.refreshReplies)
            == RetryRounds(s.client.requestReplies, s.client.refreshReplies) - 1
  {
    s' := Refreshed(RequestSent(s, req)).session;
  }

  /** k - 1 retry rounds after one round are k retry rounds: calls. */
  lemma RetriedCallsAfterRound(s: Session, s': Session, req: Request, k: nat, r: Step<Option<Response>>)
    requires 0 < k <= |s.client.requestReplies| && k <= |s.client.refreshReplies|
    requires s.client.refreshReplies[0].Ok? && s.client.refreshReplies[k - 1].Ok?
    requires s'.client.requestReplies == s.client.requestReplies[1..]
    requires s'.client.refreshReplies == s.client.refreshReplies[1..]
    requires s'.client.requests == s.client.requests + [req]
    requires s'.client.refreshCalls == s.client.refreshCalls + 1
    requires s'.client.cred.accessToken == s.client.refreshReplies[0].value
    requires RetriedCalls(s', req, k - 1, r)
    ensures RetriedCalls(s, req, k, r)
  {
    assert s'.client.requestReplies[k - 1..] == s.client.requestReplies[k..];
    assert s'.client.refreshReplies[k - 1..] == s.client.refreshReplies[k..];
    assert Repeat(req, k + 1) == [req] + Repeat(req, k);
    assert s.client.requests + Repeat(req, k + 1) == s'.client.requests + Repeat(req, k);
  }

  /** k - 1 retry rounds after one round are k retry rounds: the token file. */
  lemma RetriedFileAfterRound(s: Session, s': Session, k: nat, r: Step<Option<Response>>)
    requires 0 < k <= |s.client.refreshReplies|
    requires s.client.refreshReplies[0].Ok? && s.client.refreshReplies[k - 1].Ok?
    requires s'.client.refreshReplies == s.client.refreshReplies[1..]
    requires s'.client.cred == Credential(s.client.refreshReplies[0].value, s.client.cred.refreshToken)
    requires s'.file == GuardedWrite(s.file, s'.client.cred)
    requires RetriedFile(s', k - 1, r)
    ensures RetriedFile(s, k, r)
  {
    assert s.client.refreshReplies[..k][1..] == s'.client.refreshReplies[..k - 1];
    if k == 1 && !s.file.writeFails && s'.client.cred.accessToken != "" && s'.client.cred.refreshToken != "" {
      WriteThenLoad(s.file, s'.client.cred);
    }
  }

  /** k - 1 retry rounds after one round are k retry rounds. */
  lemma RetriedAsAfterRound(s: Session, s': Session, req: Request, k: nat, r: Step<Option<Response>>)
    requires 0 < k <= |s.client.requestReplies| && k <= |s.client.refreshReplies|
    requires s.client.refreshReplies[0].Ok? && s.client.refreshReplies[k - 1].Ok?
    requires s'.client.requestReplies == s.client.requestReplies[1..]
    requires s'.client.refreshReplies == s.client.refreshReplies[1..]
    requires s'.client.requests == s.client.requests + [req]
    requires s'.client.refreshCalls == s.client.refreshCalls + 1
    requires s'.client.cred == Credential(s.client.refreshReplies[0].value, s.client.cred.refreshToken)
    requires s'.file == GuardedWrite(s.file, s'.client.cred)
    requires RetriedAs(s', req, k - 1, r)
    ensures RetriedAs(s, req, k, r)
  {
    RetriedCallsAfterRound(s, s', req, k, r);
    RetriedFileAfterRound(s, s', k, r);
  }

  /** The retry rule agrees with the reference count of retry rounds. */
  lemma {:induction false} WrappedRetries(s: Session, req: Request)
    ensures RetriedAs(s, req, RetryRounds(s.client.requestReplies, s.client.refreshReplies), Wrapped(s, req))
    decreases |s.client.requestReplies|, 1
  {
    if RetryRounds(s.client.requestReplies, s.client.refreshReplies) == 0 {
      WrappedStopsAtFirstAnswer(s, req);
    } else {
      WrappedRetriesAfterRound(s, req, RetryRounds(s.client.requestReplies, s.client.refreshReplies));
    }
  }

  /** The induction step of WrappedRetries: one round, then the k - 1 rounds
      left. */
  lemma {:induction false} WrappedRetriesAfterRound(s: Session, req: Request, k: nat)
    requires k == RetryRounds(s.client.requestReplies, s.client.refreshReplies) > 0
    ensures RetriedAs(s, req, k, Wrapped(s, req))
    decreases |s.client.requestReplies|, 0
  {
    var s' := RetryRound(s, req);
    WrappedRetries(s', req);
    RetriedAsAfterRound(s, s', req, k, Wrapped(s', req));
  }

  /** A request that succeeds at once is invoked once and causes no refresh. */
  lemma WrappedSucceedsAtOnce(s: Session, req: Request)
    requires Next(s.client.requestReplies).Ok?
    ensures Wrapped(s, req).result == Some(Next(s.client.requestReplies).value)
    ensures Wrapped(s, req).session.client.requests == s.client.requests + [req]
    ensures Wrapped(s, req).session.client.refreshCalls == s.client.refreshCalls
    ensures Wrapped(s, req).session.client.cred == s.client.cred
  {
  }

  /** A failure other than a 401, or a 401 whose refresh fails, ends the
      request with an absent result after one invocation. */
  lemma WrappedGivesUp(s: Session, req: Request)
    requires Next(s.client.requestReplies).Err?
    requires Next(s.client.requestReplies) == Err(Unauthorized) ==> Next(s.client.refreshReplies).Err?
    ensures Wrapped(s, req).result == None
    ensures Wrapped(s, req).session.client.requests == s.client.requests + [req]
    ensures Wrapped(s, req).session.client.cred == s.client.cred
  {
  }

  /** A 401 followed by a successful refresh and a success: two invocations,
      one refresh, the second answer returned. */
  lemma WrappedRetriesOnce(s: Session, req: Request, v: Response, t: string)
    requires |s.client.requestReplies| >= 2
    requires s.client.requestReplies[0] == Err(Unauthorized) && s.client.requestReplies[1] == Ok(v)
    requires Next(s.client.refreshReplies) == Ok(t)
    ensures Wrapped(s, req).result == Some(v)
    ensures Wrapped(s, req).session.client.requests == s.client.requests + [req, req]
    ensures Wrapped(s, req).session.client.refreshCalls == s.client.refreshCalls + 1
    ensures Wrapped(s, req).session.client.cred.accessToken == t
  {
    WrappedRetries(s, req);
    assert RetryRounds(s.client.requestReplies, s.client.refreshReplies) == 1;
  }

  /** The wrapper object. */
  class SpotifyApiWrapper {
    const authCode: string
    const spotifyApi: SpotifyWebApi
    const store: TokenFile

    ghost function Snapshot(): Session
      reads spotifyApi, store
    {
      Session(spotifyApi.State(), store.State())
    }

    /** The constructor keeps the auth code and builds nothing else. */
    constructor (config: PlatformConfig, spotifyApi: SpotifyWebApi, store: TokenFile)
      ensures this.authCode == config.spotifyAuthCode
      ensures this.spotifyApi == spotifyApi && this.store == store
    {
      this.authCode := config.spotifyAuthCode;
      this.spotifyApi := spotifyApi;
      this.store := store;
    }

    method Authenticate() returns (ok: bool)
      modifies spotifyApi, store
      ensures Step(Snapshot(), ok) == Authenticated(old(Snapshot()), authCode)
    {
      FetchTokensFromStorage();
      var token := spotifyApi.GetAccessToken();
      if token != "" {
        return true;
      }
      AuthWithCodeGrant();
      token := spotifyApi.GetAccessToken();
      ok := token != "";
    }

    method PersistTokens()
      modifies store
      ensures Snapshot() == PersistGuarded(old(Snapshot()))
    {
      var access := spotifyApi.GetAccessToken();
      var refresh := spotifyApi.GetRefreshToken();
      if access == "" || refresh == "" {
        return;
      }
      var _ := store.WriteFileSync(Credential(access, refresh));
    }

    method Play(deviceId: string, contextUri: string, uris: Option<string>,
                offset: Option<int>, positionMs: Option<int>)
      modifies spotifyApi, store
      ensures Snapshot() == Wrapped(old(Snapshot()),
                                    Request.Play(PlayOptionsFor(deviceId, contextUri, uris, offset, positionMs))).session
    {
      var options := PlayOptionsFor(deviceId, contextUri, uris, offset, positionMs);
      var _ := WrappedRequest(Request.Play(options));
    }

    method Pause(deviceId: string)
      modifies spotifyApi, store
      ensures Snapshot() == Wrapped(old(Snapshot()), Request.Pause(deviceId)).session
    {
      var _ := WrappedRequest(Request.Pause(deviceId));
    }

    method GetPlaybackState() returns (r: Option<Response>)
      modifies spotifyApi, store
      ensures Step(Snapshot(), r) == Wrapped(old(Snapshot()), Request.GetPlaybackState)
    {
      r := WrappedRequest(Request.GetPlaybackState);
    }

    method SetShuffle(state: bool, deviceId: string)
      modifies spotifyApi, store
      ensures Snapshot() == Wrapped(old(Snapshot()), Request.SetShuffle(state, deviceId)).session
    {
      var _ := WrappedRequest(Request.SetShuffle(state, deviceId));
    }

    method SetVolume(volume: int, deviceId: string)
      modifies spotifyApi, store
      ensures Snapshot() == Wrapped(old(Snapshot()), Request.SetVolume(volume, deviceId)).session
    {
      var _ := WrappedRequest(Request.SetVolume(volume, deviceId));
    }

    method GetMyDevices() returns (r: Option<seq<Device>>)
      modifies spotifyApi
      ensures Step(Snapshot(), r) == MyDevices(old(Snapshot()))
    {
      var reply := spotifyApi.GetMyDevices();
      match reply
      case Ok(devices) => r := Some(devices);
      case Err(_) => r := None;
    }

    method AuthWithCodeGrant()
      modifies spotifyApi
      ensures Snapshot() == Granted(old(Snapshot()), authCode)
    {
      var reply := spotifyApi.AuthorizationCodeGrant(authCode);
      match reply
      case Ok(pair) =>
        spotifyApi.SetAccessToken(pair.accessToken);
        spotifyApi.SetRefreshToken(pair.refreshToken);
      case Err(_) =>
    }

    method FetchTokensFromStorage()
      modifies spotifyApi, store
      ensures Snapshot() == Fetched(old(Snapshot()))
    {
      var content := store.ReadFileSync();
      match content
      case Unreadable => return;
      case Malformed => return;
      case Parsed(tokens) =>
        if !tokens.JObject? || !Truthy(tokens.accessToken) || !Truthy(tokens.refreshToken) {
          return;
        }
        spotifyApi.SetAccessToken(tokens.accessToken.value);
        spotifyApi.SetRefreshToken(tokens.refreshToken.value);
        var refreshed := RefreshTokens();
        if !refreshed {
          spotifyApi.ResetCredentials();
        }
    }

    method RefreshTokens() returns (ok: bool)
      modifies spotifyApi, store
      ensures Step(Snapshot(), ok) == Refreshed(old(Snapshot()))
    {
      var reply := spotifyApi.RefreshAccessToken();
      match reply
      case Ok(token) =>
        spotifyApi.SetAccessToken(token);
        PersistTokens();
        ok := true;
      case Err(_) =>
        ok := false;
    }

    method WrappedRequest(req: Request) returns (r: Option<Response>)
      modifies spotifyApi, store
      decreases |spotifyApi.requestReplies|
      ensures Step(Snapshot(), r) == Wrapped(old(Snapshot()), req)
    {
      var reply := spotifyApi.Send(req);
      match reply
      case Ok(v) =>
        r := Some(v);
      case Err(e) =>
        if e == Unauthorized {
          var refreshed := RefreshTokens();
          if refreshed {
            r := WrappedRequest(req);
            return;
          }
        }
        r := None;
    }
  }
}
