/** What the three generations of the API wrapper share: the state they act on
    (the client object and the token file), the configuration check, the
    guarded persist, the device listing and the play options. */
module Sessions {
  import opened WebApi
  import opened TokenStore

  /** Everything a wrapper operation can change. */
  datatype Session = Session(client: ClientState, file: FileState)

  /** The state after an operation and what the operation returned. */
  datatype Step<+T> = Step(session: Session, result: T)

  /** The errors the older wrappers throw. */
  datatype WrapperError =
    | SpotifyMissingConfigurationError
    | SpotifyAuthError
    | SpotifyRefreshTokenError
    | Remote(error: ApiError)

  /** How an operation of the older wrappers ends: it returns, or it throws. */
  datatype Outcome = Normal | Thrown(error: WrapperError)

  /** The plugin configuration fields the wrappers read; "" is a missing field. */
  datatype PlatformConfig = PlatformConfig(spotifyClientId: string, spotifyClientSecret: string, spotifyAuthCode: string)

  /** The constructor check of the older wrappers: they refuse to be built when
      the client id, the client secret or the auth code is falsy. */
  function CheckConfig(config: PlatformConfig): (r: Outcome)
    ensures r == Normal <==>
      config.spotifyClientId != "" && config.spotifyClientSecret != "" && config.spotifyAuthCode != ""
    ensures r != Normal ==> r == Thrown(SpotifyMissingConfigurationError)
  {
    if config.spotifyClientId == "" || config.spotifyClientSecret == "" || config.spotifyAuthCode == ""
    then Thrown(SpotifyMissingConfigurationError)
    else Normal
  }

  /** The guarded persistTokens shared by the current wrapper and the older
      class wrapper: a write only when both tokens are set, a failed write
      swallowed. */
  function PersistGuarded(s: Session): (r: Session)
    ensures r.client == s.client
    ensures r.file.writeFails == s.file.writeFails
    ensures s.client.cred.accessToken == "" || s.client.cred.refreshToken == "" ==> r == s
    ensures s.client.cred.accessToken != "" && s.client.cred.refreshToken != "" ==>
              r.file.writes == s.file.writes + 1
              && Load(r.file.content) == (if s.file.writeFails then Load(s.file.content) else Some(s.client.cred))
  {
    s.(file := GuardedWrite(s.file, s.client.cred))
  }

  /** getMyDevices: one call, the device list on success, null on any failure. */
  function MyDevices(s: Session): (r: Step<Option<seq<Device>>>)
    ensures r.session == s.(client := s.client.(deviceReplies := Consume(s.client.deviceReplies),
                                                  deviceCalls := s.client.deviceCalls + 1))
    ensures r.result.Some? <==> Next(s.client.deviceReplies).Ok?
    ensures r.result.Some? ==> r.result.value == Next(s.client.deviceReplies).value
  {
    var after := s.(client := s.client.(deviceReplies := Consume(s.client.deviceReplies),
                                         deviceCalls := s.client.deviceCalls + 1));
    match Next(s.client.deviceReplies)
    case Ok(devices) => Step(after, Some(devices))
    case Err(_) => Step(after, None)
  }

  /** JavaScript truthiness of the optional play arguments. */
  predicate TruthyString(x: Option<string>) { x.Some? && x.value != "" }
  predicate TruthyNumber(x: Option<int>) { x.Some? && x.value != 0 }

  /** The options object of play: the device and the context always, each
      optional key only when its argument is truthy, so an offset or a position
      of 0 is left out. */
  function PlayOptionsFor(deviceId: string, contextUri: string, uris: Option<string>,
                          offset: Option<int>, positionMs: Option<int>): (o: PlayOptions)
    ensures o.deviceId == deviceId && o.contextUri == contextUri
    ensures o.uris.Some? <==> TruthyString(uris)
    ensures o.offset.Some? <==> TruthyNumber(offset)
    ensures o.positionMs.Some? <==> TruthyNumber(positionMs)
    ensures o.uris.Some? ==> o.uris == uris
    ensures o.offset.Some? ==> o.offset == offset
    ensures o.positionMs.Some? ==> o.positionMs == positionMs
  {
    PlayOptions(deviceId, contextUri,
                if TruthyString(uris) then uris else None,
                if TruthyNumber(offset) then offset else None,
                if TruthyNumber(positionMs) then positionMs else None)
  }

  /** The client with a new credential and nothing else changed. */
  function WithCred(s: Session, c: Credential): (r: Session)
    ensures r.client.cred == c && r.file == s.file
  {
    s.(client := s.client.(cred := c))
  }

  /** The session once the client has answered one refresh call. */
  function RefreshCalled(s: Session): (r: Session)
    ensures r.file == s.file
    ensures r.client == s.client.(refreshReplies := Consume(s.client.refreshReplies),
                                  refreshCalls := s.client.refreshCalls + 1)
  {
    s.(client := s.client.(refreshReplies := Consume(s.client.refreshReplies),
                           refreshCalls := s.client.refreshCalls + 1))
  }

  /** The session once the client has answered one code-grant call. */
  function GrantCalled(s: Session, code: string): (r: Session)
    ensures r.file == s.file
    ensures r.client == s.client.(grantReplies := Consume(s.client.grantReplies),
                                  grantCodes := s.client.grantCodes + [code])
  {
    s.(client := s.client.(grantReplies := Consume(s.client.grantReplies),
                           grantCodes := s.client.grantCodes + [code]))
  }

  /** The session once the client has answered one playback request. */
  function RequestSent(s: Session, req: Request): (r: Session)
    ensures r.file == s.file
    ensures r.client == s.client.(requestReplies := Consume(s.client.requestReplies),
                                  requests := s.client.requests + [req])
  {
    s.(client := s.client.(requestReplies := Consume(s.client.requestReplies),
                           requests := s.client.requests + [req]))
  }
}
