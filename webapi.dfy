/** The remote music service as the plugin sees it through its client library.
    The library object keeps the credential cell (an access token and a refresh
    token, set, read and reset by the plugin). Every remote call is answered by a
    scripted oracle: a finite sequence of replies consumed one per call, with the
    calls counted or logged. A call made after its script is used up is answered
    by a failure that is not a status-coded service error (the service is
    unreachable). */
module WebApi {

  datatype Option<+T> = None | Some(value: T)

  /** The credential cell; the empty string stands for an absent token. */
  datatype Credential = Credential(accessToken: string, refreshToken: string)

  const NoCredential := Credential("", "")

  /** A failed call: a service error carrying its HTTP status, or anything else
      (a network failure, a thrown value that is not a service error). */
  datatype ApiError = WebApiError(statusCode: int) | OtherError

  const Unauthorized := WebApiError(401)

  datatype Reply<+T> = Ok(value: T) | Err(error: ApiError)

  /** The reply the next call receives. */
  function Next<T>(script: seq<Reply<T>>): (r: Reply<T>)
    ensures script != [] ==> r == script[0]
    ensures script == [] ==> r == Err(OtherError)
  {
    if script == [] then Err(OtherError) else script[0]
  }

  /** The script left once the next call has consumed its reply. */
  function Consume<T>(script: seq<Reply<T>>): (r: seq<Reply<T>>)
    ensures script != [] ==> |r| == |script| - 1 && script == [script[0]] + r
    ensures script == [] ==> r == []
  {
    if script == [] then [] else script[1..]
  }

  /** A response of the service: its HTTP status and, for a playback-state read,
      the two body fields the accessories use (`is_playing` and the device's
      `volume_percent`). */
  datatype Response = Response(statusCode: int, isPlaying: bool, volumePercent: int)

  /** The options object of a play request; an absent optional key is None. */
  datatype PlayOptions = PlayOptions(
    deviceId: string,
    contextUri: string,
    uris: Option<string>,
    offset: Option<int>,
    positionMs: Option<int>)

  /** The requests the wrapper sends through its retry rule. */
  datatype Request =
    | Play(options: PlayOptions)
    | Pause(deviceId: string)
    | GetPlaybackState
    | SetShuffle(state: bool, deviceId: string)
    | SetVolume(volume: int, deviceId: string)

  datatype Device = Device(id: string, name: string, volumePercent: int)

  /** The value of the client object: its credential cell, the oracle scripts
      of the four kinds of call and what each has received so far. */
  datatype ClientState = ClientState(
    cred: Credential,
    refreshReplies: seq<Reply<string>>,
    refreshCalls: nat,
    grantReplies: seq<Reply<Credential>>,
    grantCodes: seq<string>,
    requestReplies: seq<Reply<Response>>,
    requests: seq<Request>,
    deviceReplies: seq<Reply<seq<Device>>>,
    deviceCalls: nat)

  /** The client library object. */
  class SpotifyWebApi {
    var accessToken: string
    var refreshToken: string
    var refreshReplies: seq<Reply<string>>
    var refreshCalls: nat
    var grantReplies: seq<Reply<Credential>>
    var grantCodes: seq<string>
    var requestReplies: seq<Reply<Response>>
    var requests: seq<Request>
    var deviceReplies: seq<Reply<seq<Device>>>
    var deviceCalls: nat

    ghost function State(): ClientState
      reads this
    {
      ClientState(Credential(accessToken, refreshToken), refreshReplies, refreshCalls,
                  grantReplies, grantCodes, requestReplies, requests, deviceReplies, deviceCalls)
    }

    /** A fresh client has no tokens and has received no call. */
    constructor (refreshReplies: seq<Reply<string>>, grantReplies: seq<Reply<Credential>>,
                 requestReplies: seq<Reply<Response>>, deviceReplies: seq<Reply<seq<Device>>>)
      ensures State() == ClientState(NoCredential, refreshReplies, 0, grantReplies, [],
                                     requestReplies, [], deviceReplies, 0)
    {
      accessToken, refreshToken := "", "";
      this.refreshReplies, this.grantReplies := refreshReplies, grantReplies;
      this.requestReplies, this.deviceReplies := requestReplies, deviceReplies;
      refreshCalls, grantCodes, requests, deviceCalls := 0, [], [], 0;
    }

    method GetAccessToken() returns (t: string)
      ensures t == accessToken
    {
      t := accessToken;
    }

    method GetRefreshToken() returns (t: string)
      ensures t == refreshToken
    {
      t := refreshToken;
    }

    method SetAccessToken(t: string)
      modifies this
      ensures State() == old(State()).(cred := old(State()).cred.(accessToken := t))
    {
      accessToken := t;
    }

    method SetRefreshToken(t: string)
      modifies this
      ensures State() == old(State()).(cred := old(State()).cred.(refreshToken := t))
    {
      refreshToken := t;
    }

    /** Clears the two tokens. The client configuration (client id, secret and
        redirect URI) is not part of the model and is kept. */
    method ResetCredentials()
      modifies this
      ensures State() == old(State()).(cred := NoCredential)
    {
      accessToken, refreshToken := "", "";
    }

    /** The refresh-token grant (section 6 of RFC 6749): on success the reply is
        a new access token; the refresh token is not rotated. */
    method RefreshAccessToken() returns (r: Reply<string>)
      modifies this
      ensures r == Next(old(refreshReplies))
      ensures State() == old(State()).(refreshReplies := Consume(old(refreshReplies)),
                                       refreshCalls := old(refreshCalls) + 1)
    {
      r := Next(refreshReplies);
      refreshReplies := Consume(refreshReplies);
      refreshCalls := refreshCalls + 1;
    }

    /** The authorization-code grant (section 4.1.3 of RFC 6749): on success
        the reply is an access token and a refresh token. */
    method AuthorizationCodeGrant(code: string) returns (r: Reply<Credential>)
      modifies this
      ensures r == Next(old(grantReplies))
      ensures State() == old(State()).(grantReplies := Consume(old(grantReplies)),
                                       grantCodes := old(grantCodes) + [code])
    {
      r := Next(grantReplies);
      grantReplies := Consume(grantReplies);
      grantCodes := grantCodes + [code];
    }

    /** One playback request (play, pause, state read, shuffle, volume). */
    method Send(req: Request) returns (r: Reply<Response>)
      modifies this
      ensures r == Next(old(requestReplies))
      ensures State() == old(State()).(requestReplies := Consume(old(requestReplies)),
                                       requests := old(requests) + [req])
    {
      r := Next(requestReplies);
      requestReplies := Consume(requestReplies);
      requests := requests + [req];
    }

    method GetMyDevices() returns (r: Reply<seq<Device>>)
      modifies this
      ensures r == Next(old(deviceReplies))
      ensures State() == old(State()).(deviceReplies := Consume(old(deviceReplies)),
                                       deviceCalls := old(deviceCalls) + 1)
    {
      r := Next(deviceReplies);
      deviceReplies := Consume(deviceReplies);
      deviceCalls := deviceCalls + 1;
    }
  }
}
