# homebridge-spotify-speaker, modelled in Dafny

This project models the control logic of a Homebridge plugin that exposes
Spotify Connect devices as HomeKit accessories. It covers three parts:

- **The API wrapper** in its three generations:
  - `src/spotify-api-wrapper.ts`, the current one, modelled in module `ApiWrapper`;
  - `src/spotifyApiWrapper.ts`, the older class, modelled in module `LegacyApiWrapper`;
  - `src/spotify-wrapper.ts`, the oldest one, modelled in module `SpotifyWrapper`.

  Each wrapper keeps a credential pair (access token, refresh token) in the
  client library object, loads it from a token file, and validates it by one
  refresh. When that fails it falls back to one authorization-code grant. It
  writes the pair back to the file. The current wrapper also sends every
  playback request through a retry rule: a 401 answer triggers one refresh and,
  if that succeeds, the same request again.
- **The polled accessories:**
  - the speaker (`src/spotify-speaker-accessory.ts`, module `SpeakerAccessory`);
  - the smart speaker (`src/spotify-smart-speaker-accessory.ts`, module
    `SmartSpeakerAccessory`).

  Their fields are overwritten by a poll of the playback state and by the
  HomeKit set-handlers. A characteristic is pushed again only when its value
  changed.
- **The playlist switch** (`src/spotifyPlaylistPlayerAccessory.ts`, module
  `PlaylistPlayerAccessory`): an on/off field that turns into a play or a pause
  command.

How the environment is modelled:

- **The client library (`spotify-web-api-node`).** The class
  `WebApi.SpotifyWebApi` stands in for it. It holds the credential cell and
  answers every remote call from a scripted oracle: a finite sequence of replies,
  consumed one per call, with the calls counted or logged. A call made after its
  script is used up fails with an error that carries no status code.
- **The token file.** The class `TokenStore.TokenFile` stands in for it. It is a
  cell holding what a read finds (unreadable, not JSON, or a parsed value), a flag
  saying whether writes fail, and a count of write attempts.
- **The pattern used for each wrapper operation:**
  - a specification function over the value `Sessions.Session` (client state plus
    file state), which returns the new session and the result;
  - lemmas about that function;
  - a method of the wrapper class whose `ensures` ties the objects' new state and
    the result to the function.
- **Failures.** The older wrappers throw; this is the `Sessions.Outcome` value
  `Thrown(e)`.
- **The accessories.** Each accessory is a class with the source's fields, a log
  of the wrapper calls it issues (`commands`) and a log of the characteristic
  updates it pushes (`announced`). A poll tick is one call of `Poll` with the
  playback snapshot the wrapper returned. The HomeKit values are those of the
  HomeKit Accessory Protocol:
  - Active: INACTIVE = 0, ACTIVE = 1;
  - CurrentMediaState: PLAY = 0, PAUSE = 1, STOP = 2.

What the code does not do, and the model therefore does not either:

- The code implements no retry on 404 and no retry of the device listing.
- It implements no priority rule between playlist-bound and device-bound
  speakers, and no periodic token refresh.
- Nothing bounds the retry recursion except the service's answers. Here the
  script bounds it.
- `authenticate` does not write tokens obtained by the code grant (see
  `ApiWrapper.GrantedTokensNotPersisted`). They reach the file only through the
  platform's shutdown hook or the next refresh.
- The test file `src/spotify-api-wrapper.test.ts` expects 404 retries and a
  device-not-found error that the code does not implement.

## Model

| member | source | states |
|---|---|---|
| TokenStore.Load | src/spotify-api-wrapper.ts:117-130 | the saved pair is found exactly when the file parses to an object whose two fields are non-empty strings, and it is those two strings; unreadable, malformed and incomplete files yield nothing |
| TokenStore.LoadAsWritten | src/spotify-api-wrapper.ts:120-130 | as written, a file holding JSON `null` throws, and every other file reads as `Load` reads it |
| TokenStore.NullFileThrows | src/spotify-api-wrapper.ts:128 | the `null` file makes the as-written read throw, where the corrected read and an empty object yield nothing |
| TokenStore.Serialize | src/spotify-api-wrapper.ts:52-55 | the document written has both keys, holding the current pair |
| TokenStore.Write | src/spotify-wrapper.ts:112-123 | one write attempt is counted; a failed write leaves the file unchanged, a successful one stores the pair's document |
| TokenStore.GuardedWrite | src/spotify-api-wrapper.ts:47-65 | no write unless both tokens are non-empty, otherwise one write |
| TokenStore.WriteThenLoad | src/spotify-api-wrapper.ts:47-65 | a complete pair written successfully is read back as the same pair; after a failed write the file reads as before |
| TokenStore.IncompleteWriteLoadsNothing | src/spotify-wrapper.ts:112-123 | an unguarded write of a pair with an empty token stores a document that reads back as no tokens |
| TokenStore.TokenFile.WriteFileSync | src/spotify-api-wrapper.ts:57-64 | the write reports failure exactly when writes fail, and the file becomes `Write` of the old file |
| TokenStore.TokenFile.ReadFileSync | src/spotify-api-wrapper.ts:122 | the read returns the file's current content |
| Sessions.CheckConfig | src/spotifyApiWrapper.ts:24-33 | normal exactly when client id, client secret and auth code are all non-empty; otherwise SPOTIFY_MISSING_CONFIGURATION_ERROR |
| Sessions.PersistGuarded | src/spotifyApiWrapper.ts:114-129 | the client and the write-failure flag are untouched; nothing happens unless both tokens are set; otherwise one write, after which the file reads back as the current pair unless the write failed |
| Sessions.MyDevices | src/spotify-api-wrapper.ts:95-103 | one device-list call; the list on success, null on any failure |
| Sessions.PlayOptionsFor | src/spotify-api-wrapper.ts:67-74 | device and context always present; `uris`, `offset` and `position_ms` present exactly when their argument is truthy (so 0 and "" are left out), and then equal to it |
| ApiWrapper.Refreshed | src/spotify-api-wrapper.ts:143-156 | true exactly when the refresh succeeds; then only the access token is replaced and the pair is persisted through the guard; on failure the credentials and the file are unchanged; the refresh token never changes |
| ApiWrapper.Fetched | src/spotify-api-wrapper.ts:117-141 | no saved pair, no change at all; a saved pair costs one refresh and survives, with the new access token, exactly when the refresh succeeds, the credentials being reset otherwise; grants and requests untouched |
| ApiWrapper.Granted | src/spotify-api-wrapper.ts:105-115 | one grant call with the configured code; the returned pair on success, the credentials unchanged on failure; the file is never written |
| ApiWrapper.Authenticated | src/spotify-api-wrapper.ts:26-45 | true exactly when an access token is set at the end; the saved tokens decide alone if they leave an access token, otherwise one grant follows |
| ApiWrapper.AuthenticateWithSavedTokens | src/spotify-api-wrapper.ts:26-31 | saved tokens that refresh: true, one refresh, no grant call, the credential is the refreshed pair |
| ApiWrapper.AuthenticateFallsBackToGrant | src/spotify-api-wrapper.ts:33-44 | no usable saved tokens: exactly one grant call with the configured code; a failed grant leaves the credentials empty and the result false |
| ApiWrapper.GrantedTokensNotPersisted | src/spotify-api-wrapper.ts:105-115 | with no saved pair, authenticate leaves the token file as it was, granted tokens included |
| ApiWrapper.RetryRounds | src/spotify-api-wrapper.ts:166-172 | the number of leading 401 answers each followed by a successful refresh: every one of the first k pairs is a 401 with a successful refresh, k is bounded by both scripts, and pair k does not continue the rule |
| ApiWrapper.Wrapped | src/spotify-api-wrapper.ts:158-177 | the retry rule: at least one request, grants, devices and the refresh token untouched |
| ApiWrapper.WrappedRetries | src/spotify-api-wrapper.ts:158-177 | with k the count of retry rounds, the request is sent k + 1 times, refreshed k times plus once for a final 401, the result is the last answer if it succeeded and absent otherwise, the access token is that of the last successful refresh, and the token file is untouched without a round, keeps its content when writes fail, is written once per round whose refreshed access token is non-empty (none if the refresh token is empty), and otherwise reads back as the last refreshed pair |
| ApiWrapper.WrappedRetriesAfterRound | src/spotify-api-wrapper.ts:166-171 | with k > 0 retry rounds, the first round followed by the k - 1 rounds left gives the calls, credentials and token file that `RetriedAs` states for k |
| ApiWrapper.WrappedStopsAtFirstAnswer | src/spotify-api-wrapper.ts:159-176 | an answer that does not continue the rule ends it after one request |
| ApiWrapper.RetryRound | src/spotify-api-wrapper.ts:166-171 | a 401 followed by a successful refresh leads to the same request with the refreshed access token, one more refresh call, the refresh token kept and the pair persisted through the guard |
| ApiWrapper.RetriedCallsAfterRound | src/spotify-api-wrapper.ts:169-171 | one round followed by k - 1 rounds is k rounds, for the calls made and the credentials left |
| ApiWrapper.RetriedFileAfterRound | src/spotify-api-wrapper.ts:148-149 | one round followed by k - 1 rounds is k rounds, for the token file: after the rounds it reads back as the pair of the last refresh unless writes fail or a token is empty, keeps its content when writes fail, and has one write per round with two non-empty tokens |
| ApiWrapper.RetriedAsAfterRound | src/spotify-api-wrapper.ts:145-171 | one round followed by k - 1 rounds is k rounds, for the calls, the credentials and the token file together |
| ApiWrapper.WrappedSucceedsAtOnce | src/spotify-api-wrapper.ts:159-161 | a first success is returned after one request with no refresh and unchanged credentials |
| ApiWrapper.WrappedGivesUp | src/spotify-api-wrapper.ts:162-176 | a non-401 failure, or a 401 whose refresh fails, gives an absent result after one request with unchanged credentials |
| ApiWrapper.WrappedRetriesOnce | src/spotify-api-wrapper.ts:166-171 | 401, successful refresh, success: two requests, one refresh, the second answer, the new access token |
| ApiWrapper.SpotifyApiWrapper.constructor | src/spotify-api-wrapper.ts:15-24 | keeps the configured auth code, performs no check |
| ApiWrapper.SpotifyApiWrapper.Authenticate | src/spotify-api-wrapper.ts:26-45 | the objects' new state and the result are `Authenticated` of the old state |
| ApiWrapper.SpotifyApiWrapper.PersistTokens | src/spotify-api-wrapper.ts:47-65 | the new state is `PersistGuarded` of the old |
| ApiWrapper.SpotifyApiWrapper.Play | src/spotify-api-wrapper.ts:67-77 | the play request with the options of `PlayOptionsFor`, through the retry rule |
| ApiWrapper.SpotifyApiWrapper.Pause | src/spotify-api-wrapper.ts:79-81 | the pause request through the retry rule |
| ApiWrapper.SpotifyApiWrapper.GetPlaybackState | src/spotify-api-wrapper.ts:83-85 | the playback-state request through the retry rule, returning its result |
| ApiWrapper.SpotifyApiWrapper.SetShuffle | src/spotify-api-wrapper.ts:87-89 | the shuffle request through the retry rule |
| ApiWrapper.SpotifyApiWrapper.SetVolume | src/spotify-api-wrapper.ts:91-93 | the volume request through the retry rule |
| ApiWrapper.SpotifyApiWrapper.GetMyDevices | src/spotify-api-wrapper.ts:95-103 | the new state and result are `MyDevices` of the old |
| ApiWrapper.SpotifyApiWrapper.AuthWithCodeGrant | src/spotify-api-wrapper.ts:105-115 | the new state is `Granted` of the old |
| ApiWrapper.SpotifyApiWrapper.FetchTokensFromStorage | src/spotify-api-wrapper.ts:117-141 | the new state is `Fetched` of the old |
| ApiWrapper.SpotifyApiWrapper.RefreshTokens | src/spotify-api-wrapper.ts:143-156 | the new state and result are `Refreshed` of the old |
| ApiWrapper.SpotifyApiWrapper.WrappedRequest | src/spotify-api-wrapper.ts:158-177 | the new state and result are `Wrapped` of the old |
| LegacyApiWrapper.Refreshed | src/spotifyApiWrapper.ts:132-143 | normal exactly when the refresh succeeds, then only the access token replaced and persisted through the guard; otherwise SPOTIFY_REFRESH_TOKEN_ERROR with credentials and file unchanged |
| LegacyApiWrapper.Fetched | src/spotifyApiWrapper.ts:63-92 | no saved pair, no change; a saved pair survives its refresh or the caught error resets the credentials, so no refresh error escapes |
| LegacyApiWrapper.Granted | src/spotifyApiWrapper.ts:45-61 | one grant call; the returned pair, or SPOTIFY_AUTH_ERROR with the credentials unchanged |
| LegacyApiWrapper.Authenticated | src/spotifyApiWrapper.ts:94-112 | normal exactly when an access token is set at the end, SPOTIFY_AUTH_ERROR otherwise |
| LegacyApiWrapper.AuthenticateWithSavedTokens | src/spotifyApiWrapper.ts:94-99 | saved tokens that refresh: normal return with no grant call |
| LegacyApiWrapper.AuthenticateThrowsAuthError | src/spotifyApiWrapper.ts:101-111 | no usable saved tokens and a grant that fails or yields no access token: SPOTIFY_AUTH_ERROR after exactly one grant call |
| LegacyApiWrapper.Sent | src/spotifyApiWrapper.ts:145-163 | one request; a failure is thrown to the caller as is |
| LegacyApiWrapper.UnwrappedUnauthorizedThrows | src/spotifyApiWrapper.ts:158-162 | a 401 is thrown, with one request and no refresh |
| LegacyApiWrapper.New | src/spotifyApiWrapper.ts:24-33 | SPOTIFY_MISSING_CONFIGURATION_ERROR, and no object, exactly when a configuration field is falsy |
| LegacyApiWrapper.SpotifyApiWrapper.constructor | src/spotifyApiWrapper.ts:35-43 | keeps the configured auth code |
| LegacyApiWrapper.SpotifyApiWrapper.Authenticate | src/spotifyApiWrapper.ts:94-112 | the new state and outcome are `Authenticated` of the old |
| LegacyApiWrapper.SpotifyApiWrapper.PersistTokens | src/spotifyApiWrapper.ts:114-129 | the new state is `PersistGuarded` of the old |
| LegacyApiWrapper.SpotifyApiWrapper.RefreshToken | src/spotifyApiWrapper.ts:132-143 | the new state and outcome are `Refreshed` of the old |
| LegacyApiWrapper.SpotifyApiWrapper.AuthWithCodeGrant | src/spotifyApiWrapper.ts:45-61 | the new state and outcome are `Granted` of the old |
| LegacyApiWrapper.SpotifyApiWrapper.FetchTokensFromStorage | src/spotifyApiWrapper.ts:63-92 | the new state is `Fetched` of the old |
| LegacyApiWrapper.SpotifyApiWrapper.Play | src/spotifyApiWrapper.ts:145-159 | the play request with the options of `PlayOptionsFor`, unwrapped, as `Sent` |
| LegacyApiWrapper.SpotifyApiWrapper.Pause | src/spotifyApiWrapper.ts:161-163 | the pause request, unwrapped, as `Sent` |
| LegacyApiWrapper.SpotifyApiWrapper.GetMyDevices | src/spotifyApiWrapper.ts:165-173 | the new state and result are `MyDevices` of the old |
| SpotifyWrapper.Persisted | src/spotify-wrapper.ts:112-123 | unguarded: every call is one write attempt of the current pair, empty tokens included; a failed write is swallowed |
| SpotifyWrapper.EmptyCredentialIsWritten | src/spotify-wrapper.ts:112-123 | an empty pair is written as a document that reads back as no tokens, where the guarded persist writes nothing |
| SpotifyWrapper.Refreshed | src/spotify-wrapper.ts:125-135 | normal exactly when the refresh succeeds, then only the access token replaced and nothing written; otherwise SPOTIFY_REFRESH_TOKEN_ERROR with credentials unchanged |
| SpotifyWrapper.Fetched | src/spotify-wrapper.ts:81-110 | no saved pair, no change; a saved pair survives its refresh or the credentials are reset; the file is never written |
| SpotifyWrapper.Granted | src/spotify-wrapper.ts:63-79 | one grant call with the given code; the returned pair, or SPOTIFY_AUTH_ERROR with the credentials unchanged |
| SpotifyWrapper.Authenticated | src/spotify-wrapper.ts:45-61 | normal exactly when an access token is set at the end, SPOTIFY_AUTH_ERROR otherwise; the file is never written |
| SpotifyWrapper.AuthenticateGrantsOnlyWithoutSavedTokens | src/spotify-wrapper.ts:45-79 | saved tokens that refresh: normal return with no grant; otherwise one grant with the given code, whose failure throws SPOTIFY_AUTH_ERROR |
| SpotifyWrapper.New | src/spotify-wrapper.ts:21-30 | SPOTIFY_MISSING_CONFIGURATION_ERROR, and no object, exactly when a configuration field is falsy |
| SpotifyWrapper.SpotifyWrapper.constructor | src/spotify-wrapper.ts:32-38 | keeps the client and the token file |
| SpotifyWrapper.SpotifyWrapper.Authenticate | src/spotify-wrapper.ts:45-61 | the new state and outcome are `Authenticated` of the old with the given code |
| SpotifyWrapper.SpotifyWrapper.AuthWithCodeGrant | src/spotify-wrapper.ts:63-79 | the new state and outcome are `Granted` of the old |
| SpotifyWrapper.SpotifyWrapper.FetchTokensFromStorage | src/spotify-wrapper.ts:81-110 | the new state is `Fetched` of the old |
| SpotifyWrapper.SpotifyWrapper.PersistTokens | src/spotify-wrapper.ts:112-123 | the new state is `Persisted` of the old |
| SpotifyWrapper.SpotifyWrapper.RefreshToken | src/spotify-wrapper.ts:125-135 | the new state and outcome are `Refreshed` of the old |
| SpeakerAccessory.ActiveStateFor | src/spotify-speaker-accessory.ts:118-122 | ACTIVE exactly when playing, INACTIVE otherwise |
| SpeakerAccessory.Observed | src/spotify-speaker-accessory.ts:53-60 | 200: active iff playing, the reported volume; 204: INACTIVE at volume 0; any other status: no change; mute untouched |
| SpeakerAccessory.PollAnnouncements | src/spotify-speaker-accessory.ts:61-66 | Active is pushed exactly when it changed, Volume exactly when it changed, each at most once, Active first, nothing else |
| SpeakerAccessory.ActiveSet | src/spotify-speaker-accessory.ts:76-93 | ACTIVE: exactly one play of the device's playlist; INACTIVE: exactly one pause; any other value: no call; the value becomes the state in every case |
| SpeakerAccessory.VolumeSet | src/spotify-speaker-accessory.ts:100-104 | the value is sent to the device, then kept |
| SpeakerAccessory.MuteToggled | src/spotify-speaker-accessory.ts:111-116 | sends 0 when unmuted and 50 when muted, flips mute, leaves state and volume alone |
| SpeakerAccessory.MuteTwiceRestores | src/spotify-speaker-accessory.ts:111-116 | two toggles restore the fields, sending 0 then 50 or 50 then 0 |
| SpeakerAccessory.ObservedForgetsPast | src/spotify-speaker-accessory.ts:53-60 | a 200 or 204 snapshot leaves the same fields whatever they were before |
| SpeakerAccessory.RepeatedTickIsSilent | src/spotify-speaker-accessory.ts:50-66 | a tick repeating the previous snapshot changes and pushes nothing |
| SpeakerAccessory.Polled | src/spotify-speaker-accessory.ts:47-67 | a run of ticks never changes mute |
| SpeakerAccessory.PolledUndecided | src/spotify-speaker-accessory.ts:53-60 | ticks that report neither 200 nor 204 change nothing |
| SpeakerAccessory.PolledDecidedByLast | src/spotify-speaker-accessory.ts:47-67 | after a run of ticks the fields are those the last 200 or 204 snapshot alone gives |
| SpeakerAccessory.SpotifySpeakerAccessory.constructor | src/spotify-speaker-accessory.ts:41-43 | ACTIVE, volume 0, not muted, nothing sent or pushed |
| SpeakerAccessory.SpotifySpeakerAccessory.SetInitialState | src/spotify-speaker-accessory.ts:124-139 | the decision rule, then Active, Volume and Mute pushed unconditionally |
| SpeakerAccessory.SpotifySpeakerAccessory.Poll | src/spotify-speaker-accessory.ts:47-67 | the fields become `Observed`, the pushes are `PollAnnouncements` of old and new fields, no call is sent |
| SpeakerAccessory.SpotifySpeakerAccessory.HandleActiveGet | src/spotify-speaker-accessory.ts:71-74 | answers the active state |
| SpeakerAccessory.SpotifySpeakerAccessory.HandleActiveSet | src/spotify-speaker-accessory.ts:76-93 | fields and calls as `ActiveSet` |
| SpeakerAccessory.SpotifySpeakerAccessory.HandleVolumeGet | src/spotify-speaker-accessory.ts:95-98 | answers the volume |
| SpeakerAccessory.SpotifySpeakerAccessory.HandleVolumeSet | src/spotify-speaker-accessory.ts:100-104 | fields and calls as `VolumeSet` |
| SpeakerAccessory.SpotifySpeakerAccessory.HandleMuteGet | src/spotify-speaker-accessory.ts:106-109 | answers the mute flag |
| SpeakerAccessory.SpotifySpeakerAccessory.HandleMuteSet | src/spotify-speaker-accessory.ts:111-116 | fields and calls as `MuteToggled` |
| SmartSpeakerAccessory.MediaStateFor | src/spotify-smart-speaker-accessory.ts:114-118 | PLAY exactly when playing, PAUSE otherwise |
| SmartSpeakerAccessory.Observed | src/spotify-smart-speaker-accessory.ts:55-61 | 200: PLAY iff playing else PAUSE, the reported volume; 204: STOP at volume 0; any other status: no change; target untouched |
| SmartSpeakerAccessory.PollAnnouncements | src/spotify-smart-speaker-accessory.ts:63-68 | CurrentMediaState is pushed exactly when it changed, Volume exactly when it changed, each at most once, CurrentMediaState first, nothing else |
| SmartSpeakerAccessory.TargetMediaStateSet | src/spotify-smart-speaker-accessory.ts:83-101 | PLAY: one play; PAUSE or STOP: one pause; any other value: no call; the target becomes the value and the current state is untouched |
| SmartSpeakerAccessory.VolumeSet | src/spotify-smart-speaker-accessory.ts:108-112 | the value is sent to the device, then kept |
| SmartSpeakerAccessory.ObservedForgetsPast | src/spotify-smart-speaker-accessory.ts:55-61 | a 200 or 204 snapshot leaves the same fields whatever they were before |
| SmartSpeakerAccessory.RepeatedTickIsSilent | src/spotify-smart-speaker-accessory.ts:52-68 | a tick repeating the previous snapshot changes and pushes nothing |
| SmartSpeakerAccessory.TargetThenPoll | src/spotify-smart-speaker-accessory.ts:83-101 | a requested target does not show as the current state; the next poll alone decides it |
| SmartSpeakerAccessory.Polled | src/spotify-smart-speaker-accessory.ts:49-69 | a run of ticks never changes the target |
| SmartSpeakerAccessory.PolledUndecided | src/spotify-smart-speaker-accessory.ts:55-61 | ticks that report neither 200 nor 204 change nothing |
| SmartSpeakerAccessory.PolledDecidedByLast | src/spotify-smart-speaker-accessory.ts:49-69 | after a run of ticks the fields are those the last 200 or 204 snapshot alone gives |
| SmartSpeakerAccessory.SpotifySmartSpeakerAccessory.constructor | src/spotify-smart-speaker-accessory.ts:43-45 | current PAUSE, target PLAY, volume 0, nothing sent or pushed |
| SmartSpeakerAccessory.SpotifySmartSpeakerAccessory.SetInitialState | src/spotify-smart-speaker-accessory.ts:120-134 | the decision rule, then CurrentMediaState and Volume pushed unconditionally |
| SmartSpeakerAccessory.SpotifySmartSpeakerAccessory.Poll | src/spotify-smart-speaker-accessory.ts:49-69 | the fields become `Observed`, the pushes are `PollAnnouncements` of old and new fields, no call is sent |
| SmartSpeakerAccessory.SpotifySmartSpeakerAccessory.HandleCurrentMediaStateGet | src/spotify-smart-speaker-accessory.ts:73-76 | answers the current media state |
| SmartSpeakerAccessory.SpotifySmartSpeakerAccessory.HandleTargetMediaStateGet | src/spotify-smart-speaker-accessory.ts:78-81 | answers the target media state |
| SmartSpeakerAccessory.SpotifySmartSpeakerAccessory.HandleTargetMediaStateSet | src/spotify-smart-speaker-accessory.ts:83-101 | fields and calls as `TargetMediaStateSet` |
| SmartSpeakerAccessory.SpotifySmartSpeakerAccessory.HandleVolumeGet | src/spotify-smart-speaker-accessory.ts:103-106 | answers the volume |
| SmartSpeakerAccessory.SpotifySmartSpeakerAccessory.HandleVolumeSet | src/spotify-smart-speaker-accessory.ts:108-112 | fields and calls as `VolumeSet` |
| PlaylistPlayerAccessory.OnSetCommands | src/spotifyPlaylistPlayerAccessory.ts:47-49 | off: one pause of the device; on: one play of its playlist; no wrapper: nothing; a play is issued exactly when turning on |
| PlaylistPlayerAccessory.SpotifyPlaylistPlayerAccessory.constructor | src/spotifyPlaylistPlayerAccessory.ts:16 | the switch starts off with nothing sent |
| PlaylistPlayerAccessory.SpotifyPlaylistPlayerAccessory.HandleOnGet | src/spotifyPlaylistPlayerAccessory.ts:38-41 | answers the on flag |
| PlaylistPlayerAccessory.SpotifyPlaylistPlayerAccessory.HandleOnSet | src/spotifyPlaylistPlayerAccessory.ts:43-50 | the flag becomes the value whatever the command does, and the calls are `OnSetCommands` |
| PlaylistPlayerAccessory.SetThenGet | src/spotifyPlaylistPlayerAccessory.ts:38-50 | the getter answers the value of the last set, and each set issues its own command |

## Left out

- The client library's wire formats and the OAuth 2.0 flows behind the refresh
  and the code grant (sections 4.1.3 and 6 of RFC 6749). Only their outcomes are
  modelled, as scripted replies.
- `fs` and `JSON.parse`/`JSON.stringify` are left out: the file is a cell of
  parsed values. A token field holding something other than a string (a number,
  an object) is not modelled. An unset token is the empty string, so the
  unguarded persist writes both keys with "" (`SpotifyWrapper.EmptyCredentialIsWritten`);
  if the client reports an unset token as `undefined`, `JSON.stringify` drops
  that key instead. Either document reads back as no tokens.
- ApiWrapper.Fetched, LegacyApiWrapper.Fetched, SpotifyWrapper.Fetched and
  their Authenticated functions, with the wrapper classes' FetchTokensFromStorage
  and Authenticate methods: these read the file as the corrected
  `TokenStore.Load` does. As written, a file holding `null` throws a TypeError
  out of fetchTokensFromStorage and authenticate (see `TokenStore.LoadAsWritten`
  and "## Findings").
- WebApi.SpotifyWebApi.ResetCredentials clears only the two tokens: the model
  keeps the client configuration across a reset. The client library's
  `resetCredentials()` drops its whole credentials object, which also holds the
  client id, client secret and redirect URI set by each constructor
  (src/spotify-api-wrapper.ts:19-23, src/spotifyApiWrapper.ts:38-42,
  src/spotify-wrapper.ts:34-38). So after the reset in fetchTokensFromStorage
  (src/spotify-api-wrapper.ts:139, src/spotifyApiWrapper.ts:90,
  src/spotify-wrapper.ts:108), the library's grant and refresh calls may go out
  without client credentials and fail. The model's scripted grant and refresh
  replies do not depend on that configuration. This affects ApiWrapper.Fetched,
  LegacyApiWrapper.Fetched, SpotifyWrapper.Fetched, their Authenticated
  functions, ApiWrapper.AuthenticateFallsBackToGrant and the classes'
  FetchTokensFromStorage and Authenticate methods: on the path of saved tokens
  whose refresh fails, the grant that follows can succeed in the model. The
  library is not part of this model.
- The test for a service error by its prototype name
  (src/spotify-api-wrapper.ts:164) is left out: a service error is the
  `WebApiError` case, carrying its status.
- Asynchrony and interleaving are left out. Every `await` is a call that
  completes before the next statement. The poll timer of the accessories is one
  `Poll` call per tick, and the 20-second interval is not modelled.
- The constructor of src/spotify-wrapper.ts calls `authenticate` without awaiting
  it and then `persistTokens` (src/spotify-wrapper.ts:40-42). This ordering is
  not modelled. Both operations are modelled on their own.
- A poll or `setInitialState` when the wrapper returned no playback state is left
  out. The source then reads `statusCode` of `undefined` and the callback fails.
  In the model the snapshot parameter is always present.
- The accessories are modelled against a log of wrapper calls, not linked to the
  wrapper model. What those calls do is the wrapper's `Play`, `Pause` and
  `SetVolume`.
- Service and characteristic registration, names, the platform
  (src/platform.ts) and src/index.ts are not part of this model. Neither is
  logging.
- Retry on 404, a retry of the device listing, a device-not-found error and a
  periodic token refresh are left out: the code implements none of them.
- ApiWrapper.Wrapped: the recursion is bounded by the finite reply script. An
  endless run of 401 answers, each followed by a successful refresh, is not
  modelled.
- The `offset` option of play is modelled as a number, as the wrapper's
  signature declares it. The service's object form of `offset` is not modelled.

## Findings

| source | as written | input that shows it | evidently intended | confidence | as-written member | corrected member |
|---|---|---|---|---|---|---|
| src/spotify-api-wrapper.ts:120-130 | only the parse is inside the try; `tokens.accessToken` is read after it, so a token file holding the JSON text `null` makes `fetchTokensFromStorage`, and with it `authenticate`, throw a TypeError (the same at src/spotifyApiWrapper.ts:76 and src/spotify-wrapper.ts:94) | a token file whose content is `null`; see `TokenStore.NullFileThrows` | such a file is skipped like any other unusable file, and `authenticate` goes on to the code grant without throwing | medium, not executed | TokenStore.LoadAsWritten | TokenStore.Load |
