/** What the HomeKit accessories share: the characteristic values of the
    HomeKit Accessory Protocol they use, the device record from the plugin
    configuration, the wrapper calls they issue and the characteristic
    updates they push. */
module Accessories {
  /** Values of the Active characteristic. */
  const INACTIVE: int := 0
  const ACTIVE: int := 1

  /** Values of the CurrentMediaState and TargetMediaState characteristics. */
  const PLAY: int := 0
  const PAUSE: int := 1
  const STOP: int := 2

  /** A configured device (src/types.ts). */
  datatype Device = Device(deviceName: string, spotifyDeviceId: string, spotifyPlaylistId: string)

  /** A playback command an accessory issues to the API wrapper. */
  datatype Command =
    | Play(deviceId: string, contextUri: string)
    | Pause(deviceId: string)
    | SetVolume(volume: int, deviceId: string)

  /** A characteristic value pushed to HomeKit. */
  datatype Announcement =
    | ActiveIs(active: int)
    | VolumeIs(volume: int)
    | MuteIs(muted: bool)
    | CurrentMediaStateIs(mediaState: int)

  /** The HTTP statuses of a playback-state snapshot the accessories act on:
      200 carries the state, 204 means nothing is playing. */
  predicate Decisive(statusCode: int)
  {
    statusCode == 200 || statusCode == 204
  }
}
