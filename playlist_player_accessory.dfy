/** The playlist switch (src/spotifyPlaylistPlayerAccessory.ts): an On
    characteristic over one field; turning it on plays the configured playlist
    on the device, turning it off pauses the device. The platform's wrapper may
    be absent, in which case the optional call issues nothing. */
module PlaylistPlayerAccessory {
  import opened Accessories

  /** handleOnSet's wrapper calls: pause when turned off, play when turned on,
      nothing without a wrapper. */
  function OnSetCommands(device: Device, value: bool, hasWrapper: bool): (r: seq<Command>)
    ensures !hasWrapper ==> r == []
    ensures hasWrapper && value ==> r == [Play(device.spotifyDeviceId, device.spotifyPlaylistId)]
    ensures hasWrapper && !value ==> r == [Pause(device.spotifyDeviceId)]
    ensures forall c <- r :: c.Play? <==> value
  {
    if !hasWrapper then []
    else if !value then [Pause(device.spotifyDeviceId)]
    else [Play(device.spotifyDeviceId, device.spotifyPlaylistId)]
  }

  /** The accessory object. */
  class SpotifyPlaylistPlayerAccessory {
    const device: Device
    /** Whether the platform's API wrapper is set. */
    const hasWrapper: bool
    var isOn: bool
    /** The wrapper calls issued so far, in order. */
    var commands: seq<Command>

    constructor (device: Device, hasWrapper: bool)
      ensures this.device == device && this.hasWrapper == hasWrapper
      ensures !isOn && commands == []
    {
      this.device := device;
      this.hasWrapper := hasWrapper;
      isOn := false;
      commands := [];
    }

    method HandleOnGet() returns (v: bool)
      ensures v == isOn
    {
      v := isOn;
    }

    /** The field is set first, whatever the command does. */
    method HandleOnSet(value: bool)
      modifies this
      ensures isOn == value
      ensures commands == old(commands) + OnSetCommands(device, value, hasWrapper)
    {
      isOn := value;
      if hasWrapper {
        if !isOn {
          commands := commands + [Pause(device.spotifyDeviceId)];
        } else {
          commands := commands + [Play(device.spotifyDeviceId, device.spotifyPlaylistId)];
        }
      }
    }
  }

  /** handleOnGet answers the value of the last handleOnSet, and a run of sets
      issues one command per set when the wrapper is there. */
  method SetThenGet(a: SpotifyPlaylistPlayerAccessory, first: bool, second: bool) returns (v: bool)
    modifies a
    ensures v == second
    ensures a.commands == old(a.commands) + OnSetCommands(a.device, first, a.hasWrapper)
                                          + OnSetCommands(a.device, second, a.hasWrapper)
  {
    a.HandleOnSet(first);
    a.HandleOnSet(second);
    v := a.HandleOnGet();
  }
}
