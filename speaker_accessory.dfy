/** The speaker accessory (src/spotify-speaker-accessory.ts): an Active, a
    Volume and a Mute characteristic over three fields that a poll of the
    playback state and the HomeKit set-handlers overwrite. A poll tick is one
    call with the snapshot the wrapper returned; the wrapper calls the handlers
    make are recorded in order. */
module SpeakerAccessory {
  import opened Accessories
  import WebApi

  /** The accessory's fields. */
  datatype Fields = Fields(activeState: int, currentVolume: int, isMuted: bool)

  /** The fields as the constructor sets them. */
  const Initial := Fields(ACTIVE, 0, false)

  /** getActiveState: ACTIVE exactly when something is playing. */
  function ActiveStateFor(isPlaying: bool): (a: int)
    ensures a == ACTIVE <==> isPlaying
    ensures a == ACTIVE || a == INACTIVE
  {
    if isPlaying then ACTIVE else INACTIVE
  }

  /** The decision rule of a poll and of setInitialState: a 200 snapshot sets
      the state and the volume it reports, a 204 snapshot means inactive at
      volume 0, any other status changes nothing. Mute is never touched. */
  function Observed(f: Fields, snap: WebApi.Response): (r: Fields)
    ensures r.isMuted == f.isMuted
    ensures snap.statusCode == 200 ==>
              (r.activeState == ACTIVE <==> snap.isPlaying) && r.currentVolume == snap.volumePercent
    ensures snap.statusCode == 200 || snap.statusCode == 204 ==> r.activeState in {ACTIVE, INACTIVE}
    ensures snap.statusCode == 204 ==> r.activeState == INACTIVE && r.currentVolume == 0
    ensures !Decisive(snap.statusCode) ==> r == f
  {
    if snap.statusCode == 200 then f.(activeState := ActiveStateFor(snap.isPlaying), currentVolume := snap.volumePercent)
    else if snap.statusCode == 204 then f.(activeState := INACTIVE, currentVolume := 0)
    else f
  }

  /** What a poll tick pushes: Active if it changed, then Volume if it changed. */
  function PollAnnouncements(before: Fields, after: Fields): (r: seq<Announcement>)
    ensures ActiveIs(after.activeState) in r <==> before.activeState != after.activeState
    ensures VolumeIs(after.currentVolume) in r <==> before.currentVolume != after.currentVolume
    ensures forall a <- r :: a == ActiveIs(after.activeState) || a == VolumeIs(after.currentVolume)
    ensures |r| == (if before.activeState != after.activeState then 1 else 0)
                   + (if before.currentVolume != after.currentVolume then 1 else 0)
    ensures |r| == 2 ==> r[0].ActiveIs? && r[1].VolumeIs?
  {
    (if before.activeState != after.activeState then [ActiveIs(after.activeState)] else [])
    + (if before.currentVolume != after.currentVolume then [VolumeIs(after.currentVolume)] else [])
  }

  /** The effect of a set-handler: the new fields and the wrapper calls. */
  datatype Effect = Effect(fields: Fields, commands: seq<Command>)

  /** handleActiveSet: ACTIVE plays the configured playlist on the device,
      INACTIVE pauses it, any other value issues nothing; the given value
      becomes the state in every case. */
  function ActiveSet(f: Fields, device: Device, value: int): (e: Effect)
    ensures e.fields == f.(activeState := value)
    ensures |e.commands| <= 1
    ensures e.commands == [Play(device.spotifyDeviceId, device.spotifyPlaylistId)] <==> value == ACTIVE
    ensures e.commands == [Pause(device.spotifyDeviceId)] <==> value == INACTIVE
    ensures e.commands == [] <==> value != ACTIVE && value != INACTIVE
  {
    var commands :=
      if value == ACTIVE then [Play(device.spotifyDeviceId, device.spotifyPlaylistId)]
      else if value == INACTIVE then [Pause(device.spotifyDeviceId)]
      else [];
    Effect(f.(activeState := value), commands)
  }

  /** handleVolumeSet: the volume is sent, then kept. */
  function VolumeSet(f: Fields, device: Device, value: int): (e: Effect)
    ensures e.fields == f.(currentVolume := value)
    ensures e.commands == [SetVolume(value, device.spotifyDeviceId)]
  {
    Effect(f.(currentVolume := value), [SetVolume(value, device.spotifyDeviceId)])
  }

  /** handleMuteSet: a toggle that sends volume 0 when unmuted and 50 when
      muted, leaving the kept volume alone. */
  function MuteToggled(f: Fields, device: Device): (e: Effect)
    ensures e.fields.isMuted == !f.isMuted
    ensures e.fields.activeState == f.activeState && e.fields.currentVolume == f.currentVolume
    ensures |e.commands| == 1 && e.commands[0].SetVolume? && e.commands[0].deviceId == device.spotifyDeviceId
    ensures e.commands[0].volume == 0 <==> !f.isMuted
    ensures e.commands[0].volume == 50 <==> f.isMuted
  {
    Effect(f.(isMuted := !f.isMuted), [SetVolume(if f.isMuted then 50 else 0, device.spotifyDeviceId)])
  }

  /** Toggling mute twice restores the fields, sending 0 then 50 or 50 then 0. */
  lemma MuteTwiceRestores(f: Fields, device: Device)
    ensures MuteToggled(MuteToggled(f, device).fields, device).fields == f
    ensures MuteToggled(f, device).commands + MuteToggled(MuteToggled(f, device).fields, device).commands
            == (if f.isMuted then [SetVolume(50, device.spotifyDeviceId), SetVolume(0, device.spotifyDeviceId)]
                else [SetVolume(0, device.spotifyDeviceId), SetVolume(50, device.spotifyDeviceId)])
  {
  }

  /** The rule forgets the past: what a 200 or 204 snapshot leaves does not
      depend on the fields before it, mute aside. */
  lemma ObservedForgetsPast(f: Fields, g: Fields, snap: WebApi.Response)
    requires Decisive(snap.statusCode) && f.isMuted == g.isMuted
    ensures Observed(f, snap) == Observed(g, snap)
  {
  }

  /** Observing the same snapshot twice is observing it once, so a tick that
      repeats the previous snapshot pushes nothing. */
  lemma RepeatedTickIsSilent(f: Fields, snap: WebApi.Response)
    ensures Observed(Observed(f, snap), snap) == Observed(f, snap)
    ensures PollAnnouncements(Observed(f, snap), Observed(Observed(f, snap), snap)) == []
  {
  }

  /** The fields after a run of poll ticks. */
  function Polled(f: Fields, snaps: seq<WebApi.Response>): (r: Fields)
    ensures r.isMuted == f.isMuted
    decreases |snaps|
  {
    if snaps == [] then f else Polled(Observed(f, snaps[0]), snaps[1..])
  }

  /** A run of ticks none of which reports 200 or 204 changes nothing. */
  lemma {:induction false} PolledUndecided(f: Fields, snaps: seq<WebApi.Response>)
    requires forall j :: 0 <= j < |snaps| ==> !Decisive(snaps[j].statusCode)
    ensures Polled(f, snaps) == f
    decreases |snaps|
  {
    if snaps != [] {
      PolledUndecided(Observed(f, snaps[0]), snaps[1..]);
    }
  }

  /** After a run of ticks the fields are decided by the last 200 or 204
      snapshot alone. */
  lemma {:induction false} PolledDecidedByLast(f: Fields, snaps: seq<WebApi.Response>, i: nat)
    requires i < |snaps| && Decisive(snaps[i].statusCode)
    requires forall j :: i < j < |snaps| ==> !Decisive(snaps[j].statusCode)
    ensures Polled(f, snaps) == Observed(f, snaps[i])
    decreases i
  {
    if i == 0 {
      PolledUndecided(Observed(f, snaps[0]), snaps[1..]);
    } else {
      PolledDecidedByLast(Observed(f, snaps[0]), snaps[1..], i - 1);
      ObservedForgetsPast(Observed(f, snaps[0]), f, snaps[i]);
    }
  }

  /** The accessory object. */
  class SpotifySpeakerAccessory {
    const device: Device
    var activeState: int
    var currentVolume: int
    var isMuted: bool
    /** The wrapper calls issued so far, in order. */
    var commands: seq<Command>
    /** The characteristic updates pushed so far, in order. */
    var announced: seq<Announcement>

    ghost function State(): Fields
      reads this
    {
      Fields(activeState, currentVolume, isMuted)
    }

    /** The fields as the constructor leaves them before setInitialState. */
    constructor (device: Device)
      ensures this.device == device
      ensures State() == Initial && commands == [] && announced == []
    {
      this.device := device;
      activeState := ACTIVE;
      currentVolume := 0;
      isMuted := false;
      commands := [];
      announced := [];
    }

    /** setInitialState, given the snapshot the wrapper returned: the decision
        rule, then Active, Volume and Mute pushed unconditionally. */
    method SetInitialState(snap: WebApi.Response)
      modifies this
      ensures State() == Observed(old(State()), snap)
      ensures announced == old(announced) + [ActiveIs(activeState), VolumeIs(currentVolume), MuteIs(isMuted)]
      ensures commands == old(commands)
    {
      if snap.statusCode == 200 {
        activeState := ActiveStateFor(snap.isPlaying);
        currentVolume := snap.volumePercent;
      } else if snap.statusCode == 204 {
        activeState := INACTIVE;
        currentVolume := 0;
      }
      announced := announced + [ActiveIs(activeState), VolumeIs(currentVolume), MuteIs(isMuted)];
    }

    /** One tick of the poll timer, given the snapshot the wrapper returned. */
    method Poll(snap: WebApi.Response)
      modifies this
      ensures State() == Observed(old(State()), snap)
      ensures announced == old(announced) + PollAnnouncements(old(State()), State())
      ensures commands == old(commands)
    {
      var oldActiveState := activeState;
      var oldVolume := currentVolume;
      if snap.statusCode == 200 {
        activeState := ActiveStateFor(snap.isPlaying);
        currentVolume := snap.volumePercent;
      } else if snap.statusCode == 204 {
        activeState := INACTIVE;
        currentVolume := 0;
      }
      if oldActiveState != activeState {
        announced := announced + [ActiveIs(activeState)];
      }
      if oldVolume != currentVolume {
        announced := announced + [VolumeIs(currentVolume)];
      }
    }

    method HandleActiveGet() returns (v: int)
      ensures v == activeState
    {
      v := activeState;
    }

    method HandleActiveSet(value: int)
      modifies this
      ensures State() == ActiveSet(old(State()), device, value).fields
      ensures commands == old(commands) + ActiveSet(old(State()), device, value).commands
      ensures announced == old(announced)
    {
      if value == ACTIVE {
        commands := commands + [Play(device.spotifyDeviceId, device.spotifyPlaylistId)];
      } else if value == INACTIVE {
        commands := commands + [Pause(device.spotifyDeviceId)];
      }
      activeState := value;
    }

    method HandleVolumeGet() returns (v: int)
      ensures v == currentVolume
    {
      v := currentVolume;
    }

    method HandleVolumeSet(value: int)
      modifies this
      ensures State() == VolumeSet(old(State()), device, value).fields
      ensures commands == old(commands) + VolumeSet(old(State()), device, value).commands
      ensures announced == old(announced)
    {
      commands := commands + [SetVolume(value, device.spotifyDeviceId)];
      currentVolume := value;
    }

    method HandleMuteGet() returns (v: bool)
      ensures v == isMuted
    {
      v := isMuted;
    }

    method HandleMuteSet()
      modifies this
      ensures State() == MuteToggled(old(State()), device).fields
      ensures commands == old(commands) + MuteToggled(old(State()), device).commands
      ensures announced == old(announced)
    {
      var volume := if isMuted then 50 else 0;
      commands := commands + [SetVolume(volume, device.spotifyDeviceId)];
      isMuted := !isMuted;
    }
  }
}
