/** The smart speaker accessory (src/spotify-smart-speaker-accessory.ts): a
    CurrentMediaState, a TargetMediaState and a Volume characteristic over
    three fields that a poll of the playback state and the HomeKit
    set-handlers overwrite. A poll tick is one call with the snapshot the
    wrapper returned; the wrapper calls the handlers make are recorded in
    order. */
module SmartSpeakerAccessory {
  import opened Accessories
  import WebApi

  /** The accessory's fields. */
  datatype Fields = Fields(currentMediaState: int, targetMediaState: int, currentVolume: int)

  /** The fields as the constructor sets them. */
  const Initial := Fields(PAUSE, PLAY, 0)

  /** getMediaState: PLAY exactly when something is playing, PAUSE otherwise. */
  function MediaStateFor(isPlaying: bool): (m: int)
    ensures m == PLAY <==> isPlaying
    ensures m == PLAY || m == PAUSE
  {
    if isPlaying then PLAY else PAUSE
  }

  /** The decision rule of a poll and of setInitialState: a 200 snapshot sets
      the media state and the volume it reports, a 204 snapshot means stopped
      at volume 0, any other status changes nothing. The target state is never
      touched. */
  function Observed(f: Fields, snap: WebApi.Response): (r: Fields)
    ensures r.targetMediaState == f.targetMediaState
    ensures snap.statusCode == 200 ==>
              && (r.currentMediaState == PLAY <==> snap.isPlaying)
              && r.currentMediaState != STOP
              && r.currentVolume == snap.volumePercent
    ensures snap.statusCode == 200 || snap.statusCode == 204 ==> r.currentMediaState in {PLAY, PAUSE, STOP}
    ensures snap.statusCode == 204 ==> r.currentMediaState == STOP && r.currentVolume == 0
    ensures !Decisive(snap.statusCode) ==> r == f
  {
    if snap.statusCode == 200 then f.(currentMediaState := MediaStateFor(snap.isPlaying), currentVolume := snap.volumePercent)
    else if snap.statusCode == 204 then f.(currentMediaState := STOP, currentVolume := 0)
    else f
  }

  /** What a poll tick pushes: CurrentMediaState if it changed, then Volume if
      it changed. */
  function PollAnnouncements(before: Fields, after: Fields): (r: seq<Announcement>)
    ensures CurrentMediaStateIs(after.currentMediaState) in r <==> before.currentMediaState != after.currentMediaState
    ensures VolumeIs(after.currentVolume) in r <==> before.currentVolume != after.currentVolume
    ensures forall a <- r :: a == CurrentMediaStateIs(after.currentMediaState) || a == VolumeIs(after.currentVolume)
    ensures |r| == (if before.currentMediaState != after.currentMediaState then 1 else 0)
                   + (if before.currentVolume != after.currentVolume then 1 else 0)
    ensures |r| == 2 ==> r[0].CurrentMediaStateIs? && r[1].VolumeIs?
  {
    (if before.currentMediaState != after.currentMediaState then [CurrentMediaStateIs(after.currentMediaState)] else [])
    + (if before.currentVolume != after.currentVolume then [VolumeIs(after.currentVolume)] else [])
  }

  /** The effect of a set-handler: the new fields and the wrapper calls. */
  datatype Effect = Effect(fields: Fields, commands: seq<Command>)

  /** handleTargetMediaStateSet: PLAY plays the configured playlist on the
      device, PAUSE and STOP pause it, any other value issues nothing; the
      given value becomes the target in every case and the current state is
      left to the next poll. */
  function TargetMediaStateSet(f: Fields, device: Device, value: int): (e: Effect)
    ensures e.fields == f.(targetMediaState := value)
    ensures e.fields.currentMediaState == f.currentMediaState
    ensures |e.commands| <= 1
    ensures e.commands == [Play(device.spotifyDeviceId, device.spotifyPlaylistId)] <==> value == PLAY
    ensures e.commands == [Pause(device.spotifyDeviceId)] <==> value == PAUSE || value == STOP
    ensures e.commands == [] <==> value !in {PLAY, PAUSE, STOP}
  {
    var commands :=
      if value == PLAY then [Play(device.spotifyDeviceId, device.spotifyPlaylistId)]
      else if value == PAUSE || value == STOP then [Pause(device.spotifyDeviceId)]
      else [];
    Effect(f.(targetMediaState := value), commands)
  }

  /** handleVolumeSet: the volume is sent, then kept. */
  function VolumeSet(f: Fields, device: Device, value: int): (e: Effect)
    ensures e.fields == f.(currentVolume := value)
    ensures e.commands == [SetVolume(value, device.spotifyDeviceId)]
  {
    Effect(f.(currentVolume := value), [SetVolume(value, device.spotifyDeviceId)])
  }

  /** The rule forgets the past: what a 200 or 204 snapshot leaves does not
      depend on the fields before it, the target aside. */
  lemma ObservedForgetsPast(f: Fields, g: Fields, snap: WebApi.Response)
    requires Decisive(snap.statusCode) && f.targetMediaState == g.targetMediaState
    ensures Observed(f, snap) == Observed(g, snap)
  {
  }

  /** Observing the same snapshot twice is observing it once, so a tick that
      repeats the previous snapshot pushes nothing. */
  lemma RepeatedTickIsSilent(f: Fields, snap: WebApi.Response)
    ensures Observed(Observed(f, snap), snap) == Observed(f, snap)
    ensures PollAnnouncements(Observed(f, snap), Observed(Observed(f, snap), snap)) == []
  {
  }

  /** A requested target does not show as the current state until a poll
      reports it: setting the target and then polling leaves what the poll
      alone would leave, with the new target. */
  lemma TargetThenPoll(f: Fields, device: Device, value: int, snap: WebApi.Response)
    ensures Observed(TargetMediaStateSet(f, device, value).fields, snap)
            == Observed(f, snap).(targetMediaState := value)
  {
  }

  /** The fields after a run of poll ticks. */
  function Polled(f: Fields, snaps: seq<WebApi.Response>): (r: Fields)
    ensures r.targetMediaState == f.targetMediaState
    decreases |snaps|
  {
    if snaps == [] then f else Polled(Observed(f, snaps[0]), snaps[1..])
  }

  /** A run of ticks none of which reports 200 or 204 changes nothing. */
  lemma {:induction false} PolledUndecided(f: Fields, snaps: seq<WebApi.Response>)
    requires forall j :: 0 <= j < |snaps| ==> !Decisive(snaps[j].statusCode)
    ensures Polled(f, snaps) == f
    decreases |snaps|
  {
    if snaps != [] {
      PolledUndecided(Observed(f, snaps[0]), snaps[1..]);
    }
  }

  /** After a run of ticks the fields are decided by the last 200 or 204
      snapshot alone. */
  lemma {:induction false} PolledDecidedByLast(f: Fields, snaps: seq<WebApi.Response>, i: nat)
    requires i < |snaps| && Decisive(snaps[i].statusCode)
    requires forall j :: i < j < |snaps| ==> !Decisive(snaps[j].statusCode)
    ensures Polled(f, snaps) == Observed(f, snaps[i])
    decreases i
  {
    if i == 0 {
      PolledUndecided(Observed(f, snaps[0]), snaps[1..]);
    } else {
      PolledDecidedByLast(Observed(f, snaps[0]), snaps[1..], i - 1);
      ObservedForgetsPast(Observed(f, snaps[0]), f, snaps[i]);
    }
  }

  /** The accessory object. */
  class SpotifySmartSpeakerAccessory {
    const device: Device
    var currentMediaState: int
    var targetMediaState: int
    var currentVolume: int
    /** The wrapper calls issued so far, in order. */
    var commands: seq<Command>
    /** The characteristic updates pushed so far, in order. */
    var announced: seq<Announcement>

    ghost function State(): Fields
      reads this
    {
      Fields(currentMediaState, targetMediaState, currentVolume)
    }

    /** The fields as the constructor leaves them before setInitialState. */
    constructor (device: Device)
      ensures this.device == device
      ensures State() == Initial && commands == [] && announced == []
    {
      this.device := device;
      currentMediaState := PAUSE;
      targetMediaState := PLAY;
      currentVolume := 0;
      commands := [];
      announced := [];
    }

    /** setInitialState, given the snapshot the wrapper returned: the decision
        rule, then CurrentMediaState and Volume pushed unconditionally. */
    method SetInitialState(snap: WebApi.Response)
      modifies this
      ensures State() == Observed(old(State()), snap)
      ensures announced == old(announced) + [CurrentMediaStateIs(currentMediaState), VolumeIs(currentVolume)]
      ensures commands == old(commands)
    {
      if snap.statusCode == 200 {
        currentMediaState := MediaStateFor(snap.isPlaying);
        currentVolume := snap.volumePercent;
      } else if snap.statusCode == 204 {
        currentMediaState := STOP;
        currentVolume := 0;
      }
      announced := announced + [CurrentMediaStateIs(currentMediaState), VolumeIs(currentVolume)];
    }

    /** One tick of the poll timer, given the snapshot the wrapper returned. */
    method Poll(snap: WebApi.Response)
      modifies this
      ensures State() == Observed(old(State()), snap)
      ensures announced == old(announced) + PollAnnouncements(old(State()), State())
      ensures commands == old(commands)
    {
      var oldMediaState := currentMediaState;
      var oldVolume := currentVolume;
      if snap.statusCode == 200 {
        currentMediaState := MediaStateFor(snap.isPlaying);
        currentVolume := snap.volumePercent;
      } else if snap.statusCode == 204 {
        currentMediaState := STOP;
        currentVolume := 0;
      }
      if oldMediaState != currentMediaState {
        announced := announced + [CurrentMediaStateIs(currentMediaState)];
      }
      if oldVolume != currentVolume {
        announced := announced + [VolumeIs(currentVolume)];
      }
    }

    method HandleCurrentMediaStateGet() returns (v: int)
      ensures v == currentMediaState
    {
      v := currentMediaState;
    }

    method HandleTargetMediaStateGet() returns (v: int)
      ensures v == targetMediaState
    {
      v := targetMediaState;
    }

    method HandleTargetMediaStateSet(value: int)
      modifies this
      ensures State() == TargetMediaStateSet(old(State()), device, value).fields
      ensures commands == old(commands) + TargetMediaStateSet(old(State()), device, value).commands
      ensures announced == old(announced)
    {
      if value == PLAY {
        commands := commands + [Play(device.spotifyDeviceId, device.spotifyPlaylistId)];
      } else if value == PAUSE || value == STOP {
        commands := commands + [Pause(device.spotifyDeviceId)];
      }
      targetMediaState := value;
    }

    method HandleVolumeGet() returns (v: int)
      ensures v == currentVolume
    {
      v := currentVolume;
    }

    method HandleVolumeSet(value: int)
      modifies this
      ensures State() == VolumeSet(old(State()), device, value).fields
      ensures commands == old(commands) + VolumeSet(old(State()), device, value).commands
      ensures announced == old(announced)
    {
      commands := commands + [SetVolume(value, device.spotifyDeviceId)];
      currentVolume := value;
    }
  }
}
