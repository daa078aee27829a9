/**
  The hardware check before an interview: camera, microphone, audio output
  and a probe connection to the relay, each shown as checking, success or
  error. The probe's timer and the media request's result arrive as later
  method calls.
*/
module HardwareCheck {
  import opened Sockets
  import opened DeviceStatus
  import opened Wrappers

  /** Where continuing leads. */
  const ContinueRoute: string := "/record"

  /** The camera (or microphone) verdict: there is a track and the first one is enabled. */
  function TrackStatus(tracks: seq<Track>): (s: Status)
    ensures s == Success <==> |tracks| > 0 && tracks[0].enabled
    ensures s != Checking
  {
    if |tracks| > 0 && tracks[0].enabled then Success else Error
  }

  class Checker {
    var camera: Status
    var microphone: Status
    var audio: Status
    var connection: Status
    /** The probe socket opened by the latest check. */
    var probe: ReadyState
    /** The three-second probe timer is still armed. */
    var timeoutPending: bool

    ghost predicate Valid()
      reads this
    {
      timeoutPending ==> probe == Connecting
    }

    /** `allDevicesReady`: camera, microphone and connection; the audio output is not consulted. */
    predicate AllDevicesReady()
      reads this
    {
      camera == Success && microphone == Success && connection == Success
    }

    /**
      `handleContinue` behind its button: the button is disabled unless every
      checked device is ready, and continuing goes to the recorder.
    */
    function Continue(): (route: Option<string>)
      reads this
      ensures route.Some? <==> camera == Success && microphone == Success && connection == Success
      ensures route.Some? ==> route.value == ContinueRoute
    {
      if AllDevicesReady() then Some(ContinueRoute) else None
    }

    /** The first render, before `initDevices` runs. */
    constructor()
      ensures Valid()
      ensures camera == Checking && microphone == Checking && audio == Checking && connection == Checking
      ensures probe == Closed && !timeoutPending
    {
      camera, microphone, audio, connection := Checking, Checking, Checking, Checking;
      probe, timeoutPending := Closed, false;
    }

    /** `initDevices` up to its media request: everything back to checking, and a fresh probe with its timer. */
    method InitDevices()
      modifies this
      ensures Valid()
      ensures camera == Checking && microphone == Checking && audio == Checking && connection == Checking
      ensures probe == Connecting && timeoutPending
      ensures !AllDevicesReady()
    {
      camera, microphone, audio, connection := Checking, Checking, Checking, Checking;
      probe := Connecting;
      timeoutPending := true;
    }

    /** The probe's `onopen`: timer cancelled, connection good, probe closed again. */
    method OnProbeOpen()
      requires Valid() && probe == Connecting
      modifies this
      ensures Valid()
      ensures connection == Success && !timeoutPending && probe == AfterClose(Open)
      ensures camera == old(camera) && microphone == old(microphone) && audio == old(audio)
    {
      timeoutPending := false;
      connection := Success;
      probe := AfterClose(Open);
    }

    /** The probe's `onerror`: timer cancelled, connection failed. */
    method OnProbeError()
      requires Valid()
      modifies this
      ensures Valid()
      ensures connection == Error && !timeoutPending && probe == Closed
      ensures camera == old(camera) && microphone == old(microphone) && audio == old(audio)
    {
      timeoutPending := false;
      connection := Error;
      probe := Closed;
    }

    /** The timer fires: a probe that is not open by now is closed and the connection fails. */
    method OnProbeTimeout()
      requires Valid() && timeoutPending
      modifies this
      ensures Valid() && !timeoutPending
      ensures old(probe) != Open ==> connection == Error && probe == AfterClose(old(probe))
      ensures probe == Closing && connection == Error
      ensures camera == old(camera) && microphone == old(microphone) && audio == old(audio)
    {
      timeoutPending := false;
      if probe != Open {
        probe := AfterClose(probe);
        connection := Error;
      }
    }

    /**
      The media request succeeds: camera and microphone each by their first
      track; the audio output is marked good whatever the microphone gave.
    */
    method OnMediaGranted(videoTracks: seq<Track>, audioTracks: seq<Track>)
      requires Valid()
      modifies this
      ensures Valid()
      ensures camera == TrackStatus(videoTracks) && microphone == TrackStatus(audioTracks)
      ensures audio == Success
      ensures connection == old(connection) && probe == old(probe) && timeoutPending == old(timeoutPending)
      ensures AllDevicesReady() <==> TrackStatus(videoTracks) == Success && TrackStatus(audioTracks) == Success
                                     && old(connection) == Success
    {
      camera := if |videoTracks| > 0 && videoTracks[0].enabled then Success else Error;
      if |audioTracks| > 0 && audioTracks[0].enabled {
        microphone := Success;
      } else {
        microphone := Error;
      }
      audio := Success;
    }

    /** The media request fails: camera, microphone and audio fail; the connection verdict stays. */
    method OnMediaDenied()
      requires Valid()
      modifies this
      ensures Valid()
      ensures camera == Error && microphone == Error && audio == Error
      ensures connection == old(connection) && probe == old(probe) && timeoutPending == old(timeoutPending)
      ensures !AllDevicesReady()
    {
      camera, microphone, audio := Error, Error, Error;
    }
  }
}
