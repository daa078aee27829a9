/**
  The device test before a survey: camera, microphone and audio output,
  without a connection probe. A device counts as present when the stream
  has any track of its kind.
*/
module DeviceTest {
  import opened DeviceStatus
  import opened Wrappers

  /** The camera (or microphone) verdict: the stream has at least one track of that kind. */
  function TrackStatus(tracks: seq<Track>): (s: Status)
    ensures s == Success <==> |tracks| > 0
    ensures s != Checking
  {
    if |tracks| > 0 then Success else Error
  }

  /** `handleContinue`: `/survey/${surveyId}`; a missing parameter prints as "undefined". */
  function ContinueRoute(surveyId: string, present: bool): (path: string)
    ensures |path| >= 8 && path[..8] == "/survey/"
    ensures present ==> path[8..] == surveyId
    ensures !present ==> path[8..] == "undefined"
  {
    "/survey/" + (if present then surveyId else "undefined")
  }

  class Tester {
    var camera: Status
    var microphone: Status
    var audio: Status

    /** `allDevicesReady`: all three devices succeeded. */
    predicate AllDevicesReady()
      reads this
    {
      camera == Success && microphone == Success && audio == Success
    }

    /**
      `handleContinue` behind its button: the button is disabled unless all
      three devices are ready, and continuing goes to the survey.
    */
    function Continue(surveyId: string, present: bool): (route: Option<string>)
      reads this
      ensures route.Some? <==> camera == Success && microphone == Success && audio == Success
      ensures route.Some? ==> route.value == ContinueRoute(surveyId, present)
    {
      if AllDevicesReady() then Some(ContinueRoute(surveyId, present)) else None
    }

    constructor()
      ensures camera == Checking && microphone == Checking && audio == Checking
    {
      camera, microphone, audio := Checking, Checking, Checking;
    }

    /** `initDevices` up to its media request. */
    method InitDevices()
      modifies this
      ensures camera == Checking && microphone == Checking && audio == Checking
      ensures !AllDevicesReady()
    {
      camera, microphone, audio := Checking, Checking, Checking;
    }

    /** The media request succeeds: any track of a kind is enough; the audio output is marked good. */
    method OnMediaGranted(videoTracks: seq<Track>, audioTracks: seq<Track>)
      modifies this
      ensures camera == TrackStatus(videoTracks) && microphone == TrackStatus(audioTracks)
      ensures audio == Success
      ensures AllDevicesReady() <==> |videoTracks| > 0 && |audioTracks| > 0
    {
      camera := if |videoTracks| > 0 then Success else Error;
      if |audioTracks| > 0 {
        microphone := Success;
      } else {
        microphone := Error;
      }
      audio := Success;
    }

    /** The media request fails: all three fail. */
    method OnMediaDenied()
      modifies this
      ensures camera == Error && microphone == Error && audio == Error
      ensures !AllDevicesReady()
    {
      camera, microphone, audio := Error, Error, Error;
    }
  }
}
