/** The capture-session state of the record dialog: the live stream, the two
    device lists and the two selections, and the operations and effects that
    change them. Each platform call is replaced by its answer, passed in as a
    parameter: `enumerateDevices` by an optional device list (None when it
    rejects), `getUserMedia` by an optional stream (None when it rejects). */
module Session {
  import opened Media
  import opened Inventory
  import opened Request

  function TracksOf(s: MediaStream): set<MediaStreamTrack>
  {
    set t | t in s.tracks
  }

  /** `stream.getTracks().forEach((track) => track.stop())`. */
  method StopTracks(s: MediaStream)
    modifies TracksOf(s)
    ensures forall t :: t in s.tracks ==> t.readyState == Ended
  {
    for i := 0 to |s.tracks|
      invariant forall j :: 0 <= j < i ==> s.tracks[j].readyState == Ended
    {
      s.tracks[i].Stop();
    }
  }

  class RecordButton {
    var stream: MediaStream?
    var videoDevices: seq<MediaDeviceInfo>
    var audioDevices: seq<MediaDeviceInfo>
    /** `""` stands for both "not chosen yet" and "Camera off". */
    var selectedCamera: string
    /** `""` stands for both "not chosen yet" and "Microphone off". */
    var selectedMicrophone: string
    /** Every track the component has obtained, from the permission probe or
        from starting the camera. */
    ghost var held: set<MediaStreamTrack>

    /** At most one live stream: every track of the current stream is
        accounted for, and every obtained track that is still live belongs to
        the current stream, so every stream given up has all its tracks
        stopped. */
    ghost predicate Valid()
      reads this, held
    {
      && (stream != null ==> TracksOf(stream) <= held)
      && (forall t :: t in held && t.readyState == Live ==> stream != null && t in stream.tracks)
    }

    /** No obtained track holds a device open. */
    ghost predicate Released()
      reads this, held
    {
      forall t :: t in held ==> t.readyState == Ended
    }

    function StreamTracks(): set<MediaStreamTrack>
      reads this
    {
      if stream == null then {} else TracksOf(stream)
    }

    function Devices(): DeviceState
      reads this
    {
      DeviceState(videoDevices, audioDevices, selectedCamera, selectedMicrophone)
    }

    /** The initial `useState` values: no stream, empty lists, nothing
        selected. */
    constructor ()
      ensures Valid() && Released()
      ensures stream == null && held == {}
      ensures Devices() == DeviceState([], [], "", "")
    {
      stream := null;
      videoDevices, audioDevices := [], [];
      selectedCamera, selectedMicrophone := "", "";
      held := {};
    }

    /** `getCameraDevices`: applies one enumeration outcome. The results say
        whether each selection changed, which is what makes React run the
        matching selection effect next. */
    method GetCameraDevices(enumeration: Option<seq<MediaDeviceInfo>>) returns (cameraChanged: bool, microphoneChanged: bool)
      requires Valid()
      modifies this`videoDevices, this`audioDevices, this`selectedCamera, this`selectedMicrophone
      ensures Valid()
      ensures Devices() == Refreshed(old(Devices()), enumeration)
      ensures cameraChanged <==> selectedCamera != old(selectedCamera)
      ensures microphoneChanged <==> selectedMicrophone != old(selectedMicrophone)
    {
      cameraChanged, microphoneChanged := false, false;
      match enumeration
      case None =>
      case Some(devices) =>
        var video := KindFilter(devices, VideoInput);
        var audio := KindFilter(devices, AudioInput);
        videoDevices := video;
        audioDevices := audio;
        if |video| > 0 && selectedCamera == "" {
          cameraChanged := video[0].deviceId != selectedCamera;
          selectedCamera := video[0].deviceId;
        }
        if |audio| > 0 && selectedMicrophone == "" {
          microphoneChanged := audio[0].deviceId != selectedMicrophone;
          selectedMicrophone := audio[0].deviceId;
        }
    }

    /** `stopCamera`: stops every track of a live stream and forgets it; with
        no stream it does nothing, so a second call changes nothing. */
    method StopCamera()
      requires Valid()
      modifies this, StreamTracks()
      ensures Valid() && Released()
      ensures stream == null
      ensures old(stream) != null ==> forall t :: t in old(stream).tracks ==> t.readyState == Ended
      ensures old(stream) == null ==> unchanged(this)
      ensures held == old(held) && Devices() == old(Devices())
    {
      if stream != null {
        StopTracks(stream);
        stream := null;
      }
    }

    /** `startCamera`: releases the current stream, if any, before sending the
        request built from the selection; a granted stream becomes the
        current one, a rejection leaves no stream and no live track. */
    method StartCamera(acquired: Option<MediaStream>) returns (request: MediaStreamConstraints)
      requires Valid()
      modifies this, StreamTracks()
      ensures Valid()
      ensures request == RequestFor(selectedCamera, selectedMicrophone)
      ensures old(stream) != null ==> forall t :: t in old(stream).tracks ==> t.readyState == Ended
      ensures acquired.None? ==> stream == null && Released()
      ensures acquired.Some? ==> stream == acquired.value
      ensures acquired.Some? ==> forall t :: t in held && t.readyState == Live ==> t in acquired.value.tracks
      ensures held == old(held) + (if acquired.Some? then TracksOf(acquired.value) else {})
      ensures Devices() == old(Devices())
    {
      if stream != null {
        StopCamera();
      }
      request := RequestFor(selectedCamera, selectedMicrophone);
      match acquired
      case None =>
      case Some(s) =>
        stream := s;
        held := held + TracksOf(s);
    }

    /** `handleTabChange`: the camera tab starts the camera; any other tab
        stops it, so leaving the camera tab leaves no live track. */
    method HandleTabChange(value: string, acquired: Option<MediaStream>) returns (request: Option<MediaStreamConstraints>)
      requires Valid()
      modifies this, StreamTracks()
      ensures Valid()
      ensures Devices() == old(Devices())
      ensures old(stream) != null ==> forall t :: t in old(stream).tracks ==> t.readyState == Ended
      ensures value == "camera" ==>
                && request == Some(RequestFor(selectedCamera, selectedMicrophone))
                && stream == (if acquired.Some? then acquired.value else null)
                && held == old(held) + (if acquired.Some? then TracksOf(acquired.value) else {})
      ensures value != "camera" ==> request == None && stream == null && Released() && held == old(held)
    {
      if value == "camera" {
        var r := StartCamera(acquired);
        request := Some(r);
      } else {
        StopCamera();
        request := None;
      }
    }

    /** The body shared by the `[selectedCamera]` and `[selectedMicrophone]`
        effects: restart the camera only when the changed slot is set and a
        stream is live. */
    method SelectionEffect(changed: string, acquired: Option<MediaStream>) returns (request: Option<MediaStreamConstraints>)
      requires Valid()
      modifies this, StreamTracks()
      ensures Valid()
      ensures Devices() == old(Devices())
      ensures request.Some? <==> changed != "" && old(stream) != null
      ensures request.Some? ==>
                && request.value == RequestFor(selectedCamera, selectedMicrophone)
                && (forall t :: t in old(stream).tracks ==> t.readyState == Ended)
                && stream == (if acquired.Some? then acquired.value else null)
                && held == old(held) + (if acquired.Some? then TracksOf(acquired.value) else {})
      ensures request.None? ==> unchanged(this) && forall t :: t in held ==> t.readyState == old(t.readyState)
    {
      request := None;
      if changed != "" && stream != null {
        var r := StartCamera(acquired);
        request := Some(r);
      }
    }

    /** Picking a camera (the camera `<select>`'s `onChange`): stores the id
        and, as React runs the `[selectedCamera]` effect only when the value
        changed, restarts a live stream for a new, non-empty id. Picking
        "Camera off" while a stream is live keeps that stream running. */
    method SelectCamera(id: string, acquired: Option<MediaStream>) returns (request: Option<MediaStreamConstraints>)
      requires Valid()
      modifies this, StreamTracks()
      ensures Valid()
      ensures selectedCamera == id && selectedMicrophone == old(selectedMicrophone)
      ensures videoDevices == old(videoDevices) && audioDevices == old(audioDevices)
      ensures request.Some? <==> id != old(selectedCamera) && id != "" && old(stream) != null
      ensures request.Some? ==>
                && request.value == RequestFor(id, selectedMicrophone)
                && (forall t :: t in old(stream).tracks ==> t.readyState == Ended)
                && stream == (if acquired.Some? then acquired.value else null)
                && held == old(held) + (if acquired.Some? then TracksOf(acquired.value) else {})
      ensures request.None? ==>
                && stream == old(stream) && held == old(held)
                && forall t :: t in held ==> t.readyState == old(t.readyState)
    {
      var changed := id != selectedCamera;
      selectedCamera := id;
      request := None;
      if changed {
        request := SelectionEffect(selectedCamera, acquired);
      }
    }

    /** Picking a microphone (the microphone `<select>`'s `onChange`) and the
        `[selectedMicrophone]` effect: the same rule for the microphone slot.
        The camera is restarted because one request binds both devices. */
    method SelectMicrophone(id: string, acquired: Option<MediaStream>) returns (request: Option<MediaStreamConstraints>)
      requires Valid()
      modifies this, StreamTracks()
      ensures Valid()
      ensures selectedMicrophone == id && selectedCamera == old(selectedCamera)
      ensures videoDevices == old(videoDevices) && audioDevices == old(audioDevices)
      ensures request.Some? <==> id != old(selectedMicrophone) && id != "" && old(stream) != null
      ensures request.Some? ==>
                && request.value == RequestFor(selectedCamera, id)
                && (forall t :: t in old(stream).tracks ==> t.readyState == Ended)
                && stream == (if acquired.Some? then acquired.value else null)
                && held == old(held) + (if acquired.Some? then TracksOf(acquired.value) else {})
      ensures request.None? ==>
                && stream == old(stream) && held == old(held)
                && forall t :: t in held ==> t.readyState == old(t.readyState)
    {
      var changed := id != selectedMicrophone;
      selectedMicrophone := id;
      request := None;
      if changed {
        request := SelectionEffect(selectedMicrophone, acquired);
      }
    }

    /** The mount effect (the `[]` effect): enumerate, then ask for a throwaway
        audio and video grant; when it is granted, stop every probe track and
        enumerate again (the labels are visible now). A denied probe is only
        logged. The results say whether each selection changed. */
    method MountEffect(firstEnumeration: Option<seq<MediaDeviceInfo>>, probe: Option<MediaStream>,
                       secondEnumeration: Option<seq<MediaDeviceInfo>>)
      returns (request: MediaStreamConstraints, cameraChanged: bool, microphoneChanged: bool)
      requires Valid()
      modifies this, if probe.Some? then TracksOf(probe.value) else {}
      ensures Valid()
      ensures request == ProbeRequest
      ensures stream == old(stream)
      ensures probe.Some? ==> forall t :: t in probe.value.tracks ==> t.readyState == Ended
      ensures held == old(held) + (if probe.Some? then TracksOf(probe.value) else {})
      ensures probe.None? ==> Devices() == Refreshed(old(Devices()), firstEnumeration)
      ensures probe.Some? ==> Devices() == Refreshed(Refreshed(old(Devices()), firstEnumeration), secondEnumeration)
      ensures cameraChanged <==> selectedCamera != old(selectedCamera)
      ensures microphoneChanged <==> selectedMicrophone != old(selectedMicrophone)
    {
      var camera0, microphone0 := selectedCamera, selectedMicrophone;
      var _, _ := GetCameraDevices(firstEnumeration);
      request := ProbeRequest;
      match probe {
        case None =>
        case Some(s) =>
          StopTracks(s);
          held := held + TracksOf(s);
          var _, _ := GetCameraDevices(secondEnumeration);
      }
      cameraChanged := selectedCamera != camera0;
      microphoneChanged := selectedMicrophone != microphone0;
    }
  }
  /** A caller's view: enumerate, open the camera tab, switch cameras, pick
      "Camera off", then leave for the screen tab. */
  method CameraSwitchScenario()
  {
    var button := new RecordButton();
    var front := MediaDeviceInfo("cam1", VideoInput, "Front");
    var back := MediaDeviceInfo("cam2", VideoInput, "");
    var mic := MediaDeviceInfo("mic1", AudioInput, "");
    var devices := [front, mic, back];
    assert devices[1..] == [mic, back] && devices[1..][1..] == [back] && [back][1..] == [];
    assert KindFilter([back], VideoInput) == [back] && KindFilter([back], AudioInput) == [];
    assert KindFilter([mic, back], VideoInput) == [back] && KindFilter([mic, back], AudioInput) == [mic];
    var cameraChanged, _ := button.GetCameraDevices(Some(devices));
    assert button.videoDevices == [front, back] && button.audioDevices == [mic];
    assert cameraChanged && button.selectedCamera == "cam1" && button.selectedMicrophone == "mic1";

    var first := new MediaStreamTrack();
    var s1 := new MediaStream([first]);
    var r1 := button.HandleTabChange("camera", Some(s1));
    assert r1 == Some(MediaStreamConstraints(Exact("cam1"), Exact("mic1")));
    assert button.stream == s1 && first.readyState == Live;

    var second := new MediaStreamTrack();
    var s2 := new MediaStream([second]);
    var r2 := button.SelectCamera("cam2", Some(s2));
    assert r2 == Some(MediaStreamConstraints(Exact("cam2"), Exact("mic1")));
    assert first.readyState == Ended && button.stream == s2 && second.readyState == Live;

    var r3 := button.SelectCamera("", None);
    assert r3 == None && button.stream == s2 && second.readyState == Live;

    var r4 := button.HandleTabChange("screen", None);
    assert r4 == None && button.stream == null && second.readyState == Ended;
  }
}
