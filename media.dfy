/** The browser's media-capture primitives as the capture-session manager sees
    them: the device records that `enumerateDevices` yields, the tracks and
    streams that `getUserMedia` hands out, and the constraint object a request
    carries. The platform itself is not modelled: its answers reach the
    session as parameters. */
module Media {

  datatype Option<+T> = None | Some(value: T)

  /** `MediaDeviceInfo.kind`: the enumeration also reports audio outputs,
      which neither device picker shows. */
  datatype DeviceKind = VideoInput | AudioInput | AudioOutput

  /** One entry of an enumeration. `deviceLabel` is the platform's `label`;
      it is empty while the platform withholds it (no capture permission
      granted yet). */
  datatype MediaDeviceInfo = MediaDeviceInfo(deviceId: string, kind: DeviceKind, deviceLabel: string)

  /** `MediaStreamTrack.readyState`: a live track holds its device open. */
  datatype TrackState = Live | Ended

  class MediaStreamTrack {
    var readyState: TrackState

    constructor ()
      ensures readyState == Live
    {
      readyState := Live;
    }

    /** `track.stop()`: releases the device; stopping an ended track is harmless. */
    method Stop()
      modifies this
      ensures readyState == Ended
    {
      readyState := Ended;
    }
  }

  /** A stream is the fixed list of tracks `getTracks()` returns. */
  class MediaStream {
    const tracks: seq<MediaStreamTrack>

    constructor (tracks: seq<MediaStreamTrack>)
      ensures this.tracks == tracks
    {
      this.tracks := tracks;
    }
  }

  /** The `deviceId` member of a video or audio constraint: either absent
      (`undefined`, any device of that kind) or `{ exact: id }`. */
  datatype DeviceConstraint = Unconstrained | Exact(deviceId: string)

  /** The argument of `getUserMedia`: both a video and an audio constraint. */
  datatype MediaStreamConstraints = MediaStreamConstraints(video: DeviceConstraint, audio: DeviceConstraint)
}
