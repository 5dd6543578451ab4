/** The capture request built from the current selection. */
module Request {
  import opened Media

  /** One side of the request: a selected id becomes `{ exact: id }`; the
      empty selection ("unset" or "off") becomes `undefined`, so that side is
      asked for without naming a device. */
  function ConstraintFor(selected: string): (c: DeviceConstraint)
    ensures c.Exact? <==> selected != ""
    ensures c.Exact? ==> c.deviceId == selected
  {
    if selected != "" then Exact(selected) else Unconstrained
  }

  /** The argument passed to `getUserMedia` when the camera is started. */
  function RequestFor(selectedCamera: string, selectedMicrophone: string): (r: MediaStreamConstraints)
    ensures r.video == ConstraintFor(selectedCamera)
    ensures r.audio == ConstraintFor(selectedMicrophone)
  {
    MediaStreamConstraints(ConstraintFor(selectedCamera), ConstraintFor(selectedMicrophone))
  }

  /** `{ video: true, audio: true }`: the throwaway permission probe names
      no device. */
  const ProbeRequest: MediaStreamConstraints := MediaStreamConstraints(Unconstrained, Unconstrained)

  /** The selection a constraint stands for. */
  function SelectionOf(c: DeviceConstraint): (selected: string)
  {
    match c
    case Unconstrained => ""
    case Exact(id) => id
  }

  /** A well-formed request never asks for the empty id: an empty slot is
      left out of the request instead. */
  ghost predicate WellFormed(r: MediaStreamConstraints)
  {
    r.video != Exact("") && r.audio != Exact("")
  }

  /** The request determines the selection it was built from, and it is
      well formed: no `{ exact: "" }` is ever sent. */
  lemma RequestRoundTrip(selectedCamera: string, selectedMicrophone: string)
    ensures SelectionOf(RequestFor(selectedCamera, selectedMicrophone).video) == selectedCamera
    ensures SelectionOf(RequestFor(selectedCamera, selectedMicrophone).audio) == selectedMicrophone
    ensures WellFormed(RequestFor(selectedCamera, selectedMicrophone))
  {
  }

  /** Conversely, every well-formed request is the one built from the
      selection it stands for. */
  lemma RequestFromSelection(r: MediaStreamConstraints)
    requires WellFormed(r)
    ensures RequestFor(SelectionOf(r.video), SelectionOf(r.audio)) == r
  {
  }

  /** With nothing selected, starting the camera sends the same request as
      the permission probe. */
  lemma EmptySelectionIsProbe()
    ensures RequestFor("", "") == ProbeRequest
  {
  }
}
