# Capture-session model of the record dialog

This project models the capture-session logic of the `RecordButton` component
of playloop (`src/components/RecordButton.tsx`). The component keeps five
pieces of state: the live media stream (or none), the camera and microphone
lists, and the selected camera and microphone ids. In both selections `""`
means "not chosen yet" and also "off". On top of that state it does four things:

- **Device inventory.** `getCameraDevices` splits an enumeration by kind and
  auto-selects the first device of each kind for an empty slot.
- **Permission probe.** The mount effect asks once for an audio and video
  grant, stops every probe track and enumerates again.
- **Stream lifecycle.** `stopCamera` stops every track and forgets the
  stream. `startCamera` releases the current stream and then asks for a new
  one. The request carries an exact device constraint for each selected slot
  and no device constraint for an empty slot, so that kind of device is still
  requested.
- **Source dispatch.** A tab change starts the camera on `"camera"` and stops
  it otherwise. The two selection effects restart a live stream when a
  selection changes to a non-empty id.

The model has four modules:

- `Media` (`media.dfy`) holds the platform's vocabulary. Device records and
  constraints are datatypes. Tracks are objects whose `readyState` is changed
  by `Stop`. A stream is a fixed list of tracks.
- `Inventory` (`inventory.dfy`) holds the pure parts: the kind filter, the
  auto-select policy, the effect of one enumeration on the device state
  (`Refreshed`) and the picker's label fallback.
- `Request` (`request.dfy`) holds the construction of the `getUserMedia`
  argument from the selection.
- `Session` (`record_button.dfy`) holds the class `RecordButton`, whose fields
  are the component state. Its methods are the operations and effects.

The browser is not modelled. Each platform call is replaced by its answer,
passed in as a parameter:

- `enumerateDevices` becomes an optional device list, `None` when it rejects.
- `getUserMedia` becomes an optional stream, `None` when it rejects. The
  method returns the request it sends.

A ghost field `held` records every track the component has ever obtained.
The object invariant `Valid()` states the central property: every live held
track belongs to the current stream. So there is at most one live stream, and
every stream given up has had all its tracks stopped. Every method keeps
`Valid()`.

Behaviour of the code that the model keeps as written:

- A rejected enumeration leaves both lists and both selections unchanged.
  The error is only logged.
- A selected id whose device has disappeared is kept; nothing reconciles it
  (`StaleSelectionKept`).
- Picking "Camera off" or "Microphone off" while a stream is live does not
  restart or stop the stream. The device stays open (`SelectCamera`,
  `CameraSwitchScenario`).
- "Camera off" does not keep the camera off. An empty camera slot leaves
  the video side of the request unconstrained, so switching to the camera
  tab opens the default camera (`ConstraintFor`, `RequestFor`). The same
  holds for "Microphone off".
- No effect returns a cleanup function, so unmounting the component leaves
  a live stream's tracks running. The model has no teardown operation.
- A restart is triggered by "a stream is live", not by "the camera tab is
  active". There is no error state and no guard against a slow, superseded
  acquisition.

## Model

| member | source | states |
|---|---|---|
| `Inventory.KindFilter` | src/components/RecordButton.tsx:29-34 | every kept device has the requested kind and comes from the enumeration; every device of that kind is kept |
| `Inventory.KindFilterKeepsOrder` | src/components/RecordButton.tsx:29-34 | each filtered list is a subsequence of the enumeration, so enumeration order is kept |
| `Inventory.KindFilterCounts` | src/components/RecordButton.tsx:29-34 | a device of the kind occurs in the filtered list exactly as often as in the enumeration; any other device does not occur |
| `Inventory.KindFilterPartitions` | src/components/RecordButton.tsx:28-36 | camera list, microphone list and audio outputs together are exactly the enumeration (as multisets): nothing lost, nothing duplicated |
| `Inventory.KindFilterAppend` | src/components/RecordButton.tsx:29-34 | filtering a concatenation concatenates the filtered parts, so no device overtakes an earlier one |
| `Inventory.AutoSelect` | src/components/RecordButton.tsx:37-42 | a non-empty selection is never overridden; an empty device list changes nothing; an empty slot with devices takes the first device's id |
| `Inventory.AutoSelectOffered` | src/components/RecordButton.tsx:37-39 | an auto-selected id is one of the ids the picker offers |
| `Inventory.AutoSelectIdempotent` | src/components/RecordButton.tsx:37-42 | applying the policy again to the same list changes nothing |
| `Inventory.StaleSelectionKept` | src/components/RecordButton.tsx:35-42 | an id missing from the new enumeration survives it: the code does not reconcile stale selections |
| `Inventory.Refreshed` | src/components/RecordButton.tsx:26-46 | a rejected enumeration changes nothing; a successful one replaces both lists by the kind-filtered enumeration and auto-selects each slot against its new list |
| `Inventory.RefreshedIdempotent` | src/components/RecordButton.tsx:26-46 | enumerating twice with the same outcome equals enumerating once |
| `Inventory.RefreshedExact` | src/components/RecordButton.tsx:28-42 | after a successful enumeration a device is in the camera (microphone) list iff it was enumerated as a video (audio) input; the lists partition the enumeration; a set selection stays |
| `Inventory.NatToDecimal` | src/components/RecordButton.tsx:202 | the position text is non-empty, all digits, without a leading zero |
| `Inventory.DecimalRoundTrip` | src/components/RecordButton.tsx:202 | reading the position text back gives the number |
| `Inventory.DeviceLabel` | src/components/RecordButton.tsx:196-204 | an option's text is never empty; it is the entry's label when there is one; otherwise it is the noun, a space, and canonical decimal text (digits only, no leading zero) that reads back as the entry's 1-based position |
| `Inventory.FallbackLabelsDistinct` | src/components/RecordButton.tsx:201-202 | two different unlabelled entries of one picker get different placeholder texts, even when they hold equal values |
| `Request.ConstraintFor` | src/components/RecordButton.tsx:56-61 | a constraint is exact iff the selection is non-empty, and then names exactly the selected id |
| `Request.RequestFor` | src/components/RecordButton.tsx:54-63 | the video side is built from the camera selection and the audio side from the microphone selection |
| `Request.RequestRoundTrip` | src/components/RecordButton.tsx:54-63 | the request gives back both selections and never carries `{ exact: "" }` |
| `Request.RequestFromSelection` | src/components/RecordButton.tsx:54-63 | every well-formed request is the one built from the selection it stands for (the other direction of the round trip) |
| `Request.EmptySelectionIsProbe` | src/components/RecordButton.tsx:92 | with nothing selected the camera request names no device, like the permission probe |
| `Session.StopTracks` | src/components/RecordButton.tsx:76 | after the loop every track of the stream is ended |
| `Session.RecordButton.constructor` | src/components/RecordButton.tsx:19-23 | the component starts with no stream, empty lists, empty selections and nothing live |
| `Session.RecordButton.GetCameraDevices` | src/components/RecordButton.tsx:26-46 | the new device state is `Refreshed` of the old one; the results say which selection changed (and so which selection effect React runs next); the stream is untouched |
| `Session.RecordButton.StopCamera` | src/components/RecordButton.tsx:74-79 | every track of the old stream is ended, no held track is live and the stream is cleared; with no stream nothing changes, so a second call is a no-op |
| `Session.RecordButton.StartCamera` | src/components/RecordButton.tsx:48-72 | the old stream's tracks are all ended; the request is built from the selection; a granted stream becomes the only one with live tracks; a rejection leaves no stream and no live track |
| `Session.RecordButton.HandleTabChange` | src/components/RecordButton.tsx:81-87 | `"camera"` starts the camera with the selection's request; any other tab ends every track and clears the stream |
| `Session.RecordButton.SelectionEffect` | src/components/RecordButton.tsx:102-112 | the camera is restarted iff the changed slot is non-empty and a stream is live; otherwise nothing changes |
| `Session.RecordButton.SelectCamera` | src/components/RecordButton.tsx:102-106 | the camera id is stored; a restart happens iff the id changed, is non-empty and a stream is live, and then the request names the new camera; otherwise stream and tracks are untouched |
| `Session.RecordButton.SelectMicrophone` | src/components/RecordButton.tsx:108-112 | the same rule for the microphone slot; the restart request names the new microphone and keeps the camera |
| `Session.RecordButton.MountEffect` | src/components/RecordButton.tsx:89-100 | the probe asks for any camera and microphone; every granted probe track is ended; the stream is untouched; the device state is one or two enumerations applied in order |

## Left out

- JSX rendering, styling, the dialog, the tab widgets, the title input and the "Start recording" button (it has no handler). These are presentation.
- Binding the stream to the preview element (`videoRef.current.srcObject`, lines 66-68). This is a DOM side effect.
- The dialog's open state. Closing the dialog calls no handler, so the source does not release a live stream on close, and neither does the model.
- The browser media APIs (`enumerateDevices`, `getUserMedia`, `MediaStreamTrack.stop`). They are replaced by parameters and by the `Stop` method of a track. The model does not say which devices exist or whether a request succeeds.
- `console.error` logging on the error paths. Each error path is modelled as "nothing else changes".
- Asynchrony: each operation runs as one atomic step, and React's batched state updates are not modelled. `SelectCamera` and `SelectMicrophone` run their selection effect themselves. After an enumeration, the caller runs `SelectionEffect` once for each selection that changed; `GetCameraDevices` and `MountEffect` return which ones did.
- Two selection effects in one commit. When one enumeration auto-selects both slots while a stream is live, the source runs both effects against the same captured `stream`. Each `startCamera` call then stops that old stream and acquires a new one, and the first new stream is never stopped. The model runs the effects one after the other on the current stream, so it does not show this leak. Its at-most-one-live-stream invariant does not cover the source on this path.
- Session.RecordButton.MountEffect: the second enumeration reads the current selections. In the source it reads those captured at the first render, which are always `""` (a stale closure). So whenever the second enumeration lists a device of a kind, the source overwrites that slot with the first device: both the first enumeration's auto-selection and any camera or microphone the user picked while the permission prompt was open. With a live stream, the `[selectedCamera]` or `[selectedMicrophone]` effect then restarts the camera on that first device. The model keeps a selection that is set.
- src/app/dashboard/layout.tsx: page layout with no logic.
