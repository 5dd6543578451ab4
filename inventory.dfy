/** The device inventory: how one enumeration is split into the camera and
    microphone lists, how an empty selection slot is filled, and the text a
    device picker shows for a device. */
module Inventory {
  import opened Media

  /** `devices.filter((device) => device.kind === kind)`. */
  function KindFilter(devices: seq<MediaDeviceInfo>, kind: DeviceKind): (r: seq<MediaDeviceInfo>)
    ensures |r| <= |devices|
    ensures forall d :: d in r ==> d in devices && d.kind == kind
    ensures forall d :: d in devices && d.kind == kind ==> d in r
  {
    if devices == [] then []
    else if devices[0].kind == kind then [devices[0]] + KindFilter(devices[1..], kind)
    else KindFilter(devices[1..], kind)
  }

  /** `sub` is `s` with some entries removed and the rest kept in order. */
  ghost predicate IsSubsequence<T>(sub: seq<T>, s: seq<T>)
  {
    if sub == [] then true
    else if s == [] then false
    else (sub[0] == s[0] && IsSubsequence(sub[1..], s[1..])) || IsSubsequence(sub, s[1..])
  }

  /** The filter keeps enumeration order. */
  lemma {:induction false} KindFilterKeepsOrder(devices: seq<MediaDeviceInfo>, kind: DeviceKind)
    ensures IsSubsequence(KindFilter(devices, kind), devices)
  {
    if devices != [] {
      KindFilterKeepsOrder(devices[1..], kind);
      var rest := KindFilter(devices[1..], kind);
      if devices[0].kind == kind {
        assert KindFilter(devices, kind)[1..] == rest;
      }
    }
  }

  /** The filter keeps every device of the kind exactly as often as it occurs
      and drops every other device: together with KindFilterKeepsOrder this
      pins the list down completely. */
  lemma {:induction false} KindFilterCounts(devices: seq<MediaDeviceInfo>, kind: DeviceKind, d: MediaDeviceInfo)
    ensures multiset(KindFilter(devices, kind))[d] == if d.kind == kind then multiset(devices)[d] else 0
  {
    if devices != [] {
      KindFilterCounts(devices[1..], kind, d);
      assert devices == [devices[0]] + devices[1..];
    }
  }

  /** Splitting by kind loses no device and duplicates none: the camera list,
      the microphone list and the (unshown) audio outputs together are the
      enumeration. */
  lemma KindFilterPartitions(devices: seq<MediaDeviceInfo>)
    ensures multiset(KindFilter(devices, VideoInput)) + multiset(KindFilter(devices, AudioInput))
            + multiset(KindFilter(devices, AudioOutput)) == multiset(devices)
  {
    forall d
      ensures (multiset(KindFilter(devices, VideoInput)) + multiset(KindFilter(devices, AudioInput))
               + multiset(KindFilter(devices, AudioOutput)))[d] == multiset(devices)[d]
    {
      KindFilterCounts(devices, VideoInput, d);
      KindFilterCounts(devices, AudioInput, d);
      KindFilterCounts(devices, AudioOutput, d);
    }
  }

  /** Filtering a longer enumeration extends the filtered list of its prefix:
      later devices never move ahead of earlier ones. */
  lemma {:induction false} KindFilterAppend(a: seq<MediaDeviceInfo>, b: seq<MediaDeviceInfo>, kind: DeviceKind)
    ensures KindFilter(a + b, kind) == KindFilter(a, kind) + KindFilter(b, kind)
  {
    if a != [] {
      assert (a + b)[0] == a[0] && (a + b)[1..] == a[1..] + b;
      KindFilterAppend(a[1..], b, kind);
    } else {
      assert a + b == b;
    }
  }

  /** The ids offered by a picker. */
  function Ids(devices: seq<MediaDeviceInfo>): (r: seq<string>)
    ensures |r| == |devices|
    ensures forall i :: 0 <= i < |devices| ==> r[i] == devices[i].deviceId
  {
    if devices == [] then [] else [devices[0].deviceId] + Ids(devices[1..])
  }

  /** The initial-selection policy for one slot: an empty slot (`""`, which
      is both "unset" and "off") takes the first device's id when the list is
      not empty; any other slot keeps its value. */
  function AutoSelect(selected: string, devices: seq<MediaDeviceInfo>): (r: string)
    ensures selected != "" ==> r == selected
    ensures devices == [] ==> r == selected
    ensures selected == "" && devices != [] ==> r == devices[0].deviceId
  {
    if |devices| > 0 && selected == "" then devices[0].deviceId else selected
  }

  /** An auto-selected id is always one the picker offers. */
  lemma AutoSelectOffered(selected: string, devices: seq<MediaDeviceInfo>)
    requires selected == "" && devices != []
    ensures AutoSelect(selected, devices) in Ids(devices)
  {
  }

  /** Re-running the policy on the same list changes nothing. */
  lemma AutoSelectIdempotent(selected: string, devices: seq<MediaDeviceInfo>)
    ensures AutoSelect(AutoSelect(selected, devices), devices) == AutoSelect(selected, devices)
  {
  }

  /** The policy does not reconcile a stale selection: an id whose device has
      disappeared from the new enumeration is kept. */
  lemma StaleSelectionKept()
    ensures var replugged := [MediaDeviceInfo("cam-b", VideoInput, "")];
            "cam-a" !in Ids(replugged) && AutoSelect("cam-a", replugged) == "cam-a"
  {
  }

  /** The part of the component state an enumeration updates. */
  datatype DeviceState = DeviceState(
    videoDevices: seq<MediaDeviceInfo>,
    audioDevices: seq<MediaDeviceInfo>,
    selectedCamera: string,
    selectedMicrophone: string)

  /** The effect of one enumeration on that state: on success both lists are
      replaced by the enumeration split by kind and each empty slot is
      auto-selected; a rejected enumeration is only logged, so nothing
      changes. */
  function Refreshed(st: DeviceState, enumeration: Option<seq<MediaDeviceInfo>>): (r: DeviceState)
    ensures enumeration.None? ==> r == st
    ensures enumeration.Some? ==>
              && r.videoDevices == KindFilter(enumeration.value, VideoInput)
              && r.audioDevices == KindFilter(enumeration.value, AudioInput)
              && r.selectedCamera == AutoSelect(st.selectedCamera, r.videoDevices)
              && r.selectedMicrophone == AutoSelect(st.selectedMicrophone, r.audioDevices)
  {
    match enumeration
    case None => st
    case Some(devices) =>
      var video := KindFilter(devices, VideoInput);
      var audio := KindFilter(devices, AudioInput);
      DeviceState(video, audio, AutoSelect(st.selectedCamera, video), AutoSelect(st.selectedMicrophone, audio))
  }

  /** Enumerating again with the same hardware changes nothing more. */
  lemma RefreshedIdempotent(st: DeviceState, enumeration: Option<seq<MediaDeviceInfo>>)
    ensures Refreshed(Refreshed(st, enumeration), enumeration) == Refreshed(st, enumeration)
  {
  }

  /** After a successful enumeration every device is in the list of its kind
      (or is an audio output) and in no other list, and a selection that was
      set stays set. */
  lemma RefreshedExact(st: DeviceState, devices: seq<MediaDeviceInfo>)
    ensures var r := Refreshed(st, Some(devices));
            && (forall d :: d in r.videoDevices <==> d in devices && d.kind == VideoInput)
            && (forall d :: d in r.audioDevices <==> d in devices && d.kind == AudioInput)
            && multiset(r.videoDevices) + multiset(r.audioDevices)
               + multiset(KindFilter(devices, AudioOutput)) == multiset(devices)
            && (st.selectedCamera != "" ==> r.selectedCamera == st.selectedCamera)
            && (st.selectedMicrophone != "" ==> r.selectedMicrophone == st.selectedMicrophone)
  {
    KindFilterPartitions(devices);
  }

  function DigitChar(n: nat): (c: char)
    requires n < 10
  {
    "0123456789"[n]
  }

  function DigitValue(c: char): nat
  {
    if '0' <= c <= '9' then (c as int - '0' as int) as nat else 0
  }

  /** The decimal text JavaScript produces for a non-negative integer. */
  function NatToDecimal(n: nat): (s: string)
    ensures |s| >= 1
    ensures forall c :: c in s ==> '0' <= c <= '9'
    ensures |s| > 1 ==> s[0] != '0'
  {
    if n < 10 then [DigitChar(n)] else NatToDecimal(n / 10) + [DigitChar(n % 10)]
  }

  function DecimalToNat(s: string): nat
  {
    if s == [] then 0 else 10 * DecimalToNat(s[..|s| - 1]) + DigitValue(s[|s| - 1])
  }

  /** Reading back the decimal text gives the number: distinct numbers have
      distinct texts. */
  lemma {:induction false} DecimalRoundTrip(n: nat)
    ensures DecimalToNat(NatToDecimal(n)) == n
  {
    var s := NatToDecimal(n);
    if n >= 10 {
      DecimalRoundTrip(n / 10);
      assert s[..|s| - 1] == NatToDecimal(n / 10);
    }
  }

  /** The text of the picker option for the entry at position `i`: its
      label, or `noun N` with N the entry's 1-based position when the label
      is withheld. The source finds the position with `indexOf` on the entry
      object itself; every enumerated entry is an object of its own, so that
      position is `i` even when two entries hold equal values. */
  function DeviceLabel(devices: seq<MediaDeviceInfo>, i: nat, noun: string): (r: string)
    requires i < |devices|
    ensures r != ""
    ensures devices[i].deviceLabel != "" ==> r == devices[i].deviceLabel
    ensures devices[i].deviceLabel == "" ==>
              && |r| > |noun| + 1
              && r[..|noun| + 1] == noun + " "
              && var digits := r[|noun| + 1..];
                 && DecimalToNat(digits) == i + 1
                 && (forall c :: c in digits ==> '0' <= c <= '9')
                 && (|digits| > 1 ==> digits[0] != '0')
  {
    if devices[i].deviceLabel != "" then devices[i].deviceLabel
    else
      var r := noun + " " + NatToDecimal(i + 1);
      assert r[|noun| + 1..] == NatToDecimal(i + 1);
      DecimalRoundTrip(i + 1);
      r
  }

  /** Two different unlabelled entries of one picker never show the same
      placeholder text, even when the entries hold equal values. */
  lemma FallbackLabelsDistinct(devices: seq<MediaDeviceInfo>, i: nat, j: nat, noun: string)
    requires i < |devices| && j < |devices| && i != j
    requires devices[i].deviceLabel == "" && devices[j].deviceLabel == ""
    ensures DeviceLabel(devices, i, noun) != DeviceLabel(devices, j, noun)
  {
  }
}
