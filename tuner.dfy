/**
 * The tuner object: the list of input devices, the selected device, the
 * capture streams it has opened, the transposition offset and the last
 * frequency detected, with the operations that change them.
 *
 * Foreign calls become inputs: the device records that the audio library
 * reports, whether opening a stream succeeds, the magnitude spectrum of a
 * frame, the text of the offset box, and the logarithm.
 */
module Tuner {
  import opened Wrappers
  import opened Reals
  import opened NoteMapping
  import opened TuningBand
  import opened Spectrum
  import opened PyInt

  /** What the audio library reports about one device. */
  datatype DeviceInfo = DeviceInfo(name: string, maxInputChannels: int)

  /** An entry of the device list: a device name and its library index. */
  datatype InputDevice = InputDevice(name: string, index: nat)

  /** A capture stream object: the device it was opened on (None: the default device) and whether it is open. */
  datatype StreamObject = StreamObject(device: Option<nat>, isOpen: bool)

  /** What one display update shows: the frequency, its reading and the colour band of its cents. */
  datatype DisplayUpdate = DisplayUpdate(frequency: real, reading: NoteReading, band: Band)

  /**
   * The device list holds exactly the devices with an input channel, each
   * under its own name, in increasing index order.
   */
  ghost predicate ListsInputDevices(infos: seq<DeviceInfo>, devices: seq<InputDevice>)
  {
    && (forall j :: 0 <= j < |devices| ==>
          && devices[j].index < |infos|
          && infos[devices[j].index].maxInputChannels > 0
          && devices[j].name == infos[devices[j].index].name)
    && (forall j1, j2 :: 0 <= j1 < j2 < |devices| ==> devices[j1].index < devices[j2].index)
    && (forall i :: 0 <= i < |infos| && infos[i].maxInputChannels > 0 ==>
          InputDevice(infos[i].name, i) in devices)
  }

  /** Position of the first list entry named `selection`. */
  function FirstMatch(devices: seq<InputDevice>, selection: string): (r: Option<nat>)
    ensures r.Some? ==> r.value < |devices| && devices[r.value].name == selection
    ensures r.Some? ==> forall j :: 0 <= j < r.value ==> devices[j].name != selection
    ensures r.None? ==> forall j :: 0 <= j < |devices| ==> devices[j].name != selection
  {
    if devices == [] then None
    else if devices[0].name == selection then Some(0)
    else match FirstMatch(devices[1..], selection)
      case None => None
      case Some(j) => Some(j + 1)
  }

  /**
   * The device index a selected name stands for: the index of the first list
   * entry with that name, or None when no entry has it.
   */
  function SelectedDevice(devices: seq<InputDevice>, selection: string): (r: Option<nat>)
    ensures r.None? <==> forall j :: 0 <= j < |devices| ==> devices[j].name != selection
    ensures r.Some? ==> exists j :: && 0 <= j < |devices|
                                    && devices[j].name == selection
                                    && devices[j].index == r.value
                                    && forall j' :: 0 <= j' < j ==> devices[j'].name != selection
  {
    match FirstMatch(devices, selection)
    case None => None
    case Some(j) => Some(devices[j].index)
  }

  /** A selection restarts the stream when it names a device other than the current one. */
  predicate ShouldRestart(target: Option<nat>, current: Option<nat>)
  {
    target.Some? && target != current
  }

  /** Only the stream that `stream` refers to may be open; at most one stream is open. */
  ghost predicate StreamsValid(streams: seq<StreamObject>, stream: Option<nat>)
  {
    && (stream.Some? ==> stream.value < |streams|)
    && (forall i :: 0 <= i < |streams| && streams[i].isOpen ==> stream == Some(i))
  }

  /** Indices of the streams that are open. */
  function OpenStreams(streams: seq<StreamObject>): set<nat>
  {
    set i: nat | i < |streams| && streams[i].isOpen
  }

  /** Under StreamsValid no two streams are open at once. */
  lemma AtMostOneOpen(streams: seq<StreamObject>, stream: Option<nat>)
    requires StreamsValid(streams, stream)
    ensures |OpenStreams(streams)| <= 1
    ensures OpenStreams(streams) <= (if stream.Some? then {stream.value} else {})
  {
    var open := OpenStreams(streams);
    if stream.None? {
      assert open == {};
    } else if streams[stream.value].isOpen {
      assert open == {stream.value};
    } else {
      assert open == {};
    }
  }

  /** The streams after closing the one `stream` refers to, if any. */
  function CloseCurrent(streams: seq<StreamObject>, stream: Option<nat>): (r: seq<StreamObject>)
    requires stream.Some? ==> stream.value < |streams|
    ensures |r| == |streams|
    ensures forall i :: 0 <= i < |r| ==>
      r[i].device == streams[i].device && r[i].isOpen == (streams[i].isOpen && stream != Some(i))
  {
    if stream.None? then streams
    else streams[stream.value := streams[stream.value].(isOpen := false)]
  }

  /**
   * The effect of restarting the audio stream on `device`: the stream
   * referred to is closed first; on success a new open stream on `device`
   * becomes the referred one, on failure the reference is left as it was.
   */
  ghost predicate Restarted(streams0: seq<StreamObject>, stream0: Option<nat>, device: Option<nat>,
                            deviceOpens: bool, streams1: seq<StreamObject>, stream1: Option<nat>)
    requires stream0.Some? ==> stream0.value < |streams0|
  {
    var closed := CloseCurrent(streams0, stream0);
    if deviceOpens then streams1 == closed + [StreamObject(device, true)] && stream1 == Some(|streams0|)
    else streams1 == closed && stream1 == stream0
  }

  /**
   * The effect of selecting `selection` in the device box: when the first
   * entry with that name is a device other than the current one, it becomes
   * current and the stream restarts; otherwise nothing changes.
   */
  ghost predicate DeviceChanged(devices: seq<InputDevice>, selection: string, deviceOpens: bool,
                                current0: Option<nat>, streams0: seq<StreamObject>, stream0: Option<nat>,
                                current1: Option<nat>, streams1: seq<StreamObject>, stream1: Option<nat>)
    requires stream0.Some? ==> stream0.value < |streams0|
  {
    var target := SelectedDevice(devices, selection);
    if ShouldRestart(target, current0) then
      && current1 == target
      && Restarted(streams0, stream0, current1, deviceOpens, streams1, stream1)
    else
      && current1 == current0
      && streams1 == streams0 && stream1 == stream0
  }

  /** What `update_display` shows for a frequency: its reading and the band of its cents. */
  function Display(log2: real -> real, frequency: real, semitoneOffset: int): (d: DisplayUpdate)
    ensures d.frequency == frequency
    ensures d.reading == FrequencyToNote(log2, frequency, semitoneOffset)
    ensures d.band == BandOf(d.reading.cents)
    ensures frequency <= 0.0 ==> d.reading == NoPitch && d.band == Success
  {
    var reading := FrequencyToNote(log2, frequency, semitoneOffset);
    DisplayUpdate(frequency, reading, BandOf(reading.cents))
  }

  /** The display for a frequency is the same whatever the stored offset. */
  lemma DisplayIgnoresOffset(log2: real -> real, frequency: real, offset1: int, offset2: int)
    ensures Display(log2, frequency, offset1) == Display(log2, frequency, offset2)
  {
    OffsetIsIgnored(log2, frequency, offset1, offset2);
  }

  /**
   * Selecting the same name twice in a row: the second selection leaves the
   * current device and every stream as the first one left them, whether or
   * not either open succeeded.
   */
  lemma RepeatedSelectionIsIdle(devices: seq<InputDevice>, selection: string, opens1: bool, opens2: bool,
                                current0: Option<nat>, streams0: seq<StreamObject>, stream0: Option<nat>,
                                current1: Option<nat>, streams1: seq<StreamObject>, stream1: Option<nat>,
                                current2: Option<nat>, streams2: seq<StreamObject>, stream2: Option<nat>)
    requires StreamsValid(streams0, stream0) && StreamsValid(streams1, stream1)
    requires DeviceChanged(devices, selection, opens1, current0, streams0, stream0, current1, streams1, stream1)
    requires DeviceChanged(devices, selection, opens2, current1, streams1, stream1, current2, streams2, stream2)
    ensures current2 == current1 && streams2 == streams1 && stream2 == stream1
  {
    var target := SelectedDevice(devices, selection);
    assert !ShouldRestart(target, current1);
  }

  class GuitarTuner {
    /** The platform logarithm used by the note mapping. */
    const log2: real -> real
    /** Every stream object opened so far, in order. */
    var streams: seq<StreamObject>
    /** The stream the tuner refers to, as a position in `streams`; None before any open succeeds. */
    var stream: Option<nat>
    /** The selected device index; None means the library's default device. */
    var currentDevice: Option<nat>
    /** The device list offered for selection. */
    var inputDevices: seq<InputDevice>
    /** The transposition offset, in semitones. */
    var semitoneOffset: int
    /** The last frequency that passed the noise gate; None until one has. */
    var lastFrequency: Option<real>

    ghost predicate Valid()
      reads this
    {
      StreamsValid(streams, stream)
    }

    /**
     * Start-up: no stream, no device, offset 0; the device list is read, the
     * first listed device is selected, and a stream is opened on it.
     */
    constructor (log2: real -> real, infos: seq<DeviceInfo>, deviceOpens: bool)
      ensures Valid()
      ensures this.log2 == log2
      ensures ListsInputDevices(infos, inputDevices)
      ensures currentDevice == if inputDevices == [] then None else Some(inputDevices[0].index)
      ensures semitoneOffset == 0 && lastFrequency == None
      ensures streams == if deviceOpens then [StreamObject(currentDevice, true)] else []
      ensures stream == if deviceOpens then Some(0) else None
    {
      this.log2 := log2;
      streams := [];
      stream := None;
      currentDevice := None;
      inputDevices := [];
      semitoneOffset := 0;
      lastFrequency := None;
      new;
      var devices := InputDevices(infos);
      inputDevices := devices;
      if devices != [] {
        currentDevice := Some(devices[0].index);
      }
      RestartAudioStream(deviceOpens);
    }

    /** The input devices among the library's device records, with their indices. */
    method InputDevices(infos: seq<DeviceInfo>) returns (devices: seq<InputDevice>)
      ensures ListsInputDevices(infos, devices)
    {
      devices := [];
      var i := 0;
      while i < |infos|
        invariant 0 <= i <= |infos|
        invariant forall j :: 0 <= j < |devices| ==>
          && devices[j].index < i
          && infos[devices[j].index].maxInputChannels > 0
          && devices[j].name == infos[devices[j].index].name
        invariant forall j1, j2 :: 0 <= j1 < j2 < |devices| ==> devices[j1].index < devices[j2].index
        invariant forall k :: 0 <= k < i && infos[k].maxInputChannels > 0 ==>
          InputDevice(infos[k].name, k) in devices
      {
        if infos[i].maxInputChannels > 0 {
          devices := devices + [InputDevice(infos[i].name, i)];
        }
        i := i + 1;
      }
    }

    /**
     * Closes the stream referred to, if any, then tries to open a new one on
     * the current device. On failure the reference still names the old,
     * now closed, stream.
     */
    method RestartAudioStream(deviceOpens: bool)
      requires Valid()
      modifies this`streams, this`stream
      ensures Valid()
      ensures Restarted(old(streams), old(stream), currentDevice, deviceOpens, streams, stream)
      ensures forall i :: 0 <= i < |old(streams)| ==> !streams[i].isOpen
      ensures !deviceOpens && old(stream).Some? ==> stream == old(stream) && !streams[stream.value].isOpen
      ensures |OpenStreams(streams)| <= 1
    {
      if stream.Some? {
        streams := CloseCurrent(streams, stream);
      }
      if deviceOpens {
        streams := streams + [StreamObject(currentDevice, true)];
        stream := Some(|streams| - 1);
      }
      AtMostOneOpen(streams, stream);
    }

    /**
     * Handles a selection in the device box: looks up the first entry with
     * the selected name and, when it names a device other than the current
     * one, makes it current and restarts the stream.
     */
    method OnDeviceChange(selection: string, deviceOpens: bool)
      requires Valid()
      modifies this`currentDevice, this`streams, this`stream
      ensures Valid()
      ensures DeviceChanged(inputDevices, selection, deviceOpens,
                            old(currentDevice), old(streams), old(stream), currentDevice, streams, stream)
    {
      var deviceIndex: Option<nat> := None;
      var i := 0;
      while i < |inputDevices|
        invariant 0 <= i <= |inputDevices|
        invariant forall j :: 0 <= j < i ==> inputDevices[j].name != selection
      {
        if inputDevices[i].name == selection {
          deviceIndex := Some(inputDevices[i].index);
          assert FirstMatch(inputDevices, selection) == Some(i);
          break;
        }
        i := i + 1;
      }
      assert deviceIndex == SelectedDevice(inputDevices, selection);
      if deviceIndex.Some? && deviceIndex != currentDevice {
        currentDevice := deviceIndex;
        RestartAudioStream(deviceOpens);
      }
    }

    /**
     * Handles a choice in the offset box: text that parses as an integer
     * becomes the offset, whatever its value, and the display is refreshed
     * from the last frequency (0 before any); other text changes nothing.
     */
    method OnOffsetChange(text: string) returns (shown: Option<DisplayUpdate>)
      requires Valid()
      modifies this`semitoneOffset
      ensures Valid()
      ensures ParseInt(text).None? ==> semitoneOffset == old(semitoneOffset) && shown == None
      ensures ParseInt(text).Some? ==>
        && semitoneOffset == ParseInt(text).value
        && shown == Some(Display(log2, if lastFrequency.Some? then lastFrequency.value else 0.0, semitoneOffset))
    {
      match ParseInt(text)
      case None =>
        shown := None;
      case Some(offset) =>
        semitoneOffset := offset;
        var frequency := if lastFrequency.Some? then lastFrequency.value else 0.0;
        shown := Some(Display(log2, frequency, semitoneOffset));
    }

    /**
     * One step of the capture loop after a frame has been read and
     * transformed: picks the first peak of the magnitude spectrum and, when
     * it clears the noise gate, records its folded frequency and posts it
     * for display. An empty spectrum, on which the transform raises, posts
     * nothing.
     */
    method ProcessSpectrum(magnitudes: array<real>) returns (posted: Option<real>)
      requires Valid()
      modifies this`lastFrequency
      ensures Valid()
      ensures posted == DetectedFrequency(magnitudes[..])
      ensures lastFrequency == if posted.Some? then posted else old(lastFrequency)
    {
      if magnitudes.Length == 0 {
        posted := None;
        return;
      }
      var peakIndex := ArgMax(magnitudes);
      FirstMaxUnique(magnitudes[..], peakIndex, FirstMaxIndex(magnitudes[..]));
      var peakFreq := Abs(BinFrequency(peakIndex, magnitudes.Length));
      if magnitudes[peakIndex] > NoiseGate {
        lastFrequency := Some(peakFreq);
        posted := Some(peakFreq);
      } else {
        posted := None;
      }
    }

    /**
     * Two selections of the same name in a row: the second changes nothing
     * that the first did not, so the state is the one a single selection gives.
     */
    method SelectTwice(selection: string, opens1: bool, opens2: bool)
      requires Valid()
      modifies this`currentDevice, this`streams, this`stream
      ensures Valid()
      ensures DeviceChanged(inputDevices, selection, opens1,
                            old(currentDevice), old(streams), old(stream), currentDevice, streams, stream)
    {
      OnDeviceChange(selection, opens1);
      ghost var current1, streams1, stream1 := currentDevice, streams, stream;
      OnDeviceChange(selection, opens2);
      RepeatedSelectionIsIdle(inputDevices, selection, opens1, opens2,
                              old(currentDevice), old(streams), old(stream),
                              current1, streams1, stream1, currentDevice, streams, stream);
    }
  }
}
