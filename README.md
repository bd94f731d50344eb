# Guitar tuner: a Dafny model of its pitch pipeline and device control

The guitar tuner reads mono audio frames, finds the strongest frequency in each frame's
spectrum, names the nearest note with its octave and its deviation in cents, and colours the
display by how far off that deviation is. The user can pick the input device and a
transposition offset in semitones.

This project models the decision logic of `GuitarTuner` in `guitar_tuner.py`:

- `NoteMapping` (`note_mapping.dfy`): `frequency_to_note`. The frequency is placed relative to
  A4 = 440 Hz, rounded to the nearest semitone, and split into a pitch class and an octave.
  Python's `round` is modelled as round-half-to-even. `//` and `%` are floor division and the
  non-negative remainder; Dafny's `/` and `%` agree with them for the divisor 12.
  `math.log2` is a parameter `log2: real -> real`, so the facts hold for any logarithm the
  platform supplies.
- `TuningBand` (`tuning_band.dfy`): the `if`/`elif`/`else` colour banding in `update_display`,
  as a three-way `Band` (success, warning, error).
- `Spectrum` (`spectrum.dfy`): the peak step of `process_audio`. It covers `np.argmax` (the
  first largest magnitude), the bin layout of `np.fft.fftfreq` folded by `abs`, and the
  noise gate `> 0.01`.
- `PyInt` (`py_int.dfy`): `int(text)` as the offset box uses it, and `str(i)`, which produces
  the box's choices.
- `Tuner` (`tuner.dfy`): class `GuitarTuner`. It holds the device list, the current device,
  the stream objects, the offset and the last frequency. Its methods are `get_input_devices`,
  `on_device_change`, `restart_audio_stream`, `on_offset_change` and the state update of
  `process_audio`.
- `Reals` and `Wrappers`: `abs` on reals and an `Option` type.

Streams are modelled as the sequence of every stream object the tuner has opened. Each object
records its device and whether it is open. `stream` is the position of the one that
`self.stream` refers to. The object invariant says that only that stream may be open, so at
most one stream is open at any time. The outcome of opening a device is a `deviceOpens`
parameter, because the open is a foreign call.

Behaviour as the code has it, which the model keeps:

- The semitone offset is stored, but `frequency_to_note` never reads it. Changing the offset
  redraws the same reading (`OffsetIsIgnored`, `DisplayIgnoresOffset`).
- The offset takes any integer the text parses to. The range -12..12 exists only in the
  choices the box offers (`OnOffsetChange`, `ParseStr`).
- Round-half-to-even lets the cents reach both +50 and -50 (`CentsReachBothEnds`). The range
  is the closed interval [-50, 50].
- There is no "no signal" band. Frequency 0 shows "--" with 0 cents, in the success colour
  (`Display`).
- After a failed open on device d, selecting d again does nothing, because d is already the
  current device (`RepeatedSelectionIsIdle`). Only selecting another device reopens a stream.
- On a failed open, `self.stream` still refers to the old stream, which is now closed
  (`RestartAudioStream`).

## Model

| member | source | states |
|---|---|---|
| NoteMapping.Round | guitar_tuner.py:240 | the rounded value is within 1/2 of its argument, and a tie goes to the even integer |
| NoteMapping.RoundUnique | guitar_tuner.py:240 | an integer within 1/2 of x that breaks ties to even is exactly Round(x) |
| NoteMapping.RoundNearest | guitar_tuner.py:240 | a value strictly closer than 1/2 to n rounds to n |
| NoteMapping.Decompose | guitar_tuner.py:245-246 | the pitch-class index (rounded+9) mod 12 lies in 0..11, and 12*(octave-4) + index = rounded + 9, also for negative rounded notes |
| NoteMapping.DecomposeSemitones | guitar_tuner.py:245-246 | every index in 0..11 with any octave comes back unchanged through semitones and Decompose |
| NoteMapping.DecomposeInjective | guitar_tuner.py:245-246 | different rounded notes never share an index and an octave |
| NoteMapping.NotesDistinct | guitar_tuner.py:59 | the twelve note names are pairwise different |
| NoteMapping.NoteIndexOf | guitar_tuner.py:59 | gives the position of a note name in the note list, or -1 when no entry has that name |
| NoteMapping.OctaveUp | guitar_tuner.py:238-247 | the note number 12*log2(f/440) grows by exactly 12 when f doubles (given log2 grows by 1), and the doubled frequency keeps the name and the cents one octave higher |
| NoteMapping.FrequencyToNote | guitar_tuner.py:233-249 | a frequency <= 0 gives ("--", 0, 0); a positive one gives a note name whose semitone from A4 is the rounded note number, with cents = 100*(note number - that semitone) in [-50, 50] |
| NoteMapping.OffsetIsIgnored | guitar_tuner.py:233-249 | the reading is the same for every stored semitone offset |
| NoteMapping.SameNameAndOctaveIffSameSemitone | guitar_tuner.py:238-247 | two positive frequencies get the same name and octave if and only if they round to the same semitone |
| NoteMapping.NearestSemitone | guitar_tuner.py:238-247 | a frequency within half a semitone of semitone n is named after n, with cents measured from n |
| NoteMapping.ConcertA | guitar_tuner.py:238-247 | when log2(1) = 0, 440 Hz reads as "A", octave 4, 0 cents |
| NoteMapping.MiddleC | guitar_tuner.py:238-247 | 261.63 Hz reads as "C", octave 4, under 5 cents, when log2 is accurate there to 0.05 semitone |
| NoteMapping.CentsReachBothEnds | guitar_tuner.py:240-242 | with round-half-to-even, cents of exactly +50 and exactly -50 both occur |
| TuningBand.BandOf | guitar_tuner.py:308-316 | success iff abs(cents) < 5, warning iff 5 <= abs(cents) < 15, error iff abs(cents) >= 15 |
| TuningBand.BandMonotone | guitar_tuner.py:308-316 | a larger abs(cents) never gets a better band |
| TuningBand.BandSymmetric | guitar_tuner.py:308-316 | the band does not depend on the sign of the cents |
| Spectrum.BinFrequency | guitar_tuner.py:270 | the fftfreq frequency of bin k is non-negative exactly for k <= (n-1)/2, and lies in [-RATE/2, RATE/2) |
| Spectrum.FoldedBin | guitar_tuner.py:270-275 | the folded bin is the smaller of k and n-k |
| Spectrum.PeakFrequencyFolds | guitar_tuner.py:270-275 | abs of the fftfreq frequency of bin k is FoldedBin(k, n)*RATE/n, and lies in [0, RATE/2] |
| Spectrum.FirstMaxUnique | guitar_tuner.py:274 | at most one index is the first index of the maximum |
| Spectrum.FirstMaxIndex | guitar_tuner.py:274 | the left-to-right scan returns the first index of the largest value |
| Spectrum.ArgMax | guitar_tuner.py:274 | the loop over the magnitude array returns the first index of the largest magnitude |
| Spectrum.DetectedFrequency | guitar_tuner.py:269-280 | a frequency is reported iff some magnitude exceeds 0.01; it is the folded frequency of the first peak and lies in [0, RATE/2] |
| Spectrum.SilenceIsGated | guitar_tuner.py:277-280 | an all-zero spectrum reports no frequency |
| PyInt.ParseInt | guitar_tuner.py:253 | text that int accepts holds a digit and no characters other than digits, underscores, whitespace and signs |
| PyInt.Str | guitar_tuner.py:202 | str(i) is non-empty, starts with "-" exactly when i < 0, and is digits after that sign |
| PyInt.ParseStr | guitar_tuner.py:253 | int(str(i)) == i for every integer i, with no limit on the number of digits |
| PyInt.OffsetChoicesParse | guitar_tuner.py:202 | every offset choice "-12" to "12" parses to its own value |
| PyInt.RejectsForeignCharacter | guitar_tuner.py:252-256 | text holding a character other than a digit, underscore, whitespace or sign (such as "1.5") does not parse |
| PyInt.RejectsDigitless | guitar_tuner.py:252-256 | text without a digit, including the empty text, does not parse |
| PyInt.StripKeeps | guitar_tuner.py:253 | stripping whitespace keeps every character that is not whitespace |
| PyInt.DigitsValueOfNatToDigits | guitar_tuner.py:202 | the decimal digits str prints for n have the value n |
| PyInt.NatToDigits | guitar_tuner.py:202 | str of a natural number is a non-empty string of digits |
| Tuner.FirstMatch | guitar_tuner.py:92-95 | gives the first list position whose name equals the selection, or None when no entry has that name |
| Tuner.SelectedDevice | guitar_tuner.py:89-95 | the selected device index is None exactly when no entry has the name, and otherwise the index of the first entry with that name |
| Tuner.AtMostOneOpen | guitar_tuner.py:102-120 | when only the referenced stream may be open, at most one stream is open |
| Tuner.CloseCurrent | guitar_tuner.py:105-107 | closes the referenced stream and leaves every other stream as it was |
| Tuner.Display | guitar_tuner.py:291-316 | the display shows the reading of the frequency and the band BandOf gives its cents (success, warning or error); frequency 0 shows "--" in the success band |
| Tuner.DisplayIgnoresOffset | guitar_tuner.py:251-256 | redrawing after an offset change gives the same display whatever the offset |
| Tuner.RepeatedSelectionIsIdle | guitar_tuner.py:86-100 | after two selections of the same name in a row, the second leaves the current device, the streams and the stream reference as the first left them, whatever either open did |
| Tuner.GuitarTuner.constructor | guitar_tuner.py:139-145 | at start-up the device list holds the input devices, the first one is current, the offset is 0, and one stream is open on that device if the open succeeded |
| Tuner.GuitarTuner.InputDevices | guitar_tuner.py:76-84 | returns exactly the (name, index) pairs of the devices with maxInputChannels > 0, in increasing index order |
| Tuner.GuitarTuner.RestartAudioStream | guitar_tuner.py:102-120 | the referenced stream is closed before any open; on success a new open stream on the current device becomes the referenced one; on failure the reference still names the old, closed stream; at most one stream is open afterwards |
| Tuner.GuitarTuner.OnDeviceChange | guitar_tuner.py:86-100 | the first entry with the selected name decides; only when it exists and differs from the current device (line 97) does it become current and the stream restart; otherwise nothing changes |
| Tuner.GuitarTuner.SelectTwice | guitar_tuner.py:86-100 | two consecutive selections of the same name leave the tuner in the state one selection gives |
| Tuner.GuitarTuner.OnOffsetChange | guitar_tuner.py:251-256 | text that parses as an integer becomes the offset with no range check, and the display is redrawn from the last frequency (0 before any); other text changes nothing; at most one stream stays open |
| Tuner.GuitarTuner.ProcessSpectrum | guitar_tuner.py:269-280 | the posted frequency is the detected frequency of the spectrum; last_frequency changes only when one is posted, and then to that frequency; at most one stream stays open |

## Left out

- Tkinter GUI (`create_gui`, `draw_tuning_scale`, label text, the needle's pixel position, the colour values, the string radio buttons): presentation only. The constructor keeps only the device and stream set-up that `create_gui` performs.
- PyAudio calls (`get_device_count`, `get_device_info_by_index`, `open`, `stream.read`, `terminate`): foreign code. Device records are an input sequence, the outcome of `open` is a boolean input, and a frame read is replaced by its magnitude spectrum.
- Tuner.GuitarTuner.RestartAudioStream: closing the referenced stream is modelled as always succeeding, and closing an already closed stream is a no-op. What PyAudio's `stop_stream` and `close` do on a closed stream is not part of this model. The case where they raise, and so skip the new open, is not captured.
- The FFT, `np.abs` and `math.log2` as numerical code: the spectrum is an input and `log2` is a parameter. All arithmetic is on exact reals, so float rounding, NaN and infinities are not modelled.
- The `process_audio` worker loop, the `running` flag, the 0.1 s sleeps, the read-error retry, the `root.after` hand-off (modelled as the returned posted frequency) and `close` with its `join` timeout and `os._exit`. These are concurrency and process lifetime. The unsynchronised sharing of `current_device` and `semitone_offset` between threads is not modelled: the model is sequential.
- PyInt.ParseInt: only ASCII whitespace and ASCII digits are modelled. Python's `int` also accepts other Unicode whitespace and decimal digits.
- PyInt.ParseInt: the interpreter's limit on the number of digits in integer text (`sys.get_int_max_str_digits()`, 4300 by default since Python 3.11) is not modelled. Longer digit strings parse here, while Python raises ValueError for them.
- PyInt.ParseStr: the round trip holds for every integer in the model. In Python 3.11 and later, `str` itself raises for an integer of more than 4300 digits. The offset box's own choices, -12 to 12, are far inside that limit (`OffsetChoicesParse`).
- Tuner.GuitarTuner.OnOffsetChange: because the digit limit is not modelled, text of more than 4300 digits becomes the offset here. On Python 3.11 and later `int` raises for it, and the handler keeps the old offset.
- Tuner.GuitarTuner.ProcessSpectrum: `np.argmax` on a spectrum holding NaN is not modelled, since magnitudes are reals.
