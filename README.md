# SEPIA Air Instruments — a verified model of the per-frame core

SEPIA Air Instruments is a browser app in which the player plays notes by raising fingers in front of a camera.

- Each video frame, the hand tracker delivers up to two hands of 21 landmarks.
- A classifier turns each hand into five "raised" flags.
- The application compares the flags with the previous frame. A finger that rises starts a voice in the synthesiser, adds one particle at its fingertip and adds an entry to the note history. A finger that falls releases its voice.
- Fingers of a hand that left the frame are silenced.
- Changing the instrument or leaving for the landing page stops everything and forgets every finger.

This project models that path in Dafny, one module per source file. It also models the small list and formatting helpers around it.

| module | file | models |
|---|---|---|
| `Wrappers` | wrappers.dfy | `Option` |
| `JsArray` | js_array.dfy | `Array.prototype.slice` with a start index and a negative start, as JavaScript defines them |
| `Types` | types.dfy | landmarks, hands, sides, fingers, note configurations and instrument presets (src/types/index.ts) |
| `HandDetection` | hand_detection.dfy | src/utils/handDetection.ts: the finger classifier, the canvas-position helpers, hand side, and finger keys |
| `App` | app.dfy | src/App.tsx: the frame handler `handleHandsDetected` as class `Session`, the instrument lookup, instrument change, start and going home |
| `AudioEngine` | audio_engine.dfy | src/utils/AudioEngine.ts: class `AudioEngine` over an explicit node graph |
| `Particles` | particles.dfy | src/utils/particles.ts |
| `NoteHistory` | note_history.dfy | the list update of src/hooks/useNoteHistory.ts |
| `Sidebar` | sidebar.dfy | `formatDuration` and the category grouping of src/components/panels/Sidebar.tsx |

## How the model is built

**Classifier.**
- `HandDetection.DetectRaisedFingers` is the source's loop. It pushes the thumb vote into `raised`, then the y test of fingers 1 to 4.
- It is proved equal to the function `RaisedFingers`, which the rest of the model reasons with.
- Euclidean distances use `Math.sqrt`. They appear as a parameter `norm: (real, real) -> NonNeg`, the length of a vector.
- The four thumb checks are stated over that function with the source's constants: 2.0 (with the +0.001 guard), 1.3, −0.3 (with the +0.001 guard) and 0.9.

**Frame handler.**
- `App.Session` holds the fields the handler reads and writes:
  - `prevStates` (the `prevStatesRef` map);
  - `keyOrder`, the map's insertion order, which JavaScript's `Map.forEach` follows;
  - `activeFingers`, `isStarted` and `selectedInstrumentId`.
- The calls the handler makes (`playNote`, `addParticle`, `addNote`, `stopNote`, `stopAll`) are recorded as an event log.
  - Each event carries the finger key it is about.
  - Per-finger behaviour is stated with `EventsFor(events, key)`.
- `HandleHandsDetected` mirrors the source:
  - `TrackHands` is the outer `forEach` over hands;
  - `TrackHand` is the inner `forEach` over fingers;
  - `SilenceHiddenSides` is the sweep over the map.
- It is proved equal to the specification function `Frame`. The frame lemmas state the source's promises about `Frame`.

**Engine.**
- Nodes live in an arena of oscillator and gain records. Each record carries its owning key and, for oscillators, its scheduled stop time.
- `activeOscillators` maps a key to the ids of its voice's nodes.
- `GraphValid` is the engine's invariant:
  - ids are in range and distinct;
  - every node of a voice belongs to that key;
  - every oscillator without a stop time belongs to a live voice (no orphan keeps sounding).
- Each method is proved to turn `Nodes()` into a specification function of the old graph (`StopVoice`, `PlayVoice`, `StopEverything`), and to keep `Valid()`.

**Pure files.** Particles, note history and the sidebar helpers are pure functions with lemmas.

### Behaviour of the code

- A finger triggers its note on the first frame in which it is raised (src/App.tsx:94-99).
- The threshold for fingers 1 to 4 is the constant 0.015 (src/constants/config.ts:60).
- The thumb uses four checks and a 3-of-4 vote (src/utils/handDetection.ts:44-112).

### Definitions the contracts are stated with

These functions define their result outright; their properties are stated by the members named in the table.
- `App.Flags`: the five flags of each hand, used by `TrackHands` and `Frame`.
- `AudioEngine.StopAt` and `AudioEngine.Released`: the oscillators with a stop time and the gains with a release appended. The loops `StopOscillators` and `ReleaseGains` compute them, and `StopVoiceEffect` states what they do to a voice.
- `AudioEngine.NewOscillators`, `AudioEngine.NewGains` and `AudioEngine.Ids`: the nodes and ids one `playNotes` creates. `CreateNodes` computes them, and `PlayVoiceNewVoice` states the new voice.
- `Sidebar.InstrumentsByCategory`: one group per category. `InstrumentsInCategoryMembership` and `InstrumentInItsGroup` state what the groups hold.
- `Sidebar.FormatDuration`, `Particles.IsParticleAlive`, `HandDetection.LandmarkPosition`, `HandDetection.IsWithinBounds` and `HandDetection.FingerKey` model `formatDuration`, `isParticleAlive`, `getLandmarkPosition`, `isWithinBounds` and `createFingerKey`. Their rows name the lemmas about them.

## Model

| member | source | states |
|---|---|---|
| JsArray.SliceStart | src/utils/particles.ts:86 | `slice`'s start index: a negative start counts from the end and is clamped at 0; a non-negative start is clamped at the length |
| JsArray.SliceFrom | src/hooks/useNoteHistory.ts:33 | `s.slice(start)` is a suffix of `s`, of length len − `SliceStart` |
| JsArray.KeepLast | src/hooks/useNoteHistory.ts:33 | keeping the last n: the length is min(len, n) and the result is a suffix of the input |
| JsArray.SliceNegativeIsKeepLast | src/utils/particles.ts:86 | for n ≥ 1, `slice(-n)` keeps exactly the last n |
| JsArray.SliceMinusZeroKeepsAll | src/utils/particles.ts:86 | `slice(-0)` is the whole array |
| JsArray.KeepLastAppend | src/hooks/useNoteHistory.ts:33 | appending one item and keeping the last n keeps the last n−1 old items, then the new one |
| HandDetection.PassedChecks | src/utils/handDetection.ts:111 | the count of passing checks is at most their number, and equals it iff every check passes |
| HandDetection.ThumbVote | src/utils/handDetection.ts:110-112 | the thumb flag (≥ 3 of 4 passing) holds iff some three of the four checks hold together, so two passing checks never raise it |
| HandDetection.FullyExtendedWithoutDivision | src/utils/handDetection.ts:61-62 | extension ratio > 2.0 iff cmcToTip > 2·(cmcToMCP + 0.001) |
| HandDetection.StraightWithoutDivision | src/utils/handDetection.ts:88-94 | cosine < −0.3 iff dot < −0.3·(magMcp·magTip + 0.001) |
| HandDetection.RaisedFingers | src/utils/handDetection.ts:13-126 | five flags, ordered thumb, index, middle, ring, pinky: flag 0 is the thumb vote; flag i (1..4) holds iff tip i is more than 0.015 above PIP i |
| HandDetection.DetectRaisedFingers | src/utils/handDetection.ts:13-126 | the push loop returns exactly five flags: the thumb vote first, then `tip.y < pip.y − 0.015` for fingers 1..4 with the fixed threshold; the result equals `RaisedFingers` |
| HandDetection.ClassificationIgnoresDepth | src/utils/handDetection.ts:50-106 | two hands whose landmarks agree on x and y get the same five flags, whatever their z |
| HandDetection.ClassificationIgnoresTranslation | src/utils/handDetection.ts:50-123 | moving a whole hand in the image plane does not change its flags |
| HandDetection.ThumbChecksIgnoreTranslation | src/utils/handDetection.ts:44-106 | each of the four thumb checks is invariant under translating all landmarks |
| HandDetection.FingerFlagReadsOnlyTipAndPip | src/utils/handDetection.ts:119-123 | flag i of fingers 1..4 depends only on the y of tip i and PIP i |
| HandDetection.FingertipPosition | src/utils/handDetection.ts:136-148 | the fingertip position is the landmark position of `FINGER_TIP_IDS[i]` |
| HandDetection.LandmarkPositionWithinBounds | src/utils/handDetection.ts:158-169 | a landmark with x, y in [0,1] on a canvas of non-negative size lands at `((1−x)·w, y·h)` inside `isWithinBounds` (lines 225-227) |
| HandDetection.WithinBoundsIffInFrame | src/utils/handDetection.ts:225-227 | on a canvas of positive size, `isWithinBounds(getLandmarkPosition(...))` holds iff the landmark lies in the unit square |
| HandDetection.LandmarkPositionInverse | src/utils/handDetection.ts:158-169 | on a canvas of positive size `getLandmarkPosition` is invertible: x = 1 − pos.x / w and y = pos.y / h |
| HandDetection.PositionMirrorsX | src/utils/handDetection.ts:164-168 | the x axis is mirrored: further right in the image is further left on the canvas |
| HandDetection.HandSide | src/utils/handDetection.ts:179-184 | the label "Left" maps to the left side, every other label to the right |
| HandDetection.UpToSeparator | src/utils/handDetection.ts:202 | the text before the first '_' is a prefix with no '_', followed by '_' when shorter than the key |
| HandDetection.AfterSeparator | src/utils/handDetection.ts:202 | the text after the first '_' exists iff the key contains '_', and splits the key back |
| HandDetection.ParseFingerKey | src/utils/handDetection.ts:201-204 | the parsed side name is a prefix of the key |
| HandDetection.SplitJoined | src/utils/handDetection.ts:192-204 | splitting `a + "_" + b` with no '_' in `a` gives back `a` and `b` |
| HandDetection.ParseFingerKeyRoundTrip | src/utils/handDetection.ts:192-204 | `parseFingerKey(createFingerKey(side, finger))` gives the side and finger names back |
| HandDetection.FingerKeyInjective | src/utils/handDetection.ts:192-194 | `createFingerKey` is injective: two keys are equal iff side and finger are, and a key's first field is its side's name |
| App.FindById | src/App.tsx:59 | `INSTRUMENTS.find`: present iff some id matches, and then the first matching instrument |
| App.FindInstrument | src/App.tsx:59 | the current instrument is in the list, has the selected id when one matches, and is `INSTRUMENTS[0]` for an unknown id |
| App.EventsFor | src/App.tsx:99-115 | the events about one key are no more than the log holds, and each is about that key |
| App.EventsForAppend | src/App.tsx:99-115 | filtering a concatenated log by key is filtering each part |
| App.Session.constructor | src/App.tsx:47-54 | not started, the default instrument, no active fingers, an empty map |
| App.Session.HandleHandsDetected | src/App.tsx:59-137 | with no canvas nothing changes and no event is emitted; otherwise the new map, key order, active set and events are `Frame` of the old map and the hands, played with the instrument `FindInstrument` picks for the selected id; nothing else changes |
| App.Session.TrackHands | src/App.tsx:83-120 | the hands loop: the state and events after all hands are the fold of the finger steps over each hand's flags |
| App.Session.TrackHand | src/App.tsx:88-119 | the finger loop of one hand: on a rise the key becomes active and gets note-on, particle and history; on a fall note-off; the map records the flag |
| App.Session.SilenceHiddenSides | src/App.tsx:123-134 | the sweep over the map in insertion order: a key still raised, not active and whose side has no hand gets note-off and is set to false |
| App.Session.VisitHand | src/App.tsx:84-119 | one hand: its flags are `detectRaisedFingers` of the hand, appended to the flags so far, and the state and events become the fold extended by that hand |
| App.Session.VisitFinger | src/App.tsx:89-118 | one finger: the map, key order, active set and events become the finger step of the old ones |
| App.Session.SilenceKey | src/App.tsx:124-133 | one key of the sweep: the map, active set and events become the sweep step of the old ones |
| App.Session.Start | src/App.tsx:199-201 | the session is started, and nothing else changes |
| App.Session.InstrumentChange | src/App.tsx:204-209 | selects the id, emits exactly one stop-all, empties the map and the active set |
| App.Session.GoHome | src/App.tsx:212-217 | emits exactly one stop-all, empties the map and the active set, and returns to the landing page; the instrument stays |
| App.KeysDiffer | src/App.tsx:89 | the keys of two fingers coincide iff side and finger index coincide |
| App.FingerStepEffect | src/App.tsx:89-118 | one finger step touches only its own key's map entry and emits only events about its key |
| App.HandsFoldLastOfSide | src/App.tsx:83-119 | after the hands loop, a key of a visible side holds the flag from the last hand of that side |
| App.HandsFoldLastHand | src/App.tsx:83-119 | after the hands loop, each key of the last hand's side holds that hand's flag |
| App.HandsFoldUntouched | src/App.tsx:83-119 | the hands loop leaves the map entries and events of a side with no hand untouched |
| App.SweepKey | src/App.tsx:123-134 | the sweep fires for a key exactly when it was raised, is not active and its side is absent |
| App.FrameOrderOk | src/App.tsx:118 | after a frame, the key order lists exactly the map's keys, each once |
| App.FrameLastHandOfSide | src/App.tsx:83-119 | after a frame, `prevStates[key]` is the raw flag of the last hand of that side, for all five fingers |
| App.FrameFingerRequests | src/App.tsx:91-116 | for the hand of its side: a finger is active iff raised; on a rise (previously false or absent) exactly one note-on, one particle at the fingertip and one history entry; on a fall exactly one note-off; otherwise no event |
| App.FrameAbsentSide | src/App.tsx:123-134 | a finger of an absent side that was raised gets exactly one note-off and is set to false; one that was not raised gets nothing and its entry is untouched |
| App.NoRetriggerWhileRaised | src/App.tsx:94-99 | a finger raised in two consecutive frames gets no event in the second |
| App.RetriggerAfterReset | src/App.tsx:204-217 | after the map is emptied, a finger still raised triggers again: three events, the first a note-on with its notes |
| AudioEngine.WaveformFor | src/utils/AudioEngine.ts:122-141 | triangle for drums; otherwise sawtooth iff 29/33, square iff 81/85, sine iff 4/48/89/94, triangle for every other program |
| AudioEngine.Clamp01 | src/utils/AudioEngine.ts:79 | the volume is clamped into [0,1]: unchanged inside, 0 below, 1 above |
| AudioEngine.DetuneSpacing | src/utils/AudioEngine.ts:171 | consecutive notes of a chord are detuned 5 cents apart |
| AudioEngine.DetuneCentre | src/utils/AudioEngine.ts:171 | `(i − n/2)·5` is centred on −2.5 cents: symmetric notes sum to −5, and a single note is −2.5 |
| AudioEngine.Envelope | src/utils/AudioEngine.ts:176-187 | each gain gets three scheduled points |
| AudioEngine.EnvelopeShape | src/utils/AudioEngine.ts:176-187 | start at 0 now; peak volume·0.5 after the attack (0.001 drums, 0.02 otherwise); then max(sustain, 0.001) after the decay (0.05 / 0.1), sustain volume·0.2 for drums and volume·0.3 otherwise; the times never decrease and the exponential target is positive |
| AudioEngine.DecayFalls | src/utils/AudioEngine.ts:181-187 | the decay falls from the peak for volumes ≥ 0.002, and rises for smaller volumes because of the 0.001 floor |
| AudioEngine.ReleaseShape | src/utils/AudioEngine.ts:211-226 | the release ramps to 0.001 over 0.05 s (drums) or 0.3 s, before the stop at now + release + 0.01 |
| AudioEngine.StopVoiceEffect | src/utils/AudioEngine.ts:207-233 | `stopNotes` removes only its key, keeps every other voice and its nodes, stops each of the voice's oscillators at now + (0.05 drums / 0.3) + 0.01, and keeps the graph valid |
| AudioEngine.StopVoiceValid | src/utils/AudioEngine.ts:207-233 | `stopNotes` keeps the graph valid and the key has no voice afterwards |
| AudioEngine.StartVoiceValid | src/utils/AudioEngine.ts:164-201 | registering a new voice for a key without one keeps the graph valid |
| AudioEngine.FreshVoiceValid | src/utils/AudioEngine.ts:164-201 | appending fresh nodes owned by a new key and mapping the key to them keeps the graph valid |
| AudioEngine.PlayVoiceValid | src/utils/AudioEngine.ts:153-202 | `playNotes` keeps the graph valid, adds its key and changes no other voice |
| AudioEngine.PlayVoiceNewVoice | src/utils/AudioEngine.ts:164-201 | the key's new voice has one oscillator and one gain per note, in note order, with the note, detune, start time and envelope |
| AudioEngine.PlayVoiceStopsOld | src/utils/AudioEngine.ts:157 | a voice the key already had is stopped and released first |
| AudioEngine.StopVoiceKeepsStopEverything | src/utils/AudioEngine.ts:238-240 | stopping one key first does not change what stopping all ends in, so the key order of `stopAll` does not matter |
| AudioEngine.StopEverythingDone | src/utils/AudioEngine.ts:238-240 | with no voices, `stopAll` changes nothing |
| AudioEngine.StopEverythingEffect | src/utils/AudioEngine.ts:238-240 | after `stopAll` there is no voice and no sounding oscillator, and exactly the old voices' gains are released |
| AudioEngine.ReleaseGains | src/utils/AudioEngine.ts:214-222 | the gains loop computes `Released` |
| AudioEngine.StopOscillators | src/utils/AudioEngine.ts:224-230 | the oscillators loop computes `StopAt` |
| AudioEngine.CreateNodes | src/utils/AudioEngine.ts:164-198 | the `forEach` pushes one oscillator and one gain per note and returns their ids |
| AudioEngine.AudioEngine.constructor | src/utils/AudioEngine.ts:14-22 | no context, no master gain, not initialised, no voices, instrument 0, no drums |
| AudioEngine.AudioEngine.Initialize | src/utils/AudioEngine.ts:37-62 | a second call does nothing; otherwise with a context the engine becomes initialised with master gain 0.3; without one nothing changes and the failure is reported |
| AudioEngine.AudioEngine.SetVolume | src/utils/AudioEngine.ts:76-83 | with a master gain its value becomes the volume clamped into [0,1]; without one nothing changes |
| AudioEngine.AudioEngine.SetInstrument | src/utils/AudioEngine.ts:114-117 | sets the program and the drum flag only |
| AudioEngine.AudioEngine.StopNotes | src/utils/AudioEngine.ts:207-233 | with a context the graph becomes `StopVoice`; for an inactive key or with no context nothing changes; the key has no voice afterwards |
| AudioEngine.AudioEngine.PlayNotes | src/utils/AudioEngine.ts:153-202 | with a context and a master gain the graph becomes `PlayVoice` with the current waveform; otherwise nothing changes |
| AudioEngine.AudioEngine.StopAll | src/utils/AudioEngine.ts:238-240 | the graph becomes `StopEverything` and the voice map is empty |
| AudioEngine.AudioEngine.StopVoiceOf | src/utils/AudioEngine.ts:239 | one turn of the `stopAll` loop: the key loses its voice, the graph stays valid and what stopping all ends in is unchanged |
| AudioEngine.AudioEngine.Dispose | src/utils/AudioEngine.ts:245-254 | stops everything, then drops the context and the master gain, and is not initialised |
| Particles.CreateParticle | src/utils/particles.ts:15-34 | life = maxLife = 60, size 20, the given position, colour and note; for draws in [0,1), vx is in [−3, 3) and vy in (−9, −4] |
| Particles.UpdateParticle | src/utils/particles.ts:41-53 | life drops by exactly 1; id, colour, note and maxLife are kept (the motion is stated by the three lemmas below) |
| Particles.GetParticleOpacity | src/utils/particles.ts:69-71 | the opacity is in (0,1] while 0 < life ≤ maxLife, and 1 at full life |
| Particles.UpdateTimesEffect | src/utils/particles.ts:44-51 | after k updates: life − k, vy + 0.15·k, size + 1.2·k, identity fields unchanged |
| Particles.UpdateTimesDrag | src/utils/particles.ts:48 | after k updates the x velocity is vx·0.98^k |
| Particles.UpdateTimesDriftX | src/utils/particles.ts:44-48 | after k updates x has advanced by the geometric sum vx·(1 − 0.98^k)/(1 − 0.98) |
| Particles.UpdateTimesFall | src/utils/particles.ts:45-49 | after k updates y has advanced by k·vy + 0.15·k(k−1)/2 |
| Particles.AliveAfterUpdates | src/utils/particles.ts:60-62 | `isParticleAlive` holds after k updates iff k is less than the life the particle had |
| Particles.FreshParticleLifetime | src/utils/particles.ts:15-71 | a new particle is alive for exactly its first 60 states, with opacity in (0,1] while alive |
| Particles.Survivors | src/utils/particles.ts:83-85 | `map(updateParticle).filter(isParticleAlive)`: no longer than the input, all alive |
| Particles.SurvivorsAppend | src/utils/particles.ts:83-85 | map-filter never reorders |
| Particles.SurvivorsMembership | src/utils/particles.ts:83-85 | exactly the updated particles that are alive survive |
| Particles.UpdateParticles | src/utils/particles.ts:79-87 | at most `maxParticles`, all alive, exactly the last min(survivors, max) survivors in their order |
| Particles.UpdateParticlesAsWritten | src/utils/particles.ts:79-87 | the code as written: every returned particle is alive |
| Particles.UpdateParticlesAsWrittenAgrees | src/utils/particles.ts:79-87 | for every cap ≥ 1 the code as written equals `UpdateParticles` |
| Particles.UpdateParticlesZeroCapKeepsAll | src/utils/particles.ts:86 | with cap 0 the code as written returns a live particle; the capped model returns none |
| Particles.CreateParticleBurst | src/utils/particles.ts:97-104 | exactly `count` particles (none for a negative count), all at the given position with the given colour and note; the application has no caller of it |
| NoteHistory.AddItem | src/hooks/useNoteHistory.ts:33 | at most 15 items, the new one last, preceded by the last 14 old ones in order; with fewer than 15 before, exactly one is appended |
| NoteHistory.AddNote | src/hooks/useNoteHistory.ts:18-34 | the new last item carries the given note, hand, finger and colour; the length is at most 15; the rest are the most recent old items in order; nothing is dropped below 15 |
| NoteHistory.ClearHistory | src/hooks/useNoteHistory.ts:36-38 | the empty list |
| NoteHistory.AddAllKeepsLastFifteen | src/hooks/useNoteHistory.ts:33 | after any number of additions, the history is the last 15 of everything seen, in order |
| Sidebar.NatToString | src/components/panels/Sidebar.tsx:58 | decimal digits only, at least one, fewer than three iff below 100 |
| Sidebar.NatToStringRoundTrip | src/components/panels/Sidebar.tsx:58 | reading the digits back gives the number |
| Sidebar.PadStart | src/components/panels/Sidebar.tsx:58 | `padStart` never truncates: the length is max(len, width), the text is a suffix, the rest is the pad character |
| Sidebar.LeadingZerosValue | src/components/panels/Sidebar.tsx:58 | leading zeros do not change the value |
| Sidebar.TwoDigitField | src/components/panels/Sidebar.tsx:58 | a number below 100 pads to two digits that read back as the number |
| Sidebar.FormatDurationFields | src/components/panels/Sidebar.tsx:56-58 | the minutes field is the padded `floor(s/60)`, the seconds field the padded `s % 60` |
| Sidebar.FormatDurationZero | src/components/panels/Sidebar.tsx:55-59 | `formatDuration(0)` is "00:00" |
| Sidebar.FormatDurationShape | src/components/panels/Sidebar.tsx:56-58 | for s < 6000 the text has 5 characters: two digits, ':', two digits |
| Sidebar.FormatDurationReadBack | src/components/panels/Sidebar.tsx:55-59 | `formatDuration(s)`: both fields are decimal digits, and the minutes m and seconds c read back satisfy m·60 + c = s and 0 ≤ c < 60 |
| Sidebar.FormatDurationWide | src/components/panels/Sidebar.tsx:58 | for s ≥ 6000 the minutes field has more than two digits (no truncation) |
| Sidebar.InstrumentsInCategory | src/components/panels/Sidebar.tsx:94 | the filter keeps only instruments of that category |
| Sidebar.InstrumentsInCategoryMembership | src/components/panels/Sidebar.tsx:94 | an instrument is in a group iff it is in the list with that category |
| Sidebar.InstrumentsInCategoryAppend | src/components/panels/Sidebar.tsx:94 | the filter preserves the order of `INSTRUMENTS` |
| Sidebar.InstrumentInItsGroup | src/components/panels/Sidebar.tsx:92-95 | an instrument whose category is the k-th one is in group k and in no other group |
| Sidebar.EmptyGroup | src/components/panels/Sidebar.tsx:92-95 | a group is empty iff no instrument has its category |
| Sidebar.InstrumentInAtMostOneGroup | src/components/panels/Sidebar.tsx:73-95 | the sixteen category ids are distinct, so an instrument lies in at most one group |

## Left out

- Hand tracking and the camera (MediaPipe) are outside the model. Hands arrive as values. Because the tracker drops hands without a handedness label, every modelled hand carries one.
- Euclidean distance (`Math.sqrt`, and `calculateDistance`) is the parameter `norm`, assumed non-negative. Nothing more is assumed of it.
- Floating point is modelled as exact reals, so rounding in the thumb checks, ramps and particle motion is not modelled.
- `midiToFrequency` (src/utils/AudioEngine.ts:146-148) uses a fractional power. Oscillators record their MIDI note rather than a frequency.
- The Web Audio graph is modelled as values:
  - the AudioContext and compressor settings, node connections, `resume`, and the audio clock (passed in as `now`);
  - ramps are recorded as scheduled points, not evaluated;
  - if creating the context fails part-way, some fields may already be set; this is not modelled;
  - `createRecordingDestination` and `disconnectRecordingDestination` (src/utils/AudioEngine.ts:88-109) and the `getAudioEngine` singleton (src/utils/AudioEngine.ts:258-265) are not part of this model.
- AudioEngine.AudioEngine.SetVolume: the audio-clock time at which the new gain takes effect is not modelled. Only the value is.
- AudioEngine.AudioEngine.StopAll stops the keys in an unspecified order rather than the map's insertion order. `StopVoiceKeepsStopEverything` shows that the order cannot change the result.
- The preset tables are data (src/constants/instruments.ts, instrumentMappings.ts, chords.ts). The instrument list is a parameter, and notes are always a sequence of MIDI numbers. Presets that name a chord missing from the chord library yield `undefined` notes in the source; this failure is not modelled.
- `Math.random`, `Date.now` and the generated ids are parameters: the `Draw` records of particles, and the ids and timestamps of history items.
- The calls `playNote`, `addParticle`, `addNote`, `stopNote` and `stopAll` in src/App.tsx are recorded as events, not executed. The volume scaling and drum flag of src/hooks/useAudioEngine.ts are not part of this model.
- Rendering, React state plumbing, settings persistence, the recorder, the UI components, and `setInterval`-driven particle state are not part of this model.
- App.FrameFingerRequests, App.NoRetriggerWhileRaised and App.RetriggerAfterReset assume the hand is the only one of its side in that frame. With two hands of the same side, events from the earlier hand also appear. App.FrameLastHandOfSide states the map's entry in general.
- The default arguments `volume = 0.5` (src/utils/AudioEngine.ts:153), `maxParticles = 100` (src/utils/particles.ts:81) and `count = 3` (src/utils/particles.ts:101) are not modelled. Every modelled call passes the argument explicitly.
- Hands are required to carry at least 21 landmarks (`HandDetection`, `App.AllTracked`). The TypeError a shorter landmark list would raise is not modelled.
- `addParticle` (src/hooks/useParticles.ts:28-32) is not part of this model. The frame handler records the call as an `AddParticle` event with the position, colour and note.
- `INSTRUMENTS` (src/constants/instruments.ts) is not part of this model: `HandleHandsDetected` takes the list as a non-empty parameter.

## Findings

| source | as written | input that shows it | evidently intended | confidence | as-written member | corrected member |
|---|---|---|---|---|---|---|
| src/utils/particles.ts:79-87 | `updateParticles` caps with `slice(-maxParticles)`, and `slice(-0)` is `slice(0)`, so a cap of 0 keeps every survivor | `maxParticles = 0` and one particle with life ≥ 2: one particle comes back | at most `maxParticles` particles, so none for a cap of 0 | not executed | Particles.UpdateParticlesZeroCapKeepsAll | Particles.UpdateParticles |
