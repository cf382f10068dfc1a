/**
 * The value types the core passes around (src/types/index.ts). None of them
 * is mutated: a hand is superseded by the next frame's hands, and a preset is
 * static data that the model takes as a parameter.
 */
module Types {

  /** One landmark in normalised camera coordinates (z is relative depth). */
  datatype Landmark = Landmark(x: real, y: real, z: real)

  /** One tracked hand. The tracker drops hands without a handedness label,
      so a label is always present, but it is a free string: only "Left" is
      treated specially. */
  datatype Hand = Hand(landmarks: seq<Landmark>, handedness: string)

  datatype Side = Left | Right
  datatype Finger = Thumb | Index | Middle | Ring | Pinky

  /** A point on the canvas, or in the image plane. */
  datatype Position = Position(x: real, y: real)

  /** What one finger of one hand plays: a display name, its MIDI notes and
      a colour. */
  datatype NoteConfig = NoteConfig(name: string, notes: seq<int>, color: string)

  datatype FingerMapping = FingerMapping(thumb: NoteConfig, index: NoteConfig, middle: NoteConfig,
                                         ring: NoteConfig, pinky: NoteConfig)

  /** One instrument: its id, display name, GM category, MIDI program number
      and the mappings of both hands. */
  datatype InstrumentPreset = InstrumentPreset(id: string, name: string, category: string, instrument: int,
                                               left: FingerMapping, right: FingerMapping)

  /** `instrument[handSide][fingerName]`. */
  function NoteFor(preset: InstrumentPreset, side: Side, finger: Finger): NoteConfig {
    var mapping := if side == Left then preset.left else preset.right;
    match finger
    case Thumb => mapping.thumb
    case Index => mapping.index
    case Middle => mapping.middle
    case Ring => mapping.ring
    case Pinky => mapping.pinky
  }
}
