# Three-octave pitch arrangement of ddt-piano, in Dafny

ddt-piano plays a score on another application by pressing keys. Before
playing, the Tauri back end arranges the score so that every pitch fits the
three playable octaves C2..C5 (MIDI 36..72). This project models that
arrangement and the character-to-key-code table used to press the keys, and
proves what they do.

- `KeyNames` (key_names.dfy) is the key-name codec of `src-tauri/src/arrange.rs`.
  A name is a letter from c d e f g a b, then a signed octave, then an optional
  trailing `b` that marks a sharp. `KeyNameToMidi` decodes a name and
  `MidiNoteToKeyName` encodes a MIDI number.
- `Arrange` (arrange.dfy) holds the octave fold and the score transform.
  `MapNote` is the `map_note` closure with its two `while` loops. It is proved
  equal to the closed form `FoldIntoWindow`.
  `ApplyThreeOctaveArrangement` is the `for`-loop transform. Its inner loop
  over one note's keys is written as the method `ArrangeKeyNames`, which is
  proved equal to `ArrangeKeys`. The outer loop is proved equal to
  `ArrangeScore`, which is built from `ArrangeKeys`, `ArrangeNote` and
  `ArrangeNotes`. The lemmas about the transform are stated over these
  definitions.
- `VirtualKeys` (virtual_keys.dfy) is `get_virtual_key_code` of
  `src-tauri/src/main.rs`. `GetVirtualKeyCode` fills a map with the 44 entries
  one by one and then looks up the lower-cased character. It is proved equal to
  `VirtualKeyCode`, which reads the same entries from three tables (digits,
  letters, punctuation). `TableCodeByClass` then states the table by character
  class.
- `RustInt` (rust_int.dfy) holds the Rust integer behaviour the codec depends
  on: the u8/u16/u32/i32 ranges, the truncating `as u8` cast,
  `format!("{}", i32)` and `str::parse::<i32>`. `Wrappers` holds `Option`.

Behaviour worth knowing, all taken from the code:

- The sharp marker counts only when the name has more than two characters.
  So `"cb"` reads the octave `"b"` and fails to decode.
- `str::parse::<i32>` accepts a leading `+`, so `"c+4"` decodes like `"c4"`.
  Leading zeros are accepted too (see `SignedOctaveExample`).
- `((octave + 1) * 12) as u8` keeps only the low byte. 256 is not a multiple of
  12, so an octave outside -1..20 can change the pitch class. `"c30"` decodes to
  116 (G#8) and is arranged as `"g4b"` (see `ByteCastChangesPitchClass`).
- A note that is not a rest and has no key list produces no output note.
  Rests and keyed notes produce exactly one each. This follows the code
  (arrange.rs:66-100). So the output can have fewer notes than the input.
- The encoder works on every u8 (0..255), not only on 0..127.
- Arranging twice gives the same score as arranging once
  (`ArrangeScoreIdempotent`). This holds exactly, with no renaming of keys.

## Model

| member | source | states |
|---|---|---|
| `KeyNames.KeyNameToMidi` | src-tauri/src/arrange.rs:111-151 | Decoding succeeds exactly for a name with a letter from c d e f g a b and an octave text that parses as an i32. |
| `KeyNames.KeyNameToMidiFailures` | src-tauri/src/arrange.rs:124-145 | Decoding fails on an empty name, on a first character other than c d e f g a b, on an empty octave text, and on an octave text that does not parse as an i32. |
| `KeyNames.KeyNameToMidiValue` | src-tauri/src/arrange.rs:147-150 | The value is (octave + 1) * 12 plus the letter's pitch class plus one for a sharp, modulo 256. For octaves -1..20 it is exactly that sum. |
| `KeyNames.MidiNoteToKeyName` | src-tauri/src/arrange.rs:26-39 | The name of a pitch is at least two characters long and starts with a letter of the note table (`NOTE_NAMES[midi % 12]`). The octave `midi / 12 - 1` follows in decimal. The name ends in `b` exactly for the sharp pitch classes 1, 3, 6, 8 and 10. `KeyNameSpelling` and `KeyNameRoundTrip` state how the decoder reads it. |
| `KeyNames.KeyNameSpelling` | src-tauri/src/arrange.rs:26-39 | The name written for a pitch starts with the table letter of `midi % 12`. The decoder sees the sharp marker exactly when that pitch class is a sharp, and reads the octave text as the decimal form of `midi / 12 - 1`. |
| `KeyNames.KeyNameRoundTrip` | src-tauri/src/arrange.rs:111-151 | For every u8, decoding the encoded name stays clear of overflow and gives back the same number. |
| `KeyNames.MidiNoteToKeyNameInjective` | src-tauri/src/arrange.rs:26-38 | Two different pitches never get the same name. |
| `KeyNames.EncodeExamples` | src-tauri/src/arrange.rs:158-163 | The unit test values: 36 is "c2", 60 is "c4", 61 is "c4b" and 72 is "c5". |
| `KeyNames.DecodeExamples` | src-tauri/src/arrange.rs:166-171 | The unit test values: "c2" is 36, "c4" is 60, "c4b" is 61 and "c5" is 72. |
| `KeyNames.ShortNameIsNeverSharp` | src-tauri/src/arrange.rs:134-145 | "cb" has no sharp marker, reads the octave text "b" and fails. "c-1" decodes to 0. |
| `KeyNames.SignedOctaveExample` | src-tauri/src/arrange.rs:145 | "c+4" decodes to 60 and "c04b" to 61: the octave parser takes a plus sign and leading zeros. |
| `KeyNames.ByteCastWrapsOctave` | src-tauri/src/arrange.rs:148 | "c30" decodes to 116, the low byte of 372. |
| `KeyNames.SharpNameExample` | src-tauri/src/arrange.rs:26-39 | 68 is written "g4b". |
| `KeyNames.OutOfWindowNames` | src-tauri/src/arrange.rs:174-205 | "c6" decodes to 84 and "c1" to 24. |
| `RustInt.CastToU8` | src-tauri/src/arrange.rs:148 | `as u8` gives a byte congruent to its argument modulo 256, and leaves 0..255 unchanged. |
| `RustInt.I32ToString` | src-tauri/src/arrange.rs:38 | `format!("{}", n)` for an i32 ends in a decimal digit and starts with `-` exactly when `n` is negative. `ParseI32RoundTrip` shows the text reads back as `n`. |
| `RustInt.ParseI32RoundTrip` | src-tauri/src/arrange.rs:145 | Parsing the decimal text `format!` writes for an i32 gives that i32 back. |
| `RustInt.ParseI32` | src-tauri/src/arrange.rs:145 | A text that parses is non-empty and ends with a digit. |
| `RustInt.ParseI32Examples` | src-tauri/src/arrange.rs:145 | "+4" and "04" parse to 4 and "-12" to -12. The empty text, a lone sign and "4b" do not parse. |
| `Arrange.FoldIntoWindow` | src-tauri/src/arrange.rs:47-61 | The folded pitch lies in [36, 72] and keeps the pitch class. A pitch already in the window is unchanged. A raised pitch lands in 36..47, below 72, so the downward loop never runs after the upward one. A lowered pitch lands in 61..72. |
| `Arrange.FoldIntoWindowUnique` | src-tauri/src/arrange.rs:47-61 | Any value that keeps those five promises equals the fold, so the contract fixes the result. |
| `Arrange.MapNote` | src-tauri/src/arrange.rs:47-61 | The two u8 loops never overflow, terminate, and return exactly the fold. |
| `Arrange.KeysDecodeWithoutOverflowIff` | src-tauri/src/arrange.rs:76-77 | The overflow-free domain of a key list is exactly the lists whose every key stays clear of the decoder's overflow checks. |
| `Arrange.ArrangeKeys` | src-tauri/src/arrange.rs:74-81 | A note never gains keys. |
| `Arrange.ArrangeNote` | src-tauri/src/arrange.rs:66-99 | A rest is copied unchanged. A non-rest note without a key list gives nothing. Any other note gives one note with the same start and end times. That note has rest unset and the arranged keys when at least one key decodes. Otherwise it has no keys and rest set to true. |
| `Arrange.ArrangeNotes` | src-tauri/src/arrange.rs:64-100 | There are never more output notes than input notes. |
| `Arrange.ArrangeScore` | src-tauri/src/arrange.rs:102-107 | Song, bpm and total time are copied unchanged. The notes are the arranged notes. |
| `Arrange.ArrangeKeyNames` | src-tauri/src/arrange.rs:74-81 | The loop over one note's keys, pushing the re-encoded fold of each decodable key, builds exactly `ArrangeKeys(keys)`. |
| `Arrange.ApplyThreeOctaveArrangement` | src-tauri/src/arrange.rs:45-108 | The loop over the notes, with the key loop above inside it, builds exactly `ArrangeScore(score)`. |
| `Arrange.ArrangeKeysStep` | src-tauri/src/arrange.rs:76-81 | One pass of the key loop: a last key that decodes adds the name of its folded pitch to the output and to the decodable keys, and any other last key adds nothing to either. |
| `Arrange.ArrangeKeysFoldsDecodableKeys` | src-tauri/src/arrange.rs:76-81 | There is one output key per decodable input key, in order. The i-th output key decodes to the fold of the i-th decodable key's pitch, which lies in [36, 72] and has the same pitch class. |
| `Arrange.ArrangeKeysEmpty` | src-tauri/src/arrange.rs:83-98 | No key survives exactly when no key decodes. |
| `Arrange.AllWindowNamesIff` | src-tauri/src/arrange.rs:76-81 | A key list is all window names exactly when each key is the canonical name of a pitch in [36, 72]. |
| `Arrange.ArrangeKeysWritesWindowNames` | src-tauri/src/arrange.rs:76-81 | Every written key is the canonical name of a pitch in [36, 72]. |
| `Arrange.ArrangeKeysFixesWindowNames` | src-tauri/src/arrange.rs:76-81 | Keys that are already canonical names of window pitches decode safely and pass through unchanged. |
| `Arrange.ArrangeNotesAppend` | src-tauri/src/arrange.rs:64-100 | Arranging a concatenation is the concatenation of the arrangements, so output order follows input order. |
| `Arrange.ArrangeNotesMapsKeptNotes` | src-tauri/src/arrange.rs:66-100 | The output is the kept notes (rests and notes with a key list), each arranged on its own, in input order. |
| `Arrange.ArrangeNotesKeepsCount` | src-tauri/src/arrange.rs:66-100 | When every note is a rest or has a key list, the output has the same length and note i comes from input note i. |
| `Arrange.ArrangedNoteIsPlayable` | src-tauri/src/arrange.rs:66-99 | The output of one note is a rest, or a non-rest note with a non-empty key list of canonical window names. |
| `Arrange.ArrangedNotesArePlayable` | src-tauri/src/arrange.rs:64-100 | Every output note is a rest, or a non-rest note with a non-empty key list of canonical window names. |
| `Arrange.PlayableNoteIsFixed` | src-tauri/src/arrange.rs:66-99 | Arranging such a playable note gives it back unchanged. |
| `Arrange.ArrangeNotesIdempotent` | src-tauri/src/arrange.rs:64-100 | Arranging arranged notes changes nothing. |
| `Arrange.ArrangeScoreIdempotent` | src-tauri/src/arrange.rs:45-108 | Arranging an arranged score gives the same score. |
| `Arrange.ArrangeKeyExamples` | src-tauri/src/arrange.rs:200-204 | "c6" becomes "c5", "c1" becomes "c2", and "c4" stays "c4". |
| `Arrange.ArrangeExample` | src-tauri/src/arrange.rs:174-205 | The two-note test score is arranged to the notes "c5" and "c2" with their times. |
| `Arrange.ArrangeInWindowExample` | src-tauri/src/arrange.rs:207-229 | The one-note "c4" score is unchanged. |
| `Arrange.ByteCastChangesPitchClass` | src-tauri/src/arrange.rs:148 | "c30" decodes to 116 and is arranged as "g4b": the byte cast changes the pitch class. |
| `VirtualKeys.GetVirtualKeyCode` | src-tauri/src/main.rs:22-76 | The 44 inserts followed by the lower-cased lookup give exactly `VirtualKeyCode`: the entry of the lower-cased character in the digit, letter or punctuation table. |
| `VirtualKeys.TableCodeByClass` | src-tauri/src/main.rs:26-73 | The table by character class: '0'..'9' get 0x30..0x39 in order, 'a'..'z' get 0x41..0x5A in order, and any other character gets its punctuation entry, if any. |
| `VirtualKeys.ToAsciiLowercase` | src-tauri/src/main.rs:75 | Only 'A'..'Z' change, each to its lower-case letter. |
| `VirtualKeys.UppercaseSharesCode` | src-tauri/src/main.rs:75 | An upper-case letter gets the code of its lower-case form, which is the code of that capital. |
| `VirtualKeys.VirtualKeyCodeDomain` | src-tauri/src/main.rs:26-75 | A character has a code exactly when its lower-case form is one of the 44 table characters. Every code is one the table lists. |
| `VirtualKeys.VirtualKeyCodeInjective` | src-tauri/src/main.rs:26-73 | Two characters with the same code are the same character up to case. |

## Left out

- `KeyNames.KeyNameToMidi`: a name whose `(octave + 1) * 12` overflows i32, or whose byte plus `note_in_octave` overflows u8 (such as "b20"), is excluded by the precondition `DecodesWithoutOverflow`. Debug builds panic there and release builds wrap. Neither is modelled. So `ArrangeScore` and `ApplyThreeOctaveArrangement` require this of every key of every non-rest note. The `as u8` truncation itself never panics and is modelled.
- The f64 fields `start_time`, `end_time` and `total_time` are modelled as `real`. They are only copied, so no floating-point behaviour is involved.
- serde (de)serialisation of `Score` and `ScoreNote` is not modelled. The model starts from the decoded records.
- Rust strings are UTF-8. The model uses sequences of Unicode scalar values, which is what `chars()` yields.
- The Win32 and OS code of main.rs is not modelled: window lookup, focusing, key presses and releases, the `TARGET_HWND` mutex, process listing, and the Tauri commands and builder. These are foreign calls and global state.
- src/lib/yaml.ts, src/lib/interface.ts, src/lib/constants.ts and the release scripts under scripts/ are not part of this model. They hold UI data, type declarations, and file and git I/O unrelated to the arrangement.
