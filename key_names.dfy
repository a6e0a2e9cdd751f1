/**
 * The key-name codec of the arrangement (arrange.rs): a key name is a
 * natural letter, a signed octave number, and an optional trailing 'b'
 * that marks a sharp ("c4" is MIDI 60, "c4b" is 61, "c-1" is 0).
 */
module KeyNames {
  import opened Wrappers
  import opened RustInt

  /** `note_map` (arrange.rs:112-120): the pitch class of each natural letter. */
  const NOTE_MAP: map<char, u8> := map['c' := 0, 'd' := 2, 'e' := 4, 'f' := 5, 'g' := 7, 'a' := 9, 'b' := 11]

  /** `note_names` (arrange.rs:27): the letter written for each pitch class. */
  const NOTE_NAMES: seq<char> := ['c', 'c', 'd', 'd', 'e', 'f', 'f', 'g', 'g', 'a', 'a', 'b']

  /** `is_sharp` (arrange.rs:28-30): the pitch classes written as the sharp of the letter below. */
  const IS_SHARP: seq<bool> := [false, true, false, true, false, false, true, false, true, false, true, false]

  /** The decoder's sharp rule: more than two characters and a final 'b'. */
  predicate IsSharpName(name: string) {
    |name| > 2 && name[|name| - 1] == 'b'
  }

  /** The characters between the letter and the sharp marker, if any. */
  function OctaveText(name: string): string
    requires |name| > 0
  {
    name[1..if IsSharpName(name) then |name| - 1 else |name|]
  }

  /** The name has a known letter and an octave that parses as an i32. */
  predicate IsKeyName(name: string) {
    |name| > 0 && name[0] in NOTE_MAP && ParseI32(OctaveText(name)).Some?
  }

  function Octave(name: string): i32
    requires IsKeyName(name)
  {
    ParseI32(OctaveText(name)).value
  }

  /** `note_in_octave`: the letter's pitch class, plus one for a sharp. */
  function NoteInOctave(name: string): int
    requires IsKeyName(name)
  {
    NOTE_MAP[name[0]] + if IsSharpName(name) then 1 else 0
  }

  /**
   * The arithmetic `((octave + 1) * 12) as u8 + note_in_octave` neither
   * overflows the i32 product nor the u8 sum (both are checked in Rust).
   */
  predicate DecodesWithoutOverflow(name: string) {
    IsKeyName(name) ==>
      var scaled := (Octave(name) + 1) * 12;
      I32_MIN <= scaled <= I32_MAX && CastToU8(scaled) + NoteInOctave(name) < 0x100
  }

  /** `key_name_to_midi`: a value exactly for the names with a letter and an i32 octave. */
  function KeyNameToMidi(name: string): (r: Option<u8>)
    requires DecodesWithoutOverflow(name)
    ensures r.Some? <==> IsKeyName(name)
  {
    if |name| == 0 then None
    else if name[0] !in NOTE_MAP then None
    else
      var baseNote := NOTE_MAP[name[0]];
      var isSharp := IsSharpName(name);
      var octaveText := OctaveText(name);
      if octaveText == [] then None
      else match ParseI32(octaveText)
        case None => None
        case Some(octave) =>
          var noteInOctave := baseNote + if isSharp then 1 else 0;
          Some(CastToU8((octave + 1) * 12) + noteInOctave)
  }

  /**
   * Decoding fails on an empty name, on a first character that is not one of
   * c d e f g a b, on an empty octave text, and on an octave text that is not
   * an i32.
   */
  lemma KeyNameToMidiFailures(name: string)
    requires DecodesWithoutOverflow(name)
    ensures name == [] ==> KeyNameToMidi(name).None?
    ensures |name| > 0 && name[0] !in NOTE_MAP ==> KeyNameToMidi(name).None?
    ensures |name| > 0 && OctaveText(name) == [] ==> KeyNameToMidi(name).None?
    ensures |name| > 0 && ParseI32(OctaveText(name)).None? ==> KeyNameToMidi(name).None?
  {
  }

  /**
   * The decoded value is (octave + 1) * 12 plus the letter's pitch class plus
   * one for a sharp, modulo 256; for the octaves -1..20, whose product fits in
   * a byte, it is exactly that sum.
   */
  lemma KeyNameToMidiValue(name: string)
    requires DecodesWithoutOverflow(name) && IsKeyName(name)
    ensures KeyNameToMidi(name).value == ((Octave(name) + 1) * 12 + NoteInOctave(name)) % 0x100
    ensures -1 <= Octave(name) <= 20 ==> KeyNameToMidi(name).value == (Octave(name) + 1) * 12 + NoteInOctave(name)
  {
    var scaled := (Octave(name) + 1) * 12;
    assert KeyNameToMidi(name) == Some(CastToU8(scaled) + NoteInOctave(name));
    CastToU8Add(scaled, NoteInOctave(name));
  }

  /**
   * `midi_note_to_key_name`: a letter of the note table, the octave in
   * decimal, and a trailing 'b' exactly for the five sharp pitch classes.
   * KeyNameSpelling and KeyNameRoundTrip state how the decoder reads it.
   */
  function MidiNoteToKeyName(midi: u8): (name: string)
    ensures |name| >= 2 && name[0] in NOTE_MAP
    ensures (name[|name| - 1] == 'b') == IS_SHARP[midi % 12]
  {
    var noteIndex := midi % 12;
    var octave := midi / 12 - 1;
    [NOTE_NAMES[noteIndex]] + I32ToString(octave) + if IS_SHARP[noteIndex] then "b" else ""
  }

  /**
   * How the decoder reads a written name: its letter is the table letter of
   * the pitch class, it carries the sharp marker (and so has more than two
   * characters) exactly for the five sharp classes, and its octave text is
   * the decimal form of midi / 12 - 1.
   */
  lemma KeyNameSpelling(midi: u8)
    ensures var name := MidiNoteToKeyName(midi);
      |name| > 0 && name[0] == NOTE_NAMES[midi % 12] &&
      IsSharpName(name) == IS_SHARP[midi % 12] &&
      OctaveText(name) == I32ToString(midi / 12 - 1)
  {
    var name := MidiNoteToKeyName(midi);
    var digits := I32ToString(midi / 12 - 1);
    if IS_SHARP[midi % 12] {
      assert name[1..|name| - 1] == digits;
    } else {
      assert name[1..] == digits;
    }
  }

  /** The letter table and the sharp table together spell every pitch class. */
  lemma SpellingMatchesNoteMap(pc: int)
    requires 0 <= pc < 12
    ensures NOTE_NAMES[pc] in NOTE_MAP
    ensures NOTE_MAP[NOTE_NAMES[pc]] + (if IS_SHARP[pc] then 1 else 0) == pc
  {
  }

  /** Decoding the name written for any u8 gives that u8 back. */
  lemma {:induction false} KeyNameRoundTrip(midi: u8)
    ensures DecodesWithoutOverflow(MidiNoteToKeyName(midi))
    ensures KeyNameToMidi(MidiNoteToKeyName(midi)) == Some(midi)
  {
    var name := MidiNoteToKeyName(midi);
    var octave := midi / 12 - 1;
    KeyNameSpelling(midi);
    ParseI32RoundTrip(octave);
    SpellingMatchesNoteMap(midi % 12);
    assert IsKeyName(name);
    assert Octave(name) == octave;
    assert NoteInOctave(name) == midi % 12;
    var scaled := (octave + 1) * 12;
    assert scaled == midi / 12 * 12 && 0 <= scaled < 0x100;
    assert KeyNameToMidi(name) == Some(CastToU8(scaled) + NoteInOctave(name));
  }

  /** No two pitches share a name. */
  lemma MidiNoteToKeyNameInjective(a: u8, b: u8)
    requires MidiNoteToKeyName(a) == MidiNoteToKeyName(b)
    ensures a == b
  {
    KeyNameRoundTrip(a);
    KeyNameRoundTrip(b);
  }

  /** The unit tests of arrange.rs:158-162. */
  lemma EncodeExamples()
    ensures MidiNoteToKeyName(36) == "c2" && MidiNoteToKeyName(60) == "c4"
    ensures MidiNoteToKeyName(61) == "c4b" && MidiNoteToKeyName(72) == "c5"
  {
    assert I32ToString(2) == "2" && I32ToString(4) == "4" && I32ToString(5) == "5";
  }

  /** The unit tests of arrange.rs:166-170, read off the round trip. */
  lemma DecodeExamples()
    ensures KeyNameToMidi("c2") == Some(36) && KeyNameToMidi("c4") == Some(60)
    ensures KeyNameToMidi("c4b") == Some(61) && KeyNameToMidi("c5") == Some(72)
  {
    EncodeExamples();
    KeyNameRoundTrip(36);
    KeyNameRoundTrip(60);
    KeyNameRoundTrip(61);
    KeyNameRoundTrip(72);
  }

  /**
   * A two-character name never carries the sharp marker, so "cb" reads the
   * octave "b" and fails; a negative octave is read with its sign.
   */
  lemma ShortNameIsNeverSharp()
    ensures !IsSharpName("cb") && OctaveText("cb") == "b"
    ensures KeyNameToMidi("cb") == None
    ensures DecodesWithoutOverflow("c-1") && KeyNameToMidi("c-1") == Some(0)
  {
    assert I32ToString(-1) == "-1";
    assert MidiNoteToKeyName(0) == "c-1";
    KeyNameRoundTrip(0);
  }

  /** The octave text is read by `parse::<i32>`, so a '+' sign and leading zeros are accepted. */
  lemma SignedOctaveExample()
    ensures DecodesWithoutOverflow("c+4") && KeyNameToMidi("c+4") == Some(60)
    ensures DecodesWithoutOverflow("c04b") && KeyNameToMidi("c04b") == Some(61)
  {
    ParseI32Examples();
    assert ParseI32("04") == Some(4);
    assert OctaveText("c+4") == "+4" && OctaveText("c04b") == "04";
  }

  /** The octave 30 overflows a byte: (30 + 1) * 12 = 372 is cast to 116. */
  lemma ByteCastWrapsOctave()
    ensures DecodesWithoutOverflow("c30") && KeyNameToMidi("c30") == Some(116)
  {
    assert I32ToString(30) == "30";
    ParseI32RoundTrip(30);
    assert OctaveText("c30") == "30";
  }

  /** Pitch 68 is written as the sharp of G4. */
  lemma SharpNameExample()
    ensures MidiNoteToKeyName(68) == "g4b"
  {
    assert I32ToString(4) == "4";
  }

  /** The names of C6 (84) and C1 (24), used by the arrangement's unit tests. */
  lemma OutOfWindowNames()
    ensures DecodesWithoutOverflow("c6") && KeyNameToMidi("c6") == Some(84)
    ensures DecodesWithoutOverflow("c1") && KeyNameToMidi("c1") == Some(24)
  {
    assert I32ToString(5) == "5" && I32ToString(0) == "0";
    assert MidiNoteToKeyName(84) == "c6" && MidiNoteToKeyName(24) == "c1";
    KeyNameRoundTrip(84);
    KeyNameRoundTrip(24);
  }
}
