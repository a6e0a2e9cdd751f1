/**
 * The three-octave arrangement (arrange.rs): every key of every note is moved
 * by whole octaves into the playable window C2..C5 (MIDI 36..72), keys that
 * do not decode are dropped, notes left without keys become rests, and rests
 * and the score's metadata are copied through.
 */
module Arrange {
  import opened Wrappers
  import opened RustInt
  import opened KeyNames

  const MIN_NOTE: u8 := 36  // C2
  const MAX_NOTE: u8 := 72  // C5

  /** One timed event; the f64 times are only ever copied, so `real` stands in for them. */
  datatype ScoreNote = ScoreNote(keys: Option<seq<string>>, startTime: real, endTime: real, rest: Option<bool>)

  datatype Score = Score(song: string, bpm: u32, notes: seq<ScoreNote>, totalTime: Option<real>)

  /** `note.rest.unwrap_or(false)` */
  predicate IsRest(note: ScoreNote) {
    note.rest == Some(true)
  }

  /** A note that is not a rest and has no key list produces no output note. */
  predicate IsOmitted(note: ScoreNote) {
    !IsRest(note) && note.keys.None?
  }

  /** Every key of the list stays clear of the decoder's overflow checks. */
  predicate KeysDecodeWithoutOverflow(keys: seq<string>) {
    keys == [] ||
    (KeysDecodeWithoutOverflow(keys[..|keys| - 1]) && DecodesWithoutOverflow(keys[|keys| - 1]))
  }

  /** Every key the transform will decode for this note stays clear of the overflow checks. */
  predicate NoteDecodesWithoutOverflow(note: ScoreNote) {
    !IsRest(note) && note.keys.Some? ==> KeysDecodeWithoutOverflow(note.keys.value)
  }

  predicate NotesDecodeWithoutOverflow(notes: seq<ScoreNote>) {
    notes == [] ||
    (NotesDecodeWithoutOverflow(notes[..|notes| - 1]) && NoteDecodesWithoutOverflow(notes[|notes| - 1]))
  }

  /** The list predicate holds exactly when every key passes. */
  lemma {:induction false} KeysDecodeWithoutOverflowIff(keys: seq<string>)
    ensures KeysDecodeWithoutOverflow(keys) <==> forall k | k in keys :: DecodesWithoutOverflow(k)
  {
    if keys != [] {
      var init := keys[..|keys| - 1];
      KeysDecodeWithoutOverflowIff(init);
      assert keys == init + [keys[|keys| - 1]];
    }
  }

  /** A prefix of a list that passes passes, and so does each of its keys. */
  lemma {:induction false} KeysDecodePrefix(keys: seq<string>, j: int)
    requires KeysDecodeWithoutOverflow(keys) && 0 <= j <= |keys|
    ensures KeysDecodeWithoutOverflow(keys[..j])
    ensures j < |keys| ==> DecodesWithoutOverflow(keys[j])
  {
    if j == |keys| {
      assert keys[..j] == keys;
    } else if j < |keys| - 1 {
      var init := keys[..|keys| - 1];
      KeysDecodePrefix(init, j);
      assert init[..j] == keys[..j];
    }
  }

  /** A prefix of a score's notes passes, and so does each of its notes. */
  lemma {:induction false} NotesDecodePrefix(notes: seq<ScoreNote>, i: int)
    requires NotesDecodeWithoutOverflow(notes) && 0 <= i <= |notes|
    ensures NotesDecodeWithoutOverflow(notes[..i])
    ensures i < |notes| ==> NoteDecodesWithoutOverflow(notes[i])
  {
    if i == |notes| {
      assert notes[..i] == notes;
    } else if i < |notes| - 1 {
      var init := notes[..|notes| - 1];
      NotesDecodePrefix(init, i);
      assert init[..i] == notes[..i];
    }
  }

  // ----- the octave fold (`map_note`) -----

  /**
   * The octave fold in closed form: a pitch below the window is raised into
   * its lowest octave, a pitch above it is lowered into its top octave, and a
   * pitch inside it is left alone; the pitch class never changes.
   */
  function FoldIntoWindow(midi: int): (r: int)
    ensures MIN_NOTE <= r <= MAX_NOTE
    ensures r % 12 == midi % 12
    ensures MIN_NOTE <= midi <= MAX_NOTE ==> r == midi
    ensures midi < MIN_NOTE ==> r < MIN_NOTE + 12
    ensures midi > MAX_NOTE ==> r > MAX_NOTE - 12
  {
    if midi < MIN_NOTE then MIN_NOTE + (midi - MIN_NOTE) % 12
    else if midi > MAX_NOTE then MAX_NOTE - (MAX_NOTE - midi) % 12
    else midi
  }

  /** Two pitches of one class that lie in the same twelve-semitone band are equal. */
  lemma SameClassSameBand(a: int, b: int, low: int)
    requires low <= a < low + 12 && low <= b < low + 12
    requires a % 12 == b % 12
    ensures a == b
  {
    var qa, qb := a / 12, b / 12;
    assert a == qa * 12 + a % 12;
    assert b == qb * 12 + b % 12;
    assert -12 < (qa - qb) * 12 < 12;
  }

  /** The fold's contract determines it: nothing else meets those five promises. */
  lemma FoldIntoWindowUnique(midi: int, r: int)
    requires MIN_NOTE <= r <= MAX_NOTE && r % 12 == midi % 12
    requires MIN_NOTE <= midi <= MAX_NOTE ==> r == midi
    requires midi < MIN_NOTE ==> r < MIN_NOTE + 12
    requires midi > MAX_NOTE ==> r > MAX_NOTE - 12
    ensures r == FoldIntoWindow(midi)
  {
    var f := FoldIntoWindow(midi);
    if midi < MIN_NOTE {
      SameClassSameBand(r, f, MIN_NOTE);
    } else if midi > MAX_NOTE {
      SameClassSameBand(r, f, MAX_NOTE - 11);
    }
  }

  /** `map_note` (arrange.rs:47-61): two loops that shift by octaves in u8 arithmetic. */
  method MapNote(midi: u8) returns (adjusted: u8)
    ensures adjusted == FoldIntoWindow(midi)
  {
    adjusted := midi;
    while adjusted < MIN_NOTE
      invariant adjusted % 12 == midi % 12
      invariant midi < MIN_NOTE ==> adjusted < MIN_NOTE + 12
      invariant midi >= MIN_NOTE ==> adjusted == midi
      decreases MIN_NOTE - adjusted
    {
      adjusted := adjusted + 12;
    }
    ghost var raised := adjusted;
    while adjusted > MAX_NOTE
      invariant adjusted % 12 == midi % 12
      invariant raised > MAX_NOTE ==> adjusted > MAX_NOTE - 12
      invariant raised <= MAX_NOTE ==> adjusted == raised
      decreases adjusted - MAX_NOTE
    {
      adjusted := adjusted - 12;
    }
    FoldIntoWindowUnique(midi, adjusted);
  }

  // ----- the score transform (`apply_three_octave_arrangement`) -----

  /** The keys of one note, each decoded, folded and re-encoded; undecodable keys are dropped. */
  function ArrangeKeys(keys: seq<string>): (r: seq<string>)
    requires KeysDecodeWithoutOverflow(keys)
    ensures |r| <= |keys|
  {
    if keys == [] then []
    else
      var last := keys[|keys| - 1];
      ArrangeKeys(keys[..|keys| - 1]) +
        match KeyNameToMidi(last)
        case None => []
        case Some(midi) => [MidiNoteToKeyName(FoldIntoWindow(midi))]
  }

  /** The output note for one input note, or None when the note is skipped. */
  function ArrangeNote(note: ScoreNote): (r: Option<ScoreNote>)
    requires NoteDecodesWithoutOverflow(note)
    ensures r.None? <==> IsOmitted(note)
    ensures IsRest(note) ==> r == Some(note)
    ensures r.Some? ==> r.value.startTime == note.startTime && r.value.endTime == note.endTime
    ensures r.Some? && !IsRest(note) ==>
      if exists k | k in note.keys.value :: IsKeyName(k)
      then r.value.rest.None? && r.value.keys == Some(ArrangeKeys(note.keys.value))
      else r.value.rest == Some(true) && r.value.keys.None?
  {
    if IsRest(note) then Some(note)
    else match note.keys
      case None => None
      case Some(keys) =>
        var arrangedKeys := ArrangeKeys(keys);
        ArrangeKeysEmpty(keys);
        if arrangedKeys != [] then Some(ScoreNote(Some(arrangedKeys), note.startTime, note.endTime, None))
        else Some(ScoreNote(None, note.startTime, note.endTime, Some(true)))
  }

  /** The output notes, in input order. */
  function ArrangeNotes(notes: seq<ScoreNote>): (r: seq<ScoreNote>)
    requires NotesDecodeWithoutOverflow(notes)
    ensures |r| <= |notes|
  {
    if notes == [] then []
    else
      ArrangeNotes(notes[..|notes| - 1]) +
        match ArrangeNote(notes[|notes| - 1])
        case None => []
        case Some(n) => [n]
  }

  /** `apply_three_octave_arrangement` as a value: the song, tempo and total time are copied. */
  function ArrangeScore(score: Score): (r: Score)
    requires NotesDecodeWithoutOverflow(score.notes)
    ensures r.song == score.song && r.bpm == score.bpm && r.totalTime == score.totalTime
    ensures r.notes == ArrangeNotes(score.notes)
  {
    Score(score.song, score.bpm, ArrangeNotes(score.notes), score.totalTime)
  }

  /** The inner loop of `apply_three_octave_arrangement` (arrange.rs:74-81): decode, fold, re-encode each key. */
  method ArrangeKeyNames(keys: seq<string>) returns (arrangedKeys: seq<string>)
    requires KeysDecodeWithoutOverflow(keys)
    ensures arrangedKeys == ArrangeKeys(keys)
  {
    arrangedKeys := [];
    for j := 0 to |keys|
      invariant KeysDecodeWithoutOverflow(keys[..j])
      invariant arrangedKeys == ArrangeKeys(keys[..j])
    {
      KeysDecodePrefix(keys, j + 1);
      assert keys[..j + 1][..j] == keys[..j];
      ArrangeKeysStep(keys[..j + 1]);
      var midi := KeyNameToMidi(keys[j]);
      if midi.Some? {
        var mappedMidi := MapNote(midi.value);
        arrangedKeys := arrangedKeys + [MidiNoteToKeyName(mappedMidi)];
      }
    }
    assert keys[..|keys|] == keys;
  }

  /** `apply_three_octave_arrangement` (arrange.rs:45-108) */
  method ApplyThreeOctaveArrangement(score: Score) returns (arranged: Score)
    requires NotesDecodeWithoutOverflow(score.notes)
    ensures arranged == ArrangeScore(score)
  {
    var arrangedNotes: seq<ScoreNote> := [];
    for i := 0 to |score.notes|
      invariant NotesDecodeWithoutOverflow(score.notes[..i])
      invariant arrangedNotes == ArrangeNotes(score.notes[..i])
    {
      var note := score.notes[i];
      NotesDecodePrefix(score.notes, i + 1);
      assert score.notes[..i + 1][..i] == score.notes[..i];
      if note.rest.Some? && note.rest.value {
        // rest notes are kept as they are
        arrangedNotes := arrangedNotes + [note];
        continue;
      }
      if note.keys.Some? {
        var arrangedKeys := ArrangeKeyNames(note.keys.value);
        if arrangedKeys != [] {
          arrangedNotes := arrangedNotes + [ScoreNote(Some(arrangedKeys), note.startTime, note.endTime, None)];
        } else {
          // every key failed to decode: the note becomes a rest
          arrangedNotes := arrangedNotes + [ScoreNote(None, note.startTime, note.endTime, Some(true))];
        }
      }
    }
    assert score.notes[..|score.notes|] == score.notes;
    arranged := Score(score.song, score.bpm, arrangedNotes, score.totalTime);
  }

  // ----- properties of the transform -----

  /** The keys that decode, in their original order. */
  function DecodableKeys(keys: seq<string>): (r: seq<string>)
    ensures forall k | k in r :: k in keys && IsKeyName(k)
  {
    if keys == [] then []
    else DecodableKeys(keys[..|keys| - 1]) + if IsKeyName(keys[|keys| - 1]) then [keys[|keys| - 1]] else []
  }

  /** No key survives exactly when no key decodes. */
  lemma {:induction false} ArrangeKeysEmpty(keys: seq<string>)
    requires KeysDecodeWithoutOverflow(keys)
    ensures ArrangeKeys(keys) == [] <==> forall k | k in keys :: !IsKeyName(k)
  {
    if keys != [] {
      var init := keys[..|keys| - 1];
      ArrangeKeysEmpty(init);
      assert keys == init + [keys[|keys| - 1]];
    }
  }

  /** `out` is what the transform writes for the decodable key `k`: the fold of its pitch. */
  predicate FoldedFrom(out: string, k: string) {
    DecodesWithoutOverflow(k) && IsKeyName(k) &&
    DecodesWithoutOverflow(out) && KeyNameToMidi(out) == Some(FoldIntoWindow(KeyNameToMidi(k).value))
  }

  /** The name written for one decodable key decodes to the folded pitch. */
  lemma ArrangedKeyFolds(k: string)
    requires DecodesWithoutOverflow(k) && IsKeyName(k)
    ensures FoldedFrom(MidiNoteToKeyName(FoldIntoWindow(KeyNameToMidi(k).value)), k)
  {
    KeyNameRoundTrip(FoldIntoWindow(KeyNameToMidi(k).value));
  }

  /**
   * The i-th output key is the i-th decodable input key folded into the
   * window: by the fold's contract it decodes to a pitch of [36, 72] with the
   * same pitch class.
   */
  lemma {:induction false} ArrangeKeysFoldsDecodableKeys(keys: seq<string>)
    requires KeysDecodeWithoutOverflow(keys)
    ensures |ArrangeKeys(keys)| == |DecodableKeys(keys)|
    ensures forall i | 0 <= i < |ArrangeKeys(keys)| :: FoldedFrom(ArrangeKeys(keys)[i], DecodableKeys(keys)[i])
  {
    if keys != [] {
      var init, last := keys[..|keys| - 1], keys[|keys| - 1];
      ArrangeKeysFoldsDecodableKeys(init);
      var n := |ArrangeKeys(init)|;
      ArrangeKeysStep(keys);
      forall i | 0 <= i < |ArrangeKeys(keys)|
        ensures FoldedFrom(ArrangeKeys(keys)[i], DecodableKeys(keys)[i])
      {
        if i < n {
          assert ArrangeKeys(keys)[i] == ArrangeKeys(init)[i];
          assert DecodableKeys(keys)[i] == DecodableKeys(init)[i];
        } else {
          ArrangedKeyFolds(last);
        }
      }
    }
  }

  /** One step of the key loop: a decodable last key adds its folded name, any other adds nothing. */
  lemma ArrangeKeysStep(keys: seq<string>)
    requires keys != [] && KeysDecodeWithoutOverflow(keys)
    ensures var init, last := keys[..|keys| - 1], keys[|keys| - 1];
      KeysDecodeWithoutOverflow(init) && DecodesWithoutOverflow(last) &&
      if IsKeyName(last) then
        ArrangeKeys(keys) == ArrangeKeys(init) + [MidiNoteToKeyName(FoldIntoWindow(KeyNameToMidi(last).value))] &&
        DecodableKeys(keys) == DecodableKeys(init) + [last]
      else
        ArrangeKeys(keys) == ArrangeKeys(init) && DecodableKeys(keys) == DecodableKeys(init)
  {
  }

  /** A key the transform leaves as it is: the canonical name of a pitch in the window. */
  predicate IsWindowName(k: string) {
    DecodesWithoutOverflow(k) && IsKeyName(k) &&
    MIN_NOTE <= KeyNameToMidi(k).value <= MAX_NOTE && MidiNoteToKeyName(KeyNameToMidi(k).value) == k
  }

  /** Every key of the list is a window name. */
  predicate AllWindowNames(keys: seq<string>) {
    keys == [] || (AllWindowNames(keys[..|keys| - 1]) && IsWindowName(keys[|keys| - 1]))
  }

  /** The list predicate holds exactly when every key is a window name. */
  lemma {:induction false} AllWindowNamesIff(keys: seq<string>)
    ensures AllWindowNames(keys) <==> forall k | k in keys :: IsWindowName(k)
  {
    if keys != [] {
      var init := keys[..|keys| - 1];
      AllWindowNamesIff(init);
      assert keys == init + [keys[|keys| - 1]];
    }
  }

  /** Every key the transform writes is a window name. */
  lemma {:induction false} ArrangeKeysWritesWindowNames(keys: seq<string>)
    requires KeysDecodeWithoutOverflow(keys)
    ensures AllWindowNames(ArrangeKeys(keys))
  {
    if keys != [] {
      var init, last := keys[..|keys| - 1], keys[|keys| - 1];
      ArrangeKeysWritesWindowNames(init);
      if IsKeyName(last) {
        var out := MidiNoteToKeyName(FoldIntoWindow(KeyNameToMidi(last).value));
        KeyNameRoundTrip(FoldIntoWindow(KeyNameToMidi(last).value));
        assert (ArrangeKeys(init) + [out])[..|ArrangeKeys(init)|] == ArrangeKeys(init);
      } else {
        assert ArrangeKeys(keys) == ArrangeKeys(init);
      }
    }
  }

  /** A window name is folded and re-encoded to itself. */
  lemma WindowNameIsFixed(k: string)
    requires IsWindowName(k)
    ensures DecodesWithoutOverflow(k) && KeyNameToMidi(k).Some?
    ensures MidiNoteToKeyName(FoldIntoWindow(KeyNameToMidi(k).value)) == k
  {
  }

  /** Keys that are already window names decode safely and pass through unchanged. */
  lemma {:induction false} ArrangeKeysFixesWindowNames(keys: seq<string>)
    requires AllWindowNames(keys)
    ensures KeysDecodeWithoutOverflow(keys)
    ensures ArrangeKeys(keys) == keys
  {
    if keys != [] {
      var init, last := keys[..|keys| - 1], keys[|keys| - 1];
      ArrangeKeysFixesWindowNames(init);
      WindowNameIsFixed(last);
      assert KeysDecodeWithoutOverflow(keys);
      ArrangeKeysStep(keys);
      assert init + [last] == keys;
    }
  }

  /** Arranging a concatenation arranges each part: output order follows input order. */
  lemma {:induction false} ArrangeNotesAppend(a: seq<ScoreNote>, b: seq<ScoreNote>)
    requires NotesDecodeWithoutOverflow(a) && NotesDecodeWithoutOverflow(b)
    ensures NotesDecodeWithoutOverflow(a + b)
    ensures ArrangeNotes(a + b) == ArrangeNotes(a) + ArrangeNotes(b)
  {
    if b != [] {
      var b' := b[..|b| - 1];
      ArrangeNotesAppend(a, b');
      assert (a + b)[..|a + b| - 1] == a + b';
    } else {
      assert a + b == a;
    }
  }

  /** The notes that produce an output note: rests and notes with a key list. */
  function KeptNotes(notes: seq<ScoreNote>): (r: seq<ScoreNote>)
    ensures forall n | n in r :: n in notes && !IsOmitted(n)
  {
    if notes == [] then []
    else KeptNotes(notes[..|notes| - 1]) + if IsOmitted(notes[|notes| - 1]) then [] else [notes[|notes| - 1]]
  }

  /** Every kept note of a list that passes passes too. */
  lemma {:induction false} KeptNotesDecode(notes: seq<ScoreNote>)
    requires NotesDecodeWithoutOverflow(notes)
    ensures forall i | 0 <= i < |KeptNotes(notes)| :: NoteDecodesWithoutOverflow(KeptNotes(notes)[i])
  {
    if notes != [] {
      KeptNotesDecode(notes[..|notes| - 1]);
    }
  }

  /**
   * The output is the kept notes, each arranged on its own, in input order:
   * one output note per rest or keyed note, none for the others.
   */
  lemma {:induction false} ArrangeNotesMapsKeptNotes(notes: seq<ScoreNote>)
    requires NotesDecodeWithoutOverflow(notes)
    ensures |ArrangeNotes(notes)| == |KeptNotes(notes)|
    ensures forall i | 0 <= i < |KeptNotes(notes)| ::
      NoteDecodesWithoutOverflow(KeptNotes(notes)[i]) &&
      ArrangeNote(KeptNotes(notes)[i]) == Some(ArrangeNotes(notes)[i])
  {
    KeptNotesDecode(notes);
    if notes != [] {
      ArrangeNotesMapsKeptNotes(notes[..|notes| - 1]);
    }
  }

  /** When no note lacks both a key list and the rest flag, the note count is kept. */
  lemma {:induction false} ArrangeNotesKeepsCount(notes: seq<ScoreNote>)
    requires NotesDecodeWithoutOverflow(notes)
    requires forall n | n in notes :: !IsOmitted(n)
    ensures |ArrangeNotes(notes)| == |notes|
    ensures forall i | 0 <= i < |notes| ::
      NoteDecodesWithoutOverflow(notes[i]) && ArrangeNote(notes[i]) == Some(ArrangeNotes(notes)[i])
  {
    if notes != [] {
      var init := notes[..|notes| - 1];
      assert forall n | n in init :: n in notes;
      ArrangeNotesKeepsCount(init);
    }
  }

  /** An output note: a rest, or a keyed note whose keys are all window names. */
  predicate IsPlayable(n: ScoreNote) {
    IsRest(n) || (n.rest.None? && n.keys.Some? && n.keys.value != [] && AllWindowNames(n.keys.value))
  }

  /** The output note of one input note is playable. */
  lemma ArrangedNoteIsPlayable(note: ScoreNote)
    requires NoteDecodesWithoutOverflow(note) && ArrangeNote(note).Some?
    ensures IsPlayable(ArrangeNote(note).value)
  {
    if !IsRest(note) {
      ArrangeKeysWritesWindowNames(note.keys.value);
    }
  }

  /**
   * Every output note is a rest, or a non-rest note with at least one key
   * where every key is the canonical name of a pitch in the window.
   */
  lemma {:induction false} ArrangedNotesArePlayable(notes: seq<ScoreNote>)
    requires NotesDecodeWithoutOverflow(notes)
    ensures forall n | n in ArrangeNotes(notes) :: IsPlayable(n)
  {
    if notes != [] {
      var init, last := notes[..|notes| - 1], notes[|notes| - 1];
      ArrangedNotesArePlayable(init);
      if ArrangeNote(last).Some? {
        ArrangedNoteIsPlayable(last);
      }
    }
  }

  /** A playable note passes the overflow checks and is its own arrangement. */
  lemma PlayableNoteIsFixed(n: ScoreNote)
    requires IsPlayable(n)
    ensures NoteDecodesWithoutOverflow(n) && ArrangeNote(n) == Some(n)
  {
    if !IsRest(n) {
      ArrangeKeysFixesWindowNames(n.keys.value);
    }
  }

  /** A second pass changes nothing. */
  lemma {:induction false} ArrangeNotesIdempotent(notes: seq<ScoreNote>)
    requires NotesDecodeWithoutOverflow(notes)
    ensures NotesDecodeWithoutOverflow(ArrangeNotes(notes))
    ensures ArrangeNotes(ArrangeNotes(notes)) == ArrangeNotes(notes)
  {
    if notes != [] {
      var init, last := notes[..|notes| - 1], notes[|notes| - 1];
      ArrangeNotesIdempotent(init);
      var head := ArrangeNotes(init);
      match ArrangeNote(last)
      case None =>
        assert ArrangeNotes(notes) == head;
      case Some(n) =>
        ArrangedNoteIsPlayable(last);
        PlayableNoteIsFixed(n);
        assert [n][..0] == [];
        assert ArrangeNotes(notes) == head + [n];
        ArrangeNotesAppend(head, [n]);
    }
  }

  /** Arranging an arranged score gives it back. */
  lemma ArrangeScoreIdempotent(score: Score)
    requires NotesDecodeWithoutOverflow(score.notes)
    ensures NotesDecodeWithoutOverflow(ArrangeScore(score).notes)
    ensures ArrangeScore(ArrangeScore(score)) == ArrangeScore(score)
  {
    ArrangeNotesIdempotent(score.notes);
  }

  /** One key folded on its own: C6 (84) comes down to C5, C1 (24) goes up to C2, C4 stays. */
  lemma ArrangeKeyExamples()
    ensures KeysDecodeWithoutOverflow(["c6"]) && ArrangeKeys(["c6"]) == ["c5"]
    ensures KeysDecodeWithoutOverflow(["c1"]) && ArrangeKeys(["c1"]) == ["c2"]
    ensures KeysDecodeWithoutOverflow(["c4"]) && ArrangeKeys(["c4"]) == ["c4"]
  {
    OutOfWindowNames();
    EncodeExamples();
    KeyNameRoundTrip(60);
    ArrangeOneKey("c6", 84);
    ArrangeOneKey("c1", 24);
    ArrangeOneKey("c4", 60);
  }

  lemma ArrangeOneKey(k: string, midi: u8)
    requires DecodesWithoutOverflow(k) && KeyNameToMidi(k) == Some(midi)
    ensures KeysDecodeWithoutOverflow([k])
    ensures ArrangeKeys([k]) == [MidiNoteToKeyName(FoldIntoWindow(midi))]
  {
    assert [k][..0] == [];
  }

  /** The unit test of arrange.rs:174-205: C6 becomes C5 and C1 becomes C2, one note each. */
  lemma ArrangeExample(score: Score)
    requires score == Score("Test", 120, [ScoreNote(Some(["c6"]), 0.0, 500.0, None),
                                          ScoreNote(Some(["c1"]), 500.0, 1000.0, None)], Some(1000.0))
    ensures NotesDecodeWithoutOverflow(score.notes)
    ensures ArrangeScore(score).notes == [ScoreNote(Some(["c5"]), 0.0, 500.0, None),
                                          ScoreNote(Some(["c2"]), 500.0, 1000.0, None)]
  {
    ArrangeKeyExamples();
    var n1, n2 := score.notes[0], score.notes[1];
    ArrangeKeyedNote(n1);
    ArrangeKeyedNote(n2);
    ArrangeNotesAppend([n1], [n2]);
    assert score.notes == [n1] + [n2];
  }

  /** The unit test of arrange.rs:207-229: C4 is already in the window and stays. */
  lemma ArrangeInWindowExample(score: Score)
    requires score == Score("Test", 120, [ScoreNote(Some(["c4"]), 0.0, 500.0, None)], Some(500.0))
    ensures NotesDecodeWithoutOverflow(score.notes)
    ensures ArrangeScore(score).notes == [ScoreNote(Some(["c4"]), 0.0, 500.0, None)]
  {
    ArrangeKeyExamples();
    ArrangeKeyedNote(score.notes[0]);
  }

  lemma ArrangeKeyedNote(note: ScoreNote)
    requires !IsRest(note) && note.keys.Some? && KeysDecodeWithoutOverflow(note.keys.value)
    requires ArrangeKeys(note.keys.value) != []
    ensures NotesDecodeWithoutOverflow([note])
    ensures ArrangeNotes([note]) == [ScoreNote(Some(ArrangeKeys(note.keys.value)), note.startTime, note.endTime, None)]
  {
    assert [note][..0] == [];
  }

  /**
   * The `as u8` cast keeps only the low byte of (octave + 1) * 12, and 256 is
   * not a multiple of 12: "c30" decodes to 116 (G#8) and is arranged as G#4.
   */
  lemma ByteCastChangesPitchClass()
    ensures DecodesWithoutOverflow("c30") && KeyNameToMidi("c30") == Some(116)
    ensures ArrangeKeys(["c30"]) == ["g4b"]
  {
    ByteCastWrapsOctave();
    assert FoldIntoWindow(116) == 68;
    SharpNameExample();
    assert ArrangeKeys(["c30"]) == ArrangeKeys([]) + [MidiNoteToKeyName(FoldIntoWindow(116))];
  }
}
