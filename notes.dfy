/**
 * The note and chord vocabulary of the song emitter: the twelve chromatic
 * note names, the guitar weight table, the "close" root intervals, and the
 * chord strings that `random_mode_of_chord` produces.
 *
 * A note is carried by its position in `NOTES` (0..11); `NoteIndex` is the
 * lookup by name (Python's `NOTES.index`) and is proved to be the inverse of
 * indexing.
 */
module Notes {
  import opened Wrappers

  /** The chromatic scale, starting at A. */
  const NOTES: seq<string> := ["A", "A#", "B", "C", "C#", "D", "D#", "E", "F", "F#", "G", "G#"]

  /** A note, identified by its index in `NOTES`. */
  type Note = i: int | 0 <= i < 12

  /**
   * Relative weights with which the first root of an unseeded line is drawn,
   * in tenths (1 is 10, 0.8 is 8, 0.2 is 2). Only the support of the
   * distribution matters to the model: a note can be drawn exactly when its
   * weight is positive.
   */
  const GUITAR_WEIGHTS: map<Note, nat> :=
    map[0 := 10, 1 := 2, 2 := 2, 3 := 10, 4 := 2, 5 := 10,
        6 := 2, 7 := 10, 8 := 8, 9 := 2, 10 := 10, 11 := 2]

  /** The rhyme schemes a verse may follow. */
  const VERSE_SCHEMA: set<string> := {"abba", "abab", "abcb", "abb", "aba"}

  /** The time signatures a song may have. */
  const TIME_SIGNATURES: set<string> := {"4/4", "3/4"}

  /** A musically close step between roots, in semitones upward. */
  type CloseInterval = k: int | k == 2 || k == 5 || k == 7 || k == 10 witness 2

  /** `b` is reached from `a` by one close step. */
  predicate IsCloseStep(a: Note, b: Note) {
    var d := (b - a) % 12;
    d == 2 || d == 5 || d == 7 || d == 10
  }

  /** Python's indexing `s[i]`, where a negative index counts from the end. */
  function PyIndex<T>(s: seq<T>, i: int): (r: T)
    requires -|s| <= i < |s|
    ensures r == s[(i + |s|) % |s|]
  {
    if i < 0 then s[i + |s|] else s[i]
  }

  // ---------------------------------------------------------------------
  // Looking notes up by name
  // ---------------------------------------------------------------------

  /** First position at or after `from` whose name is `name`. */
  function IndexFrom(name: string, from: nat): (r: Option<Note>)
    requires from <= 12
    ensures r.Some? ==> from <= r.value && NOTES[r.value] == name
    ensures r.Some? ==> forall j :: from <= j < r.value ==> NOTES[j] != name
    ensures r.None? ==> forall j :: from <= j < 12 ==> NOTES[j] != name
    decreases 12 - from
  {
    if from == 12 then None
    else if NOTES[from] == name then Some(from)
    else IndexFrom(name, from + 1)
  }

  /** Python's `NOTES.index(name)`; `None` where Python raises `ValueError`. */
  function NoteIndex(name: string): (r: Option<Note>)
    ensures r.Some? <==> name in NOTES
    ensures r.Some? ==> NOTES[r.value] == name
  {
    IndexFrom(name, 0)
  }

  /** Every note name is a single letter, possibly followed by a sharp. */
  lemma NoteNameShape(n: Note)
    ensures 1 <= |NOTES[n]| <= 2
    ensures NOTES[n][0] in "ABCDEFG"
    ensures |NOTES[n]| == 2 ==> NOTES[n][1] == '#'
  {
  }

  /** The names are pairwise distinct, so looking a note's name up gives the note back. */
  lemma NoteIndexOfName(n: Note)
    ensures NoteIndex(NOTES[n]) == Some(n)
  {
    var r := NoteIndex(NOTES[n]);
    assert r.Some?;
    assert forall i, j :: 0 <= i < j < 12 ==> NOTES[i] != NOTES[j];
  }

  // ---------------------------------------------------------------------
  // random_common_guitar_major_chord, random_close_interval_int/_note
  // ---------------------------------------------------------------------

  /** Every note carries a positive guitar weight, so every note can open a line. */
  lemma EveryNoteDrawable(n: Note)
    ensures n in GUITAR_WEIGHTS && GUITAR_WEIGHTS[n] > 0
  {
  }

  /** Draws a root from the guitar weight table: any note of positive weight. */
  method RandomCommonGuitarMajorChord() returns (n: Note)
    ensures n in GUITAR_WEIGHTS && GUITAR_WEIGHTS[n] > 0
  {
    n :| 0 <= n < 12 && n in GUITAR_WEIGHTS && GUITAR_WEIGHTS[n] > 0;
  }

  /** Draws one of the four close intervals. */
  method RandomCloseIntervalInt() returns (k: int)
    ensures k == 2 || k == 5 || k == 7 || k == 10
  {
    k :| k in {2, 5, 7, 10};
  }

  /**
   * The note `interval` semitones above `prevNote`, wrapping around the
   * octave. The interval is the draw `random_close_interval_note` makes inside its body.
   */
  function RandomCloseIntervalNote(prevNote: Note, interval: CloseInterval): (r: Note)
    ensures IsCloseStep(prevNote, r)
    ensures r != prevNote
    ensures (r - prevNote) % 12 == interval
  {
    (prevNote + interval) % 12
  }

  /** Every close step is the result of some draw: the interval between the two notes. */
  lemma CloseStepReachable(a: Note, b: Note)
    requires IsCloseStep(a, b)
    ensures RandomCloseIntervalNote(a, (b - a) % 12) == b
  {
  }

  /** Different draws lead to different notes: a root has exactly four successors. */
  lemma CloseIntervalNoteInjective(a: Note, k1: CloseInterval, k2: CloseInterval)
    requires k1 != k2
    ensures RandomCloseIntervalNote(a, k1) != RandomCloseIntervalNote(a, k2)
  {
  }

  // ---------------------------------------------------------------------
  // Chords: the strings random_mode_of_chord produces, and reading them back
  // ---------------------------------------------------------------------

  /** A chord as `random_mode_of_chord` spells it: root name, then "m" if minor, then "7" if seventh. */
  datatype Chord = Chord(root: Note, minor: bool, seventh: bool)

  function QualitySuffix(minor: bool, seventh: bool): string {
    (if minor then "m" else "") + (if seventh then "7" else "")
  }

  function FormatChord(c: Chord): string {
    NOTES[c.root] + QualitySuffix(c.minor, c.seventh)
  }

  function ParseQuality(root: Note, rest: string): Option<Chord> {
    if rest == "" then Some(Chord(root, false, false))
    else if rest == "m" then Some(Chord(root, true, false))
    else if rest == "7" then Some(Chord(root, false, true))
    else if rest == "m7" then Some(Chord(root, true, true))
    else None
  }

  lemma ParseQualitySuffix(root: Note, minor: bool, seventh: bool)
    ensures ParseQuality(root, QualitySuffix(minor, seventh)) == Some(Chord(root, minor, seventh))
  {
    if minor && seventh {
      assert QualitySuffix(minor, seventh) == "m7";
    }
  }

  /** Reads a chord string back; a two-character name such as "A#" is tried first. */
  function ParseChord(s: string): Option<Chord> {
    if |s| >= 2 && NoteIndex(s[..2]).Some? then ParseQuality(NoteIndex(s[..2]).value, s[2..])
    else if |s| >= 1 && NoteIndex(s[..1]).Some? then ParseQuality(NoteIndex(s[..1]).value, s[1..])
    else None
  }

  /** Reading back a formatted chord gives the chord. */
  lemma ParseFormatChord(c: Chord)
    ensures ParseChord(FormatChord(c)) == Some(c)
  {
    var name, suffix := NOTES[c.root], QualitySuffix(c.minor, c.seventh);
    var s := name + suffix;
    NoteNameShape(c.root);
    NoteIndexOfName(c.root);
    ParseQualitySuffix(c.root, c.minor, c.seventh);
    if |name| == 2 {
      assert s[..2] == name && s[2..] == suffix;
    } else {
      assert s[..1] == name && s[1..] == suffix;
      if |s| >= 2 {
        assert s[..2][1] != '#';
        forall n: Note ensures NOTES[n] != s[..2] {
          NoteNameShape(n);
        }
        assert NoteIndex(s[..2]).None?;
      }
    }
  }

  /** A string that reads as a chord is exactly that chord's spelling. */
  lemma FormatParseChord(s: string, c: Chord)
    requires ParseChord(s) == Some(c)
    ensures FormatChord(c) == s
  {
    if |s| >= 2 && NoteIndex(s[..2]).Some? {
      assert s == s[..2] + s[2..];
    } else {
      assert s == s[..1] + s[1..];
    }
  }

  /** A chord string never contains the character `ch` unless a note name or suffix does. */
  lemma FormatChordAvoids(c: Chord, ch: char)
    requires ch !in "ABCDEFG#m7"
    ensures ch !in FormatChord(c)
  {
    NoteNameShape(c.root);
  }

  /** The root a chord ends up with: the relative minor is three semitones down. */
  function ModeRoot(note: Note, minor: bool): Note {
    if minor then (note + 9) % 12 else note
  }

  /**
   * The chord string for `chord` under the drawn quality flags `minor` and
   * `seventh`; a minor chord moves its root down three semitones through
   * Python's negative indexing `NOTES[i - 3]`.
   */
  function RandomModeOfChord(chord: Note, minor: bool, seventh: bool): (r: string)
    ensures ParseChord(r) == Some(Chord(ModeRoot(chord, minor), minor, seventh))
  {
    var name := if minor then PyIndex(NOTES, chord - 3) else NOTES[chord];
    var r := name + (if minor then "m" else "") + (if seventh then "7" else "");
    assert name == NOTES[ModeRoot(chord, minor)];
    assert r == FormatChord(Chord(ModeRoot(chord, minor), minor, seventh));
    ParseFormatChord(Chord(ModeRoot(chord, minor), minor, seventh));
    r
  }

  /** `s` is a possible value of `random_mode_of_chord` applied to `note`. */
  predicate IsModeOf(note: Note, s: string) {
    match ParseChord(s)
    case Some(c) => c.root == ModeRoot(note, c.minor)
    case None => false
  }

  /** Every draw of the quality flags gives a mode of the root, and every mode is some draw. */
  lemma ModeOfChordComplete(note: Note, s: string)
    ensures IsModeOf(note, s) <==> exists minor: bool, seventh: bool :: s == RandomModeOfChord(note, minor, seventh)
  {
    if IsModeOf(note, s) {
      var c := ParseChord(s).value;
      FormatParseChord(s, c);
      ParseFormatChord(c);
      assert s == RandomModeOfChord(note, c.minor, c.seventh);
    }
  }
}
