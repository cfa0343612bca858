# songemitter, modelled in Dafny

`songemitter.py` writes a random chord chart: a verse and a chorus, each a
list of chord lines laid out by a rhyme scheme, and a header with the time
signature, tempo, verse counts and capo. This project models that generator
and the command-line scan in front of it. It proves what every run promises,
whatever the random number generator returns.

Layout, one module per file:

- `wrappers.dfy` (`Wrappers`): `Option`, and Python's `max`/`min`.
- `notes.dfy` (`Notes`): the note table `NOTES`, `GUITAR_WEIGHTS`,
  `VERSE_SCHEMA`, `TIME_SIGNATURES`, the close intervals, and the chord
  strings of `random_mode_of_chord`. `ParseChord` reads a chord string back.
- `text.dfy` (`Text`): `str.join`, splitting on one character, and `str(int)`
  with its inverse.
- `composer.dfy` (`Composer`): `make_line` and `make_verse`.
- `song.dfy` (`SongAssembly`): the `Song` record, `Song.make`, `Song.header`,
  `format_verse`, and the block layout of `main`.
- `cli.dfy` (`Cli`): `quick_parse_args`.

How randomness is modelled:

- Where a function of `songemitter.py` is pure once its draw is fixed, the
  draw becomes a parameter: the interval of `random_close_interval_note`,
  and the two coin flips of `random_mode_of_chord`.
- The methods draw with Dafny's nondeterministic choice (`:|`). Their
  contracts therefore hold for every possible draw.
- Only which values can come out is modelled. How likely each value is, is
  not.

A note is carried by its index into `NOTES` (0..11). `NoteIndex` models
`NOTES.index`, and `NoteIndexOfName` proves that it inverts indexing.
`NOTES[i - 3]` uses Python's negative indexing. `PyIndex` models that
indexing, and its contract shows the index wraps to `(i + 9) % 12`.

Behaviour of the code a reader might not expect:

- `main` formats the chorus with `format_verse(song.chorus)`. That call uses
  the default name, so chorus blocks are labelled `[verse]`
  (`ArrangedBlocksLabelledVerse`).
- The chord quality comes from two independent coin flips: minor, then
  seventh.
- `make_line(n)` places one chord before its loop, so it returns `max(1, n)`
  chords. A count below 1 raises no error.
- `make_verse` calls `make_line` once per distinct letter of the scheme. Two
  letters can still draw equal lines by chance. So the number of distinct
  lines is at most the number of distinct letters
  (`DistinctLinesAtMostLetters`).
- A verbosity flag is any argument whose set of characters is exactly
  `{'-', 'v'}`. That includes `v-` and `--v`, as well as `-v`, `-vv` and so on.

## Model

| member | source | states |
|---|---|---|
| `Notes.PyIndex` | songemitter.py:40-41 | Python indexing with an index in `-len..len-1` picks element `(i + len) % len`, so `NOTES[i - 3]` is `NOTES[(i + 9) % 12]` |
| `Notes.NoteIndex` | songemitter.py:65 | `NOTES.index(name)` finds a note exactly when `name` is one of the twelve names, and the index found names it |
| `Notes.NoteIndexOfName` | songemitter.py:16 | the twelve names are distinct, so looking up a note's name gives that note back |
| `Notes.EveryNoteDrawable` | songemitter.py:17-31 | every note has a positive guitar weight, so the weighted draw can return any note |
| `Notes.RandomCommonGuitarMajorChord` | songemitter.py:49-50 | the draw returns a key of `GUITAR_WEIGHTS` whose weight is positive |
| `Notes.RandomCloseIntervalInt` | songemitter.py:53-61 | the interval drawn is 2, 5, 7 or 10 |
| `Notes.RandomCloseIntervalNote` | songemitter.py:64-69 | the next note is a close step from the previous one, is never the previous note itself, and lies exactly `interval` semitones above it mod 12 |
| `Notes.CloseStepReachable` | songemitter.py:64-69 | conversely, every close step is produced by some draw of the interval |
| `Notes.CloseIntervalNoteInjective` | songemitter.py:53-69 | different interval draws give different notes, so a note has exactly four possible successors |
| `Notes.ParseFormatChord` | songemitter.py:45 | a chord string (root name, then "m" if minor, then "7" if seventh) reads back as its root and flags; the spelling is unambiguous |
| `Notes.FormatParseChord` | songemitter.py:45 | any string that reads as a chord is exactly that chord's spelling |
| `Notes.RandomModeOfChord` | songemitter.py:36-46 | the result reads back as root `note` when not minor and `(note + 9) % 12` when minor, with "m" exactly when minor and "7" exactly when seventh |
| `Notes.ModeOfChordComplete` | songemitter.py:36-46 | a string is a mode of a root exactly when some pair of coin flips makes `random_mode_of_chord` return it |
| `Composer.MakeLine` | songemitter.py:72-76 | the line has exactly `max(1, n)` chords; its roots start with a close step from `base_chord` (or any weighted note without one), continue by close steps, and each chord is a mode of its root |
| `Composer.SchemeShape` | songemitter.py:32 | every rhyme scheme has 3 or 4 letters, 2 or 3 of them distinct |
| `Composer.MakeVerse` | songemitter.py:79-87 | the scheme is one of `VERSE_SCHEMA`; the verse has one line per scheme letter (3 or 4); equal letters hold equal lines; every line is a possible `make_line` result; `make_line` runs once per distinct letter |
| `Composer.TableVerse` | songemitter.py:83-86 | lines read off a table with one entry per letter follow the scheme, and are lines of `make_line` when the table's entries are |
| `Composer.DistinctLinesAtMostLetters` | songemitter.py:79-87 | a verse following a scheme has at most as many distinct lines as the scheme has distinct letters |
| `Text.SplitJoin` | songemitter.py:94 | joining rows with a newline and splitting on newlines gives the rows back when no row holds a newline |
| `Text.ParseDecimalOfDecimal` | songemitter.py:127-133 | the decimal text an f-string gives an `int` reads back as that integer |
| `SongAssembly.MakeSong` | songemitter.py:108-122 | intro verses in {0,1}; chords per line in {2,3,4}; verses in {4,5} and at least the intro count; tempo in [50,120); capo absent or in 1..6; time signature in `TIME_SIGNATURES`; verse and chorus are both verses of `make_verse` from one shared base chord |
| `SongAssembly.Header` | songemitter.py:124-134 | the header is four fixed lines plus "Capo n" exactly when the capo is truthy; the tempo and capo numbers read back from their lines |
| `SongAssembly.HeaderUnique` | songemitter.py:124-134 | the header is determined by the song |
| `SongAssembly.HeaderOfMadeSong` | songemitter.py:117 | for a song `Song.make` can build, the capo line appears exactly when a capo was drawn |
| `SongAssembly.FormatVerse` | songemitter.py:90-94 | the block is `[name]` followed by one row per line, each row the chords joined by " - ", all joined by newlines; without newlines in its parts it splits back into exactly those `len(lines) + 1` rows |
| `SongAssembly.LineHasNoNewline` | songemitter.py:45 | no chord string of a `make_line` line contains a newline |
| `SongAssembly.VerseBlockRows` | songemitter.py:90-94 | the block of any verse `make_verse` can return has exactly `len(lines) + 1` rows: the label, then one row per line |
| `SongAssembly.Arrange` | songemitter.py:146-155 | the display starts with the joined header; at verbosity 0 it holds one verse block and one chorus block; otherwise the intro verse blocks, then the verse/chorus pairs from the intro count up to `num_verses`, in that order |
| `SongAssembly.ArrangedLength` | songemitter.py:151-155 | for a song `Song.make` can build, quiet output has 3 blocks and verbose output has `1 + num_verses + (num_verses - intro)` blocks, between 8 and 11 |
| `SongAssembly.ArrangedBlocksLabelledVerse` | songemitter.py:148-155 | every block after the header opens with the row `[verse]`, the chorus blocks included |
| `SongAssembly.EmitSong` | songemitter.py:143-156 | `main` makes a song whose metadata lies in the ranges of `Song.make`, whose verse and chorus are both `make_verse` verses from one shared base chord, lays out its blocks as `Arrange` states (3 blocks when quiet, `1 + num_verses + (num_verses - intro)` when verbose) and prints them joined by blank lines |
| `Cli.LastLevel` | songemitter.py:172-175 | the level set by the last verbosity flag is always 0, 1 or 2 |
| `Cli.FlagLevelPositive` | songemitter.py:172-174 | a verbosity flag always contains a `v`, so it selects level 1 or 2 |
| `Cli.LastFlagWins` | songemitter.py:172-175 | after a verbosity flag, the level is that flag's `min(count('v'), 2)`, whatever came before |
| `Cli.LastLevelSkipsOthers` | songemitter.py:168-178 | arguments that are not verbosity flags leave the level unchanged |
| `Cli.QuickParseArgs` | songemitter.py:159-181 | help is returned exactly when some argument is `-h` or `--help`, and later arguments do not matter; otherwise the scan fails exactly when an unknown argument was collected, and the failure carries the set of unknown arguments; otherwise the verbosity is the last flag's level, and it is 0 exactly when no arguments were given |

## Left out

- Logging setup and the log-level change a verbosity flag makes (songemitter.py:9-14, 176): global side effects of I/O plumbing.
- `print`, `sys.argv` and `sys.exit`. The usage text and the process exit on `-h` become the `Help` result. `QuickParseArgs` takes `sys.argv[1:]` as its parameter.
- EmitSong: the returned text omits the empty line `main` prints first and the newline `print` adds at the end.
- `Song.serialize` and `Song.json` (songemitter.py:136-140): a dictionary view and `json.dumps`, outside the generator's logic.
- The probabilities: the 0.5 and 0.15 thresholds and the sampling weights. `GUITAR_WEIGHTS` is kept in integer tenths, and only whether a weight is positive matters.
- The text of the `ValueError` raised for unknown arguments. The model only records that the error occurs, and with which arguments.
- `NOTES.index` on a name that is not a note raises `ValueError`. Notes are carried as indices, so that path is unreachable in the model. `NoteIndex` returns `None` for it.
- `note_distance` and `random_major_chord_guitar_weighted`, which `test_songemitter.py` calls, are not part of this model. They do not exist in `songemitter.py`.
