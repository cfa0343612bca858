/**
 * The song record (`Song`), its random construction (`Song.make`), its
 * header (`Song.header`), the verse blocks (`format_verse`) and the order in
 * which `main` lays the blocks out.
 */
module SongAssembly {
  import opened Wrappers
  import opened Notes
  import opened Text
  import opened Composer

  /** The song record; `capo` is `None` when the song is played without one. */
  datatype Song = Song(
    numIntroductoryVerses: int,
    numChordsPerLine: int,
    numVerses: int,
    timeSignature: string,
    tempo: int,
    verse: seq<seq<string>>,
    chorus: seq<seq<string>>,
    capo: Option<int>)

  /** The metadata ranges `Song.make` draws from. */
  predicate InRange(song: Song) {
    && 0 <= song.numIntroductoryVerses < 2
    && 2 <= song.numChordsPerLine < 5
    && Max(4, song.numIntroductoryVerses) <= song.numVerses < 6
    && song.timeSignature in TIME_SIGNATURES
    && 50 <= song.tempo < 120
    && (song.capo.Some? ==> 1 <= song.capo.value < 7)
  }

  /**
   * `Song.make`: draws the metadata in the order Python evaluates the
   * constructor's arguments, and builds verse and chorus by two separate
   * calls to `make_verse` that share one drawn base chord.
   */
  method MakeSong() returns (song: Song, ghost baseChord: Note)
    ensures InRange(song)
    ensures song.numIntroductoryVerses in {0, 1}
    ensures song.numChordsPerLine in {2, 3, 4}
    ensures song.numVerses in {4, 5} && song.numVerses >= song.numIntroductoryVerses
    ensures song.capo.None? || song.capo.value in {1, 2, 3, 4, 5, 6}
    ensures IsVerse(song.verse, song.numChordsPerLine, Some(baseChord))
    ensures IsVerse(song.chorus, song.numChordsPerLine, Some(baseChord))
  {
    var numIntroductoryVerses :| 0 <= numIntroductoryVerses < 2;
    var numChordsPerLine :| 2 <= numChordsPerLine < 5;
    var base := RandomCommonGuitarMajorChord();
    baseChord := base;
    var numVerses :| Max(4, numIntroductoryVerses) <= numVerses < 6;
    // `random.choice((None, random.randrange(1, 7)))`: the fret is drawn either way.
    var fret :| 1 <= fret < 7;
    var capo :| capo in {None, Some(fret)};
    ghost var scheme, calls;
    var verse, chorus;
    verse, scheme, calls := MakeVerse(numChordsPerLine, Some(base));
    chorus, scheme, calls := MakeVerse(numChordsPerLine, Some(base));
    var timeSignature :| timeSignature in TIME_SIGNATURES;
    var tempo :| 50 <= tempo < 120;
    song := Song(numIntroductoryVerses, numChordsPerLine, numVerses, timeSignature, tempo, verse, chorus, capo);
  }

  // ---------------------------------------------------------------------
  // Song.header
  // ---------------------------------------------------------------------

  /** Python's truth value of `self.capo`: present and non-zero. */
  predicate CapoShown(capo: Option<int>) {
    capo.Some? && capo.value != 0
  }

  /** `h` is the header of `song`: four fixed lines, then a capo line exactly when the capo is truthy. */
  predicate IsHeader(song: Song, h: seq<string>) {
    && |h| == (if CapoShown(song.capo) then 5 else 4)
    && h[0] == "Time signature: " + song.timeSignature
    && h[1] == "Tempo: " + Decimal(song.tempo) + " BPM"
    && h[2] == Decimal(song.numIntroductoryVerses) + " introductory verses (verses not followed by a chorus)"
    && h[3] == Decimal(song.numVerses) + " verses total"
    && (CapoShown(song.capo) ==> h[4] == "Capo " + Decimal(song.capo.value))
  }

  /** `Song.header`. */
  method Header(song: Song) returns (header: seq<string>)
    ensures IsHeader(song, header)
    ensures |header| == 5 <==> CapoShown(song.capo)
    ensures ParseDecimal(header[1][|"Tempo: "|..|header[1]| - |" BPM"|]) == Some(song.tempo)
    ensures CapoShown(song.capo) ==> ParseDecimal(header[4][|"Capo "|..]) == song.capo
  {
    header := [
      "Time signature: " + song.timeSignature,
      "Tempo: " + Decimal(song.tempo) + " BPM",
      Decimal(song.numIntroductoryVerses) + " introductory verses (verses not followed by a chorus)",
      Decimal(song.numVerses) + " verses total"
    ];
    if CapoShown(song.capo) {
      header := header + ["Capo " + Decimal(song.capo.value)];
    }
    ParseDecimalOfDecimal(song.tempo);
    assert header[1][|"Tempo: "|..|header[1]| - |" BPM"|] == Decimal(song.tempo);
    if CapoShown(song.capo) {
      ParseDecimalOfDecimal(song.capo.value);
      assert header[4][|"Capo "|..] == Decimal(song.capo.value);
    }
  }

  /** A header is determined by its song. */
  lemma HeaderUnique(song: Song, h1: seq<string>, h2: seq<string>)
    requires IsHeader(song, h1) && IsHeader(song, h2)
    ensures h1 == h2
  {
    assert forall i :: 0 <= i < |h1| ==> h1[i] == h2[i];
  }

  /** For a song `Song.make` can build, the capo line appears exactly when there is a capo. */
  lemma HeaderOfMadeSong(song: Song, h: seq<string>)
    requires InRange(song) && IsHeader(song, h)
    ensures |h| == 5 <==> song.capo.Some?
  {
  }

  // ---------------------------------------------------------------------
  // format_verse
  // ---------------------------------------------------------------------

  /** The displayed row of one line: its chords joined by " - ". */
  function Row(line: seq<string>): string {
    JoinWith(line, " - ")
  }

  /** The rows of a block: the label `[name]`, then one row per line. */
  function BlockRows(lines: seq<seq<string>>, name: string): (rows: seq<string>)
    ensures |rows| == |lines| + 1
    ensures rows[0] == "[" + name + "]"
    ensures forall i :: 0 <= i < |lines| ==> rows[i + 1] == Row(lines[i])
  {
    ["[" + name + "]"] + seq(|lines|, i requires 0 <= i < |lines| => Row(lines[i]))
  }

  /** The text `format_verse(lines, name)` returns. */
  function VerseBlock(lines: seq<seq<string>>, name: string): string {
    JoinWith(BlockRows(lines, name), "\n")
  }

  /** No chord of the verse contains a newline. */
  predicate NoNewlines(lines: seq<seq<string>>) {
    forall i, j :: 0 <= i < |lines| && 0 <= j < |lines[i]| ==> '\n' !in lines[i][j]
  }

  /** `format_verse`: the label row, then one row per line, joined by newlines. */
  method FormatVerse(lines: seq<seq<string>>, name: string) returns (block: string)
    ensures block == VerseBlock(lines, name)
    ensures '\n' !in name && NoNewlines(lines) ==> Split(block, '\n') == BlockRows(lines, name)
  {
    var verse := ["[" + name + "]"];
    for i := 0 to |lines|
      invariant verse == BlockRows(lines[..i], name)
    {
      verse := verse + [JoinWith(lines[i], " - ")];
      assert lines[..i + 1][..i] == lines[..i];
    }
    assert lines[..|lines|] == lines;
    block := JoinWith(verse, "\n");
    if '\n' !in name && NoNewlines(lines) {
      BlockRowsHaveNoNewline(lines, name);
      SplitJoin(verse, '\n');
    }
  }

  lemma BlockRowsHaveNoNewline(lines: seq<seq<string>>, name: string)
    requires '\n' !in name && NoNewlines(lines)
    ensures forall i :: 0 <= i < |lines| + 1 ==> '\n' !in BlockRows(lines, name)[i]
  {
    var rows := BlockRows(lines, name);
    forall i | 0 <= i < |lines| + 1 ensures '\n' !in rows[i] {
      if i > 0 {
        JoinAvoids(lines[i - 1], " - ", '\n');
      }
    }
  }

  /** The chords `make_line` produces never contain a newline. */
  lemma LineHasNoNewline(line: seq<string>, n: int, base: Option<Note>)
    requires IsLine(line, n, base)
    ensures forall j :: 0 <= j < |line| ==> '\n' !in line[j]
  {
    var roots :| LineFrom(line, roots, n, base);
    forall j | 0 <= j < |line| ensures '\n' !in line[j] {
      assert IsModeOf(roots[j], line[j]);
      var c := ParseChord(line[j]).value;
      FormatParseChord(line[j], c);
      FormatChordAvoids(c, '\n');
    }
  }

  /**
   * A block of a verse `make_verse` produces reads back, line by line, as
   * its label and one row per line: `len(lines) + 1` rows.
   */
  lemma VerseBlockRows(lines: seq<seq<string>>, name: string, n: int, base: Option<Note>)
    requires IsVerse(lines, n, base)
    requires '\n' !in name
    ensures |Split(VerseBlock(lines, name), '\n')| == |lines| + 1
    ensures Split(VerseBlock(lines, name), '\n') == BlockRows(lines, name)
  {
    var scheme :| VerseFrom(lines, scheme, n, base);
    forall i | 0 <= i < |lines| ensures forall j :: 0 <= j < |lines[i]| ==> '\n' !in lines[i][j] {
      LineHasNoNewline(lines[i], n, base);
    }
    BlockRowsHaveNoNewline(lines, name);
    SplitJoin(BlockRows(lines, name), '\n');
  }

  // ---------------------------------------------------------------------
  // main: the order of the blocks
  // ---------------------------------------------------------------------

  /**
   * `display` is the block list `main` builds for `song` at `verbosity`:
   * the joined header, then either one verse and one chorus block, or the
   * introductory verse blocks followed by verse/chorus pairs up to
   * `numVerses`. `main` formats the chorus with `format_verse`'s default
   * name, so chorus blocks are labelled "[verse]" too.
   */
  ghost predicate Arranged(song: Song, verbosity: int, display: seq<string>) {
    && |display| >= 1
    && (exists header :: IsHeader(song, header) && display[0] == JoinWith(header, "\n"))
    && (verbosity == 0 ==>
          display == [display[0], VerseBlock(song.verse, "verse"), VerseBlock(song.chorus, "verse")])
    && (verbosity != 0 ==>
          var intro := Max(0, song.numIntroductoryVerses);
          var pairs := Max(0, song.numVerses - song.numIntroductoryVerses);
          && |display| == 1 + intro + 2 * pairs
          && (forall k :: 1 <= k <= intro ==> display[k] == VerseBlock(song.verse, "verse"))
          && (forall p :: 0 <= p < pairs ==>
                display[1 + intro + 2 * p] == VerseBlock(song.verse, "verse") &&
                display[2 + intro + 2 * p] == VerseBlock(song.chorus, "verse")))
  }

  /** The block list of `main`, built by appending blocks as `main` does. */
  method Arrange(song: Song, verbosity: int) returns (display: seq<string>)
    ensures Arranged(song, verbosity, display)
  {
    var header := Header(song);
    display := [JoinWith(header, "\n")];
    if verbosity == 0 {
      var v := FormatVerse(song.verse, "verse");
      display := display + [v];
      var c := FormatVerse(song.chorus, "verse");
      display := display + [c];
    } else {
      var intro := Max(0, song.numIntroductoryVerses);
      var k := 0;
      while k < song.numIntroductoryVerses
        invariant 0 <= k <= intro
        invariant |display| == 1 + k
        invariant display[0] == JoinWith(header, "\n")
        invariant forall m :: 1 <= m <= k ==> display[m] == VerseBlock(song.verse, "verse")
      {
        var v := FormatVerse(song.verse, "verse");
        display := display + [v];
        k := k + 1;
      }
      var p := song.numIntroductoryVerses;
      while p < song.numVerses
        invariant song.numIntroductoryVerses <= p
        invariant p <= Max(song.numIntroductoryVerses, song.numVerses)
        invariant |display| == 1 + intro + 2 * (p - song.numIntroductoryVerses)
        invariant display[0] == JoinWith(header, "\n")
        invariant forall m :: 1 <= m <= intro ==> display[m] == VerseBlock(song.verse, "verse")
        invariant forall q :: 0 <= q < p - song.numIntroductoryVerses ==>
          display[1 + intro + 2 * q] == VerseBlock(song.verse, "verse") &&
          display[2 + intro + 2 * q] == VerseBlock(song.chorus, "verse")
      {
        var v := FormatVerse(song.verse, "verse");
        var c := FormatVerse(song.chorus, "verse");
        display := display + [v, c];
        p := p + 1;
      }
    }
  }

  /**
   * For a song `Song.make` can build, verbose output has `numVerses` verse
   * blocks and `numVerses - numIntroductoryVerses` chorus blocks after the
   * header; quiet output has one of each.
   */
  lemma ArrangedLength(song: Song, verbosity: int, display: seq<string>)
    requires InRange(song) && Arranged(song, verbosity, display)
    ensures verbosity == 0 ==> |display| == 3
    ensures verbosity != 0 ==> |display| == 1 + song.numVerses + (song.numVerses - song.numIntroductoryVerses)
    ensures verbosity != 0 ==> 8 <= |display| <= 11
  {
  }

  /** Every block after the header opens with the row "[verse]", the chorus blocks included. */
  lemma ArrangedBlocksLabelledVerse(song: Song, verbosity: int, display: seq<string>, k: int)
    requires Arranged(song, verbosity, display)
    requires 1 <= k < |display|
    ensures Split(display[k], '\n')[0] == "[verse]"
  {
    var lines := if display[k] == VerseBlock(song.verse, "verse") then song.verse else song.chorus;
    if verbosity != 0 {
      var intro := Max(0, song.numIntroductoryVerses);
      if k > intro {
        var p := (k - intro - 1) / 2;
        assert k == 1 + intro + 2 * p || k == 2 + intro + 2 * p;
      }
    }
    assert display[k] == VerseBlock(lines, "verse");
    SplitFirst(BlockRows(lines, "verse"), '\n');
  }

  /**
   * `main(verbosity)`: makes a song and lays out its blocks; `text` is what
   * it prints after the leading empty line.
   */
  method EmitSong(verbosity: int) returns (text: string, song: Song, display: seq<string>)
    ensures InRange(song)
    ensures exists b: Note ::
      IsVerse(song.verse, song.numChordsPerLine, Some(b)) && IsVerse(song.chorus, song.numChordsPerLine, Some(b))
    ensures Arranged(song, verbosity, display)
    ensures verbosity == 0 ==> |display| == 3
    ensures verbosity != 0 ==> |display| == 1 + song.numVerses + (song.numVerses - song.numIntroductoryVerses)
    ensures text == JoinWith(display, "\n\n")
  {
    ghost var baseChord;
    song, baseChord := MakeSong();
    display := Arrange(song, verbosity);
    ArrangedLength(song, verbosity, display);
    text := JoinWith(display, "\n\n");
  }
}
