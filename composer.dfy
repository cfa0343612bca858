/**
 * Building lines of chords and verses of lines (`make_line`, `make_verse`).
 *
 * Each random draw is a nondeterministic choice (`:|`), so every contract
 * below holds whatever the random number generator returns.
 */
module Composer {
  import opened Wrappers
  import opened Notes
  import opened Text

  /** The roots of a line before the mode is applied: each one a close step from the one before. */
  predicate IsCloseChain(roots: seq<Note>) {
    forall i :: 0 <= i < |roots| - 1 ==> IsCloseStep(roots[i], roots[i + 1])
  }

  /**
   * `roots` can be the roots `make_line(n, base)` draws: `max(1, n)` of them,
   * the first a close step from `base` (or any drawable note without one),
   * each next one a close step from the one before.
   */
  predicate IsLineRoots(roots: seq<Note>, n: int, base: Option<Note>) {
    && |roots| == Max(1, n)
    && (match base
        case Some(b) => IsCloseStep(b, roots[0])
        case None => roots[0] in GUITAR_WEIGHTS && GUITAR_WEIGHTS[roots[0]] > 0)
    && IsCloseChain(roots)
  }

  /** `line` is the chord list `make_line(n, base)` returns when its roots were `roots`. */
  predicate LineFrom(line: seq<string>, roots: seq<Note>, n: int, base: Option<Note>) {
    && IsLineRoots(roots, n, base)
    && |line| == |roots|
    && forall i :: 0 <= i < |line| ==> IsModeOf(roots[i], line[i])
  }

  /** `line` is a possible result of `make_line(n, base)`. */
  ghost predicate IsLine(line: seq<string>, n: int, base: Option<Note>) {
    exists roots :: LineFrom(line, roots, n, base)
  }

  /**
   * `make_line`: one root placed before the loop (so even `n <= 1` gives one
   * chord), more close steps while the line is shorter than `n`, then an
   * independent mode draw for every root.
   */
  method MakeLine(numChordsPerLine: int, baseChord: Option<Note>) returns (line: seq<string>, ghost roots: seq<Note>)
    ensures LineFrom(line, roots, numChordsPerLine, baseChord)
    ensures |line| == Max(1, numChordsPerLine)
  {
    var first: Note;
    if baseChord.Some? {
      var interval := RandomCloseIntervalInt();
      first := RandomCloseIntervalNote(baseChord.value, interval);
    } else {
      first := RandomCommonGuitarMajorChord();
    }
    var chain := [first];
    while |chain| < numChordsPerLine
      invariant 1 <= |chain| <= Max(1, numChordsPerLine)
      invariant chain[0] == first
      invariant IsCloseChain(chain)
      decreases numChordsPerLine - |chain|
    {
      var interval := RandomCloseIntervalInt();
      var next := RandomCloseIntervalNote(chain[|chain| - 1], interval);
      chain := chain + [next];
    }
    // The list comprehension: a fresh pair of quality draws for each root.
    line := [];
    for i := 0 to |chain|
      invariant |line| == i
      invariant forall j :: 0 <= j < i ==> IsModeOf(chain[j], line[j])
    {
      var minor: bool :| true;
      var seventh: bool :| true;
      var chord := RandomModeOfChord(chain[i], minor, seventh);
      line := line + [chord];
    }
    roots := chain;
  }

  /** Positions with the same letter of `scheme` hold the same line. */
  predicate FollowsScheme(lines: seq<seq<string>>, scheme: string) {
    && |lines| == |scheme|
    && forall i, j :: 0 <= i < |scheme| && 0 <= j < |scheme| && scheme[i] == scheme[j] ==> lines[i] == lines[j]
  }

  /** `lines` is a verse `make_verse(n, base)` can return when it drew `scheme`. */
  ghost predicate VerseFrom(lines: seq<seq<string>>, scheme: string, n: int, base: Option<Note>) {
    && scheme in VERSE_SCHEMA
    && FollowsScheme(lines, scheme)
    && forall i :: 0 <= i < |lines| ==> IsLine(lines[i], n, base)
  }

  /** `lines` is a possible result of `make_verse(n, base)`. */
  ghost predicate IsVerse(lines: seq<seq<string>>, n: int, base: Option<Note>) {
    exists scheme :: VerseFrom(lines, scheme, n, base)
  }

  /** Every rhyme scheme has three or four letters, two or three of them distinct. */
  lemma SchemeShape(scheme: string)
    requires scheme in VERSE_SCHEMA
    ensures 3 <= |scheme| <= 4
    ensures 2 <= |CharSet(scheme)| <= 3
  {
    if scheme == "abcb" {
      assert CharSet(scheme) == {'a', 'b', 'c'};
    } else {
      assert CharSet(scheme) == {'a', 'b'};
    }
  }

  /**
   * `make_verse`: draws a scheme, then walks it, making a line the first
   * time a letter occurs and reusing that line wherever the letter repeats.
   * `calls` counts the calls to `make_line`.
   */
  method MakeVerse(numChordsPerLine: int, baseChord: Option<Note>)
    returns (lines: seq<seq<string>>, ghost scheme: string, ghost calls: nat)
    ensures VerseFrom(lines, scheme, numChordsPerLine, baseChord)
    ensures 3 <= |lines| <= 4
    ensures calls == |CharSet(scheme)|
  {
    var drawn :| drawn in VERSE_SCHEMA;
    scheme := drawn;
    var uniqueLines: map<char, seq<string>> := map[];
    lines := [];
    calls := 0;
    for i := 0 to |drawn|
      invariant |lines| == i
      invariant forall c :: c in uniqueLines <==> c in drawn[..i]
      invariant calls == |uniqueLines|
      invariant forall j :: 0 <= j < i ==> drawn[j] in uniqueLines && lines[j] == uniqueLines[drawn[j]]
      invariant forall c :: c in uniqueLines ==> IsLine(uniqueLines[c], numChordsPerLine, baseChord)
    {
      var key := drawn[i];
      ghost var prevLines, prevMap := lines, uniqueLines;
      assert drawn[..i + 1] == drawn[..i] + [key];
      if key !in uniqueLines {
        ghost var roots;
        var line;
        line, roots := MakeLine(numChordsPerLine, baseChord);
        calls := calls + 1;
        uniqueLines := uniqueLines[key := line];
      }
      lines := lines + [uniqueLines[key]];
      forall j | 0 <= j < i + 1
        ensures drawn[j] in uniqueLines && lines[j] == uniqueLines[drawn[j]]
      {
        if j < i {
          assert lines[j] == prevLines[j];
          assert drawn[j] in prevMap && uniqueLines[drawn[j]] == prevMap[drawn[j]];
        }
      }
    }
    assert drawn[..|drawn|] == drawn;
    assert uniqueLines.Keys == CharSet(scheme);
    TableVerse(lines, scheme, uniqueLines, numChordsPerLine, baseChord);
    SchemeShape(scheme);
  }

  /** A verse read off a table holding one line per letter follows its scheme. */
  lemma TableVerse(lines: seq<seq<string>>, scheme: string, table: map<char, seq<string>>, n: int, base: Option<Note>)
    requires |lines| == |scheme|
    requires forall j :: 0 <= j < |scheme| ==> scheme[j] in table && lines[j] == table[scheme[j]]
    requires forall c :: c in table ==> IsLine(table[c], n, base)
    ensures FollowsScheme(lines, scheme)
    ensures forall i :: 0 <= i < |lines| ==> IsLine(lines[i], n, base)
  {
    forall i, j | 0 <= i < |scheme| && 0 <= j < |scheme| && scheme[i] == scheme[j]
      ensures lines[i] == lines[j]
    {
      assert lines[i] == table[scheme[i]];
    }
  }

  /** The distinct lines of `lines`. */
  function DistinctLines(lines: seq<seq<string>>): set<seq<string>> {
    set i | 0 <= i < |lines| :: lines[i]
  }

  /**
   * A verse has at most as many distinct lines as its scheme has letters
   * (two letters' lines may coincide by chance, so not always equally many).
   */
  lemma {:induction false} DistinctLinesAtMostLetters(lines: seq<seq<string>>, scheme: string)
    requires FollowsScheme(lines, scheme)
    ensures |DistinctLines(lines)| <= |CharSet(scheme)|
    decreases |scheme|
  {
    if |scheme| > 0 {
      var k := |scheme| - 1;
      var ls, sc := lines[..k], scheme[..k];
      assert FollowsScheme(ls, sc);
      DistinctLinesAtMostLetters(ls, sc);
      assert DistinctLines(lines) == DistinctLines(ls) + {lines[k]} by {
        assert lines == ls + [lines[k]];
      }
      assert CharSet(scheme) == CharSet(sc) + {scheme[k]} by {
        assert scheme == sc + [scheme[k]];
      }
      if scheme[k] in sc {
        var j :| 0 <= j < k && sc[j] == scheme[k];
        assert lines[k] == ls[j];
        assert DistinctLines(lines) == DistinctLines(ls);
      }
    }
  }
}
