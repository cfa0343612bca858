/**
 * The string operations the song emitter relies on: Python's `str.join`,
 * splitting on a single character (the reading a terminal gives the printed
 * text), and the decimal rendering of an `int` inside an f-string, each with
 * the inverse that shows nothing is lost.
 */
module Text {
  import opened Wrappers

  /** Python's `sep.join(parts)`. */
  function JoinWith(parts: seq<string>, sep: string): string {
    if |parts| == 0 then ""
    else if |parts| == 1 then parts[0]
    else parts[0] + sep + JoinWith(parts[1..], sep)
  }

  /** Python's `s.split(c)` for a one-character separator. */
  function Split(s: string, c: char): (r: seq<string>)
    ensures |r| >= 1
  {
    if s == [] then [""]
    else if s[0] == c then [""] + Split(s[1..], c)
    else
      var rest := Split(s[1..], c);
      [[s[0]] + rest[0]] + rest[1..]
  }

  /** Splitting after a separator-free prefix cuts off exactly that prefix. */
  lemma {:induction false} SplitAfterPrefix(p: string, c: char, rest: string)
    requires c !in p
    ensures Split(p + [c] + rest, c) == [p] + Split(rest, c)
  {
    if p == [] {
      assert p + [c] + rest == [c] + rest;
    } else {
      SplitAfterPrefix(p[1..], c, rest);
      assert (p + [c] + rest)[1..] == p[1..] + [c] + rest;
      assert [p[0]] + p[1..] == p;
    }
  }

  /** A separator-free string is one piece. */
  lemma {:induction false} SplitWithout(p: string, c: char)
    requires c !in p
    ensures Split(p, c) == [p]
  {
    if p != [] {
      SplitWithout(p[1..], c);
      assert [p[0]] + p[1..] == p;
    }
  }

  /** Joining with `c` and splitting on `c` gives the parts back when none contains `c`. */
  lemma {:induction false} SplitJoin(parts: seq<string>, c: char)
    requires |parts| >= 1
    requires forall i :: 0 <= i < |parts| ==> c !in parts[i]
    ensures Split(JoinWith(parts, [c]), c) == parts
  {
    if |parts| == 1 {
      SplitWithout(parts[0], c);
    } else {
      SplitJoin(parts[1..], c);
      SplitAfterPrefix(parts[0], c, JoinWith(parts[1..], [c]));
    }
  }

  /** The first piece of a join is its first part, when that part has no separator. */
  lemma SplitFirst(parts: seq<string>, c: char)
    requires |parts| >= 1 && c !in parts[0]
    ensures Split(JoinWith(parts, [c]), c)[0] == parts[0]
  {
    if |parts| == 1 {
      SplitWithout(parts[0], c);
    } else {
      SplitAfterPrefix(parts[0], c, JoinWith(parts[1..], [c]));
    }
  }

  /** A join contains a character only if a part or the separator does. */
  lemma {:induction false} JoinAvoids(parts: seq<string>, sep: string, c: char)
    requires c !in sep
    requires forall i :: 0 <= i < |parts| ==> c !in parts[i]
    ensures c !in JoinWith(parts, sep)
  {
    if |parts| > 1 {
      JoinAvoids(parts[1..], sep, c);
    }
  }

  // ---------------------------------------------------------------------
  // Decimal rendering of integers, as `f"{n}"` does
  // ---------------------------------------------------------------------

  function DigitChar(d: int): char
    requires 0 <= d < 10
  {
    "0123456789"[d]
  }

  function DigitValue(ch: char): Option<nat> {
    if '0' <= ch <= '9' then Some(ch as int - '0' as int) else None
  }

  /** The decimal digits of `n`, most significant first, without leading zeros. */
  function Digits(n: nat): (r: string)
    ensures |r| >= 1
    ensures forall i :: 0 <= i < |r| ==> DigitValue(r[i]).Some?
  {
    if n < 10 then [DigitChar(n)] else Digits(n / 10) + [DigitChar(n % 10)]
  }

  /** `str(n)` for a Python `int`. */
  function Decimal(n: int): string {
    if n < 0 then "-" + Digits(-n) else Digits(n)
  }

  /** The value of a non-empty digit string; `None` if any character is not a digit. */
  function ParseDigits(s: string): Option<nat>
    decreases |s|
  {
    if s == [] then None
    else
      var last := DigitValue(s[|s| - 1]);
      if last.None? then None
      else if |s| == 1 then last
      else
        match ParseDigits(s[..|s| - 1])
        case None => None
        case Some(v) => Some(v * 10 + last.value)
  }

  /** Python's `int(s)` restricted to an optional minus sign and digits. */
  function ParseDecimal(s: string): Option<int> {
    if |s| >= 1 && s[0] == '-' then
      match ParseDigits(s[1..])
      case None => None
      case Some(v) => Some(-(v as int))
    else
      match ParseDigits(s)
      case None => None
      case Some(v) => Some(v)
  }

  lemma {:induction false} ParseDigitsOfDigits(n: nat)
    ensures ParseDigits(Digits(n)) == Some(n)
  {
    if n >= 10 {
      ParseDigitsOfDigits(n / 10);
      var s := Digits(n);
      assert s[..|s| - 1] == Digits(n / 10);
    }
  }

  /** Rendering an integer and reading it back gives the integer. */
  lemma ParseDecimalOfDecimal(n: int)
    ensures ParseDecimal(Decimal(n)) == Some(n)
  {
    var s := Decimal(n);
    if n < 0 {
      var d := Digits(-n);
      ParseDigitsOfDigits(-n);
      assert s == "-" + d;
      assert s[1..] == d;
    } else {
      ParseDigitsOfDigits(n);
      assert DigitValue(s[0]).Some?;
      assert s[0] != '-';
    }
  }

  // ---------------------------------------------------------------------
  // Character sets and counts, as `set(s)` and `s.count(c)`
  // ---------------------------------------------------------------------

  /** Python's `set(s)`: the characters occurring in `s`. */
  function CharSet(s: string): (r: set<char>)
    ensures forall ch :: ch in r <==> ch in s
  {
    set i | 0 <= i < |s| :: s[i]
  }

  /** Python's `s.count(c)` for a single character. */
  function CountChar(s: string, c: char): (r: nat)
    ensures r <= |s|
    ensures r > 0 <==> c in s
  {
    if s == [] then 0
    else (if s[0] == c then 1 else 0) + CountChar(s[1..], c)
  }
}
