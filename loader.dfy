/**
 * The per-line part of `CPU.load`: a line is kept when its first character is
 * '0' or '1'; the text before the first '#' is stripped of whitespace and read
 * with `int(text, 2)`.  Reading the file and the error message are not modelled
 * here; `Cpu.CPU.Load` stores the values.
 */
module Loader {
  import opened Wrappers
  import Bits

  /** Python's `str.isspace` for one character. */
  predicate IsSpace(c: char)
  {
    var n := c as int;
    n in {9, 10, 11, 12, 13, 28, 29, 30, 31, 32, 0x85, 0xA0, 0x1680, 0x2028, 0x2029, 0x202F, 0x205F, 0x3000}
    || 0x2000 <= n <= 0x200A
  }

  function StripLeft(s: string): string
  {
    if |s| > 0 && IsSpace(s[0]) then StripLeft(s[1..]) else s
  }

  function StripRight(s: string): string
  {
    if |s| > 0 && IsSpace(s[|s| - 1]) then StripRight(s[..|s| - 1]) else s
  }

  /** `s.strip()`. */
  function Strip(s: string): string
  {
    StripRight(StripLeft(s))
  }

  /** `s.split("#")[0]`: everything before the first '#'. */
  function BeforeHash(s: string): string
  {
    if |s| == 0 then s
    else if s[0] == '#' then ""
    else [s[0]] + BeforeHash(s[1..])
  }

  predicate IsBinDigit(c: char) { c == '0' || c == '1' }

  /** Binary digits with single underscores between them, as `int(_, 2)` accepts: [01](_?[01])*. */
  function Digits(s: string): (r: Option<nat>)
    ensures r.Some? ==> |s| > 0 && IsBinDigit(s[0]) && IsBinDigit(s[|s| - 1])
    decreases |s|
  {
    if |s| == 0 || !IsBinDigit(s[|s| - 1]) then None
    else
      var d := if s[|s| - 1] == '1' then 1 else 0;
      var init := s[..|s| - 1];
      if |init| == 0 then Some(d)
      else
        var body := if init[|init| - 1] == '_' then init[..|init| - 1] else init;
        if |body| == 0 then None
        else
          match Digits(body)
          case None => None
          case Some(v) => Some(2 * v + d)
  }

  /**
   * `int(s, 2)` for the strings `load` passes: stripped, beginning with '0' or
   * '1'.  A "0b" or "0B" prefix is allowed and may be followed by one underscore.
   * None stands for the ValueError.
   */
  function ParseBinary(s: string): (r: Option<nat>)
    ensures r.Some? ==> |s| > 0 && IsBinDigit(s[0]) && IsBinDigit(s[|s| - 1])
  {
    if |s| >= 2 && s[0] == '0' && (s[1] == 'b' || s[1] == 'B') then
      var rest := s[2..];
      if |rest| > 0 && rest[0] == '_' then Digits(rest[1..]) else Digits(rest)
    else Digits(s)
  }

  /** What `load` does with one line: skip it, store a value, or raise (Bad). */
  datatype LineResult = Skip | Value(v: nat) | Bad

  function ParseLine(line: string): (r: LineResult)
    ensures r.Skip? <==> |line| > 0 && !IsBinDigit(line[0])
    ensures r.Bad? ==> |line| == 0 || IsBinDigit(line[0])
  {
    if |line| == 0 then Bad
    else if !IsBinDigit(line[0]) then Skip
    else
      match ParseBinary(Strip(BeforeHash(line)))
      case Some(v) => Value(v)
      case None => Bad
  }

  /** The values of the kept lines up to the first line that raises; `ok` is false when one did. */
  datatype Parsed = Parsed(values: seq<int>, ok: bool)

  /** The loop of `load` over `lines`, reading each line with `parse`. */
  function Collect(parse: string -> LineResult, lines: seq<string>): Parsed
    decreases |lines|
  {
    if |lines| == 0 then Parsed([], true)
    else
      var p := Collect(parse, lines[..|lines| - 1]);
      if !p.ok then p
      else
        match parse(lines[|lines| - 1])
        case Skip => p
        case Value(v) => Parsed(p.values + [v], true)
        case Bad => Parsed(p.values, false)
  }

  function ParseLines(lines: seq<string>): Parsed
  {
    Collect(ParseLine, lines)
  }

  /** Each line stores at most one value. */
  lemma {:induction false} ParseLinesLength(lines: seq<string>)
    ensures |ParseLines(lines).values| <= |lines|
    decreases |lines|
  {
    if |lines| > 0 {
      ParseLinesLength(lines[..|lines| - 1]);
    }
  }

  /** Parsing more lines only extends the values, and nothing is added after a line that raised. */
  lemma {:induction false} ParseLinesPrefix(lines: seq<string>, i: nat)
    requires i <= |lines|
    ensures var p, q := ParseLines(lines[..i]), ParseLines(lines);
      |p.values| <= |q.values| && q.values[..|p.values|] == p.values &&
      (!p.ok ==> q == p) && (q.ok ==> p.ok)
    decreases |lines| - i
  {
    if i == |lines| {
      assert lines[..i] == lines;
    } else {
      var init := lines[..|lines| - 1];
      assert init[..i] == lines[..i];
      ParseLinesPrefix(init, i);
    }
  }

  /** Parsing one more line, as the loop in `load` does. */
  lemma ParseLinesStep(lines: seq<string>, i: nat)
    requires i < |lines|
    ensures var p := ParseLines(lines[..i]);
      ParseLines(lines[..i + 1]) ==
        if !p.ok then p
        else match ParseLine(lines[i])
          case Skip => p
          case Value(v) => Parsed(p.values + [v], true)
          case Bad => Parsed(p.values, false)
  {
    assert lines[..i + 1][..i] == lines[..i];
  }

  /** A comment or blank-looking line leaves the parse as it was. */
  lemma SkipStep(lines: seq<string>, i: nat)
    requires i < |lines| && ParseLines(lines[..i]).ok && ParseLine(lines[i]).Skip?
    ensures ParseLines(lines[..i + 1]) == ParseLines(lines[..i])
  {
    ParseLinesStep(lines, i);
  }

  /** A value line with room left in `mem`: the parse gains that value and memory gains it at the next address. */
  lemma ValueStep(mem: seq<int>, lines: seq<string>, i: nat)
    requires i < |lines| && ParseLines(lines[..i]).ok && ParseLine(lines[i]).Value?
    requires |ParseLines(lines[..i]).values| < |mem|
    ensures var p, q := ParseLines(lines[..i]), ParseLines(lines[..i + 1]);
      q.ok && |q.values| == |p.values| + 1 &&
      Store(mem, q.values) == Store(mem, p.values)[|p.values| := ParseLine(lines[i]).v]
  {
    ParseLinesStep(lines, i);
    StoreOneMore(mem, ParseLines(lines[..i]).values, ParseLine(lines[i]).v);
  }

  /** Memory after storing `values` from address 0, as far as it reaches. */
  function Store(mem: seq<int>, values: seq<int>): (r: seq<int>)
    ensures |r| == |mem|
  {
    if |values| >= |mem| then values[..|mem|] else values + mem[|values|..]
  }

  lemma StoreOneMore(mem: seq<int>, values: seq<int>, v: int)
    requires |values| < |mem|
    ensures Store(mem, values + [v]) == Store(mem, values)[|values| := v]
  {
  }

  /** Once memory is full, further values change nothing. */
  lemma StoreFull(mem: seq<int>, values: seq<int>, more: seq<int>)
    requires |values| == |mem| && |more| >= |mem| && more[..|values|] == values
    ensures Store(mem, more) == Store(mem, values)
  {
  }

  /** A line that raises ends loading: the whole file parses to what came before it, marked failed. */
  lemma StopsAtBadLine(lines: seq<string>, i: nat)
    requires i < |lines| && ParseLines(lines[..i]).ok && ParseLine(lines[i]).Bad?
    ensures ParseLines(lines) == Parsed(ParseLines(lines[..i]).values, false)
  {
    ParseLinesStep(lines, i);
    ParseLinesPrefix(lines, i + 1);
  }

  /** A value arriving when memory is full: the file has more values than memory holds, and memory keeps what it had. */
  lemma StopsWhenFull(mem: seq<int>, lines: seq<string>, i: nat)
    requires i < |lines| && ParseLines(lines[..i]).ok && ParseLine(lines[i]).Value?
    requires |ParseLines(lines[..i]).values| == |mem|
    ensures |ParseLines(lines).values| > |mem|
    ensures Store(mem, ParseLines(lines).values) == Store(mem, ParseLines(lines[..i]).values)
  {
    ParseLinesStep(lines, i);
    ParseLinesPrefix(lines, i + 1);
    var values := ParseLines(lines[..i]).values;
    var next := ParseLines(lines[..i + 1]).values;
    assert next == values + [ParseLine(lines[i]).v];
    assert next[..|values|] == values;
    StoreFull(mem, values, ParseLines(lines).values);
  }

  /** `v` written as n binary digits, most significant first. */
  function BinaryDigits(v: nat, n: nat): (s: string)
    ensures |s| == n && forall k :: 0 <= k < n ==> IsBinDigit(s[k])
  {
    if n == 0 then "" else BinaryDigits(v / 2, n - 1) + [if v % 2 == 1 then '1' else '0']
  }

  /** Reading n binary digits of v gives v back. */
  lemma {:induction false} DigitsOfBinaryDigits(v: nat, n: nat)
    requires 1 <= n && v < Bits.Pow2(n)
    ensures Digits(BinaryDigits(v, n)) == Some(v)
  {
    var s := BinaryDigits(v, n);
    var init := BinaryDigits(v / 2, n - 1);
    var d := if v % 2 == 1 then 1 else 0;
    assert s == init + [if v % 2 == 1 then '1' else '0'];
    assert s[..|s| - 1] == init;
    assert v == 2 * (v / 2) + d;
    if n == 1 {
      assert v < 2;
    } else {
      assert v / 2 < Bits.Pow2(n - 1);
      assert IsBinDigit(init[|init| - 1]);
      DigitsOfBinaryDigits(v / 2, n - 1);
      assert Digits(s) == Some(2 * (v / 2) + d);
    }
  }

  /** A program line as an assembler writes it: eight binary digits, then a comment. */
  function ListingLine(v: nat, comment: string): string
  {
    BinaryDigits(v, 8) + " #" + comment
  }

  lemma {:induction false} BeforeHashOfComment(a: string, comment: string)
    requires '#' !in a
    ensures BeforeHash(a + "#" + comment) == a
  {
    if |a| > 0 {
      assert (a + "#" + comment)[1..] == a[1..] + "#" + comment;
      BeforeHashOfComment(a[1..], comment);
    } else {
      assert (a + "#" + comment)[0] == '#';
    }
  }

  /** A listing line loads as its byte, whatever its comment says. */
  lemma ListingLineParses(v: nat, comment: string)
    requires v < 256
    ensures ParseLine(ListingLine(v, comment)) == Value(v)
  {
    var digits := BinaryDigits(v, 8);
    assert '#' !in digits + " " by {
      forall k | 0 <= k < |digits + " "| ensures (digits + " ")[k] != '#' {
        if k < |digits| { assert IsBinDigit(digits[k]); }
      }
    }
    assert ListingLine(v, comment) == (digits + " ") + "#" + comment;
    BeforeHashOfComment(digits + " ", comment);
    assert StripLeft(digits + " ") == digits + " " by { assert IsBinDigit(digits[0]); }
    assert (digits + " ")[..|digits|] == digits;
    assert StripRight(digits + " ") == StripRight(digits);
    assert IsBinDigit(digits[|digits| - 1]);
    assert StripRight(digits) == digits;
    assert IsBinDigit(digits[1]);
    assert Bits.Pow2(8) == 256;
    DigitsOfBinaryDigits(v, 8);
  }

  function Listing(values: seq<nat>, comments: seq<string>): (lines: seq<string>)
    requires |comments| == |values|
    ensures |lines| == |values|
  {
    seq(|values|, k requires 0 <= k < |values| => ListingLine(values[k], comments[k]))
  }

  /** Lines that each load as a value load as those values, in order. */
  lemma ParsesAll(lines: seq<string>, values: seq<nat>)
    requires |lines| == |values|
    requires forall k :: 0 <= k < |lines| ==> ParseLine(lines[k]) == Value(values[k])
    ensures ParseLines(lines) == Parsed(values, true)
  {
    CollectsAll(ParseLine, lines, values);
  }

  /** The same for any reading of a line, by induction on the number of lines. */
  lemma {:induction false} CollectsAll(parse: string -> LineResult, lines: seq<string>, values: seq<nat>)
    requires |lines| == |values|
    requires forall k :: 0 <= k < |lines| ==> parse(lines[k]) == Value(values[k])
    ensures Collect(parse, lines) == Parsed(values, true)
    decreases |lines|
  {
    if |lines| > 0 {
      var n := |lines| - 1;
      forall k | 0 <= k < n ensures parse(lines[..n][k]) == Value(values[..n][k]) {
        assert lines[..n][k] == lines[k];
      }
      CollectsAll(parse, lines[..n], values[..n]);
      assert values[..n] + [values[n]] == values;
    }
  }

  /** Loading a listing of bytes, with any comments, gives back exactly those bytes. */
  lemma ListingRoundTrip(values: seq<nat>, comments: seq<string>)
    requires |comments| == |values|
    requires forall k :: 0 <= k < |values| ==> values[k] < 256
    ensures ParseLines(Listing(values, comments)) == Parsed(values, true)
  {
    var lines := Listing(values, comments);
    forall k | 0 <= k < |lines| ensures ParseLine(lines[k]) == Value(values[k]) {
      ListingLineParses(values[k], comments[k]);
    }
    ParsesAll(lines, values);
  }
}
