/**
 * `StringUtil`: a table of space prefixes filled once, `getPrefix`, and
 * `indent`, which puts a prefix in front of every line of a text and ends
 * every line with a newline.
 */
module Indentation {
  import opened JavaLang

  /** The longest prefix kept in the table. */
  const HighestGeneratedPrefix: nat := 16

  /** Exactly `n` spaces. */
  function Spaces(n: nat): (r: string)
    ensures |r| == n && forall i | 0 <= i < n :: r[i] == ' '
  {
    if n == 0 then "" else Spaces(n - 1) + " "
  }

  lemma SpacesAdd(a: nat, b: nat)
    ensures Spaces(a) + Spaces(b) == Spaces(a + b)
  {
    assert forall i | 0 <= i < a + b :: (Spaces(a) + Spaces(b))[i] == ' ';
  }

  /** The line terminators `indent` splits at: the pattern `\r|\r\n|\n`. */
  const Terminators: set<char> := {'\r', '\n'}

  /**
   * The lines of `s` as `indent` sees them. The alternative `\r` is tried
   * before `\r\n`, so each `\r` and each `\n` ends a line on its own.
   */
  function Lines(s: string): seq<string>
  {
    Split(s, Terminators)
  }

  /** Each line, behind `prefix` and before a newline, one after the other. */
  function PrefixLines(lines: seq<string>, prefix: string): string
  {
    if lines == [] then ""
    else PrefixLines(lines[..|lines| - 1], prefix) + prefix + lines[|lines| - 1] + "\n"
  }

  /** What `indent(s, n)` returns. */
  function Indented(s: string, n: nat): string
  {
    PrefixLines(Lines(s), Spaces(n))
  }

  /** A text with no terminators is one line: prefix, text, newline. */
  lemma IndentedSingleLine(s: string, n: nat)
    requires Free(s, Terminators)
    ensures Indented(s, n) == Spaces(n) + s + "\n"
  {
    assert Lines(s) == [s];
    assert [s][..0] == [];
    assert PrefixLines([s], Spaces(n)) == PrefixLines([], Spaces(n)) + Spaces(n) + s + "\n";
  }

  /** The empty text still gives one (blank) line: `indent("", 4)` is four spaces and a newline. */
  lemma IndentedEmpty()
    ensures Indented("", 4) == "    \n"
  {
    IndentedSingleLine("", 4);
  }

  /** `\r\n` counts as two terminators, so it leaves an empty line between. */
  lemma CarriageReturnNewline()
    ensures Lines("a\r\nb") == ["a", "", "b"]
  {
    var s := "a\r\nb";
    assert !Free(s, Terminators) by { assert s[1] == '\r'; }
    assert s == "a" + ['\r'] + ("" + ['\n'] + "b");
    PiecesAround("a", '\r', "" + ['\n'] + "b", Terminators);
    PiecesAround("", '\n', "b", Terminators);
    PiecesOfFree("a", Terminators);
    PiecesOfFree("b", Terminators);
    assert Pieces(s, Terminators) == ["a", "", "b"];
    assert Split(s, Terminators) == DropTrailingEmpty(["a", "", "b"]);
  }

  /** The prefixed lines contain the lines' characters, spaces and newlines only. */
  lemma {:induction false} PrefixLinesChars(lines: seq<string>, n: nat, c: char)
    requires c != ' ' && c != '\n'
    requires forall k | 0 <= k < |lines| :: Free(lines[k], {c})
    ensures Free(PrefixLines(lines, Spaces(n)), {c})
  {
    if lines != [] {
      var init := lines[..|lines| - 1];
      PrefixLinesChars(init, n, c);
      var r := PrefixLines(lines, Spaces(n));
      var head := PrefixLines(init, Spaces(n));
      var last := lines[|lines| - 1];
      assert r == head + Spaces(n) + last + "\n";
      forall i | 0 <= i < |r| ensures r[i] != c {
        if i < |head| {
          assert r[i] == head[i];
        } else if i < |head| + n {
          assert r[i] == Spaces(n)[i - |head|];
        } else if i < |head| + n + |last| {
          assert r[i] == last[i - |head| - n];
        }
      }
    }
  }

  /** `indent` never emits a carriage return. */
  lemma IndentedHasNoCarriageReturn(s: string, n: nat)
    ensures Free(Indented(s, n), {'\r'})
  {
    SplitFree(s, Terminators);
    PrefixLinesChars(Lines(s), n, '\r');
  }

  /** True when a line of `r` starts at position `i`. */
  predicate LineStart(r: string, i: nat)
  {
    i < |r| && (i == 0 || r[i - 1] == '\n')
  }

  /**
   * Every line the output holds starts with the prefix, and the output is
   * empty or ends with a newline.
   */
  lemma {:induction false} PrefixLinesShape(lines: seq<string>, n: nat)
    requires forall k | 0 <= k < |lines| :: Free(lines[k], {'\n'})
    ensures var r := PrefixLines(lines, Spaces(n));
      (r == "" || r[|r| - 1] == '\n') &&
      forall i: nat | LineStart(r, i) :: i + n <= |r| && r[i..i + n] == Spaces(n)
  {
    if lines != [] {
      var init := lines[..|lines| - 1];
      PrefixLinesShape(init, n);
      var r := PrefixLines(lines, Spaces(n));
      var head := PrefixLines(init, Spaces(n));
      var last := lines[|lines| - 1];
      assert r == head + Spaces(n) + last + "\n";
      forall i: nat | LineStart(r, i) ensures i + n <= |r| && r[i..i + n] == Spaces(n) {
        if i < |head| {
          assert LineStart(head, i) by { if i > 0 { assert head[i - 1] == r[i - 1]; } }
          assert r[i..i + n] == head[i..i + n];
        } else if i == |head| {
          assert r[i..i + n] == Spaces(n);
        } else {
          assert false;
        }
      }
    }
  }

  /** Every output line of `indent(s, n)` begins with `n` spaces. */
  lemma IndentedLinesArePrefixed(s: string, n: nat)
    ensures var r := Indented(s, n);
      (r == "" || r[|r| - 1] == '\n') &&
      forall i: nat | LineStart(r, i) :: i + n <= |r| && r[i..i + n] == Spaces(n)
  {
    SplitFree(s, Terminators);
    PrefixLinesShape(Lines(s), n);
  }

  /**
   * The class `StringUtil` with its static state: the table of prefixes
   * that its static initialiser fills.
   */
  class StringUtil {
    const prefixes: array<string>

    ghost predicate Valid()
      reads prefixes
    {
      prefixes.Length == HighestGeneratedPrefix + 1 &&
      forall i | 0 <= i < prefixes.Length :: prefixes[i] == Spaces(i)
    }

    /** The static initialiser: entry `i` of the table is `i` spaces. */
    constructor ()
      ensures Valid() && fresh(prefixes)
    {
      var table := new string[HighestGeneratedPrefix + 1];
      var pfb := "";
      for i := 0 to HighestGeneratedPrefix + 1
        invariant pfb == Spaces(i)
        invariant forall k | 0 <= k < i :: table[k] == Spaces(k)
      {
        table[i] := pfb;
        pfb := pfb + " ";
      }
      prefixes := table;
    }

    /** `getPrefix(indent)`: from the table, or built from 16-space blocks. */
    method GetPrefix(indent: nat) returns (r: string)
      requires Valid()
      ensures r == Spaces(indent)
    {
      if indent <= HighestGeneratedPrefix {
        return prefixes[indent];
      }
      var result := "";
      var rest := indent;
      while rest > HighestGeneratedPrefix
        invariant 0 <= rest <= indent
        invariant result == Spaces(indent - rest)
      {
        SpacesAdd(indent - rest, HighestGeneratedPrefix);
        result := result + prefixes[HighestGeneratedPrefix];
        rest := rest - HighestGeneratedPrefix;
      }
      SpacesAdd(indent - rest, rest);
      r := result + prefixes[rest];
    }

    /** `indent(str, indent)`: every line behind the prefix and before a newline. */
    method Indent(str: string, indent: nat) returns (r: string)
      requires Valid()
      ensures r == Indented(str, indent)
    {
      var prefix := GetPrefix(indent);
      var lines := Lines(str);
      var b := "";
      for i := 0 to |lines|
        invariant b == PrefixLines(lines[..i], prefix)
      {
        assert lines[..i + 1][..i] == lines[..i];
        b := b + prefix + lines[i] + "\n";
      }
      assert lines[..|lines|] == lines;
      r := b;
    }
  }
}
