/**
 * The small part of the Java platform the code generator leans on, stated
 * as functions: optional and failing results, `String.replace(char, char)`,
 * `Collectors.joining`, and `String.split` with a one-character pattern.
 */
module JavaLang {

  datatype Option<T> = None | Some(value: T)

  /** The unchecked exceptions the modelled code throws. */
  datatype Exception = IllegalArgumentException(message: string)

  /** A value, or the exception that was thrown instead of returning one. */
  datatype Result<T> = Ok(value: T) | Err(error: Exception)

  /** True when no character of `s` is in `chars`. */
  predicate Free(s: string, chars: set<char>)
  {
    forall i | 0 <= i < |s| :: s[i] !in chars
  }

  /** `s.replace(from, to)`: every `from` becomes `to`, nothing else moves. */
  function Replace(s: string, from: char, to: char): (r: string)
    ensures |r| == |s|
    ensures forall i | 0 <= i < |s| :: r[i] == (if s[i] == from then to else s[i])
    ensures from != to ==> Free(r, {from})
  {
    seq(|s|, i requires 0 <= i < |s| => if s[i] == from then to else s[i])
  }

  /** Replacing a character that does not occur changes nothing. */
  lemma ReplaceAbsent(s: string, from: char, to: char)
    requires Free(s, {from})
    ensures Replace(s, from, to) == s
  {
  }

  /** `Collectors.joining()`: the parts one after the other. */
  function Concat(parts: seq<string>): string
  {
    if parts == [] then "" else Concat(parts[..|parts| - 1]) + parts[|parts| - 1]
  }

  /** `Collectors.joining(sep)`: the parts with `sep` between neighbours. */
  function Join(parts: seq<string>, sep: string): string
  {
    if |parts| == 0 then ""
    else if |parts| == 1 then parts[0]
    else Join(parts[..|parts| - 1], sep) + sep + parts[|parts| - 1]
  }

  /** Joining two non-empty runs puts exactly one separator between them. */
  lemma {:induction false} JoinAppend(a: seq<string>, b: seq<string>, sep: string)
    requires a != [] && b != []
    ensures Join(a + b, sep) == Join(a, sep) + sep + Join(b, sep)
  {
    if |b| == 1 {
      assert (a + b)[..|a + b| - 1] == a;
    } else {
      var b' := b[..|b| - 1];
      assert (a + b)[..|a + b| - 1] == a + b';
      JoinAppend(a, b', sep);
    }
  }

  /**
   * With non-empty parts, the joined text is empty exactly when there are
   * no parts (whatever the separator).
   */
  lemma {:induction false} JoinEmptyIff(parts: seq<string>, sep: string)
    requires forall i | 0 <= i < |parts| :: parts[i] != ""
    ensures Join(parts, sep) == "" <==> parts == []
  {
    if |parts| > 1 {
      var last := parts[|parts| - 1];
      assert |Join(parts, sep)| >= |last| > 0;
    }
  }

  /**
   * The pieces of `s` between delimiter characters: every single delimiter
   * separates, so k delimiters give k + 1 pieces (empty ones included).
   */
  function Pieces(s: string, delims: set<char>): (r: seq<string>)
    ensures |r| >= 1
  {
    if s == [] then [""]
    else
      var rest := Pieces(s[1..], delims);
      if s[0] in delims then [""] + rest else [[s[0]] + rest[0]] + rest[1..]
  }

  /** What `split` does after cutting: trailing empty strings are removed. */
  function DropTrailingEmpty(ps: seq<string>): (r: seq<string>)
    ensures |r| <= |ps| && r == ps[..|r|]
    ensures r == [] || r[|r| - 1] != ""
    ensures forall i | |r| <= i < |ps| :: ps[i] == ""
  {
    if ps != [] && ps[|ps| - 1] == "" then DropTrailingEmpty(ps[..|ps| - 1]) else ps
  }

  /**
   * `s.split(regex)` where the regex matches exactly one character of
   * `delims`: when nothing matches the answer is `[s]` (even for ""),
   * otherwise the pieces without the trailing empty ones.
   */
  function Split(s: string, delims: set<char>): seq<string>
  {
    if Free(s, delims) then [s] else DropTrailingEmpty(Pieces(s, delims))
  }

  /** No piece contains a delimiter. */
  lemma {:induction false} PiecesFree(s: string, delims: set<char>)
    ensures forall k | 0 <= k < |Pieces(s, delims)| :: Free(Pieces(s, delims)[k], delims)
  {
    if s != [] {
      PiecesFree(s[1..], delims);
      var rest := Pieces(s[1..], delims);
      if s[0] !in delims {
        assert Free(rest[0], delims);
        var first := [s[0]] + rest[0];
        assert Free(first, delims) by {
          forall i | 0 <= i < |first| ensures first[i] !in delims {
            if i > 0 { assert first[i] == rest[0][i - 1]; }
          }
        }
      }
    }
  }

  /** Without delimiters, `s` is a single piece. */
  lemma {:induction false} PiecesOfFree(s: string, delims: set<char>)
    requires Free(s, delims)
    ensures Pieces(s, delims) == [s]
  {
    if s != [] {
      assert Free(s[1..], delims);
      PiecesOfFree(s[1..], delims);
      assert [s[0]] + s[1..] == s;
    }
  }

  /** A delimiter between `a` and `b` splits their pieces apart. */
  lemma {:induction false} PiecesAround(a: string, d: char, b: string, delims: set<char>)
    requires d in delims
    ensures Pieces(a + [d] + b, delims) == Pieces(a, delims) + Pieces(b, delims)
  {
    if a == [] {
      assert a + [d] + b == [d] + b;
      assert ([d] + b)[1..] == b;
    } else {
      var s := a + [d] + b;
      assert s[1..] == a[1..] + [d] + b;
      PiecesAround(a[1..], d, b, delims);
    }
  }

  /**
   * Round trip for a single delimiter: joining the pieces with it gives
   * back the original text.
   */
  lemma {:induction false} PiecesJoin(s: string, d: char)
    ensures Join(Pieces(s, {d}), [d]) == s
  {
    if s != [] {
      PiecesJoin(s[1..], d);
      var rest := Pieces(s[1..], {d});
      if s[0] == d {
        JoinPrependEmpty(rest, [d]);
      } else {
        JoinPrependChar(s[0], rest, [d]);
      }
      assert [s[0]] + s[1..] == s;
    }
  }

  /** An empty first part contributes only the separator. */
  lemma JoinPrependEmpty(parts: seq<string>, sep: string)
    requires parts != []
    ensures Join([""] + parts, sep) == sep + Join(parts, sep)
  {
    if |parts| == 1 {
      assert [""] + parts == ["", parts[0]];
    } else {
      JoinAppend([""], parts, sep);
    }
  }

  /** A character put in front of the first part comes first in the joined text. */
  lemma JoinPrependChar(c: char, parts: seq<string>, sep: string)
    requires parts != []
    ensures Join([[c] + parts[0]] + parts[1..], sep) == [c] + Join(parts, sep)
  {
    if |parts| > 1 {
      assert parts == [parts[0]] + parts[1..];
      JoinAppend([parts[0]], parts[1..], sep);
      JoinAppend([[c] + parts[0]], parts[1..], sep);
    }
  }

  /** `split` yields no delimiters in any of its strings. */
  lemma SplitFree(s: string, delims: set<char>)
    ensures forall k | 0 <= k < |Split(s, delims)| :: Free(Split(s, delims)[k], delims)
  {
    if !Free(s, delims) {
      PiecesFree(s, delims);
      var ps := Pieces(s, delims);
      var r := DropTrailingEmpty(ps);
      assert forall k | 0 <= k < |r| :: r[k] == ps[k];
    }
  }

  /** Every piece is empty exactly when every character is a delimiter. */
  lemma {:induction false} PiecesAllEmpty(s: string, delims: set<char>)
    ensures (forall k | 0 <= k < |Pieces(s, delims)| :: Pieces(s, delims)[k] == "")
        <==> (forall i | 0 <= i < |s| :: s[i] in delims)
  {
    if s != [] {
      PiecesAllEmpty(s[1..], delims);
      var rest := Pieces(s[1..], delims);
      var ps := Pieces(s, delims);
      if s[0] in delims {
        assert ps == [""] + rest;
        assert forall i | 1 <= i < |s| :: s[i] == s[1..][i - 1];
        if forall k | 0 <= k < |rest| :: rest[k] == "" {
          assert forall k | 0 <= k < |ps| :: ps[k] == "" by {
            forall k | 0 <= k < |ps| ensures ps[k] == "" {
              if k > 0 { assert ps[k] == rest[k - 1]; }
            }
          }
        } else {
          var k :| 0 <= k < |rest| && rest[k] != "";
          assert ps[k + 1] == rest[k];
        }
      } else {
        assert ps[0] == [s[0]] + rest[0];
      }
    }
  }

  /**
   * `split` returns nothing at all exactly when the text is non-empty and
   * made only of delimiters (this is what makes `split(...)[length - 1]`
   * throw).
   */
  lemma SplitEmptyIff(s: string, delims: set<char>)
    ensures Split(s, delims) == [] <==> s != [] && forall i | 0 <= i < |s| :: s[i] in delims
  {
    if Free(s, delims) {
      if s != [] { assert s[0] !in delims; }
    } else {
      PiecesAllEmpty(s, delims);
      var ps := Pieces(s, delims);
      var r := DropTrailingEmpty(ps);
      assert r == [] <==> forall k | 0 <= k < |ps| :: ps[k] == "" by {
        if r != [] {
          assert r[|r| - 1] == ps[|r| - 1] != "";
        }
      }
    }
  }

  /**
   * When `s` ends in a non-empty delimiter-free segment after its last
   * delimiter, `split` ends with exactly that segment.
   */
  lemma SplitLast(prefix: string, d: char, last: string, delims: set<char>)
    requires d in delims && last != [] && Free(last, delims)
    ensures var r := Split(prefix + [d] + last, delims); r != [] && r[|r| - 1] == last
  {
    var s := prefix + [d] + last;
    assert s[|prefix|] == d;
    PiecesAround(prefix, d, last, delims);
    PiecesOfFree(last, delims);
    var ps := Pieces(s, delims);
    assert ps[|ps| - 1] == last;
  }

  /** Java `int` arithmetic: the value wrapped into the 32-bit two's-complement range. */
  function ToInt32(x: int): (r: int)
    ensures -0x8000_0000 <= r < 0x8000_0000
    ensures (x - r) % 0x1_0000_0000 == 0
    ensures -0x8000_0000 <= x < 0x8000_0000 ==> r == x
  {
    (x + 0x8000_0000) % 0x1_0000_0000 - 0x8000_0000
  }

  /** `String.hashCode`: `h = 31 * h + c` over the characters, in `int` arithmetic. */
  function StringHash(s: string): (r: int)
    ensures -0x8000_0000 <= r < 0x8000_0000
  {
    if s == [] then 0 else ToInt32(31 * StringHash(s[..|s| - 1]) + s[|s| - 1] as int)
  }

  /** `Boolean.hashCode`. */
  function BooleanHash(b: bool): int
  {
    if b then 1231 else 1237
  }

  /** `Objects.hash(v1, ..., vn)` given the values' own hashes: `h = 31 * h + hi` from 1. */
  function ObjectsHash(hashes: seq<int>): (r: int)
    ensures -0x8000_0000 <= r < 0x8000_0000
  {
    if hashes == [] then 1 else ToInt32(31 * ObjectsHash(hashes[..|hashes| - 1]) + hashes[|hashes| - 1])
  }
}
