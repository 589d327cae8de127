/**
 * The string operations the pages rely on: `Array.prototype.join`, splitting a
 * text at a separator (the reading side of a comma/newline separated file) and
 * `String.prototype.trim`.
 */
module Text {
  import opened Common

  /** `parts.join(sep)` with a one-character separator. */
  function Join(parts: seq<string>, sep: char): (r: string)
    ensures |parts| >= 1 ==> parts[0] <= r
  {
    if |parts| == 0 then ""
    else if |parts| == 1 then parts[0]
    else parts[0] + [sep] + Join(parts[1..], sep)
  }

  /** Joining n parts free of the separator puts exactly n - 1 separators into the text. */
  lemma {:induction false} JoinCountsSeparators(parts: seq<string>, sep: char)
    ensures |parts| >= 1 && (forall i :: 0 <= i < |parts| ==> sep !in parts[i]) ==>
      Occurrences(Join(parts, sep), sep) == |parts| - 1
  {
    if |parts| > 1 && forall i :: 0 <= i < |parts| ==> sep !in parts[i] {
      var rest := Join(parts[1..], sep);
      JoinCountsSeparators(parts[1..], sep);
      OccurrencesAppend(parts[0] + [sep], rest, sep);
      OccurrencesAppend(parts[0], [sep], sep);
      assert forall i :: 1 <= i < |parts| ==> parts[1..][i - 1] == parts[i];
    }
  }

  /** No character of `s` is in `bad`. */
  predicate Avoids(s: string, bad: set<char>)
  {
    forall i :: 0 <= i < |s| ==> s[i] !in bad
  }

  /** Cuts `s` at every `sep`; the pieces never contain `sep` and there is one more piece than separators. */
  function Split(s: string, sep: char): (r: seq<string>)
    ensures |r| == Occurrences(s, sep) + 1
    ensures forall i :: 0 <= i < |r| ==> sep !in r[i]
  {
    if s == [] then [[]]
    else
      var rest := Split(s[1..], sep);
      if s[0] == sep then [[]] + rest
      else [[s[0]] + rest[0]] + rest[1..]
  }

  /** A text without the separator is a single piece. */
  lemma {:induction false} SplitWithoutSeparator(s: string, sep: char)
    requires sep !in s
    ensures Split(s, sep) == [s]
  {
    if s != [] {
      assert s[1..] == s[1..] && sep !in s[1..] by { assert forall c :: c in s[1..] ==> c in s; }
      SplitWithoutSeparator(s[1..], sep);
      assert [s[0]] + s[1..] == s;
    }
  }

  /** Splitting `a + sep + b`, where `a` holds no separator, yields `a` followed by the pieces of `b`. */
  lemma {:induction false} SplitAfterPiece(a: string, b: string, sep: char)
    requires sep !in a
    ensures Split(a + [sep] + b, sep) == [a] + Split(b, sep)
  {
    if a == [] {
      assert a + [sep] + b == [sep] + b;
      assert ([sep] + b)[1..] == b;
    } else {
      assert (a + [sep] + b)[1..] == a[1..] + [sep] + b;
      SplitAfterPiece(a[1..], b, sep);
      assert [a[0]] + a[1..] == a;
    }
  }

  /** Join and Split are inverse when no part holds the separator. */
  lemma {:induction false} SplitJoin(parts: seq<string>, sep: char)
    requires |parts| >= 1
    requires forall i :: 0 <= i < |parts| ==> sep !in parts[i]
    ensures Split(Join(parts, sep), sep) == parts
  {
    if |parts| == 1 {
      SplitWithoutSeparator(parts[0], sep);
    } else {
      SplitJoin(parts[1..], sep);
      SplitAfterPiece(parts[0], Join(parts[1..], sep), sep);
      assert [parts[0]] + parts[1..] == parts;
    }
  }

  /** Splitting a joined text followed by more text yields the parts, then the pieces of the rest. */
  lemma {:induction false} SplitJoinThen(parts: seq<string>, b: string, sep: char)
    requires |parts| >= 1
    requires forall i :: 0 <= i < |parts| ==> sep !in parts[i]
    ensures Split(Join(parts, sep) + [sep] + b, sep) == parts + Split(b, sep)
  {
    if |parts| == 1 {
      SplitAfterPiece(parts[0], b, sep);
    } else {
      var tail := Join(parts[1..], sep);
      var rest := tail + [sep] + b;
      calc {
        Split(Join(parts, sep) + [sep] + b, sep);
        == { assert Join(parts, sep) + [sep] + b == parts[0] + [sep] + rest; }
        Split(parts[0] + [sep] + rest, sep);
        == { SplitAfterPiece(parts[0], rest, sep); }
        [parts[0]] + Split(rest, sep);
        == { SplitJoinThen(parts[1..], b, sep); }
        [parts[0]] + (parts[1..] + Split(b, sep));
        == { assert parts == [parts[0]] + parts[1..]; }
        parts + Split(b, sep);
      }
    }
  }

  /** Prefixing the first part prefixes the joined text. */
  lemma {:induction false} JoinPrefixFirst(c: char, parts: seq<string>, sep: char)
    requires |parts| >= 1
    ensures Join([[c] + parts[0]] + parts[1..], sep) == [c] + Join(parts, sep)
  {
    var q := [[c] + parts[0]] + parts[1..];
    if |parts| > 1 {
      assert q[1..] == parts[1..];
    }
  }

  /** Join undoes Split for every text. */
  lemma {:induction false} JoinSplit(s: string, sep: char)
    ensures Join(Split(s, sep), sep) == s
  {
    if s != [] {
      var rest := Split(s[1..], sep);
      JoinSplit(s[1..], sep);
      if s[0] == sep {
        var q: seq<string> := [[]] + rest;
        assert q[1..] == rest;
        assert Join(q, sep) == [] + [sep] + Join(rest, sep);
      } else {
        JoinPrefixFirst(s[0], rest, sep);
      }
      assert s == [s[0]] + s[1..];
    }
  }

  /** The characters JavaScript's `trim` removes: WhiteSpace and LineTerminator of ECMA-262. */
  predicate IsSpace(c: char)
  {
    c == '\t' || c == '\n' || c == '\U{000B}' || c == '\U{000C}' || c == '\r' || c == ' '
    || c == '\U{00A0}' || c == '\U{1680}' || ('\U{2000}' <= c <= '\U{200A}')
    || c == '\U{2028}' || c == '\U{2029}' || c == '\U{202F}' || c == '\U{205F}'
    || c == '\U{3000}' || c == '\U{FEFF}'
  }

  /** Every character of `s` is white space (vacuously so for the empty text). */
  predicate Blank(s: string)
  {
    forall i :: 0 <= i < |s| ==> IsSpace(s[i])
  }

  /** `s` neither starts nor ends with white space. */
  predicate IsTrimmed(s: string)
  {
    s == [] || (!IsSpace(s[0]) && !IsSpace(s[|s| - 1]))
  }

  /** Length of the white-space prefix of `s`. */
  function LeadingSpaces(s: string): (n: nat)
    ensures n <= |s|
    ensures forall i :: 0 <= i < n ==> IsSpace(s[i])
    ensures n < |s| ==> !IsSpace(s[n])
  {
    if s != [] && IsSpace(s[0]) then 1 + LeadingSpaces(s[1..]) else 0
  }

  /** Length of the white-space suffix of `s`. */
  function TrailingSpaces(s: string): (n: nat)
    ensures n <= |s|
    ensures forall i :: |s| - n <= i < |s| ==> IsSpace(s[i])
    ensures n < |s| ==> !IsSpace(s[|s| - 1 - n])
  {
    if s != [] && IsSpace(s[|s| - 1]) then 1 + TrailingSpaces(s[..|s| - 1]) else 0
  }

  /**
   * `s.trim()`: the longest middle part of `s` that is framed by white space only.
   * It is empty exactly when `s` is blank.
   */
  function Trim(s: string): (r: string)
    ensures IsTrimmed(r)
    ensures r == [] <==> Blank(s)
    ensures exists a, b :: 0 <= a <= b <= |s| && r == s[a..b] && Blank(s[..a]) && Blank(s[b..])
  {
    var a := LeadingSpaces(s);
    var b := a + |s[a..]| - TrailingSpaces(s[a..]);
    TrimBounds(s, a, b);
    s[a..b]
  }

  /** The cut points chosen by `Trim` frame a trimmed middle with blank ends. */
  lemma TrimBounds(s: string, a: nat, b: nat)
    requires a == LeadingSpaces(s) && b == a + |s[a..]| - TrailingSpaces(s[a..])
    ensures a <= b <= |s|
    ensures Blank(s[..a]) && Blank(s[b..]) && IsTrimmed(s[a..b])
    ensures s[a..b] == [] <==> Blank(s)
  {
    LeadingBlank(s, a);
    TrailingBlank(s, s[a..], TrailingSpaces(s[a..]));
    if a < b {
      TrimMiddle(s, a, b);
    } else {
      TrimEmpty(s, a, b);
    }
  }

  /** The white-space prefix of `s` is blank. */
  lemma LeadingBlank(s: string, a: nat)
    requires a == LeadingSpaces(s)
    ensures Blank(s[..a])
  {
    var u := s[..a];
    forall i | 0 <= i < |u| ensures IsSpace(u[i]) {
      assert u[i] == s[i];
    }
  }

  /** The white-space suffix of the rest `t` of `s` is a blank suffix of `s`. */
  lemma TrailingBlank(s: string, t: string, n: nat)
    requires |t| <= |s| && t == s[|s| - |t|..] && n == TrailingSpaces(t)
    ensures Blank(s[|s| - n..])
  {
    var u := s[|s| - n..];
    forall i | 0 <= i < |u| ensures IsSpace(u[i]) {
      assert u[i] == t[|t| - n + i];
    }
  }

  /** When `Trim` keeps something, it starts and ends with a visible character of `s`. */
  lemma TrimMiddle(s: string, a: nat, b: nat)
    requires a == LeadingSpaces(s) && b == a + |s[a..]| - TrailingSpaces(s[a..])
    requires a < b
    ensures IsTrimmed(s[a..b]) && !Blank(s)
  {
    var t := s[a..];
    var n := TrailingSpaces(t);
    var m := s[a..b];
    assert m[0] == s[a] && !IsSpace(s[a]);
    var k := |t| - 1 - n;
    assert a + k == b - 1 && |m| == b - a;
    assert t[k] == s[b - 1] == m[|m| - 1];
  }

  /** When `Trim` cuts nothing out, every character of `s` is white space. */
  lemma TrimEmpty(s: string, a: nat, b: nat)
    requires a == LeadingSpaces(s) && b == a + |s[a..]| - TrailingSpaces(s[a..])
    requires b <= a
    ensures a == |s| && Blank(s)
  {
    assert s[..a] == s;
  }

  /** Trimming twice is trimming once. */
  lemma TrimIdempotent(s: string)
    ensures Trim(Trim(s)) == Trim(s)
  {
    var r := Trim(s);
    if r != [] {
      assert LeadingSpaces(r) == 0;
      assert TrailingSpaces(r) == 0;
    }
  }
}
