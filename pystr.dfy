/** The Python `str` operations the scripts rely on, over `string` (a sequence of
    code points): `startswith`, `split` with an explicit separator, and `strip` with
    no argument. */
module PyStr {

  /** `s.startswith(prefix)`. */
  predicate StartsWith(s: string, prefix: string): (b: bool)
    ensures b <==> |prefix| <= |s| && forall i :: 0 <= i < |prefix| ==> s[i] == prefix[i]
  {
    |prefix| <= |s| && s[..|prefix|] == prefix
  }

  /** Number of occurrences of `c` in `s`. */
  function Count(s: string, c: char): nat
  {
    if s == [] then 0 else (if s[0] == c then 1 else 0) + Count(s[1..], c)
  }

  /** `s.split(sep)` for a one-character separator: every occurrence of `sep` cuts,
      and the pieces are kept even when empty, so there is one piece more than
      there are separators and none of them contains the separator. */
  function Split(s: string, sep: char): (parts: seq<string>)
    ensures |parts| == Count(s, sep) + 1
    ensures forall i :: 0 <= i < |parts| ==> sep !in parts[i]
    decreases |s|
  {
    if s == [] then [""]
    else
      var rest := Split(s[1..], sep);
      if s[0] == sep then [""] + rest
      else [[s[0]] + rest[0]] + rest[1..]
  }

  /** `sep.join(parts)`, the inverse of `Split`. */
  function Join(parts: seq<string>, sep: char): string
  {
    if parts == [] then ""
    else if |parts| == 1 then parts[0]
    else parts[0] + [sep] + Join(parts[1..], sep)
  }

  /** Joining the pieces again gives back the string that was split. */
  lemma {:induction false} JoinSplit(s: string, sep: char)
    ensures Join(Split(s, sep), sep) == s
    decreases |s|
  {
    if s != [] {
      JoinSplit(s[1..], sep);
      var rest := Split(s[1..], sep);
      if s[0] != sep {
        if |rest| == 1 {
          assert [s[0]] + rest[0] == s;
        } else {
          assert Join(rest, sep) == rest[0] + [sep] + Join(rest[1..], sep);
          assert [s[0]] + Join(rest, sep) == s;
        }
      } else {
        assert [sep] + s[1..] == s;
      }
    }
  }

  /** A string without the separator is a single piece. */
  lemma {:induction false} SplitWithoutSeparator(s: string, sep: char)
    requires sep !in s
    ensures Split(s, sep) == [s]
    decreases |s|
  {
    if s != [] {
      assert sep !in s[1..] by {
        forall k | 0 <= k < |s[1..]| ensures s[1..][k] != sep {
          assert s[1..][k] == s[k + 1];
        }
      }
      SplitWithoutSeparator(s[1..], sep);
      assert [s[0]] + s[1..] == s;
    }
  }

  /** Cutting at one separator splits the two sides independently. */
  lemma {:induction false} SplitAtSeparator(x: string, sep: char, y: string)
    ensures Split(x + [sep] + y, sep) == Split(x, sep) + Split(y, sep)
    decreases |x|
  {
    var s := x + [sep] + y;
    if x == [] {
      assert s[1..] == y;
    } else {
      assert s[0] == x[0];
      assert s[1..] == x[1..] + [sep] + y;
      SplitAtSeparator(x[1..], sep, y);
    }
  }

  /** A string holding the separator is cut at its first occurrence into a head
      without the separator and the remainder, which holds one separator fewer. */
  lemma {:induction false} FirstSeparator(s: string, sep: char) returns (x: string, y: string)
    requires Count(s, sep) >= 1
    ensures sep !in x && s == x + [sep] + y && Count(y, sep) == Count(s, sep) - 1
    decreases |s|
  {
    if s[0] == sep {
      x, y := [], s[1..];
      assert s == [s[0]] + s[1..];
    } else {
      var x1, y1 := FirstSeparator(s[1..], sep);
      x, y := [s[0]] + x1, y1;
      assert s == [s[0]] + s[1..];
    }
  }

  /** Splitting the joined pieces gives the pieces back, provided none of them
      contains the separator. */
  lemma {:induction false} SplitJoin(parts: seq<string>, sep: char)
    requires parts != []
    requires forall i :: 0 <= i < |parts| ==> sep !in parts[i]
    ensures Split(Join(parts, sep), sep) == parts
    decreases |parts|
  {
    SplitWithoutSeparator(parts[0], sep);
    if |parts| > 1 {
      SplitJoin(parts[1..], sep);
      SplitAtSeparator(parts[0], sep, Join(parts[1..], sep));
      assert [parts[0]] + parts[1..] == parts;
    }
  }

  /** `str.isspace()` for one character: the characters Python treats as
      whitespace (Unicode bidirectional classes WS, B and S, and category Zs). */
  predicate IsSpace(c: char): (b: bool)
    ensures ('\t' <= c <= '\r' || c == ' ') ==> b
    ensures b ==> !('!' <= c <= '~')
  {
    ('\U{9}' <= c <= '\U{D}') || ('\U{1C}' <= c <= '\U{20}') || c == '\U{85}' ||
    c == '\U{A0}' || c == '\U{1680}' || ('\U{2000}' <= c <= '\U{200A}') ||
    c == '\U{2028}' || c == '\U{2029}' || c == '\U{202F}' || c == '\U{205F}' || c == '\U{3000}'
  }

  /** Neither end of `s` is whitespace. */
  predicate Unpadded(s: string)
  {
    s == [] || (!IsSpace(s[0]) && !IsSpace(s[|s| - 1]))
  }

  /** `s.lstrip()`: the longest suffix of `s` that does not start with whitespace. */
  function StripLeading(s: string): (r: string)
    ensures |r| <= |s| && r == s[|s| - |r|..]
    ensures forall i :: 0 <= i < |s| - |r| ==> IsSpace(s[i])
    ensures r == [] || !IsSpace(r[0])
    decreases |s|
  {
    if s != [] && IsSpace(s[0]) then StripLeading(s[1..]) else s
  }

  /** `s.rstrip()`: the longest prefix of `s` that does not end with whitespace. */
  function StripTrailing(s: string): (r: string)
    ensures |r| <= |s| && r == s[..|r|]
    ensures forall i :: |r| <= i < |s| ==> IsSpace(s[i])
    ensures r == [] || !IsSpace(r[|r| - 1])
    decreases |s|
  {
    if s != [] && IsSpace(s[|s| - 1]) then StripTrailing(s[..|s| - 1]) else s
  }

  /** `s` is `r` with whitespace added: `i` characters before it and the rest after. */
  predicate PaddedBy(s: string, r: string, i: int)
  {
    0 <= i <= |s| - |r| && r == s[i..i + |r|] &&
    (forall k :: 0 <= k < i ==> IsSpace(s[k])) &&
    (forall k :: i + |r| <= k < |s| ==> IsSpace(s[k]))
  }

  /** `s.strip()`: whitespace removed from both ends and nowhere else. */
  function Strip(s: string): (r: string)
    ensures Unpadded(r)
    ensures exists i :: PaddedBy(s, r, i)
  {
    var l := StripLeading(s);
    var r := StripTrailing(l);
    StripBothEnds(s, l, r);
    assert PaddedBy(s, r, |s| - |l|);
    r
  }

  /** A prefix whose two end characters are not whitespace survives `strip()`,
      whatever follows it. */
  lemma StripKeepsPrefix(s: string, p: string)
    requires StartsWith(s, p) && p != []
    requires !IsSpace(p[0]) && !IsSpace(p[|p| - 1])
    ensures StartsWith(Strip(s), p)
  {
    var l := StripLeading(s);
    assert s[0] == p[0];
    assert l == s;
    var r := StripTrailing(l);
    assert s[|p| - 1] == p[|p| - 1];
    assert |p| <= |r|;
    assert r[..|p|] == s[..|p|];
  }

  /** Removing a whitespace prefix and then a whitespace suffix leaves a slice of
      the original that is whitespace-free at both ends. */
  lemma StripBothEnds(s: string, l: string, r: string)
    requires |l| <= |s| && l == s[|s| - |l|..]
    requires forall i :: 0 <= i < |s| - |l| ==> IsSpace(s[i])
    requires l == [] || !IsSpace(l[0])
    requires |r| <= |l| && r == l[..|r|]
    requires forall i :: |r| <= i < |l| ==> IsSpace(l[i])
    requires r == [] || !IsSpace(r[|r| - 1])
    ensures Unpadded(r) && PaddedBy(s, r, |s| - |l|)
  {
    var i := |s| - |l|;
    forall k | i + |r| <= k < |s| ensures IsSpace(s[k]) {
      assert s[k] == l[k - i];
    }
  }

  /** One line as `print` writes it comes back from `strip` as the line, provided
      its ends are not whitespace. */
  lemma StripPrintedLine(line: string)
    requires Unpadded(line)
    ensures Strip(line + "\n") == line
  {
    var s := line + "\n";
    var l := StripLeading(s);
    if line == [] {
      assert IsSpace(s[0]);
    } else {
      assert l == s;
      assert StripTrailing(s) == StripTrailing(s[..|s| - 1]);
      assert s[..|s| - 1] == line;
    }
  }
}
