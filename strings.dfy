/** The Python string operations the modelled code relies on: `startswith`,
    the substring test `sub in s`, `split(sep)`, `sep.join(parts)` and
    `strip()`. */
module Strings {

  predicate StartsWith(s: string, prefix: string) {
    |prefix| <= |s| && s[..|prefix|] == prefix
  }

  /** `sub in s` for strings. */
  predicate Contains(s: string, sub: string)
    decreases |s|
  {
    StartsWith(s, sub) || (s != [] && Contains(s[1..], sub))
  }

  /** `s.split(sep)` for a non-empty separator: the string is cut at every
      occurrence of `sep`, scanning from the left without overlaps. */
  function Split(s: string, sep: string): (parts: seq<string>)
    requires sep != []
    ensures |parts| >= 1
    decreases |s|
  {
    if s == [] then [""]
    else if StartsWith(s, sep) then [""] + Split(s[|sep|..], sep)
    else
      var rest := Split(s[1..], sep);
      [[s[0]] + rest[0]] + rest[1..]
  }

  /** `sep.join(parts)`. */
  function Join(parts: seq<string>, sep: string): string
    decreases |parts|
  {
    if parts == [] then ""
    else if |parts| == 1 then parts[0]
    else parts[0] + sep + Join(parts[1..], sep)
  }

  /** Joining the pieces of a split with the same separator gives back the
      original string. */
  lemma {:induction false} JoinSplit(s: string, sep: string)
    requires sep != []
    ensures Join(Split(s, sep), sep) == s
    decreases |s|
  {
    if s == [] {
    } else if StartsWith(s, sep) {
      JoinSplit(s[|sep|..], sep);
      JoinSplitAtSeparator(s, sep);
    } else {
      JoinSplit(s[1..], sep);
      JoinSplitAtChar(s, sep);
    }
  }

  /** The step of the round trip where the string starts with the separator. */
  lemma JoinSplitAtSeparator(s: string, sep: string)
    requires sep != [] && StartsWith(s, sep)
    requires Join(Split(s[|sep|..], sep), sep) == s[|sep|..]
    ensures Join(Split(s, sep), sep) == s
  {
    var tail := s[|sep|..];
    var rest := Split(tail, sep);
    assert s != [];
    assert Split(s, sep) == [""] + rest;
    JoinCons("", rest, sep);
    assert "" + sep + tail == sep + tail;
    assert s == sep + tail by {
      assert s == s[..|sep|] + tail;
    }
  }

  /** The step of the round trip where the string starts with another character. */
  lemma JoinSplitAtChar(s: string, sep: string)
    requires sep != [] && s != [] && !StartsWith(s, sep)
    requires Join(Split(s[1..], sep), sep) == s[1..]
    ensures Join(Split(s, sep), sep) == s
  {
    var rest := Split(s[1..], sep);
    assert Split(s, sep) == [[s[0]] + rest[0]] + rest[1..];
    JoinPrependChar(s[0], rest, sep);
    assert s == [s[0]] + s[1..];
  }

  lemma JoinCons(first: string, rest: seq<string>, sep: string)
    requires rest != []
    ensures Join([first] + rest, sep) == first + sep + Join(rest, sep)
  {
    assert ([first] + rest)[1..] == rest;
  }

  /** Prepending a character to the first piece prepends it to the join. */
  lemma JoinPrependChar(c: char, rest: seq<string>, sep: string)
    requires rest != []
    ensures Join([[c] + rest[0]] + rest[1..], sep) == [c] + Join(rest, sep)
  {
    var parts := [[c] + rest[0]] + rest[1..];
    if |rest| > 1 {
      assert parts[1..] == rest[1..];
      assert Join(parts, sep) == [c] + rest[0] + sep + Join(rest[1..], sep);
    }
  }

  /** A string in which the separator does not occur splits into itself. */
  lemma {:induction false} SplitWithoutSeparator(s: string, sep: string)
    requires sep != []
    requires !Contains(s, sep)
    ensures Split(s, sep) == [s]
    decreases |s|
  {
    if s != [] {
      SplitWithoutSeparator(s[1..], sep);
      assert [s[0]] + s[1..] == s;
    }
  }

  /** A prefix of a prefix is a prefix. */
  lemma PrefixOfPrefix(s: string, p: string, q: string)
    requires StartsWith(s, p) && StartsWith(p, q)
    ensures StartsWith(s, q)
  {
    assert s[..|q|] == p[..|q|];
  }

  /** The first piece of a split is a prefix of the string. */
  lemma {:induction false} SplitFirstIsPrefix(s: string, sep: string)
    requires sep != []
    ensures StartsWith(s, Split(s, sep)[0])
    decreases |s|
  {
    if s != [] && !StartsWith(s, sep) {
      SplitFirstIsPrefix(s[1..], sep);
      var rest := Split(s[1..], sep);
      assert Split(s, sep)[0] == [s[0]] + rest[0];
      assert s == [s[0]] + s[1..];
    }
  }

  /** No piece of a split contains the separator. */
  lemma {:induction false} SplitPiecesAvoidSeparator(s: string, sep: string)
    requires sep != []
    ensures forall p :: p in Split(s, sep) ==> !Contains(p, sep)
    decreases |s|
  {
    if s == [] {
      assert !StartsWith("", sep);
    } else if StartsWith(s, sep) {
      SplitPiecesAvoidSeparator(s[|sep|..], sep);
      assert !StartsWith("", sep);
      assert !Contains("", sep);
    } else {
      var rest := Split(s[1..], sep);
      var first := [s[0]] + rest[0];
      SplitPiecesAvoidSeparator(s[1..], sep);
      SplitFirstIsPrefix(s, sep);
      assert Split(s, sep) == [first] + rest[1..];
      assert !StartsWith(first, sep) by {
        if StartsWith(first, sep) {
          PrefixOfPrefix(s, first, sep);
        }
      }
      assert !Contains(rest[0], sep);
      assert first[1..] == rest[0];
      forall p | p in Split(s, sep) ensures !Contains(p, sep) {
        if p != first {
          assert p in rest[1..];
        }
      }
    }
  }

  /** Splitting `p + sep + t` where `p` holds no ", " cuts exactly after `p`. */
  lemma {:induction false} SplitAfterPiece(p: string, t: string)
    requires !Contains(p, ", ")
    ensures Split(p + ", " + t, ", ") == [p] + Split(t, ", ")
    decreases |p|
  {
    var s := p + ", " + t;
    if p == [] {
      assert s == ", " + t;
      assert s[2..] == t;
    } else {
      var p' := p[1..];
      assert !Contains(p', ", ");
      assert s[1..] == p' + ", " + t;
      SplitAfterPiece(p', t);
      NoSeparatorAtStart(p, t);
      var rest := Split(s[1..], ", ");
      assert Split(s, ", ") == [[s[0]] + rest[0]] + rest[1..];
      assert [s[0]] + p' == p;
    }
  }

  /** `p + ", " + t` does not start with ", " when `p` is non-empty and
      holds no ", ". */
  lemma NoSeparatorAtStart(p: string, t: string)
    requires p != [] && !Contains(p, ", ")
    ensures !StartsWith(p + ", " + t, ", ")
  {
    var s := p + ", " + t;
    assert !StartsWith(p, ", ");
    if |p| == 1 {
      assert s[1] == ',';
    } else {
      assert s[..2] == p[..2];
    }
  }

  /** Splitting a joined list of pieces that hold no ", " gives back the
      list: the converse round trip for the separator ", ". */
  lemma {:induction false} SplitJoin(parts: seq<string>)
    requires parts != []
    requires forall p :: p in parts ==> !Contains(p, ", ")
    ensures Split(Join(parts, ", "), ", ") == parts
    decreases |parts|
  {
    if |parts| == 1 {
      SplitWithoutSeparator(parts[0], ", ");
    } else {
      SplitJoin(parts[1..]);
      SplitAfterPiece(parts[0], Join(parts[1..], ", "));
      assert parts[0] + ", " + Join(parts[1..], ", ") == Join(parts, ", ");
      assert [parts[0]] + parts[1..] == parts;
    }
  }

  /** The characters for which Python's `str.isspace()` holds, and which
      `str.strip()` removes. */
  predicate IsSpace(c: char) {
    var n := c as int;
    n == 0x20 || 0x09 <= n <= 0x0D || 0x1C <= n <= 0x1F || n == 0x85 || n == 0xA0 ||
    n == 0x1680 || 0x2000 <= n <= 0x200A || n == 0x2028 || n == 0x2029 ||
    n == 0x202F || n == 0x205F || n == 0x3000
  }

  function StripLeft(s: string): string
    decreases |s|
  {
    if s != [] && IsSpace(s[0]) then StripLeft(s[1..]) else s
  }

  function StripRight(s: string): string
    decreases |s|
  {
    if s != [] && IsSpace(s[|s| - 1]) then StripRight(s[..|s| - 1]) else s
  }

  /** `s.strip()`. */
  function Strip(s: string): string {
    StripRight(StripLeft(s))
  }

  predicate AllSpace(s: string) {
    forall i :: 0 <= i < |s| ==> IsSpace(s[i])
  }

  /** `lstrip` removes a maximal all-whitespace prefix. */
  lemma {:induction false} StripLeftSpec(s: string)
    ensures var r := StripLeft(s);
      |r| <= |s| && r == s[|s| - |r|..] && AllSpace(s[..|s| - |r|]) && (r == [] || !IsSpace(r[0]))
    decreases |s|
  {
    if s != [] && IsSpace(s[0]) {
      StripLeftSpec(s[1..]);
      var r := StripLeft(s[1..]);
      assert s[1..][|s[1..]| - |r|..] == s[|s| - |r|..];
      assert s[..|s| - |r|] == [s[0]] + s[1..][..|s[1..]| - |r|];
    }
  }

  /** `rstrip` removes a maximal all-whitespace suffix. */
  lemma {:induction false} StripRightSpec(s: string)
    ensures var r := StripRight(s);
      |r| <= |s| && r == s[..|r|] && AllSpace(s[|r|..]) && (r == [] || !IsSpace(r[|r| - 1]))
    decreases |s|
  {
    if s != [] && IsSpace(s[|s| - 1]) {
      var s' := s[..|s| - 1];
      StripRightSpec(s');
      var r := StripRight(s');
      assert s'[..|r|] == s[..|r|];
      assert s[|r|..] == s'[|r|..] + [s[|s| - 1]];
    }
  }

  /** `s.strip()` is the slice of `s` between a whitespace-only prefix and a
      whitespace-only suffix, and it neither begins nor ends with whitespace. */
  lemma StripSpec(s: string)
    ensures var r := Strip(s);
      exists i :: 0 <= i <= |s| - |r| && r == s[i..i + |r|] && AllSpace(s[..i]) && AllSpace(s[i + |r|..])
    ensures var r := Strip(s); r == [] || (!IsSpace(r[0]) && !IsSpace(r[|r| - 1]))
  {
    var l := StripLeft(s);
    var r := Strip(s);
    StripLeftSpec(s);
    StripRightSpec(l);
    var i := |s| - |l|;
    assert r == s[i..i + |r|];
    assert s[i + |r|..] == l[|r|..];
    assert r != [] ==> r[0] == l[0];
  }

  /** Stripping a string that has no surrounding whitespace changes nothing. */
  lemma StripTrimmed(s: string)
    requires s == [] || (!IsSpace(s[0]) && !IsSpace(s[|s| - 1]))
    ensures Strip(s) == s
  {
  }

  /** `strip()` is idempotent. */
  lemma StripIdempotent(s: string)
    ensures Strip(Strip(s)) == Strip(s)
  {
    StripSpec(s);
    StripTrimmed(Strip(s));
  }
}
