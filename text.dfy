/*
 * String operations the harvester borrows from Python's `str`: `split`, `join`,
 * the `in` test for substrings, `strip`, `rstrip` and `replace`, and the
 * list-of-characters view a string turns into when a list is extended with it.
 * Each is defined by recursion and given a partner: an independent
 * characterisation or an inverse, proved for all inputs.
 */
module Text {

  /**
   * Python's `\d` in a `str` pattern without `re.ASCII`, which is also what
   * `str.format` reads as a positional index: a Unicode decimal digit (general
   * category Nd, Unicode 15.0). The ASCII digits are tested first, so that a
   * character below U+0660 needs no look at the table.
   */
  predicate IsDigit(c: char) {
    '0' <= c <= '9' || ('\U{660}' <= c && IsNonAsciiDigit(c as int))
  }

  /** The code points of the decimal digits outside ASCII, in runs from each script's zero. */
  predicate IsNonAsciiDigit(n: int) {
    (0x660 <= n < 0x66A) || (0x6F0 <= n < 0x6FA) || (0x7C0 <= n < 0x7CA) || (0x966 <= n < 0x970) ||
    (0x9E6 <= n < 0x9F0) || (0xA66 <= n < 0xA70) || (0xAE6 <= n < 0xAF0) || (0xB66 <= n < 0xB70) ||
    (0xBE6 <= n < 0xBF0) || (0xC66 <= n < 0xC70) || (0xCE6 <= n < 0xCF0) || (0xD66 <= n < 0xD70) ||
    (0xDE6 <= n < 0xDF0) || (0xE50 <= n < 0xE5A) || (0xED0 <= n < 0xEDA) || (0xF20 <= n < 0xF2A) ||
    (0x1040 <= n < 0x104A) || (0x1090 <= n < 0x109A) || (0x17E0 <= n < 0x17EA) || (0x1810 <= n < 0x181A) ||
    (0x1946 <= n < 0x1950) || (0x19D0 <= n < 0x19DA) || (0x1A80 <= n < 0x1A8A) || (0x1A90 <= n < 0x1A9A) ||
    (0x1B50 <= n < 0x1B5A) || (0x1BB0 <= n < 0x1BBA) || (0x1C40 <= n < 0x1C4A) || (0x1C50 <= n < 0x1C5A) ||
    (0xA620 <= n < 0xA62A) || (0xA8D0 <= n < 0xA8DA) || (0xA900 <= n < 0xA90A) || (0xA9D0 <= n < 0xA9DA) ||
    (0xA9F0 <= n < 0xA9FA) || (0xAA50 <= n < 0xAA5A) || (0xABF0 <= n < 0xABFA) || (0xFF10 <= n < 0xFF1A) ||
    (0x104A0 <= n < 0x104AA) || (0x10D30 <= n < 0x10D3A) || (0x11066 <= n < 0x11070) ||
    (0x110F0 <= n < 0x110FA) || (0x11136 <= n < 0x11140) || (0x111D0 <= n < 0x111DA) ||
    (0x112F0 <= n < 0x112FA) || (0x11450 <= n < 0x1145A) || (0x114D0 <= n < 0x114DA) ||
    (0x11650 <= n < 0x1165A) || (0x116C0 <= n < 0x116CA) || (0x11730 <= n < 0x1173A) ||
    (0x118E0 <= n < 0x118EA) || (0x11950 <= n < 0x1195A) || (0x11C50 <= n < 0x11C5A) ||
    (0x11D50 <= n < 0x11D5A) || (0x11DA0 <= n < 0x11DAA) || (0x11F50 <= n < 0x11F5A) ||
    (0x16A60 <= n < 0x16A6A) || (0x16AC0 <= n < 0x16ACA) || (0x16B50 <= n < 0x16B5A) ||
    (0x1D7CE <= n < 0x1D800) || (0x1E140 <= n < 0x1E14A) || (0x1E2F0 <= n < 0x1E2FA) ||
    (0x1E4F0 <= n < 0x1E4FA) || (0x1E950 <= n < 0x1E95A) || (0x1FBF0 <= n < 0x1FBFA)
  }

  /** The characters Python's `str.isspace` (and therefore `str.strip()`) treats as white space. */
  predicate IsSpace(c: char) {
    c == ' ' || ('\t' <= c <= '\r') || ('\U{1c}' <= c <= '\U{1f}') ||
    c == '\U{85}' || c == '\U{a0}' || c == '\U{1680}' || ('\U{2000}' <= c <= '\U{200a}') ||
    c == '\U{2028}' || c == '\U{2029}' || c == '\U{202f}' || c == '\U{205f}' || c == '\U{3000}'
  }

  /** `sub` occurs in `s` starting at index `i`. */
  ghost predicate OccursAt(sub: string, s: string, i: int) {
    0 <= i && i + |sub| <= |s| && s[i..i + |sub|] == sub
  }

  /** Python's `sub in s`. */
  predicate Contains(s: string, sub: string)
    decreases |s|
  {
    |sub| <= |s| && (s[..|sub|] == sub || Contains(s[1..], sub))
  }

  lemma {:induction false} ContainsIffOccurs(s: string, sub: string)
    ensures Contains(s, sub) <==> exists i :: OccursAt(sub, s, i)
    decreases |s|
  {
    if |sub| <= |s| {
      if s[..|sub|] == sub {
        assert OccursAt(sub, s, 0);
      } else {
        ContainsIffOccurs(s[1..], sub);
        if Contains(s[1..], sub) {
          var i :| OccursAt(sub, s[1..], i);
          assert s[1..][i..i + |sub|] == s[i + 1..i + 1 + |sub|];
          assert OccursAt(sub, s, i + 1);
        }
        if i :| OccursAt(sub, s, i) {
          assert i != 0;
          assert s[1..][i - 1..i - 1 + |sub|] == s[i..i + |sub|];
          assert OccursAt(sub, s[1..], i - 1);
        }
      }
    }
  }

  /** Python's `s.split(sep)` for a non-empty separator: left to right, non-overlapping. */
  function Split(s: string, sep: string): (r: seq<string>)
    requires sep != []
    ensures |r| >= 1
    decreases |s|
  {
    if |s| < |sep| then [s]
    else if s[..|sep|] == sep then [""] + Split(s[|sep|..], sep)
    else
      var rest := Split(s[1..], sep);
      [[s[0]] + rest[0]] + rest[1..]
  }

  /** Python's `sep.join(parts)`. */
  function Join(parts: seq<string>, sep: string): (r: string)
  {
    if |parts| == 0 then ""
    else if |parts| == 1 then parts[0]
    else parts[0] + sep + Join(parts[1..], sep)
  }

  /** Joining the pieces of a split with the same separator gives back the original string. */
  lemma {:induction false} JoinSplit(s: string, sep: string)
    requires sep != []
    ensures Join(Split(s, sep), sep) == s
    decreases |s|
  {
    if |s| < |sep| {
    } else if s[..|sep|] == sep {
      var tail := s[|sep|..];
      JoinSplit(tail, sep);
      JoinSplitAtSeparator(s, sep, tail, Split(tail, sep));
    } else {
      var tail := s[1..];
      JoinSplit(tail, sep);
      JoinSplitPastChar(s, sep, tail, Split(tail, sep));
    }
  }

  /** `JoinSplit` when `s` starts with the separator. */
  lemma JoinSplitAtSeparator(s: string, sep: string, tail: string, rest: seq<string>)
    requires sep != [] && |s| >= |sep| && s[..|sep|] == sep && tail == s[|sep|..]
    requires rest == Split(tail, sep) && Join(rest, sep) == tail
    ensures Join(Split(s, sep), sep) == s
  {
    var r := [""] + rest;
    assert Split(s, sep) == r;
    assert r[1..] == rest;
    assert Join(r, sep) == "" + sep + Join(rest, sep);
    assert s == s[..|sep|] + tail;
  }

  /** `JoinSplit` when `s` does not start with the separator. */
  lemma JoinSplitPastChar(s: string, sep: string, tail: string, rest: seq<string>)
    requires sep != [] && |s| >= |sep| && s[..|sep|] != sep && tail == s[1..]
    requires rest == Split(tail, sep) && Join(rest, sep) == tail
    ensures Join(Split(s, sep), sep) == s
  {
    var c := s[0];
    assert Split(s, sep) == [[c] + rest[0]] + rest[1..];
    JoinExtendsFirst(c, rest, sep);
    assert s == [c] + tail;
  }

  /** Putting a character in front of the first piece puts it in front of the joined text. */
  lemma JoinExtendsFirst(c: char, rest: seq<string>, sep: string)
    requires rest != []
    ensures Join([[c] + rest[0]] + rest[1..], sep) == [c] + Join(rest, sep)
  {
    var r := [[c] + rest[0]] + rest[1..];
    if |rest| > 1 {
      assert r[1..] == rest[1..];
      assert Join(r, sep) == ([c] + rest[0]) + sep + Join(rest[1..], sep);
      assert Join(rest, sep) == rest[0] + sep + Join(rest[1..], sep);
    }
  }

  /** No piece of a split contains the separator. */
  lemma {:induction false} SplitPiecesAvoidSeparator(s: string, sep: string, k: nat)
    requires sep != [] && k < |Split(s, sep)|
    ensures !Contains(Split(s, sep)[k], sep)
    decreases |s|
  {
    var r := Split(s, sep);
    if |s| < |sep| {
      NotContainsShort(s, sep);
    } else if s[..|sep|] == sep {
      if k == 0 { NotContainsShort("", sep); } else { SplitPiecesAvoidSeparator(s[|sep|..], sep, k - 1); }
    } else {
      var rest := Split(s[1..], sep);
      if k == 0 {
        SplitPiecesAvoidSeparator(s[1..], sep, 0);
        SplitFirstIsPrefix(s[1..], sep);
        var p := [s[0]] + rest[0];
        assert p[1..] == rest[0];
        if |sep| <= |p| {
          assert p[..|sep|] == s[..|sep|];
        }
      } else {
        SplitPiecesAvoidSeparator(s[1..], sep, k);
      }
    }
  }

  lemma NotContainsShort(s: string, sub: string)
    requires |s| < |sub|
    ensures !Contains(s, sub)
  {
  }

  /** The first piece of a split is a prefix of the string. */
  lemma {:induction false} SplitFirstIsPrefix(s: string, sep: string)
    requires sep != []
    ensures |Split(s, sep)[0]| <= |s| && Split(s, sep)[0] == s[..|Split(s, sep)[0]|]
    decreases |s|
  {
    if |s| >= |sep| && s[..|sep|] != sep {
      SplitFirstIsPrefix(s[1..], sep);
    }
  }

  /** The last element of a non-empty sequence: Python's `xs[-1]`. */
  function Last<T>(xs: seq<T>): T
    requires xs != []
  {
    xs[|xs| - 1]
  }

  /**
   * `s.split(sep)[-1]`: the text after the last separator found by a left-to-right
   * scan, or all of `s` when the separator does not occur.
   */
  function AfterLast(s: string, sep: string): (r: string)
    requires sep != []
  {
    Last(Split(s, sep))
  }

  /** The piece after the last separator is a suffix of the string that holds no separator. */
  lemma AfterLastIsSeparatorFreeSuffix(s: string, sep: string)
    requires sep != []
    ensures |AfterLast(s, sep)| <= |s| && AfterLast(s, sep) == s[|s| - |AfterLast(s, sep)|..]
    ensures !Contains(AfterLast(s, sep), sep)
    ensures !Contains(s, sep) ==> AfterLast(s, sep) == s
  {
    var r := Split(s, sep);
    SplitPiecesAvoidSeparator(s, sep, |r| - 1);
    JoinSplit(s, sep);
    JoinEndsWithLast(r, sep);
    if !Contains(s, sep) {
      SplitWithoutSeparator(s, sep);
    }
  }

  lemma {:induction false} JoinEndsWithLast(parts: seq<string>, sep: string)
    requires parts != []
    ensures var j := Join(parts, sep); |Last(parts)| <= |j| && j[|j| - |Last(parts)|..] == Last(parts)
  {
    if |parts| > 1 {
      JoinEndsWithLast(parts[1..], sep);
      assert Last(parts[1..]) == Last(parts);
    }
  }

  /** A string without the separator splits into itself alone. */
  lemma {:induction false} SplitWithoutSeparator(s: string, sep: string)
    requires sep != [] && !Contains(s, sep)
    ensures Split(s, sep) == [s]
    decreases |s|
  {
    if |s| >= |sep| {
      assert s[..|sep|] != sep;
      SplitWithoutSeparator(s[1..], sep);
      assert s == [s[0]] + s[1..];
    }
  }

  /** Python's `s.lstrip()`. */
  function StripLeft(s: string): (r: string)
    ensures |r| <= |s| && r == s[|s| - |r|..]
    ensures forall k :: 0 <= k < |s| - |r| ==> IsSpace(s[k])
    ensures r != [] ==> !IsSpace(r[0])
    decreases |s|
  {
    if |s| > 0 && IsSpace(s[0]) then StripLeft(s[1..]) else s
  }

  /** Python's `s.rstrip(chars)` where `chars` is given as a predicate on characters. */
  function StripRightWhere(s: string, drop: char -> bool): (r: string)
    ensures |r| <= |s| && r == s[..|r|]
    ensures forall k :: |r| <= k < |s| ==> drop(s[k])
    ensures r != [] ==> !drop(r[|r| - 1])
    decreases |s|
  {
    if |s| > 0 && drop(s[|s| - 1]) then StripRightWhere(s[..|s| - 1], drop) else s
  }

  /** `r` is the part of `s` from index `i` on, with only white space before and after it. */
  ghost predicate SpacePadded(s: string, r: string, i: int) {
    0 <= i && i + |r| <= |s| && r == s[i..i + |r|] &&
    (forall k :: 0 <= k < i ==> IsSpace(s[k])) && (forall k :: i + |r| <= k < |s| ==> IsSpace(s[k]))
  }

  /** Python's `s.strip()`: white space removed from both ends. */
  function Strip(s: string): (r: string)
    ensures |r| <= |s|
    ensures exists i :: SpacePadded(s, r, i)
    ensures r == [] || (!IsSpace(r[0]) && !IsSpace(r[|r| - 1]))
  {
    var left := StripLeft(s);
    var r := StripRightWhere(left, IsSpace);
    StripBothEnds(s, left, r);
    r
  }

  /** What `Strip` keeps is a window of `s` with only white space on either side of it. */
  lemma StripBothEnds(s: string, left: string, r: string)
    requires left == StripLeft(s) && r == StripRightWhere(left, IsSpace)
    ensures |r| <= |s| && SpacePadded(s, r, |s| - |left|)
    ensures r == [] || (!IsSpace(r[0]) && !IsSpace(r[|r| - 1]))
  {
    WindowOfSuffix(s, left, r, IsSpace);
    PrefixEnds(left, r, IsSpace);
  }

  /** A prefix `r` of `left` that does not end in a dropped character keeps `left`'s first character. */
  lemma PrefixEnds(left: string, r: string, drop: char -> bool)
    requires |r| <= |left| && r == left[..|r|]
    requires left != [] ==> !drop(left[0])
    requires r != [] ==> !drop(r[|r| - 1])
    ensures r == [] || (!drop(r[0]) && !drop(r[|r| - 1]))
  {
    if r != [] {
      assert r[0] == left[0];
    }
  }

  /** A prefix `r` of a suffix `left` of `s`, where `drop` holds on what follows `r` in `left`. */
  lemma WindowOfSuffix(s: string, left: string, r: string, drop: char -> bool)
    requires |left| <= |s| && left == s[|s| - |left|..]
    requires |r| <= |left| && r == left[..|r|]
    requires forall k :: |r| <= k < |left| ==> drop(left[k])
    ensures var i := |s| - |left|;
      i + |r| <= |s| && r == s[i..i + |r|] && forall k :: i + |r| <= k < |s| ==> drop(s[k])
  {
    var i := |s| - |left|;
    forall k | i + |r| <= k < |s|
      ensures drop(s[k])
    {
      assert s[k] == left[k - i];
    }
  }

  /** Python's `s.rstrip(":")`. */
  function StripColons(s: string): (r: string)
    ensures |r| <= |s| && r == s[..|r|]
    ensures forall k :: |r| <= k < |s| ==> s[k] == ':'
    ensures r == [] || r[|r| - 1] != ':'
  {
    StripRightWhere(s, c => c == ':')
  }

  /** Python's `s.replace(pat, "")`: a single left-to-right pass removing non-overlapping occurrences. */
  function RemoveAll(s: string, pat: string): (r: string)
    requires pat != []
    decreases |s|
  {
    if |s| < |pat| then s
    else if s[..|pat|] == pat then RemoveAll(s[|pat|..], pat)
    else [s[0]] + RemoveAll(s[1..], pat)
  }

  /** The identity `s.replace(pat, "") == "".join(s.split(pat))`. */
  lemma {:induction false} RemoveAllIsJoinOfSplit(s: string, pat: string)
    requires pat != []
    ensures RemoveAll(s, pat) == Join(Split(s, pat), "")
    decreases |s|
  {
    if |s| < |pat| {
    } else if s[..|pat|] == pat {
      RemoveAllIsJoinOfSplit(s[|pat|..], pat);
      var rest := Split(s[|pat|..], pat);
      assert ([""] + rest)[1..] == rest;
    } else {
      RemoveAllIsJoinOfSplit(s[1..], pat);
      var rest := Split(s[1..], pat);
      var r := [[s[0]] + rest[0]] + rest[1..];
      if |rest| > 1 {
        assert r[1..] == rest[1..];
        assert Join(rest, "") == rest[0] + "" + Join(rest[1..], "");
      }
    }
  }

  /** Removal changes nothing exactly when the pattern does not occur. */
  lemma {:induction false} RemoveAllUnchangedIff(s: string, pat: string)
    requires pat != []
    ensures RemoveAll(s, pat) == s <==> !Contains(s, pat)
    decreases |s|
  {
    if |s| >= |pat| {
      RemoveAllUnchangedIff(s[1..], pat);
      RemoveAllShrinks(s[|pat|..], pat);
      if s[..|pat|] != pat {
        assert s == [s[0]] + s[1..];
        assert RemoveAll(s, pat) == s <==> RemoveAll(s[1..], pat) == s[1..];
      }
    }
  }

  lemma {:induction false} RemoveAllShrinks(s: string, pat: string)
    requires pat != []
    ensures |RemoveAll(s, pat)| <= |s|
    decreases |s|
  {
    if |s| >= |pat| {
      if s[..|pat|] == pat { RemoveAllShrinks(s[|pat|..], pat); } else { RemoveAllShrinks(s[1..], pat); }
    }
  }

  /** What `list.extend(s)` appends for a string `s`: its characters, one per element. */
  function Explode(s: string): seq<string>
  {
    seq(|s|, i requires 0 <= i < |s| => [s[i]])
  }

  /** Concatenation of a sequence of sequences (of strings, of characters). */
  function Concat<T>(parts: seq<seq<T>>): (r: seq<T>)
  {
    if parts == [] then [] else parts[0] + Concat(parts[1..])
  }

  /**
   * `extend` adds one-character strings that glue back to the string: the two
   * facts together determine what it adds.
   */
  lemma {:induction false} ConcatExplode(s: string)
    ensures forall i :: 0 <= i < |Explode(s)| ==> |Explode(s)[i]| == 1
    ensures Concat(Explode(s)) == s
    decreases |s|
  {
    if s != [] {
      ConcatExplode(s[1..]);
      assert Explode(s)[1..] == Explode(s[1..]);
      assert s == [s[0]] + s[1..];
    }
  }

  lemma {:induction false} ConcatAppend<T>(a: seq<seq<T>>, b: seq<seq<T>>)
    ensures Concat(a + b) == Concat(a) + Concat(b)
    decreases |a|
  {
    if a != [] {
      ConcatAppend(a[1..], b);
      assert (a + b)[1..] == a[1..] + b;
    } else {
      assert a + b == b;
    }
  }

  /** Splitting on a one-character separator cuts at its first occurrence. */
  lemma {:induction false} SplitAtFirst(x: string, c: char, rest: string)
    requires c !in x
    ensures Split(x + [c] + rest, [c]) == [x] + Split(rest, [c])
    decreases |x|
  {
    var s := x + [c] + rest;
    if x == [] {
      assert s[..1] == [c] && s[1..] == rest;
    } else {
      SplitAtFirst(x[1..], c, rest);
      assert s[..1] == [x[0]] != [c];
      assert s[1..] == x[1..] + [c] + rest;
      assert [x[0]] + x[1..] == x;
    }
  }

  /** A string without the separator character splits into itself alone. */
  lemma {:induction false} SplitNoChar(x: string, c: char)
    requires c !in x
    ensures Split(x, [c]) == [x]
    decreases |x|
  {
    if x != [] {
      SplitNoChar(x[1..], c);
      assert x[..1] == [x[0]] != [c];
      assert [x[0]] + x[1..] == x;
    }
  }

  /**
   * Splitting strings joined by a character none of them contains gives them
   * back: the inverse of `JoinSplit` for one-character separators.
   */
  lemma {:induction false} SplitJoin(parts: seq<string>, c: char)
    requires parts != [] && forall k :: 0 <= k < |parts| ==> c !in parts[k]
    ensures Split(Join(parts, [c]), [c]) == parts
    decreases |parts|
  {
    if |parts| == 1 {
      SplitNoChar(parts[0], c);
    } else {
      SplitJoin(parts[1..], c);
      SplitAtFirst(parts[0], c, Join(parts[1..], [c]));
      assert [parts[0]] + parts[1..] == parts;
    }
  }

  /** A string that contains `a + b` contains `a`. */
  lemma ContainsPrefixOf(s: string, a: string, b: string)
    requires Contains(s, a + b)
    ensures Contains(s, a)
  {
    ContainsIffOccurs(s, a + b);
    ContainsIffOccurs(s, a);
    var i :| OccursAt(a + b, s, i);
    assert s[i..i + |a|] == s[i..i + |a + b|][..|a|] == (a + b)[..|a|] == a;
    assert OccursAt(a, s, i);
  }

  /** Stripping a string with no white space at either end changes nothing, so `Strip` is idempotent. */
  lemma StripTrimmed(s: string)
    requires s == [] || (!IsSpace(s[0]) && !IsSpace(s[|s| - 1]))
    ensures Strip(s) == s
  {
    assert StripLeft(s) == s;
  }

  /** A trailing colon is stripped by `rstrip(":")` like the rest of the run of colons. */
  lemma StripColonsAppend(s: string)
    ensures StripColons(s + ":") == StripColons(s)
  {
    var t := s + ":";
    assert t[..|t| - 1] == s;
  }

  /** `rstrip(":")` leaves a string that does not end with a colon unchanged. */
  lemma StripColonsNone(s: string)
    requires s == [] || s[|s| - 1] != ':'
    ensures StripColons(s) == s
  {
  }

  /** A character of strings joined by a separator character comes from one of them, or is the separator between two. */
  lemma {:induction false} CharsOfJoin(xs: seq<string>, c: char, ch: char)
    ensures ch in Join(xs, [c]) <==> (exists i :: 0 <= i < |xs| && ch in xs[i]) || (ch == c && |xs| >= 2)
    decreases |xs|
  {
    if |xs| >= 2 {
      CharsOfJoin(xs[1..], c, ch);
      var rest := Join(xs[1..], [c]);
      assert Join(xs, [c]) == xs[0] + [c] + rest;
      if exists i :: 0 <= i < |xs| && ch in xs[i] {
        var i :| 0 <= i < |xs| && ch in xs[i];
        if i > 0 {
          assert xs[1..][i - 1] == xs[i];
        }
      }
      if exists i :: 0 <= i < |xs[1..]| && ch in xs[1..][i] {
        var i :| 0 <= i < |xs[1..]| && ch in xs[1..][i];
        assert xs[1..][i] == xs[i + 1];
      }
    }
  }
}
