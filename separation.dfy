/**
 * Why `findall` can be run piece by piece: no match of the address pattern
 * spans a character outside digits, `.` and `:`, so such a character splits
 * the scan into independent halves.
 *
 * The argument runs on `Scan`, the scan of `Address.Tokens` with the match at
 * every position tabulated beforehand, so that it is about positions and not
 * about the automaton.
 */
module Separation {
  import opened Wrappers
  import opened Text
  import opened Address

  /** The match `MatchAt` finds at each position of `s`. */
  function Matches(s: string): seq<Option<nat>>
  {
    seq(|s|, p requires 0 <= p < |s| => MatchAt(s, p))
  }

  /** `m` gives each position of `s` either no match or a match ending after it. */
  predicate Valid(s: string, m: seq<Option<nat>>) {
    |m| == |s| && forall i :: 0 <= i < |m| && m[i].Some? ==> i < m[i].value <= |s|
  }

  /** The scan of `Tokens`, reading the match at each position from `m`. */
  function Scan(s: string, m: seq<Option<nat>>, p: nat): seq<string>
    requires Valid(s, m) && p <= |s|
    decreases |s| - p
  {
    if p == |s| then []
    else
      match m[p]
      case Some(q) => [s[p..q]] + Scan(s, m, q)
      case None => Scan(s, m, p + 1)
  }

  /** The tabulated matches end after where they start. */
  lemma MatchesValid(s: string)
    ensures Valid(s, Matches(s))
  {
  }

  /** Scanning with the tabulated matches is scanning with `MatchAt`. */
  lemma {:induction false} TokensIsScan(s: string, p: nat)
    requires p <= |s|
    ensures Valid(s, Matches(s)) && Tokens(s, p) == Scan(s, Matches(s), p)
    decreases |s| - p
  {
    MatchesValid(s);
    if p < |s| {
      var ms := Matches(s);
      var m := MatchAt(s, p);
      assert ms[p] == m;
      var next := if m.Some? then m.value else p + 1;
      var head := if m.Some? then [s[p..next]] else [];
      TokensIsScan(s, next);
      TokensStep(s, p, m, next, head);
      ScanStep(s, ms, p, next, head);
    }
  }

  /** One step of `Tokens`, with the match at `p` named. */
  lemma TokensStep(s: string, p: nat, m: Option<nat>, next: nat, head: seq<string>)
    requires p < |s| && m == MatchAt(s, p)
    requires next == (if m.Some? then m.value else p + 1) && next <= |s|
    requires head == if m.Some? then [s[p..next]] else []
    ensures Tokens(s, p) == head + Tokens(s, next)
  {
  }

  /** One step of `Scan`, with the match at `p` named. */
  lemma ScanStep(s: string, ms: seq<Option<nat>>, p: nat, next: nat, head: seq<string>)
    requires Valid(s, ms) && p < |s|
    requires next == (if ms[p].Some? then ms[p].value else p + 1) && next <= |s|
    requires head == if ms[p].Some? then [s[p..next]] else []
    ensures Scan(s, ms, p) == head + Scan(s, ms, next)
  {
  }

  /** One scan step across an occurrence of `t` at `d`, when a match starts at `p`. */
  lemma ScanStepMatch(s: string, ms: seq<Option<nat>>, t: string, mt: seq<Option<nat>>, p: nat, q: nat, d: nat)
    requires Valid(s, ms) && Valid(t, mt) && p < q <= |t| && d + |t| <= |s|
    requires s[d..d + |t|] == t && mt[p] == Some(q) && ms[p + d] == Some(q + d)
    requires Scan(s, ms, q + d) == Scan(t, mt, q) + Scan(s, ms, |t| + d)
    ensures Scan(s, ms, p + d) == Scan(t, mt, p) + Scan(s, ms, |t| + d)
  {
    SliceOfOccurrence(s, t, d, p, q);
    var u, rest := t[p..q], Scan(s, ms, |t| + d);
    assert Scan(s, ms, p + d) == [u] + Scan(s, ms, q + d);
    assert [u] + (Scan(t, mt, q) + rest) == ([u] + Scan(t, mt, q)) + rest;
  }

  /** One scan step across an occurrence of `t` at `d`, when no match starts at `p`. */
  lemma ScanStepMiss(s: string, ms: seq<Option<nat>>, t: string, mt: seq<Option<nat>>, p: nat, d: nat)
    requires Valid(s, ms) && Valid(t, mt) && p < |t| && d + |t| <= |s|
    requires mt[p] == None && ms[p + d] == None
    requires Scan(s, ms, p + 1 + d) == Scan(t, mt, p + 1) + Scan(s, ms, |t| + d)
    ensures Scan(s, ms, p + d) == Scan(t, mt, p) + Scan(s, ms, |t| + d)
  {
    assert Scan(s, ms, p + d) == Scan(s, ms, p + 1 + d);
  }

  /**
   * When `t` occurs in `s` at `d` and the matches there are those of `t` moved
   * by `d`, scanning `s` across the occurrence yields the tokens of `t` first.
   */
  lemma {:induction false} ScanWindow(s: string, ms: seq<Option<nat>>, t: string, mt: seq<Option<nat>>, p: nat, d: nat)
    requires Valid(s, ms) && Valid(t, mt) && p <= |t| && d + |t| <= |s|
    requires s[d..d + |t|] == t
    requires forall i :: 0 <= i < |t| ==> ms[i + d] == ShiftMatch(mt[i], d)
    ensures Scan(s, ms, p + d) == Scan(t, mt, p) + Scan(s, ms, |t| + d)
    decreases |t| - p
  {
    if p < |t| {
      assert ms[p + d] == ShiftMatch(mt[p], d);
      match mt[p]
      case Some(q) =>
        assert p < q <= |t|;
        ScanWindow(s, ms, t, mt, q, d);
        ScanStepMatch(s, ms, t, mt, p, q, d);
      case None =>
        ScanWindow(s, ms, t, mt, p + 1, d);
        ScanStepMiss(s, ms, t, mt, p, d);
    }
  }

  /** A slice of an occurrence of `t` at `d` is the same slice of `t`, moved by `d`. */
  lemma SliceOfOccurrence(s: string, t: string, d: nat, p: nat, q: nat)
    requires d + |t| <= |s| && s[d..d + |t|] == t && p <= q <= |t|
    ensures s[p + d..q + d] == t[p..q]
  {
    forall j | 0 <= j < q - p
      ensures s[p + d..q + d][j] == t[p..q][j]
    {
      assert t[p + j] == s[d..d + |t|][p + j];
    }
  }

  /** The match at a position inside an occurrence of `t` ended by a stop character is that of `t`. */
  lemma MatchAtShift(s: string, t: string, d: nat, i: nat)
    requires d + |t| <= |s| && s[d..d + |t|] == t && Stop(s, d + |t|) && i < |t|
    ensures MatchAt(s, i + d) == ShiftMatch(MatchAt(t, i), d)
  {
    var p, k := i + d, d + |t|;
    SliceOfOccurrence(s, t, d, i, |t|);
    assert s[p..k] == t[i..|t|];
    MatchAtShifted(s, p, k, t, i, |t|, d);
  }

  /** `MatchAtShift`, read off the tabulated matches. */
  lemma MatchesShift(s: string, t: string, d: nat, i: nat)
    requires i + d < |s| && i < |t| && MatchAt(s, i + d) == ShiftMatch(MatchAt(t, i), d)
    ensures Matches(s)[i + d] == ShiftMatch(Matches(t)[i], d)
  {
  }

  /** The matches inside an occurrence of `t` ended by a stop character are those of `t`. */
  lemma MatchesWindow(s: string, t: string, d: nat)
    requires d + |t| <= |s| && s[d..d + |t|] == t && Stop(s, d + |t|)
    ensures forall i :: 0 <= i < |t| ==> Matches(s)[i + d] == ShiftMatch(Matches(t)[i], d)
  {
    forall i | 0 <= i < |t|
      ensures Matches(s)[i + d] == ShiftMatch(Matches(t)[i], d)
    {
      MatchAtShift(s, t, d, i);
      MatchesShift(s, t, d, i);
    }
  }

  /** Scanning `s` from its start finds the tokens of a prefix `x` that a stop character ends. */
  lemma ScanPrefix(s: string, x: string)
    requires |x| <= |s| && s[0..|x|] == x && Stop(s, |x|)
    requires Valid(s, Matches(s)) && Valid(x, Matches(x))
    ensures Scan(s, Matches(s), 0) == Scan(x, Matches(x), 0) + Scan(s, Matches(s), |x|)
  {
    MatchesWindow(s, x, 0);
    ScanWindow(s, Matches(s), x, Matches(x), 0, 0);
  }

  /** Scanning `s` from `d` finds the tokens of the suffix `y` that starts there. */
  lemma ScanSuffix(s: string, y: string, d: nat)
    requires d + |y| == |s| && s[d..d + |y|] == y
    requires Valid(s, Matches(s)) && Valid(y, Matches(y))
    ensures Scan(s, Matches(s), d) == Scan(y, Matches(y), 0)
  {
    MatchesWindow(s, y, d);
    ScanWindow(s, Matches(s), y, Matches(y), 0, d);
    assert Scan(s, Matches(s), |s|) == [];
  }

  /** The scan steps over a stop character. */
  lemma ScanStop(s: string, k: nat)
    requires k < |s| && Stop(s, k) && Valid(s, Matches(s))
    ensures Scan(s, Matches(s), k) == Scan(s, Matches(s), k + 1)
  {
    assert DigitRun(s, k) == 0;
    assert Matches(s)[k] == None;
  }

  /** The parts of `x + [c] + y`. */
  lemma ConcatParts(s: string, x: string, c: char, y: string)
    requires s == x + [c] + y
    ensures s[0..|x|] == x && s[|x|] == c && s[|x| + 1..|x| + 1 + |y|] == y && |s| == |x| + 1 + |y|
  {
  }

  /**
   * A character that no match can contain splits the scan in two: `findall` over
   * `x + [c] + y` is `findall` over `x` followed by `findall` over `y`.
   */
  lemma FindAllSplitsAtStop(x: string, c: char, y: string)
    requires !(IsDigit(c) || c == '.' || c == ':')
    ensures FindAll(x + [c] + y) == FindAll(x) + FindAll(y)
  {
    var s := x + [c] + y;
    TokensIsScan(s, 0);
    TokensIsScan(x, 0);
    TokensIsScan(y, 0);
    ScanSplits(s, x, c, y);
  }

  /** `FindAllSplitsAtStop`, on the scans. */
  lemma ScanSplits(s: string, x: string, c: char, y: string)
    requires !(IsDigit(c) || c == '.' || c == ':') && s == x + [c] + y
    requires Valid(s, Matches(s)) && Valid(x, Matches(x)) && Valid(y, Matches(y))
    ensures Scan(s, Matches(s), 0) == Scan(x, Matches(x), 0) + Scan(y, Matches(y), 0)
  {
    ConcatParts(s, x, c, y);
    var d := |x| + 1;
    ScanPrefix(s, x);
    ScanStop(s, |x|);
    ScanSuffix(s, y, d);
  }

  /** `findall` applied to each string in turn, the results concatenated. */
  function FindAllEach(xs: seq<string>): seq<string>
  {
    if xs == [] then [] else FindAll(xs[0]) + FindAllEach(xs[1..])
  }

  /** `findall` over strings joined by a stop character is `findall` over each of them. */
  lemma {:induction false} FindAllOfJoin(xs: seq<string>, c: char)
    requires !(IsDigit(c) || c == '.' || c == ':')
    ensures FindAll(Join(xs, [c])) == FindAllEach(xs)
    decreases |xs|
  {
    if |xs| == 1 {
      assert FindAllEach(xs) == FindAll(xs[0]) + FindAllEach([]);
    } else if |xs| > 1 {
      FindAllOfJoin(xs[1..], c);
      FindAllSplitsAtStop(xs[0], c, Join(xs[1..], [c]));
    }
  }

  lemma {:induction false} InFindAllEach(xs: seq<string>, t: string)
    ensures t in FindAllEach(xs) <==> exists i :: 0 <= i < |xs| && t in FindAll(xs[i])
    decreases |xs|
  {
    if xs != [] {
      InFindAllEach(xs[1..], t);
      if t in FindAllEach(xs[1..]) {
        var i :| 0 <= i < |xs[1..]| && t in FindAll(xs[1..][i]);
        assert xs[1..][i] == xs[i + 1];
      }
      if exists i :: 0 <= i < |xs| && t in FindAll(xs[i]) {
        var i :| 0 <= i < |xs| && t in FindAll(xs[i]);
        if i > 0 {
          assert xs[1..][i - 1] == xs[i];
        }
      }
    }
  }

  /**
   * The addresses found in lines joined by newlines are those found in some
   * line: how the lines are ordered before joining does not matter.
   */
  lemma FoundInJoinedLines(xs: seq<string>, t: string)
    ensures t in FindAll(Join(xs, "\n")) <==> exists i :: 0 <= i < |xs| && t in FindAll(xs[i])
  {
    FindAllOfJoin(xs, '\n');
    InFindAllEach(xs, t);
  }
}
