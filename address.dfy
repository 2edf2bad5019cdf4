/*
 * The address filter of `Scraper.scrape`: `re.findall` with the pattern
 * `\d{1,3}(?:\.\d{1,3}){3}(?::\d{1,5})?` over a response body.
 *
 * The pattern's language is given independently as a finite automaton (`Step`,
 * `Accepting`). The scanner (`MatchAt`, `Spans`, `FindAll`) follows the pattern's
 * structure: three dot-terminated octets, a last octet, an optional port. It is
 * proved to return the leftmost, longest, non-overlapping matches, which for
 * this pattern is what Python's backtracking engine returns: every quantifier is
 * greedy and whatever follows the last octet is optional, so the first match in
 * the engine's order of preference is the longest one.
 */
module Address {
  import opened Text
  import opened Wrappers

  // ---------------------------------------------------------------------------
  // The pattern's language, as an automaton
  // ---------------------------------------------------------------------------

  /** `At(f, d)`: inside field `f` (0..3 the octets, 4 the port) after `d` digits of it. */
  datatype State = At(field: nat, digits: nat) | Dead

  const Start: State := At(0, 0)

  /** Octets have at most 3 digits (`\d{1,3}`), the port at most 5 (`\d{1,5}`). */
  function Cap(field: nat): nat {
    if field == 4 then 5 else 3
  }

  function Step(st: State, c: char): State {
    match st
    case Dead => Dead
    case At(f, d) =>
      if IsDigit(c) then (if d < Cap(f) then At(f, d + 1) else Dead)
      else if c == '.' then (if f < 3 && d >= 1 then At(f + 1, 0) else Dead)
      else if c == ':' then (if f == 3 && d >= 1 then At(4, 0) else Dead)
      else Dead
  }

  /** After the fourth octet, or after at least one digit of the port. */
  predicate Accepting(st: State) {
    st.At? && st.field >= 3 && st.digits >= 1
  }

  /** The state reached by reading `s[m..q]` from `st`. */
  function Go(st: State, s: string, m: nat, q: nat): State
    requires m <= q <= |s|
    decreases q - m
  {
    if q == m then st else Step(Go(st, s, m, q - 1), s[q - 1])
  }

  /** The state after reading `s[p..q]` from the start. */
  function Run(s: string, p: nat, q: nat): State
    requires p <= q <= |s|
  {
    Go(Start, s, p, q)
  }

  /** The whole of `t` matches the pattern. */
  ghost predicate IsAddress(t: string) {
    Accepting(Run(t, 0, |t|))
  }

  /** `s[p..q]` matches the pattern. */
  ghost predicate AddressAt(s: string, p: nat, q: nat) {
    p <= q <= |s| && Accepting(Run(s, p, q))
  }

  /** `s[p..q]` is the longest match that starts at `p`. */
  ghost predicate LongestAt(s: string, p: nat, q: nat) {
    AddressAt(s, p, q) && forall q' :: q < q' <= |s| ==> !AddressAt(s, p, q')
  }

  /** No match starts anywhere in `[a, b)`. */
  ghost predicate NoMatchIn(s: string, a: nat, b: nat) {
    forall x, q :: a <= x < b && x <= q <= |s| ==> !AddressAt(s, x, q)
  }

  // ---------------------------------------------------------------------------
  // The scanner
  // ---------------------------------------------------------------------------

  function Min(a: nat, b: nat): nat {
    if a <= b then a else b
  }

  /** Length of the run of digits that starts at `p`. */
  function DigitRun(s: string, p: nat): (n: nat)
    requires p <= |s|
    ensures p + n <= |s|
    decreases |s| - p
  {
    if p < |s| && IsDigit(s[p]) then 1 + DigitRun(s, p + 1) else 0
  }

  /** The run is made of digits and is not followed by one. */
  lemma {:induction false} DigitRunIsMaximal(s: string, p: nat)
    requires p <= |s|
    ensures forall k :: p <= k < p + DigitRun(s, p) ==> IsDigit(s[k])
    ensures p + DigitRun(s, p) < |s| ==> !IsDigit(s[p + DigitRun(s, p)])
    decreases |s| - p
  {
    if p < |s| && IsDigit(s[p]) {
      DigitRunIsMaximal(s, p + 1);
    }
  }

  /** `\d{1,3}\.` at `p`: the position after the dot. */
  function OctetDot(s: string, p: nat): (r: Option<nat>)
    requires p <= |s|
    ensures r.Some? ==> p < r.value <= |s|
  {
    var n := DigitRun(s, p);
    if 1 <= n <= 3 && p + n < |s| && s[p + n] == '.' then Some(p + n + 1) else None
  }

  /** `\d{1,3}(?::\d{1,5})?` at `p`, both quantifiers greedy: the end of the match. */
  function Tail(s: string, p: nat): (r: Option<nat>)
    requires p <= |s|
    ensures r.Some? ==> p < r.value <= |s|
  {
    var n := DigitRun(s, p);
    if n == 0 then None
    else
      var q := p + Min(n, 3);
      var port := if q < |s| && s[q] == ':' then DigitRun(s, q + 1) else 0;
      Some(if port == 0 then q else q + 1 + Min(port, 5))
  }

  /** `(?:\d{1,3}\.){n}` at `p`: the position after the `n`-th dot. */
  function Octets(s: string, p: nat, n: nat): (r: Option<nat>)
    requires p <= |s|
    ensures r.Some? ==> p <= r.value <= |s|
    decreases n
  {
    if n == 0 then Some(p)
    else
      match OctetDot(s, p)
      case None => None
      case Some(p1) => Octets(s, p1, n - 1)
  }

  /** The match of the whole pattern at `p`, if there is one: its end. */
  function MatchAt(s: string, p: nat): (r: Option<nat>)
    requires p <= |s|
    ensures r.Some? ==> p < r.value <= |s|
  {
    match Octets(s, p, 3)
    case None => None
    case Some(p3) => Tail(s, p3)
  }

  /** `re.finditer` from `p`: the spans of the matches, scanning left to right. */
  function Spans(s: string, p: nat): (r: seq<(nat, nat)>)
    requires p <= |s|
    ensures forall i :: 0 <= i < |r| ==> p <= r[i].0 < r[i].1 <= |s|
    ensures forall i, j :: 0 <= i < j < |r| ==> r[i].1 <= r[j].0
    decreases |s| - p
  {
    if p == |s| then []
    else
      match MatchAt(s, p)
      case Some(q) => [(p, q)] + Spans(s, q)
      case None => Spans(s, p + 1)
  }

  /** `re.findall(pattern, s)`: the matched substrings, left to right. */
  function FindAll(s: string): (r: seq<string>)
  {
    Tokens(s, 0)
  }

  /** The substrings `re.finditer` yields from `p` on. */
  function Tokens(s: string, p: nat): (r: seq<string>)
    requires p <= |s|
    decreases |s| - p
  {
    if p == |s| then []
    else
      match MatchAt(s, p)
      case Some(q) => [s[p..q]] + Tokens(s, q)
      case None => Tokens(s, p + 1)
  }

  // ---------------------------------------------------------------------------
  // Facts about the automaton
  // ---------------------------------------------------------------------------

  lemma {:induction false} GoSplit(st: State, s: string, m: nat, k: nat, q: nat)
    requires m <= k <= q <= |s|
    ensures Go(st, s, m, q) == Go(Go(st, s, m, k), s, k, q)
    decreases q - k
  {
    if q > k {
      GoSplit(st, s, m, k, q - 1);
    }
  }

  lemma {:induction false} GoDead(s: string, m: nat, q: nat)
    requires m <= q <= |s|
    ensures Go(Dead, s, m, q) == Dead
    decreases q - m
  {
    if q > m {
      GoDead(s, m, q - 1);
    }
  }

  /** Once the run from `p` is dead at `k`, it stays dead. */
  lemma DeadFrom(s: string, p: nat, k: nat)
    requires p <= k <= |s| && Run(s, p, k) == Dead
    ensures forall q :: k <= q <= |s| ==> Run(s, p, q) == Dead
  {
    forall q | k <= q <= |s|
      ensures Run(s, p, q) == Dead
    {
      GoSplit(Start, s, p, k, q);
      GoDead(s, k, q);
    }
  }

  /** Reading `n` digits inside a field that has room for them. */
  lemma {:induction false} GoDigits(f: nat, d: nat, s: string, m: nat, n: nat)
    requires m + n <= |s| && d + n <= Cap(f)
    requires forall k :: m <= k < m + n ==> IsDigit(s[k])
    ensures Go(At(f, d), s, m, m + n) == At(f, d + n)
    decreases n
  {
    if n > 0 {
      GoDigits(f, d, s, m, n - 1);
    }
  }

  /** The run from `p` inside field `f`, at every point of the digit run that starts at `m`. */
  lemma InField(s: string, p: nat, m: nat, f: nat)
    requires p <= m <= |s| && Run(s, p, m) == At(f, 0)
    ensures forall q :: m <= q <= m + Min(DigitRun(s, m), Cap(f)) ==> Run(s, p, q) == At(f, q - m)
  {
    DigitRunIsMaximal(s, m);
    forall q | m <= q <= m + Min(DigitRun(s, m), Cap(f))
      ensures Run(s, p, q) == At(f, q - m)
    {
      GoSplit(Start, s, p, m, q);
      GoDigits(f, 0, s, m, q - m);
    }
  }

  /** One dot-terminated octet, read in field `f < 3`. */
  lemma OctetDotRun(s: string, p: nat, m: nat, f: nat)
    requires p <= m <= |s| && f < 3 && Run(s, p, m) == At(f, 0)
    ensures OctetDot(s, m).Some? ==> Run(s, p, OctetDot(s, m).value) == At(f + 1, 0)
    ensures OctetDot(s, m).Some? ==> forall q :: m <= q <= OctetDot(s, m).value ==> !Accepting(Run(s, p, q))
    ensures OctetDot(s, m).None? ==> forall q :: m <= q <= |s| ==> !Accepting(Run(s, p, q))
  {
    DigitRunIsMaximal(s, m);
    var n := DigitRun(s, m);
    var k := Min(n, 3);
    InField(s, p, m, f);
    if k < n {
      assert Run(s, p, m + 3) == At(f, 3);
      assert Run(s, p, m + 4) == Step(At(f, 3), s[m + 3]) == Dead;
      DeadFrom(s, p, m + 4);
    } else if m + n < |s| {
      assert Run(s, p, m + n) == At(f, n);
      assert Run(s, p, m + n + 1) == Step(At(f, n), s[m + n]);
      if OctetDot(s, m).None? {
        DeadFrom(s, p, m + n + 1);
      }
    }
  }

  /** The optional port, read after the `:` that put the run in field 4 at `o`; `q0` is the match end without it. */
  lemma PortRun(s: string, p: nat, o: nat)
    requires p < o <= |s| && s[o - 1] == ':' && Run(s, p, o) == At(4, 0)
    ensures var pn := DigitRun(s, o);
      pn == 0 ==> forall q :: o <= q <= |s| ==> !Accepting(Run(s, p, q))
    ensures var pn := DigitRun(s, o);
      pn > 0 ==> LongestAt(s, p, o + Min(pn, 5))
  {
    DigitRunIsMaximal(s, o);
    var pn := DigitRun(s, o);
    InField(s, p, o, 4);
    if pn == 0 {
      if o < |s| {
        assert Run(s, p, o + 1) == Step(At(4, 0), s[o]) == Dead;
        DeadFrom(s, p, o + 1);
      }
    } else if pn > 5 {
      assert Run(s, p, o + 5) == At(4, 5);
      assert Run(s, p, o + 6) == Step(At(4, 5), s[o + 5]) == Dead;
      DeadFrom(s, p, o + 6);
    } else {
      assert Run(s, p, o + pn) == At(4, pn);
      if o + pn < |s| {
        assert Run(s, p, o + pn + 1) == Step(At(4, pn), s[o + pn]) == Dead;
        DeadFrom(s, p, o + pn + 1);
      }
    }
  }

  /** The last octet and the optional port, read from field 3. */
  lemma TailRun(s: string, p: nat, m: nat)
    requires p <= m <= |s| && Run(s, p, m) == At(3, 0)
    ensures Tail(s, m).Some? ==> LongestAt(s, p, Tail(s, m).value)
    ensures Tail(s, m).None? ==> forall q :: m <= q <= |s| ==> !Accepting(Run(s, p, q))
  {
    DigitRunIsMaximal(s, m);
    var n := DigitRun(s, m);
    InField(s, p, m, 3);
    if n == 0 {
      if m < |s| {
        assert Run(s, p, m + 1) == Step(At(3, 0), s[m]) == Dead;
        DeadFrom(s, p, m + 1);
      }
    } else if n > 3 {
      assert Run(s, p, m + 3) == At(3, 3);
      assert Run(s, p, m + 4) == Step(At(3, 3), s[m + 3]) == Dead;
      DeadFrom(s, p, m + 4);
    } else {
      assert Run(s, p, m + n) == At(3, n);
      if m + n < |s| {
        var c := s[m + n];
        assert Run(s, p, m + n + 1) == Step(At(3, n), c);
        if c != ':' {
          DeadFrom(s, p, m + n + 1);
        } else {
          PortRun(s, p, m + n + 1);
          if DigitRun(s, m + n + 1) == 0 {
            assert Tail(s, m) == Some(m + n);
          }
        }
      }
    }
  }

  // ---------------------------------------------------------------------------
  // The scanner is correct
  // ---------------------------------------------------------------------------

  /** `n` dot-terminated octets, read from field `f`. */
  lemma {:induction false} OctetsRun(s: string, p: nat, m: nat, f: nat, n: nat)
    requires p <= m <= |s| && f + n <= 3 && Run(s, p, m) == At(f, 0)
    ensures Octets(s, m, n).Some? ==> Run(s, p, Octets(s, m, n).value) == At(f + n, 0)
    ensures Octets(s, m, n).Some? ==> forall q :: m <= q <= Octets(s, m, n).value ==> !Accepting(Run(s, p, q))
    ensures Octets(s, m, n).None? ==> forall q :: m <= q <= |s| ==> !Accepting(Run(s, p, q))
    decreases n
  {
    if n > 0 {
      OctetDotRun(s, p, m, f);
      if OctetDot(s, m).Some? {
        var m1 := OctetDot(s, m).value;
        OctetsRun(s, p, m1, f + 1, n - 1);
      }
    }
  }

  /** `MatchAt` finds the longest match at `p`, and finds one whenever one exists. */
  lemma MatchAtIsLongest(s: string, p: nat)
    requires p <= |s|
    ensures MatchAt(s, p).Some? ==> LongestAt(s, p, MatchAt(s, p).value)
    ensures MatchAt(s, p).None? ==> forall q :: p <= q <= |s| ==> !AddressAt(s, p, q)
  {
    assert Run(s, p, p) == At(0, 0);
    OctetsRun(s, p, p, 0, 3);
    if Octets(s, p, 3).Some? {
      TailRun(s, p, Octets(s, p, 3).value);
    }
  }

  /** The end of the spans found from `p` (or `p` when there are none). */
  function SpansEnd(p: nat, sp: seq<(nat, nat)>): nat {
    if sp == [] then p else sp[|sp| - 1].1
  }

  /** Where the gap before the `i`-th span begins. */
  function Before(p: nat, sp: seq<(nat, nat)>, i: nat): nat
    requires i < |sp|
  {
    if i == 0 then p else sp[i - 1].1
  }

  /**
   * What `re.finditer` promises, stated without the scanner: each span is the
   * longest match at its start, no match starts before a span in the gap that
   * precedes it, and none starts after the last span.
   */
  ghost predicate LeftmostLongest(s: string, p: nat, sp: seq<(nat, nat)>) {
    AllLongest(s, sp) && AllGapsEmpty(s, p, sp) && NoMatchIn(s, SpansEnd(p, sp), |s|)
  }

  ghost predicate AllLongest(s: string, sp: seq<(nat, nat)>) {
    forall i :: 0 <= i < |sp| ==> LongestAt(s, sp[i].0, sp[i].1)
  }

  ghost predicate AllGapsEmpty(s: string, p: nat, sp: seq<(nat, nat)>) {
    forall i :: 0 <= i < |sp| ==> NoMatchIn(s, Before(p, sp, i), sp[i].0)
  }

  lemma {:induction false} SpansAreLeftmostLongest(s: string, p: nat)
    requires p <= |s|
    ensures LeftmostLongest(s, p, Spans(s, p))
    decreases |s| - p
  {
    if p < |s| {
      MatchAtIsLongest(s, p);
      match MatchAt(s, p)
      case Some(q) =>
        SpansAreLeftmostLongest(s, q);
        ConsLeftmostLongest(s, p, q, Spans(s, q));
      case None =>
        SpansAreLeftmostLongest(s, p + 1);
        SkipLeftmostLongest(s, p, Spans(s, p + 1));
    }
  }

  /** No match at `p`, followed by spans that are leftmost-longest from `p + 1`. */
  lemma SkipLeftmostLongest(s: string, p: nat, sp: seq<(nat, nat)>)
    requires p < |s| && LeftmostLongest(s, p + 1, sp)
    requires forall q :: p <= q <= |s| ==> !AddressAt(s, p, q)
    ensures LeftmostLongest(s, p, sp)
  {
    if sp == [] {
      WidenGap(s, p, |s|);
    } else {
      WidenGap(s, p, sp[0].0);
      forall i | 0 <= i < |sp|
        ensures NoMatchIn(s, Before(p, sp, i), sp[i].0)
      {
        if i > 0 { assert Before(p, sp, i) == Before(p + 1, sp, i); }
      }
    }
  }

  lemma WidenGap(s: string, p: nat, e: nat)
    requires NoMatchIn(s, p + 1, e)
    requires forall q :: p <= q <= |s| ==> !AddressAt(s, p, q)
    ensures NoMatchIn(s, p, e)
  {
  }

  /** A longest match at `p`, followed by spans that are leftmost-longest from its end. */
  lemma ConsLeftmostLongest(s: string, p: nat, q: nat, rest: seq<(nat, nat)>)
    requires p < q <= |s| && LongestAt(s, p, q) && LeftmostLongest(s, q, rest)
    ensures LeftmostLongest(s, p, [(p, q)] + rest)
  {
    ConsLongest(s, p, q, rest);
    ConsGaps(s, p, q, rest);
    assert SpansEnd(p, [(p, q)] + rest) == SpansEnd(q, rest);
  }

  lemma ConsLongest(s: string, p: nat, q: nat, rest: seq<(nat, nat)>)
    requires LongestAt(s, p, q) && AllLongest(s, rest)
    ensures AllLongest(s, [(p, q)] + rest)
  {
    var sp := [(p, q)] + rest;
    forall i | 0 <= i < |sp|
      ensures LongestAt(s, sp[i].0, sp[i].1)
    {
      if i > 0 { assert sp[i] == rest[i - 1]; }
    }
  }

  lemma ConsGaps(s: string, p: nat, q: nat, rest: seq<(nat, nat)>)
    requires AllGapsEmpty(s, q, rest)
    ensures AllGapsEmpty(s, p, [(p, q)] + rest)
  {
    var sp := [(p, q)] + rest;
    forall i | 0 <= i < |sp|
      ensures NoMatchIn(s, Before(p, sp, i), sp[i].0)
    {
      if i > 0 {
        assert sp[i] == rest[i - 1];
        assert Before(p, sp, i) == Before(q, rest, i - 1);
      }
    }
  }

  /** Reading a slice is reading the same characters in place. */
  lemma {:induction false} GoSlice(st: State, s: string, a: nat, b: nat, q: nat)
    requires a <= q <= b <= |s|
    ensures Go(st, s[a..b], 0, q - a) == Go(st, s, a, q)
    decreases q - a
  {
    if q > a {
      GoSlice(st, s, a, b, q - 1);
      assert s[a..b][q - 1 - a] == s[q - 1];
    }
  }

  /** A match inside the text is a match on its own. */
  lemma SliceIsAddress(s: string, a: nat, b: nat)
    requires AddressAt(s, a, b)
    ensures IsAddress(s[a..b])
  {
    GoSlice(Start, s, a, b, b);
  }

  /** `ts` holds the texts of the spans `sp` of `s`, one for one. */
  ghost predicate SpanTexts(s: string, ts: seq<string>, sp: seq<(nat, nat)>) {
    |ts| == |sp| && forall i :: 0 <= i < |sp| ==> sp[i].0 <= sp[i].1 <= |s| && ts[i] == s[sp[i].0..sp[i].1]
  }

  lemma ConsSpanText(s: string, p: nat, q: nat, ts: seq<string>, sp: seq<(nat, nat)>)
    requires p <= q <= |s| && SpanTexts(s, ts, sp)
    ensures SpanTexts(s, [s[p..q]] + ts, [(p, q)] + sp)
  {
    forall i | 1 <= i < |sp| + 1
      ensures ([s[p..q]] + ts)[i] == s[([(p, q)] + sp)[i].0..([(p, q)] + sp)[i].1]
    {
      assert ([s[p..q]] + ts)[i] == ts[i - 1];
      assert ([(p, q)] + sp)[i] == sp[i - 1];
    }
  }

  /** The `i`-th token is the text of the `i`-th span. */
  lemma {:induction false} TokensAreSpanTexts(s: string, p: nat)
    requires p <= |s|
    ensures SpanTexts(s, Tokens(s, p), Spans(s, p))
    decreases |s| - p
  {
    if p < |s| {
      match MatchAt(s, p)
      case Some(q) =>
        TokensAreSpanTexts(s, q);
        ConsSpanText(s, p, q, Tokens(s, q), Spans(s, q));
      case None =>
        TokensAreSpanTexts(s, p + 1);
    }
  }

  /** Every string `findall` returns matches the pattern as a whole. */
  lemma FindAllTokensAreAddresses(s: string)
    ensures forall t :: t in FindAll(s) ==> IsAddress(t)
  {
    var sp := Spans(s, 0);
    var r := FindAll(s);
    SpansAreLeftmostLongest(s, 0);
    TokensAreSpanTexts(s, 0);
    assert AllLongest(s, sp);
    forall i | 0 <= i < |r|
      ensures IsAddress(r[i])
    {
      assert LongestAt(s, sp[i].0, sp[i].1);
      SliceIsAddress(s, sp[i].0, sp[i].1);
    }
  }

  /** `findall` returns nothing exactly when no substring of the text matches. */
  lemma FindAllEmptyIff(s: string)
    ensures FindAll(s) == [] <==> NoMatchIn(s, 0, |s|)
  {
    var sp := Spans(s, 0);
    SpansAreLeftmostLongest(s, 0);
    TokensAreSpanTexts(s, 0);
    if sp != [] {
      assert AddressAt(s, sp[0].0, sp[0].1);
    }
  }

  /** The digit run at `p` has length `n` when `n` digits are followed by a non-digit or the end. */
  lemma {:induction false} DigitRunIs(s: string, p: nat, n: nat)
    requires p + n <= |s|
    requires forall k :: p <= k < p + n ==> IsDigit(s[k])
    requires p + n == |s| || !IsDigit(s[p + n])
    ensures DigitRun(s, p) == n
    decreases n
  {
    if n > 0 {
      DigitRunIs(s, p + 1, n - 1);
    }
  }

  // ---------------------------------------------------------------------------
  // Locality: a match never crosses a character outside the pattern's alphabet
  // ---------------------------------------------------------------------------

  /** Position `i` ends the text or holds a character no match can contain. */
  predicate Stop(s: string, i: nat)
    requires i <= |s|
  {
    i == |s| || !(IsDigit(s[i]) || s[i] == '.' || s[i] == ':')
  }

  /** A match end moved `d` positions to the right. */
  function ShiftMatch(o: Option<nat>, d: nat): Option<nat> {
    match o
    case None => None
    case Some(v) => Some(v + d)
  }

  /** Two ends at the same offset from starts `p - q` apart are `p - q` apart. */
  lemma ShiftedBy(x: Option<nat>, y: Option<nat>, p: nat, q: nat)
    requires q <= p && x.Some? == y.Some? && (x.Some? ==> x.value - p == y.value - q)
    ensures x == ShiftMatch(y, p - q)
  {
  }

  /** `s[p..k]` and `t[p'..k']` hold the same characters and both are followed by a stop. */
  ghost predicate Window(s: string, p: nat, k: nat, t: string, p': nat, k': nat) {
    p <= k <= |s| && p' <= k' <= |t| && s[p..k] == t[p'..k'] && Stop(s, k) && Stop(t, k')
  }

  lemma WindowFrom(s: string, p: nat, k: nat, t: string, p': nat, k': nat, j: nat)
    requires Window(s, p, k, t, p', k') && j <= k - p
    ensures Window(s, p + j, k, t, p' + j, k')
  {
    assert s[p + j..k] == s[p..k][j..];
    assert t[p' + j..k'] == t[p'..k'][j..];
  }

  /** `WindowFrom`, naming the two new starts. */
  lemma WindowAt(s: string, p: nat, k: nat, t: string, p': nat, k': nat, q: nat, q': nat)
    requires Window(s, p, k, t, p', k') && p <= q <= k && q - p == q' - p'
    ensures Window(s, q, k, t, q', k')
  {
    WindowFrom(s, p, k, t, p', k', q - p);
  }

  lemma {:induction false} RunWindow(s: string, p: nat, k: nat, t: string, p': nat, k': nat)
    requires Window(s, p, k, t, p', k')
    ensures DigitRun(s, p) == DigitRun(t, p') <= k - p
    decreases k - p
  {
    if p < k {
      assert s[p] == s[p..k][0] == t[p'..k'][0] == t[p'];
      if IsDigit(s[p]) {
        WindowFrom(s, p, k, t, p', k', 1);
        RunWindow(s, p + 1, k, t, p' + 1, k');
      }
    }
  }

  lemma OctetDotWindow(s: string, p: nat, k: nat, t: string, p': nat, k': nat)
    requires Window(s, p, k, t, p', k')
    ensures OctetDot(s, p).Some? == OctetDot(t, p').Some?
    ensures OctetDot(s, p).Some? ==> OctetDot(s, p).value <= k && OctetDot(s, p).value - p == OctetDot(t, p').value - p'
  {
    RunWindow(s, p, k, t, p', k');
    var n := DigitRun(s, p);
    if p + n < k {
      assert s[p + n] == s[p..k][n] == t[p'..k'][n] == t[p' + n];
    }
  }

  lemma TailWindow(s: string, p: nat, k: nat, t: string, p': nat, k': nat)
    requires Window(s, p, k, t, p', k')
    ensures Tail(s, p).Some? == Tail(t, p').Some?
    ensures Tail(s, p).Some? ==> Tail(s, p).value <= k && Tail(s, p).value - p == Tail(t, p').value - p'
  {
    RunWindow(s, p, k, t, p', k');
    var n := DigitRun(s, p);
    if n > 0 {
      var q := p + Min(n, 3);
      var q' := p' + Min(n, 3);
      if q < k {
        assert s[q] == s[p..k][q - p] == t[p'..k'][q - p] == t[q'];
        if s[q] == ':' {
          WindowFrom(s, p, k, t, p', k', q + 1 - p);
          RunWindow(s, q + 1, k, t, q' + 1, k');
        }
      }
    }
  }

  lemma {:induction false} OctetsWindow(s: string, p: nat, k: nat, t: string, p': nat, k': nat, n: nat)
    requires Window(s, p, k, t, p', k')
    ensures Octets(s, p, n).Some? == Octets(t, p', n).Some?
    ensures Octets(s, p, n).Some? ==> Octets(s, p, n).value <= k && Octets(s, p, n).value - p == Octets(t, p', n).value - p'
    decreases n
  {
    if n > 0 {
      OctetDotWindow(s, p, k, t, p', k');
      var o, o' := OctetDot(s, p), OctetDot(t, p');
      if o.Some? {
        var q, q' := o.value, o'.value;
        WindowAt(s, p, k, t, p', k', q, q');
        OctetsWindow(s, q, k, t, q', k', n - 1);
        OctetsStep(s, p, n, q);
        OctetsStep(t, p', n, q');
        var r, r' := Octets(s, q, n - 1), Octets(t, q', n - 1);
        ShiftedEnd(r, r', q, q', p, p', k);
      }
    }
  }

  /** The first of `n` octets read, the rest are read after its dot. */
  lemma OctetsStep(s: string, p: nat, n: nat, q: nat)
    requires p <= |s| && n > 0 && OctetDot(s, p) == Some(q)
    ensures Octets(s, p, n) == Octets(s, q, n - 1)
  {
  }

  lemma MatchAtWindow(s: string, p: nat, k: nat, t: string, p': nat, k': nat)
    requires Window(s, p, k, t, p', k')
    ensures MatchAt(s, p).Some? == MatchAt(t, p').Some?
    ensures MatchAt(s, p).Some? ==> MatchAt(s, p).value <= k && MatchAt(s, p).value - p == MatchAt(t, p').value - p'
    ensures p' <= p ==> MatchAt(s, p) == ShiftMatch(MatchAt(t, p'), p - p')
  {
    OctetsWindow(s, p, k, t, p', k', 3);
    var os, ot := Octets(s, p, 3), Octets(t, p', 3);
    if os.Some? {
      OctetsThenTail(s, p, os.value);
      OctetsThenTail(t, p', ot.value);
      WindowFrom(s, p, k, t, p', k', os.value - p);
      MatchAtFrom(s, p, k, t, p', k', os.value, ot.value);
    } else {
      assert MatchAt(s, p) == None && MatchAt(t, p') == None;
    }
  }

  /** Where the three octets end, the tail begins. */
  lemma OctetsThenTail(s: string, p: nat, q: nat)
    requires p <= |s| && Octets(s, p, 3) == Some(q)
    ensures q <= |s| && MatchAt(s, p) == Tail(s, q)
  {
  }

  /** `MatchAtWindow` for windows `d` positions apart. */
  lemma MatchAtShifted(s: string, p: nat, k: nat, t: string, p': nat, k': nat, d: nat)
    requires Window(s, p, k, t, p', k') && p == p' + d
    ensures MatchAt(s, p) == ShiftMatch(MatchAt(t, p'), d)
  {
    MatchAtWindow(s, p, k, t, p', k');
    var e: nat := p - p';
    assert e == d;
  }

  /** The tail of an address read at matching positions of two windows ends at matching positions. */
  lemma MatchAtFrom(s: string, p: nat, k: nat, t: string, p': nat, k': nat, q: nat, q': nat)
    requires p <= q && Window(s, q, k, t, q', k') && q - p == q' - p'
    requires MatchAt(s, p) == Tail(s, q) && MatchAt(t, p') == Tail(t, q')
    ensures MatchAt(s, p).Some? == MatchAt(t, p').Some?
    ensures MatchAt(s, p).Some? ==> MatchAt(s, p).value <= k && MatchAt(s, p).value - p == MatchAt(t, p').value - p'
    ensures p' <= p ==> MatchAt(s, p) == ShiftMatch(MatchAt(t, p'), p - p')
  {
    TailWindow(s, q, k, t, q', k');
    var e, e' := Tail(s, q), Tail(t, q');
    ShiftedEnd(e, e', q, q', p, p', k);
    if p' <= p {
      ShiftedBy(e, e', p, p');
    }
  }

  /** An end found at the same offset from two matching starts is at the same offset from any two earlier ones. */
  lemma ShiftedEnd(e: Option<nat>, e': Option<nat>, q: nat, q': nat, p: nat, p': nat, k: nat)
    requires q - p == q' - p'
    requires e.Some? == e'.Some?
    requires e.Some? ==> e.value <= k && e.value - q == e'.value - q'
    ensures e.Some? == e'.Some?
    ensures e.Some? ==> e.value <= k && e.value - p == e'.value - p'
  {
  }

  // ---------------------------------------------------------------------------
  // What the pattern accepts, and how findall returns it
  // ---------------------------------------------------------------------------

  predicate AllDigits(w: string) {
    forall i :: 0 <= i < |w| ==> IsDigit(w[i])
  }

  /** The state after reading all of `w` from `st`. */
  function Read(st: State, w: string): State {
    Go(st, w, 0, |w|)
  }

  lemma ReadAppend(st: State, u: string, v: string)
    ensures Read(st, u + v) == Read(Read(st, u), v)
  {
    var s := u + v;
    GoSplit(st, s, 0, |u|, |s|);
    GoSlice(st, s, 0, |u|, |u|);
    assert s[0..|u|] == u;
    GoSlice(Go(st, s, 0, |u|), s, |u|, |s|, |s|);
    assert s[|u|..|s|] == v;
  }

  lemma ReadDigits(f: nat, d: nat, w: string)
    requires AllDigits(w) && d + |w| <= Cap(f)
    ensures Read(At(f, d), w) == At(f, d + |w|)
  {
    GoDigits(f, d, w, 0, |w|);
  }

  /** `\d{1,3}` followed by a dot, read in field `f < 3`. */
  lemma ReadOctetDot(f: nat, w: string)
    requires f < 3 && AllDigits(w) && 1 <= |w| <= 3
    ensures Read(At(f, 0), w + ".") == At(f + 1, 0)
  {
    ReadAppend(At(f, 0), w, ".");
    ReadDigits(f, 0, w);
  }

  /**
   * Four groups of one to three digits joined by dots, optionally followed by
   * a colon and one to five digits, match the pattern. No group is range
   * checked: "999.999.999.999" matches like "10.0.0.1".
   */
  lemma DottedQuadIsAddress(a: string, b: string, c: string, d: string, port: string)
    requires AllDigits(a) && AllDigits(b) && AllDigits(c) && AllDigits(d) && AllDigits(port)
    requires 1 <= |a| <= 3 && 1 <= |b| <= 3 && 1 <= |c| <= 3 && 1 <= |d| <= 3 && |port| <= 5
    ensures IsAddress(a + "." + b + "." + c + "." + d + (if port == "" then "" else ":" + port))
  {
    var w1 := a + ".";
    var w2 := w1 + b + ".";
    var w3 := w2 + c + ".";
    ReadOctetDot(0, a);
    ReadAppend(Start, w1, b + ".");
    assert w1 + (b + ".") == w2;
    ReadOctetDot(1, b);
    ReadAppend(Start, w2, c + ".");
    assert w2 + (c + ".") == w3;
    ReadOctetDot(2, c);
    ReadAppend(Start, w3, d);
    ReadDigits(3, 0, d);
    var tail := if port == "" then "" else ":" + port;
    ReadAppend(Start, w3 + d, tail);
    if port != "" {
      ReadAppend(At(3, |d|), ":", port);
      ReadDigits(4, 0, port);
    }
    assert w3 + d + tail == a + "." + b + "." + c + "." + d + tail;
  }

  /** A string that matches the pattern as a whole is returned whole, and alone. */
  lemma FindAllOfAddress(t: string)
    requires IsAddress(t)
    ensures FindAll(t) == [t]
  {
    var sp := Spans(t, 0);
    SpansAreLeftmostLongest(t, 0);
    TokensAreSpanTexts(t, 0);
    assert AddressAt(t, 0, |t|);
    assert |t| > 0;
    assert sp != [];
    assert sp[0].0 == 0 by {
      assert NoMatchIn(t, 0, sp[0].0);
    }
    assert sp[0].1 == |t| by {
      assert LongestAt(t, 0, sp[0].1);
    }
    assert |sp| == 1;
    assert t[0..|t|] == t;
  }

  /** Every dotted quad, with or without a port, is found whole. */
  lemma DottedQuadFoundWhole(a: string, b: string, c: string, d: string, port: string)
    requires AllDigits(a) && AllDigits(b) && AllDigits(c) && AllDigits(d) && AllDigits(port)
    requires 1 <= |a| <= 3 && 1 <= |b| <= 3 && 1 <= |c| <= 3 && 1 <= |d| <= 3 && |port| <= 5
    ensures var t := a + "." + b + "." + c + "." + d + (if port == "" then "" else ":" + port);
      FindAll(t) == [t]
  {
    DottedQuadIsAddress(a, b, c, d, port);
    FindAllOfAddress(a + "." + b + "." + c + "." + d + (if port == "" then "" else ":" + port));
  }

  /** `\d` is not limited to ASCII: a dotted quad in fullwidth digits is found whole. */
  lemma FullwidthQuadFound()
    ensures FindAll("\U{FF11}.\U{FF12}.\U{FF13}.\U{FF14}") == ["\U{FF11}.\U{FF12}.\U{FF13}.\U{FF14}"]
  {
    var a, b, c, d := "\U{FF11}", "\U{FF12}", "\U{FF13}", "\U{FF14}";
    var t := "\U{FF11}.\U{FF12}.\U{FF13}.\U{FF14}";
    assert t == a + "." + b + "." + c + "." + d + "";
    DottedQuadIsAddress(a, b, c, d, "");
    FindAllOfAddress(t);
  }

  /** An Arabic-Indic digit after `1.2.3.4` extends the last group. */
  lemma ArabicIndicDigitExtends()
    ensures FindAll("1.2.3.4\U{665}") == ["1.2.3.4\U{665}"]
  {
    var d := "4\U{665}";
    var t := "1.2.3.4\U{665}";
    assert t == "1" + "." + "2" + "." + "3" + "." + d + "";
    DottedQuadIsAddress("1", "2", "3", d, "");
    FindAllOfAddress(t);
  }

  /**
   * A `:` that no digit follows is not consumed: after an address it is left
   * over and the address is returned without it.
   */
  lemma TrailingColonLeftOver(t: string)
    requires IsAddress(t)
    ensures FindAll(t + ":") == [t]
  {
    var s := t + ":";
    assert s[0..|t|] == t;
    GoSlice(Start, s, 0, |t|, |t|);
    assert AddressAt(s, 0, |t|);
    assert Run(s, 0, |t| + 1) == Step(Run(s, 0, |t|), ':');
    assert !AddressAt(s, 0, |t| + 1);
    MatchAtIsLongest(s, 0);
    assert MatchAt(s, 0) == Some(|t|);
    assert DigitRun(s, |t|) == 0;
    assert MatchAt(s, |t|) == None;
    assert Tokens(s, |t|) == Tokens(s, |t| + 1) == [];
  }

  /** A single character never matches: the shortest address, `0.0.0.0`, has seven. */
  lemma OneCharIsNotAddress(c: char)
    ensures !IsAddress([c])
  {
    assert Run([c], 0, 1) == Step(Start, c);
  }
}
