/*
 * The `handle` methods' row loops: how each kind of page turns the rows of a
 * table (or the lines of a text file) into a set of proxy strings.
 *
 * A table is what BeautifulSoup would hand the loop: one entry per `tr` (or row
 * `div`), holding the `.text` of each of its `td` cells (or `td`-class `div`s),
 * in document order. Each loop is a method that builds its set the way the
 * source does, proved equal to a set described row by row; the lemmas after it
 * say what the tokens in that set look like.
 */
module Rows {
  import opened Wrappers
  import opened Text

  /** The cell texts of one row. */
  type Row = seq<string>

  /** The rows of one table, in document order. */
  type Table = seq<Row>

  const Nbsp: string := "&nbsp;"

  // ---------------------------------------------------------------------------
  // GeneralTableScraper.handle (new.py:97-106): the first two cells, joined by ":"
  // ---------------------------------------------------------------------------

  /** A cell of the general table with every `&nbsp;` removed in one pass. */
  function TableCell(cell: string): string {
    RemoveAll(cell, Nbsp)
  }

  function TablePair(row: Row): string
    requires |row| >= 2
  {
    TableCell(row[0]) + ":" + TableCell(row[1])
  }

  /** One token per row that has at least two cells. */
  function TableTokens(rows: Table): set<string> {
    set r | r in rows && |r| >= 2 :: TablePair(r)
  }

  method GeneralTableRows(rows: Table) returns (proxies: set<string>)
    ensures proxies == TableTokens(rows)
  {
    proxies := {};
    var i := 0;
    while i < |rows|
      invariant 0 <= i <= |rows|
      invariant proxies == TableTokens(rows[..i])
    {
      var row := rows[i];
      var count := 0;
      var proxy := "";
      var j := 0;
      while j < |row|
        invariant 0 <= j <= |row| && count == j <= 1
        invariant proxy == if j == 0 then "" else TableCell(row[0])
        invariant proxies == TableTokens(rows[..i])
      {
        if count == 1 {
          proxy := proxy + ":" + TableCell(row[j]);
          proxies := proxies + {proxy};
          break;
        }
        proxy := proxy + TableCell(row[j]);
        count := count + 1;
        j := j + 1;
      }
      assert rows[..i + 1] == rows[..i] + [row];
      i := i + 1;
    }
    assert rows[..i] == rows;
  }

  /**
   * Cells after the second never reach a token: cutting every row to its first
   * two cells gives the same set.
   */
  lemma TableIgnoresExtraCells(rows: Table)
    ensures TableTokens(rows) == TableTokens(seq(|rows|, i requires 0 <= i < |rows| => rows[i][..Min2(|rows[i]|)]))
  {
    var cut := seq(|rows|, i requires 0 <= i < |rows| => rows[i][..Min2(|rows[i]|)]);
    forall t | t in TableTokens(rows)
      ensures t in TableTokens(cut)
    {
      var r :| r in rows && |r| >= 2 && t == TablePair(r);
      var i :| 0 <= i < |rows| && rows[i] == r;
      assert cut[i] in cut && TablePair(cut[i]) == t;
    }
    forall t | t in TableTokens(cut)
      ensures t in TableTokens(rows)
    {
      var r :| r in cut && |r| >= 2 && t == TablePair(r);
      var i :| 0 <= i < |cut| && cut[i] == r;
      assert rows[i] in rows && TablePair(rows[i]) == t;
    }
  }

  function Min2(n: nat): nat {
    if n < 2 then n else 2
  }

  /**
   * A token of the general table splits back into its two cleaned cells when
   * neither holds a colon.
   */
  lemma TablePairSplits(row: Row)
    requires |row| >= 2 && ':' !in TableCell(row[0]) && ':' !in TableCell(row[1])
    ensures Split(TablePair(row), ":") == [TableCell(row[0]), TableCell(row[1])]
  {
    var parts := [TableCell(row[0]), TableCell(row[1])];
    assert Join(parts, ":") == TablePair(row);
    SplitJoin(parts, ':');
  }

  /**
   * The removal is a single pass: text that held no `&nbsp;` is kept as it is,
   * and a cell that held one is changed.
   */
  lemma TableCellKeepsPlainText(cell: string)
    ensures TableCell(cell) == cell <==> !Contains(cell, Nbsp)
  {
    RemoveAllUnchangedIff(cell, Nbsp);
  }

  // ---------------------------------------------------------------------------
  // GeneralDivScraper.handle (new.py:117-126): up to two cells, then rstrip(":")
  // ---------------------------------------------------------------------------

  /** The text the inner loop builds: each of the first (at most) two cells followed by a colon. */
  function DivJoined(row: Row): string {
    if |row| == 0 then ""
    else if |row| == 1 then row[0] + ":"
    else row[0] + ":" + row[1] + ":"
  }

  function DivToken(row: Row): string {
    StripColons(DivJoined(row))
  }

  /** One token per row, empty rows included. */
  function DivTokens(rows: Table): set<string> {
    set r | r in rows :: DivToken(r)
  }

  method GeneralDivRows(rows: Table) returns (proxies: set<string>)
    ensures proxies == DivTokens(rows)
  {
    proxies := {};
    var i := 0;
    while i < |rows|
      invariant 0 <= i <= |rows|
      invariant proxies == DivTokens(rows[..i])
    {
      var proxy := DivRow(rows[i]);
      DivTokensSnoc(rows, i);
      proxies := proxies + {proxy};
      i := i + 1;
    }
    assert rows[..i] == rows;
  }

  /** The inner loop over one row's cells, and the `rstrip(":")` after it. */
  method DivRow(row: Row) returns (proxy: string)
    ensures proxy == DivToken(row)
  {
    var count := 0;
    proxy := "";
    var j := 0;
    while j < |row|
      invariant 0 <= j <= |row| && count == j <= 2
      invariant proxy == DivJoined(row[..j])
    {
      if count == 2 {
        break;
      }
      DivJoinedStep(row, j);
      proxy := proxy + row[j] + ":";
      count := count + 1;
      j := j + 1;
    }
    DivJoinedCut(row, j);
    proxy := StripColons(proxy);
  }

  lemma DivTokensSnoc(rows: Table, i: nat)
    requires i < |rows|
    ensures DivTokens(rows[..i + 1]) == DivTokens(rows[..i]) + {DivToken(rows[i])}
  {
    assert rows[..i + 1] == rows[..i] + [rows[i]];
  }

  lemma DivJoinedStep(row: Row, j: nat)
    requires j < 2 && j < |row|
    ensures DivJoined(row[..j + 1]) == DivJoined(row[..j]) + row[j] + ":"
  {
    if j == 1 {
      assert row[..j + 1] == [row[0], row[1]];
      assert row[..j] == [row[0]];
    } else {
      assert row[..j + 1] == [row[0]];
    }
  }

  lemma DivJoinedCut(row: Row, j: nat)
    requires j <= |row| && j <= 2 && (j == 2 || j == |row|)
    ensures DivJoined(row[..j]) == DivJoined(row)
  {
    if j == |row| {
      assert row[..j] == row;
    }
  }

  /** No token of the div grid ends with a colon, and a row with no cells gives the empty token. */
  lemma DivTokenShape(row: Row)
    ensures DivToken(row) == [] || DivToken(row)[|DivToken(row)| - 1] != ':'
    ensures row == [] ==> DivToken(row) == ""
  {
  }

  /**
   * Two cells whose second does not end with a colon give `first:second`; if
   * neither holds a colon, the token splits back into the two cells.
   */
  lemma DivTokenOfTwoCells(row: Row)
    requires |row| >= 2 && row[1] != [] && row[1][|row[1]| - 1] != ':'
    ensures DivToken(row) == row[0] + ":" + row[1]
    ensures ':' !in row[0] && ':' !in row[1] ==> Split(DivToken(row), ":") == [row[0], row[1]]
  {
    var two := row[0] + ":" + row[1];
    assert DivJoined(row) == two + ":";
    StripColonsAppend(two);
    StripColonsNone(two);
    if ':' !in row[0] && ':' !in row[1] {
      assert Join([row[0], row[1]], ":") == two;
      SplitJoin([row[0], row[1]], ':');
    }
  }

  /** A single cell loses its trailing colons: `a::` and `a` give the same token. */
  lemma DivTokenOfOneCell(cell: string)
    ensures DivToken([cell]) == StripColons(cell)
  {
    StripColonsAppend(cell);
  }

  // ---------------------------------------------------------------------------
  // Per-site tables, first-cell rule (new.py:154-160)
  // ---------------------------------------------------------------------------

  /** One token per row with at least one cell: the first cell, stripped. */
  function FirstCellTokens(rows: Table): set<string> {
    set r | r in rows && |r| > 0 :: Strip(r[0])
  }

  method FirstCellRows(rows: Table) returns (proxies: set<string>)
    ensures proxies == FirstCellTokens(rows)
  {
    proxies := {};
    var i := 0;
    while i < |rows|
      invariant 0 <= i <= |rows|
      invariant proxies == FirstCellTokens(rows[..i])
    {
      var cells := rows[i];
      FirstCellTokensSnoc(rows, i);
      if |cells| > 0 {
        var proxy := Strip(cells[0]);
        proxies := proxies + {proxy};
      }
      i := i + 1;
    }
    assert rows[..i] == rows;
  }

  lemma FirstCellTokensSnoc(rows: Table, i: nat)
    requires i < |rows|
    ensures FirstCellTokens(rows[..i + 1]) ==
      FirstCellTokens(rows[..i]) + (if |rows[i]| > 0 then {Strip(rows[i][0])} else {})
  {
    assert rows[..i + 1] == rows[..i] + [rows[i]];
  }

  /**
   * Every first-cell token is trimmed and stays the same when stripped again;
   * a row whose first cell is already trimmed contributes that cell unchanged.
   */
  lemma FirstCellTokensTrimmed(rows: Table, t: string)
    requires t in FirstCellTokens(rows)
    ensures t == [] || (!IsSpace(t[0]) && !IsSpace(t[|t| - 1]))
    ensures Strip(t) == t
  {
    StripTrimmed(t);
  }

  lemma FirstCellKeepsTrimmedCell(rows: Table, k: nat)
    requires k < |rows| && |rows[k]| > 0
    requires rows[k][0] == [] || (!IsSpace(rows[k][0][0]) && !IsSpace(rows[k][0][|rows[k][0]| - 1]))
    ensures rows[k][0] in FirstCellTokens(rows)
  {
    StripTrimmed(rows[k][0]);
  }

  // ---------------------------------------------------------------------------
  // Per-site tables, ip:port rule (new.py:575-581)
  // ---------------------------------------------------------------------------

  function IpPort(row: Row): string
    requires |row| >= 2
  {
    Strip(row[0]) + ":" + Strip(row[1])
  }

  /** One token per row with two or more cells. */
  function IpPortTokens(rows: Table): set<string> {
    set r | r in rows && |r| >= 2 :: IpPort(r)
  }

  /** Some row has exactly one cell, so `cells[1]` raises IndexError on it. */
  predicate HasSingleCellRow(rows: Table) {
    exists r :: r in rows && |r| == 1
  }

  method IpPortRows(rows: Table) returns (r: Result<set<string>>)
    ensures r.Err? <==> HasSingleCellRow(rows)
    ensures r.Err? ==> r.error == IndexError
    ensures r.Ok? ==> r.value == IpPortTokens(rows)
  {
    var proxies: set<string> := {};
    var i := 0;
    while i < |rows|
      invariant 0 <= i <= |rows|
      invariant !HasSingleCellRow(rows[..i])
      invariant proxies == IpPortTokens(rows[..i])
    {
      var cells := rows[i];
      IpPortSnoc(rows, i);
      if |cells| > 0 {
        var ip := Strip(cells[0]);
        if |cells| < 2 {
          assert cells in rows;
          return Err(IndexError);
        }
        var port := Strip(cells[1]);
        var proxy := ip + ":" + port;
        proxies := proxies + {proxy};
      }
      i := i + 1;
    }
    assert rows[..i] == rows;
    return Ok(proxies);
  }

  lemma IpPortSnoc(rows: Table, i: nat)
    requires i < |rows|
    ensures IpPortTokens(rows[..i + 1]) ==
      IpPortTokens(rows[..i]) + (if |rows[i]| >= 2 then {IpPort(rows[i])} else {})
    ensures HasSingleCellRow(rows[..i + 1]) <==> HasSingleCellRow(rows[..i]) || |rows[i]| == 1
  {
    assert rows[..i + 1] == rows[..i] + [rows[i]];
  }

  /** An ip:port token splits back into the stripped address and port when neither holds a colon. */
  lemma IpPortSplits(row: Row)
    requires |row| >= 2 && ':' !in Strip(row[0]) && ':' !in Strip(row[1])
    ensures Split(IpPort(row), ":") == [Strip(row[0]), Strip(row[1])]
  {
    var parts := [Strip(row[0]), Strip(row[1])];
    assert Join(parts, ":") == IpPort(row);
    SplitJoin(parts, ':');
  }

  /** Rows without cells are skipped by both per-site rules; they never raise. */
  lemma EmptyRowsAreSkipped(rows: Table)
    ensures FirstCellTokens(rows + [[]]) == FirstCellTokens(rows)
    ensures IpPortTokens(rows + [[]]) == IpPortTokens(rows)
    ensures HasSingleCellRow(rows + [[]]) == HasSingleCellRow(rows)
  {
    var more := rows + [[]];
    assert forall r :: r in more <==> r in rows || r == [];
  }

  // ---------------------------------------------------------------------------
  // GitHubScraper.handle (new.py:133-139): lines tagged with the kind
  // ---------------------------------------------------------------------------

  /** The text after the last `//` of each line that contains `kind` anywhere. */
  function TaggedTokens(text: string, kind: string): set<string> {
    set l | l in Split(text, "\n") && Contains(l, kind) :: AfterLast(l, "//")
  }

  method TaggedLines(text: string, kind: string) returns (proxies: set<string>)
    ensures proxies == TaggedTokens(text, kind)
  {
    var lines := Split(text, "\n");
    proxies := {};
    var i := 0;
    while i < |lines|
      invariant 0 <= i <= |lines|
      invariant proxies == set l | l in lines[..i] && Contains(l, kind) :: AfterLast(l, "//")
    {
      var line := lines[i];
      TaggedSnoc(lines, i, kind);
      if Contains(line, kind) {
        proxies := proxies + {AfterLast(line, "//")};
      }
      i := i + 1;
    }
    assert lines[..i] == lines;
  }

  lemma TaggedSnoc(lines: seq<string>, i: nat, kind: string)
    requires i < |lines|
    ensures (set l | l in lines[..i + 1] && Contains(l, kind) :: AfterLast(l, "//")) ==
      (set l | l in lines[..i] && Contains(l, kind) :: AfterLast(l, "//")) +
      (if Contains(lines[i], kind) then {AfterLast(lines[i], "//")} else {})
  {
    assert lines[..i + 1] == lines[..i] + [lines[i]];
  }

  /**
   * Each tagged token is the end of a line that contains the kind, and holds
   * no `//`; a kept line without `//` is kept whole.
   */
  lemma TaggedTokenOrigin(text: string, kind: string, t: string)
    requires t in TaggedTokens(text, kind)
    ensures !Contains(t, "//")
    ensures exists l :: l in Split(text, "\n") && Contains(l, kind) && |t| <= |l| && t == l[|l| - |t|..]
  {
    var l :| l in Split(text, "\n") && Contains(l, kind) && t == AfterLast(l, "//");
    AfterLastIsSeparatorFreeSuffix(l, "//");
  }

  lemma TaggedKeepsPlainLine(text: string, kind: string, l: string)
    requires l in Split(text, "\n") && Contains(l, kind) && !Contains(l, "//")
    ensures l in TaggedTokens(text, kind)
  {
    AfterLastIsSeparatorFreeSuffix(l, "//");
  }

  /**
   * The test is for a substring, so a kind keeps every line a longer kind that
   * starts with it keeps: "http" keeps the "https" lines, and "socks" the
   * "socks4" and "socks5" lines.
   */
  lemma TaggedWidensToPrefixes(text: string, kind: string, more: string)
    ensures TaggedTokens(text, kind + more) <= TaggedTokens(text, kind)
  {
    forall t | t in TaggedTokens(text, kind + more)
      ensures t in TaggedTokens(text, kind)
    {
      var l :| l in Split(text, "\n") && Contains(l, kind + more) && t == AfterLast(l, "//");
      ContainsPrefixOf(l, kind, more);
    }
  }

  lemma HttpKeepsHttpsLines(text: string)
    ensures TaggedTokens(text, "https") <= TaggedTokens(text, "http")
    ensures TaggedTokens(text, "socks4") <= TaggedTokens(text, "socks")
    ensures TaggedTokens(text, "socks5") <= TaggedTokens(text, "socks")
  {
    TaggedWidensToPrefixes(text, "http", "s");
    assert "http" + "s" == "https";
    TaggedWidensToPrefixes(text, "socks", "4");
    assert "socks" + "4" == "socks4";
    TaggedWidensToPrefixes(text, "socks", "5");
    assert "socks" + "5" == "socks5";
  }
}
