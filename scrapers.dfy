/*
 * The scraper classes (new.py:13-740): how one scraper turns what the web
 * serves into a list of proxy strings.
 *
 * Every scraper has a kind (the `method` it was built with), a URL template,
 * the extra keyword values its `get_url` passes to `str.format`, and one of
 * three `scrape` shapes:
 *   - the inherited one: one request, `handle`, then `re.findall` of the
 *     address pattern over the handled text;
 *   - the paged overrides: for each page, overwrite `_url`, request, `handle`,
 *     and `list.extend` with the handled text;
 *   - ProxyDBScraper's: `range(0, limit, 15)` rounds of request, `handle`,
 *     `list.extend`, always through the unchanged `get_url()`.
 *
 * The web is a function from URL to response (`None` when the request itself
 * fails). A response carries its text and the three parts of its parsed HTML
 * that the `handle` overrides look for. Python's set iteration order, which
 * decides how `"\n".join(proxies)` lays out its lines, is left open: `Enumerate`
 * picks any order, and every contract holds for all of them.
 */
module Scrapers {
  import opened Wrappers
  import opened Text
  import Template
  import opened Address
  import opened Separation
  import opened Rows

  /**
   * What `BeautifulSoup(response.text, "html.parser")` yields for the lookups
   * the handlers make, each `None` when the page has no such element:
   *   - `table`: the rows of the first `table` (`soup.find("table")`);
   *   - `stripedTable`: the rows of the first table with class
   *     "table table-striped table-bordered";
   *   - `listDiv`: one entry per `div` nested anywhere inside the first
   *     `div.list`, holding the texts of the `div.td` inside it. The cell
   *     `div`s are themselves such entries, with no cells of their own.
   */
  datatype Soup = Soup(table: Option<Table>, stripedTable: Option<Table>, listDiv: Option<Table>)

  datatype Response = Response(text: string, soup: Soup)

  /** Which `handle` a scraper class uses. */
  datatype Rule =
    | Whole         // Scraper.handle: the response text as it is
    | Tagged        // GitHubScraper.handle
    | StripedTable  // GeneralTableScraper.handle
    | ListDiv       // GeneralDivScraper.handle
    | FirstCell     // the per-site tables that keep the first cell
    | IpPort        // the per-site tables that join the first two cells

  /** Which `scrape` a scraper class uses. */
  datatype Family =
    | Single(rule: Rule)
      /** `for page in range(1, pages + 1)`, each page at the URL its f-string builds from `page`. */
    | Paged(rule: Rule, pages: nat)
    | ProxyDB(limit: nat)

  /**
   * A scraper's state: `method`, the current `_url`, the keyword values its
   * `get_url` adds, and (for the paged classes) the f-string that builds the
   * URL of a page from its key.
   */
  datatype Config = Config(kind: string, family: Family, url: string, args: map<string, string>, pageUrl: nat -> string)

  function RuleOf(f: Family): Rule {
    match f
    case Single(rule) => rule
    case Paged(rule, _) => rule
    case ProxyDB(_) => FirstCell
  }

  /** `get_url()`: the current `_url` formatted with the keyword values and `method`. */
  function GetUrl(c: Config): Result<string> {
    Template.GetUrl(c.url, c.kind, c.args)
  }

  /** `get_response`: the URL requested (if `get_url` succeeded) and what came back. */
  function Request(c: Config, web: string -> Option<Response>): (Result<Response>, seq<string>) {
    match GetUrl(c)
    case Err(e) => (Err(e), [])
    case Ok(u) =>
      match web(u)
      case None => (Err(RequestError), [u])
      case Some(page) => (Ok(page), [u])
  }

  /** What `handle` collects before joining, or the error it raises. */
  function Handled(rule: Rule, kind: string, page: Response): Result<set<string>> {
    match rule
    case Whole => Ok({page.text})
    case Tagged => Ok(TaggedTokens(page.text, kind))
    case StripedTable =>
      if page.soup.stripedTable.None? then Err(AttributeError) else Ok(TableTokens(page.soup.stripedTable.value))
    case ListDiv =>
      if page.soup.listDiv.None? then Err(AttributeError) else Ok(DivTokens(page.soup.listDiv.value))
    case FirstCell =>
      if page.soup.table.None? then Err(AttributeError) else Ok(FirstCellTokens(page.soup.table.value))
    case IpPort =>
      if page.soup.table.None? then Err(AttributeError)
      else if HasSingleCellRow(page.soup.table.value) then Err(IndexError)
      else Ok(IpPortTokens(page.soup.table.value))
  }

  /** One request and its `handle`: the lines collected and the URLs requested. */
  function Visit(c: Config, web: string -> Option<Response>): (Result<set<string>>, seq<string>) {
    var (response, fetched) := Request(c, web);
    match response
    case Err(e) => (Err(e), fetched)
    case Ok(page) => (Handled(RuleOf(c.family), c.kind, page), fetched)
  }

  /** Every address `findall` finds in some line. */
  function Found(lines: set<string>): set<string> {
    set x, t | x in lines && t in FindAll(x) :: t
  }

  /**
   * The one-character strings `list.extend` adds for the joined lines: every
   * character of every line, and the newline when there are at least two lines.
   */
  function PageChars(lines: set<string>): set<string> {
    (set x, i | x in lines && 0 <= i < |x| :: [x[i]]) + (if |lines| >= 2 then {"\n"} else {})
  }

  function Elements(xs: seq<string>): set<string> {
    set t | t in xs
  }

  /** What one request and its `handle` gave: the lines (or the error raised), and the URLs requested. */
  type Step = (Result<set<string>>, seq<string>)

  /** How far a page loop got: its proxies (or the error that ended it), the URLs requested, the steps taken. */
  datatype Progress = Progress(result: Result<set<string>>, fetched: seq<string>, taken: nat)

  /**
   * A `scrape` loop over `steps`, each adding `gain` of its lines to the list
   * of proxies; the first step that raises ends the loop and the scrape.
   */
  function Loop(steps: seq<Step>, gain: set<string> -> set<string>): Progress
  {
    if steps == [] then Progress(Ok({}), [], 0)
    else
      var prev := Loop(steps[..|steps| - 1], gain);
      var last := steps[|steps| - 1];
      if prev.result.Err? then prev
      else
        match last.0
        case Err(e) => Progress(Err(e), prev.fetched + last.1, |steps|)
        case Ok(lines) => Progress(Ok(prev.result.value + gain(lines)), prev.fetched + last.1, |steps|)
  }

  /** The scraper with `_url` set to the f-string of page `p`. */
  function AtPage(c: Config, p: nat): Config
    requires c.family.Paged?
  {
    c.(url := c.pageUrl(p))
  }

  /** Pages `1..n`, in order. */
  function PageSteps(c: Config, web: string -> Option<Response>, n: nat): seq<Step>
    requires c.family.Paged?
  {
    seq(n, i requires 0 <= i < n => Visit(AtPage(c, i + 1), web))
  }

  /** The number of values in `range(0, limit, 15)`. */
  function Rounds(limit: nat): nat {
    (limit + 14) / 15
  }

  /** ProxyDBScraper's rounds: the same request every time. */
  function RoundSteps(c: Config, web: string -> Option<Response>, n: nat): seq<Step> {
    seq(n, i requires 0 <= i < n => Visit(c, web))
  }

  /** The outcome of a `scrape`: its proxies (as a set), the URLs requested in order, the final `_url`. */
  datatype Outcome = Outcome(result: Result<set<string>>, fetched: seq<string>, url: string)

  /** What `scrape` does for a scraper in state `c`. */
  function ScrapeOutcome(c: Config, web: string -> Option<Response>): Outcome {
    match c.family
    case Single(_) =>
      var (lines, fetched) := Visit(c, web);
      Outcome(if lines.Ok? then Ok(Found(lines.value)) else Err(lines.error), fetched, c.url)
    case Paged(_, pages) =>
      var p := Loop(PageSteps(c, web, pages), PageChars);
      Outcome(p.result, p.fetched, if p.taken == 0 then c.url else AtPage(c, p.taken).url)
    case ProxyDB(limit) =>
      var p := Loop(RoundSteps(c, web, Rounds(limit)), PageChars);
      Outcome(p.result, p.fetched, c.url)
  }

  /** `r` and `fetched` are what `o` describes: the same error, or a list holding exactly its proxies. */
  predicate Agrees(r: Result<seq<string>>, fetched: seq<string>, o: Outcome) {
    fetched == o.fetched &&
    match r
    case Ok(ts) => o.result == Ok(Elements(ts))
    case Err(e) => o.result == Err(e)
  }

  /** `xs` lists the members of `s`, each once, in some order. */
  ghost predicate IsListing(xs: seq<string>, s: set<string>) {
    |xs| == |s| &&
    (forall x :: x in xs <==> x in s) &&
    (forall i, j :: 0 <= i < j < |xs| ==> xs[i] != xs[j])
  }

  /** `"\n".join` of a set: its members in whatever order iteration yields. */
  ghost predicate JoinsLines(text: string, s: set<string>) {
    exists xs :: IsListing(xs, s) && text == Join(xs, "\n")
  }

  /** `handle` returns the lines it collected, joined, or raises what `Handled` says. */
  ghost predicate Handles(r: Result<string>, h: Result<set<string>>) {
    match h
    case Err(e) => r == Err(e)
    case Ok(lines) => r.Ok? && JoinsLines(r.value, lines)
  }

  /** Iterating over a set: each member once, in an order the model leaves open. */
  method Enumerate(s: set<string>) returns (xs: seq<string>)
    ensures IsListing(xs, s)
  {
    xs := [];
    var rest := s;
    while rest != {}
      invariant rest <= s
      invariant |xs| + |rest| == |s|
      invariant forall x :: x in xs <==> x in s && x !in rest
      invariant forall i, j :: 0 <= i < j < |xs| ==> xs[i] != xs[j]
      decreases |rest|
    {
      var x :| x in rest;
      xs := xs + [x];
      rest := rest - {x};
    }
  }

  method JoinLines(s: set<string>) returns (text: string)
    ensures JoinsLines(text, s)
  {
    var xs := Enumerate(s);
    text := Join(xs, "\n");
  }

  // ---------------------------------------------------------------------------
  // How joined lines come apart again
  // ---------------------------------------------------------------------------

  /** `findall` over the joined lines finds exactly the addresses of the lines, whatever their order. */
  lemma FoundInListing(xs: seq<string>, lines: set<string>)
    requires IsListing(xs, lines)
    ensures Elements(FindAll(Join(xs, "\n"))) == Found(lines)
  {
    forall t
      ensures t in FindAll(Join(xs, "\n")) <==> t in Found(lines)
    {
      FoundInJoinedLines(xs, t);
      if t in Found(lines) {
        var x :| x in lines && t in FindAll(x);
        assert x in xs;
      }
    }
  }

  /** `list.extend` with the joined lines adds exactly their characters, and a newline between two lines. */
  lemma {:induction false} ExplodedListing(xs: seq<string>, lines: set<string>)
    requires IsListing(xs, lines)
    ensures Elements(Explode(Join(xs, "\n"))) == PageChars(lines)
  {
    var text := Join(xs, "\n");
    var e := Explode(text);
    forall t | t in PageChars(lines)
      ensures t in e
    {
      var ch: char;
      if |lines| >= 2 && t == "\n" {
        ch := '\n';
      } else {
        var x, i :| x in lines && 0 <= i < |x| && t == [x[i]];
        ch := x[i];
        var k :| 0 <= k < |xs| && xs[k] == x;
        assert ch in xs[k];
      }
      CharsOfJoin(xs, '\n', ch);
      var j :| 0 <= j < |text| && text[j] == ch;
      assert e[j] == t;
    }
    forall t | t in e
      ensures t in PageChars(lines)
    {
      var j :| 0 <= j < |e| && e[j] == t;
      var ch := text[j];
      CharsOfJoin(xs, '\n', ch);
      if ch != '\n' || |xs| < 2 {
        var k :| 0 <= k < |xs| && ch in xs[k];
        var i :| 0 <= i < |xs[k]| && xs[k][i] == ch;
        assert xs[k] in lines;
      }
    }
  }

  lemma ElementsAppend(a: seq<string>, b: seq<string>)
    ensures Elements(a + b) == Elements(a) + Elements(b)
  {
  }

  // ---------------------------------------------------------------------------
  // The scraper object
  // ---------------------------------------------------------------------------

  class Scraper {
    const kind: string
    const family: Family
    const args: map<string, string>
    const pageUrl: nat -> string
    /** `_url`, which the paged `scrape` overrides reassign. */
    var url: string

    constructor (kind: string, family: Family, url: string, args: map<string, string>, pageUrl: nat -> string)
      ensures State() == Config(kind, family, url, args, pageUrl)
    {
      this.kind := kind;
      this.family := family;
      this.url := url;
      this.args := args;
      this.pageUrl := pageUrl;
    }

    function State(): Config
      reads this
    {
      Config(kind, family, url, args, pageUrl)
    }

    /** `get_response`: request the formatted `_url`. */
    method GetResponse(web: string -> Option<Response>) returns (r: Result<Response>, fetched: seq<string>)
      ensures (r, fetched) == Request(State(), web)
      ensures fetched == [] <==> GetUrl(State()).Err?
      ensures fetched != [] ==> Ok(fetched[0]) == GetUrl(State()) && |fetched| == 1
    {
      var u := Template.GetUrl(url, kind, args);
      if u.Err? {
        return Err(u.error), [];
      }
      fetched := [u.value];
      var page := web(u.value);
      if page.None? {
        return Err(RequestError), fetched;
      }
      r := Ok(page.value);
    }

    /** `handle`, as overridden by this scraper's class. */
    method Handle(page: Response) returns (r: Result<string>)
      ensures Handles(r, Handled(RuleOf(family), kind, page))
    {
      match RuleOf(family)
      case Whole =>
        r := Ok(page.text);
        assert IsListing([page.text], {page.text});
      case Tagged =>
        var proxies := TaggedLines(page.text, kind);
        var text := JoinLines(proxies);
        r := Ok(text);
      case StripedTable =>
        if page.soup.stripedTable.None? {
          return Err(AttributeError);
        }
        var proxies := GeneralTableRows(page.soup.stripedTable.value);
        var text := JoinLines(proxies);
        r := Ok(text);
      case ListDiv =>
        if page.soup.listDiv.None? {
          return Err(AttributeError);
        }
        var proxies := GeneralDivRows(page.soup.listDiv.value);
        var text := JoinLines(proxies);
        r := Ok(text);
      case FirstCell =>
        if page.soup.table.None? {
          return Err(AttributeError);
        }
        var proxies := FirstCellRows(page.soup.table.value);
        var text := JoinLines(proxies);
        r := Ok(text);
      case IpPort =>
        if page.soup.table.None? {
          return Err(AttributeError);
        }
        var proxies := IpPortRows(page.soup.table.value);
        if proxies.Err? {
          return Err(proxies.error);
        }
        var text := JoinLines(proxies.value);
        r := Ok(text);
    }

    /** One request and its `handle`, as `Visit` describes for the current state. */
    method Fetch(web: string -> Option<Response>) returns (r: Result<string>, fetched: seq<string>)
      ensures fetched == Visit(State(), web).1
      ensures Handles(r, Visit(State(), web).0)
    {
      var response;
      response, fetched := GetResponse(web);
      if response.Err? {
        return Err(response.error), fetched;
      }
      r := Handle(response.value);
    }

    /** The inherited `scrape`: one page, then every address the handled text holds. */
    method ScrapeSingle(web: string -> Option<Response>) returns (r: Result<seq<string>>, fetched: seq<string>)
      requires family.Single?
      ensures Agrees(r, fetched, ScrapeOutcome(State(), web))
    {
      var text;
      text, fetched := Fetch(web);
      if text.Err? {
        return Err(text.error), fetched;
      }
      r := Ok(FindAll(text.value));
      ghost var lines := Visit(State(), web).0.value;
      ghost var xs :| IsListing(xs, lines) && text.value == Join(xs, "\n");
      FoundInListing(xs, lines);
    }

    /** The paged `scrape` overrides: each page's URL in turn, extending the list with the handled text. */
    method ScrapePaged(web: string -> Option<Response>) returns (r: Result<seq<string>>, fetched: seq<string>)
      requires family.Paged?
      modifies this
      ensures Agrees(r, fetched, ScrapeOutcome(old(State()), web))
      ensures url == ScrapeOutcome(old(State()), web).url
    {
      ghost var c := State();
      ghost var steps := PageSteps(c, web, family.pages);
      var proxies: seq<string> := [];
      fetched := [];
      var page := 1;
      assert steps[..0] == [] && Elements(proxies) == {};
      while page <= family.pages
        invariant 1 <= page <= family.pages + 1
        invariant Loop(steps[..page - 1], PageChars) == Progress(Ok(Elements(proxies)), fetched, page - 1)
        invariant url == if page == 1 then c.url else AtPage(c, page - 1).url
      {
        url := pageUrl(page);
        assert State() == AtPage(c, page);
        var text, f := Fetch(web);
        assert steps[page - 1] == Visit(State(), web);
        PageStep(steps, page - 1, proxies, fetched, text);
        fetched := fetched + f;
        if text.Err? {
          return Err(text.error), fetched;
        }
        proxies := proxies + Explode(text.value);
        page := page + 1;
      }
      assert steps[..page - 1] == steps;
      r := Ok(proxies);
    }

    /** ProxyDBScraper.scrape: `range(0, limit, 15)` rounds, each through the same `get_url()`. */
    method ScrapeProxyDB(web: string -> Option<Response>) returns (r: Result<seq<string>>, fetched: seq<string>)
      requires family.ProxyDB?
      ensures Agrees(r, fetched, ScrapeOutcome(State(), web))
    {
      ghost var steps := RoundSteps(State(), web, Rounds(family.limit));
      var proxies: seq<string> := [];
      fetched := [];
      var offset := 0;
      ghost var n := 0;
      assert steps[..0] == [] && Elements(proxies) == {};
      while offset < family.limit
        invariant offset == 15 * n && offset <= family.limit + 14 && n <= |steps|
        invariant Loop(steps[..n], PageChars) == Progress(Ok(Elements(proxies)), fetched, n)
        decreases family.limit - offset
      {
        var text, f := Fetch(web);
        assert steps[n] == Visit(State(), web);
        PageStep(steps, n, proxies, fetched, text);
        fetched := fetched + f;
        if text.Err? {
          return Err(text.error), fetched;
        }
        proxies := proxies + Explode(text.value);
        offset := offset + 15;
        n := n + 1;
      }
      assert steps[..n] == steps;
      r := Ok(proxies);
    }

    /** `scrape`, as this scraper's class defines it. */
    method Scrape(web: string -> Option<Response>) returns (r: Result<seq<string>>, fetched: seq<string>)
      modifies this
      ensures Agrees(r, fetched, ScrapeOutcome(old(State()), web))
      ensures url == ScrapeOutcome(old(State()), web).url
    {
      match family
      case Single(_) =>
        r, fetched := ScrapeSingle(web);
      case Paged(_, _) =>
        r, fetched := ScrapePaged(web);
      case ProxyDB(_) =>
        r, fetched := ScrapeProxyDB(web);
    }
  }

  // ---------------------------------------------------------------------------
  // The page loop
  // ---------------------------------------------------------------------------

  /** One more step of the loop. */
  lemma TakeSnoc<T>(xs: seq<T>, n: nat)
    requires n < |xs|
    ensures xs[..n + 1] == xs[..n] + [xs[n]]
  {
  }

  lemma LoopSnoc(steps: seq<Step>, last: Step, gain: set<string> -> set<string>)
    ensures Loop(steps + [last], gain) ==
      var prev := Loop(steps, gain);
      if prev.result.Err? then prev
      else
        match last.0
        case Err(e) => Progress(Err(e), prev.fetched + last.1, |steps| + 1)
        case Ok(lines) => Progress(Ok(prev.result.value + gain(lines)), prev.fetched + last.1, |steps| + 1)
  {
    assert (steps + [last])[..|steps|] == steps;
  }

  /**
   * One more step of a paged or ProxyDB `scrape` loop, given the text `handle`
   * returned for it: the error ends the loop, the text's characters extend the list.
   */
  lemma PageStep(steps: seq<Step>, n: nat, proxies: seq<string>, fetched: seq<string>, text: Result<string>)
    requires n < |steps| && Handles(text, steps[n].0)
    requires Loop(steps[..n], PageChars) == Progress(Ok(Elements(proxies)), fetched, n)
    ensures text.Err? ==> Loop(steps, PageChars) == Progress(Err(text.error), fetched + steps[n].1, n + 1)
    ensures text.Ok? ==>
      Loop(steps[..n + 1], PageChars) == Progress(Ok(Elements(proxies + Explode(text.value))), fetched + steps[n].1, n + 1)
  {
    TakeSnoc(steps, n);
    LoopSnoc(steps[..n], steps[n], PageChars);
    if text.Err? {
      LoopStops(steps, n + 1, PageChars);
    } else {
      var lines := steps[n].0.value;
      var xs :| IsListing(xs, lines) && text.value == Join(xs, "\n");
      ExplodedListing(xs, lines);
      ElementsAppend(proxies, Explode(text.value));
    }
  }

  /** Once a step raises, the later steps never run. */
  lemma {:induction false} LoopStops(steps: seq<Step>, k: nat, gain: set<string> -> set<string>)
    requires k <= |steps| && Loop(steps[..k], gain).result.Err?
    ensures Loop(steps, gain) == Loop(steps[..k], gain)
    decreases |steps| - k
  {
    if k < |steps| {
      assert steps[..|steps| - 1][..k] == steps[..k];
      LoopStops(steps[..|steps| - 1], k, gain);
    } else {
      assert steps[..k] == steps;
    }
  }

  /**
   * The loop's requests are those of the steps it took, in order: the loop
   * stops at the first step that raises, and when none raises it takes them all.
   */
  lemma {:induction false} LoopTakes(steps: seq<Step>, gain: set<string> -> set<string>)
    ensures var p := Loop(steps, gain);
      p.taken <= |steps| &&
      p.fetched == Concat(seq(p.taken, i requires 0 <= i < p.taken => steps[i].1)) &&
      (forall i :: 0 <= i < p.taken - 1 ==> steps[i].0.Ok?) &&
      (p.result.Ok? <==> p.taken == |steps| && forall i :: 0 <= i < |steps| ==> steps[i].0.Ok?) &&
      (p.result.Err? ==> 1 <= p.taken && steps[p.taken - 1].0 == p.result)
    decreases |steps|
  {
    if steps != [] {
      var init := steps[..|steps| - 1];
      LoopTakes(init, gain);
      var prev := Loop(init, gain);
      var p := Loop(steps, gain);
      var parts := seq(p.taken, i requires 0 <= i < p.taken => steps[i].1);
      var before := seq(prev.taken, i requires 0 <= i < prev.taken => init[i].1);
      if prev.result.Ok? {
        assert parts == before + [steps[|steps| - 1].1];
        ConcatAppend(before, [steps[|steps| - 1].1]);
        assert Concat([steps[|steps| - 1].1]) == steps[|steps| - 1].1 + Concat([]);
      } else {
        assert parts == before;
      }
    }
  }

  /** With no failure, the loop's proxies are exactly the gains of its steps. */
  lemma {:induction false} LoopGains(steps: seq<Step>, gain: set<string> -> set<string>, t: string)
    requires Loop(steps, gain).result.Ok?
    ensures t in Loop(steps, gain).result.value <==>
      exists i :: 0 <= i < |steps| && steps[i].0.Ok? && t in gain(steps[i].0.value)
    decreases |steps|
  {
    if steps != [] {
      var init := steps[..|steps| - 1];
      LoopGains(init, gain, t);
      if exists i :: 0 <= i < |init| && init[i].0.Ok? && t in gain(init[i].0.value) {
        var i :| 0 <= i < |init| && init[i].0.Ok? && t in gain(init[i].0.value);
        assert steps[i] == init[i];
      }
      if exists i :: 0 <= i < |steps| - 1 && steps[i].0.Ok? && t in gain(steps[i].0.value) {
        var i :| 0 <= i < |steps| - 1 && steps[i].0.Ok? && t in gain(steps[i].0.value);
        assert steps[i] == init[i];
      }
    }
  }

  /** The gain only decides the proxies: the requests, and whether and where the loop stops, are the same. */
  lemma {:induction false} LoopGainIrrelevant(steps: seq<Step>, g: set<string> -> set<string>, h: set<string> -> set<string>)
    ensures Loop(steps, g).fetched == Loop(steps, h).fetched
    ensures Loop(steps, g).taken == Loop(steps, h).taken
    ensures Loop(steps, g).result.Ok? <==> Loop(steps, h).result.Ok?
    ensures Loop(steps, g).result.Err? ==> Loop(steps, g).result == Loop(steps, h).result
    decreases |steps|
  {
    if steps != [] {
      LoopGainIrrelevant(steps[..|steps| - 1], g, h);
    }
  }

  /** One step requests `get_url()` once if it is well formed, and nothing otherwise. */
  lemma VisitRequests(c: Config, web: string -> Option<Response>)
    ensures Visit(c, web).1 == if GetUrl(c).Ok? then [GetUrl(c).value] else []
    ensures GetUrl(c).Err? ==> Visit(c, web).0 == Err(GetUrl(c).error)
  {
  }

  // ---------------------------------------------------------------------------
  // Properties of the three scrape shapes
  // ---------------------------------------------------------------------------

  /** The inherited `scrape` keeps only strings that match the address pattern, each found in a handled line. */
  lemma SingleFindsOnlyAddresses(c: Config, web: string -> Option<Response>, t: string)
    requires c.family.Single? && ScrapeOutcome(c, web).result.Ok?
    requires t in ScrapeOutcome(c, web).result.value
    ensures IsAddress(t)
    ensures exists x :: x in Visit(c, web).0.value && t in FindAll(x)
  {
    var x :| x in Visit(c, web).0.value && t in FindAll(x);
    FindAllTokensAreAddresses(x);
  }

  /** Step `i` requests `us[i]` if that URL is well formed, and raises if it is not. */
  predicate Requesting(steps: seq<Step>, us: seq<Result<string>>) {
    |us| == |steps| &&
    (forall i :: 0 <= i < |steps| ==> steps[i].1 == (if us[i].Ok? then [us[i].value] else [])) &&
    (forall i :: 0 <= i < |steps| ==> us[i].Err? ==> steps[i].0.Err?)
  }

  /** The URLs of pages `1..n`, as `get_url()` formats them. */
  function PageUrls(c: Config, n: nat): seq<Result<string>>
    requires c.family.Paged?
  {
    seq(n, i requires 0 <= i < n => GetUrl(AtPage(c, i + 1)))
  }

  lemma PageStepsRequest(c: Config, web: string -> Option<Response>, n: nat)
    requires c.family.Paged?
    ensures Requesting(PageSteps(c, web, n), PageUrls(c, n))
  {
    var steps, us := PageSteps(c, web, n), PageUrls(c, n);
    forall i | 0 <= i < n
      ensures steps[i].1 == (if us[i].Ok? then [us[i].value] else [])
      ensures us[i].Err? ==> steps[i].0.Err?
    {
      VisitRequests(AtPage(c, i + 1), web);
    }
  }

  /** The loop's request log, when each step requests `us[i]` if that URL is well formed. */
  lemma {:induction false} LoopRequests(steps: seq<Step>, us: seq<Result<string>>, gain: set<string> -> set<string>)
    requires Requesting(steps, us)
    ensures var p := Loop(steps, gain);
      |p.fetched| <= |steps| &&
      (forall i :: 0 <= i < |p.fetched| ==> Ok(p.fetched[i]) == us[i]) &&
      (p.result.Ok? ==> |p.fetched| == |steps|)
    decreases |steps|
  {
    if steps != [] {
      var n := |steps| - 1;
      LoopRequests(steps[..n], us[..n], gain);
      var prev := Loop(steps[..n], gain);
      assert forall i :: 0 <= i < |prev.fetched| ==> Ok(prev.fetched[i]) == us[i];
    }
  }

  /**
   * A paged scraper requests page 1, 2, ... in order, each at the formatted
   * f-string of its number, and stops at the first page that
   * raises; when none raises it has requested every page.
   */
  lemma PagesInOrder(c: Config, web: string -> Option<Response>)
    requires c.family.Paged?
    ensures var o := ScrapeOutcome(c, web);
      |o.fetched| <= c.family.pages &&
      (forall i :: 0 <= i < |o.fetched| ==> Ok(o.fetched[i]) == GetUrl(AtPage(c, i + 1))) &&
      (o.result.Ok? ==> |o.fetched| == c.family.pages)
  {
    var n := c.family.pages;
    var steps, us := PageSteps(c, web, n), PageUrls(c, n);
    PageStepsRequest(c, web, n);
    LoopRequests(steps, us, PageChars);
    var p := Loop(steps, PageChars);
    assert ScrapeOutcome(c, web).fetched == p.fetched && ScrapeOutcome(c, web).result == p.result;
    forall i | 0 <= i < |p.fetched|
      ensures Ok(p.fetched[i]) == GetUrl(AtPage(c, i + 1))
    {
      assert us[i] == GetUrl(AtPage(c, i + 1));
    }
  }

  /**
   * ProxyDBScraper never moves its offset: every round requests the same URL,
   * `get_url()` with `offset=0`, and with the default `limit=15` there is one
   * round.
   */
  lemma ProxyDBRepeatsOneUrl(c: Config, web: string -> Option<Response>)
    requires c.family.ProxyDB?
    ensures var o := ScrapeOutcome(c, web);
      |o.fetched| <= Rounds(c.family.limit) &&
      (forall i :: 0 <= i < |o.fetched| ==> Ok(o.fetched[i]) == GetUrl(c)) &&
      (o.result.Ok? ==> |o.fetched| == Rounds(c.family.limit))
    ensures c.family.limit == 15 ==>
      ScrapeOutcome(c, web).fetched == if GetUrl(c).Ok? then [GetUrl(c).value] else []
  {
    var n := Rounds(c.family.limit);
    var steps := RoundSteps(c, web, n);
    var us := seq(n, i requires 0 <= i < n => GetUrl(c));
    VisitRequests(c, web);
    LoopRequests(steps, us, PageChars);
    if c.family.limit == 15 {
      assert n == 1;
      assert steps[..0] == [];
    }
  }

  /** A loop that gains characters returns one-character strings only. */
  lemma LoopCharacters(steps: seq<Step>, t: string)
    requires Loop(steps, PageChars).result.Ok? && t in Loop(steps, PageChars).result.value
    ensures |t| == 1
  {
    LoopGains(steps, PageChars, t);
  }

  /** `list.extend` with a string adds characters: every proxy of a paged or ProxyDB scrape is one character long, never an address. */
  lemma ExtendAddsCharacters(c: Config, web: string -> Option<Response>, t: string)
    requires c.family.Paged? || c.family.ProxyDB?
    requires ScrapeOutcome(c, web).result.Ok? && t in ScrapeOutcome(c, web).result.value
    ensures |t| == 1 && !IsAddress(t)
  {
    var steps := if c.family.Paged? then PageSteps(c, web, c.family.pages) else RoundSteps(c, web, Rounds(c.family.limit));
    assert ScrapeOutcome(c, web).result == Loop(steps, PageChars).result;
    LoopCharacters(steps, t);
    OneCharIsNotAddress(t[0]);
    assert t == [t[0]];
  }

  // ---------------------------------------------------------------------------
  // The paged loop as evidently intended: the addresses of every page
  // ---------------------------------------------------------------------------

  /** The paged `scrape` with each page's addresses found by `findall` instead of its characters listed. */
  function IntendedPaged(c: Config, web: string -> Option<Response>): Progress
    requires c.family.Paged?
  {
    Loop(PageSteps(c, web, c.family.pages), Found)
  }

  /** A loop that gains `findall`'s matches returns the addresses found on the lines of its steps, and only those. */
  lemma LoopFound(steps: seq<Step>, t: string)
    requires Loop(steps, Found).result.Ok?
    ensures t in Loop(steps, Found).result.value <==>
      exists i, x :: 0 <= i < |steps| && steps[i].0.Ok? && x in steps[i].0.value && t in FindAll(x)
    ensures t in Loop(steps, Found).result.value ==> IsAddress(t)
  {
    LoopGains(steps, Found, t);
    if t in Loop(steps, Found).result.value {
      var i :| 0 <= i < |steps| && steps[i].0.Ok? && t in Found(steps[i].0.value);
      var x :| x in steps[i].0.value && t in FindAll(x);
      FindAllTokensAreAddresses(x);
    }
    if exists i, x :: 0 <= i < |steps| && steps[i].0.Ok? && x in steps[i].0.value && t in FindAll(x) {
      var i, x :| 0 <= i < |steps| && steps[i].0.Ok? && x in steps[i].0.value && t in FindAll(x);
      assert t in Found(steps[i].0.value);
    }
  }

  /** The intended loop requests the same pages and fails in the same cases as the loop as written. */
  lemma IntendedPagedRequestsAlike(c: Config, web: string -> Option<Response>)
    requires c.family.Paged?
    ensures IntendedPaged(c, web).fetched == ScrapeOutcome(c, web).fetched
    ensures IntendedPaged(c, web).result.Ok? <==> ScrapeOutcome(c, web).result.Ok?
  {
    LoopGainIrrelevant(PageSteps(c, web, c.family.pages), Found, PageChars);
  }

  /** The intended loop returns exactly the addresses `findall` finds on the pages' lines. */
  lemma IntendedPagedFindsAddresses(c: Config, web: string -> Option<Response>, t: string)
    requires c.family.Paged? && IntendedPaged(c, web).result.Ok?
    ensures t in IntendedPaged(c, web).result.value <==>
      exists p, x :: 1 <= p <= c.family.pages && Visit(AtPage(c, p), web).0.Ok? &&
        x in Visit(AtPage(c, p), web).0.value && t in FindAll(x)
    ensures t in IntendedPaged(c, web).result.value ==> IsAddress(t)
  {
    var steps := PageSteps(c, web, c.family.pages);
    LoopFound(steps, t);
    if t in IntendedPaged(c, web).result.value {
      var i, x :| 0 <= i < |steps| && steps[i].0.Ok? && x in steps[i].0.value && t in FindAll(x);
      PageStepAt(c, web, i + 1);
    }
    if exists p, x :: 1 <= p <= c.family.pages && Visit(AtPage(c, p), web).0.Ok? &&
        x in Visit(AtPage(c, p), web).0.value && t in FindAll(x) {
      var p, x :| 1 <= p <= c.family.pages && Visit(AtPage(c, p), web).0.Ok? &&
        x in Visit(AtPage(c, p), web).0.value && t in FindAll(x);
      PageStepAt(c, web, p);
    }
  }

  lemma PageStepAt(c: Config, web: string -> Option<Response>, p: nat)
    requires c.family.Paged? && 1 <= p <= c.family.pages
    ensures PageSteps(c, web, c.family.pages)[p - 1] == Visit(AtPage(c, p), web)
  {
  }

  /**
   * A page line holding an address: the intended loop returns the address,
   * the loop as written never does.
   */
  lemma PagedLosesAddresses(c: Config, web: string -> Option<Response>, p: nat, x: string, t: string)
    requires c.family.Paged? && 1 <= p <= c.family.pages && ScrapeOutcome(c, web).result.Ok?
    requires Visit(AtPage(c, p), web).0.Ok? && x in Visit(AtPage(c, p), web).0.value && t in FindAll(x)
    ensures IntendedPaged(c, web).result.Ok? && t in IntendedPaged(c, web).result.value
    ensures t !in ScrapeOutcome(c, web).result.value
  {
    IntendedPagedRequestsAlike(c, web);
    IntendedPagedFindsAddresses(c, web, t);
    if t in ScrapeOutcome(c, web).result.value {
      ExtendAddsCharacters(c, web, t);
    }
  }
}
