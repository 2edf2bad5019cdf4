/*
 * The coroutine `scrape` (new.py:868-903): which scrapers a proxy type
 * selects, how their results are gathered, and what is written out.
 *
 * The scrapers run as concurrent tasks over one HTTP client. Each task only
 * touches its own scraper object and appends to the shared list once its
 * `scrape` has returned, and the list is turned into a set at the end, so the
 * model runs the tasks one after the other in list order; the set it returns
 * is the same for every interleaving.
 */
module Driver {
  import opened Wrappers
  import opened Text
  import opened Scrapers

  /** `methods`: the kinds a `-p` value selects. */
  function Methods(choice: string): seq<string> {
    if choice == "all" then ["http", "https", "socks4", "socks5"]
    else if choice == "socks" then [choice, "socks4", "socks5"]
    else [choice]
  }

  /** `s.method in methods`. */
  predicate Selects(choice: string, kind: string) {
    kind in Methods(choice)
  }

  /** `proxy_scrapers` is not empty. */
  predicate AnySelected(cs: seq<Config>, choice: string) {
    exists i :: 0 <= i < |cs| && Selects(choice, cs[i].kind)
  }

  /**
   * One task, `scrape_scraper`: `get_url()` for the progress message, then
   * `scrape`; anything either raises is swallowed.
   */
  function Attempt(c: Config, web: string -> Option<Response>): Outcome {
    match GetUrl(c)
    case Err(e) => Outcome(Err(e), [], c.url)
    case Ok(_) => ScrapeOutcome(c, web)
  }

  /** What one scraper adds to `proxies`: its list if its task did not raise, nothing otherwise. */
  function Contribution(c: Config, choice: string, web: string -> Option<Response>): set<string> {
    if Selects(choice, c.kind) && Attempt(c, web).result.Ok? then Attempt(c, web).result.value else {}
  }

  /**
   * `_url` after the scraper's task, if any: a paged `scrape` leaves it at the
   * last page it requested; no other task moves it.
   */
  function UrlAfter(c: Config, choice: string, web: string -> Option<Response>): (r: string)
    ensures !Selects(choice, c.kind) || GetUrl(c).Err? || !c.family.Paged? ==> r == c.url
  {
    if Selects(choice, c.kind) then Attempt(c, web).url else c.url
  }

  /** `set(proxies)` after the tasks of the selected scrapers among `cs` have run. */
  function Harvested(cs: seq<Config>, choice: string, web: string -> Option<Response>): set<string> {
    if cs == [] then {}
    else Harvested(cs[..|cs| - 1], choice, web) + Contribution(cs[|cs| - 1], choice, web)
  }

  /** The requests the tasks make, task after task. */
  function Requests(cs: seq<Config>, choice: string, web: string -> Option<Response>): seq<string> {
    if cs == [] then []
    else
      var c := cs[|cs| - 1];
      Requests(cs[..|cs| - 1], choice, web) + (if Selects(choice, c.kind) then Attempt(c, web).fetched else [])
  }

  /** What `scrape` ends with: ValueError when no scraper is selected, else the proxies written out. */
  function Harvest(cs: seq<Config>, choice: string, web: string -> Option<Response>): Result<set<string>> {
    if AnySelected(cs, choice) then Ok(Harvested(cs, choice, web)) else Err(ValueError)
  }

  function States(scrapers: seq<Scraper>): seq<Config>
    reads set s | s in scrapers
  {
    seq(|scrapers|, i requires 0 <= i < |scrapers| reads scrapers => scrapers[i].State())
  }

  /** Whether `proxy_scrapers` comes out non-empty. */
  method Selected(scrapers: seq<Scraper>, choice: string) returns (any: bool)
    ensures any <==> AnySelected(States(scrapers), choice)
  {
    ghost var cs := States(scrapers);
    any := false;
    var k := 0;
    while k < |scrapers|
      invariant 0 <= k <= |scrapers|
      invariant any <==> exists i :: 0 <= i < k && Selects(choice, cs[i].kind)
    {
      assert cs[k].kind == scrapers[k].kind;
      any := any || scrapers[k].kind in Methods(choice);
      k := k + 1;
    }
  }

  /**
   * `scrape(method, output, verbose)`: select, run every selected scraper,
   * and return the text written to the output file.
   */
  method Scrape(scrapers: seq<Scraper>, choice: string, web: string -> Option<Response>) returns (r: Result<string>, fetched: seq<string>)
    requires forall i, j :: 0 <= i < j < |scrapers| ==> scrapers[i] != scrapers[j]
    modifies set s | s in scrapers
    ensures r.Err? <==> Harvest(old(States(scrapers)), choice, web).Err?
    ensures r.Err? ==> r.error == ValueError && fetched == []
    ensures r.Ok? ==> JoinsLines(r.value, Harvest(old(States(scrapers)), choice, web).value)
    ensures r.Ok? ==> fetched == Requests(old(States(scrapers)), choice, web)
    ensures forall j :: 0 <= j < |scrapers| ==> scrapers[j].url == UrlAfter(old(States(scrapers))[j], choice, web)
    ensures r.Err? ==> forall j :: 0 <= j < |scrapers| ==> scrapers[j].url == old(scrapers[j].url)
  {
    ghost var cs := States(scrapers);
    var any := Selected(scrapers, choice);
    if !any {
      assert forall j :: 0 <= j < |scrapers| ==> !Selects(choice, cs[j].kind);
      return Err(ValueError), [];
    }
    var proxies;
    proxies, fetched := RunTasks(scrapers, choice, web);
    var text := JoinLines(Elements(proxies));
    r := Ok(text);
  }

  /** The tasks of `scrape`, one scraper after the other: the proxies they add and the requests they make. */
  method RunTasks(scrapers: seq<Scraper>, choice: string, web: string -> Option<Response>) returns (proxies: seq<string>, fetched: seq<string>)
    requires forall i, j :: 0 <= i < j < |scrapers| ==> scrapers[i] != scrapers[j]
    modifies set s | s in scrapers
    ensures Elements(proxies) == Harvested(old(States(scrapers)), choice, web)
    ensures fetched == Requests(old(States(scrapers)), choice, web)
    ensures forall j :: 0 <= j < |scrapers| ==> scrapers[j].url == UrlAfter(old(States(scrapers))[j], choice, web)
  {
    ghost var cs := States(scrapers);
    proxies, fetched := [], [];
    var i := 0;
    assert cs[..0] == [];
    while i < |scrapers|
      invariant 0 <= i <= |scrapers|
      invariant forall j :: i <= j < |scrapers| ==> scrapers[j].State() == cs[j]
      invariant forall j :: 0 <= j < i ==> scrapers[j].url == UrlAfter(cs[j], choice, web)
      invariant Elements(proxies) == Harvested(cs[..i], choice, web)
      invariant fetched == Requests(cs[..i], choice, web)
    {
      HarvestStep(cs, i, choice, web);
      assert forall j :: 0 <= j < |scrapers| && j != i ==> scrapers[j] != scrapers[i];
      var gained, f := RunTask(scrapers[i], choice, web);
      ElementsAppend(proxies, gained);
      proxies := proxies + gained;
      fetched := fetched + f;
      i := i + 1;
    }
    assert cs[..i] == cs;
  }

  /**
   * `scrape_scraper` for one scraper, when its kind is selected: what it adds
   * to `proxies` and the requests it makes.
   */
  method RunTask(s: Scraper, choice: string, web: string -> Option<Response>) returns (gained: seq<string>, fetched: seq<string>)
    modifies s
    ensures Elements(gained) == Contribution(old(s.State()), choice, web)
    ensures fetched == if Selects(choice, old(s.State()).kind) then Attempt(old(s.State()), web).fetched else []
    ensures s.url == UrlAfter(old(s.State()), choice, web)
  {
    ghost var c := s.State();
    AttemptAfterUrl(c, web);
    gained, fetched := [], [];
    if s.kind in Methods(choice) {
      var u := Template.GetUrl(s.url, s.kind, s.args);
      if u.Ok? {
        var res, f := s.Scrape(web);
        fetched := f;
        if res.Ok? {
          gained := res.value;
        }
      }
    }
  }

  lemma HarvestStep(cs: seq<Config>, i: nat, choice: string, web: string -> Option<Response>)
    requires i < |cs|
    ensures Harvested(cs[..i + 1], choice, web) == Harvested(cs[..i], choice, web) + Contribution(cs[i], choice, web)
    ensures Requests(cs[..i + 1], choice, web) ==
      Requests(cs[..i], choice, web) + (if Selects(choice, cs[i].kind) then Attempt(cs[i], web).fetched else [])
  {
    assert cs[..i + 1][..i] == cs[..i];
  }

  /** A task whose `get_url()` succeeds does what `scrape` does; one whose `get_url()` raises requests nothing. */
  lemma AttemptAfterUrl(c: Config, web: string -> Option<Response>)
    ensures GetUrl(c).Ok? ==> Attempt(c, web) == ScrapeOutcome(c, web)
    ensures GetUrl(c).Err? ==> Attempt(c, web).result.Err? && Attempt(c, web).fetched == []
  {
  }

  // ---------------------------------------------------------------------------
  // Properties
  // ---------------------------------------------------------------------------

  /**
   * The proxies written are those of some selected scraper whose task did not
   * raise: the order of the scrapers, and of the tasks, does not matter.
   */
  lemma {:induction false} HarvestedMembers(cs: seq<Config>, choice: string, web: string -> Option<Response>, t: string)
    ensures t in Harvested(cs, choice, web) <==> exists i :: 0 <= i < |cs| && t in Contribution(cs[i], choice, web)
    decreases |cs|
  {
    if cs != [] {
      var init := cs[..|cs| - 1];
      HarvestedMembers(init, choice, web, t);
      if exists i :: 0 <= i < |init| && t in Contribution(init[i], choice, web) {
        var i :| 0 <= i < |init| && t in Contribution(init[i], choice, web);
        assert cs[i] == init[i];
      }
      if exists i :: 0 <= i < |cs| - 1 && t in Contribution(cs[i], choice, web) {
        var i :| 0 <= i < |cs| - 1 && t in Contribution(cs[i], choice, web);
        assert cs[i] == init[i];
      }
    }
  }

  /**
   * A scraper that contributes nothing (not selected, or its task raised)
   * can be removed from the list without changing the proxies written.
   */
  lemma FailureIsolated(cs: seq<Config>, choice: string, web: string -> Option<Response>, k: nat)
    requires k < |cs| && Contribution(cs[k], choice, web) == {}
    ensures Harvested(cs, choice, web) == Harvested(cs[..k] + cs[k + 1..], choice, web)
  {
    var rest := cs[..k] + cs[k + 1..];
    forall t
      ensures t in Harvested(cs, choice, web) <==> t in Harvested(rest, choice, web)
    {
      HarvestedMembers(cs, choice, web, t);
      HarvestedMembers(rest, choice, web, t);
      SameContributors(cs, rest, choice, web, k, t);
    }
  }

  /** `t` comes from some entry of `cs` exactly when it comes from some entry of `cs` without entry `k`. */
  lemma SameContributors(cs: seq<Config>, rest: seq<Config>, choice: string, web: string -> Option<Response>, k: nat, t: string)
    requires k < |cs| && Contribution(cs[k], choice, web) == {} && rest == cs[..k] + cs[k + 1..]
    ensures (exists i :: 0 <= i < |cs| && t in Contribution(cs[i], choice, web)) <==>
      (exists j :: 0 <= j < |rest| && t in Contribution(rest[j], choice, web))
  {
    if exists i :: 0 <= i < |cs| && t in Contribution(cs[i], choice, web) {
      var i :| 0 <= i < |cs| && t in Contribution(cs[i], choice, web);
      assert i != k;
      var j := if i < k then i else i - 1;
      RestIndex(cs, k, j);
      assert (if j < k then j else j + 1) == i;
      assert rest[j] == cs[i];
    }
    if exists j :: 0 <= j < |rest| && t in Contribution(rest[j], choice, web) {
      var j :| 0 <= j < |rest| && t in Contribution(rest[j], choice, web);
      RestIndex(cs, k, j);
    }
  }

  /** Where an element of the list without its `k`-th entry comes from. */
  lemma RestIndex<T>(cs: seq<T>, k: nat, j: nat)
    requires k < |cs| && j < |cs| - 1
    ensures (cs[..k] + cs[k + 1..])[j] == cs[if j < k then j else j + 1]
  {
    if j < k {
      assert (cs[..k] + cs[k + 1..])[j] == cs[..k][j];
    } else {
      assert (cs[..k] + cs[k + 1..])[j] == cs[k + 1..][j - k];
    }
  }

  /**
   * "all" selects http, https, socks4 and socks5 but not the scrapers tagged
   * "socks"; "socks" selects socks, socks4 and socks5; any other value selects
   * exactly the scrapers of that kind.
   */
  lemma Resolution(choice: string, kind: string)
    ensures Selects("all", kind) <==> kind in {"http", "https", "socks4", "socks5"}
    ensures Selects("socks", kind) <==> kind in {"socks", "socks4", "socks5"}
    ensures choice != "all" && choice != "socks" ==> (Selects(choice, kind) <==> kind == choice)
  {
  }

  /** A kind no scraper has is refused with ValueError before any request is made. */
  lemma UnknownKindRefused(cs: seq<Config>, choice: string, web: string -> Option<Response>)
    requires choice != "all" && choice != "socks"
    requires forall i :: 0 <= i < |cs| ==> cs[i].kind != choice
    ensures Harvest(cs, choice, web) == Err(ValueError)
  {
  }

  /** A proxy string that came out of `findall` has no newline in it. */
  lemma AddressHasNoNewline(t: string)
    requires Address.IsAddress(t)
    ensures '\n' !in t
  {
    if '\n' in t {
      var k :| 0 <= k < |t| && t[k] == '\n';
      assert Address.Run(t, 0, k + 1) == Address.Step(Address.Run(t, 0, k), '\n');
      Address.DeadFrom(t, 0, k + 1);
    }
  }

  /**
   * The output file lists every proxy on a line of its own when none of them
   * holds a newline: splitting its text at newlines gives each proxy once.
   */
  lemma OutputLines(text: string, proxies: set<string>)
    requires JoinsLines(text, proxies) && proxies != {}
    requires forall t :: t in proxies ==> '\n' !in t
    ensures |Split(text, "\n")| == |proxies|
    ensures forall t :: t in Split(text, "\n") <==> t in proxies
  {
    var xs :| IsListing(xs, proxies) && text == Join(xs, "\n");
    SplitJoin(xs, '\n');
  }
}
