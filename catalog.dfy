/*
 * The list `scrapers` (new.py:742-862): every scraper the program runs, as
 * its class, the proxy kind it is tagged with, how it scrapes and the extra
 * keyword arguments its `get_url` passes to the URL template.
 *
 * The URLs themselves are not part of this model: every entry gets an empty
 * URL template and empty page URLs. Where a class is defined twice
 * (SocksProxyNetScraper at new.py:410 and new.py:705, Gitrecon1455GitHubScraper
 * at new.py:200 and new.py:326) the later definition, the one Python binds,
 * is the one listed.
 */
module Catalog {
  import opened Wrappers
  import opened Scrapers
  import opened Driver

  /** One element of `scrapers`. */
  datatype Entry = Entry(name: string, kind: string, family: Family, args: map<string, string>)

  /** `ProxyScrapeScraper`'s defaults: `timeout=1000`, `country="All"`. */
  const ProxyScrapeArgs: map<string, string> := map["timeout" := "1000", "country" := "All"]

  /** `GeoNodeScraper`'s defaults. */
  const GeoNodeArgs: map<string, string> :=
    map["limit" := "500", "page" := "1", "sort_by" := "lastChecked", "sort_type" := "desc"]

  /** `ProxyDBScraper.get_url`'s `offset=0`. */
  const ProxyDBArgs: map<string, string> := map["offset" := "0"]

  /** Plain-text and JSON feeds (new.py:743-752). */
  const FeedScrapers: seq<Entry> := [
    Entry("SpysMe", "http", Single(Whole), map[]),
    Entry("SpysMe", "socks", Single(Whole), map[]),
    Entry("ProxyScrape", "http", Single(Whole), ProxyScrapeArgs),
    Entry("ProxyScrape", "socks4", Single(Whole), ProxyScrapeArgs),
    Entry("ProxyScrape", "socks5", Single(Whole), ProxyScrapeArgs),
    Entry("GeoNode", "socks", Single(Whole), GeoNodeArgs),
    Entry("ProxyListDownload", "https", Single(Whole), map["anon" := "elite"]),
    Entry("ProxyListDownload", "http", Single(Whole), map["anon" := "elite"]),
    Entry("ProxyListDownload", "http", Single(Whole), map["anon" := "transparent"]),
    Entry("ProxyListDownload", "http", Single(Whole), map["anon" := "anonymous"])
  ]

  /** The general table, div, GitHub and ProxyDB scrapers (new.py:753-769). */
  const GeneralScrapers: seq<Entry> := [
    Entry("GeneralTable", "https", Single(StripedTable), map[]),
    Entry("GeneralTable", "http", Single(StripedTable), map[]),
    Entry("GeneralTable", "http", Single(StripedTable), map[]),
    Entry("GeneralTable", "socks", Single(StripedTable), map[]),
    Entry("GeneralDiv", "http", Single(ListDiv), map[]),
    Entry("GitHub", "http", Single(Tagged), map[]),
    Entry("GitHub", "socks4", Single(Tagged), map[]),
    Entry("GitHub", "socks5", Single(Tagged), map[]),
    Entry("GitHub", "http", Single(Tagged), map[]),
    Entry("GitHub", "socks", Single(Tagged), map[]),
    Entry("GitHub", "https", Single(Tagged), map[]),
    Entry("GitHub", "http", Single(Tagged), map[]),
    Entry("GitHub", "socks4", Single(Tagged), map[]),
    Entry("GitHub", "socks5", Single(Tagged), map[]),
    Entry("ProxyDB", "http", ProxyDB(15), ProxyDBArgs),
    Entry("ProxyDB", "socks4", ProxyDB(15), ProxyDBArgs),
    Entry("ProxyDB", "socks5", ProxyDB(15), ProxyDBArgs)
  ]

  /** The fixed GitHub lists (new.py:770-796). */
  const GitHubListScrapers: seq<Entry> := [
    Entry("Sunny9577GitHub", "http", Single(Whole), map[]),
    Entry("MonosansGitHub", "http", Single(Whole), map[]),
    Entry("TheSpeedXGitHub", "http", Single(Whole), map[]),
    Entry("TheSpeedXSocks4GitHub", "socks4", Single(Whole), map[]),
    Entry("TheSpeedXSocks5GitHub", "socks5", Single(Whole), map[]),
    Entry("Gitrecon1455GitHub", "http", Single(Whole), map[]),
    Entry("ZebbernGitHub", "http", Single(Whole), map[]),
    Entry("IslokaHttpGitHub", "http", Single(Whole), map[]),
    Entry("IslokaSocksGitHub", "socks", Single(Whole), map[]),
    Entry("ProxyScraperHttpGitHub", "http", Single(Whole), map[]),
    Entry("ProxyScraperSocks4GitHub", "socks4", Single(Whole), map[]),
    Entry("ProxyScraperSocks5GitHub", "socks5", Single(Whole), map[]),
    Entry("LalifeierHttpsGitHub", "https", Single(Whole), map[]),
    Entry("LalifeierSocks4GitHub", "socks4", Single(Whole), map[]),
    Entry("GingteamGitHub", "http", Single(Whole), map[]),
    Entry("CNMengHanGitHub", "http", Single(Whole), map[]),
    Entry("R00teeSocks4GitHub", "socks4", Single(Whole), map[]),
    Entry("R00teeSocks5GitHub", "socks5", Single(Whole), map[]),
    Entry("R00teeHttpsGitHub", "https", Single(Whole), map[]),
    Entry("HookzofSocks5GitHub", "socks5", Single(Whole), map[]),
    Entry("ErcinDedeogluSocks5GitHub", "socks5", Single(Whole), map[]),
    Entry("ErcinDedeogluSocks4GitHub", "socks4", Single(Whole), map[]),
    Entry("SevenworksDevSocks5GitHub", "socks5", Single(Whole), map[]),
    Entry("TuanMinPayGitHub", "http", Single(Whole), map[]),
    Entry("RoosterkidSocks5GitHub", "socks5", Single(Whole), map[]),
    Entry("RoosterkidSocks4GitHub", "socks4", Single(Whole), map[]),
    Entry("Gitrecon1455GitHub", "http", Single(Whole), map[])
  ]

  /** The single-page table sites (new.py:797-819). */
  const TableSiteScrapers: seq<Entry> := [
    Entry("ProxySpider", "http", Single(FirstCell), map[]),
    Entry("ProxySpider", "http", Single(FirstCell), map[]),
    Entry("ProxySpider", "http", Single(FirstCell), map[]),
    Entry("ProxySpider", "http", Single(FirstCell), map[]),
    Entry("ProxySpider", "http", Single(FirstCell), map[]),
    Entry("ProxySpider", "http", Single(FirstCell), map[]),
    Entry("ProxySpider", "http", Single(FirstCell), map[]),
    Entry("ProxySpider", "http", Single(FirstCell), map[]),
    Entry("ProxySpider", "http", Single(FirstCell), map[]),
    Entry("AdvancedName", "http", Paged(FirstCell, 5), map[]),
    Entry("AdvancedName", "https", Paged(FirstCell, 5), map[]),
    Entry("AdvancedName", "socks4", Paged(FirstCell, 5), map[]),
    Entry("AdvancedName", "socks5", Paged(FirstCell, 5), map[]),
    Entry("PremiumProxy", "http", Single(FirstCell), map[]),
    Entry("PremiumProxy", "https", Single(FirstCell), map[]),
    Entry("PremiumProxy", "socks4", Single(FirstCell), map[]),
    Entry("PremiumProxy", "socks5", Single(FirstCell), map[]),
    Entry("FreeProxyListWebProxy", "http", Single(FirstCell), map[]),
    Entry("FreeProxyListWebProxy", "https", Single(FirstCell), map[]),
    Entry("FreeProxyListWebProxy", "socks4", Single(FirstCell), map[]),
    Entry("FreeProxyListWebProxy", "socks5", Single(FirstCell), map[]),
    Entry("SocksProxyNet", "socks", Single(IpPort), map[]),
    Entry("SSLProxies", "https", Single(FirstCell), map[])
  ]

  /** The sites read page by page, and HasData (new.py:820-851). */
  const PagedSiteScrapers: seq<Entry> := [
    Entry("PremProxy", "http", Paged(FirstCell, 7), map[]),
    Entry("PremProxy", "https", Paged(FirstCell, 7), map[]),
    Entry("PremProxy", "socks4", Paged(FirstCell, 7), map[]),
    Entry("PremProxy", "socks5", Paged(FirstCell, 7), map[]),
    Entry("PlainProxies", "http", Paged(FirstCell, 5), map[]),
    Entry("PlainProxies", "https", Paged(FirstCell, 5), map[]),
    Entry("PlainProxies", "socks4", Paged(FirstCell, 5), map[]),
    Entry("PlainProxies", "socks5", Paged(FirstCell, 5), map[]),
    Entry("ProxyListOrg", "http", Paged(FirstCell, 10), map[]),
    Entry("ProxyListOrg", "https", Paged(FirstCell, 10), map[]),
    Entry("ProxyListOrg", "socks4", Paged(FirstCell, 10), map[]),
    Entry("ProxyListOrg", "socks5", Paged(FirstCell, 10), map[]),
    Entry("HasData", "http", Single(FirstCell), map[]),
    Entry("HasData", "https", Single(FirstCell), map[]),
    Entry("HasData", "socks4", Single(FirstCell), map[]),
    Entry("HasData", "socks5", Single(FirstCell), map[]),
    Entry("ProxyBros", "http", Paged(FirstCell, 30), map[]),
    Entry("ProxyBros", "https", Paged(FirstCell, 30), map[]),
    Entry("ProxyBros", "socks4", Paged(FirstCell, 30), map[]),
    Entry("ProxyBros", "socks5", Paged(FirstCell, 30), map[]),
    Entry("FreeProxyWorld", "http", Paged(IpPort, 139), map[]),
    Entry("FreeProxyWorld", "https", Paged(IpPort, 139), map[]),
    Entry("FreeProxyWorld", "socks4", Paged(IpPort, 139), map[]),
    Entry("FreeProxyWorld", "socks5", Paged(IpPort, 139), map[]),
    Entry("IPRoyal", "http", Paged(IpPort, 60), map[]),
    Entry("IPRoyal", "https", Paged(IpPort, 60), map[]),
    Entry("IPRoyal", "socks4", Paged(IpPort, 60), map[]),
    Entry("IPRoyal", "socks5", Paged(IpPort, 60), map[]),
    Entry("HideMyName", "http", Paged(IpPort, 5), map[]),
    Entry("HideMyName", "https", Paged(IpPort, 5), map[]),
    Entry("HideMyName", "socks4", Paged(IpPort, 5), map[]),
    Entry("HideMyName", "socks5", Paged(IpPort, 5), map[])
  ]

  /** The remaining sites (new.py:852-861). */
  const LateScrapers: seq<Entry> := [
    Entry("GeoNodeProxyList", "http", Single(Whole), GeoNodeArgs),
    Entry("GeoNodeProxyList", "https", Single(Whole), GeoNodeArgs),
    Entry("GeoNodeProxyList", "socks4", Single(Whole), GeoNodeArgs),
    Entry("GeoNodeProxyList", "socks5", Single(Whole), GeoNodeArgs),
    Entry("FreeProxyListNet", "http", Single(IpPort), map[]),
    Entry("FreeProxyListNet", "https", Single(IpPort), map[]),
    Entry("USProxyOrg", "http", Single(IpPort), map[]),
    Entry("USProxyOrg", "https", Single(IpPort), map[]),
    Entry("SocksProxyNet", "socks", Single(IpPort), map[]),
    Entry("SSLProxiesOrg", "https", Single(IpPort), map[])
  ]

  /** `scrapers`, in list order. */
  const Entries: seq<Entry> :=
    FeedScrapers + GeneralScrapers + GitHubListScrapers + TableSiteScrapers + PagedSiteScrapers + LateScrapers

  /** The scraper objects' starting state, with the URLs left out. */
  function ConfigOf(e: Entry): Config {
    Config(e.kind, e.family, "", e.args, _ => "")
  }

  function Configs(): seq<Config> {
    seq(|Entries|, i requires 0 <= i < |Entries| => ConfigOf(Entries[i]))
  }

  /** The kinds the scrapers are tagged with, as listed in the `--proxy` help text. */
  const Kinds: set<string> := {"http", "https", "socks", "socks4", "socks5"}

  /** The `--proxy` values that select at least one scraper. */
  const Choices: set<string> := Kinds + {"all"}

  /**
   * What holds of every scraper in the list: a kind from the help text, no
   * extra argument named `method` (so `get_url` never passes it twice), and
   * the loop bounds its class fixes.
   */
  predicate WellFormed(e: Entry) {
    && e.kind in Kinds
    && "method" !in e.args
    && (e.family.Paged? ==> e.family.pages >= 5)
    && (e.family.ProxyDB? ==> e.family.limit == 15)
  }

  predicate AllWellFormed(es: seq<Entry>) {
    forall i :: 0 <= i < |es| ==> WellFormed(es[i])
  }

  lemma AllWellFormedAppend(a: seq<Entry>, b: seq<Entry>)
    requires AllWellFormed(a) && AllWellFormed(b)
    ensures AllWellFormed(a + b)
  {
    forall i | 0 <= i < |a + b|
      ensures WellFormed((a + b)[i])
    {
      if i < |a| {
        assert (a + b)[i] == a[i];
      } else {
        assert (a + b)[i] == b[i - |a|];
      }
    }
  }

  lemma FeedScrapersWellFormed()
    ensures AllWellFormed(FeedScrapers)
  {
  }

  lemma GeneralScrapersWellFormed()
    ensures AllWellFormed(GeneralScrapers)
  {
  }

  lemma GitHubListScrapersWellFormed()
    ensures AllWellFormed(GitHubListScrapers)
  {
  }

  lemma TableSiteScrapersWellFormed()
    ensures AllWellFormed(TableSiteScrapers)
  {
  }

  lemma PagedSiteScrapersWellFormed()
    ensures AllWellFormed(PagedSiteScrapers)
  {
  }

  lemma LateScrapersWellFormed()
    ensures AllWellFormed(LateScrapers)
  {
  }

  // ---------------------------------------------------------------------------
  // Properties
  // ---------------------------------------------------------------------------

  /** The list holds 119 scrapers, every one of them well formed. */
  lemma CatalogWellFormed()
    ensures |Entries| == 119
    ensures AllWellFormed(Entries)
  {
    FeedScrapersWellFormed();
    GeneralScrapersWellFormed();
    GitHubListScrapersWellFormed();
    TableSiteScrapersWellFormed();
    PagedSiteScrapersWellFormed();
    LateScrapersWellFormed();
    AllWellFormedAppend(FeedScrapers, GeneralScrapers);
    AllWellFormedAppend(FeedScrapers + GeneralScrapers, GitHubListScrapers);
    AllWellFormedAppend(FeedScrapers + GeneralScrapers + GitHubListScrapers, TableSiteScrapers);
    AllWellFormedAppend(FeedScrapers + GeneralScrapers + GitHubListScrapers + TableSiteScrapers, PagedSiteScrapers);
    AllWellFormedAppend(FeedScrapers + GeneralScrapers + GitHubListScrapers + TableSiteScrapers + PagedSiteScrapers, LateScrapers);
  }

  /** The kinds the scrapers carry are exactly the five the `--proxy` help text lists. */
  lemma KindsOfCatalog()
    ensures (set i | 0 <= i < |Entries| :: Entries[i].kind) == Kinds
  {
    CatalogWellFormed();
    assert Entries[0].kind == "http" && Entries[1].kind == "socks" && Entries[3].kind == "socks4";
    assert Entries[4].kind == "socks5" && Entries[6].kind == "https";
  }

  /**
   * `scrape` raises ValueError exactly for a `--proxy` value other than
   * "all" and the five kinds.
   */
  lemma ChoiceAccepted(choice: string, web: string -> Option<Response>)
    ensures Harvest(Configs(), choice, web).Err? <==> choice !in Choices
  {
    var cs := Configs();
    CatalogWellFormed();
    KindsOfCatalog();
    if choice in Choices {
      var k := if choice == "all" then "http" else choice;
      assert k in (set i | 0 <= i < |Entries| :: Entries[i].kind);
      var i :| 0 <= i < |Entries| && Entries[i].kind == k;
      assert cs[i].kind == k && Selects(choice, cs[i].kind);
    } else {
      forall i | 0 <= i < |cs|
        ensures cs[i].kind != choice
      {
        assert WellFormed(Entries[i]);
      }
      UnknownKindRefused(cs, choice, web);
    }
  }

  /** Every ProxyDB scraper in the list fetches its page once: `range(0, 15, 15)` has one element. */
  lemma ProxyDBFetchesOnce(i: nat, web: string -> Option<Response>)
    requires i < |Entries| && Entries[i].family.ProxyDB?
    ensures |ScrapeOutcome(Configs()[i], web).fetched| <= 1
  {
    CatalogWellFormed();
    assert WellFormed(Entries[i]);
    ProxyDBRepeatsOneUrl(Configs()[i], web);
  }
}
