# Proxy harvester model

A Dafny model of the one-file proxy-list harvester `new.py`. Given a proxy
type on the command line, the harvester runs every scraper in its list that
is tagged with a matching kind. Each scraper fetches one or more pages and
turns them into proxy strings. The results of the scrapers that did not fail
are merged into a set, and the set is written to a file, one proxy per line.

The model covers the deterministic pipeline under the network and HTML
plumbing:

- `text.dfy` (module `Text`): the Python string operations the harvester
  relies on: `in`, `split`, `join`, `strip`, `rstrip(":")`, `replace`, and
  the character view that `list.extend` takes of a string.
- `address.dfy` (module `Address`): `re.findall` with the address pattern
  `\d{1,3}(?:\.\d{1,3}){3}(?::\d{1,5})?`. The scanner follows the pattern's
  structure; `\d` is any Unicode decimal digit (general category Nd), as in
  a Python 3 `str` pattern. It is proved to return the leftmost-longest, non-overlapping
  matches of an independent automaton for the same language. For this
  pattern that is what Python's backtracking engine returns, because every
  quantifier is greedy and everything after the fourth octet is optional.
- `separation.dfy` (module `Separation`): `findall` over lines joined by
  `"\n"` finds exactly what it finds in each line, because a newline can
  never be part of a match.
- `template.dfy` (module `Template`): `Scraper.get_url`, i.e. `str.format`
  with keyword arguments only, including its `ValueError`, `KeyError`,
  `IndexError` and `TypeError` cases.
- `rows.dfy` (module `Rows`): the `handle` loops. The general table, the
  general div grid, the first-cell tables, the ip:port tables and the GitHub
  tagged-line filter each become a method over a table of cell texts. Each
  method is proved equal to a set-valued specification function.
- `scrapers.dfy` (module `Scrapers`): the class `Scraper` with its three
  `scrape` shapes:
  - the inherited one: one request, `handle`, `findall`;
  - the paged overrides, which overwrite `_url` page by page and
    `list.extend` with the handled text;
  - ProxyDB's rounds.

  Each method is proved to agree with a specification function
  `ScrapeOutcome`.
- `driver.dfy` (module `Driver`): the coroutine `scrape`. It resolves the
  `--proxy` value into kinds, selects scrapers, runs their tasks with failure
  isolation, deduplicates, and joins the output.
- `catalog.dfy` (module `Catalog`): the list `scrapers` as data, i.e. each
  entry's class, kind, scrape shape and extra `get_url` arguments.

The web is a parameter: a function from URL to a response, or `None` when
the request itself fails. A response carries its text and the three views
of its parsed HTML that the `handle` overrides look up. Each view is a table
of cell texts, or nothing when `soup.find` finds nothing. Python's set
iteration order, which decides how `"\n".join(proxies)` lays out its lines,
is left open: `Scrapers.Enumerate` picks any order, and every contract holds
for all of them.

## Model

| member | source | states |
|---|---|---|
| Text.ContainsIffOccurs | new.py:136 | `sub in s` holds exactly when `sub` occurs in `s` at some index |
| Text.JoinSplit | new.py:133 | joining the pieces of `split(sep)` with `sep` gives the text back |
| Text.SplitPiecesAvoidSeparator | new.py:133 | no piece of `split(sep)` contains the separator |
| Text.SplitWithoutSeparator | new.py:137 | a text without the separator splits into itself alone |
| Text.AfterLastIsSeparatorFreeSuffix | new.py:137 | `split("//")[-1]` is a suffix of the line with no `//` in it, and is the whole line when there is none |
| Text.StripLeft | new.py:158 | the result is a suffix of the input, everything dropped is white space, and it does not start with white space |
| Text.StripRightWhere | new.py:125 | the result is a prefix of the input, everything dropped satisfies the predicate, and its last character does not |
| Text.Strip | new.py:158 | `strip()` is a contiguous piece of its input with only white space before and after it, and it neither starts nor ends with white space |
| Text.StripTrimmed | new.py:158 | `strip()` leaves a trimmed text unchanged |
| Text.StripColons | new.py:125 | `rstrip(":")` is a prefix of its input, everything it drops is a colon, and it never ends with a colon |
| Text.StripColonsAppend | new.py:125 | a colon appended before `rstrip(":")` makes no difference |
| Text.StripColonsNone | new.py:125 | a text not ending in a colon is unchanged by `rstrip(":")` |
| Text.RemoveAllIsJoinOfSplit | new.py:102-105 | `replace(pat, "")` is `"".join(s.split(pat))` |
| Text.RemoveAllUnchangedIff | new.py:102-105 | `replace(pat, "")` leaves the text unchanged exactly when `pat` does not occur in it |
| Text.RemoveAllShrinks | new.py:102-105 | `replace(pat, "")` never lengthens the text |
| Text.ConcatExplode | new.py:372 | `list.extend` with a string adds one-character strings that concatenate back to the string, which fixes what it adds |
| Text.SplitJoin | new.py:899-900 | splitting at a separator that no part contains recovers the parts of a join |
| Text.CharsOfJoin | new.py:372 | a character of a `"\n"`-joined text comes from a part, or is the newline between at least two parts |
| Address.DigitRunIsMaximal | new.py:30 | the digit run read at a position is all digits and is not followed by a digit |
| Address.MatchAtIsLongest | new.py:30-31 | the scanner's match at a position is the longest match of the pattern there; no match means none of any length |
| Address.SpansAreLeftmostLongest | new.py:30-31 | the spans `findall` reports are longest matches, separated by stretches where no match starts, with none after the last |
| Address.TokensAreSpanTexts | new.py:31 | `findall` returns the text of each span, in order |
| Address.FindAllTokensAreAddresses | new.py:30-31 | every string `findall` returns matches the pattern as a whole |
| Address.FindAllEmptyIff | new.py:30-31 | `findall` returns `[]` exactly when no match starts anywhere in the text |
| Address.DottedQuadIsAddress | new.py:30 | any four 1-3 digit groups, with an optional 1-5 digit port, match; no range is checked |
| Address.FindAllOfAddress | new.py:30-31 | a text that matches as a whole is returned whole and alone |
| Address.DottedQuadFoundWhole | new.py:30-31 | `999.999.999.999:99999` and every other dotted quad is found whole |
| Address.FullwidthQuadFound | new.py:30 | `\d` matches any Unicode decimal digit: a dotted quad in fullwidth digits is found whole |
| Address.ArabicIndicDigitExtends | new.py:30 | an Arabic-Indic digit after `1.2.3.4` is part of the last group |
| Address.TrailingColonLeftOver | new.py:30-31 | a `:` not followed by digits is not consumed |
| Address.OneCharIsNotAddress | new.py:30 | no single character matches the pattern |
| Separation.FindAllSplitsAtStop | new.py:30-31 | a character that can be in no match splits `findall` into the two sides' results |
| Separation.FindAllOfJoin | new.py:30-31 | `findall` of a join is the concatenation of the parts' results |
| Separation.InFindAllEach | new.py:30-31 | a string is among the parts' results exactly when some part yields it |
| Separation.FoundInJoinedLines | new.py:29-31 | `findall` over `"\n".join(lines)` finds exactly what it finds in some line |
| Template.CloseAt | new.py:19 | the position found is the first `}` at or after the start, or there is none |
| Template.FormatEscape | new.py:19 | formatting literal text with doubled braces gives the text back, whatever the arguments |
| Template.FormatNoBraces | new.py:19 | a URL without braces comes back unchanged |
| Template.FormatField | new.py:19 | `{name}` is replaced by its keyword argument, or raises KeyError when there is none |
| Template.FormatPositional | new.py:19 | `{}` or `{0}` raises IndexError, since no positional argument is passed |
| Template.FormatLoneClose | new.py:19 | a single `}` raises ValueError |
| Template.FormatUnclosed | new.py:19 | an unclosed `{` raises ValueError |
| Template.NonAsciiIndexIsPositional | new.py:18-19 | a field named by a non-ASCII decimal digit, such as `{٠}`, is positional too and raises IndexError |
| Template.GetUrlFillsMethod | new.py:18-19 | `get_url` puts the scraper's kind where the template says `{method}` |
| Rows.GeneralTableRows | new.py:97-106 | the row loop collects exactly one `cell0:cell1` token, `&nbsp;` removed, per row with at least two cells |
| Rows.TableIgnoresExtraCells | new.py:100-104 | cells after the second do not change the tokens |
| Rows.TablePairSplits | new.py:101-104 | a table token splits back at `:` into its two cleaned cells |
| Rows.TableCellKeepsPlainText | new.py:102-105 | cleaning leaves a cell unchanged exactly when it holds no `&nbsp;` |
| Rows.GeneralDivRows | new.py:117-126 | the row loop collects, for every row, its first two cells joined by `:` with trailing colons stripped |
| Rows.DivTokenOfTwoCells | new.py:120-125 | two cells give `cell0:cell1`, which splits back into them |
| Rows.DivTokenOfOneCell | new.py:120-125 | one cell gives the cell with trailing colons stripped |
| Rows.FirstCellRows | new.py:154-160 | the row loop collects the stripped first cell of every row that has a cell |
| Rows.FirstCellTokensTrimmed | new.py:158 | every first-cell token is already stripped |
| Rows.FirstCellKeepsTrimmedCell | new.py:156-159 | an already stripped first cell is collected as it is |
| Rows.IpPortRows | new.py:575-581 | IndexError exactly when some row has a single cell; otherwise the `ip:port` token of every row with two or more cells |
| Rows.IpPortSplits | new.py:578-580 | an `ip:port` token splits back into its stripped cells |
| Rows.EmptyRowsAreSkipped | new.py:576-577 | a row without cells changes neither the tokens nor the error |
| Rows.TaggedLines | new.py:133-139 | the line loop collects what follows the last `//` of every line that contains the kind |
| Rows.TaggedTokenOrigin | new.py:135-137 | every GitHub token is a `//`-free suffix of a line containing the kind |
| Rows.TaggedKeepsPlainLine | new.py:135-137 | a line with the kind and no `//` is collected whole |
| Rows.TaggedWidensToPrefixes | new.py:136 | a shorter kind keeps every line a longer one keeps |
| Rows.HttpKeepsHttpsLines | new.py:136 | "http" keeps every "https" line, and "socks" every "socks4" and "socks5" line |
| Scrapers.Enumerate | new.py:107 | lists each member of a set exactly once |
| Scrapers.JoinLines | new.py:107 | `"\n".join(proxies)` joins a listing of the set |
| Scrapers.FoundInListing | new.py:29-31 | `findall` over the joined lines finds exactly the addresses of the individual lines |
| Scrapers.ExplodedListing | new.py:372 | the characters `extend` adds for the joined lines are those of the lines, plus the newline when there are two or more lines |
| Scrapers.ElementsAppend | new.py:887 | the members of an extended list are those of both parts |
| Scrapers.Scraper.constructor | new.py:14-16 | a new scraper holds its kind, URL template and keyword values |
| Scrapers.Scraper.GetResponse | new.py:21-22 | requests the formatted URL once, or nothing when `get_url` raises |
| Scrapers.Scraper.Handle | new.py:24-25 | `handle` returns the collected lines joined, or raises what its table lookup raises |
| Scrapers.Scraper.Fetch | new.py:27-29 | one request and `handle`, as the specification of one step says |
| Scrapers.Scraper.ScrapeSingle | new.py:27-31 | the inherited `scrape` returns the addresses `findall` finds in the handled text |
| Scrapers.Scraper.ScrapePaged | new.py:367-373 | the paged loop requests pages in order, stops at the first that raises, and ends with `_url` on the last page it reached |
| Scrapers.Scraper.ScrapeProxyDB | new.py:162-167 | ProxyDB's rounds, each through the unchanged `get_url()` |
| Scrapers.Scraper.Scrape | new.py:27-31 | the scraper's `scrape`, whichever shape its class has, agrees with `ScrapeOutcome` |
| Scrapers.LoopSnoc | new.py:367-373 | one more page leaves a failed loop alone, or records the page's error, or adds its gain |
| Scrapers.LoopStops | new.py:367-373 | nothing after the first page that raises is requested |
| Scrapers.LoopTakes | new.py:367-373 | the loop requests the URLs of the pages it reached, in order; it succeeds exactly when every page did, and otherwise fails with the error of the last page it reached |
| Scrapers.LoopGains | new.py:367-373 | a successful loop's proxies are exactly the gains of its pages |
| Scrapers.LoopGainIrrelevant | new.py:367-373 | what a page adds does not change which requests are made or whether the loop fails |
| Scrapers.SingleFindsOnlyAddresses | new.py:27-31 | every proxy of an inherited `scrape` matches the pattern and comes from one handled line |
| Scrapers.LoopRequests | new.py:367-373 | the loop's requests are a prefix of the page URLs, all of them when it succeeds |
| Scrapers.PagesInOrder | new.py:369-371 | page `i` is requested `i`-th, pages 1 to the class's bound, all of them unless one raises |
| Scrapers.ProxyDBRepeatsOneUrl | new.py:162-167 | every round requests the same URL, `range(0, limit, 15)` rounds in all, so one request for the default limit of 15 |
| Scrapers.LoopCharacters | new.py:372 | everything a character-extending loop collects is one character long |
| Scrapers.ExtendAddsCharacters | new.py:372 | a paged or ProxyDB scraper returns only one-character strings, none of them an address |
| Scrapers.LoopFound | new.py:367-373 | a loop that keeps `findall`'s results collects exactly the addresses of its pages |
| Scrapers.IntendedPagedRequestsAlike | new.py:367-373 | the corrected paged scrape makes the same requests and fails in the same cases |
| Scrapers.IntendedPagedFindsAddresses | new.py:367-373 | the corrected paged scrape returns exactly the addresses in the lines of pages 1 to the bound |
| Scrapers.PagedLosesAddresses | new.py:367-373 | an address on any page is kept by the corrected scrape and missed by the one as written |
| Driver.Selected | new.py:875-877 | decides whether the comprehension selects any scraper |
| Driver.RunTask | new.py:884-889 | one task adds its scraper's proxies, or nothing when `get_url` or `scrape` raises; afterwards the scraper's `_url` is where its `scrape` left it, and unchanged when the task was not run or `get_url` raised |
| Driver.Scrape | new.py:868-900 | ValueError when nothing is selected, and then no scraper's `_url` changes; otherwise the output joins the union of the selected tasks' proxies, the requests are those of the tasks in list order, and each scraper's `_url` is the one its own task left |
| Driver.RunTasks | new.py:891-897 | the tasks together add the union of the selected scrapers' proxies, make their requests in list order, and leave each scraper's `_url` as its own task left it |
| Driver.UrlAfter | new.py:367-373 | only a selected paged scraper whose `get_url` succeeds can end with a `_url` other than the one it started with |
| Driver.HarvestStep | new.py:887 | each task adds its contribution to the merged proxies and its requests to the log |
| Driver.HarvestedMembers | new.py:887-897 | a proxy is written exactly when some selected, non-failing scraper returned it; the order of tasks does not matter |
| Driver.FailureIsolated | new.py:884-889 | removing a scraper that contributes nothing leaves the output unchanged |
| Driver.Resolution | new.py:870-874 | "all" is http, https, socks4 and socks5 (not "socks"); "socks" adds socks4 and socks5; any other value stands for itself |
| Driver.UnknownKindRefused | new.py:875-877 | a value no scraper's kind matches raises ValueError |
| Driver.AddressHasNoNewline | new.py:899-900 | no address contains a newline |
| Driver.OutputLines | new.py:899-900 | provided no proxy holds a newline, splitting the written text at newlines gives each proxy once. The paged and ProxyDB scrapers as written break that premise: they contribute the one-character string "\n" for every page with two or more lines (`Scrapers.ExplodedListing`) |
| Catalog.CatalogWellFormed | new.py:742-862 | 119 scrapers, each with a known kind, no argument named `method`, at least 5 pages when paged and ProxyDB's limit of 15 |
| Catalog.KindsOfCatalog | new.py:909 | the kinds in the list are exactly the five the `--proxy` help text lists |
| Catalog.ChoiceAccepted | new.py:870-877 | `scrape` raises ValueError exactly for a value other than "all" and the five kinds |
| Catalog.ProxyDBFetchesOnce | new.py:162-167 | every ProxyDB scraper in the list makes at most one request |

## Left out

- Network I/O: the httpx client, redirects, `aclose` and the GETs themselves. The web is a parameter, and a failed request is `RequestError`.
- Concurrency: asyncio tasks and `gather`. The tasks run one after the other in list order. Each task touches only its own scraper and adds to the shared list only after its `scrape` returns, and the list becomes a set, so the written set is the same for every interleaving.
- HTML parsing: BeautifulSoup, `find` and `findAll`. Each response carries the three lookups the `handle` overrides make, as tables of cell texts that are already `.text`. HTML entities are therefore not decoded, and `&nbsp;` is removed only where it appears literally in a cell text.
- The command line, `main`, event-loop selection, `verbose_print` and `time.time()`. The progress message's call to `get_url()` is kept, because its exceptions end the task.
- The file write: the model returns the text that would be written.
- Concrete URLs: catalog entries get an empty URL template and empty page URLs. In a paged scraper the f-string that builds a page's URL, including HideMyName's `start={page*64}`, is an abstract function of the page number.
- Template.Format: only the part of `str.format` that the URL templates use. The whole text between the braces is read as the field name, so a conversion (`{a!r}`), a format spec (`{a:>5}`) or an attribute or index lookup (`{a.b}`, `{a[0]}`) gives KeyError, unless an argument has exactly that name. Python instead renders the field, raises IndexError when the first name is empty or numeric (`{!r}`, `{:>5}`, `{0.x}`, `{0[0]}`, as no positional argument is passed), or raises AttributeError (`{a.b}` on a string). A field nested in a spec (`{a:{b}}`) gives ValueError where Python fills both. The templates in the scraper list contain none of these.
- Scrapers.Agrees: compares the scraper's list with the model's result as sets, so the order of the list and repeated entries in it are not stated. Nothing downstream sees them, because `scrape` writes `set(proxies)` (new.py:897).
- SpysMeScraper's `NotImplementedError` for kinds other than http and socks: the list never builds one.
- The earlier definitions of `SocksProxyNetScraper` (new.py:410) and `Gitrecon1455GitHubScraper` (new.py:200): Python binds the later ones, which are modelled.

## Findings

| source | as written | input that shows it | evidently intended | confidence | as-written member | corrected member |
|---|---|---|---|---|---|---|
| new.py:367-373 | The paged `scrape` overrides and ProxyDB's (new.py:162-167) call `proxies.extend(await self.handle(response))`, and `handle` returns a string. The list therefore grows by one-character strings. | Any page whose table's first cell is `1.2.3.4:80`: the scraper returns `'1'`, `'.'`, `'2'`, … and the address itself never reaches the output file. | Extend with the page's addresses, as the inherited `scrape` does with `re.findall`. | high; not executed | Scrapers.ExtendAddsCharacters, Scrapers.PagedLosesAddresses | Scrapers.IntendedPaged, Scrapers.IntendedPagedFindsAddresses |

The scraper class and the driver model the code as written, so that `Driver.Scrape` describes the file the program actually writes. The corrected loop is `Scrapers.Loop` with the gain `Scrapers.Found` in place of `Scrapers.PageChars`. `Scrapers.IntendedPagedRequestsAlike` shows that the correction changes only what is collected, not which pages are requested or when the scrape fails.
