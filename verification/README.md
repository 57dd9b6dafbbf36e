# Daily news digest, modelled in Dafny

`news_digest_script.py` builds a daily e-mail digest. `NewsDigestGenerator` checks its
required environment variables and runs four source adapters. Each adapter turns a
provider's decoded JSON payload into a flat list of records:

- `fetch_news` for NewsAPI articles;
- `fetch_nba_scores`, `fetch_nfl_scores` and `fetch_soccer_scores` for ESPN scoreboards.

`generate_html_digest` then renders the results into one HTML page, which `send_email`
delivers. This project models the adapters, the league lookup, the page renderer and the
configuration check, and proves what they promise.

Modules:

- `Json` (json.dfy): decoded JSON values. It also models the Python operations the script
  applies to them: `dict.get` with a default, iteration, `[:k]` slicing, `len`, `[i]`
  indexing and `str()`. Each operation that can raise returns a `Result` naming the Python
  exception.
- `Extraction` (extraction.dfy): the loop every adapter runs. It extracts item after item
  and lets the first exception abort the whole list. There are two versions: one result
  per item (`Collected`), or at most one result per item (`Filtered`).
- `Adapters` (adapters.dfy): the four adapters.
  - Each is a method with a loop, proved equal to a function of the provider response.
  - `None` stands for a failed request.
  - Every exception is caught and yields an empty list.
  - Also here: the league map, the ESPN URL it selects, the caps (`num_articles`, five
    soccer events) and the "at least two competitors" filter.
- `StrFormat` (format.dfy): the positional subset of Python's `str.format` that the
  header uses. It covers `{{`, `}}`, `{}`, `{0}` and `{name}`; a keyword field with no
  keyword argument raises KeyError.
- `Render` (render.dfy): the page as a sequence of blocks.
  - The blocks are a section heading, an article, an NBA score, a soccer match and a
    placeholder, each with its exact markup.
  - The `html +=` renderer is a set of loop methods proved to produce the markup of those
    blocks.
  - The lemmas cover section order, one heading per section, placeholder substitution,
    the summary rule and the header finding below.
- `Digest` (digest.dfy): `generate_html_digest` as a whole. It covers the nine news
  sections and six leagues, one adapter call per section, and the page that results. The
  HTTP responses and the date are inputs.
- `Settings` (config.dfy): the required-variable check in `NewsDigestGenerator.__init__`.

Three behaviours of the script may surprise a reader; the model follows the code:

- A payload value that is present but `null` is kept as `None`. It is not replaced by the
  field's default, as one might expect. As a result, a `null` title renders as the text `None`, and a `null`
  description makes `[:200]` raise TypeError, which aborts the whole page
  (`Render.DigestRenders`).
- The summary always ends in `...`, also when nothing was cut. It does not keep a short
  summary unchanged or add the ellipsis only to a truncated one.
- The renderer is not a pure function of already fetched data: it calls each adapter
  between the sections it renders. The model gives the renderer the fetched results
  (`Render.RenderDigest`). `Digest.GenerateHtmlDigest` replays the request order with one
  response per request.

## Model

| member | source | states |
|---|---|---|
| Json.Lookup | news_digest_script.py:45 | a key is absent exactly when no dict item has it; a present key yields the value of its first matching item |
| Json.DictGet | news_digest_script.py:45-50 | `d.get(key, default)` gives the stored value when the key is present, even `None`, and the default only when it is absent |
| Json.Get | news_digest_script.py:48 | `.get` raises AttributeError exactly when the receiver is not a dict |
| Json.Iterate | news_digest_script.py:43 | `for` visits a list's items in order, a string's characters as one-character strings, or a dict's keys in order; anything else raises |
| Json.Cut | news_digest_script.py:43 | the length of `xs[:k]` is `min(k, len)` for `k >= 0` and counts from the end for `k < 0` |
| Json.SliceTo | news_digest_script.py:43 | `[:k]` succeeds exactly on lists and strings and keeps their first `Cut` elements |
| Json.Len | news_digest_script.py:68 | `len` succeeds exactly on lists, strings and dicts and counts what iteration visits |
| Json.Index | news_digest_script.py:67 | `[i]` succeeds exactly on a list or string longer than `i`; it yields the list's element `i`, or the string's character `i` as a one-character string |
| Json.Str | news_digest_script.py:189-191 | an f-string shows a string as itself and `None` as `None` |
| Extraction.CollectedSpec | news_digest_script.py:42-51 | the appending loop succeeds exactly when every item extracts, and then yields one result per item in item order |
| Extraction.CollectedStops | news_digest_script.py:53-55 | once an item raises, the whole list raises that exception |
| Extraction.FilteredSpec | news_digest_script.py:65-75 | the filtering loop succeeds exactly when every item extracts, and never yields more results than items |
| Extraction.FilteredAppend | news_digest_script.py:65-75 | results keep item order: those of `a + b` are those of `a` followed by those of `b` |
| Extraction.FilteredAll | news_digest_script.py:65-75 | when every item yields a result there is exactly one per item, in order |
| Extraction.FilteredSkip | news_digest_script.py:68 | an item that yields nothing leaves the result as if it were absent |
| Adapters.ArticleRecord | news_digest_script.py:44-51 | a record is built exactly when the article is a dict whose `source` is absent or a dict; each field is the payload's value or `''` when its key is absent, and `source` is `''` when `source` or `source.name` is absent |
| Adapters.FetchNews | news_digest_script.py:27-55 | the loop returns `NewsResult`: `[]` on a failed request or any exception, otherwise the records of the first `num_articles` articles |
| Adapters.NewsAtMostCap | news_digest_script.py:42-55 | for every response and every `num_articles >= 0`, `fetch_news` returns at most `num_articles` records |
| Adapters.NewsCapAndOrder | news_digest_script.py:42-52 | with extractable articles the result has exactly `min(num_articles, len(articles))` records, the i-th made from the i-th article |
| Adapters.NewsBadArticle | news_digest_script.py:42-55 | one article within the cap that is not a dict, or whose `source` is not a dict, empties the whole result |
| Adapters.FirstCompetition | news_digest_script.py:67 | an absent `competitions` gives `{}`, a non-empty list gives its first item, an empty list raises, and a non-dict event raises |
| Adapters.Competitors | news_digest_script.py:67 | the competitors are the first competition's `competitors` (none when that key is absent, and none when `competitions` is absent), and reading them raises when the first competition does |
| Adapters.TeamName | news_digest_script.py:70-71 | the team name is read when `team` is absent or a dict, and is `''` when `team` or `displayName` is absent |
| Adapters.StatusText | news_digest_script.py:74 | the status is read exactly when the competition is a dict and `status` and `type` are each absent or a dict; it is `'TBD'` when `status`, `type` or `description` is absent |
| Adapters.EventGameSpec | news_digest_script.py:66-75 | about `Adapters.EventGame`, which models lines 67-75 for one event: an event raises when its competitors cannot be read; it is skipped exactly when it has fewer than two competitors, and with two or more it yields a game whenever both team names and the status can be read; home is `competitors[0]` and away is `competitors[1]`, with `'-'` and `'TBD'` defaults |
| Adapters.CollectGames | news_digest_script.py:65-75 | the event loop returns `GamesOrEmpty`: the filtered games, or `[]` when anything raised |
| Adapters.GamesEmptyCompetitions | news_digest_script.py:65-79 | an event with an empty `competitions` list empties the whole list of games; this holds for the NBA, NFL and soccer loops alike |
| Adapters.GamesOneGamePerEvent | news_digest_script.py:65-75 | when every event has two competitors and extracts, there is one game per event, in event order; the same holds for the soccer loop at lines 126-136 |
| Adapters.GamesSkipEvent | news_digest_script.py:66-75 | an event with fewer than two competitors is dropped and the other games keep their order, in the NBA, NFL and soccer loops alike |
| Adapters.ScoreReadsAllEvents | news_digest_script.py:66 | the NBA and NFL loops read every event of `events`, with no cap |
| Adapters.FetchNbaScores | news_digest_script.py:57-79 | the NBA adapter returns the scoreboard's games, or none on any failure, with the run date |
| Adapters.FetchNflScores | news_digest_script.py:81-103 | the NFL adapter returns the scoreboard's games, or none on any failure |
| Adapters.LeaguePath | news_digest_script.py:108-119 | exactly the six slugs of `league_map` have an ESPN path, each under `soccer/` |
| Adapters.SoccerUrl | news_digest_script.py:117-121 | a request is made only for a known league, to that league's scoreboard URL |
| Adapters.SoccerFirstFive | news_digest_script.py:126 | for a known league, the soccer loop reads exactly the first `min(5, len(events))` events and turns them into games like the other loops |
| Adapters.SoccerAtMostFive | news_digest_script.py:126-137 | at most five games come back |
| Adapters.FetchSoccerScores | news_digest_script.py:105-140 | the soccer adapter returns `SoccerResult`: `[]` for an unknown slug before any request, at most five games otherwise |
| StrFormat.IndexOf | news_digest_script.py:144-166 | the first position of a character from a start index, or the end |
| StrFormat.FieldName | news_digest_script.py:148 | a field's name is its text up to the first `:` or `!` |
| StrFormat.FormatEscaped | news_digest_script.py:144-166 | text with its braces doubled formats back to itself |
| StrFormat.OneFieldTemplate | news_digest_script.py:144-166 | escaped text around one `{}` formats to the text with the argument in between |
| StrFormat.StepKeyword | news_digest_script.py:148 | a field `{name…}` with a non-numeric name raises KeyError naming it |
| StrFormat.KeywordFieldRaises | news_digest_script.py:144-166 | literal text followed by a keyword field makes the whole `format` call raise KeyError |
| Render.HeaderAsWrittenRaises | news_digest_script.py:144-166 | the header template as written raises KeyError(' font-family') for every date |
| Render.Header | news_digest_script.py:144-166 | the corrected header is the template's text with the date in its slot, and equals what the brace-escaped template formats to |
| Render.Summary | news_digest_script.py:190 | the summary is the first `min(len, 200)` characters followed by `...`, always; it raises exactly when the description is not a string or list |
| Render.ArticleBlock | news_digest_script.py:187-194 | an article block shows title, summary, source and URL, and fails exactly when the summary does |
| Render.EmptySectionText | news_digest_script.py:183-236 | a section that came back empty renders as its heading line followed by its placeholder line: a news section as its `<h2>` caption then "No articles found at this time." (lines 183, 196), the NBA section as its `<h2>` title then "No games to display." (lines 199, 211), a league as its `<h3>` name then "No matches to display." (lines 226, 236) |
| Render.MatchIgnoresStatus | news_digest_script.py:229-234 | a soccer block never shows the game's status |
| Render.SectionRenders | news_digest_script.py:185-196 | a news section renders exactly when every description is a string or list |
| Render.SectionShape | news_digest_script.py:181-196 | a section is its heading, then one article block per record in order, or the "No articles found" placeholder; its only heading block is its caption |
| Render.NewsHeadings | news_digest_script.py:181-196 | the news part has one section-heading block per section, in section order, and no league-heading block |
| Render.NbaHeadings | news_digest_script.py:198-211 | the NBA part has its one section-heading block and no league-heading block |
| Render.LeagueSectionHeadings | news_digest_script.py:226-236 | a league's part has the league's name as its only heading block |
| Render.SoccerHeadings | news_digest_script.py:224-236 | the league blocks under the soccer title have one league-heading block per league, in order, and no section-heading block |
| Render.DigestHeadings | news_digest_script.py:169-236 | the page's section-heading blocks are the news captions, then the NBA and soccer titles, and its league-heading blocks are the league names |
| Render.DigestRenders | news_digest_script.py:186-190 | the page renders exactly when every article of every section has a string or list description |
| Render.RenderArticles | news_digest_script.py:186-194 | the article loop yields the markup of the article blocks, or the first summary's exception |
| Render.RenderSection | news_digest_script.py:183-196 | one section's markup is its heading, then its articles or the placeholder |
| Render.RenderNews | news_digest_script.py:181-196 | the section loop yields the markup of all news sections in order, or the first exception |
| Render.RenderNba | news_digest_script.py:198-211 | the NBA markup is the heading, then one `away @ home` score block per game, or "No games to display." |
| Render.RenderLeague | news_digest_script.py:225-236 | a league's markup is its league heading, then one `away vs home` block per game, or "No matches to display." |
| Render.RenderSoccer | news_digest_script.py:213-236 | the soccer markup is its heading, then each league in order |
| Render.RenderDigest | news_digest_script.py:142-246 | with the corrected header (see ## Findings), the page is header, news, NBA, soccer and footer, or the exception a summary raises |
| Digest.LeaguesKnown | news_digest_script.py:215-225 | every league the digest lists is one `league_map` knows |
| Digest.FetchedNews | news_digest_script.py:169-182 | section i has caption i and the result of `fetch_news` for query i and count i |
| Digest.FetchedSoccer | news_digest_script.py:215-225 | league i has name i and the result of `fetch_soccer_scores` for slug i |
| Digest.AsWrittenAlwaysRaises | news_digest_script.py:144-166 | as written, `generate_html_digest` raises KeyError(' font-family') whatever the date and the responses |
| Digest.GenerateHtmlDigest | news_digest_script.py:142-246 | with the corrected header (see ## Findings), fetching every section in order and rendering gives the digest of those responses |
| Digest.FetchedCaptions | news_digest_script.py:169-179 | the news sections are the nine configured captions in insertion order |
| Digest.FetchedLeagues | news_digest_script.py:215-222 | the leagues are the six configured names in insertion order |
| Digest.DigestOutline | news_digest_script.py:169-236 | whichever requests fail, a page that renders (every description a string or list) has as its section-heading blocks the nine news captions, then the NBA and soccer titles, and as its league-heading blocks the six leagues, in order |
| Digest.FailedRequestKeepsSection | news_digest_script.py:181-196 | a failed news request still leaves its heading and the placeholder on the page |
| Settings.LoadConfig | news_digest_script.py:17-25 | creation succeeds exactly when the four required variables are set and non-empty, raises ValueError otherwise, and `SPORTS_API_KEY` defaults to `''` |

## Left out

- HTTP: `requests.get`, `raise_for_status` and `.json()` are replaced by an `Option<Json>` response per request; `None` is any transport, status or decoding failure. The request parameters (query, page size, API key) are not modelled.
- E-mail delivery (`send_email`) and `main`: SMTP and MIME are I/O. `send_email` re-raises delivery errors, and `main` exits with status 1; neither is modelled.
- `os.environ` is a map from names to strings; `datetime.now()` and `strftime` are a date string passed in.
- `print` diagnostics in the adapters' exception handlers are left out.
- JSON numbers are integers: floating-point payload values are not modelled, and `Json.Repr` of a string, also a dict key, always uses single quotes and escapes nothing. Python's `repr` switches to double quotes when the string contains `'` and no `"`, and escapes backslashes and control characters (a newline becomes `\n`).
- Dict keys in a payload are assumed distinct, as `json.loads` produces them.
- Slicing a dict raises TypeError in the model; Python 3.12 and later raise KeyError. The adapters catch both alike.
- StrFormat.Format: nested replacement fields, format specs, conversions, attribute and index lookups in field names, and the error for mixing automatic and manual numbering are not modelled; none occurs in the header.
- Digest.GenerateHtmlDigest: the script renders each news section before it makes the next request. With the responses as inputs, a summary that raises early and the requests that would then not be made are not distinguished.
- The NBA date returned by `fetch_nba_scores` is not shown on the page; it is a separate input (`today`), and its `%Y-%m-%d` formatting is not modelled.
- `fetch_nfl_scores` is modelled as an adapter but is not part of the digest, as in the script.
- HTML is not escaped, as in the script. The heading lemmas count the renderer's own heading blocks (`Heading`, `League`); a title, summary, team name or status that contains markup is inserted as it is, so the page's text can hold more `<h2>` or `<h3>` tags than those lemmas count.
- `NewsDigestGenerator` sets its fields once and never changes them, so the configuration is a value (`Settings.Config`), not a class.

## Findings

| source | as written | input that shows it | evidently intended | confidence | as-written member | corrected member |
|---|---|---|---|---|---|---|
| news_digest_script.py:144-166 | the header's CSS braces are read by `str.format` as a replacement field named ` font-family`, so `format(date)` raises KeyError | any date, e.g. `Monday, January 01, 2024` | the CSS braces doubled, so only `{}` takes the date | high; not executed | Digest.AsWrittenAlwaysRaises | Render.Header |
