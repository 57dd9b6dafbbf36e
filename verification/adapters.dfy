/** The four source adapters of `NewsDigestGenerator`: each turns the decoded JSON
    payload of one provider response into a list of flat records. The HTTP exchange is
    an input: `None` stands for a request that failed, a non-2xx status or a body that is
    not JSON. Every exception raised while extracting records is caught by the adapter,
    which then returns an empty list. */
module Adapters {
  import opened Json
  import opened Extraction

  /** One news article (the dict built at news_digest_script.py:44-51). Fields hold the
      payload's values as they are: a key present with `null` keeps `JNull`. */
  datatype NewsRecord = NewsRecord(
    title: Json,
    description: Json,
    url: Json,
    source: Json,
    image: Json,
    publishedAt: Json)

  /** One game of a scoreboard; scores and status are text, or whatever the provider sent. */
  datatype Game = Game(home: Json, away: Json, homeScore: Json, awayScore: Json, status: Json)

  /** What `fetch_nba_scores` returns: the games and the run date. */
  datatype NbaScores = NbaScores(games: seq<Game>, date: string)

  const Blank := JStr("")
  const NoDict := JObj([])
  const NoScore := JStr("-")
  const NoStatus := JStr("TBD")

  /** `field` is what `d.get(key, default)` yields for the dict with items `d`: the stored
      value when the key is present (even `None`), the default when it is absent. */
  predicate Defaulted(d: seq<(string, Json)>, key: string, field: Json, default: Json)
  {
    match Lookup(d, key)
    case Some(v) => field == v
    case None => field == default
  }

  // ---------------------------------------------------------------------------
  // News

  /** The record of one article, or the exception its extraction raises. */
  function ArticleRecord(article: Json): (r: Result<NewsRecord>)
    ensures r.Ok? <==> article.JObj? && DictAt(article, "source")
    ensures r.Ok? ==>
      && Defaulted(article.members, "title", r.value.title, Blank)
      && Defaulted(article.members, "description", r.value.description, Blank)
      && Defaulted(article.members, "url", r.value.url, Blank)
      && Defaulted(article.members, "urlToImage", r.value.image, Blank)
      && Defaulted(article.members, "publishedAt", r.value.publishedAt, Blank)
    ensures r.Ok? && Lookup(article.members, "source").None? ==> r.value.source == Blank
    ensures r.Ok? && Lookup(article.members, "source").Some? ==>
      Defaulted(Lookup(article.members, "source").value.members, "name", r.value.source, Blank)
  {
    if !article.JObj? then Err(AttributeError)
    else
      var m := article.members;
      var source := DictGet(m, "source", NoDict);
      if !source.JObj? then Err(AttributeError)
      else
        Ok(NewsRecord(
          DictGet(m, "title", Blank),
          DictGet(m, "description", Blank),
          DictGet(m, "url", Blank),
          DictGet(source.members, "name", Blank),
          DictGet(m, "urlToImage", Blank),
          DictGet(m, "publishedAt", Blank)))
  }

  /** The articles `fetch_news` iterates over: `data.get('articles', [])[:num_articles]`. */
  function NewsItems(data: Json, numArticles: int): Result<seq<Json>>
  {
    var list :- Get(data, "articles", JArr([]));
    var sliced :- SliceTo(list, numArticles);
    Iterate(sliced)
  }

  /** What `fetch_news` returns for a response: any exception gives `[]`. */
  function NewsResult(response: Option<Json>, numArticles: int): seq<NewsRecord>
  {
    match response
    case None => []
    case Some(data) =>
      match NewsItems(data, numArticles)
      case Err(_) => []
      case Ok(items) =>
        match Collected(ArticleRecord, items)
        case Ok(records) => records
        case Err(_) => []
  }

  /** `fetch_news(query, num_articles)` given the provider's response. */
  method FetchNews(response: Option<Json>, numArticles: int) returns (articles: seq<NewsRecord>)
    ensures articles == NewsResult(response, numArticles)
  {
    if response.None? {
      return [];
    }
    var payload := NewsItems(response.value, numArticles);
    if payload.Err? {
      return [];
    }
    var items := payload.value;
    articles := [];
    var i := 0;
    while i < |items|
      invariant 0 <= i <= |items|
      invariant Collected(ArticleRecord, items[..i]) == Ok(articles)
    {
      var record := ArticleRecord(items[i]);
      if record.Err? {
        CollectedSpec(ArticleRecord, items);
        return [];
      }
      assert items[..i + 1][..i] == items[..i];
      articles := articles + [record.value];
      i := i + 1;
    }
    assert items[..i] == items;
  }

  /** When every article within the cap is extractable, `fetch_news` returns exactly
      min(num_articles, number of articles) records, the i-th made from the i-th article. */
  lemma NewsCapAndOrder(data: Json, xs: seq<Json>, numArticles: int)
    requires Get(data, "articles", JArr([])) == Ok(JArr(xs))
    requires forall i | 0 <= i < Cut(|xs|, numArticles) :: ArticleRecord(xs[i]).Ok?
    ensures |NewsResult(Some(data), numArticles)| == Cut(|xs|, numArticles)
    ensures numArticles >= 0 ==>
      |NewsResult(Some(data), numArticles)| == if numArticles < |xs| then numArticles else |xs|
    ensures forall i | 0 <= i < Cut(|xs|, numArticles) ::
      NewsResult(Some(data), numArticles)[i] == ArticleRecord(xs[i]).value
  {
    var items := xs[..Cut(|xs|, numArticles)];
    assert NewsItems(data, numArticles) == Ok(items);
    CollectedSpec(ArticleRecord, items);
  }

  /** `fetch_news` never returns more than `num_articles` records, whatever the response. */
  lemma NewsAtMostCap(response: Option<Json>, numArticles: int)
    requires numArticles >= 0
    ensures |NewsResult(response, numArticles)| <= numArticles
  {
    if response.Some? {
      var items := NewsItems(response.value, numArticles);
      if items.Ok? && Collected(ArticleRecord, items.value).Ok? {
        CollectedSpec(ArticleRecord, items.value);
      }
    }
  }

  /** One article within the cap that is not a dict, or whose `source` is present but not
      a dict, empties the whole result. */
  lemma NewsBadArticle(data: Json, xs: seq<Json>, numArticles: int, k: nat)
    requires Get(data, "articles", JArr([])) == Ok(JArr(xs))
    requires k < Cut(|xs|, numArticles)
    requires !DictAt(xs[k], "source")
    ensures NewsResult(Some(data), numArticles) == []
  {
    var items := xs[..Cut(|xs|, numArticles)];
    assert NewsItems(data, numArticles) == Ok(items);
    assert items[k] == xs[k];
    CollectedSpec(ArticleRecord, items);
  }

  // ---------------------------------------------------------------------------
  // Scoreboards (NBA, NFL and soccer share the per-event extraction)

  /** `event.get('competitions', [{}])[0]`. */
  function FirstCompetition(event: Json): (r: Result<Json>)
    ensures event.JObj? && Lookup(event.members, "competitions").None? ==> r == Ok(NoDict)
    ensures event.JObj? && Lookup(event.members, "competitions") == Some(JArr([])) ==> r.Err?
    ensures event.JObj? && Lookup(event.members, "competitions").Some? &&
            Lookup(event.members, "competitions").value.JArr? &&
            Lookup(event.members, "competitions").value.items != [] ==>
      r == Ok(Lookup(event.members, "competitions").value.items[0])
    ensures !event.JObj? ==> r.Err?
  {
    var competitions :- Get(event, "competitions", JArr([NoDict]));
    Index(competitions, 0)
  }

  /** `event.get('competitions', [{}])[0].get('competitors', [])`. */
  function Competitors(event: Json): (r: Result<Json>)
    ensures event.JObj? && Lookup(event.members, "competitions").None? ==> r == Ok(JArr([]))
    ensures FirstCompetition(event).Err? ==> r.Err?
    ensures FirstCompetition(event).Ok? ==> r == Get(FirstCompetition(event).value, "competitors", JArr([]))
  {
    var competition :- FirstCompetition(event);
    Get(competition, "competitors", JArr([]))
  }

  /** `competitor.get('team', {}).get('displayName', '')`. */
  function TeamName(competitor: Json): (r: Result<Json>)
    ensures r.Ok? <==> DictAt(competitor, "team")
    ensures r.Ok? && Lookup(competitor.members, "team").None? ==> r.value == Blank
    ensures r.Ok? && Lookup(competitor.members, "team").Some? ==>
      Defaulted(Lookup(competitor.members, "team").value.members, "displayName", r.value, Blank)
  {
    var team :- Get(competitor, "team", NoDict);
    Get(team, "displayName", Blank)
  }

  /** `competition.get('status', {}).get('type', {}).get('description', 'TBD')`. */
  function StatusText(competition: Json): (r: Result<Json>)
    ensures r.Ok? <==>
      && DictAt(competition, "status")
      && (Lookup(competition.members, "status").None? ||
          DictAt(Lookup(competition.members, "status").value, "type"))
    ensures competition.JObj? && Lookup(competition.members, "status").None? ==> r == Ok(NoStatus)
    ensures r.Ok? && Lookup(competition.members, "status").Some? ==>
      var status := Lookup(competition.members, "status").value;
      && status.JObj?
      && (Lookup(status.members, "type").None? ==> r.value == NoStatus)
      && (Lookup(status.members, "type").Some? ==>
            && Lookup(status.members, "type").value.JObj?
            && Defaulted(Lookup(status.members, "type").value.members, "description", r.value, NoStatus))
  {
    var status :- Get(competition, "status", NoDict);
    var kind :- Get(status, "type", NoDict);
    Get(kind, "description", NoStatus)
  }

  /** The game of one event: `None` when it has fewer than two competitors. */
  function EventGame(event: Json): (r: Result<Option<Game>>)
  {
    var competition :- FirstCompetition(event);
    var competitors :- Get(competition, "competitors", JArr([]));
    var count :- Len(competitors);
    if count < 2 then Ok(None)
    else
      match competitors
      case JArr(items) =>
        var home :- TeamName(items[0]);
        var away :- TeamName(items[1]);
        var status :- StatusText(competition);
        Ok(Some(Game(home, away, DictGet(items[0].members, "score", NoScore),
                     DictGet(items[1].members, "score", NoScore), status)))
      case JStr(_) => Err(AttributeError)
      case _ => Err(KeyError("0"))
  }

  /** An event that raises fails the adapter, one with fewer than two competitors is
      skipped, and otherwise `home` is `competitors[0]` and `away` is `competitors[1]`,
      with the `'-'` and `'TBD'` defaults. */
  lemma EventGameSpec(event: Json)
    ensures Competitors(event).Err? ==> EventGame(event).Err?
    ensures (Competitors(event).Ok? && Len(Competitors(event).value).Ok? &&
             Len(Competitors(event).value).value < 2) ==> EventGame(event) == Ok(None)
    ensures (Competitors(event).Ok? && Len(Competitors(event).value).Ok? &&
             Len(Competitors(event).value).value >= 2) ==> EventGame(event) != Ok(None)
    ensures (Competitors(event).Ok? && Competitors(event).value.JArr? &&
             |Competitors(event).value.items| >= 2 &&
             TeamName(Competitors(event).value.items[0]).Ok? &&
             TeamName(Competitors(event).value.items[1]).Ok? &&
             StatusText(FirstCompetition(event).value).Ok?) ==> EventGame(event).Ok? && EventGame(event).value.Some?
    ensures EventGame(event).Ok? && EventGame(event).value.Some? ==>
      var cs := Competitors(event).value;
      && cs.JArr? && |cs.items| >= 2
      && cs.items[0].JObj? && cs.items[1].JObj?
      && TeamName(cs.items[0]) == Ok(EventGame(event).value.value.home)
      && TeamName(cs.items[1]) == Ok(EventGame(event).value.value.away)
      && Defaulted(cs.items[0].members, "score", EventGame(event).value.value.homeScore, NoScore)
      && Defaulted(cs.items[1].members, "score", EventGame(event).value.value.awayScore, NoScore)
      && StatusText(FirstCompetition(event).value) == Ok(EventGame(event).value.value.status)
  {
  }

  /** The try/except around an adapter's event loop: no games when anything raised. */
  function GamesOrEmpty(events: Result<seq<Json>>): seq<Game>
  {
    match events
    case Err(_) => []
    case Ok(es) =>
      match Filtered(EventGame, es)
      case Ok(games) => games
      case Err(_) => []
  }

  /** The event loop shared by the three score adapters. */
  method CollectGames(events: Result<seq<Json>>) returns (games: seq<Game>)
    ensures games == GamesOrEmpty(events)
  {
    if events.Err? {
      return [];
    }
    var es := events.value;
    games := [];
    var i := 0;
    while i < |es|
      invariant 0 <= i <= |es|
      invariant Filtered(EventGame, es[..i]) == Ok(games)
    {
      var game := EventGame(es[i]);
      if game.Err? {
        FilteredSpec(EventGame, es);
        return [];
      }
      assert es[..i + 1][..i] == es[..i];
      games := games + Present(game.value);
      i := i + 1;
    }
    assert es[..i] == es;
  }

  /** The events NBA and NFL iterate over: `data.get('events', [])`. */
  function ScoreEvents(data: Json): Result<seq<Json>>
  {
    var events :- Get(data, "events", JArr([]));
    Iterate(events)
  }

  /** The games `fetch_nba_scores` and `fetch_nfl_scores` return for a response. */
  function ScoreResult(response: Option<Json>): seq<Game>
  {
    match response
    case None => []
    case Some(data) => GamesOrEmpty(ScoreEvents(data))
  }

  /** An event whose `competitions` is an empty list raises IndexError, which empties the
      whole list of games, whichever of the three scoreboards it is on. */
  lemma GamesEmptyCompetitions(es: seq<Json>, k: nat)
    requires k < |es| && es[k].JObj?
    requires Lookup(es[k].members, "competitions") == Some(JArr([]))
    ensures GamesOrEmpty(Ok(es)) == []
  {
    FilteredSpec(EventGame, es);
  }

  /** When every event has two competitors and extracts cleanly, there is one game per
      event, in event order. */
  lemma GamesOneGamePerEvent(es: seq<Json>)
    requires forall i | 0 <= i < |es| :: EventGame(es[i]).Ok? && EventGame(es[i]).value.Some?
    ensures |GamesOrEmpty(Ok(es))| == |es|
    ensures forall i | 0 <= i < |es| :: GamesOrEmpty(Ok(es))[i] == EventGame(es[i]).value.value
  {
    FilteredAll(EventGame, es);
  }

  /** An event with fewer than two competitors is skipped: the games are what they would
      be without that event. */
  lemma GamesSkipEvent(before: seq<Json>, event: Json, after: seq<Json>)
    requires Competitors(event).Ok? && Len(Competitors(event).value).Ok?
    requires Len(Competitors(event).value).value < 2
    ensures GamesOrEmpty(Ok(before + [event] + after)) == GamesOrEmpty(Ok(before + after))
  {
    EventGameSpec(event);
    FilteredSkip(EventGame, before, event, after);
  }

  /** The NBA and NFL scoreboards read every event of the `events` list. */
  lemma ScoreReadsAllEvents(data: Json, xs: seq<Json>)
    requires Get(data, "events", JArr([])) == Ok(JArr(xs))
    ensures ScoreEvents(data) == Ok(xs)
    ensures ScoreResult(Some(data)) == GamesOrEmpty(Ok(xs))
  {
  }

  /** `fetch_nba_scores()`, with the clock's reading passed in as `today`. */
  method FetchNbaScores(response: Option<Json>, today: string) returns (scores: NbaScores)
    ensures scores == NbaScores(ScoreResult(response), today)
  {
    var games: seq<Game> := [];
    if response.Some? {
      games := CollectGames(ScoreEvents(response.value));
    }
    scores := NbaScores(games, today);
  }

  /** `fetch_nfl_scores()['games']`. */
  method FetchNflScores(response: Option<Json>) returns (games: seq<Game>)
    ensures games == ScoreResult(response)
  {
    games := [];
    if response.Some? {
      games := CollectGames(ScoreEvents(response.value));
    }
  }

  // ---------------------------------------------------------------------------
  // Soccer

  /** `league_map`: league slug to ESPN sport path. */
  const LeagueMap: map<string, string> := map[
    "premier-league" := "soccer/eng.1",
    "champions-league" := "soccer/uefa.champions",
    "europa-league" := "soccer/uefa.europa",
    "championship" := "soccer/eng.2",
    "fa-cup" := "soccer/eng.fa",
    "carabao-cup" := "soccer/eng.cup"
  ]

  /** The ESPN path of a league, `None` for a slug `league_map` does not know. */
  function LeaguePath(league: string): (r: Option<string>)
    ensures r.Some? <==> league in {"premier-league", "champions-league", "europa-league",
                                   "championship", "fa-cup", "carabao-cup"}
    ensures r.Some? ==> |r.value| > 7 && r.value[..7] == "soccer/"
  {
    var id := if league in LeagueMap then LeagueMap[league] else "";
    if id == "" then None else Some(id)
  }

  /** The scoreboard a known league is fetched from; no request for an unknown one. */
  function SoccerUrl(league: string): (r: Option<string>)
    ensures r.Some? <==> LeaguePath(league).Some?
    ensures r.Some? ==> r.value == "https://site.api.espn.com/apis/site/v2/sports/" +
                                   LeaguePath(league).value + "/scoreboard"
  {
    match LeaguePath(league)
    case None => None
    case Some(path) => Some("https://site.api.espn.com/apis/site/v2/sports/" + path + "/scoreboard")
  }

  /** The events soccer iterates over: the first five of `data.get('events', [])`. */
  function SoccerEvents(data: Json): Result<seq<Json>>
  {
    var events :- Get(data, "events", JArr([]));
    var top := SliceTo(events, 5);
    var sliced :- top;
    Iterate(sliced)
  }

  /** What `fetch_soccer_scores(league)` returns, given the response to `SoccerUrl(league)`. */
  function SoccerResult(league: string, response: Option<Json>): seq<Game>
  {
    if LeaguePath(league).None? then []
    else
      match response
      case None => []
      case Some(data) => GamesOrEmpty(SoccerEvents(data))
  }

  /** A known league's scoreboard reads only the first five events of the `events` list. */
  lemma SoccerFirstFive(league: string, data: Json, xs: seq<Json>)
    requires LeaguePath(league).Some?
    requires Get(data, "events", JArr([])) == Ok(JArr(xs))
    ensures SoccerEvents(data) == Ok(xs[..Cut(|xs|, 5)])
    ensures SoccerResult(league, Some(data)) == GamesOrEmpty(Ok(xs[..Cut(|xs|, 5)]))
  {
  }

  /** Only the first five events are looked at, so at most five games come back. */
  lemma SoccerAtMostFive(league: string, response: Option<Json>)
    ensures |SoccerResult(league, response)| <= 5
  {
    if LeaguePath(league).Some? && response.Some? {
      var events := SoccerEvents(response.value);
      if events.Ok? {
        assert |events.value| <= 5;
        FilteredSpec(EventGame, events.value);
      }
    }
  }

  /** `fetch_soccer_scores(league)`: an unknown slug returns `[]` before any request. */
  method FetchSoccerScores(league: string, response: Option<Json>) returns (games: seq<Game>)
    ensures games == SoccerResult(league, response)
    ensures LeaguePath(league).None? ==> games == []
    ensures |games| <= 5
  {
    SoccerAtMostFive(league, response);
    games := [];
    if LeaguePath(league).None? {
      return;
    }
    if response.Some? {
      games := CollectGames(SoccerEvents(response.value));
    }
  }
}
