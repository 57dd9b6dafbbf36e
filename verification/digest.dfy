/** `generate_html_digest` as a whole: the fixed list of news sections and soccer leagues,
    one adapter call per section, and the rendering of what they returned. The responses
    of the HTTP requests are inputs, one per request, in the order the requests are made;
    the date the header shows is an input too. */
module Digest {
  import opened Json
  import opened StrFormat
  import opened Adapters
  import opened Render

  /** `news_sections`: caption, query and article count, in insertion order. */
  const NewsSections: seq<(string, string, int)> := [
    ("Top 5 US News", "US news", 5),
    ("Top 5 Europe News", "Europe news", 5),
    ("Top 5 Africa News", "Africa news", 5),
    ("Top 3 India News", "India news", 3),
    ("Top 3 China News", "China news", 3),
    ("Top 5 NBA News", "NBA basketball", 5),
    ("Top 5 NFL News", "NFL football", 5),
    ("Top 5 Premier League News", "English Premier League", 5),
    ("Top 2 West Ham News", "West Ham United", 2)
  ]

  /** `soccer_leagues`: display name and league slug, in insertion order. */
  const SoccerLeagues: seq<(string, string)> := [
    ("Premier League", "premier-league"),
    ("Champions League", "champions-league"),
    ("Europa League", "europa-league"),
    ("EFL Championship", "championship"),
    ("FA Cup", "fa-cup"),
    ("Carabao Cup", "carabao-cup")
  ]

  /** Every league the digest shows is one `league_map` knows, so each of them is fetched. */
  lemma LeaguesKnown()
    ensures forall i | 0 <= i < |SoccerLeagues| :: LeaguePath(SoccerLeagues[i].1).Some?
  {
    forall i | 0 <= i < |SoccerLeagues|
      ensures LeaguePath(SoccerLeagues[i].1).Some?
    {
      assert SoccerLeagues[i].1 in {"premier-league", "champions-league", "europa-league",
                                    "championship", "fa-cup", "carabao-cup"};
    }
  }

  /** The news sections as the adapter fills them: caption and `fetch_news(query, count)`. */
  function FetchedNews(responses: seq<Option<Json>>): (news: seq<(string, seq<NewsRecord>)>)
    requires |responses| == |NewsSections|
    ensures |news| == |NewsSections|
    ensures forall i | 0 <= i < |news| ::
      news[i] == (NewsSections[i].0, NewsResult(responses[i], NewsSections[i].2))
  {
    seq(|responses|, i requires 0 <= i < |responses| =>
      (NewsSections[i].0, NewsResult(responses[i], NewsSections[i].2)))
  }

  /** The leagues as the adapter fills them: name and `fetch_soccer_scores(slug)`. */
  function FetchedSoccer(responses: seq<Option<Json>>): (soccer: seq<(string, seq<Game>)>)
    requires |responses| == |SoccerLeagues|
    ensures |soccer| == |SoccerLeagues|
    ensures forall i | 0 <= i < |soccer| ::
      soccer[i] == (SoccerLeagues[i].0, SoccerResult(SoccerLeagues[i].1, responses[i]))
  {
    seq(|responses|, i requires 0 <= i < |responses| =>
      (SoccerLeagues[i].0, SoccerResult(SoccerLeagues[i].1, responses[i])))
  }

  /** The page `generate_html_digest` is meant to return for these responses. */
  function HtmlDigest(date: string, newsResponses: seq<Option<Json>>, nbaResponse: Option<Json>,
                      soccerResponses: seq<Option<Json>>): Result<string>
    requires |newsResponses| == |NewsSections| && |soccerResponses| == |SoccerLeagues|
  {
    Digest(date, FetchedNews(newsResponses), ScoreResult(nbaResponse), FetchedSoccer(soccerResponses))
  }

  /** `generate_html_digest` as written: the header template is formatted first, before any
      request is made, and the page is only assembled if that succeeds. */
  function HtmlDigestAsWritten(date: string, newsResponses: seq<Option<Json>>, nbaResponse: Option<Json>,
                               soccerResponses: seq<Option<Json>>): Result<string>
    requires |newsResponses| == |NewsSections| && |soccerResponses| == |SoccerLeagues|
  {
    var header :- Format(HeaderTemplate, [date], 0);
    var body :- Body(FetchedNews(newsResponses), ScoreResult(nbaResponse), FetchedSoccer(soccerResponses));
    Ok(header + Html(body) + Footer)
  }

  /** As written, no digest is ever produced: every call raises KeyError(' font-family'),
      whatever the date and whatever the providers answer. */
  lemma AsWrittenAlwaysRaises(date: string, newsResponses: seq<Option<Json>>, nbaResponse: Option<Json>,
                              soccerResponses: seq<Option<Json>>)
    requires |newsResponses| == |NewsSections| && |soccerResponses| == |SoccerLeagues|
    ensures HtmlDigestAsWritten(date, newsResponses, nbaResponse, soccerResponses)
         == Err(KeyError(" font-family"))
  {
    HeaderAsWrittenRaises(date);
  }

  /** `generate_html_digest` with the header's braces escaped: fetch each news section and
      render it, fetch the NBA scoreboard, fetch each league, then render the page. `date`
      is the clock's reading as the header shows it; `today` is the same reading as
      `fetch_nba_scores` records it, which the page does not show. */
  method GenerateHtmlDigest(date: string, today: string, newsResponses: seq<Option<Json>>,
                            nbaResponse: Option<Json>, soccerResponses: seq<Option<Json>>)
    returns (r: Result<string>)
    requires |newsResponses| == |NewsSections| && |soccerResponses| == |SoccerLeagues|
    ensures r == HtmlDigest(date, newsResponses, nbaResponse, soccerResponses)
  {
    ghost var allNews := FetchedNews(newsResponses);
    var news: seq<(string, seq<NewsRecord>)> := [];
    var i := 0;
    while i < |NewsSections|
      invariant 0 <= i <= |NewsSections|
      invariant news == allNews[..i]
    {
      var (caption, _, count) := NewsSections[i];
      var articles := FetchNews(newsResponses[i], count);
      assert allNews[i] == (caption, articles);
      assert allNews[..i + 1] == allNews[..i] + [allNews[i]];
      news := news + [(caption, articles)];
      i := i + 1;
    }
    assert news == allNews;
    var nba := FetchNbaScores(nbaResponse, today);
    ghost var allSoccer := FetchedSoccer(soccerResponses);
    var soccer: seq<(string, seq<Game>)> := [];
    var l := 0;
    while l < |SoccerLeagues|
      invariant 0 <= l <= |SoccerLeagues|
      invariant soccer == allSoccer[..l]
    {
      var (name, slug) := SoccerLeagues[l];
      var games := FetchSoccerScores(slug, soccerResponses[l]);
      assert allSoccer[l] == (name, games);
      assert allSoccer[..l + 1] == allSoccer[..l] + [allSoccer[l]];
      soccer := soccer + [(name, games)];
      l := l + 1;
    }
    assert soccer == allSoccer;
    r := RenderDigest(date, news, nba.games, soccer);
  }

  /** The captions of the nine news sections, in order: the expected value `FetchedCaptions`
      checks `NewsSections` against. */
  const NewsCaptions: seq<string> := [
    "Top 5 US News", "Top 5 Europe News", "Top 5 Africa News", "Top 3 India News",
    "Top 3 China News", "Top 5 NBA News", "Top 5 NFL News", "Top 5 Premier League News",
    "Top 2 West Ham News"]

  /** The names of the six leagues, in order: the expected value `FetchedLeagues` checks
      `SoccerLeagues` against. */
  const LeagueList: seq<string> := [
    "Premier League", "Champions League", "Europa League", "EFL Championship",
    "FA Cup", "Carabao Cup"]

  lemma FetchedCaptions(newsResponses: seq<Option<Json>>)
    requires |newsResponses| == |NewsSections|
    ensures Names(FetchedNews(newsResponses)) == NewsCaptions
  {
    var captions := Names(FetchedNews(newsResponses));
    assert forall i | 0 <= i < |NewsSections| :: captions[i] == NewsSections[i].0;
  }

  lemma FetchedLeagues(soccerResponses: seq<Option<Json>>)
    requires |soccerResponses| == |SoccerLeagues|
    ensures Names(FetchedSoccer(soccerResponses)) == LeagueList
  {
    var names := Names(FetchedSoccer(soccerResponses));
    assert forall i | 0 <= i < |SoccerLeagues| :: names[i] == SoccerLeagues[i].0;
  }

  /** The page lists the nine news sections, then the NBA and soccer headings, in this
      order, and the six leagues in theirs, whichever requests failed. */
  lemma DigestOutline(date: string, newsResponses: seq<Option<Json>>, nbaResponse: Option<Json>,
                      soccerResponses: seq<Option<Json>>)
    requires |newsResponses| == |NewsSections| && |soccerResponses| == |SoccerLeagues|
    ensures
      var body := Body(FetchedNews(newsResponses), ScoreResult(nbaResponse), FetchedSoccer(soccerResponses));
      body.Ok? ==>
        && Captions(body.value) == NewsCaptions + [NbaTitle, SoccerTitle]
        && LeagueNames(body.value) == LeagueList
  {
    DigestHeadings(FetchedNews(newsResponses), ScoreResult(nbaResponse), FetchedSoccer(soccerResponses));
    FetchedCaptions(newsResponses);
    FetchedLeagues(soccerResponses);
  }

  /** A news request that fails still leaves its section on the page: its heading and the
      "No articles found" placeholder. */
  lemma FailedRequestKeepsSection(newsResponses: seq<Option<Json>>, k: nat)
    requires |newsResponses| == |NewsSections|
    requires k < |NewsSections| && newsResponses[k].None?
    ensures NewsSection(FetchedNews(newsResponses)[k]) ==
      Ok([Heading(NewsSections[k].0), Placeholder(NoArticles)])
  {
    SectionShape(FetchedNews(newsResponses)[k]);
  }
}
