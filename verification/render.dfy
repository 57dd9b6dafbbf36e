/** `generate_html_digest`: the page the digest script mails, built from the results the
    adapters returned. The page is a header, a sequence of blocks (section headings, one
    block per article or game, or a placeholder for an empty section) and a footer. */
module Render {
  import opened Json
  import opened Extraction
  import opened StrFormat
  import opened Adapters

  // ---------------------------------------------------------------------------
  // Header

  /** The header template of news_digest_script.py:144-166, in four pieces around its
      braces: the first CSS rule's body sits between `{` and `}`, and `{}` is the slot
      for the date. */
  const HeaderPrelude: string :=
    "\n        <html>" + "\n            <head>" + "\n                <style>" + "\n                    body "
  const FirstRule: string := " font-family" + ": Arial, sans-serif;" + " background-color: #f5f5f5; "
  const HeaderCss: string := "\n                    .container { max-width: 900px; margin: 0 auto; background: white; padding: 20px; }\n                    h1 { color: #333; border-bottom: 3px solid #007bff; padding-bottom: 10px; }\n                    h2 { color: #007bff; margin-top: 30px; border-left: 4px solid #007bff; padding-left: 10px; }\n                    .article { margin: 15px 0; padding: 15px; border-left: 4px solid #ddd; }\n                    .article-title { font-weight: bold; color: #333; }\n                    .article-summary { color: #666; font-size: 14px; margin: 5px 0; }\n                    .article-source { color: #999; font-size: 12px; }\n                    .article-link { color: #007bff; text-decoration: none; font-size: 12px; }\n                    .score-item { padding: 10px; margin: 5px 0; background: #f9f9f9; border-radius: 4px; }\n                    .score-teams { font-weight: bold; }\n                    .score-final { color: #007bff; font-weight: bold; }\n                    .footer { text-align: center; color: #999; font-size: 12px; margin-top: 40px; padding-top: 20px; border-top: 1px solid #ddd; }\n                </style>\n            </head>\n            <body>\n                <div class=\"container\">\n                    <h1>\U{F8FF}\U{FC}\U{EC}\U{221E} Daily News Digest - "
  const HeaderEnd: string := "</h1>\n        "

  /** What the page is meant to show before the date: the style sheet with its braces. */
  const HeaderText: string := HeaderPrelude + "{" + FirstRule + "}" + HeaderCss

  /** The template as the script writes it, which it hands to `str.format`. */
  const HeaderTemplate: string := HeaderText + "{}" + HeaderEnd

  lemma PreludeNoBraces()
    ensures NoBraces(HeaderPrelude)
  {
    var a, b, c, d := "\n        <html>", "\n            <head>", "\n                <style>", "\n                    body ";
    assert NoBraces(a) && NoBraces(b) && NoBraces(c) && NoBraces(d);
    NoBracesConcat(a, b);
    NoBracesConcat(a + b, c);
    NoBracesConcat(a + b + c, d);
  }

  lemma FirstRuleNoBraces()
    ensures NoBraces(FirstRule)
  {
    var a, b, c := " font-family", ": Arial, sans-serif;", " background-color: #f5f5f5; ";
    assert NoBraces(a) && NoBraces(b) && NoBraces(c);
    NoBracesConcat(a, b);
    NoBracesConcat(a + b, c);
  }

  /** The name `str.format` reads out of `{ font-family: … }`: the text before the first ':'. */
  lemma FirstRuleFieldName()
    ensures FieldName(FirstRule) == " font-family"
  {
    var name, tail := " font-family", ": Arial, sans-serif;" + " background-color: #f5f5f5; ";
    assert FirstRule == name + tail;
    assert forall i | 0 <= i < 12 :: FirstRule[i] == name[i];
    assert FirstRule[12] == ':';
    FieldNameAt(FirstRule, 12);
    assert FirstRule[..12] == name;
  }

  /** As written, formatting the header raises KeyError(' font-family') whatever the date:
      the style sheet's first brace opens a replacement field with a keyword name, and no
      keyword argument is passed. */
  lemma HeaderAsWrittenRaises(date: string)
    ensures Format(HeaderTemplate, [date], 0) == Err(KeyError(" font-family"))
  {
    var rest := HeaderCss + "{}" + HeaderEnd;
    FirstRuleFieldName();
    PreludeNoBraces();
    FirstRuleNoBraces();
    assert !IsDigits(" font-family");
    assert HeaderTemplate == HeaderPrelude + "{" + FirstRule + "}" + rest;
    KeywordFieldRaises(HeaderPrelude, FirstRule, rest, [date], 0);
  }

  /** The header with the date filled in, as the template means it: it is what the same
      template gives once its literal braces are doubled. */
  function Header(date: string): (h: string)
    ensures Format(Escape(HeaderText) + "{}" + Escape(HeaderEnd), [date], 0) == Ok(h)
  {
    OneFieldTemplate(HeaderText, HeaderEnd, date);
    HeaderText + date + HeaderEnd
  }

  // ---------------------------------------------------------------------------
  // Blocks

  const NbaTitle: string := "\U{F8FF}\U{FC}\U{E8}\U{C4} NBA Scores (Previous Day)"
  const SoccerTitle: string := "\U{201A}\U{F6}\U{3A9} Soccer Scores"
  const NoArticles: string := "No articles found at this time."
  const NoGames: string := "No games to display."
  const NoMatches: string := "No matches to display."

  const Footer: string := "\n                    <div class=\"footer\">\n                        <p>This is an automated daily digest. Please do not reply to this email.</p>\n                    </div>\n                </div>\n            </body>\n        </html>\n        "

  /** One piece of the page between header and footer. */
  datatype Block =
    | Heading(caption: string)                  // an `<h2>` section heading
    | League(name: string)                    // an `<h3>` league heading
    | Article(title: string, summary: string, source: string, url: string)
    | Score(game: Game)                       // an NBA game
    | Match(game: Game)                       // a soccer game
    | Placeholder(text: string)               // the grey line of an empty section

  /** The markup `generate_html_digest` appends for a block: the text of its f-string, with
      each value shown through `str()`. */
  function BlockHtml(b: Block): string {
    match b
    case Heading(caption) => "<h2>" + caption + "</h2>\n"
    case League(name) => "<h3>" + name + "</h3>\n"
    case Article(title, summary, source, url) =>
      "\n                    <div class=\"article\">\n                        <div class=\"article-title\">" + title +
      "</div>\n                        <div class=\"article-summary\">" + summary +
      "</div>\n                        <div class=\"article-source\">" + source +
      "</div>\n                        <a href=\"" + url +
      "\" class=\"article-link\">Read full article \U{201A}\U{DC}\U{ED}</a>\n                    </div>\n                    "
    case Score(g) =>
      "\n                <div class=\"score-item\">\n                    <div class=\"score-teams\">" +
      Str(g.away) + " @ " + Str(g.home) +
      "</div>\n                    <div class=\"score-final\">" + Str(g.awayScore) + " - " + Str(g.homeScore) +
      "</div>\n                    <div class=\"score-source\">" + Str(g.status) +
      "</div>\n                </div>\n                "
    case Match(g) =>
      "\n                    <div class=\"score-item\">\n                        <div class=\"score-teams\">" +
      Str(g.away) + " vs " + Str(g.home) +
      "</div>\n                        <div class=\"score-final\">" + Str(g.awayScore) + " - " + Str(g.homeScore) +
      "</div>\n                    </div>\n                    "
    case Placeholder(text) => "<p style='color: #999;'>" + text + "</p>\n"
  }

  /** A soccer game's block shows teams and score but never the status. */
  lemma MatchIgnoresStatus(g: Game, status: Json)
    ensures BlockHtml(Match(g)) == BlockHtml(Match(g.(status := status)))
  {
  }

  /** The pieces rendered by `f`, one after the other. */
  function Concat<T>(f: T -> string, xs: seq<T>): string
  {
    if xs == [] then "" else Concat(f, xs[..|xs| - 1]) + f(xs[|xs| - 1])
  }

  lemma {:induction false} ConcatAppend<T>(f: T -> string, a: seq<T>, b: seq<T>)
    ensures Concat(f, a + b) == Concat(f, a) + Concat(f, b)
    decreases |b|
  {
    if b == [] {
      assert a + b == a;
    } else {
      var init := b[..|b| - 1];
      ConcatAppend(f, a, init);
      assert (a + b)[..|a + b| - 1] == a + init;
      assert (a + b)[|a + b| - 1] == b[|b| - 1];
      Associative(Concat(f, a), Concat(f, init), f(b[|b| - 1]));
    }
  }

  /** The blocks' markup, one after the other. */
  function Html(blocks: seq<Block>): string
  {
    Concat(BlockHtml, blocks)
  }

  /** The markup of two runs of blocks is the markup of the first followed by the second's. */
  lemma HtmlAppend(a: seq<Block>, b: seq<Block>)
    ensures Html(a + b) == Html(a) + Html(b)
  {
    ConcatAppend(BlockHtml, a, b);
  }

  /** The text of the summary line: `description[:200]` as an f-string shows it, then
      "...". Slicing `None`, a number or a dict raises. */
  function Summary(description: Json): (r: Result<string>)
    ensures r.Ok? <==> description.JStr? || description.JArr?
    ensures r.Ok? ==> |r.value| >= 3 && r.value[|r.value| - 3..] == "..."
    ensures description.JStr? && |description.s| <= 200 ==> r == Ok(description.s + "...")
    ensures description.JStr? && |description.s| > 200 ==>
      r == Ok(description.s[..200] + "...") && |r.value| == 203
  {
    var cut :- SliceTo(description, 200);
    var shown := Str(cut);
    assert description.JStr? ==> description.s[..|description.s|] == description.s;
    assert (shown + "...")[|shown|..] == "...";
    Ok(shown + "...")
  }

  /** The block of one news record, or the exception its summary raises. */
  function ArticleBlock(a: NewsRecord): (r: Result<Block>)
    ensures r.Ok? <==> Summary(a.description).Ok?
    ensures r.Ok? ==> r.value == Article(Str(a.title), Summary(a.description).value, Str(a.source), Str(a.url))
  {
    var summary :- Summary(a.description);
    Ok(Article(Str(a.title), summary, Str(a.source), Str(a.url)))
  }

  /** A news section: its heading, then one block per article, or the placeholder. */
  function NewsSection(section: (string, seq<NewsRecord>)): Result<seq<Block>>
  {
    if section.1 == [] then Ok([Heading(section.0), Placeholder(NoArticles)])
    else
      var items :- Collected(ArticleBlock, section.1);
      Ok([Heading(section.0)] + items)
  }

  /** The blocks of the sections, one run after the other. */
  function Flatten(parts: seq<seq<Block>>): seq<Block>
  {
    if parts == [] then [] else Flatten(parts[..|parts| - 1]) + parts[|parts| - 1]
  }

  function NewsBlocks(news: seq<(string, seq<NewsRecord>)>): Result<seq<Block>>
  {
    var parts :- Collected(NewsSection, news);
    Ok(Flatten(parts))
  }

  function Scores(games: seq<Game>): (r: seq<Block>)
    ensures |r| == |games|
    ensures forall i | 0 <= i < |games| :: r[i] == Score(games[i])
  {
    if games == [] then [] else Scores(games[..|games| - 1]) + [Score(games[|games| - 1])]
  }

  function Matches(games: seq<Game>): (r: seq<Block>)
    ensures |r| == |games|
    ensures forall i | 0 <= i < |games| :: r[i] == Match(games[i])
  {
    if games == [] then [] else Matches(games[..|games| - 1]) + [Match(games[|games| - 1])]
  }

  lemma ScoresPush(games: seq<Game>, k: nat)
    requires k < |games|
    ensures Scores(games[..k + 1]) == Scores(games[..k]) + [Score(games[k])]
  {
    assert games[..k + 1][..k] == games[..k];
  }

  lemma MatchesPush(games: seq<Game>, k: nat)
    requires k < |games|
    ensures Matches(games[..k + 1]) == Matches(games[..k]) + [Match(games[k])]
  {
    assert games[..k + 1][..k] == games[..k];
  }

  /** The NBA section: its heading, then one block per game, or the placeholder. */
  function NbaBlocks(games: seq<Game>): seq<Block>
  {
    [Heading(NbaTitle)] + if games == [] then [Placeholder(NoGames)] else Scores(games)
  }

  lemma LeaguesPush(soccer: seq<(string, seq<Game>)>, l: nat)
    requires l < |soccer|
    ensures LeagueBlocks(soccer[..l + 1]) == LeagueBlocks(soccer[..l]) + LeagueSection(soccer[l].0, soccer[l].1)
  {
    assert soccer[..l + 1][..l] == soccer[..l];
  }

  /** One league under the soccer heading: its name, then one block per game, or the
      placeholder. */
  function LeagueSection(name: string, games: seq<Game>): seq<Block>
  {
    [League(name)] + if games == [] then [Placeholder(NoMatches)] else Matches(games)
  }

  function LeagueBlocks(soccer: seq<(string, seq<Game>)>): seq<Block>
  {
    if soccer == [] then []
    else LeagueBlocks(soccer[..|soccer| - 1]) + LeagueSection(soccer[|soccer| - 1].0, soccer[|soccer| - 1].1)
  }

  /** Everything between header and footer: the news sections in order, the NBA section,
      then the soccer heading and one section per league. */
  function Body(news: seq<(string, seq<NewsRecord>)>, nba: seq<Game>, soccer: seq<(string, seq<Game>)>)
    : Result<seq<Block>>
  {
    var top :- NewsBlocks(news);
    Ok(top + NbaBlocks(nba) + [Heading(SoccerTitle)] + LeagueBlocks(soccer))
  }

  /** The page the digest is, or the exception rendering raises. */
  function Digest(date: string, news: seq<(string, seq<NewsRecord>)>, nba: seq<Game>,
                  soccer: seq<(string, seq<Game>)>): Result<string>
  {
    var body :- Body(news, nba, soccer);
    Ok(Header(date) + Html(body) + Footer)
  }

  // ---------------------------------------------------------------------------
  // What the page promises

  /** The captions of the section-heading blocks among `blocks`, in order. */
  function Captions(blocks: seq<Block>): seq<string>
  {
    if blocks == [] then []
    else Captions(blocks[..|blocks| - 1]) +
         (match blocks[|blocks| - 1] case Heading(c) => [c] case _ => [])
  }

  /** The names of the league-heading blocks among `blocks`, in order. */
  function LeagueNames(blocks: seq<Block>): seq<string>
  {
    if blocks == [] then []
    else LeagueNames(blocks[..|blocks| - 1]) +
         (match blocks[|blocks| - 1] case League(n) => [n] case _ => [])
  }

  lemma {:induction false} HeadingsAppend(a: seq<Block>, b: seq<Block>)
    ensures Captions(a + b) == Captions(a) + Captions(b)
    ensures LeagueNames(a + b) == LeagueNames(a) + LeagueNames(b)
    decreases |b|
  {
    if b == [] {
      assert a + b == a;
    } else {
      var init := b[..|b| - 1];
      HeadingsAppend(a, init);
      assert (a + b)[..|a + b| - 1] == a + init;
      assert (a + b)[|a + b| - 1] == b[|b| - 1];
      var caption: seq<string> := match b[|b| - 1] case Heading(c) => [c] case _ => [];
      var name: seq<string> := match b[|b| - 1] case League(n) => [n] case _ => [];
      Associative(Captions(a), Captions(init), caption);
      Associative(LeagueNames(a), LeagueNames(init), name);
    }
  }

  /** Blocks that are neither kind of heading contribute no heading. */
  lemma {:induction false} NoHeadings(blocks: seq<Block>)
    requires forall i | 0 <= i < |blocks| :: !blocks[i].Heading? && !blocks[i].League?
    ensures Captions(blocks) == [] && LeagueNames(blocks) == []
  {
    if blocks != [] {
      NoHeadings(blocks[..|blocks| - 1]);
    }
  }

  /** Every description that can be sliced, i.e. that is a string or a list. */
  predicate Renderable(articles: seq<NewsRecord>)
  {
    forall i | 0 <= i < |articles| :: articles[i].description.JStr? || articles[i].description.JArr?
  }

  /** A news section renders exactly when every description is a string or a list. */
  lemma SectionRenders(section: (string, seq<NewsRecord>))
    ensures NewsSection(section).Ok? <==> Renderable(section.1)
  {
    CollectedSpec(ArticleBlock, section.1);
    forall i | 0 <= i < |section.1|
      ensures ArticleBlock(section.1[i]).Ok? <==>
        section.1[i].description.JStr? || section.1[i].description.JArr?
    {
    }
  }

  /** The captions of a single block. */
  lemma HeadingsOne(b: Block)
    ensures Captions([b]) == (if b.Heading? then [b.caption] else [])
    ensures LeagueNames([b]) == (if b.League? then [b.name] else [])
  {
    assert [b][..0] == [];
  }

  /** A heading followed by blocks without headings has that one caption. */
  lemma HeadedRun(caption: string, rest: seq<Block>)
    requires Captions(rest) == [] && LeagueNames(rest) == []
    ensures Captions([Heading(caption)] + rest) == [caption]
    ensures LeagueNames([Heading(caption)] + rest) == []
  {
    HeadingsOne(Heading(caption));
    HeadingsAppend([Heading(caption)], rest);
  }

  /** Article blocks carry no heading. */
  lemma ArticlesNoHeadings(articles: seq<NewsRecord>)
    requires Collected(ArticleBlock, articles).Ok?
    ensures Captions(Collected(ArticleBlock, articles).value) == []
    ensures LeagueNames(Collected(ArticleBlock, articles).value) == []
  {
    var items := Collected(ArticleBlock, articles).value;
    CollectedSpec(ArticleBlock, articles);
    assert forall i | 0 <= i < |items| :: items[i].Article?;
    NoHeadings(items);
  }

  /** A rendered news section is its heading followed by one article block per record, in
      order, or by the placeholder when there are no records; its only heading is its
      caption. */
  lemma SectionShape(section: (string, seq<NewsRecord>))
    ensures section.1 == [] ==>
      NewsSection(section) == Ok([Heading(section.0), Placeholder(NoArticles)])
    ensures NewsSection(section).Ok? && section.1 != [] ==>
      var blocks := NewsSection(section).value;
      && |blocks| == |section.1| + 1
      && blocks[0] == Heading(section.0)
      && forall i | 0 <= i < |section.1| :: ArticleBlock(section.1[i]) == Ok(blocks[i + 1])
    ensures NewsSection(section).Ok? ==> Captions(NewsSection(section).value) == [section.0]
    ensures NewsSection(section).Ok? ==> LeagueNames(NewsSection(section).value) == []
  {
    var caption, articles := section.0, section.1;
    if articles == [] {
      HeadingsOne(Placeholder(NoArticles));
      HeadedRun(caption, [Placeholder(NoArticles)]);
      assert [Heading(caption)] + [Placeholder(NoArticles)] == [Heading(caption), Placeholder(NoArticles)];
    } else if NewsSection(section).Ok? {
      var items := Collected(ArticleBlock, articles).value;
      var blocks := [Heading(caption)] + items;
      assert NewsSection(section) == Ok(blocks);
      CollectedSpec(ArticleBlock, articles);
      forall i | 0 <= i < |articles|
        ensures ArticleBlock(articles[i]) == Ok(blocks[i + 1])
      {
        assert blocks[i + 1] == items[i];
      }
      ArticlesNoHeadings(articles);
      HeadedRun(caption, items);
    }
  }

  /** The names of titled sections (news captions, league names), in order. */
  function Names<T>(sections: seq<(string, T)>): (r: seq<string>)
    ensures |r| == |sections| && forall i | 0 <= i < |sections| :: r[i] == sections[i].0
  {
    seq(|sections|, i requires 0 <= i < |sections| => sections[i].0)
  }

  lemma NamesPush<T>(sections: seq<(string, T)>)
    requires sections != []
    ensures Names(sections) == Names(sections[..|sections| - 1]) + [sections[|sections| - 1].0]
  {
  }

  lemma FlattenPush(parts: seq<seq<Block>>, p: seq<Block>)
    ensures Flatten(parts + [p]) == Flatten(parts) + p
  {
    assert (parts + [p])[..|parts|] == parts;
  }

  /** Sections that all rendered, flattened, carry the sections' captions in order. */
  lemma {:induction false} PartsHeadings(news: seq<(string, seq<NewsRecord>)>, parts: seq<seq<Block>>)
    requires Collected(NewsSection, news) == Ok(parts)
    ensures Captions(Flatten(parts)) == Names(news)
    ensures LeagueNames(Flatten(parts)) == []
  {
    if news == [] {
      assert parts == [];
    } else {
      var init := news[..|news| - 1];
      var last := news[|news| - 1];
      CollectedLast(NewsSection, news);
      var done := Collected(NewsSection, init).value;
      var section := NewsSection(last).value;
      assert parts == done + [section];
      PartsHeadings(init, done);
      SectionShape(last);
      FlattenPush(done, section);
      HeadingsAppend(Flatten(done), section);
      NamesPush(news);
    }
  }

  /** The news part has one section heading per section, with the sections' captions in their order,
      and no league heading. */
  lemma NewsHeadings(news: seq<(string, seq<NewsRecord>)>)
    ensures NewsBlocks(news).Ok? ==>
      Captions(NewsBlocks(news).value) == Names(news) &&
      LeagueNames(NewsBlocks(news).value) == []
  {
    if NewsBlocks(news).Ok? {
      PartsHeadings(news, Collected(NewsSection, news).value);
    }
  }

  /** One league's section has its name as its only heading. */
  lemma LeagueSectionHeadings(name: string, games: seq<Game>)
    ensures LeagueNames(LeagueSection(name, games)) == [name]
    ensures Captions(LeagueSection(name, games)) == []
  {
    var rest := if games == [] then [Placeholder(NoMatches)] else Matches(games);
    NoHeadings(rest);
    HeadingsOne(League(name));
    HeadingsAppend([League(name)], rest);
  }

  /** The league part has one league heading per league, in order, and no section heading. */
  lemma {:induction false} SoccerHeadings(soccer: seq<(string, seq<Game>)>)
    ensures LeagueNames(LeagueBlocks(soccer)) == Names(soccer)
    ensures Captions(LeagueBlocks(soccer)) == []
  {
    if soccer != [] {
      var init := soccer[..|soccer| - 1];
      var section := LeagueSection(soccer[|soccer| - 1].0, soccer[|soccer| - 1].1);
      SoccerHeadings(init);
      LeagueSectionHeadings(soccer[|soccer| - 1].0, soccer[|soccer| - 1].1);
      assert LeagueBlocks(soccer) == LeagueBlocks(init) + section;
      HeadingsAppend(LeagueBlocks(init), section);
      NamesPush(soccer);
    }
  }

  /** The NBA section has its one section heading and no league heading. */
  lemma NbaHeadings(games: seq<Game>)
    ensures Captions(NbaBlocks(games)) == [NbaTitle]
    ensures LeagueNames(NbaBlocks(games)) == []
  {
    var rest := if games == [] then [Placeholder(NoGames)] else Scores(games);
    NoHeadings(rest);
    HeadingsAppend([Heading(NbaTitle)], rest);
    assert [Heading(NbaTitle)][..0] == [];
  }

  /** The headings of a page body: the news part and the NBA part, which have no league
      headings, then a section heading `title`, then the league part, which has no section
      headings. */
  lemma PageHeadings(top: seq<Block>, mid: seq<Block>, title: string, leagues: seq<Block>)
    requires LeagueNames(top) == [] && LeagueNames(mid) == [] && Captions(leagues) == []
    ensures Captions(top + mid + [Heading(title)] + leagues) == Captions(top) + Captions(mid) + [title]
    ensures LeagueNames(top + mid + [Heading(title)] + leagues) == LeagueNames(leagues)
  {
    HeadingsOne(Heading(title));
    HeadingsAppend(top, mid);
    HeadingsAppend(top + mid, [Heading(title)]);
    HeadingsAppend(top + mid + [Heading(title)], leagues);
    assert Captions(top) + Captions(mid) + [title] + [] == Captions(top) + Captions(mid) + [title];
    assert [] + [] + [] + LeagueNames(leagues) == LeagueNames(leagues);
  }

  /** The page's section headings are the news captions in order, then the NBA and soccer
      titles; its league headings are the league names in order. No section is left out,
      whatever the adapters returned. */
  lemma DigestHeadings(news: seq<(string, seq<NewsRecord>)>, nba: seq<Game>,
                       soccer: seq<(string, seq<Game>)>)
    ensures Body(news, nba, soccer).Ok? ==>
      && Captions(Body(news, nba, soccer).value) == Names(news) + [NbaTitle, SoccerTitle]
      && LeagueNames(Body(news, nba, soccer).value) == Names(soccer)
  {
    if Body(news, nba, soccer).Ok? {
      var top := NewsBlocks(news).value;
      assert Body(news, nba, soccer).value == top + NbaBlocks(nba) + [Heading(SoccerTitle)] + LeagueBlocks(soccer);
      NewsHeadings(news);
      NbaHeadings(nba);
      SoccerHeadings(soccer);
      PageHeadings(top, NbaBlocks(nba), SoccerTitle, LeagueBlocks(soccer));
      assert Names(news) + [NbaTitle] + [SoccerTitle] == Names(news) + [NbaTitle, SoccerTitle];
    }
  }

  /** The digest renders exactly when every article of every section has a string or list
      description; a `null` description anywhere makes the whole page raise. */
  lemma DigestRenders(date: string, news: seq<(string, seq<NewsRecord>)>, nba: seq<Game>,
                      soccer: seq<(string, seq<Game>)>)
    ensures Digest(date, news, nba, soccer).Ok? <==>
      forall i | 0 <= i < |news| :: Renderable(news[i].1)
  {
    CollectedSpec(NewsSection, news);
    forall i | 0 <= i < |news|
      ensures NewsSection(news[i]).Ok? <==> Renderable(news[i].1)
    {
      SectionRenders(news[i]);
    }
  }

  // ---------------------------------------------------------------------------
  // The renderer: `html +=` block after block

  /** The markup of blocks that rendered, or the exception that stopped them. */
  function Rendered(blocks: Result<seq<Block>>): Result<string>
  {
    match blocks
    case Ok(bs) => Ok(Html(bs))
    case Err(e) => Err(e)
  }

  lemma ConcatOne<T>(f: T -> string, x: T)
    ensures Concat(f, [x]) == f(x)
  {
    assert [x][..0] == [];
    assert "" + f(x) == f(x);
  }

  lemma HtmlPush(blocks: seq<Block>, b: Block)
    ensures Html(blocks + [b]) == Html(blocks) + BlockHtml(b)
  {
    assert (blocks + [b])[..|blocks|] == blocks;
  }

  /** A section that came back empty is its heading line followed by its placeholder line,
      for a news section, the NBA section and a league alike. */
  lemma EmptySectionText(caption: string, name: string)
    ensures Rendered(NewsSection((caption, []))) ==
      Ok(("<h2>" + caption + "</h2>\n") + ("<p style='color: #999;'>" + NoArticles + "</p>\n"))
    ensures Html(NbaBlocks([])) ==
      ("<h2>" + NbaTitle + "</h2>\n") + ("<p style='color: #999;'>" + NoGames + "</p>\n")
    ensures Html(LeagueSection(name, [])) ==
      ("<h3>" + name + "</h3>\n") + ("<p style='color: #999;'>" + NoMatches + "</p>\n")
  {
    HeadingThenPlaceholder(Heading(caption), NoArticles);
    assert NbaBlocks([]) == [Heading(NbaTitle), Placeholder(NoGames)];
    HeadingThenPlaceholder(Heading(NbaTitle), NoGames);
    assert LeagueSection(name, []) == [League(name), Placeholder(NoMatches)];
    HeadingThenPlaceholder(League(name), NoMatches);
  }

  lemma HeadingThenPlaceholder(heading: Block, text: string)
    ensures Html([heading, Placeholder(text)]) == BlockHtml(heading) + BlockHtml(Placeholder(text))
  {
    assert [heading, Placeholder(text)] == [heading] + [Placeholder(text)];
    HtmlPush([heading], Placeholder(text));
    ConcatOne(BlockHtml, heading);
  }

  /** Lines news_digest_script.py:186-194: one article block after the other, until a
      summary raises. */
  method RenderArticles(articles: seq<NewsRecord>) returns (r: Result<string>)
    ensures r == Rendered(Collected(ArticleBlock, articles))
  {
    var html := "";
    ghost var items: seq<Block> := [];
    var j := 0;
    while j < |articles|
      invariant 0 <= j <= |articles|
      invariant Collected(ArticleBlock, articles[..j]) == Ok(items)
      invariant html == Html(items)
    {
      var block := ArticleBlock(articles[j]);
      assert articles[..j + 1][..j] == articles[..j];
      if block.Err? {
        CollectedStops(ArticleBlock, articles, j + 1);
        return Err(block.error);
      }
      HtmlPush(items, block.value);
      html := html + BlockHtml(block.value);
      items := items + [block.value];
      j := j + 1;
    }
    assert articles[..j] == articles;
    r := Ok(html);
  }

  /** Lines news_digest_script.py:183-196 for one section: its heading, then its articles
      or the placeholder. */
  method RenderSection(caption: string, articles: seq<NewsRecord>) returns (r: Result<string>)
    ensures r == Rendered(NewsSection((caption, articles)))
  {
    var html := BlockHtml(Heading(caption));
    ConcatOne(BlockHtml, Heading(caption));
    if articles == [] {
      HtmlPush([Heading(caption)], Placeholder(NoArticles));
      html := html + BlockHtml(Placeholder(NoArticles));
      assert [Heading(caption)] + [Placeholder(NoArticles)] == [Heading(caption), Placeholder(NoArticles)];
      return Ok(html);
    }
    var items := RenderArticles(articles);
    if items.Err? {
      return Err(items.error);
    }
    HtmlAppend([Heading(caption)], Collected(ArticleBlock, articles).value);
    r := Ok(html + items.value);
  }

  /** Lines news_digest_script.py:181-196: the news sections in order. */
  method RenderNews(news: seq<(string, seq<NewsRecord>)>) returns (r: Result<string>)
    ensures r == Rendered(NewsBlocks(news))
  {
    var html := "";
    ghost var parts: seq<seq<Block>> := [];
    var i := 0;
    while i < |news|
      invariant 0 <= i <= |news|
      invariant Collected(NewsSection, news[..i]) == Ok(parts)
      invariant html == Html(Flatten(parts))
    {
      var (caption, articles) := news[i];
      var section := RenderSection(caption, articles);
      assert news[i] == (caption, articles);
      assert news[..i + 1][..i] == news[..i];
      if section.Err? {
        CollectedStops(NewsSection, news, i + 1);
        return Err(section.error);
      }
      ghost var blocks := NewsSection(news[i]).value;
      HtmlAppend(Flatten(parts), blocks);
      assert (parts + [blocks])[..|parts|] == parts;
      assert Flatten(parts + [blocks]) == Flatten(parts) + blocks;
      html := html + section.value;
      parts := parts + [blocks];
      i := i + 1;
    }
    assert news[..i] == news;
    r := Ok(html);
  }

  /** Lines news_digest_script.py:198-211: the NBA heading, then a score block per game or
      the placeholder. */
  method RenderNba(games: seq<Game>) returns (html: string)
    ensures html == Html(NbaBlocks(games))
  {
    html := BlockHtml(Heading(NbaTitle));
    ConcatOne(BlockHtml, Heading(NbaTitle));
    if games == [] {
      HtmlPush([Heading(NbaTitle)], Placeholder(NoGames));
      html := html + BlockHtml(Placeholder(NoGames));
      assert NbaBlocks(games) == [Heading(NbaTitle)] + [Placeholder(NoGames)];
      return;
    }
    ghost var blocks := [Heading(NbaTitle)];
    var k := 0;
    assert blocks == [Heading(NbaTitle)] + Scores(games[..k]);
    while k < |games|
      invariant 0 <= k <= |games|
      invariant blocks == [Heading(NbaTitle)] + Scores(games[..k])
      invariant html == Html(blocks)
    {
      HtmlPush(blocks, Score(games[k]));
      ScoresPush(games, k);
      Associative([Heading(NbaTitle)], Scores(games[..k]), [Score(games[k])]);
      html := html + BlockHtml(Score(games[k]));
      blocks := blocks + [Score(games[k])];
      k := k + 1;
    }
    assert games[..k] == games;
    assert NbaBlocks(games) == blocks;
  }

  /** Lines news_digest_script.py:225-236 for one league. */
  method RenderLeague(name: string, games: seq<Game>) returns (html: string)
    ensures html == Html(LeagueSection(name, games))
  {
    html := BlockHtml(League(name));
    ConcatOne(BlockHtml, League(name));
    if games == [] {
      HtmlPush([League(name)], Placeholder(NoMatches));
      html := html + BlockHtml(Placeholder(NoMatches));
      assert LeagueSection(name, games) == [League(name)] + [Placeholder(NoMatches)];
      return;
    }
    ghost var blocks := [League(name)];
    var k := 0;
    assert blocks == [League(name)] + Matches(games[..k]);
    while k < |games|
      invariant 0 <= k <= |games|
      invariant blocks == [League(name)] + Matches(games[..k])
      invariant html == Html(blocks)
    {
      HtmlPush(blocks, Match(games[k]));
      MatchesPush(games, k);
      Associative([League(name)], Matches(games[..k]), [Match(games[k])]);
      html := html + BlockHtml(Match(games[k]));
      blocks := blocks + [Match(games[k])];
      k := k + 1;
    }
    assert games[..k] == games;
    assert LeagueSection(name, games) == blocks;
  }

  /** Lines news_digest_script.py:213-236: the soccer heading, then each league in order. */
  method RenderSoccer(soccer: seq<(string, seq<Game>)>) returns (html: string)
    ensures html == Html([Heading(SoccerTitle)] + LeagueBlocks(soccer))
  {
    html := BlockHtml(Heading(SoccerTitle));
    ConcatOne(BlockHtml, Heading(SoccerTitle));
    ghost var blocks := [Heading(SoccerTitle)];
    var l := 0;
    assert blocks == [Heading(SoccerTitle)] + LeagueBlocks(soccer[..l]);
    while l < |soccer|
      invariant 0 <= l <= |soccer|
      invariant blocks == [Heading(SoccerTitle)] + LeagueBlocks(soccer[..l])
      invariant html == Html(blocks)
    {
      var (name, games) := soccer[l];
      var league := RenderLeague(name, games);
      HtmlAppend(blocks, LeagueSection(name, games));
      LeaguesPush(soccer, l);
      Associative([Heading(SoccerTitle)], LeagueBlocks(soccer[..l]), LeagueSection(name, games));
      html := html + league;
      blocks := blocks + LeagueSection(name, games);
      l := l + 1;
    }
    assert soccer[..l] == soccer;
  }

  /** `generate_html_digest` (news_digest_script.py:141-246) on the adapters' results:
      the header, the news sections, the NBA section, the soccer sections and the footer,
      or the exception a news summary raises. */
  method RenderDigest(date: string, news: seq<(string, seq<NewsRecord>)>, nba: seq<Game>,
                      soccer: seq<(string, seq<Game>)>) returns (r: Result<string>)
    ensures r == Digest(date, news, nba, soccer)
  {
    var html := Header(date);
    var top := RenderNews(news);
    if top.Err? {
      return Err(top.error);
    }
    html := html + top.value;
    var scores := RenderNba(nba);
    html := html + scores;
    var matches := RenderSoccer(soccer);
    html := html + matches;
    html := html + Footer;
    ghost var blocks := NewsBlocks(news).value;
    ghost var tail := [Heading(SoccerTitle)] + LeagueBlocks(soccer);
    HtmlAppend(blocks, NbaBlocks(nba));
    HtmlAppend(blocks + NbaBlocks(nba), tail);
    Associative(blocks + NbaBlocks(nba), [Heading(SoccerTitle)], LeagueBlocks(soccer));
    Associative(Header(date), Html(blocks), Html(NbaBlocks(nba)));
    Associative(Header(date), Html(blocks) + Html(NbaBlocks(nba)), Html(tail));
    r := Ok(html);
  }
}
