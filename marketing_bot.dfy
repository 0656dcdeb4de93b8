/** The marketing bot: search the news feed for each configured keyword, keep the first three
    stories of each, have the model write a trend report from them, strip code fences from the
    answer and post it. The feed, the model and the post are inputs; the status updates the job
    writes are its observable result. */
module Marketing {
  import opened Wrappers
  import opened Calls
  import opened Text
  import opened Status

  // ---------------------------------------------------------------------------
  // `fetch_news`

  /** One feed entry; an attribute the entry lacks is `None`, and reading it raises. */
  datatype Entry = Entry(title: Option<string>, link: Option<string>, published: Option<string>,
                         source: Option<map<string, string>>)

  datatype NewsItem = NewsItem(title: string, link: string, published: string, source: string)

  /** The item `fetch_news` builds from one entry, or `None` when reading an attribute raises. */
  function ItemOf(e: Entry): Option<NewsItem> {
    if e.title.Some? && e.link.Some? && e.published.Some? && e.source.Some? then
      Some(NewsItem(e.title.value, e.link.value, e.published.value,
                    if "title" in e.source.value then e.source.value["title"] else "Unknown"))
    else None
  }

  /** The items of a run of entries, or `None` as soon as one of them raises. */
  function ItemsOf(entries: seq<Entry>): (r: Option<seq<NewsItem>>)
    ensures r.Some? <==> forall k :: 0 <= k < |entries| ==> ItemOf(entries[k]).Some?
    ensures r.Some? ==> |r.value| == |entries| && forall k :: 0 <= k < |entries| ==> ItemOf(entries[k]) == Some(r.value[k])
  {
    if |entries| == 0 then Some([])
    else
      var init := entries[..|entries| - 1];
      var front := ItemsOf(init);
      var last := ItemOf(entries[|entries| - 1]);
      assert forall k :: 0 <= k < |init| ==> init[k] == entries[k];
      if front.Some? && last.Some? then Some(front.value + [last.value]) else None
  }

  const PerKeyword: nat := 3

  /** What `fetch_news` returns for a parsed feed (`None`: parsing raised): the items of the first
      three entries, or nothing at all when any of them raises. */
  function News(feed: Option<seq<Entry>>): (r: seq<NewsItem>)
    ensures |r| <= PerKeyword
    ensures feed.None? ==> r == []
    ensures feed.Some? && r != [] ==> |r| == Min(PerKeyword, |feed.value|)
    ensures feed.Some? && r != [] ==> forall k :: 0 <= k < |r| && k < |feed.value| ==> ItemOf(feed.value[k]) == Some(r[k])
    ensures feed.Some? && (forall k :: 0 <= k < Min(PerKeyword, |feed.value|) ==> ItemOf(feed.value[k]).Some?) ==>
      |r| == Min(PerKeyword, |feed.value|)
  {
    match feed
    case None => []
    case Some(entries) => ItemsOf(entries[..Min(PerKeyword, |entries|)]).GetOr([])
  }

  /** `fetch_news(keyword)`, with `feedOf` answering for the Google News search of a keyword. */
  method FetchNews(keyword: string, feedOf: string -> Option<seq<Entry>>) returns (items: seq<NewsItem>)
    ensures items == News(feedOf(keyword))
  {
    var feed := feedOf(keyword);
    if feed.None? {
      return [];
    }
    var entries := feed.value[..Min(PerKeyword, |feed.value|)];
    items := [];
    var i := 0;
    while i < |entries|
      invariant 0 <= i <= |entries|
      invariant ItemsOf(entries[..i]) == Some(items)
    {
      var x := ItemOf(entries[i]);
      if x.None? {
        return [];
      }
      assert entries[..i + 1][..i] == entries[..i];
      items := items + [x.value];
      i := i + 1;
    }
    assert entries[..i] == entries;
  }

  // ---------------------------------------------------------------------------
  // The `all_news` dictionary and the collection loop

  /** One entry of `all_news`, a dictionary kept in insertion order. */
  datatype KeywordNews = KeywordNews(keyword: string, items: seq<NewsItem>)

  function Keys(news: seq<KeywordNews>): (r: seq<string>)
    ensures |r| == |news| && forall k :: 0 <= k < |news| ==> r[k] == news[k].keyword
  {
    if |news| == 0 then [] else [news[0].keyword] + Keys(news[1..])
  }

  /** `all_news[kw] = items`: an existing key keeps its place and takes the new items, a new key
      goes at the end. */
  function Put(news: seq<KeywordNews>, kw: string, items: seq<NewsItem>): (r: seq<KeywordNews>)
    ensures kw in Keys(news) ==> Keys(r) == Keys(news)
    ensures kw !in Keys(news) ==> r == news + [KeywordNews(kw, items)]
  {
    if |news| == 0 then [KeywordNews(kw, items)]
    else if news[0].keyword == kw then [KeywordNews(kw, items)] + news[1..]
    else
      assert Keys(news) == [news[0].keyword] + Keys(news[1..]);
      [news[0]] + Put(news[1..], kw, items)
  }

  /** After the assignment the key holds the new items, and every other entry was there before. */
  lemma {:induction false} PutMembers(news: seq<KeywordNews>, kw: string, items: seq<NewsItem>)
    ensures KeywordNews(kw, items) in Put(news, kw, items)
    ensures forall g :: g in Put(news, kw, items) ==> g in news || g == KeywordNews(kw, items)
  {
    if |news| > 0 && news[0].keyword != kw {
      PutMembers(news[1..], kw, items);
      assert news == [news[0]] + news[1..];
    }
  }

  datatype Collection = Collection(news: seq<KeywordNews>, total: nat)

  /** The loop over the keywords: a keyword whose search found something is stored, and its
      count added to the total. */
  function Collect(keywords: seq<string>, feedOf: string -> Option<seq<Entry>>): Collection {
    if |keywords| == 0 then Collection([], 0)
    else Gather(Collect(keywords[..|keywords| - 1], feedOf), keywords[|keywords| - 1], News(feedOf(keywords[|keywords| - 1])))
  }

  /** One keyword's turn: found items are stored under it and counted. */
  function Gather(c: Collection, kw: string, items: seq<NewsItem>): Collection {
    if items != [] then Collection(Put(c.news, kw, items), c.total + |items|) else c
  }

  /** Every stored entry holds what the search for its keyword found, and that is not empty. */
  lemma {:induction false} CollectStored(keywords: seq<string>, feedOf: string -> Option<seq<Entry>>)
    ensures forall g :: g in Collect(keywords, feedOf).news ==> g.items == News(feedOf(g.keyword)) && g.items != []
  {
    if |keywords| > 0 {
      var front := keywords[..|keywords| - 1];
      CollectStored(front, feedOf);
      var last := keywords[|keywords| - 1];
      PutMembers(Collect(front, feedOf).news, last, News(feedOf(last)));
    }
  }

  /** A keyword is stored exactly when it was searched and the search found something. */
  lemma {:induction false} CollectKeys(keywords: seq<string>, feedOf: string -> Option<seq<Entry>>, kw: string)
    ensures kw in Keys(Collect(keywords, feedOf).news) <==> kw in keywords && News(feedOf(kw)) != []
  {
    if |keywords| > 0 {
      var front := keywords[..|keywords| - 1];
      CollectKeys(front, feedOf, kw);
      var c := Collect(front, feedOf);
      var last := keywords[|keywords| - 1];
      assert keywords == front + [last];
      assert kw in keywords <==> kw in front || kw == last;
      var items := News(feedOf(last));
      if items == [] {
        assert Collect(keywords, feedOf) == c;
      } else {
        var r := Put(c.news, last, items);
        assert Collect(keywords, feedOf).news == r;
        PutKeyed(c.news, last, items, kw);
      }
    }
  }

  /** The keys after `all_news[key] = items`: the old ones and `key`. */
  lemma PutKeyed(news: seq<KeywordNews>, key: string, items: seq<NewsItem>, kw: string)
    ensures kw in Keys(Put(news, key, items)) <==> kw in Keys(news) || kw == key
  {
    var r := Put(news, key, items);
    if key !in Keys(news) {
      assert Keys(r) == Keys(news) + [key];
    }
  }

  /** The total is zero exactly when nothing was stored. */
  lemma {:induction false} CollectNothing(keywords: seq<string>, feedOf: string -> Option<seq<Entry>>)
    ensures Collect(keywords, feedOf).total == 0 <==> Collect(keywords, feedOf).news == []
  {
    if |keywords| > 0 {
      CollectNothing(keywords[..|keywords| - 1], feedOf);
    }
  }

  /** The number of stories held in the dictionary. */
  function StoryCount(news: seq<KeywordNews>): nat {
    if |news| == 0 then 0 else StoryCount(news[..|news| - 1]) + |news[|news| - 1].items|
  }

  /** With no keyword configured twice, the total is the number of stories in the dictionary
      (a repeated keyword is counted once per search but stored once). */
  lemma {:induction false} CollectTotal(keywords: seq<string>, feedOf: string -> Option<seq<Entry>>)
    requires Distinct(keywords)
    ensures Collect(keywords, feedOf).total == StoryCount(Collect(keywords, feedOf).news)
  {
    if |keywords| > 0 {
      var front := keywords[..|keywords| - 1];
      var last := keywords[|keywords| - 1];
      assert Distinct(front);
      CollectTotal(front, feedOf);
      var c := Collect(front, feedOf);
      if News(feedOf(last)) != [] {
        assert last !in front by {
          forall k | 0 <= k < |front| ensures front[k] != last {
            assert keywords[k] == front[k];
          }
        }
        CollectKeys(front, feedOf, last);
        var r := c.news + [KeywordNews(last, News(feedOf(last)))];
        assert r[..|r| - 1] == c.news;
      }
    }
  }

  /** Progress while searching keyword `i` of `n`. */
  function SearchProgress(i: nat, n: nat): real
    requires i < n
  {
    0.1 + ((i as real) / (n as real)) * 0.2
  }

  /** The search progress stays within [0.1, 0.3) and grows with the keyword. */
  lemma SearchProgressBounds(i: nat, n: nat)
    requires i < n
    ensures 0.1 <= SearchProgress(i, n) < 0.3
    ensures i + 1 < n ==> SearchProgress(i, n) < SearchProgress(i + 1, n)
  {
    var q := (i as real) / (n as real);
    assert 0.0 <= q < 1.0 by {
      assert q * (n as real) == i as real;
    }
    if i + 1 < n {
      assert ((i + 1) as real) / (n as real) == q + 1.0 / (n as real);
    }
  }

  /** The update written before searching keyword `i`. */
  function SearchUpdate(keywords: seq<string>, i: nat): Update
    requires i < |keywords|
  {
    Update("running", "[SEARCH] '" + keywords[i] + "' 검색 중...", SearchProgress(i, |keywords|))
  }

  function SearchUpdates(keywords: seq<string>): (r: seq<Update>)
    ensures |r| == |keywords| && forall i :: 0 <= i < |keywords| ==> r[i] == SearchUpdate(keywords, i)
  {
    seq(|keywords|, i requires 0 <= i < |keywords| => SearchUpdate(keywords, i))
  }

  /** `if items: all_news[kw] = items; total_count += len(items)`. */
  method Store(news: seq<KeywordNews>, total: nat, kw: string, items: seq<NewsItem>)
    returns (news': seq<KeywordNews>, total': nat)
    ensures Collection(news', total') == Gather(Collection(news, total), kw, items)
  {
    news', total' := news, total;
    if items != [] {
      news' := Put(news, kw, items);
      total' := total + |items|;
    }
  }

  /** The collection loop of `run_marketing_job`. */
  method CollectNews(keywords: seq<string>, feedOf: string -> Option<seq<Entry>>)
    returns (news: seq<KeywordNews>, total: nat, updates: seq<Update>)
    ensures Collection(news, total) == Collect(keywords, feedOf)
    ensures updates == SearchUpdates(keywords)
  {
    news, total, updates := [], 0, [];
    for i := 0 to |keywords|
      invariant Collection(news, total) == Collect(keywords[..i], feedOf)
      invariant updates == SearchUpdates(keywords)[..i]
    {
      SearchUpdatesStep(keywords, i);
      updates := updates + [SearchUpdate(keywords, i)];
      assert keywords[..i + 1][..i] == keywords[..i];
      news, total := SearchOne(keywords[..i + 1], feedOf, news, total);
    }
    assert keywords[..|keywords|] == keywords;
    assert SearchUpdates(keywords)[..|keywords|] == SearchUpdates(keywords);
  }

  /** The search for the last of `keywords`, once the ones before it are collected. */
  method SearchOne(keywords: seq<string>, feedOf: string -> Option<seq<Entry>>, news: seq<KeywordNews>, total: nat)
    returns (news': seq<KeywordNews>, total': nat)
    requires |keywords| > 0
    requires Collection(news, total) == Collect(keywords[..|keywords| - 1], feedOf)
    ensures Collection(news', total') == Collect(keywords, feedOf)
  {
    var kw := keywords[|keywords| - 1];
    var items := FetchNews(kw, feedOf);
    news', total' := Store(news, total, kw, items);
  }

  lemma SearchUpdatesStep(keywords: seq<string>, i: nat)
    requires i < |keywords|
    ensures SearchUpdates(keywords)[..i + 1] == SearchUpdates(keywords)[..i] + [SearchUpdate(keywords, i)]
  {
  }


  // ---------------------------------------------------------------------------
  // `summarize_news`

  /** The model: no API key, or a model whose answer to the prompt built around the news text is
      given by `generate`. */
  datatype Model = NoKey | Gemini(generate: string -> Call<string>)

  const NoKeyHtml: string := "<h3>AI 요약 실패 (API 키 없음)</h3><p>환경변수를 확인해주세요.</p>"

  function Header(kw: string): string {
    "\n[키워드: " + kw + "]\n"
  }

  function ItemLine(item: NewsItem): string {
    "- " + item.title + " (" + item.source + ")\n"
  }

  function Lines(items: seq<NewsItem>): string {
    if |items| == 0 then "" else Lines(items[..|items| - 1]) + ItemLine(items[|items| - 1])
  }

  function Section(g: KeywordNews): string {
    Header(g.keyword) + Lines(g.items)
  }

  /** The news text of the prompt: one section per keyword, in dictionary order. */
  function NewsText(news: seq<KeywordNews>): string {
    if |news| == 0 then "" else NewsText(news[..|news| - 1]) + Section(news[|news| - 1])
  }

  /** Every keyword's section, its header directly followed by its story lines, is in the text. */
  lemma {:induction false} SectionsInNewsText(news: seq<KeywordNews>, k: nat)
    requires k < |news|
    ensures Contains(NewsText(news), Section(news[k]))
  {
    var front := news[..|news| - 1];
    if k == |news| - 1 {
      ContainsInfix(NewsText(front), Section(news[k]), "");
      assert NewsText(front) + Section(news[k]) + "" == NewsText(news);
    } else {
      assert front[k] == news[k];
      SectionsInNewsText(front, k);
      ContainsWidened(NewsText(front), Section(news[k]), "", Section(news[|news| - 1]));
      assert "" + NewsText(front) == NewsText(front);
    }
  }

  /** Every story has its line among the lines of its keyword. */
  lemma {:induction false} LinesHoldEachItem(items: seq<NewsItem>, j: nat)
    requires j < |items|
    ensures Contains(Lines(items), ItemLine(items[j]))
  {
    var front := items[..|items| - 1];
    var last := ItemLine(items[|items| - 1]);
    var line := ItemLine(items[j]);
    assert Lines(items) == Lines(front) + last;
    if j == |items| - 1 {
      ContainsInfix(Lines(front), line, "");
      assert Lines(front) + line + "" == Lines(items);
    } else {
      assert front[j] == items[j];
      LinesHoldEachItem(front, j);
      ContainsWidened(Lines(front), line, "", last);
      assert "" + Lines(front) + last == Lines(items);
    }
  }

  function ModelErrorHtml(message: string): string {
    "<h3>AI 분석 중 오류가 발생했습니다.</h3><p>" + message + "</p>"
  }

  /** The HTML `summarize_news` returns. */
  function Summary(news: seq<KeywordNews>, model: Model): (r: string)
    ensures model.NoKey? ==> r == NoKeyHtml
    ensures model.Gemini? && model.generate(NewsText(news)).Returns? ==> r == model.generate(NewsText(news)).value
    ensures model.Gemini? && model.generate(NewsText(news)).Raises? ==> r == ModelErrorHtml(model.generate(NewsText(news)).message)
  {
    match model
    case NoKey => NoKeyHtml
    case Gemini(generate) =>
      match generate(NewsText(news))
      case Returns(text) => text
      case Raises(message) => ModelErrorHtml(message)
  }

  /** `summarize_news(all_news)`: the HTML, and the news text the model was asked about (none
      without a key). */
  method SummarizeNews(news: seq<KeywordNews>, model: Model) returns (html: string, asked: Option<string>)
    ensures html == Summary(news, model)
    ensures model.NoKey? <==> asked.None?
    ensures asked.Some? ==> asked.value == NewsText(news)
  {
    if model.NoKey? {
      return NoKeyHtml, None;
    }
    var text := "";
    for i := 0 to |news|
      invariant text == NewsText(news[..i])
    {
      text := AppendSection(text, news[i]);
      assert news[..i + 1][..i] == news[..i];
    }
    assert news[..|news|] == news;
    asked := Some(text);
    match model.generate(text) {
      case Returns(t) => html := t;
      case Raises(message) => html := ModelErrorHtml(message);
    }
  }

  /** The header of one keyword and then one line per story. */
  method AppendSection(text: string, g: KeywordNews) returns (r: string)
    ensures r == text + Section(g)
  {
    var lines := "";
    for j := 0 to |g.items|
      invariant lines == Lines(g.items[..j])
    {
      lines := lines + ItemLine(g.items[j]);
      assert g.items[..j + 1][..j] == g.items[..j];
    }
    assert g.items[..|g.items|] == g.items;
    r := text + (Header(g.keyword) + lines);
  }

  // ---------------------------------------------------------------------------
  // Cleaning and posting

  /** `html.replace("```html", "").replace("```", "")`. */
  function CleanHtml(html: string): string {
    Replace(Replace(html, "```html", ""), "```", "")
  }

  const Fence: string := "```"

  /** The cleaned HTML holds no code fence. */
  lemma CleanHtmlNoFence(html: string)
    ensures !Contains(CleanHtml(html), Fence)
  {
    NoFenceAfterRemoval(Replace(html, "```html", ""));
  }

  /** Two backticks at the front. */
  predicate TwoTicks(t: string) {
    |t| >= 2 && t[0] == '`' && t[1] == '`'
  }

  /** Removing every fence left to right leaves none: what remains of a run of backticks is
      shorter than a fence, and runs are never joined. */
  lemma {:induction false} NoFenceAfterRemoval(s: string)
    ensures !Contains(Replace(s, Fence, ""), Fence)
    decreases |s|
  {
    assert Fence == ['`', '`', '`'];
    if |s| < 3 {
    } else if s[..3] == Fence {
      NoFenceAfterRemoval(s[3..]);
      var r3 := Replace(s[3..], Fence, "");
      assert Replace(s, Fence, "") == "" + r3;
      assert "" + r3 == r3;
    } else {
      var rest := Replace(s[1..], Fence, "");
      NoFenceAfterRemoval(s[1..]);
      assert Replace(s, Fence, "") == [s[0]] + rest;
      assert s[..3] == [s[0], s[1], s[2]];
      assert s[0] == '`' ==> !TwoTicks(s[1..]);
      NoDoubleTickAfterRemoval(s[1..]);
      PrependNoFence(s[0], rest);
    }
  }

  /** A fence removal never puts two backticks at the front of a string that did not start so. */
  lemma NoDoubleTickAfterRemoval(t: string)
    ensures !TwoTicks(t) ==> !TwoTicks(Replace(t, Fence, ""))
  {
    assert Fence == ['`', '`', '`'];
    if |t| >= 3 && !TwoTicks(t) {
      assert t[..3] == [t[0], t[1], t[2]];
      var rest := Replace(t[1..], Fence, "");
      assert Replace(t, Fence, "") == [t[0]] + rest;
      if t[0] == '`' {
        var t1 := t[1..];
        if |t1| >= 3 {
          assert t1[..3][0] == t1[0];
          assert Replace(t1, Fence, "") == [t1[0]] + Replace(t1[1..], Fence, "");
        }
      }
    }
  }

  /** Putting one character in front creates no fence unless it is a backtick before two more. */
  lemma PrependNoFence(c: char, t: string)
    requires !Contains(t, Fence)
    requires c == '`' ==> !TwoTicks(t)
    ensures !Contains([c] + t, Fence)
  {
    assert Fence == ['`', '`', '`'];
    var u := [c] + t;
    forall i | 0 <= i <= |u| - 3 ensures !OccursAt(u, Fence, i) {
      if i == 0 {
        assert u[..3] == [c, t[0], t[1]];
      } else {
        assert u[i..i + 3] == t[i - 1..i + 2];
        assert !OccursAt(t, Fence, i - 1);
      }
    }
  }

  const TitlePrefix: string := "📢 [트렌드] Daily Tech & AI 이슈 브리핑 ("

  function Title(today: string): string {
    TitlePrefix + today + ")"
  }

  const Greeting: string := "\n    <p>안녕하세요. <strong>MBLB 자동화 봇</strong>입니다.<br>\n    "
  const GreetingRest: string :=
    " 기준, 주요 IT 플랫폼(구글, 메타, 네이버 등)과 생성형 AI 시장의 핵심 흐름을 정리해드립니다.</p>\n    <hr>\n    "

  /** The fixed greeting before the report, naming the date. */
  function ContentHead(today: string): string {
    Greeting + today + GreetingRest
  }

  /** The fixed footer after the report. */
  const ContentTail: string :=
    "\n    <hr>\n    <p style=\"font-size:0.8em; color:gray; text-align:center;\">\n"
    + "        ※ 본 리포트는 실시간 뉴스를 바탕으로 AI가 자동 분석/작성하였습니다.<br>\n"
    + "        Powered by Google Gemini & Python Automation\n    </p>\n    "

  function Content(today: string, cleanHtml: string): string {
    ContentHead(today) + cleanHtml + ContentTail
  }

  // ---------------------------------------------------------------------------
  // `run_marketing_job`

  const StartUpdate: Update := Update("running", "[START] 뉴스 키워드 수집 시작...", 0.1)
  const NoNewsUpdate: Update := Update("idle", "[INFO] 수집된 뉴스가 없어 종료합니다.", 0.0)
  const PostingUpdate: Update := Update("running", "[POST] 워드프레스 발행 중...", 0.8)
  const FailedUpdate: Update := Update("error", "[ERROR] 발행 실패", 0.0)

  function AnalysingUpdate(total: nat): Update {
    Update("running", "[AI] " + NatToString(total) + "건의 뉴스 분석 및 요약 중...", 0.4)
  }

  function DoneUpdate(today: string): Update {
    Update("idle", "[DONE] 발행 완료 (" + today + ")", 1.0)
  }

  /** What one run leaves behind: the status updates in order, the news text the model was asked
      about, the article (title, body) handed to `post_article`, and whether the job ended with the
      error `post_article` raises without WordPress credentials. */
  datatype Run = Run(updates: seq<Update>, asked: Option<string>, article: Option<(string, string)>, raised: bool)

  /** What the job does after the search, given what it collected. */
  function Finish(c: Collection, model: Model, post: (string, string) -> Call<bool>, today: string): Run {
    if c.total == 0 then Run(Closing(0, Returns(false), today), None, None, false)
    else
      var article := Article(c.news, model, today);
      var asked := if model.NoKey? then None else Some(NewsText(c.news));
      var posted := post(article.0, article.1);
      Run(Closing(c.total, posted, today), asked, Some(article), posted.Raises?)
  }

  /** The post's title and body for the collected news. */
  function Article(news: seq<KeywordNews>, model: Model, today: string): (string, string) {
    (Title(today), Content(today, CleanHtml(Summary(news, model))))
  }

  /** The updates after the search, for `total` stories and what `post_article` did: returned a
      link, returned `None`, or raised, which leaves the "[POST]" status in place. */
  function Closing(total: nat, posted: Call<bool>, today: string): seq<Update> {
    if total == 0 then [NoNewsUpdate]
    else
      [AnalysingUpdate(total), PostingUpdate] +
      match posted
      case Returns(link) => [if link then DoneUpdate(today) else FailedUpdate]
      case Raises(_) => []
  }

  /** The run for the configured keywords, with `post` telling whether `post_article` returned a
      link or raised, and `today` the date: the start, one update per keyword, then the rest. */
  function MarketingRun(keywords: seq<string>, feedOf: string -> Option<seq<Entry>>, model: Model,
                        post: (string, string) -> Call<bool>, today: string): Run
  {
    var f := Finish(Collect(keywords, feedOf), model, post, today);
    Run([StartUpdate] + SearchUpdates(keywords) + f.updates, f.asked, f.article, f.raised)
  }

  /** The part of `run_marketing_job` after the search. */
  method Conclude(news: seq<KeywordNews>, total: nat, model: Model, post: (string, string) -> Call<bool>, today: string)
    returns (f: Run)
    ensures f == Finish(Collection(news, total), model, post, today)
  {
    if total == 0 {
      return Run(Closing(0, Returns(false), today), None, None, false);
    }
    var html, asked := SummarizeNews(news, model);
    var title := Title(today);
    var content := Content(today, CleanHtml(html));
    assert (title, content) == Article(news, model, today);
    var posted := post(title, content);
    f := Run(Closing(total, posted, today), asked, Some((title, content)), posted.Raises?);
  }

  /** `run_marketing_job()`. */
  method RunMarketingJob(keywords: seq<string>, feedOf: string -> Option<seq<Entry>>, model: Model,
                         post: (string, string) -> Call<bool>, today: string) returns (run: Run)
    ensures run == MarketingRun(keywords, feedOf, model, post, today)
  {
    var news, total, searched := CollectNews(keywords, feedOf);
    var f := Conclude(news, total, model, post, today);
    run := Run([StartUpdate] + searched + f.updates, f.asked, f.article, f.raised);
  }

  /** How a run ends: without news it goes idle at 0.0 and neither asks the model nor posts;
      otherwise it posts, going idle at 1.0 when the post goes through and to error at 0.0 when
      it does not; when the post raises, the job ends with the error and the last status is the
      running "[POST]" one. */
  lemma RunOutcome(keywords: seq<string>, feedOf: string -> Option<seq<Entry>>, model: Model,
                   post: (string, string) -> Call<bool>, today: string)
    ensures var r := MarketingRun(keywords, feedOf, model, post, today);
      |r.updates| >= 2 && r.updates[0] == StartUpdate &&
      (Collect(keywords, feedOf).news == [] ==>
        r.asked.None? && r.article.None? && !r.raised && r.updates[|r.updates| - 1] == NoNewsUpdate) &&
      (Collect(keywords, feedOf).news != [] ==> (r.article.Some? &&
        (r.raised <==> post(r.article.value.0, r.article.value.1).Raises?) &&
        (post(r.article.value.0, r.article.value.1) == Returns(true) ==> r.updates[|r.updates| - 1] == DoneUpdate(today)) &&
        (post(r.article.value.0, r.article.value.1) == Returns(false) ==> r.updates[|r.updates| - 1] == FailedUpdate) &&
        (post(r.article.value.0, r.article.value.1).Raises? ==> r.updates[|r.updates| - 1] == PostingUpdate)))
  {
    CollectNothing(keywords, feedOf);
  }

  /** A posted report has the cleaned summary inside its body, and that summary holds no fence. */
  lemma PostedReportUnfenced(keywords: seq<string>, feedOf: string -> Option<seq<Entry>>, model: Model,
                             post: (string, string) -> Call<bool>, today: string)
    ensures var r := MarketingRun(keywords, feedOf, model, post, today);
      r.article.Some? ==> exists clean :: r.article.value.1 == ContentHead(today) + clean + ContentTail && !Contains(clean, Fence)
  {
    var c := Collect(keywords, feedOf);
    if c.total != 0 {
      CleanHtmlNoFence(Summary(c.news, model));
    }
  }

  /** Every update in `us` has its progress within [0, 1]. */
  predicate ProgressInRange(us: seq<Update>) {
    forall i :: 0 <= i < |us| ==> 0.0 <= us[i].progress <= 1.0
  }

  /** The updates after the search have their progress within [0, 1]. */
  lemma FinishProgress(c: Collection, model: Model, post: (string, string) -> Call<bool>, today: string)
    ensures ProgressInRange(Finish(c, model, post, today).updates)
  {
    var a := Article(c.news, model, today);
    var posted := if c.total > 0 then post(a.0, a.1) else Returns(false);
    assert Finish(c, model, post, today).updates == Closing(c.total, posted, today);
    ClosingInRange(c.total, posted, today);
  }

  lemma ClosingInRange(total: nat, posted: Call<bool>, today: string)
    ensures ProgressInRange(Closing(total, posted, today))
  {
    var us := Closing(total, posted, today);
    if total > 0 && posted.Returns? {
      assert us[2].progress == 1.0 || us[2].progress == 0.0;
    }
  }

  /** Every update the run writes has its progress within [0, 1]. */
  lemma RunProgressInRange(keywords: seq<string>, feedOf: string -> Option<seq<Entry>>, model: Model,
                           post: (string, string) -> Call<bool>, today: string)
    ensures ProgressInRange(MarketingRun(keywords, feedOf, model, post, today).updates)
  {
    var f := Finish(Collect(keywords, feedOf), model, post, today);
    FinishProgress(Collect(keywords, feedOf), model, post, today);
    SearchUpdatesInRange(keywords);
    ProgressJoined([StartUpdate], SearchUpdates(keywords));
    ProgressJoined([StartUpdate] + SearchUpdates(keywords), f.updates);
  }

  /** The search updates have their progress within [0, 1]. */
  lemma SearchUpdatesInRange(keywords: seq<string>)
    ensures ProgressInRange(SearchUpdates(keywords))
  {
    var us := SearchUpdates(keywords);
    forall i | 0 <= i < |us| ensures 0.0 <= us[i].progress <= 1.0 {
      SearchProgressBounds(i, |keywords|);
    }
  }

  lemma ProgressJoined(a: seq<Update>, b: seq<Update>)
    requires ProgressInRange(a) && ProgressInRange(b)
    ensures ProgressInRange(a + b)
  {
    assert forall i :: |a| <= i < |a + b| ==> (a + b)[i] == b[i - |a|];
  }

}
