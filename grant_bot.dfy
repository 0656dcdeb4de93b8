/** The grant bot: it searches Google News per category of keywords and reads custom RSS feeds,
    takes a few `<item>` entries from each, and hands every entry to the expert analysis and then to
    WordPress unless the run is a dry run or the analysis reports an error. Fetches, the XML parser's
    view of a document and the model's answers are inputs. */
module GrantBot {
  import opened Wrappers
  import opened Calls
  import opened Text
  import opened Status

  // ---------------------------------------------------------------------------
  // parse_rss_items

  /** A child element as `item.find(tag)` sees it: absent, or present with a `.text` that may be `None`. */
  datatype Element = Absent | Present(text: Option<string>)

  /** One `<item>` element of the document. */
  datatype XmlItem = XmlItem(title: Element, link: Element, description: Element, pubDate: Element)

  /** What `ET.fromstring` makes of the bytes: a parse error, or the `<item>` elements that
      `root.findall('.//item')` returns, in document order. */
  datatype XmlDoc = Malformed | Document(items: seq<XmlItem>)

  /** The dictionary built per item; `None` stands for Python's `None` text of an empty element. */
  datatype RssItem = RssItem(title: Option<string>, link: Option<string>, description: Option<string>,
                             pubDate: Option<string>)

  /** `e.text if e is not None else default`. */
  function TextOr(e: Element, default: string): (r: Option<string>)
    ensures e.Absent? ==> r == Some(default)
    ensures e.Present? ==> r == e.text
  {
    match e
    case Absent => Some(default)
    case Present(t) => t
  }

  function ItemOf(x: XmlItem): (r: RssItem)
    ensures x.title.Absent? ==> r.title == Some("No Title")
    ensures x.link.Absent? ==> r.link == Some("")
    ensures x.description.Absent? ==> r.description == Some("")
    ensures x.pubDate.Absent? ==> r.pubDate == Some("")
    ensures x.title.Present? ==> r.title == x.title.text
  {
    RssItem(TextOr(x.title, "No Title"), TextOr(x.link, ""), TextOr(x.description, ""), TextOr(x.pubDate, ""))
  }

  function ItemsOf(xs: seq<XmlItem>): (r: seq<RssItem>)
    ensures |r| == |xs|
    ensures forall i :: 0 <= i < |xs| ==> r[i] == ItemOf(xs[i])
  {
    if |xs| == 0 then [] else ItemsOf(xs[..|xs| - 1]) + [ItemOf(xs[|xs| - 1])]
  }

  /** The items `parse_rss_items(xml, limit)` returns. */
  function Parsed(doc: XmlDoc, limit: nat): seq<RssItem> {
    match doc
    case Malformed => []
    case Document(xs) => ItemsOf(xs[..Min(limit, |xs|)])
  }

  /** At most `limit` items, the first ones in document order, each read with its defaults; an
      unparsable document gives no items. */
  lemma ParsedShape(doc: XmlDoc, limit: nat)
    ensures doc.Malformed? ==> Parsed(doc, limit) == []
    ensures doc.Document? ==> |Parsed(doc, limit)| == Min(limit, |doc.items|)
    ensures doc.Document? ==> forall i :: 0 <= i < |Parsed(doc, limit)| ==> Parsed(doc, limit)[i] == ItemOf(doc.items[i])
    ensures |Parsed(doc, limit)| <= limit
  {
  }

  /** `parse_rss_items(xml_content, limit)`. */
  method ParseRssItems(doc: XmlDoc, limit: nat) returns (items: seq<RssItem>)
    ensures items == Parsed(doc, limit)
  {
    items := [];
    if doc.Malformed? {
      return;
    }
    var picked := doc.items[..Min(limit, |doc.items|)];
    var k := 0;
    while k < |picked|
      invariant 0 <= k <= |picked|
      invariant items == ItemsOf(picked[..k])
    {
      assert picked[..k + 1][..k] == picked[..k];
      items := items + [ItemOf(picked[k])];
      k := k + 1;
    }
    assert picked[..k] == picked;
  }

  // ---------------------------------------------------------------------------
  // The search query

  /** `" OR ".join(keywords)`. */
  function BuildQuery(keywords: seq<string>): string {
    Join(keywords, " OR ")
  }

  /** The query names every keyword of the category. */
  lemma QueryMentionsEveryKeyword(keywords: seq<string>, k: nat)
    requires k < |keywords|
    ensures Contains(BuildQuery(keywords), keywords[k])
  {
    JoinContainsEach(keywords, " OR ", k);
  }

  // ---------------------------------------------------------------------------
  // The expert analysis and process_grant_item

  const ErrorMarker := "오류 발생"
  const MissingKeyNotice := "⚠️ Gemini API Key가 설정되지 않았습니다."
  const ErrorPrefix := "⚠️ 분석 중 "

  /** `analyze_grant_as_expert`: without a key the notice, otherwise the model's text, or the error
      text when the model call raises. */
  function ExpertAnalysis(keyConfigured: bool, reply: Call<string>): (r: string)
    ensures !keyConfigured ==> r == MissingKeyNotice
    ensures keyConfigured && reply.Returns? ==> r == reply.value
    ensures keyConfigured && reply.Raises? ==> r == ErrorPrefix + ErrorMarker + ": " + reply.message
  {
    if !keyConfigured then MissingKeyNotice
    else match reply
      case Returns(t) => t
      case Raises(e) => ErrorPrefix + ErrorMarker + ": " + e
  }

  /** `str(x)` inside an f-string, for a text that may be `None`. */
  function Show(t: Option<string>): string {
    t.GetOr("None")
  }

  function PostTitle(tag: string, title: Option<string>): string {
    "[" + tag + "] " + Show(title) + " - 전문가 분석"
  }

  /** The body of the post up to the analysis. */
  function BodyHead(item: RssItem): string {
    "\n    <p><i>이 글은 정부지원금 데이터와 AI 전문가의 분석을 바탕으로 작성되었습니다.</i></p>\n    <hr>\n"
    + "    <h2>📢 공고 요약</h2>\n    <p><strong>제목</strong>: " + Show(item.title) + "</p>\n"
    + "    <p><strong>발행일</strong>: " + Show(item.pubDate) + "</p>\n"
    + "    <p><a href=\"" + Show(item.link) + "\">👉 원문 기사/공고 보러가기</a></p>\n    <hr>\n    "
  }

  /** The body of the post after the analysis. */
  const BodyTail := "\n    <hr>\n    <p>※ 본 분석은 AI에 의해 작성되었으며, 정확한 내용은 반드시 공식 기관의 공고를 재확인하시기 바랍니다.</p>\n    "

  datatype ItemOutcome = DryRunSkipped | AnalysisRejected | Posted(title: string, content: string)

  /** `process_grant_item(item, tag, dry_run)` given the analysis text the model would return:
      a dry run stops before the analysis; an analysis holding the error marker stops before the post;
      otherwise the post carries the tagged title and the analysis inside the body. */
  function ProcessGrantItem(item: RssItem, tag: string, dryRun: bool, analysis: string): (r: ItemOutcome)
    ensures dryRun <==> r == DryRunSkipped
    ensures !dryRun ==> (r == AnalysisRejected <==> Contains(analysis, ErrorMarker))
    ensures r.Posted? ==> r.title == PostTitle(tag, item.title) && Contains(r.content, analysis)
  {
    if dryRun then DryRunSkipped
    else if Contains(analysis, ErrorMarker) then AnalysisRejected
    else
      ContainsInfix(BodyHead(item), analysis, BodyTail);
      Posted(PostTitle(tag, item.title), BodyHead(item) + analysis + BodyTail)
  }

  /** The post title names the item's title after the bracketed tag. */
  lemma PostTitleNamesItem(tag: string, title: string)
    ensures StartsWith(PostTitle(tag, Some(title)), "[" + tag + "] ")
    ensures Contains(PostTitle(tag, Some(title)), title)
  {
    var t := PostTitle(tag, Some(title));
    assert t == ("[" + tag + "] ") + title + " - 전문가 분석";
    ContainsInfix("[" + tag + "] ", title, " - 전문가 분석");
  }

  /** A failed model call is never posted: its text carries the marker the gate looks for. */
  lemma FailedAnalysisIsRejected(item: RssItem, tag: string, message: string)
    ensures ProcessGrantItem(item, tag, false, ExpertAnalysis(true, Raises(message))) == AnalysisRejected
  {
    SecondOfFour(ErrorPrefix, ErrorMarker, ": ", message);
  }

  lemma SecondOfFour(a: string, b: string, c: string, d: string)
    ensures Contains(a + b + c + d, b)
  {
    ContainsInfix(a, b, c + d);
    Concat3(a + b, c, d);
  }

  /** The missing-key notice carries no marker, so the gate lets it through and the notice itself is
      posted as the analysis. */
  lemma MissingKeyNoticeIsPosted(item: RssItem, tag: string, reply: Call<string>)
    ensures ProcessGrantItem(item, tag, false, ExpertAnalysis(false, reply)).Posted?
  {
    forall i | 0 <= i <= |MissingKeyNotice| - |ErrorMarker| ensures !OccursAt(MissingKeyNotice, ErrorMarker, i) {
      assert MissingKeyNotice[i] != ErrorMarker[0];
      assert MissingKeyNotice[i..i + |ErrorMarker|][0] == MissingKeyNotice[i];
    }
    assert !Contains(MissingKeyNotice, ErrorMarker);
  }

  // ---------------------------------------------------------------------------
  // run_grant_job

  /** A fetch as the job sees it: failed (`None`, or empty content), or the parsed document. */
  datatype Fetch = FetchFailed | Fetched(doc: XmlDoc)

  /** A category of the configuration, in the order of the `categories` object, with the reply
      Google News would give to its query. */
  datatype Category = Category(name: string, keywords: seq<string>, news: Fetch)

  /** A custom RSS source with the reply its URL would give. */
  datatype Source = Source(url: string, feed: Fetch)

  datatype Handled = Handled(item: RssItem, tag: string, outcome: ItemOutcome)

  /** What one run leaves behind: the status updates, the queries sent, the items handed to
      `process_grant_item`, the two counters, and whether the job ended with the error
      `post_article` raises without WordPress credentials (no `try` surrounds the post). */
  datatype GrantRun = GrantRun(updates: seq<Update>, queries: seq<string>, handled: seq<Handled>,
                               totalFound: nat, totalPublished: nat, raised: bool)

  const SearchLimit: nat := 3
  const SourceLimit: nat := 5
  const SourceTag := "기타공고"

  function FetchedItems(f: Fetch, limit: nat): (r: seq<RssItem>)
    ensures |r| <= limit
  {
    match f
    case FetchFailed => []
    case Fetched(doc) => ParsedShape(doc, limit); Parsed(doc, limit)
  }

  /** The items of one category: none when it has no keywords (no fetch happens) or the fetch fails. */
  function CategoryItems(c: Category): (r: seq<RssItem>)
    ensures |r| <= SearchLimit
    ensures |c.keywords| == 0 ==> r == []
  {
    if |c.keywords| == 0 then [] else FetchedItems(c.news, SearchLimit)
  }

  /** The call to `post_article` made for the item raised, which ends the job. `post` gives what
      `post_article` does with a title and body: return a link or `None`, or raise. */
  predicate Raised(h: Handled, post: (string, string) -> Call<bool>) {
    h.outcome.Posted? && post(h.outcome.title, h.outcome.content).Raises?
  }

  /** The handled items end with the one whose post raised. */
  predicate Aborted(hs: seq<Handled>, post: (string, string) -> Call<bool>) {
    |hs| > 0 && Raised(hs[|hs| - 1], post)
  }

  /** No item but the last had a post that raised: nothing is handled after a raise. */
  predicate RaisesOnlyLast(hs: seq<Handled>, post: (string, string) -> Call<bool>) {
    forall i :: 0 <= i < |hs| - 1 ==> !Raised(hs[i], post)
  }

  // ---------------------------------------------------------------------------
  // A loop that ends at the first post that raises

  /** The items handled by a loop over `xs` in which each element hands on the items `step`
      gives it, until a post raises: the loop ends there, and the elements after it are not
      reached. All three loops of `run_grant_job` have this shape. */
  function UpToRaise<T>(xs: seq<T>, step: T -> seq<Handled>, post: (string, string) -> Call<bool>): seq<Handled> {
    if |xs| == 0 then []
    else
      var prev := UpToRaise(xs[..|xs| - 1], step, post);
      if Aborted(prev, post) then prev else prev + step(xs[|xs| - 1])
  }

  /** How many elements of `xs` the loop starts: all of them, unless a post raises before the last. */
  function Started<T>(xs: seq<T>, step: T -> seq<Handled>, post: (string, string) -> Call<bool>): (r: nat)
    ensures r <= |xs|
  {
    if |xs| == 0 then 0
    else if Aborted(UpToRaise(xs[..|xs| - 1], step, post), post) then Started(xs[..|xs| - 1], step, post)
    else |xs|
  }

  /** One more turn of a loop that has not stopped. */
  lemma UpToRaiseNext<T>(xs: seq<T>, k: nat, step: T -> seq<Handled>, post: (string, string) -> Call<bool>)
    requires k < |xs| && !Aborted(UpToRaise(xs[..k], step, post), post)
    ensures UpToRaise(xs[..k + 1], step, post) == UpToRaise(xs[..k], step, post) + step(xs[k])
    ensures Started(xs[..k], step, post) == k ==> Started(xs[..k + 1], step, post) == k + 1
  {
    assert xs[..k + 1][..k] == xs[..k];
  }

  /** Once a post has raised, later elements add nothing and are not started. */
  lemma {:induction false} UpToRaiseStays<T>(xs: seq<T>, k: nat, m: nat, step: T -> seq<Handled>,
                                              post: (string, string) -> Call<bool>)
    requires k <= m <= |xs| && Aborted(UpToRaise(xs[..k], step, post), post)
    ensures UpToRaise(xs[..m], step, post) == UpToRaise(xs[..k], step, post)
    ensures Started(xs[..k], step, post) == k ==> Started(xs[..m], step, post) == k
    decreases m
  {
    if m > k {
      UpToRaiseStays(xs, k, m - 1, step, post);
      assert xs[..m][..m - 1] == xs[..m - 1];
    }
  }

  /** Where a loop that runs while no post has raised leaves off: at the end, or just after the
      element whose post raised, so that its items are those of the whole loop. */
  lemma UpToRaiseDone<T>(xs: seq<T>, k: nat, step: T -> seq<Handled>, post: (string, string) -> Call<bool>)
    requires k <= |xs| && (k < |xs| ==> Aborted(UpToRaise(xs[..k], step, post), post))
    ensures UpToRaise(xs, step, post) == UpToRaise(xs[..k], step, post)
    ensures Started(xs[..k], step, post) == k ==> Started(xs, step, post) == k
  {
    if k < |xs| {
      UpToRaiseStays(xs, k, |xs|, step, post);
    }
    assert xs[..|xs|] == xs;
  }

  /** The loop stops short of the last element only after a post raised. */
  lemma StartedShortOnlyOnRaise<T>(xs: seq<T>, step: T -> seq<Handled>, post: (string, string) -> Call<bool>)
    ensures Started(xs, step, post) < |xs| ==> Aborted(UpToRaise(xs, step, post), post)
  {
  }

  /** Nothing is handled after a post that raises, when no element's own items go on past one. */
  lemma {:induction false} UpToRaiseRaisesLast<T>(xs: seq<T>, step: T -> seq<Handled>, post: (string, string) -> Call<bool>)
    requires forall x :: x in xs ==> RaisesOnlyLast(step(x), post)
    ensures RaisesOnlyLast(UpToRaise(xs, step, post), post)
  {
    if |xs| > 0 {
      var init := xs[..|xs| - 1];
      assert forall x :: x in init ==> x in xs;
      UpToRaiseRaisesLast(init, step, post);
      var prev := UpToRaise(init, step, post);
      if !Aborted(prev, post) {
        RaisesLastJoin(prev, step(xs[|xs| - 1]), post);
      }
    }
  }

  /** Joining items with no raise to a continuation keeps every raise at the end. */
  lemma RaisesLastJoin(a: seq<Handled>, b: seq<Handled>, post: (string, string) -> Call<bool>)
    requires RaisesOnlyLast(a, post) && !Aborted(a, post) && RaisesOnlyLast(b, post)
    ensures RaisesOnlyLast(a + b, post)
  {
    forall i | 0 <= i < |a + b| - 1 ensures !Raised((a + b)[i], post) {
      if i < |a| {
        assert (a + b)[i] == a[i];
      } else {
        assert (a + b)[i] == b[i - |a|];
      }
    }
  }

  /** Every item handled comes from the step of a reached element. */
  lemma {:induction false} UpToRaiseFrom<T>(xs: seq<T>, step: T -> seq<Handled>, post: (string, string) -> Call<bool>)
    ensures forall h :: h in UpToRaise(xs, step, post) ==> exists x :: x in xs && h in step(x)
  {
    if |xs| > 0 {
      var init := xs[..|xs| - 1];
      UpToRaiseFrom(init, step, post);
      forall h | h in UpToRaise(xs, step, post) ensures exists x :: x in xs && h in step(x) {
        if h in UpToRaise(init, step, post) {
          var x :| x in init && h in step(x);
          assert x in xs;
        } else {
          assert xs[|xs| - 1] in xs;
        }
      }
    }
  }

  /** A loop whose elements hand on at most `limit` items each hands on at most `limit` per element. */
  lemma {:induction false} UpToRaiseBounded<T>(xs: seq<T>, step: T -> seq<Handled>, post: (string, string) -> Call<bool>,
                                               limit: nat)
    requires forall x :: x in xs ==> |step(x)| <= limit
    ensures |UpToRaise(xs, step, post)| <= limit * |xs|
  {
    if |xs| > 0 {
      var init := xs[..|xs| - 1];
      assert forall x :: x in init ==> x in xs;
      UpToRaiseBounded(init, step, post, limit);
      assert xs[|xs| - 1] in xs;
      assert |UpToRaise(xs, step, post)| <= |UpToRaise(init, step, post)| + limit;
      OneMore(limit, |init|);
    }
  }

  lemma OneMore(limit: nat, n: nat)
    ensures limit * (n + 1) == limit * n + limit
  {
  }

  /** When each element hands on exactly one item, the loop's items are the first elements' items,
      in order, and all of them unless a post raised. */
  lemma {:induction false} UpToRaiseSingles<T>(xs: seq<T>, step: T -> seq<Handled>, post: (string, string) -> Call<bool>)
    requires forall x :: x in xs ==> |step(x)| == 1
    ensures var r := UpToRaise(xs, step, post);
      |r| <= |xs| && (!Aborted(r, post) ==> |r| == |xs|) &&
      forall i :: 0 <= i < |r| ==> r[i] == step(xs[i])[0]
  {
    if |xs| > 0 {
      var init := xs[..|xs| - 1];
      assert forall x :: x in init ==> x in xs;
      UpToRaiseSingles(init, step, post);
      var prev := UpToRaise(init, step, post);
      var r := UpToRaise(xs, step, post);
      assert xs[|xs| - 1] in xs;
      forall i | 0 <= i < |r| ensures r[i] == step(xs[i])[0] {
        if i < |prev| {
          assert r[i] == prev[i] && init[i] == xs[i];
        }
      }
    }
  }

  // ---------------------------------------------------------------------------
  // The loops of run_grant_job

  /** The inner loop's step: the item and the outcome of `process_grant_item` for it. */
  function ItemStep(tag: string, dryRun: bool, analyze: RssItem -> string): RssItem -> seq<Handled> {
    (x: RssItem) => [Handled(x, tag, ProcessGrantItem(x, tag, dryRun, analyze(x)))]
  }

  /** The category loop's step: the category's items, tagged with its name. */
  function CategoryStep(dryRun: bool, analyze: RssItem -> string, post: (string, string) -> Call<bool>): Category -> seq<Handled> {
    (c: Category) => HandleAll(CategoryItems(c), c.name, dryRun, analyze, post)
  }

  /** The custom-source loop's step: the source's items, tagged `기타공고`. */
  function SourceStep(dryRun: bool, analyze: RssItem -> string, post: (string, string) -> Call<bool>): Source -> seq<Handled> {
    (s: Source) => HandleAll(FetchedItems(s.feed, SourceLimit), SourceTag, dryRun, analyze, post)
  }

  /** The items one batch hands to `process_grant_item`, up to the first whose post raises. */
  function HandleAll(items: seq<RssItem>, tag: string, dryRun: bool, analyze: RssItem -> string,
                     post: (string, string) -> Call<bool>): seq<Handled>
  {
    UpToRaise(items, ItemStep(tag, dryRun, analyze), post)
  }

  /** The items the category loop handles, up to a post that raises. */
  function CategoryHandled(cats: seq<Category>, dryRun: bool, analyze: RssItem -> string,
                           post: (string, string) -> Call<bool>): seq<Handled>
  {
    UpToRaise(cats, CategoryStep(dryRun, analyze, post), post)
  }

  /** How many categories the loop starts. */
  function Reached(cats: seq<Category>, dryRun: bool, analyze: RssItem -> string,
                   post: (string, string) -> Call<bool>): nat
  {
    Started(cats, CategoryStep(dryRun, analyze, post), post)
  }

  /** The items the custom-source loop handles, up to a post that raises. */
  function SourceHandled(sources: seq<Source>, dryRun: bool, analyze: RssItem -> string,
                         post: (string, string) -> Call<bool>): seq<Handled>
  {
    UpToRaise(sources, SourceStep(dryRun, analyze, post), post)
  }

  /** Every item the job handles: the categories', then the custom sources' unless a post raised
      first. */
  function JobHandled(cats: seq<Category>, sources: seq<Source>, dryRun: bool, analyze: RssItem -> string,
                      post: (string, string) -> Call<bool>): seq<Handled>
  {
    var fromCategories := CategoryHandled(cats, dryRun, analyze, post);
    if Aborted(fromCategories, post) then fromCategories
    else fromCategories + SourceHandled(sources, dryRun, analyze, post)
  }

  /** A batch is the first items, in order, each with its tag and the outcome of
      `process_grant_item`: all of them unless a post raised, and nothing after the raise. */
  lemma HandleAllRecords(items: seq<RssItem>, tag: string, dryRun: bool, analyze: RssItem -> string,
                         post: (string, string) -> Call<bool>)
    ensures var r := HandleAll(items, tag, dryRun, analyze, post);
      |r| <= |items| && (!Aborted(r, post) ==> |r| == |items|) &&
      (forall i :: 0 <= i < |r| ==> r[i] == Handled(items[i], tag, ProcessGrantItem(items[i], tag, dryRun, analyze(items[i])))) &&
      RaisesOnlyLast(r, post)
  {
    var step := ItemStep(tag, dryRun, analyze);
    UpToRaiseSingles(items, step, post);
    forall x | x in items ensures RaisesOnlyLast(step(x), post) {
      assert |step(x)| == 1;
    }
    UpToRaiseRaisesLast(items, step, post);
  }

  /** Nothing is handled after a post that raises, in the job as a whole. */
  lemma JobRaisesLast(cats: seq<Category>, sources: seq<Source>, dryRun: bool, analyze: RssItem -> string,
                      post: (string, string) -> Call<bool>)
    ensures RaisesOnlyLast(JobHandled(cats, sources, dryRun, analyze, post), post)
  {
    var catStep := CategoryStep(dryRun, analyze, post);
    forall c | c in cats ensures RaisesOnlyLast(catStep(c), post) {
      HandleAllRecords(CategoryItems(c), c.name, dryRun, analyze, post);
    }
    UpToRaiseRaisesLast(cats, catStep, post);
    var srcStep := SourceStep(dryRun, analyze, post);
    forall s | s in sources ensures RaisesOnlyLast(srcStep(s), post) {
      HandleAllRecords(FetchedItems(s.feed, SourceLimit), SourceTag, dryRun, analyze, post);
    }
    UpToRaiseRaisesLast(sources, srcStep, post);
    var fromCategories := CategoryHandled(cats, dryRun, analyze, post);
    if !Aborted(fromCategories, post) {
      RaisesLastJoin(fromCategories, SourceHandled(sources, dryRun, analyze, post), post);
    }
  }

  /** The category loop stops short of the last category only after a post raised. */
  lemma ReachedShortOnlyOnRaise(cats: seq<Category>, dryRun: bool, analyze: RssItem -> string,
                                post: (string, string) -> Call<bool>)
    ensures Reached(cats, dryRun, analyze, post) < |cats| ==> Aborted(CategoryHandled(cats, dryRun, analyze, post), post)
  {
    StartedShortOnlyOnRaise(cats, CategoryStep(dryRun, analyze, post), post);
  }

  /** The queries sent: one per category with keywords, in order. */
  function Queries(cats: seq<Category>): seq<string> {
    if |cats| == 0 then []
    else
      var c := cats[|cats| - 1];
      Queries(cats[..|cats| - 1]) + QueryOf(c)
  }

  /** The query a category sends, if any. */
  function QueryOf(c: Category): seq<string> {
    if |c.keywords| == 0 then [] else [BuildQuery(c.keywords)]
  }

  function SearchProgress(c: nat, n: nat): real
    requires c < n
  {
    0.1 + (c as real / n as real) * 0.3
  }

  function SearchUpdates(cats: seq<Category>, n: nat): seq<Update>
    requires |cats| <= n
  {
    if |cats| == 0 then []
    else
      SearchUpdates(cats[..|cats| - 1], n)
      + [SearchUpdate(cats[|cats| - 1].name, |cats| - 1, n)]
  }

  function SearchUpdate(name: string, c: nat, n: nat): Update
    requires c < n
  {
    Update("running", "[SEARCH] '" + name + "' 관련 공고 찾는 중...", SearchProgress(c, n))
  }

  const StartUpdate := Update("running", "[START] 지원사업 공고 수집 시작...", 0.1)
  const SourcesUpdate := Update("running", "[RSS] 맞춤 소스 수집 중...", 0.5)

  /** The inner loop of `run_grant_job`: every item goes through `process_grant_item` in order,
      the analysis being asked for only outside a dry run, until a post raises. */
  method HandleItems(items: seq<RssItem>, tag: string, dryRun: bool, analyze: RssItem -> string,
                     post: (string, string) -> Call<bool>)
    returns (batch: seq<Handled>, stop: bool)
    ensures batch == HandleAll(items, tag, dryRun, analyze, post)
    ensures stop == Aborted(batch, post)
  {
    batch, stop := [], false;
    var k := 0;
    while k < |items| && !stop
      invariant 0 <= k <= |items|
      invariant batch == HandleAll(items[..k], tag, dryRun, analyze, post)
      invariant stop == Aborted(batch, post)
    {
      batch, stop := HandleItem(items, k, tag, dryRun, analyze, post, batch);
      k := k + 1;
    }
    UpToRaiseDone(items, k, ItemStep(tag, dryRun, analyze), post);
  }

  /** One pass of the inner loop: item `k` and its outcome join the batch, and the post, if one is
      made, either returns or raises. */
  method HandleItem(items: seq<RssItem>, k: nat, tag: string, dryRun: bool, analyze: RssItem -> string,
                    post: (string, string) -> Call<bool>, batch: seq<Handled>)
    returns (batch': seq<Handled>, stop: bool)
    requires k < |items| && batch == HandleAll(items[..k], tag, dryRun, analyze, post)
    requires !Aborted(batch, post)
    ensures batch' == HandleAll(items[..k + 1], tag, dryRun, analyze, post)
    ensures stop == Aborted(batch', post)
  {
    UpToRaiseNext(items, k, ItemStep(tag, dryRun, analyze), post);
    var item := items[k];
    var outcome := DryRunSkipped;
    if !dryRun {
      outcome := ProcessGrantItem(item, tag, false, analyze(item));
    }
    batch' := batch + [Handled(item, tag, outcome)];
    stop := false;
    if outcome.Posted? {
      var reply := post(outcome.title, outcome.content);
      stop := reply.Raises?;
    }
  }

  /** The first half of `run_grant_job`: one status update per category reached, then (when it
      has keywords) one query, and the items of a successful fetch handed on in order, until a
      post raises. */
  method SearchCategories(categories: seq<Category>, dryRun: bool, analyze: RssItem -> string,
                          post: (string, string) -> Call<bool>)
    returns (updates: seq<Update>, queries: seq<string>, handled: seq<Handled>, published: nat, stop: bool)
    ensures updates == SearchUpdates(categories[..Reached(categories, dryRun, analyze, post)], |categories|)
    ensures queries == Queries(categories[..Reached(categories, dryRun, analyze, post)])
    ensures handled == CategoryHandled(categories, dryRun, analyze, post)
    ensures stop == Aborted(handled, post)
    ensures !stop ==> published == if dryRun then 0 else |handled|
  {
    var st := Search([], [], [], 0, false);
    var c := 0;
    while c < |categories| && !st.stop
      invariant Searched(categories, c, dryRun, analyze, post, st)
    {
      st := SearchCategory(categories, c, dryRun, analyze, post, st);
      c := c + 1;
    }
    UpToRaiseDone(categories, c, CategoryStep(dryRun, analyze, post), post);
    return st.updates, st.queries, st.handled, st.published, st.stop;
  }

  /** The state of the category loop: updates written, queries sent, items handled, the count of
      published items, and whether a post raised. */
  datatype Search = Search(updates: seq<Update>, queries: seq<string>, handled: seq<Handled>, published: nat, stop: bool)

  /** What the category loop has produced once the first `c` categories are searched. */
  predicate Searched(categories: seq<Category>, c: nat, dryRun: bool, analyze: RssItem -> string,
                     post: (string, string) -> Call<bool>, st: Search)
  {
    SearchedWith(categories, c, dryRun, CategoryStep(dryRun, analyze, post), post, st)
  }

  /** `Searched`, for any step of the category loop. */
  predicate SearchedWith(categories: seq<Category>, c: nat, dryRun: bool, step: Category -> seq<Handled>,
                            post: (string, string) -> Call<bool>, st: Search)
  {
    c <= |categories|
    && st.updates == SearchUpdates(categories[..c], |categories|)
    && st.queries == Queries(categories[..c])
    && st.handled == UpToRaise(categories[..c], step, post)
    && st.published == (if dryRun then 0 else |st.handled|)
    && Started(categories[..c], step, post) == c
    && st.stop == Aborted(st.handled, post)
  }

  /** One turn of the category loop: category `c`, once the ones before it are handled with no
      post raising. */
  method SearchCategory(categories: seq<Category>, c: nat, dryRun: bool, analyze: RssItem -> string,
                        post: (string, string) -> Call<bool>, st: Search)
    returns (st': Search)
    requires c < |categories| && Searched(categories, c, dryRun, analyze, post, st) && !st.stop
    ensures Searched(categories, c + 1, dryRun, analyze, post, st')
  {
    var cat := categories[c];
    var queries := st.queries;
    if |cat.keywords| > 0 {
      queries := queries + [BuildQuery(cat.keywords)];
    } else {
      assert queries + QueryOf(cat) == queries;
    }
    var batch, raised := CategoryBatch(cat, dryRun, analyze, post);
    st' := Search(st.updates + [SearchUpdate(cat.name, c, |categories|)], queries, st.handled + batch,
                  if dryRun then 0 else st.published + |batch|, raised);
    SearchedNext(categories, c, dryRun, CategoryStep(dryRun, analyze, post), post, st, batch);
  }

  /** The state of the category loop after one more category, whose items are `batch`. */
  lemma SearchedNext(categories: seq<Category>, c: nat, dryRun: bool, step: Category -> seq<Handled>,
                     post: (string, string) -> Call<bool>, st: Search, batch: seq<Handled>)
    requires c < |categories| && SearchedWith(categories, c, dryRun, step, post, st) && !st.stop
    requires batch == step(categories[c])
    ensures SearchedWith(categories, c + 1, dryRun, step, post,
      Search(st.updates + [SearchUpdate(categories[c].name, c, |categories|)], st.queries + QueryOf(categories[c]),
             st.handled + batch, if dryRun then 0 else st.published + |batch|, Aborted(batch, post)))
  {
    UpToRaiseNext(categories, c, step, post);
    var done := categories[..c + 1];
    assert done[..c] == categories[..c];
    assert Queries(done) == st.queries + QueryOf(categories[c]);
    assert SearchUpdates(done, |categories|) == st.updates + [SearchUpdate(categories[c].name, c, |categories|)];
    AbortedJoin(st.handled, batch, post);
  }

  /** What one category hands on once its query is sent: nothing without keywords or when the
      fetch fails, otherwise its parsed items, each handled until a post raises. */
  method CategoryBatch(cat: Category, dryRun: bool, analyze: RssItem -> string, post: (string, string) -> Call<bool>)
    returns (batch: seq<Handled>, raised: bool)
    ensures batch == HandleAll(CategoryItems(cat), cat.name, dryRun, analyze, post)
    ensures raised == Aborted(batch, post)
  {
    if |cat.keywords| > 0 && cat.news.Fetched? {
      var items := ParseRssItems(cat.news.doc, SearchLimit);
      batch, raised := HandleItems(items, cat.name, dryRun, analyze, post);
    } else {
      batch, raised := [], false;
    }
  }

  /** Joined items end with a raise exactly when the second part does, or, when it is empty,
      the first. */
  lemma AbortedJoin(a: seq<Handled>, b: seq<Handled>, post: (string, string) -> Call<bool>)
    ensures Aborted(a + b, post) == if |b| == 0 then Aborted(a, post) else Aborted(b, post)
  {
    if |b| > 0 {
      assert (a + b)[|a + b| - 1] == b[|b| - 1];
    } else {
      assert a + b == a;
    }
  }

  /** The second half of `run_grant_job`: the items of each custom source, tagged `기타공고`,
      until a post raises. */
  method ReadSources(sources: seq<Source>, dryRun: bool, analyze: RssItem -> string,
                     post: (string, string) -> Call<bool>)
    returns (handled: seq<Handled>, stop: bool)
    ensures handled == SourceHandled(sources, dryRun, analyze, post)
    ensures stop == Aborted(handled, post)
  {
    handled, stop := [], false;
    var s := 0;
    while s < |sources| && !stop
      invariant 0 <= s <= |sources|
      invariant handled == SourceHandled(sources[..s], dryRun, analyze, post)
      invariant stop == Aborted(handled, post)
    {
      handled, stop := ReadSource(sources, s, dryRun, analyze, post, handled);
      s := s + 1;
    }
    UpToRaiseDone(sources, s, SourceStep(dryRun, analyze, post), post);
  }

  /** One pass of the loop over the custom sources: a failed fetch adds nothing, otherwise every
      parsed item is handled until a post raises. */
  method ReadSource(sources: seq<Source>, s: nat, dryRun: bool, analyze: RssItem -> string,
                    post: (string, string) -> Call<bool>, handled: seq<Handled>)
    returns (handled': seq<Handled>, stop: bool)
    requires s < |sources| && handled == SourceHandled(sources[..s], dryRun, analyze, post)
    requires !Aborted(handled, post)
    ensures handled' == SourceHandled(sources[..s + 1], dryRun, analyze, post)
    ensures stop == Aborted(handled', post)
  {
    UpToRaiseNext(sources, s, SourceStep(dryRun, analyze, post), post);
    var src := sources[s];
    if src.feed.FetchFailed? {
      assert handled + [] == handled;
      return handled, false;
    }
    var items := ParseRssItems(src.feed.doc, SourceLimit);
    var batch, raised := HandleItems(items, SourceTag, dryRun, analyze, post);
    handled' := handled + batch;
    stop := raised;
    AbortedJoin(handled, batch, post);
  }

  /** `run_grant_job(dry_run)`: the status updates in order, the queries sent, every item handed to
      `process_grant_item` with its tag and outcome, and whether a post raised, which ends the job
      at once. The two counters are stated for a run that returns; when the job raises they are
      lost with it. No final status is written. */
  method RunGrantJob(categories: seq<Category>, sources: seq<Source>, dryRun: bool, analyze: RssItem -> string,
                     post: (string, string) -> Call<bool>)
    returns (run: GrantRun)
    ensures var reached := Reached(categories, dryRun, analyze, post);
      run.updates == [StartUpdate] + SearchUpdates(categories[..reached], |categories|)
                     + (if |sources| > 0 && !Aborted(CategoryHandled(categories, dryRun, analyze, post), post)
                        then [SourcesUpdate] else [])
    ensures run.queries == Queries(categories[..Reached(categories, dryRun, analyze, post)])
    ensures run.handled == JobHandled(categories, sources, dryRun, analyze, post)
    ensures run.raised == Aborted(run.handled, post)
    ensures !run.raised ==> run.totalFound == |run.handled|
    ensures !run.raised ==> run.totalPublished == if dryRun then 0 else |CategoryHandled(categories, dryRun, analyze, post)|
  {
    var updates := [StartUpdate];
    var searchUpdates, queries, fromCategories, published, stop := SearchCategories(categories, dryRun, analyze, post);
    updates := updates + searchUpdates;
    if stop {
      return GrantRun(updates, queries, fromCategories, |fromCategories|, published, true);
    }
    if |sources| > 0 {
      updates := updates + [SourcesUpdate];
    }
    var fromSources, raised := ReadSources(sources, dryRun, analyze, post);
    var handled := fromCategories + fromSources;
    AbortedJoin(fromCategories, fromSources, post);
    run := GrantRun(updates, queries, handled, |handled|, published, raised);
  }

  // ---------------------------------------------------------------------------
  // Properties of a run

  /** Search progress stays inside [0.1, 0.4) and grows with the category index. */
  lemma SearchProgressBounds(c: nat, n: nat)
    requires c < n
    ensures 0.1 <= SearchProgress(c, n) < 0.4
    ensures c + 1 < n ==> SearchProgress(c, n) < SearchProgress(c + 1, n)
  {
    var q := c as real / n as real;
    assert 0.0 <= q < 1.0 by {
      assert q * (n as real) == c as real;
    }
    if c + 1 < n {
      assert (c + 1) as real / n as real == q + 1.0 / n as real;
    }
  }

  /** A custom source hands on at most 5 items, all tagged `기타공고`. */
  lemma SourceItemsTagged(sources: seq<Source>, dryRun: bool, analyze: RssItem -> string,
                          post: (string, string) -> Call<bool>)
    ensures |SourceHandled(sources, dryRun, analyze, post)| <= SourceLimit * |sources|
    ensures forall h :: h in SourceHandled(sources, dryRun, analyze, post) ==> h.tag == SourceTag
  {
    var step := SourceStep(dryRun, analyze, post);
    forall s | s in sources
      ensures |step(s)| <= SourceLimit && forall h :: h in step(s) ==> h.tag == SourceTag
    {
      HandleAllRecords(FetchedItems(s.feed, SourceLimit), SourceTag, dryRun, analyze, post);
    }
    UpToRaiseBounded(sources, step, post, SourceLimit);
    UpToRaiseFrom(sources, step, post);
  }

  /** A category hands on at most 3 items, each tagged with the name of a category searched. */
  lemma CategoryItemsBounded(cats: seq<Category>, dryRun: bool, analyze: RssItem -> string,
                             post: (string, string) -> Call<bool>)
    ensures |CategoryHandled(cats, dryRun, analyze, post)| <= SearchLimit * |cats|
    ensures forall h :: h in CategoryHandled(cats, dryRun, analyze, post) ==> exists c :: c in cats && h.tag == c.name
  {
    var step := CategoryStep(dryRun, analyze, post);
    forall c | c in cats
      ensures |step(c)| <= SearchLimit && forall h :: h in step(c) ==> h.tag == c.name
    {
      HandleAllRecords(CategoryItems(c), c.name, dryRun, analyze, post);
    }
    UpToRaiseBounded(cats, step, post, SearchLimit);
    UpToRaiseFrom(cats, step, post);
  }

  /** Categories without keywords send no query; the others send exactly their joined keywords. */
  lemma {:induction false} QueriesSkipEmpty(cats: seq<Category>)
    ensures |Queries(cats)| <= |cats|
    ensures (forall i :: 0 <= i < |cats| ==> |cats[i].keywords| == 0) ==> Queries(cats) == []
    ensures (forall i :: 0 <= i < |cats| ==> |cats[i].keywords| > 0) ==>
      Queries(cats) == seq(|cats|, i requires 0 <= i < |cats| => BuildQuery(cats[i].keywords))
  {
    if |cats| > 0 {
      var init := cats[..|cats| - 1];
      QueriesSkipEmpty(init);
      if forall i :: 0 <= i < |cats| ==> |cats[i].keywords| > 0 {
        assert forall i :: 0 <= i < |init| ==> |init[i].keywords| > 0 by {
          forall i | 0 <= i < |init| ensures |init[i].keywords| > 0 { assert init[i] == cats[i]; }
        }
      }
      if forall i :: 0 <= i < |cats| ==> |cats[i].keywords| == 0 {
        assert forall i :: 0 <= i < |init| ==> |init[i].keywords| == 0 by {
          forall i | 0 <= i < |init| ensures |init[i].keywords| == 0 { assert init[i] == cats[i]; }
        }
      }
    }
  }

  /** In a dry run nothing is analysed or posted and nothing counts as published; no post is
      made, so none raises, and the job reaches every category and source. */
  lemma DryRunPostsNothing(cats: seq<Category>, sources: seq<Source>, analyze: RssItem -> string,
                           post: (string, string) -> Call<bool>)
    ensures forall h :: h in JobHandled(cats, sources, true, analyze, post) ==> h.outcome == DryRunSkipped
    ensures JobHandled(cats, sources, true, analyze, post)
            == CategoryHandled(cats, true, analyze, post) + SourceHandled(sources, true, analyze, post)
    ensures Reached(cats, true, analyze, post) == |cats|
  {
    var catStep := CategoryStep(true, analyze, post);
    forall c | c in cats ensures forall h :: h in catStep(c) ==> h.outcome == DryRunSkipped {
      HandleAllRecords(CategoryItems(c), c.name, true, analyze, post);
    }
    UpToRaiseFrom(cats, catStep, post);
    var srcStep := SourceStep(true, analyze, post);
    forall s | s in sources ensures forall h :: h in srcStep(s) ==> h.outcome == DryRunSkipped {
      HandleAllRecords(FetchedItems(s.feed, SourceLimit), SourceTag, true, analyze, post);
    }
    UpToRaiseFrom(sources, srcStep, post);
    var fromCategories := CategoryHandled(cats, true, analyze, post);
    assert !Aborted(fromCategories, post) by {
      if |fromCategories| > 0 {
        assert fromCategories[|fromCategories| - 1] in fromCategories;
      }
    }
    ReachedShortOnlyOnRaise(cats, true, analyze, post);
  }

  /** Without WordPress credentials every post raises: the job then ends at the first item whose
      analysis passes the gate, so at most one item is ever sent, and it is the last handled. */
  lemma NoCredentialsEndsAtFirstPost(cats: seq<Category>, sources: seq<Source>, dryRun: bool,
                                     analyze: RssItem -> string, post: (string, string) -> Call<bool>)
    requires forall t, c :: post(t, c).Raises?
    ensures var hs := JobHandled(cats, sources, dryRun, analyze, post);
      forall i :: 0 <= i < |hs| - 1 ==> !hs[i].outcome.Posted?
  {
    JobRaisesLast(cats, sources, dryRun, analyze, post);
  }
}
