/** The second version of the source probes: the export-voucher board scraper, which reads the
    notice id out of `goDetail('N')`, `goDetail("N")` or `goDetail(N)`, and the manufacturing RSS
    reader, which warns when the answer does not look like XML and falls back to the `<item>`
    elements when the feed parser finds no entry. Requests and parsers are inputs. */
module SourcesV2 {
  import opened Wrappers
  import opened Text
  import opened Scrape

  // ---------------------------------------------------------------------------
  // `fetch_exportvoucher_announcements`

  predicate IsQuote(c: char) {
    c == '\'' || c == '"'
  }

  /** The text after an optional quote, as `['"]?` takes it. */
  function SkipQuote(s: string): string {
    if |s| > 0 && IsQuote(s[0]) then s[1..] else s
  }

  /** The id `goDetail\(['"]?(\d+)['"]?\)` captures when it matches at position `p`. */
  function IdAt(s: string, p: nat): (r: Option<string>)
    ensures r.Some? ==> CallAt(s, p) && |r.value| > 0 && AllDigits(r.value)
  {
    if !CallAt(s, p) then None
    else AfterCall(s[p + 9..])
  }

  /** The rest of the match once `goDetail(` is read: quote, digits, quote, parenthesis. */
  function AfterCall(t: string): (r: Option<string>)
    ensures r.Some? ==> |r.value| > 0 && AllDigits(r.value)
  {
    var u := SkipQuote(t);
    var d := DigitRun(u);
    var w := SkipQuote(u[|d|..]);
    if |d| > 0 && |w| > 0 && w[0] == ')' then Some(d) else None
  }

  /** The notice link the scraper derives from an `onclick` value, or "" when nothing matches. */
  function Link(onclick: string): string {
    match SearchFrom(onclick, 0, IdAt)
    case Some(id) => ViewPrefix + id
    case None => ""
  }

  /** The three accepted spellings of the call, behind any prefix that has no `g` in it (such as
      `javascript:`), all give the link of the notice. */
  lemma LinkForms(prefix: string, quote: string, id: string, rest: string)
    requires forall i :: 0 <= i < |prefix| ==> prefix[i] != 'g'
    requires quote == "" || quote == "'" || quote == "\""
    requires |id| > 0 && AllDigits(id)
    ensures Link(prefix + DetailCall + quote + id + quote + ")" + rest) == ViewPrefix + id
  {
    var s := prefix + DetailCall + quote + id + quote + ")" + rest;
    var p := |prefix|;
    var u := quote + id + quote + ")" + rest;
    assert s == prefix + (DetailCall + u);
    forall q | 0 <= q < p ensures IdAt(s, q).None? {
      assert s[q] == prefix[q];
    }
    assert s[p..] == DetailCall + u;
    assert CallAt(s, p);
    assert s[p + 9..] == u;
    AfterCallForms(quote, id, rest);
    SearchFirst(s, p, IdAt);
  }

  /** After `goDetail(`, a quote (or none), the digits, the same quote and `)` give the digits. */
  lemma AfterCallForms(quote: string, id: string, rest: string)
    requires quote == "" || quote == "'" || quote == "\""
    requires |id| > 0 && AllDigits(id)
    ensures AfterCall(quote + id + quote + ")" + rest) == Some(id)
  {
    var close := ")" + rest;
    var tail := quote + close;
    Concat5(quote, id, quote, ")", rest);
    SkipQuoteOf(quote, id + tail);
    DigitRunOf(id, tail);
    assert (id + tail)[|id|..] == tail;
    SkipQuoteOf(quote, close);
  }

  /** The optional quote is taken off exactly when it is there. */
  lemma SkipQuoteOf(quote: string, x: string)
    requires quote == "" || quote == "'" || quote == "\""
    requires |x| > 0 && !IsQuote(x[0])
    ensures SkipQuote(quote + x) == x
  {
    if quote != "" {
      assert (quote + x)[1..] == x;
    } else {
      assert quote + x == x;
    }
  }

  /** An `onclick` that never calls `goDetail(` gives no link. */
  lemma NoCallNoLink(onclick: string)
    requires !Contains(onclick, DetailCall)
    ensures Link(onclick) == ""
  {
    SearchLeftmost(onclick, 0, IdAt);
    forall q | 0 <= q <= |onclick| ensures !CallAt(onclick, q) {
      CallAtOccurs(onclick, q);
    }
  }

  /** `fetch_exportvoucher_announcements(limit)`, with `rows` the `tbody tr` rows of the board
      page (`None`: the request raised): the title of each of the first `limit` rows that has a
      title anchor, and the link printed beside it. */
  method FetchExportVoucher(rows: Option<seq<Row>>, limit: int) returns (items: seq<string>, links: seq<string>)
    ensures rows.None? ==> items == [] && links == []
    ensures rows.Some? ==> Reports(Kept(Head(rows.value, limit)), items, links, Link)
  {
    if rows.None? {
      return [], [];
    }
    items, links := ReportRows(rows.value, limit, Link);
  }

  // ---------------------------------------------------------------------------
  // `fetch_manufacturing_mssd`

  /** A feed entry as the feed parser gives it; reading a missing `title` raises. */
  datatype FeedEntry = FeedEntry(title: Option<string>)

  /** An `<item>` element: the text pieces of its `<title>` and `<link>` children, when present. */
  datatype XmlItem = XmlItem(title: Option<seq<string>>, link: Option<seq<string>>)

  /** The answer to the RSS request: its text, the feed parser's entries and the `<item>`
      elements of the XML parse. */
  datatype Response = Response(text: string, entries: seq<FeedEntry>, xmlItems: seq<XmlItem>)

  const XmlDecl: string := "<?xml"
  const RssTag: string := "<rss"

  /** The condition under which the warning that the content is not XML is printed. */
  predicate LooksNotXml(text: string) {
    !StartsWith(Strip(text), XmlDecl) && !Contains(text, RssTag)
  }

  /** Whitespace stripped from the front leaves the rest. */
  lemma {:induction false} LStripSpaces(ws: string, t: string)
    requires AllSpace(ws)
    requires |t| == 0 || !IsSpace(t[0])
    ensures LStrip(ws + t) == t
    decreases |ws|
  {
    if |ws| > 0 {
      assert (ws + t)[0] == ws[0];
      assert (ws + t)[1..] == ws[1..] + t;
      LStripSpaces(ws[1..], t);
    } else {
      assert ws + t == t;
    }
  }

  /** A document whose first non-blank text is the XML declaration draws no warning. */
  lemma XmlDeclNoWarning(ws: string, rest: string)
    requires AllSpace(ws)
    ensures !LooksNotXml(ws + XmlDecl + rest)
  {
    StripStartsWithDecl(ws, rest);
  }

  /** Behind leading whitespace, the declaration survives stripping. */
  lemma StripStartsWithDecl(ws: string, rest: string)
    requires AllSpace(ws)
    ensures StartsWith(Strip(ws + XmlDecl + rest), XmlDecl)
  {
    StripKeepsPrefix(ws, XmlDecl, rest);
  }

  /** Behind leading whitespace, a text that starts and ends with a non-space character survives
      stripping at the front of the result. */
  lemma StripKeepsPrefix(ws: string, p: string, rest: string)
    requires AllSpace(ws)
    requires |p| > 0 && !IsSpace(p[0]) && !IsSpace(p[|p| - 1])
    ensures StartsWith(Strip(ws + p + rest), p)
  {
    var t := p + rest;
    assert ws + p + rest == ws + t;
    assert t[..|p|] == p;
    LStripSpaces(ws, t);
    assert Strip(ws + t) == RStrip(t);
    RStripKeepsFront(t, |p| - 1);
  }

  /** Stripping the back of a string whose character `k` is not whitespace keeps its first `k + 1`
      characters. */
  lemma RStripKeepsFront(t: string, k: nat)
    requires k < |t| && !IsSpace(t[k])
    ensures |RStrip(t)| > k && RStrip(t)[..k + 1] == t[..k + 1]
  {
    var r := RStrip(t);
    assert r == t[..|r|];
  }

  /** The title of a fallback item, "No Title" when it has no `<title>`. */
  function ItemTitle(item: XmlItem): string {
    match item.title
    case Some(strings) => GetText(strings)
    case None => "No Title"
  }

  /** The link of a fallback item, "" when it has no `<link>`. */
  function ItemLink(item: XmlItem): string {
    match item.link
    case Some(strings) => GetText(strings)
    case None => ""
  }

  /** The titles the entry loop collects before an entry without a title raises. */
  function EntryTitles(entries: seq<FeedEntry>): (r: seq<string>)
    ensures |r| <= |entries|
    ensures forall i :: 0 <= i < |r| ==> entries[i].title == Some(r[i])
    ensures |r| < |entries| ==> entries[|r|].title.None?
  {
    if |entries| == 0 || entries[0].title.None? then []
    else [entries[0].title.value] + EntryTitles(entries[1..])
  }

  /** The titles the fallback reports, one per `<item>`. */
  function ItemTitles(xs: seq<XmlItem>): (r: seq<string>)
    ensures |r| == |xs|
  {
    if |xs| == 0 then [] else ItemTitles(xs[..|xs| - 1]) + [ItemTitle(xs[|xs| - 1])]
  }

  /** The links the fallback prints, one per `<item>`. */
  function ItemLinks(xs: seq<XmlItem>): (r: seq<string>)
    ensures |r| == |xs|
  {
    if |xs| == 0 then [] else ItemLinks(xs[..|xs| - 1]) + [ItemLink(xs[|xs| - 1])]
  }

  /** The `i`-th fallback title and link are those of the `i`-th item, defaults included. */
  lemma {:induction false} FallbackAt(xs: seq<XmlItem>, i: nat)
    requires i < |xs|
    ensures ItemTitles(xs)[i] == ItemTitle(xs[i]) && ItemLinks(xs)[i] == ItemLink(xs[i])
  {
    if i < |xs| - 1 {
      var front := xs[..|xs| - 1];
      assert front[i] == xs[i];
      FallbackAt(front, i);
      assert ItemTitles(xs)[i] == ItemTitles(front)[i];
      assert ItemLinks(xs)[i] == ItemLinks(front)[i];
    }
  }

  /** An item without a `<title>` or `<link>` reports "No Title" and an empty link. */
  lemma FallbackDefaults(xs: seq<XmlItem>, i: nat)
    requires i < |xs| && xs[i].title.None? && xs[i].link.None?
    ensures ItemTitles(xs)[i] == "No Title" && ItemLinks(xs)[i] == ""
  {
    FallbackAt(xs, i);
  }

  /** `fetch_manufacturing_mssd(limit)`, with `resp` the answer (`None`: the request raised):
      the titles collected, the fallback links printed, and whether the XML warning was printed. */
  method FetchMssd(resp: Option<Response>, limit: int) returns (items: seq<string>, links: seq<string>, warned: bool)
    ensures resp.None? ==> items == [] && links == [] && !warned
    ensures resp.Some? ==> warned == LooksNotXml(resp.value.text)
    ensures resp.Some? && |resp.value.entries| == 0 ==>
      items == ItemTitles(Head(resp.value.xmlItems, limit)) && links == ItemLinks(Head(resp.value.xmlItems, limit))
    ensures resp.Some? && |resp.value.entries| > 0 ==> items == EntryTitles(Head(resp.value.entries, limit)) && links == []
  {
    items, links, warned := [], [], false;
    if resp.None? {
      return;
    }
    var r := resp.value;
    warned := LooksNotXml(r.text);
    if |r.entries| == 0 {
      items, links := FallbackItems(Head(r.xmlItems, limit));
    } else {
      items := EntryLoop(Head(r.entries, limit));
    }
  }

  /** The loop over the `<item>` elements. */
  method FallbackItems(xs: seq<XmlItem>) returns (items: seq<string>, links: seq<string>)
    ensures items == ItemTitles(xs) && links == ItemLinks(xs)
  {
    items, links := [], [];
    for k := 0 to |xs|
      invariant items == ItemTitles(xs[..k]) && links == ItemLinks(xs[..k])
    {
      assert xs[..k + 1][..k] == xs[..k];
      items := items + [ItemTitle(xs[k])];
      links := links + [ItemLink(xs[k])];
    }
    assert xs[..|xs|] == xs;
  }

  /** The loop over the feed entries, left by the exception an entry without a title raises. */
  method EntryLoop(entries: seq<FeedEntry>) returns (items: seq<string>)
    ensures items == EntryTitles(entries)
  {
    items := [];
    var k := 0;
    while k < |entries|
      invariant k <= |entries|
      invariant items == EntryTitles(entries[..k]) && |items| == k
    {
      if entries[k].title.None? {
        TitlesStop(entries, k);
        return;
      }
      TitlesGrow(entries, k);
      items := items + [entries[k].title.value];
      k := k + 1;
    }
    assert entries[..k] == entries;
  }

  /** The titles of a longer run of titled entries gain the next title. */
  lemma {:induction false} TitlesGrow(entries: seq<FeedEntry>, k: nat)
    requires k < |entries| && entries[k].title.Some?
    requires |EntryTitles(entries[..k])| == k
    ensures EntryTitles(entries[..k + 1]) == EntryTitles(entries[..k]) + [entries[k].title.value]
    decreases k
  {
    if k > 0 {
      assert entries[..k + 1][1..] == entries[1..][..k];
      assert entries[..k][1..] == entries[1..][..k - 1];
      assert entries[..k][0] == entries[0];
      TitlesGrow(entries[1..], k - 1);
    }
  }

  /** Past an entry without a title the titles stay as they were. */
  lemma {:induction false} TitlesStop(entries: seq<FeedEntry>, k: nat)
    requires k < |entries| && entries[k].title.None?
    requires |EntryTitles(entries[..k])| == k
    ensures EntryTitles(entries) == EntryTitles(entries[..k])
    decreases k
  {
    if k > 0 {
      assert entries[..k][1..] == entries[1..][..k - 1];
      assert entries[..k][0] == entries[0];
      TitlesStop(entries[1..], k - 1);
    }
  }
}
