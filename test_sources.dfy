/** The first version of the export-voucher board scraper: when the page has no `tbody tr` row
    it falls back to every `tr`, and it reads the notice id only out of `goDetail('N')` with
    single quotes. The page and its parse are inputs. */
module Sources {
  import opened Wrappers
  import opened Text
  import opened Scrape

  /** The id `goDetail\('(\d+)'\)` captures when it matches at position `p`. */
  function StrictIdAt(s: string, p: nat): (r: Option<string>)
    ensures r.Some? ==> |r.value| > 0 && AllDigits(r.value) && CallAt(s, p) && p + 9 < |s| && s[p + 9] == '\''
  {
    if CallAt(s, p) && p + 9 < |s| && s[p + 9] == '\'' then AfterQuote(s[p + 10..]) else None
  }

  /** The rest of the strict match once `goDetail('` is read: digits, then `')`. */
  function AfterQuote(t: string): (r: Option<string>)
    ensures r.Some? ==> |r.value| > 0 && AllDigits(r.value)
  {
    var d := DigitRun(t);
    var w := t[|d|..];
    if |d| > 0 && |w| >= 2 && w[0] == '\'' && w[1] == ')' then Some(d) else None
  }

  /** The notice link this version derives from an `onclick` value, or "" when nothing matches. */
  function StrictLink(onclick: string): string {
    match SearchFrom(onclick, 0, StrictIdAt)
    case Some(id) => ViewPrefix + id
    case None => ""
  }

  /** The single-quoted call, behind any prefix that has no `g` in it, gives the notice link. */
  lemma SingleQuoted(prefix: string, id: string, rest: string)
    requires forall i :: 0 <= i < |prefix| ==> prefix[i] != 'g'
    requires |id| > 0 && AllDigits(id)
    ensures StrictLink(prefix + DetailCall + "'" + id + "')" + rest) == ViewPrefix + id
  {
    var s := prefix + DetailCall + "'" + id + "')" + rest;
    var p := |prefix|;
    var w := "')" + rest;
    var u := id + w;
    assert s == prefix + (DetailCall + "'" + u);
    forall q | 0 <= q < p ensures StrictIdAt(s, q).None? {
      assert s[q] == prefix[q];
    }
    assert s[p..] == DetailCall + "'" + u;
    assert CallAt(s, p);
    assert s[p + 9] == (DetailCall + "'" + u)[9];
    assert s[p + 10..] == u;
    DigitRunOf(id, w);
    assert u[|id|..] == w;
    assert w[0] == '\'' && w[1] == ')';
    assert AfterQuote(u) == Some(id);
    SearchFirst(s, p, StrictIdAt);
  }

  /** Without a single quote in the `onclick` there is no link: `goDetail("N")` and
      `goDetail(N)` give "". */
  lemma NoSingleQuoteNoLink(onclick: string)
    requires forall i :: 0 <= i < |onclick| ==> onclick[i] != '\''
    ensures StrictLink(onclick) == ""
  {
    SearchLeftmost(onclick, 0, StrictIdAt);
    forall q | 0 <= q <= |onclick| ensures StrictIdAt(onclick, q).None? {
      if q + 9 < |onclick| {
        assert onclick[q + 9] != '\'';
      }
    }
  }

  /** The board page: its `tbody tr` rows and all its `tr` rows, in document order. */
  datatype Page = Page(bodyRows: seq<Row>, allRows: seq<Row>)

  /** The rows the scraper walks: the `tbody tr` rows, or every `tr` when there are none. */
  function RowsOf(page: Page): seq<Row> {
    if |page.bodyRows| == 0 then page.allRows else page.bodyRows
  }

  /** `fetch_exportvoucher_announcements(limit)`, with `page` the parsed board (`None`: the
      request raised): the title of each of the first `limit` selected rows that has a title
      anchor, and the link it derives for it. */
  method FetchExportVoucher(page: Option<Page>, limit: int) returns (items: seq<string>, links: seq<string>)
    ensures page.None? ==> items == [] && links == []
    ensures page.Some? ==> Reports(Kept(Head(RowsOf(page.value), limit)), items, links, StrictLink)
  {
    if page.None? {
      return [], [];
    }
    var rows := page.value.bodyRows;
    if |rows| == 0 {
      rows := page.value.allRows;
    }
    items, links := ReportRows(rows, limit, StrictLink);
  }
}
