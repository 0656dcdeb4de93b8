/** What the two board scrapers share: the parsed page as they see it (rows of anchors), the text
    BeautifulSoup extracts with `get_text(strip=True)`, Python's `xs[:limit]`, and the choice of
    a row's title anchor. Parsing the HTML is not modelled: the rows are the parser's answer. */
module Scrape {
  import opened Wrappers
  import opened Text

  /** An `<a>` element of a row: its text pieces in document order, its `onclick` attribute when
      it has one, and whether it sits inside a `<td class="left">`. */
  datatype Anchor = Anchor(strings: seq<string>, onclick: Option<string>, inLeftCell: bool)

  /** A `<tr>` of the board: its anchors in document order. */
  datatype Row = Row(anchors: seq<Anchor>)

  /** `tag.get_text(strip=True)`: each text piece stripped, then all joined with nothing between. */
  function GetText(strings: seq<string>): string {
    if |strings| == 0 then "" else GetText(strings[..|strings| - 1]) + Strip(strings[|strings| - 1])
  }

  /** No whitespace at either end. */
  predicate Trimmed(s: string) {
    |s| == 0 || (!IsSpace(s[0]) && !IsSpace(s[|s| - 1]))
  }

  /** The extracted text has no whitespace at either end. */
  lemma {:induction false} GetTextTrimmed(strings: seq<string>)
    ensures Trimmed(GetText(strings))
  {
    if |strings| > 0 {
      GetTextTrimmed(strings[..|strings| - 1]);
      TrimmedConcat(GetText(strings[..|strings| - 1]), Strip(strings[|strings| - 1]));
    }
  }

  lemma TrimmedConcat(a: string, b: string)
    requires Trimmed(a) && Trimmed(b)
    ensures Trimmed(a + b)
  {
    if |a| > 0 {
      assert (a + b)[0] == a[0];
    }
    if |b| > 0 {
      assert (a + b)[|a + b| - 1] == b[|b| - 1];
    }
  }

  /** Pieces that are all whitespace add nothing to the text. */
  lemma {:induction false} GetTextOfBlanks(strings: seq<string>)
    requires forall k :: 0 <= k < |strings| ==> AllSpace(strings[k])
    ensures GetText(strings) == ""
  {
    if |strings| > 0 {
      GetTextOfBlanks(strings[..|strings| - 1]);
      StripBlank(strings[|strings| - 1]);
    }
  }

  /** The end of Python's slice `xs[:limit]` on a sequence of length `n`. */
  function SliceEnd(n: nat, limit: int): (r: nat)
    ensures r <= n
    ensures limit >= 0 ==> r == Min(limit, n)
    ensures limit < 0 ==> r == (if n + limit >= 0 then n + limit else 0)
  {
    if limit >= 0 then Min(limit, n) else if n + limit >= 0 then n + limit else 0
  }

  /** The rows a loop over `rows[:limit]` examines. */
  function Head<T>(xs: seq<T>, limit: int): seq<T> {
    xs[..SliceEnd(|xs|, limit)]
  }

  predicate InLeftCell(a: Anchor) {
    a.inLeftCell
  }

  /** `a.get('onclick', '')`. */
  function OnClick(a: Anchor): string {
    a.onclick.GetOr("")
  }

  /** `'goDetail' in a.get('onclick', '')`. */
  predicate CallsDetail(a: Anchor) {
    Contains(OnClick(a), "goDetail")
  }

  /** The index of the first anchor satisfying `p`, if any. */
  function First(anchors: seq<Anchor>, p: Anchor -> bool): (r: Option<nat>)
    ensures r.Some? ==> r.value < |anchors| && p(anchors[r.value]) && forall j :: 0 <= j < r.value ==> !p(anchors[j])
    ensures r.None? ==> forall j :: 0 <= j < |anchors| ==> !p(anchors[j])
  {
    if |anchors| == 0 then None
    else if p(anchors[0]) then Some(0)
    else
      match First(anchors[1..], p)
      case None => None
      case Some(i) => Some(i + 1)
  }

  /** The row's title anchor: `row.select_one('td.left a')`, else the first anchor whose
      `onclick` mentions `goDetail`. */
  function TitleTag(row: Row): Option<Anchor> {
    match First(row.anchors, InLeftCell)
    case Some(i) => Some(row.anchors[i])
    case None =>
      match First(row.anchors, CallsDetail)
      case Some(i) => Some(row.anchors[i])
      case None => None
  }

  /** A row with an anchor in a left cell takes the first of those, whatever the others call. */
  lemma LeftCellWins(row: Row, i: nat)
    requires i < |row.anchors| && row.anchors[i].inLeftCell
    requires forall j :: 0 <= j < i ==> !row.anchors[j].inLeftCell
    ensures TitleTag(row) == Some(row.anchors[i])
  {
    var f := First(row.anchors, InLeftCell);
    assert InLeftCell(row.anchors[i]);
    assert f.Some?;
    assert f.value == i;
  }

  /** A row has no title anchor exactly when no anchor is in a left cell and none calls
      `goDetail`. */
  lemma NoTitleTag(row: Row)
    ensures TitleTag(row).None? <==>
      forall j :: 0 <= j < |row.anchors| ==> !row.anchors[j].inLeftCell && !CallsDetail(row.anchors[j])
  {
    if TitleTag(row).None? {
      forall j | 0 <= j < |row.anchors| ensures !row.anchors[j].inLeftCell && !CallsDetail(row.anchors[j]) {
        assert !InLeftCell(row.anchors[j]);
      }
    }
    if forall j :: 0 <= j < |row.anchors| ==> !row.anchors[j].inLeftCell && !CallsDetail(row.anchors[j]) {
      assert forall j :: 0 <= j < |row.anchors| ==> !InLeftCell(row.anchors[j]);
    }
  }

  /** The title anchor search of the row loop: the selector, then the fallback loop that stops
      at the first anchor calling `goDetail`. */
  method FindTitleTag(row: Row) returns (tag: Option<Anchor>)
    ensures tag == TitleTag(row)
  {
    var left := First(row.anchors, InLeftCell);
    if left.Some? {
      return Some(row.anchors[left.value]);
    }
    tag := None;
    var k := 0;
    while k < |row.anchors|
      invariant 0 <= k <= |row.anchors|
      invariant forall j :: 0 <= j < k ==> !CallsDetail(row.anchors[j])
    {
      if CallsDetail(row.anchors[k]) {
        var f := First(row.anchors, CallsDetail);
        assert f.Some? && f.value == k;
        tag := Some(row.anchors[k]);
        return;
      }
      k := k + 1;
    }
  }

  /** The title anchors of the rows that have one, in row order. */
  function Kept(rows: seq<Row>): (r: seq<Anchor>)
    ensures |r| <= |rows|
    ensures |r| == |rows| <==> forall k :: 0 <= k < |rows| ==> TitleTag(rows[k]).Some?
    ensures forall i :: 0 <= i < |r| ==> exists k :: 0 <= k < |rows| && TitleTag(rows[k]) == Some(r[i])
  {
    if |rows| == 0 then []
    else
      var front := rows[..|rows| - 1];
      var tag := TitleTag(rows[|rows| - 1]);
      var r := Kept(front) + (if tag.Some? then [tag.value] else []);
      assert forall k :: 0 <= k < |front| ==> front[k] == rows[k];
      assert tag.Some? ==> TitleTag(rows[|rows| - 1]) == Some(r[|r| - 1]);
      r
  }

  /** What the row loop reports for the kept anchors: one title per anchor, and the link the
      loop derives from its `onclick` with `link`. */
  predicate Reports(kept: seq<Anchor>, items: seq<string>, links: seq<string>, link: string -> string) {
    |items| == |kept| && |links| == |kept|
    && (forall i :: 0 <= i < |kept| ==> items[i] == GetText(kept[i].strings))
    && (forall i :: 0 <= i < |kept| ==> links[i] == link(OnClick(kept[i])))
  }

  /** One pass of the row loop: the title anchor of row `k`, if any, adds its title and link. */
  method ReportRow(rows: seq<Row>, k: nat, items: seq<string>, links: seq<string>, link: string -> string)
    returns (items': seq<string>, links': seq<string>)
    requires k < |rows| && Reports(Kept(rows[..k]), items, links, link)
    ensures Reports(Kept(rows[..k + 1]), items', links', link)
  {
    var tag := FindTitleTag(rows[k]);
    KeptStep(rows, k);
    if tag.None? {
      return items, links;
    }
    ReportsSnoc(Kept(rows[..k]), items, links, link, tag.value);
    items' := items + [GetText(tag.value.strings)];
    links' := links + [link(OnClick(tag.value))];
  }

  /** One more row adds its title anchor, if it has one. */
  lemma KeptStep(rows: seq<Row>, k: nat)
    requires k < |rows|
    ensures TitleTag(rows[k]).None? ==> Kept(rows[..k + 1]) == Kept(rows[..k])
    ensures TitleTag(rows[k]).Some? ==> Kept(rows[..k + 1]) == Kept(rows[..k]) + [TitleTag(rows[k]).value]
  {
    var done := rows[..k + 1];
    assert done[..k] == rows[..k] && done[k] == rows[k];
    assert Kept(rows[..k]) + [] == Kept(rows[..k]);
  }

  /** One more anchor reported adds its title and its link. */
  lemma ReportsSnoc(kept: seq<Anchor>, items: seq<string>, links: seq<string>, link: string -> string, a: Anchor)
    requires Reports(kept, items, links, link)
    ensures Reports(kept + [a], items + [GetText(a.strings)], links + [link(OnClick(a))], link)
  {
  }

  /** The row loop over `rows[:limit]`: titles and links of the rows with a title anchor. */
  method ReportRows(rows: seq<Row>, limit: int, link: string -> string) returns (items: seq<string>, links: seq<string>)
    ensures Reports(Kept(Head(rows, limit)), items, links, link)
  {
    var head := Head(rows, limit);
    items, links := [], [];
    for k := 0 to |head|
      invariant Reports(Kept(head[..k]), items, links, link)
    {
      items, links := ReportRow(head, k, items, links, link);
    }
    assert head[..|head|] == head;
  }

  /** At most `limit` titles come back, and exactly one per examined row when every row has a
      title anchor. */
  lemma ReportBounds(rows: seq<Row>, limit: int, items: seq<string>, links: seq<string>, link: string -> string)
    requires Reports(Kept(Head(rows, limit)), items, links, link)
    ensures |items| <= |rows| && (limit >= 0 ==> |items| <= limit)
    ensures (forall k :: 0 <= k < |rows| ==> TitleTag(rows[k]).Some?) ==> |items| == SliceEnd(|rows|, limit)
  {
    var head := Head(rows, limit);
    if forall k :: 0 <= k < |rows| ==> TitleTag(rows[k]).Some? {
      assert forall k :: 0 <= k < |head| ==> head[k] == rows[k];
    }
  }

  /** The longest run of ASCII digits at the start of `s`: what a greedy `\d+` takes. */
  function DigitRun(s: string): (r: string)
    ensures |r| <= |s| && r == s[..|r|] && AllDigits(r)
    ensures |r| == |s| || !IsDigit(s[|r|])
  {
    if |s| > 0 && IsDigit(s[0]) then [s[0]] + DigitRun(s[1..]) else ""
  }

  /** The run of digits in front of anything that does not start with a digit is the digits. */
  lemma {:induction false} DigitRunOf(d: string, rest: string)
    requires AllDigits(d)
    requires |rest| == 0 || !IsDigit(rest[0])
    ensures DigitRun(d + rest) == d
  {
    if |d| > 0 {
      assert (d + rest)[1..] == d[1..] + rest;
      DigitRunOf(d[1..], rest);
    } else {
      assert d + rest == rest;
    }
  }

  /** Python's `re.search` for a pattern that `at` matches at single positions: the capture of
      the leftmost position at or after `p` where it matches. */
  function SearchFrom(s: string, p: nat, at: (string, nat) -> Option<string>): Option<string>
    requires p <= |s|
    decreases |s| - p
  {
    if at(s, p).Some? then at(s, p)
    else if p == |s| then None
    else SearchFrom(s, p + 1, at)
  }

  /** The search finds the leftmost match, and nothing only when no position matches. */
  lemma {:induction false} SearchLeftmost(s: string, p: nat, at: (string, nat) -> Option<string>)
    requires p <= |s|
    ensures SearchFrom(s, p, at).Some? ==>
      exists q :: p <= q <= |s| && at(s, q) == SearchFrom(s, p, at) && forall q' :: p <= q' < q ==> at(s, q').None?
    ensures SearchFrom(s, p, at).None? ==> forall q :: p <= q <= |s| ==> at(s, q).None?
    decreases |s| - p
  {
    if at(s, p).None? && p < |s| {
      SearchLeftmost(s, p + 1, at);
      var r := SearchFrom(s, p + 1, at);
      if r.Some? {
        var q :| p + 1 <= q <= |s| && at(s, q) == r && forall q' :: p + 1 <= q' < q ==> at(s, q').None?;
        assert forall q' :: p <= q' < q ==> at(s, q').None?;
      }
    }
  }

  /** A match at `p` with no match before it is what the search finds. */
  lemma SearchFirst(s: string, p: nat, at: (string, nat) -> Option<string>)
    requires p <= |s| && at(s, p).Some?
    requires forall q :: 0 <= q < p ==> at(s, q).None?
    ensures SearchFrom(s, 0, at) == at(s, p)
  {
    SearchLeftmost(s, 0, at);
    var q :| 0 <= q <= |s| && at(s, q) == SearchFrom(s, 0, at) && forall q' :: 0 <= q' < q ==> at(s, q').None?;
    assert q == p;
  }

  const DetailCall: string := "goDetail("

  /** `goDetail(` starts at position `p`, compared character by character. */
  predicate CallAt(s: string, p: nat) {
    p + 9 <= |s| && s[p] == 'g' && s[p + 1] == 'o' && s[p + 2] == 'D' && s[p + 3] == 'e' && s[p + 4] == 't'
    && s[p + 5] == 'a' && s[p + 6] == 'i' && s[p + 7] == 'l' && s[p + 8] == '('
  }

  /** Passing the character test is an occurrence of `goDetail(`. */
  lemma CallAtOccurs(s: string, p: nat)
    ensures CallAt(s, p) ==> OccursAt(s, DetailCall, p)
  {
    if CallAt(s, p) {
      assert s[p..p + 9] == DetailCall;
    }
  }

  const ViewPrefix: string := "https://www.exportvoucher.com/portal/board/boardView?bbs_id=1&ntt_id="
}
