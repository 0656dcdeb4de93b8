/** The stock bot: expansion of `@GROUP` tickers into their members, first-wins de-duplication by
    symbol, the per-ticker status message, the two "already published" checks made before any
    download, the in-run history of post outcomes, the title and tag strings of a post, and the
    interleaving of images between the `<h2>` sections of the report body. Files, the SEC lookups
    and the WordPress post listing are inputs. */
module StockBot {
  import opened Wrappers
  import opened Calls
  import opened Text
  import opened Status
  import opened WordPress

  // ---------------------------------------------------------------------------
  // Ticker expansion

  /** One analysis target and the configuration entry it came from. */
  datatype Item = Item(symbol: string, group: string)

  /** A group file `stock_data/<name>.json`: absent, unreadable as JSON, or a list of symbols. */
  datatype GroupFile = Missing | Unreadable | Members(symbols: seq<string>)

  const IndividualGroup := "Individual"

  /** `os.path.join("stock_data", t[1:].lower() + ".json")` for a group entry `t`. */
  function GroupPath(t: string): string
    requires |t| > 0
  {
    "stock_data/" + Lower(t[1..]) + ".json"
  }

  /** The symbols of a group file tagged with the group entry. */
  function Tagged(symbols: seq<string>, group: string): (r: seq<Item>)
    ensures |r| == |symbols|
    ensures forall k :: 0 <= k < |r| ==> r[k] == Item(symbols[k], group)
  {
    if |symbols| == 0 then [] else Tagged(symbols[..|symbols| - 1], group) + [Item(symbols[|symbols| - 1], group)]
  }

  /** The items one configuration entry expands to: a plain ticker gives itself in the group
      `Individual`; `@NAME` gives every member of its group file tagged `@NAME`, or nothing when
      the file is missing or cannot be read. */
  function ExpandOne(t: string, files: string -> GroupFile): seq<Item> {
    if StartsWith(t, "@") then
      match files(GroupPath(t))
      case Members(symbols) => Tagged(symbols, t)
      case _ => []
    else [Item(t, IndividualGroup)]
  }

  /** A plain ticker gives itself; a group entry the members of its file, in file order, or
      nothing when the file is missing or unreadable. */
  lemma ExpandOneCases(t: string, files: string -> GroupFile)
    ensures var r := ExpandOne(t, files);
      (!StartsWith(t, "@") ==> r == [Item(t, IndividualGroup)]) &&
      (StartsWith(t, "@") && files(GroupPath(t)).Members? ==>
        |r| == |files(GroupPath(t)).symbols| &&
        forall k :: 0 <= k < |r| ==> r[k] == Item(files(GroupPath(t)).symbols[k], t)) &&
      (StartsWith(t, "@") && !files(GroupPath(t)).Members? ==> r == [])
  {
  }

  /** `expanded_items` after the whole configuration list. */
  function Expanded(tickers: seq<string>, files: string -> GroupFile): seq<Item> {
    if |tickers| == 0 then []
    else Expanded(tickers[..|tickers| - 1], files) + ExpandOne(tickers[|tickers| - 1], files)
  }

  /** The expansion loop, with its inner loop over the members of a group file. */
  method ExpandTickers(tickers: seq<string>, files: string -> GroupFile) returns (items: seq<Item>)
    ensures items == Expanded(tickers, files)
  {
    items := [];
    for i := 0 to |tickers|
      invariant items == Expanded(tickers[..i], files)
    {
      var t := tickers[i];
      assert tickers[..i + 1][..i] == tickers[..i];
      if StartsWith(t, "@") {
        var file := files(GroupPath(t));
        if file.Members? {
          ghost var before := items;
          for j := 0 to |file.symbols|
            invariant items == before + Tagged(file.symbols[..j], t)
          {
            items := items + [Item(file.symbols[j], t)];
            assert file.symbols[..j + 1][..j] == file.symbols[..j];
          }
          assert file.symbols[..|file.symbols|] == file.symbols;
        }
      } else {
        items := items + [Item(t, IndividualGroup)];
      }
    }
    assert tickers[..|tickers|] == tickers;
  }

  /** Expanding two lists one after the other is expanding their concatenation. */
  lemma {:induction false} ExpandedAppend(a: seq<string>, b: seq<string>, files: string -> GroupFile)
    ensures Expanded(a + b, files) == Expanded(a, files) + Expanded(b, files)
    decreases |b|
  {
    if |b| == 0 {
      assert a + b == a;
    } else {
      var front := b[..|b| - 1];
      LastSplit(b);
      ExpandedAppend(a, front, files);
      ExpandedAppendStep(a, front, b[|b| - 1], files);
    }
  }

  lemma ExpandedAppendStep(a: seq<string>, front: seq<string>, t: string, files: string -> GroupFile)
    requires Expanded(a + front, files) == Expanded(a, files) + Expanded(front, files)
    ensures Expanded(a + (front + [t]), files) == Expanded(a, files) + Expanded(front + [t], files)
  {
    assert a + (front + [t]) == (a + front) + [t];
    ExpandedSnoc(a + front, t, files);
    ExpandedSnoc(front, t, files);
    Concat3(Expanded(a, files), Expanded(front, files), ExpandOne(t, files));
  }

  lemma ExpandedSnoc(xs: seq<string>, t: string, files: string -> GroupFile)
    ensures Expanded(xs + [t], files) == Expanded(xs, files) + ExpandOne(t, files)
  {
    assert (xs + [t])[..|xs|] == xs;
  }

  /** Every expanded item comes from the configuration: a plain ticker as itself, or a member of
      the file of a group entry, tagged with that entry. */
  lemma {:induction false} ExpandedOrigin(tickers: seq<string>, files: string -> GroupFile)
    ensures forall x :: x in Expanded(tickers, files) ==>
      (x.group == IndividualGroup && x.symbol in tickers && !StartsWith(x.symbol, "@")) ||
      (x.group in tickers && StartsWith(x.group, "@") && files(GroupPath(x.group)).Members? &&
       x.symbol in files(GroupPath(x.group)).symbols)
  {
    if |tickers| > 0 {
      var front := tickers[..|tickers| - 1];
      var t := tickers[|tickers| - 1];
      ExpandedOrigin(front, files);
      assert forall u :: u in front ==> u in tickers;
      ExpandOneCases(t, files);
      forall x | x in ExpandOne(t, files)
        ensures (x.group == IndividualGroup && x.symbol in tickers && !StartsWith(x.symbol, "@")) ||
          (x.group in tickers && StartsWith(x.group, "@") && files(GroupPath(x.group)).Members? &&
           x.symbol in files(GroupPath(x.group)).symbols)
      {
        var r := ExpandOne(t, files);
        var k :| 0 <= k < |r| && r[k] == x;
        if StartsWith(t, "@") {
          assert x == Item(files(GroupPath(t)).symbols[k], t);
        }
      }
    }
  }

  // ---------------------------------------------------------------------------
  // De-duplication by symbol, first occurrence wins

  function SymbolsOf(items: seq<Item>): set<string> {
    set x | x in items :: x.symbol
  }

  /** `list(unique_items.values())`: the insertion-ordered dict keeps the first item of each symbol. */
  function Dedup(items: seq<Item>): (r: seq<Item>)
    ensures SymbolsOf(r) == SymbolsOf(items)
    ensures forall x :: x in r ==> x in items
  {
    if |items| == 0 then []
    else
      var d := Dedup(items[..|items| - 1]);
      var last := items[|items| - 1];
      assert items == items[..|items| - 1] + [last];
      SymbolsOfSnoc(items[..|items| - 1], last);
      SymbolsOfSnoc(d, last);
      if last.symbol in SymbolsOf(d) then d else d + [last]
  }

  /** No earlier item has the same symbol. */
  predicate IsFirst(items: seq<Item>, i: int)
    requires 0 <= i < |items|
  {
    forall j :: 0 <= j < i ==> items[j].symbol != items[i].symbol
  }

  /** Being first is decided by the items up to that point. */
  lemma {:induction false} IsFirstInPrefix(items: seq<Item>, n: nat, i: nat)
    requires i < n <= |items|
    ensures IsFirst(items[..n], i) <==> IsFirst(items, i)
  {
    assert forall j :: 0 <= j <= i ==> items[..n][j] == items[j];
  }

  lemma {:induction false} SymbolsOfSnoc(xs: seq<Item>, x: Item)
    ensures SymbolsOf(xs + [x]) == SymbolsOf(xs) + {x.symbol}
  {
    assert forall y :: y in xs + [x] <==> y in xs || y == x;
  }

  /** The positions of the kept items in the input. */
  function FirstPositions(items: seq<Item>): (r: seq<nat>)
    ensures |r| == |Dedup(items)|
  {
    if |items| == 0 then []
    else
      var pf := FirstPositions(items[..|items| - 1]);
      if items[|items| - 1].symbol in SymbolsOf(Dedup(items[..|items| - 1])) then pf else pf + [|items| - 1]
  }

  /** Each position points at its kept item, and that item is the first of its symbol. */
  lemma {:induction false} FirstPositionsPoint(items: seq<Item>)
    ensures forall k :: 0 <= k < |FirstPositions(items)| ==>
      FirstPositions(items)[k] < |items| && items[FirstPositions(items)[k]] == Dedup(items)[k] &&
      IsFirst(items, FirstPositions(items)[k])
  {
    if |items| > 0 {
      var n := |items| - 1;
      var front := items[..n];
      FirstPositionsPoint(front);
      var pf := FirstPositions(front);
      var d := Dedup(front);
      forall k | 0 <= k < |pf| ensures items[pf[k]] == d[k] && IsFirst(items, pf[k]) {
        IsFirstInPrefix(items, n, pf[k]);
      }
      if items[n].symbol !in SymbolsOf(d) {
        assert IsFirst(items, n) by {
          forall j | 0 <= j < n ensures items[j].symbol != items[n].symbol {
            assert items[j] in front;
          }
        }
      }
    }
  }

  /** The positions increase. */
  lemma {:induction false} FirstPositionsIncreasing(items: seq<Item>)
    ensures forall p, q :: 0 <= p < q < |FirstPositions(items)| ==> FirstPositions(items)[p] < FirstPositions(items)[q]
  {
    if |items| > 0 {
      var n := |items| - 1;
      FirstPositionsIncreasing(items[..n]);
      FirstPositionsPoint(items[..n]);
    }
  }

  /** Every first occurrence is among the positions. */
  lemma {:induction false} FirstPositionsComplete(items: seq<Item>)
    ensures forall i :: 0 <= i < |items| && IsFirst(items, i) ==> i in FirstPositions(items)
  {
    if |items| > 0 {
      var n := |items| - 1;
      var front := items[..n];
      FirstPositionsComplete(front);
      var pf := FirstPositions(front);
      var pos := FirstPositions(items);
      assert forall t :: t in pf ==> t in pos;
      forall i | 0 <= i < n && IsFirst(items, i) ensures i in pos {
        IsFirstInPrefix(items, n, i);
      }
      SeenNotFirst(items, n);
    }
  }

  /** An item whose symbol the kept items before it already have is not the first of its symbol. */
  lemma SeenNotFirst(items: seq<Item>, n: nat)
    requires n < |items|
    ensures items[n].symbol in SymbolsOf(Dedup(items[..n])) ==> !IsFirst(items, n)
  {
    var front := items[..n];
    var d := Dedup(front);
    if items[n].symbol in SymbolsOf(d) {
      FirstPositionsPoint(front);
      var pf := FirstPositions(front);
      var x :| x in d && x.symbol == items[n].symbol;
      var k :| 0 <= k < |d| && d[k] == x;
      assert items[pf[k]].symbol == items[n].symbol && pf[k] < n;
    }
  }

  /** The kept items: no symbol twice, each the first item of its symbol, in first-appearance order. */
  lemma {:induction false} DedupKeepsFirstOccurrences(items: seq<Item>)
    ensures var r := Dedup(items);
      (forall p, q :: 0 <= p < q < |r| ==> r[p].symbol != r[q].symbol) &&
      (forall i :: 0 <= i < |items| && IsFirst(items, i) ==> items[i] in r) &&
      (forall x :: x in r ==> exists i :: 0 <= i < |items| && IsFirst(items, i) && items[i] == x)
  {
    var r := Dedup(items);
    var pos := FirstPositions(items);
    FirstPositionsPoint(items);
    FirstPositionsIncreasing(items);
    FirstPositionsComplete(items);
    forall p, q | 0 <= p < q < |r| ensures r[p].symbol != r[q].symbol {
      assert IsFirst(items, pos[q]) && pos[p] < pos[q];
      assert items[pos[p]] == r[p] && items[pos[q]] == r[q];
    }
    forall i | 0 <= i < |items| && IsFirst(items, i) ensures items[i] in r {
      var k :| 0 <= k < |pos| && pos[k] == i;
      assert r[k] == items[i];
    }
    forall x | x in r ensures exists i :: 0 <= i < |items| && IsFirst(items, i) && items[i] == x {
      var k :| 0 <= k < |r| && r[k] == x;
      assert IsFirst(items, pos[k]) && items[pos[k]] == x;
    }
  }

  /** The de-duplication loop over the insertion-ordered dict `unique_items`, then its values. */
  method DedupItems(items: seq<Item>) returns (finalItems: seq<Item>)
    ensures finalItems == Dedup(items)
  {
    var unique: map<string, Item> := map[];
    var order: seq<string> := [];
    for i := 0 to |items|
      invariant Indexed(Dedup(items[..i]), unique, order)
    {
      unique, order := IndexItem(items, i, unique, order);
    }
    assert items[..|items|] == items;
    finalItems := Values(Dedup(items), unique, order);
  }

  /** The dict holds the kept items `d` under their symbols, and `order` is its insertion order. */
  predicate Indexed(d: seq<Item>, unique: map<string, Item>, order: seq<string>) {
    |order| == |d| && unique.Keys == SymbolsOf(d) &&
    forall k :: 0 <= k < |d| ==> order[k] == d[k].symbol && order[k] in unique && unique[order[k]] == d[k]
  }

  /** One pass of the dict loop: item `i` goes in unless its symbol is already there. */
  method IndexItem(items: seq<Item>, i: nat, unique: map<string, Item>, order: seq<string>)
    returns (unique': map<string, Item>, order': seq<string>)
    requires i < |items| && Indexed(Dedup(items[..i]), unique, order)
    ensures Indexed(Dedup(items[..i + 1]), unique', order')
  {
    assert items[..i + 1][..i] == items[..i];
    var item := items[i];
    unique', order' := unique, order;
    if item.symbol !in unique {
      unique' := unique[item.symbol := item];
      order' := order + [item.symbol];
    }
  }

  /** `list(unique_items.values())`, in insertion order. */
  method Values(d: seq<Item>, unique: map<string, Item>, order: seq<string>) returns (values: seq<Item>)
    requires Indexed(d, unique, order)
    ensures values == d
  {
    values := [];
    for k := 0 to |order|
      invariant values == d[..k]
    {
      values := values + [unique[order[k]]];
    }
  }

  // ---------------------------------------------------------------------------
  // Titles, tags and keys

  /** The part of the post title the duplicate check looks for. */
  function CheckTitlePart(ticker: string, reportType: string, date: string): string {
    ticker + " " + reportType + " 리포트 (" + date + ")"
  }

  /** The title of the post. */
  function PostTitle(tagStr: string, ticker: string, reportType: string, date: string): string {
    tagStr + " [SEC] " + ticker + " " + reportType + " 리포트 (" + date + ")"
  }

  /** The key of the in-run history. */
  function HistoryKey(ticker: string, reportType: string, date: string): string {
    ticker + "_" + reportType + "_" + date
  }

  /** A post published under the title always answers the duplicate check for its report. */
  lemma {:induction false} TitleContainsCheckPart(tagStr: string, ticker: string, reportType: string, date: string)
    ensures Contains(PostTitle(tagStr, ticker, reportType, date), CheckTitlePart(ticker, reportType, date))
  {
    var part := CheckTitlePart(ticker, reportType, date);
    assert PostTitle(tagStr, ticker, reportType, date) == tagStr + " [SEC] " + part + "";
    ContainsInfix(tagStr + " [SEC] ", part, "");
  }

  const SP500Tag := "S&P500"
  const KingsTag := "배당킹"

  /** The tags of a ticker: S&P500 when its list file exists and holds the ticker, then the
      dividend-king tag likewise. */
  function Tags(ticker: string, sp500: Option<seq<string>>, kings: Option<seq<string>>): seq<string> {
    (if sp500.Some? && ticker in sp500.value then [SP500Tag] else []) +
    (if kings.Some? && ticker in kings.value then [KingsTag] else [])
  }

  function TagString(tags: seq<string>): string {
    if |tags| == 0 then "" else "[" + Join(tags, "/") + "]"
  }

  /** The four possible tag strings. */
  lemma {:induction false} TagStringCases(ticker: string, sp500: Option<seq<string>>, kings: Option<seq<string>>)
    ensures var inSp := sp500.Some? && ticker in sp500.value;
      var inKings := kings.Some? && ticker in kings.value;
      TagString(Tags(ticker, sp500, kings)) ==
        if inSp && inKings then "[S&P500/배당킹]"
        else if inSp then "[S&P500]"
        else if inKings then "[배당킹]"
        else ""
  {
    var inSp := sp500.Some? && ticker in sp500.value;
    var inKings := kings.Some? && ticker in kings.value;
    if inSp && inKings {
      assert Tags(ticker, sp500, kings) == [SP500Tag, KingsTag];
      TagStringOfBoth();
    } else if inSp {
      assert Tags(ticker, sp500, kings) == [SP500Tag];
      TagStringOfOne(SP500Tag);
    } else if inKings {
      assert Tags(ticker, sp500, kings) == [KingsTag];
      TagStringOfOne(KingsTag);
    } else {
      assert Tags(ticker, sp500, kings) == [];
    }
  }

  lemma TagStringOfBoth()
    ensures TagString([SP500Tag, KingsTag]) == "[S&P500/배당킹]"
  {
    assert [SP500Tag, KingsTag] == [SP500Tag] + [KingsTag];
    JoinCons(SP500Tag, [KingsTag], "/");
    assert "[" + (SP500Tag + "/" + KingsTag) + "]" == "[S&P500/배당킹]";
  }

  lemma TagStringOfOne(tag: string)
    ensures TagString([tag]) == "[" + tag + "]"
  {
  }

  // ---------------------------------------------------------------------------
  // The checks before a download

  /** `get_latest_filing_url` for one ticker and form type: nothing, or a URL and a filing date. */
  datatype Latest = NotFound | Found(url: string, date: string)

  /** What the loop does with one (ticker, report type): move on for want of a CIK or a filing,
      end the job when listing the recent posts raises (no WordPress credentials), skip a report
      already on WordPress or already posted in this run, or go on to download it. */
  datatype Decision = NoCik | NoFiling | PostsRaised(message: string) | OnWordPress(part: string) | InHistory(key: string)
                    | Download(key: string, url: string, date: string)

  /** The decisions after which the job goes no further: the rest of the loop is not reached. */
  predicate Stops(d: Decision) {
    d.PostsRaised? || d.Download?
  }

  /** `history.get(key)` is truthy: the stored value is `True`. */
  predicate Skips(history: map<string, bool>, key: string) {
    key in history && history[key]
  }

  /** Some recent post title contains the title part. */
  predicate Published(posts: seq<RecentPost>, part: string) {
    exists p :: p in posts && Contains(p.title, part)
  }

  function Decide(ticker: string, reportType: string, cik: Option<string>, latest: Latest,
                  posts: Call<seq<RecentPost>>, history: map<string, bool>): Decision
  {
    if cik.None? || cik.value == "" then NoCik
    else if latest.NotFound? || latest.url == "" then NoFiling
    else if posts.Raises? then PostsRaised(posts.message)
    else
      var part := CheckTitlePart(ticker, reportType, latest.date);
      var key := HistoryKey(ticker, reportType, latest.date);
      if Published(posts.value, part) then OnWordPress(part)
      else if Skips(history, key) then InHistory(key)
      else Download(key, latest.url, latest.date)
  }

  /** A report goes on to download only when it has not been published by the bot: no recent post
      carries the title the bot gives it, whatever its tags, and the history does not hold `True`
      for it. The download then uses the filing's URL and date, and the run's history key. */
  lemma DownloadIsUnpublished(ticker: string, reportType: string, cik: Option<string>, latest: Latest,
                              posts: Call<seq<RecentPost>>, history: map<string, bool>)
    requires Decide(ticker, reportType, cik, latest, posts, history).Download?
    ensures cik.Some? && cik.value != "" && latest.Found? && posts.Returns?
    ensures var d := Decide(ticker, reportType, cik, latest, posts, history);
      d.url == latest.url != "" && d.date == latest.date && d.key == HistoryKey(ticker, reportType, latest.date) &&
      !Skips(history, d.key)
    ensures forall p, tagStr :: p in posts.value ==> p.title != PostTitle(tagStr, ticker, reportType, latest.date)
  {
    forall p, tagStr | p in posts.value ensures p.title != PostTitle(tagStr, ticker, reportType, latest.date) {
      TitleContainsCheckPart(tagStr, ticker, reportType, latest.date);
    }
  }

  /** Once a report has been posted under its title and that post is among the recent ones, the
      next check skips the report before any download. */
  lemma {:induction false} PostedReportIsSkipped(tagStr: string, ticker: string, reportType: string, cik: string, latest: Latest,
                              posts: seq<RecentPost>, history: map<string, bool>, p: RecentPost)
    requires cik != "" && latest.Found? && latest.url != ""
    requires p in posts && p.title == PostTitle(tagStr, ticker, reportType, latest.date)
    ensures Decide(ticker, reportType, Some(cik), latest, Returns(posts), history).OnWordPress?
  {
    TitleContainsCheckPart(tagStr, ticker, reportType, latest.date);
  }

  /** The scan over the recent posts, stopping at the first title that contains the part. */
  method IsDuplicate(posts: seq<RecentPost>, part: string) returns (duplicate: bool)
    ensures duplicate <==> Published(posts, part)
  {
    duplicate := false;
    var i := 0;
    while i < |posts|
      invariant 0 <= i <= |posts|
      invariant !duplicate && forall j :: 0 <= j < i ==> !Contains(posts[j].title, part)
    {
      if Contains(posts[i].title, part) {
        duplicate := true;
        return;
      }
      i := i + 1;
    }
  }

  /** The checks for one report type, in the order the loop makes them. */
  method CheckReport(ticker: string, reportType: string, cik: Option<string>, latest: Latest,
                     posts: Call<seq<RecentPost>>, history: map<string, bool>) returns (d: Decision)
    ensures d == Decide(ticker, reportType, cik, latest, posts, history)
  {
    if cik.None? || cik.value == "" {
      return NoCik;
    }
    if latest.NotFound? || latest.url == "" {
      return NoFiling;
    }
    if posts.Raises? {
      return PostsRaised(posts.message);
    }
    var part := CheckTitlePart(ticker, reportType, latest.date);
    var duplicate := IsDuplicate(posts.value, part);
    if duplicate {
      return OnWordPress(part);
    }
    var key := HistoryKey(ticker, reportType, latest.date);
    if key in history && history[key] {
      return InHistory(key);
    }
    d := Download(key, latest.url, latest.date);
  }

  // ---------------------------------------------------------------------------
  // The in-run history

  /** `history`: empty at the start of every run, then one entry per attempted post. */
  class History {
    var entries: map<string, bool>

    constructor ()
      ensures entries == map[]
    {
      entries := map[];
    }

    predicate ShouldSkip(key: string)
      reads this
    {
      Skips(entries, key)
    }

    /** `history[unique_key] = True` after a post, `False` after a failed one. */
    method Record(key: string, posted: bool)
      modifies this
      ensures entries == old(entries)[key := posted]
    {
      entries := entries[key := posted];
    }
  }

  /** After recording, the key is skipped exactly when the post went out, and no other key changes. */
  lemma {:induction false} RecordDecidesSkip(history: map<string, bool>, key: string, posted: bool)
    ensures Skips(history[key := posted], key) <==> posted
    ensures forall k :: k != key ==> (Skips(history[key := posted], k) <==> Skips(history, k))
  {
  }

  // ---------------------------------------------------------------------------
  // The job loop up to the download

  /** One entry of the configuration's report types; `report_types` defaults to `["10-K"]`. */
  function ReportTypes(configured: Option<seq<string>>): seq<string> {
    configured.GetOr(["10-K"])
  }

  const StartUpdate := Update("running", "[START] 봇 초기화 및 종목 리스트 로드 중...", 0.0)

  /** The status text of item `i` (from 0) of `n`: the progress part, then group and ticker after
      `|` separators for the dashboard. */
  function ProgressMessage(i: nat, n: nat, item: Item): string {
    "[PROGRESS] [" + NatToString(i + 1) + "/" + NatToString(n) + "] " + item.symbol + " analyzing...|" + item.group + "|" + item.symbol
  }

  function ProgressUpdate(i: nat, n: nat, item: Item): Update
    requires i < n
  {
    Update("running", ProgressMessage(i, n, item), (i as real) / (n as real))
  }

  /** One check made by the loop. */
  datatype Checked = Checked(symbol: string, reportType: string, decision: Decision)

  /** The checks ended at a download or at a raising listing, where the job stops. */
  predicate Halted(cs: seq<Checked>) {
    |cs| > 0 && Stops(cs[|cs| - 1].decision)
  }

  /** The checks of one item over the report types, up to the first that ends the job. */
  function ItemChecks(item: Item, types: seq<string>, history: map<string, bool>, cikOf: string -> Option<string>,
                      latestOf: (string, string) -> Latest,
                      postsOf: (string, string) -> Call<seq<RecentPost>>): (r: seq<Checked>)
    ensures |r| <= |types|
    ensures forall k :: 0 <= k < |r| ==> r[k].symbol == item.symbol
    ensures forall k :: 0 <= k < |r| - 1 ==> !Stops(r[k].decision)
  {
    if |types| == 0 then []
    else
      var prev := ItemChecks(item, types[..|types| - 1], history, cikOf, latestOf, postsOf);
      var t := types[|types| - 1];
      if Halted(prev) then prev
      else prev + [Checked(item.symbol, t, Decide(item.symbol, t, cikOf(item.symbol), latestOf(item.symbol, t), postsOf(item.symbol, t), history))]
  }

  /** The checks of the first `k` items, up to the first that ends the job: a download, where the
      loop calls `core.download_filing_html`, which `sec_module/core.py` does not define, outside
      any `try`, so the `AttributeError` ends `run_stock_job`; or a listing of the recent posts
      whose `ValueError` for missing WordPress credentials no `try` catches. */
  function RunChecks(items: seq<Item>, k: nat, types: seq<string>, history: map<string, bool>, cikOf: string -> Option<string>,
                     latestOf: (string, string) -> Latest,
                     postsOf: (string, string) -> Call<seq<RecentPost>>): (r: seq<Checked>)
    requires k <= |items|
    ensures forall j :: 0 <= j < |r| - 1 ==> !Stops(r[j].decision)
  {
    if k == 0 then []
    else
      var prev := RunChecks(items, k - 1, types, history, cikOf, latestOf, postsOf);
      if Halted(prev) then prev
      else prev + ItemChecks(items[k - 1], types, history, cikOf, latestOf, postsOf)
  }

  /** The progress updates of the first `k` items: one per item the loop reaches. */
  function RunUpdates(items: seq<Item>, k: nat, types: seq<string>, history: map<string, bool>, cikOf: string -> Option<string>,
                      latestOf: (string, string) -> Latest,
                      postsOf: (string, string) -> Call<seq<RecentPost>>): (r: seq<Update>)
    requires k <= |items|
    ensures |r| <= k
    ensures !Halted(RunChecks(items, k, types, history, cikOf, latestOf, postsOf)) ==> |r| == k
    ensures forall j :: 0 <= j < |r| ==> r[j] == ProgressUpdate(j, |items|, items[j])
  {
    if k == 0 then []
    else
      var prev := RunUpdates(items, k - 1, types, history, cikOf, latestOf, postsOf);
      if Halted(RunChecks(items, k - 1, types, history, cikOf, latestOf, postsOf)) then prev
      else prev + [ProgressUpdate(k - 1, |items|, items[k - 1])]
  }

  /** Once the checks of an item reach a download, later report types add nothing. */
  lemma {:induction false} ItemChecksHaltedStays(item: Item, types: seq<string>, j: nat, m: nat, history: map<string, bool>,
                                                 cikOf: string -> Option<string>, latestOf: (string, string) -> Latest,
                                                 postsOf: (string, string) -> Call<seq<RecentPost>>)
    requires j <= m <= |types|
    requires Halted(ItemChecks(item, types[..j], history, cikOf, latestOf, postsOf))
    ensures ItemChecks(item, types[..m], history, cikOf, latestOf, postsOf) == ItemChecks(item, types[..j], history, cikOf, latestOf, postsOf)
    decreases m
  {
    if m > j {
      ItemChecksHaltedStays(item, types, j, m - 1, history, cikOf, latestOf, postsOf);
      assert types[..m][..m - 1] == types[..m - 1];
    }
  }

  /** Once the run reaches a download, later items add no checks. */
  lemma {:induction false} RunChecksHaltedStays(items: seq<Item>, k: nat, m: nat, types: seq<string>, history: map<string, bool>,
                                                cikOf: string -> Option<string>, latestOf: (string, string) -> Latest,
                                                postsOf: (string, string) -> Call<seq<RecentPost>>)
    requires k <= m <= |items|
    requires Halted(RunChecks(items, k, types, history, cikOf, latestOf, postsOf))
    ensures RunChecks(items, m, types, history, cikOf, latestOf, postsOf) == RunChecks(items, k, types, history, cikOf, latestOf, postsOf)
    decreases m
  {
    if m > k {
      RunChecksHaltedStays(items, k, m - 1, types, history, cikOf, latestOf, postsOf);
    }
  }

  /** Once the run reaches a download, later items add no updates. */
  lemma {:induction false} RunUpdatesHaltedStays(items: seq<Item>, k: nat, m: nat, types: seq<string>, history: map<string, bool>,
                                                 cikOf: string -> Option<string>, latestOf: (string, string) -> Latest,
                                                 postsOf: (string, string) -> Call<seq<RecentPost>>)
    requires k <= m <= |items|
    requires Halted(RunChecks(items, k, types, history, cikOf, latestOf, postsOf))
    ensures RunUpdates(items, m, types, history, cikOf, latestOf, postsOf) == RunUpdates(items, k, types, history, cikOf, latestOf, postsOf)
    decreases m
  {
    if m > k {
      RunUpdatesHaltedStays(items, k, m - 1, types, history, cikOf, latestOf, postsOf);
      RunChecksHaltedStays(items, k, m - 1, types, history, cikOf, latestOf, postsOf);
      assert Halted(RunChecks(items, m - 1, types, history, cikOf, latestOf, postsOf));
    }
  }

  /** The inner loop over the report types of one item, ending at the first download. */
  method VisitItem(item: Item, types: seq<string>, history: map<string, bool>, cikOf: string -> Option<string>,
                   latestOf: (string, string) -> Latest, postsOf: (string, string) -> Call<seq<RecentPost>>)
    returns (cs: seq<Checked>)
    ensures cs == ItemChecks(item, types, history, cikOf, latestOf, postsOf)
  {
    cs := [];
    var j := 0;
    while j < |types| && !Halted(cs)
      invariant 0 <= j <= |types|
      invariant cs == ItemChecks(item, types[..j], history, cikOf, latestOf, postsOf)
    {
      cs := VisitType(item, types, j, cs, history, cikOf, latestOf, postsOf);
      j := j + 1;
    }
    ItemChecksDone(item, types, j, history, cikOf, latestOf, postsOf);
  }

  /** The inner loop may stop at the end of the report types or at the first download. */
  lemma ItemChecksDone(item: Item, types: seq<string>, j: nat, history: map<string, bool>,
                       cikOf: string -> Option<string>, latestOf: (string, string) -> Latest,
                       postsOf: (string, string) -> Call<seq<RecentPost>>)
    requires j <= |types|
    requires j == |types| || Halted(ItemChecks(item, types[..j], history, cikOf, latestOf, postsOf))
    ensures ItemChecks(item, types, history, cikOf, latestOf, postsOf) == ItemChecks(item, types[..j], history, cikOf, latestOf, postsOf)
  {
    assert types[..|types|] == types;
    if j < |types| {
      ItemChecksHaltedStays(item, types, j, |types|, history, cikOf, latestOf, postsOf);
    }
  }

  /** One pass of the inner loop: the check of report type `types[j]`. */
  method VisitType(item: Item, types: seq<string>, j: nat, cs: seq<Checked>, history: map<string, bool>,
                   cikOf: string -> Option<string>, latestOf: (string, string) -> Latest,
                   postsOf: (string, string) -> Call<seq<RecentPost>>)
    returns (cs': seq<Checked>)
    requires j < |types|
    requires cs == ItemChecks(item, types[..j], history, cikOf, latestOf, postsOf) && !Halted(cs)
    ensures cs' == ItemChecks(item, types[..j + 1], history, cikOf, latestOf, postsOf)
  {
    var t := types[j];
    var d := CheckReport(item.symbol, t, cikOf(item.symbol), latestOf(item.symbol, t), postsOf(item.symbol, t), history);
    assert types[..j + 1][..j] == types[..j];
    cs' := cs + [Checked(item.symbol, t, d)];
  }

  /** The loop over the items: one status update per item reached, then its checks, until the job
      ends at a download. */
  method ScanItems(items: seq<Item>, types: seq<string>, history: History, cikOf: string -> Option<string>,
                   latestOf: (string, string) -> Latest, postsOf: (string, string) -> Call<seq<RecentPost>>)
    returns (updates: seq<Update>, checked: seq<Checked>, raised: bool)
    ensures updates == RunUpdates(items, |items|, types, history.entries, cikOf, latestOf, postsOf)
    ensures checked == RunChecks(items, |items|, types, history.entries, cikOf, latestOf, postsOf)
    ensures raised == Halted(checked)
  {
    updates := [];
    checked := [];
    var h := history.entries;
    var i := 0;
    while i < |items| && !Halted(checked)
      invariant 0 <= i <= |items|
      invariant checked == RunChecks(items, i, types, h, cikOf, latestOf, postsOf)
      invariant updates == RunUpdates(items, i, types, h, cikOf, latestOf, postsOf)
    {
      updates, checked := ScanItem(items, i, types, h, cikOf, latestOf, postsOf, updates, checked);
      i := i + 1;
    }
    if i < |items| {
      RunChecksHaltedStays(items, i, |items|, types, h, cikOf, latestOf, postsOf);
      RunUpdatesHaltedStays(items, i, |items|, types, h, cikOf, latestOf, postsOf);
    }
    raised := Halted(checked);
  }

  /** One pass of the loop over the items: the status update of item `i`, then its checks. */
  method ScanItem(items: seq<Item>, i: nat, types: seq<string>, h: map<string, bool>, cikOf: string -> Option<string>,
                  latestOf: (string, string) -> Latest, postsOf: (string, string) -> Call<seq<RecentPost>>,
                  updates: seq<Update>, checked: seq<Checked>)
    returns (updates': seq<Update>, checked': seq<Checked>)
    requires i < |items|
    requires checked == RunChecks(items, i, types, h, cikOf, latestOf, postsOf) && !Halted(checked)
    requires updates == RunUpdates(items, i, types, h, cikOf, latestOf, postsOf)
    ensures checked' == RunChecks(items, i + 1, types, h, cikOf, latestOf, postsOf)
    ensures updates' == RunUpdates(items, i + 1, types, h, cikOf, latestOf, postsOf)
  {
    updates' := updates + [ProgressUpdate(i, |items|, items[i])];
    var cs := VisitItem(items[i], types, h, cikOf, latestOf, postsOf);
    checked' := checked + cs;
  }

  /** `run_stock_job` up to the download: the status updates, the checks made, and whether the job
      ended with an error no `try` catches. An empty ticker list ends the job after the first update,
      before any expansion; `preload` is the listing of 300 recent posts made before the item loop,
      whose only use is its length in a log line, but whose missing-credentials error ends the job
      before any item. */
  method RunStockJob(tickers: seq<string>, configuredTypes: Option<seq<string>>, files: string -> GroupFile,
                     preload: Call<seq<RecentPost>>, cikOf: string -> Option<string>, latestOf: (string, string) -> Latest,
                     postsOf: (string, string) -> Call<seq<RecentPost>>)
    returns (updates: seq<Update>, checked: seq<Checked>, raised: bool)
    ensures |tickers| == 0 ==> updates == [StartUpdate] && checked == [] && !raised
    ensures |tickers| > 0 && preload.Raises? ==> updates == [StartUpdate] && checked == [] && raised
    ensures |tickers| > 0 && preload.Returns? ==>
      updates == [StartUpdate] + RunUpdates(Dedup(Expanded(tickers, files)), |Dedup(Expanded(tickers, files))|,
                                            ReportTypes(configuredTypes), map[], cikOf, latestOf, postsOf) &&
      checked == RunChecks(Dedup(Expanded(tickers, files)), |Dedup(Expanded(tickers, files))|,
                           ReportTypes(configuredTypes), map[], cikOf, latestOf, postsOf) &&
      raised == Halted(checked)
  {
    if |tickers| == 0 {
      return [StartUpdate], [], false;
    }
    var expanded := ExpandTickers(tickers, files);
    var items := DedupItems(expanded);
    var history := new History();
    if preload.Raises? {
      return [StartUpdate], [], true;
    }
    var progress;
    progress, checked, raised := ScanItems(items, ReportTypes(configuredTypes), history, cikOf, latestOf, postsOf);
    updates := [StartUpdate] + progress;
  }

  /** Progress `i / n` of the updates lies in [0, 1) and strictly increases. */
  lemma {:induction false} ProgressBounds(items: seq<Item>, k: nat, types: seq<string>, history: map<string, bool>,
                       cikOf: string -> Option<string>, latestOf: (string, string) -> Latest,
                       postsOf: (string, string) -> Call<seq<RecentPost>>)
    requires k <= |items|
    ensures forall j :: 0 <= j < |RunUpdates(items, k, types, history, cikOf, latestOf, postsOf)| ==>
      0.0 <= RunUpdates(items, k, types, history, cikOf, latestOf, postsOf)[j].progress < 1.0
    ensures forall p, q :: 0 <= p < q < |RunUpdates(items, k, types, history, cikOf, latestOf, postsOf)| ==>
      RunUpdates(items, k, types, history, cikOf, latestOf, postsOf)[p].progress <
      RunUpdates(items, k, types, history, cikOf, latestOf, postsOf)[q].progress
  {
    var r := RunUpdates(items, k, types, history, cikOf, latestOf, postsOf);
    forall j | 0 <= j < |r| ensures 0.0 <= r[j].progress < 1.0 {
      assert r[j] == ProgressUpdate(j, |items|, items[j]);
      Fraction(j, |items|);
    }
    forall p, q | 0 <= p < q < |r| ensures r[p].progress < r[q].progress {
      assert r[p] == ProgressUpdate(p, |items|, items[p]) && r[q] == ProgressUpdate(q, |items|, items[q]);
      FractionIncreasing(p, q, |items|);
    }
  }

  lemma {:induction false} Fraction(i: nat, n: nat)
    requires i < n
    ensures 0.0 <= (i as real) / (n as real) < 1.0
  {
  }

  lemma {:induction false} FractionIncreasing(p: nat, q: nat, n: nat)
    requires p < q < n
    ensures (p as real) / (n as real) < (q as real) / (n as real)
  {
  }

  /** The history of a run starts empty and nothing is posted before the job ends, so no check is
      ever skipped on the history. */
  lemma {:induction false} EmptyHistoryNeverSkips(items: seq<Item>, k: nat, types: seq<string>,
                                                  cikOf: string -> Option<string>, latestOf: (string, string) -> Latest,
                                                  postsOf: (string, string) -> Call<seq<RecentPost>>)
    requires k <= |items|
    ensures forall c :: c in RunChecks(items, k, types, map[], cikOf, latestOf, postsOf) ==> !c.decision.InHistory?
  {
    if k > 0 {
      EmptyHistoryNeverSkips(items, k - 1, types, cikOf, latestOf, postsOf);
      ItemNeverSkipsOnEmptyHistory(items[k - 1], types, cikOf, latestOf, postsOf);
    }
  }

  lemma {:induction false} ItemNeverSkipsOnEmptyHistory(item: Item, types: seq<string>,
                                                        cikOf: string -> Option<string>, latestOf: (string, string) -> Latest,
                                                        postsOf: (string, string) -> Call<seq<RecentPost>>)
    ensures forall c :: c in ItemChecks(item, types, map[], cikOf, latestOf, postsOf) ==> !c.decision.InHistory?
  {
    if |types| > 0 {
      ItemNeverSkipsOnEmptyHistory(item, types[..|types| - 1], cikOf, latestOf, postsOf);
    }
  }

  /** Without WordPress credentials every listing of the recent posts raises: the loop then moves
      past tickers without a CIK or a filing and ends at the first report it finds, before any
      WordPress check or download. */
  lemma {:induction false} NoCredentialsEndsAtFirstFiling(items: seq<Item>, k: nat, types: seq<string>, history: map<string, bool>,
                                                          cikOf: string -> Option<string>, latestOf: (string, string) -> Latest,
                                                          postsOf: (string, string) -> Call<seq<RecentPost>>)
    requires k <= |items|
    requires forall s, t :: postsOf(s, t).Raises?
    ensures forall c :: c in RunChecks(items, k, types, history, cikOf, latestOf, postsOf) ==>
      c.decision.NoCik? || c.decision.NoFiling? || c.decision.PostsRaised?
  {
    if k > 0 {
      NoCredentialsEndsAtFirstFiling(items, k - 1, types, history, cikOf, latestOf, postsOf);
      ItemEndsAtFirstFiling(items[k - 1], types, history, cikOf, latestOf, postsOf);
    }
  }

  lemma {:induction false} ItemEndsAtFirstFiling(item: Item, types: seq<string>, history: map<string, bool>,
                                                 cikOf: string -> Option<string>, latestOf: (string, string) -> Latest,
                                                 postsOf: (string, string) -> Call<seq<RecentPost>>)
    requires forall s, t :: postsOf(s, t).Raises?
    ensures forall c :: c in ItemChecks(item, types, history, cikOf, latestOf, postsOf) ==>
      c.decision.NoCik? || c.decision.NoFiling? || c.decision.PostsRaised?
  {
    if |types| > 0 {
      ItemEndsAtFirstFiling(item, types[..|types| - 1], history, cikOf, latestOf, postsOf);
    }
  }

  // ---------------------------------------------------------------------------
  // Images between the `<h2>` sections

  /** What the body is made of: report HTML, an image placed before a section, or the gallery of
      the images left over. */
  datatype Piece = Html(text: string) | Inline(url: string) | Gallery(urls: seq<string>)

  const Indent := "                    "

  function ImageTag(url: string): string {
    "\n" + Indent + "<div style='text-align:center; margin: 60px 0;'>\n" + Indent + "    <img src='" + url +
    "' style='width:100%; max-width:100%; border:none; box-shadow:none;' loading='lazy'/>\n" + Indent + "</div>\n" + Indent
  }

  const GalleryOpen := "<h3>Gallery</h3><div style='display:flex; flex-wrap:wrap; gap:10px; justify-content:center;'>"

  function GalleryImage(url: string): string {
    "<img src='" + url + "' style='width:45%; max-width:300px; border-radius:5px;'/>"
  }

  function GalleryImages(urls: seq<string>): string {
    if |urls| == 0 then "" else GalleryImages(urls[..|urls| - 1]) + GalleryImage(urls[|urls| - 1])
  }

  function RenderPiece(p: Piece): string {
    match p
    case Html(text) => text
    case Inline(url) => ImageTag(url)
    case Gallery(urls) => GalleryOpen + GalleryImages(urls) + "</div>"
  }

  function Render(ps: seq<Piece>): string {
    if |ps| == 0 then "" else Render(ps[..|ps| - 1]) + RenderPiece(ps[|ps| - 1])
  }

  /** Sections 1 to `m` after the leading part, each preceded by the next image while any is left. */
  function Interleaved(sections: seq<string>, images: seq<string>, m: nat): seq<Piece>
    requires m < |sections|
  {
    if m == 0 then [] else Interleaved(sections, images, m - 1) + SectionPieces(sections, images, m)
  }

  /** Section `m` (from 1) with the image before it, if one is left. */
  function SectionPieces(sections: seq<string>, images: seq<string>, m: nat): seq<Piece>
    requires 0 < m < |sections|
  {
    if m - 1 < |images| then [Inline(images[m - 1]), Html("<h2>" + sections[m])] else [Html("<h2>" + sections[m])]
  }

  /** The body: the leading part, the sections with their images, then a gallery of the rest. */
  function Layout(sections: seq<string>, images: seq<string>): seq<Piece>
    requires |sections| >= 1
  {
    var m := |sections| - 1;
    [Html(sections[0])] + Interleaved(sections, images, m) + (if m < |images| then [Gallery(images[m..])] else [])
  }

  /** The images of the pieces, in order. */
  function ImagesOf(ps: seq<Piece>): seq<string> {
    if |ps| == 0 then []
    else
      var p := ps[|ps| - 1];
      ImagesOf(ps[..|ps| - 1]) + PieceImages(p)
  }

  /** The report HTML of the pieces, without the images. */
  function TextOf(ps: seq<Piece>): string {
    if |ps| == 0 then "" else TextOf(ps[..|ps| - 1]) + PieceText(ps[|ps| - 1])
  }

  function PieceImages(p: Piece): seq<string> {
    match p
    case Html(_) => []
    case Inline(u) => [u]
    case Gallery(us) => us
  }

  function PieceText(p: Piece): string {
    if p.Html? then p.text else ""
  }

  lemma {:induction false} ImagesOfAppend(a: seq<Piece>, b: seq<Piece>)
    ensures ImagesOf(a + b) == ImagesOf(a) + ImagesOf(b)
    decreases |b|
  {
    if |b| == 0 {
      assert a + b == a;
    } else {
      assert (a + b)[..|a + b| - 1] == a + b[..|b| - 1];
      ImagesOfAppend(a, b[..|b| - 1]);
    }
  }

  lemma {:induction false} TextOfAppend(a: seq<Piece>, b: seq<Piece>)
    ensures TextOf(a + b) == TextOf(a) + TextOf(b)
    decreases |b|
  {
    if |b| == 0 {
      assert a + b == a;
    } else {
      assert (a + b)[..|a + b| - 1] == a + b[..|b| - 1];
      TextOfAppend(a, b[..|b| - 1]);
    }
  }

  lemma {:induction false} SectionPiecesImages(sections: seq<string>, images: seq<string>, m: nat)
    requires 0 < m < |sections|
    ensures ImagesOf(SectionPieces(sections, images, m)) == if m - 1 < |images| then [images[m - 1]] else []
  {
    var h := Html("<h2>" + sections[m]);
    assert ImagesOf([h]) == ImagesOf([]) + PieceImages(h) by { assert [h][..0] == []; }
    if m - 1 < |images| {
      var i := Inline(images[m - 1]);
      assert ImagesOf([i]) == ImagesOf([]) + PieceImages(i) by { assert [i][..0] == []; }
      assert [i, h] == [i] + [h];
      ImagesOfAppend([i], [h]);
    }
  }

  lemma {:induction false} SectionPiecesText(sections: seq<string>, images: seq<string>, m: nat)
    requires 0 < m < |sections|
    ensures TextOf(SectionPieces(sections, images, m)) == "<h2>" + sections[m]
  {
    var h := Html("<h2>" + sections[m]);
    assert TextOf([h]) == TextOf([]) + PieceText(h) by { assert [h][..0] == []; }
    if m - 1 < |images| {
      var i := Inline(images[m - 1]);
      assert TextOf([i]) == TextOf([]) + PieceText(i) by { assert [i][..0] == []; }
      assert [i, h] == [i] + [h];
      TextOfAppend([i], [h]);
    }
  }

  /** The sections up to `m` take the first `min(m, |images|)` images, in order. */
  lemma {:induction false} InterleavedImages(sections: seq<string>, images: seq<string>, m: nat)
    requires m < |sections|
    ensures ImagesOf(Interleaved(sections, images, m)) == images[..Min(m, |images|)]
  {
    if m > 0 {
      InterleavedImages(sections, images, m - 1);
      ImagesAfterSection(sections, images, m);
    }
  }

  lemma InterleavedStep(sections: seq<string>, images: seq<string>, m: nat)
    requires 0 < m < |sections|
    ensures Interleaved(sections, images, m) == Interleaved(sections, images, m - 1) + SectionPieces(sections, images, m)
  {
  }

  /** The pieces of section `m` add its image, if one is left, to those of the sections before. */
  lemma ImagesAfterSection(sections: seq<string>, images: seq<string>, m: nat)
    requires 0 < m < |sections|
    requires ImagesOf(Interleaved(sections, images, m - 1)) == images[..Min(m - 1, |images|)]
    ensures ImagesOf(Interleaved(sections, images, m)) == images[..Min(m, |images|)]
  {
    var prev := Interleaved(sections, images, m - 1);
    InterleavedStep(sections, images, m);
    SectionPiecesImages(sections, images, m);
    ImagesOfAppend(prev, SectionPieces(sections, images, m));
    if m - 1 < |images| {
      SliceSnoc(images, m - 1);
    }
  }

  /** The leading part and sections 1 to `m` with their images. */
  function Front(sections: seq<string>, images: seq<string>, m: nat): seq<Piece>
    requires m < |sections|
  {
    [Html(sections[0])] + Interleaved(sections, images, m)
  }

  /** The gallery of the images left after the last section, if any. */
  function Rest(sections: seq<string>, images: seq<string>): seq<Piece>
    requires |sections| >= 1
  {
    if |sections| - 1 < |images| then [Gallery(images[|sections| - 1..])] else []
  }

  lemma {:induction false} LayoutParts(sections: seq<string>, images: seq<string>)
    requires |sections| >= 1
    ensures Layout(sections, images) == Front(sections, images, |sections| - 1) + Rest(sections, images)
  {
  }

  lemma {:induction false} FrontStep(sections: seq<string>, images: seq<string>, m: nat)
    requires m + 1 < |sections|
    ensures Front(sections, images, m + 1) == Front(sections, images, m) + SectionPieces(sections, images, m + 1)
  {
    assert Interleaved(sections, images, m + 1) == Interleaved(sections, images, m) + SectionPieces(sections, images, m + 1);
  }

  lemma {:induction false} ImagesOfSingle(p: Piece)
    ensures ImagesOf([p]) == PieceImages(p)
  {
    assert [p][..0] == [];
  }

  lemma {:induction false} TextOfSingle(p: Piece)
    ensures TextOf([p]) == PieceText(p)
  {
    assert [p][..0] == [];
  }

  lemma {:induction false} RestImages(sections: seq<string>, images: seq<string>)
    requires |sections| >= 1
    ensures ImagesOf(Rest(sections, images)) == images[Min(|sections| - 1, |images|)..]
  {
    if |sections| - 1 < |images| {
      ImagesOfSingle(Gallery(images[|sections| - 1..]));
    }
  }

  lemma {:induction false} RestText(sections: seq<string>, images: seq<string>)
    requires |sections| >= 1
    ensures TextOf(Rest(sections, images)) == ""
  {
    if |sections| - 1 < |images| {
      TextOfSingle(Gallery(images[|sections| - 1..]));
    }
  }

  lemma {:induction false} Assemble<T>(all: seq<T>, front: seq<T>, rest: seq<T>, head: seq<T>, mid: seq<T>)
    requires all == front + rest && front == head + mid && head == []
    ensures all == mid + rest
  {
  }

  /** Every image appears exactly once, in list order: the inline ones first, the rest in the gallery. */
  lemma {:induction false} LayoutImages(sections: seq<string>, images: seq<string>)
    requires |sections| >= 1
    ensures ImagesOf(Layout(sections, images)) == images
  {
    var m := |sections| - 1;
    LayoutParts(sections, images);
    ImagesOfAppend(Front(sections, images, m), Rest(sections, images));
    ImagesOfAppend([Html(sections[0])], Interleaved(sections, images, m));
    ImagesOfSingle(Html(sections[0]));
    InterleavedImages(sections, images, m);
    RestImages(sections, images);
    SplitAt(images, Min(m, |images|));
    Assemble(ImagesOf(Layout(sections, images)), ImagesOf(Front(sections, images, m)), ImagesOf(Rest(sections, images)),
             ImagesOf([Html(sections[0])]), ImagesOf(Interleaved(sections, images, m)));
  }

  lemma {:induction false} SliceSnoc<T>(s: seq<T>, m: nat)
    requires m < |s|
    ensures s[..m + 1] == s[..m] + [s[m]]
  {
  }

  lemma {:induction false} SlicesSnoc<T>(s: seq<T>, a: nat, b: nat)
    requires a <= b < |s|
    ensures s[a..b + 1] == s[a..b] + [s[b]]
    ensures s[a..b + 1][..b - a] == s[a..b]
  {
  }

  lemma {:induction false} JoinSnoc(xs: seq<string>, x: string, sep: string)
    requires |xs| >= 1
    ensures Join(xs + [x], sep) == Join(xs, sep) + sep + x
  {
    if |xs| > 1 {
      assert (xs + [x])[1..] == xs[1..] + [x];
      JoinSnoc(xs[1..], x, sep);
    } else {
      assert (xs + [x])[1..] == [x];
    }
  }

  /** Without the images the pieces spell the sections joined by `<h2>`. */
  lemma {:induction false} InterleavedText(sections: seq<string>, images: seq<string>, m: nat)
    requires m < |sections|
    ensures TextUpTo(sections, images, m)
  {
    if m == 0 {
      TextUpToFirst(sections, images);
    } else {
      InterleavedText(sections, images, m - 1);
      TextAfterSection(sections, images, m);
    }
  }

  /** The first section alone is its own text. */
  lemma TextUpToFirst(sections: seq<string>, images: seq<string>)
    requires 0 < |sections|
    ensures TextUpTo(sections, images, 0)
  {
    assert TextUpTo(sections, images, 0);
  }

  /** The first section followed by the text of the pieces up to section `m` is the sections up
      to `m` with their heading markers. */
  predicate TextUpTo(sections: seq<string>, images: seq<string>, m: nat)
    requires m < |sections|
  {
    sections[0] + TextOf(Interleaved(sections, images, m)) == Headed(sections, m)
  }

  /** The pieces of section `m` add its heading and text to the body before. */
  lemma TextAfterSection(sections: seq<string>, images: seq<string>, m: nat)
    requires 0 < m < |sections|
    requires TextUpTo(sections, images, m - 1)
    ensures TextUpTo(sections, images, m)
  {
    var prev := Interleaved(sections, images, m - 1);
    InterleavedStep(sections, images, m);
    SectionPiecesText(sections, images, m);
    TextOfAppend(prev, SectionPieces(sections, images, m));
    TextStep(sections[0], TextOf(prev), Headed(sections, m - 1), sections[m]);
  }

  /** The sections up to `m` with a heading marker in front of each one after the first. */
  function Headed(sections: seq<string>, m: nat): string
    requires m < |sections|
  {
    if m == 0 then sections[0] else Headed(sections, m - 1) + "<h2>" + sections[m]
  }

  /** That is the join of the first `m + 1` sections on the marker. */
  lemma {:induction false} HeadedJoin(sections: seq<string>, m: nat)
    requires m < |sections|
    ensures Headed(sections, m) == Join(sections[..m + 1], "<h2>")
  {
    if m == 0 {
      assert sections[..1] == [sections[0]];
    } else {
      HeadedJoin(sections, m - 1);
      assert sections[..m - 1 + 1] == sections[..m];
      SliceSnoc(sections, m);
      JoinSnoc(sections[..m], sections[m], "<h2>");
    }
  }

  lemma {:induction false} TextStep(a: string, t: string, j: string, s: string)
    requires a + t == j
    ensures a + (t + ("<h2>" + s)) == j + "<h2>" + s
  {
  }

  /** Taking the images out of the new body gives back the HTML it was built from. */
  lemma {:induction false} LayoutText(htmlBody: string, images: seq<string>)
    ensures TextOf(Layout(SplitOn(htmlBody, "<h2>"), images)) == htmlBody
  {
    var sections := SplitOn(htmlBody, "<h2>");
    LayoutJoin(sections, images);
    JoinSplitOn(htmlBody, "<h2>");
  }

  /** The text of the new body is the sections joined on the heading marker. */
  lemma LayoutJoin(sections: seq<string>, images: seq<string>)
    requires |sections| >= 1
    ensures TextOf(Layout(sections, images)) == Join(sections, "<h2>")
  {
    var m := |sections| - 1;
    LayoutParts(sections, images);
    TextOfAppend(Front(sections, images, m), Rest(sections, images));
    TextOfAppend([Html(sections[0])], Interleaved(sections, images, m));
    TextOfSingle(Html(sections[0]));
    RestText(sections, images);
    InterleavedText(sections, images, m);
    HeadedJoin(sections, m);
    assert sections[..m + 1] == sections;
  }

  /** An image only ever stands right before a section heading, so no section gets two. */
  lemma {:induction false} InlineBeforeSection(sections: seq<string>, images: seq<string>, m: nat)
    requires m < |sections|
    ensures forall k :: 0 <= k < |Interleaved(sections, images, m)| && Interleaved(sections, images, m)[k].Inline? ==>
      k + 1 < |Interleaved(sections, images, m)| && Interleaved(sections, images, m)[k + 1].Html?
  {
    if m > 0 {
      InlineBeforeSection(sections, images, m - 1);
    }
  }

  lemma {:induction false} RenderAppend(a: seq<Piece>, b: seq<Piece>)
    ensures Render(a + b) == Render(a) + Render(b)
    decreases |b|
  {
    if |b| == 0 {
      assert a + b == a;
    } else {
      assert (a + b)[..|a + b| - 1] == a + b[..|b| - 1];
      RenderAppend(a, b[..|b| - 1]);
      Concat3(Render(a), Render(b[..|b| - 1]), RenderPiece(b[|b| - 1]));
    }
  }

  lemma {:induction false} RenderSingle(p: Piece)
    ensures Render([p]) == RenderPiece(p)
  {
    assert [p][..0] == [];
  }

  /** What one section adds to the rendered body: its image tag, if an image is left, then the
      section with its `<h2>` restored. */
  lemma {:induction false} RenderSectionPieces(sections: seq<string>, images: seq<string>, m: nat)
    requires 0 < m < |sections|
    ensures Render(SectionPieces(sections, images, m)) ==
      (if m - 1 < |images| then ImageTag(images[m - 1]) else "") + ("<h2>" + sections[m])
  {
    var h := Html("<h2>" + sections[m]);
    RenderSingle(h);
    if m - 1 < |images| {
      var i := Inline(images[m - 1]);
      RenderSingle(i);
      assert [i, h] == [i] + [h];
      RenderAppend([i], [h]);
    }
  }

  /** The text one pass of the section loop appends: `f"{img_tag}<h2>{section}"`. */
  method SectionText(sections: seq<string>, images: seq<string>, i: nat, imgIdx: nat)
    returns (text: string, nextIdx: nat)
    requires i + 1 < |sections| && imgIdx == Min(i, |images|)
    ensures nextIdx == Min(i + 1, |images|)
    ensures text == Render(SectionPieces(sections, images, i + 1))
  {
    var imgTag := "";
    nextIdx := imgIdx;
    if imgIdx < |images| {
      imgTag := ImageTag(images[imgIdx]);
      nextIdx := imgIdx + 1;
    }
    text := imgTag + ("<h2>" + sections[i + 1]);
    RenderSectionPieces(sections, images, i + 1);
  }

  /** One pass of the section loop. */
  method AppendSection(body: string, sections: seq<string>, images: seq<string>, i: nat, imgIdx: nat)
    returns (next: string, nextIdx: nat)
    requires i + 1 < |sections| && imgIdx == Min(i, |images|)
    requires body == Render(Front(sections, images, i))
    ensures nextIdx == Min(i + 1, |images|)
    ensures next == Render(Front(sections, images, i + 1))
  {
    var text;
    text, nextIdx := SectionText(sections, images, i, imgIdx);
    next := body + text;
    FrontStep(sections, images, i);
    RenderAppend(Front(sections, images, i), SectionPieces(sections, images, i + 1));
  }

  /** The `while` loop of the gallery: one `<img>` per image left. */
  method GalleryLoop(images: seq<string>, start: nat) returns (imgs: string)
    requires start <= |images|
    ensures imgs == GalleryImages(images[start..])
  {
    imgs := "";
    var imgIdx := start;
    while imgIdx < |images|
      invariant start <= imgIdx <= |images|
      invariant imgs == GalleryImages(images[start..imgIdx])
    {
      SlicesSnoc(images, start, imgIdx);
      imgs := imgs + GalleryImage(images[imgIdx]);
      imgIdx := imgIdx + 1;
    }
    assert images[start..|images|] == images[start..];
  }

  /** The gallery of the images left. */
  method AppendGallery(body: string, images: seq<string>, start: nat) returns (next: string)
    requires start < |images|
    ensures next == body + RenderPiece(Gallery(images[start..]))
  {
    next := body + GalleryOpen;
    var imgs := GalleryLoop(images, start);
    next := next + imgs + "</div>";
    GalleryAssoc(body, imgs);
  }

  lemma {:induction false} GalleryAssoc(body: string, imgs: string)
    ensures body + GalleryOpen + imgs + "</div>" == body + (GalleryOpen + imgs + "</div>")
  {
  }

  /** The loop over `sections[1:]` and the gallery loop, building `new_html_body`. */
  method InterleaveImages(htmlBody: string, images: seq<string>) returns (body: string)
    ensures body == Render(Layout(SplitOn(htmlBody, "<h2>"), images))
  {
    var sections := SplitOn(htmlBody, "<h2>");
    body := sections[0];
    RenderSingle(Html(sections[0]));
    assert Front(sections, images, 0) == [Html(sections[0])];
    var imgIdx := 0;
    for i := 0 to |sections| - 1
      invariant imgIdx == Min(i, |images|)
      invariant body == Render(Front(sections, images, i))
    {
      body, imgIdx := AppendSection(body, sections, images, i, imgIdx);
    }
    var m := |sections| - 1;
    LayoutParts(sections, images);
    RenderAppend(Front(sections, images, m), Rest(sections, images));
    if imgIdx < |images| {
      body := AppendGallery(body, images, imgIdx);
      RenderSingle(Gallery(images[m..]));
    } else {
      assert Render(Rest(sections, images)) == "";
    }
  }
}
