/** The control panel: the status card of each bot, the ticker list of the stock bot, and the
    grant bot's categories, crawler switches and site lists. Widgets are inputs: a button press
    is a method call, a text box or toggle is a parameter. The configuration file is the state of
    the classes here; `save_config` is reported as a `saved` result. */
module Dashboard {
  import opened Wrappers
  import opened Text
  import opened Status
  import StockBot

  // ---------------------------------------------------------------------------
  // Status card (`display_bot_status`)

  /** What reading the bot's status file gives: no file, a file `json.load` rejects, or an object. */
  datatype StatusSource = Absent | Unparsable | Parsed(fields: map<string, Field>)

  /** What the card shows: the "no run yet" warning, the "load failed" error, the running card with
      its progress bar and caption, or the idle/error card with the state and the raw message. */
  datatype Card =
    | NoRecord
    | LoadFailed
    | Running(progress: real, caption: string, timestamp: Field)
    | Settled(state: string, message: Field, timestamp: Field)

  const IdleMessage: string := "대기 중"

  /** `fields.get(key, default)`. */
  function Get(fields: map<string, Field>, key: string, default: Field): Field {
    if key in fields then fields[key] else default
  }

  /** The caption text of a running bot: the first `|`-separated field when there are at least
      three, the whole message otherwise. */
  function DisplayMessage(raw: string): string {
    var parts := Split(raw, '|');
    if |parts| >= 3 then parts[0] else raw
  }

  /** The card for one status file. A `state` that is not a string, or, while running, a message
      that is not a string or a progress that is not a number, raises inside the `try`. */
  function ShowStatus(src: StatusSource): (r: Card)
    ensures src.Absent? <==> r.NoRecord?
    ensures src.Parsed? && "state" !in src.fields ==>
      r == Settled("idle", Get(src.fields, "message", Text(IdleMessage)), Get(src.fields, "timestamp", Text("")))
    ensures src.Parsed? && "timestamp" !in src.fields && (r.Running? || r.Settled?) ==> r.timestamp == Text("")
    ensures r.Running? ==> src.Parsed? && src.fields["state"] == Text("running")
  {
    match src
    case Absent => NoRecord
    case Unparsable => LoadFailed
    case Parsed(f) =>
      var state := Get(f, "state", Text("idle"));
      var message := Get(f, "message", Text(IdleMessage));
      var progress := Get(f, "progress", Number(0.0));
      var timestamp := Get(f, "timestamp", Text(""));
      if state == Text("running") then
        if message.Text? && progress.Number? then Running(progress.r, DisplayMessage(message.s), timestamp)
        else LoadFailed
      else if state.Text? then Settled(state.s, message, timestamp)
      else LoadFailed
  }

  /** A message with no `|` is shown whole. */
  lemma DisplayWithoutPipe(raw: string)
    requires '|' !in raw
    ensures DisplayMessage(raw) == raw
  {
    SplitNoSeparator(raw, '|');
  }

  /** Digits carry no `|`. */
  lemma DigitsNoPipe(s: string)
    requires AllDigits(s)
    ensures '|' !in s
  {
    assert forall i :: 0 <= i < |s| ==> s[i] != '|';
  }

  /** The text the stock bot puts before the first `|` of its progress message. */
  function ProgressCaption(i: nat, n: nat, item: StockBot.Item): string {
    "[PROGRESS] [" + NatToString(i + 1) + "/" + NatToString(n) + "] " + item.symbol + " analyzing..."
  }

  /** The stock bot's progress message splits into the caption, the group and the symbol, so the
      card shows the caption, as long as neither the symbol nor the group holds a `|`. */
  lemma {:induction false} DisplayProgressMessage(i: nat, n: nat, item: StockBot.Item)
    requires '|' !in item.symbol && '|' !in item.group
    ensures DisplayMessage(StockBot.ProgressMessage(i, n, item)) == ProgressCaption(i, n, item)
  {
    var head := ProgressCaption(i, n, item);
    var tail := item.group + "|" + item.symbol;
    DigitsNoPipe(NatToString(i + 1));
    DigitsNoPipe(NatToString(n));
    assert '|' !in head;
    assert StockBot.ProgressMessage(i, n, item) == head + ['|'] + tail;
    SplitAtFirst(head, tail, '|');
    SplitAtFirst(item.group, item.symbol, '|');
    SplitNoSeparator(item.symbol, '|');
    assert Split(head + ['|'] + tail, '|') == [head, item.group, item.symbol];
  }

  /** A progress record written by the stock bot comes back as a running card with the bot's
      progress and the caption before the first `|`. */
  lemma StockProgressShown(i: nat, n: nat, item: StockBot.Item, timestamp: string)
    requires i < n
    requires '|' !in item.symbol && '|' !in item.group
    ensures ShowStatus(Parsed(Record(StockBot.ProgressUpdate(i, n, item), timestamp)))
      == Running((i as real) / (n as real), ProgressCaption(i, n, item), Text(timestamp))
  {
    DisplayProgressMessage(i, n, item);
  }

  /** A running record without a progress or a message shows progress 0.0 and the idle message. */
  lemma RunningDefaults(fields: map<string, Field>)
    requires "state" in fields && fields["state"] == Text("running")
    requires "progress" !in fields && "message" !in fields
    ensures ShowStatus(Parsed(fields)) == Running(0.0, IdleMessage, Get(fields, "timestamp", Text("")))
  {
    DisplayWithoutPipe(IdleMessage);
  }

  /** Any record a bot writes with a state other than "running" comes back unchanged. */
  lemma SettledRecordShown(u: Update, timestamp: string)
    requires u.state != "running"
    ensures ShowStatus(Parsed(Record(u, timestamp))) == Settled(u.state, Text(u.message), Text(timestamp))
  {
    assert Text(u.state) != Text("running");
  }

  // ---------------------------------------------------------------------------
  // Ticker list of the stock bot

  predicate IsGroup(t: string) {
    StartsWith(t, "@")
  }

  /** `[t for t in tickers if not t.startswith("@")]`. */
  function PlainTickers(tickers: seq<string>): seq<string> {
    if |tickers| == 0 then []
    else
      var t := tickers[|tickers| - 1];
      PlainTickers(tickers[..|tickers| - 1]) + (if IsGroup(t) then [] else [t])
  }

  /** `[t for t in tickers if t.startswith("@")]`. */
  function GroupTickers(tickers: seq<string>): seq<string> {
    if |tickers| == 0 then []
    else
      var t := tickers[|tickers| - 1];
      GroupTickers(tickers[..|tickers| - 1]) + (if IsGroup(t) then [t] else [])
  }

  /** Every ticker lands in exactly one of the two lists: the sizes add up and so do the counts. */
  lemma {:induction false} PartitionComplete(tickers: seq<string>)
    ensures |PlainTickers(tickers)| + |GroupTickers(tickers)| == |tickers|
    ensures multiset(PlainTickers(tickers)) + multiset(GroupTickers(tickers)) == multiset(tickers)
  {
    if |tickers| > 0 {
      var front := tickers[..|tickers| - 1];
      var t := tickers[|tickers| - 1];
      PartitionComplete(front);
      assert tickers == front + [t];
      assert multiset(tickers) == multiset(front) + multiset{t};
      var plain, groups := PlainTickers(front), GroupTickers(front);
      if IsGroup(t) {
        assert multiset(groups + [t]) == multiset(groups) + multiset{t};
      } else {
        assert multiset(plain + [t]) == multiset(plain) + multiset{t};
      }
    }
  }

  /** A ticker is in the plain list exactly when it is in the input without the `@` prefix, and in
      the group list exactly when it is in the input with it. */
  lemma {:induction false} PartitionMembers(tickers: seq<string>, t: string)
    ensures t in PlainTickers(tickers) <==> t in tickers && !IsGroup(t)
    ensures t in GroupTickers(tickers) <==> t in tickers && IsGroup(t)
  {
    if |tickers| > 0 {
      var front := tickers[..|tickers| - 1];
      PartitionMembers(front, t);
      assert tickers == front + [tickers[|tickers| - 1]];
    }
  }

  /** Both lists keep the order of the input: the split of a concatenation is the concatenation
      of the splits. */
  lemma {:induction false} PartitionKeepsOrder(a: seq<string>, b: seq<string>)
    ensures PlainTickers(a + b) == PlainTickers(a) + PlainTickers(b)
    ensures GroupTickers(a + b) == GroupTickers(a) + GroupTickers(b)
  {
    if |b| == 0 {
      assert a + b == a;
    } else {
      var front := b[..|b| - 1];
      PartitionKeepsOrder(a, front);
      assert (a + b)[..|a + b| - 1] == a + front;
    }
  }

  /** The list after the "add" button with the upper-cased input `t`: appended when non-empty and
      new, unchanged otherwise. */
  function WithTicker(tickers: seq<string>, t: string): (r: seq<string>)
    ensures t in r || t == ""
    ensures |tickers| <= |r| <= |tickers| + 1 && r[..|tickers|] == tickers
    ensures forall u :: u in r ==> u in tickers || u == t
    ensures Distinct(tickers) ==> Distinct(r)
  {
    if t != "" && t !in tickers then tickers + [t] else tickers
  }

  /** What the "add" button reports. */
  datatype AddOutcome = Added | AlreadyThere | NothingEntered

  /** `list.remove(x)`: the first occurrence of `x` goes, the rest keep their order. */
  function RemoveFirst(xs: seq<string>, x: string): (r: seq<string>)
    ensures x in xs ==> |r| == |xs| - 1
    ensures x !in xs ==> r == xs
    ensures multiset(r) == multiset(xs) - multiset{x}
  {
    if |xs| == 0 then []
    else if xs[0] == x then
      assert xs == [x] + xs[1..];
      xs[1..]
    else
      assert xs == [xs[0]] + xs[1..];
      [xs[0]] + RemoveFirst(xs[1..], x)
  }

  /** In a list without duplicates, removal takes the ticker out entirely and keeps the list
      without duplicates. */
  lemma {:induction false} RemoveFirstDistinct(xs: seq<string>, x: string)
    requires Distinct(xs)
    ensures x !in RemoveFirst(xs, x) && Distinct(RemoveFirst(xs, x))
  {
    if |xs| > 0 {
      var tail := xs[1..];
      assert Distinct(tail) by {
        forall a, b | 0 <= a < b < |tail| ensures tail[a] != tail[b] {
          assert tail[a] == xs[a + 1] && tail[b] == xs[b + 1];
        }
      }
      assert forall k :: 0 <= k < |tail| ==> tail[k] != xs[0] by {
        forall k | 0 <= k < |tail| ensures tail[k] != xs[0] {
          assert tail[k] == xs[k + 1];
        }
      }
      if xs[0] != x {
        RemoveFirstDistinct(tail, x);
        var rest := RemoveFirst(tail, x);
        assert xs[0] !in rest by {
          assert xs[0] !in tail;
          assert multiset(rest)[xs[0]] <= multiset(tail)[xs[0]];
        }
        ConsDistinct(xs[0], rest);
      }
    }
  }

  lemma ConsDistinct(y: string, rest: seq<string>)
    requires y !in rest && Distinct(rest)
    ensures Distinct([y] + rest)
  {
    var r := [y] + rest;
    forall a, b | 0 <= a < b < |r| ensures r[a] != r[b] {
      assert r[b] == rest[b - 1];
      if a > 0 {
        assert r[a] == rest[a - 1];
      }
    }
  }

  const Placeholder: string := "선택하세요"

  /** The `stock.tickers` list of the configuration. */
  class TickerList {
    var tickers: seq<string>

    constructor (initial: seq<string>)
      ensures tickers == initial
    {
      tickers := initial;
    }

    /** The "add" button with the text box holding `input`: the upper-cased input is appended
        when it is non-empty and new; an existing one only draws the warning. */
    method Add(input: string) returns (outcome: AddOutcome, saved: bool)
      modifies this
      ensures tickers == WithTicker(old(tickers), Upper(input))
      ensures outcome == (if Upper(input) != "" && Upper(input) !in old(tickers) then Added
                          else if Upper(input) in old(tickers) then AlreadyThere else NothingEntered)
      ensures saved <==> outcome == Added
    {
      var t := Upper(input);
      if t != "" && t !in tickers {
        tickers := tickers + [t];
        outcome, saved := Added, true;
      } else if t in tickers {
        outcome, saved := AlreadyThere, false;
      } else {
        outcome, saved := NothingEntered, false;
      }
    }

    /** The "remove" button with `choice` picked from the placeholder followed by the tickers. */
    method Remove(choice: string) returns (saved: bool)
      requires choice == Placeholder || choice in tickers
      modifies this
      ensures saved <==> choice != Placeholder
      ensures tickers == if saved then RemoveFirst(old(tickers), choice) else old(tickers)
    {
      if choice != Placeholder {
        tickers := RemoveFirst(tickers, choice);
        saved := true;
      } else {
        saved := false;
      }
    }
  }

  // ---------------------------------------------------------------------------
  // Grant bot: categories

  /** The keywords kept by "save keywords": every edited row that is not blank, as typed. */
  function KeptKeywords(rows: seq<string>): (r: seq<string>)
    ensures |r| <= |rows|
    ensures forall k :: 0 <= k < |r| ==> Strip(r[k]) != "" && r[k] in rows
    ensures forall x :: x in rows && Strip(x) != "" ==> x in r
  {
    if |rows| == 0 then []
    else
      var x := rows[|rows| - 1];
      KeptKeywords(rows[..|rows| - 1]) + (if Strip(x) != "" then [x] else [])
  }

  // ---------------------------------------------------------------------------
  // Grant bot: crawler switches

  /** The four switches, one per government site. */
  datatype Toggles = Toggles(kstartup: bool, sbiz: bool, exportVoucher: bool, mssd: bool)

  function CrawlerMap(t: Toggles): (r: map<string, bool>)
    ensures r.Keys == {"kstartup", "sbiz", "export", "mssd"}
  {
    map["kstartup" := t.kstartup, "sbiz" := t.sbiz, "export" := t.exportVoucher, "mssd" := t.mssd]
  }

  /** With no `crawlers` entry every site is on. */
  function CurrentCrawlers(stored: Option<map<string, bool>>): map<string, bool> {
    stored.GetOr(CrawlerMap(Toggles(true, true, true, true)))
  }

  /** `current.get(key, True)`: where a switch starts. */
  function StartsOn(current: map<string, bool>, key: string): bool {
    if key in current then current[key] else true
  }

  function InitialToggles(current: map<string, bool>): Toggles {
    Toggles(StartsOn(current, "kstartup"), StartsOn(current, "sbiz"), StartsOn(current, "export"), StartsOn(current, "mssd"))
  }

  /** Switches left where they start save nothing, whenever the stored entry is missing or names
      exactly the four sites. */
  lemma UntouchedTogglesQuiet(stored: Option<map<string, bool>>)
    requires stored.Some? ==> stored.value.Keys == {"kstartup", "sbiz", "export", "mssd"}
    ensures CrawlerMap(InitialToggles(CurrentCrawlers(stored))) == CurrentCrawlers(stored)
  {
    var current := CurrentCrawlers(stored);
    var m := CrawlerMap(InitialToggles(current));
    assert m.Keys == current.Keys;
    forall k | k in m ensures m[k] == current[k] {
    }
  }

  /** A stored entry that does not name exactly the four sites is rewritten on every visit,
      whatever the switches say. */
  lemma OtherKeysAlwaysSaved(stored: map<string, bool>, t: Toggles)
    requires stored.Keys != {"kstartup", "sbiz", "export", "mssd"}
    ensures CrawlerMap(t) != CurrentCrawlers(Some(stored))
  {
  }

  // ---------------------------------------------------------------------------
  // Grant bot: bulk site registration

  /** The answer to one `requests.get`: a status code and body, or an exception. */
  datatype Page = Unreachable | Page(status: int, text: string)

  /** The web as seen from the dashboard: fetching a URL, the `href` of the first
      `<link type="application/rss+xml">` (else the first atom link) that BeautifulSoup finds in a
      page, and `urljoin`. */
  datatype Web = Web(fetch: string -> Page, feedHref: string -> Option<string>, join: (string, string) -> string)

  const CommonPaths: seq<string> := ["/rss", "/feed", "/board/rss"]

  /** A URL line after stripping: non-empty, with no whitespace at its ends. */
  predicate Clean(u: string) {
    u != "" && !IsSpace(u[0]) && !IsSpace(u[|u| - 1])
  }

  /** The lines of the text area that hold something, stripped. */
  function UrlLines(text: string): (r: seq<string>)
    ensures forall k :: 0 <= k < |r| ==> Clean(r[k])
  {
    NonBlank(Split(text, '\n'))
  }

  /** `[u.strip() for u in lines if u.strip()]`. */
  function NonBlank(lines: seq<string>): (r: seq<string>)
    ensures |r| <= |lines|
    ensures forall k :: 0 <= k < |r| ==> Clean(r[k])
  {
    if |lines| == 0 then []
    else
      var u := Strip(lines[|lines| - 1]);
      NonBlank(lines[..|lines| - 1]) + (if u != "" then [u] else [])
  }

  /** Lines that are already stripped and non-empty all survive. */
  lemma {:induction false} NonBlankKeepsClean(lines: seq<string>)
    requires forall k :: 0 <= k < |lines| ==> Clean(lines[k])
    ensures NonBlank(lines) == lines
  {
    if |lines| > 0 {
      var front := lines[..|lines| - 1];
      var last := lines[|lines| - 1];
      forall k | 0 <= k < |front| ensures Clean(front[k]) {
        assert front[k] == lines[k];
      }
      NonBlankKeepsClean(front);
      StripNoEdgeSpace(last);
      assert lines == front + [last];
    }
  }

  /** Writing URLs one per line gives them back, as long as each is non-empty, has no newline
      inside and no whitespace at its ends. */
  lemma UrlLinesOfJoin(urls: seq<string>)
    requires forall k :: 0 <= k < |urls| ==> Clean(urls[k]) && '\n' !in urls[k]
    ensures UrlLines(Join(urls, "\n")) == urls
  {
    if |urls| == 0 {
      NoUrlLines();
    } else {
      assert "\n" == ['\n'];
      SplitJoin(urls, '\n');
      NonBlankKeepsClean(urls);
    }
  }

  /** An empty file lists no URL. */
  lemma NoUrlLines()
    ensures UrlLines("") == []
  {
    assert Split("", '\n') == [""];
    assert Strip("") == "";
  }

  /** A body that is already a feed: it starts with an XML declaration once stripped, or holds `<rss`. */
  predicate LooksLikeFeed(text: string) {
    StartsWith(Strip(text), "<?xml") || Contains(text, "<rss")
  }

  /** The common feed paths tried in turn; the first that answers 200 with `<rss` in its body wins,
      and an exception ends the search with nothing. */
  function ProbePaths(target: string, paths: seq<string>, web: Web): (r: Option<string>)
    ensures r.Some? ==> exists k :: 0 <= k < |paths| && r.value == web.join(target, paths[k])
    ensures r.Some? ==> web.fetch(r.value).Page? && web.fetch(r.value).status == 200 && Contains(web.fetch(r.value).text, "<rss")
  {
    if |paths| == 0 then None
    else
      var url := web.join(target, paths[0]);
      match web.fetch(url)
      case Unreachable => None
      case Page(status, text) =>
        if status == 200 && Contains(text, "<rss") then Some(url)
        else
          var r := ProbePaths(target, paths[1..], web);
          assert r.Some? ==> exists k :: 1 <= k < |paths| && r.value == web.join(target, paths[k]) by {
            if r.Some? {
              var k :| 0 <= k < |paths[1..]| && r.value == web.join(target, paths[1..][k]);
              assert r.value == web.join(target, paths[k + 1]);
            }
          }
          r
  }

  /** The RSS auto-detection for one site: the feed URL it settles on, or `None` for the AI list. */
  function DetectFeed(target: string, web: Web): (r: Option<string>)
    ensures web.fetch(target).Unreachable? || web.fetch(target).status != 200 ==> r.None?
    ensures web.fetch(target).Page? && web.fetch(target).status == 200 && LooksLikeFeed(web.fetch(target).text) ==> r == Some(target)
    ensures r.Some? ==> (r.value == target
      || (exists h :: web.feedHref(web.fetch(target).text) == Some(h) && r.value == web.join(target, h))
      || (exists k :: 0 <= k < |CommonPaths| && r.value == web.join(target, CommonPaths[k])))
  {
    match web.fetch(target)
    case Unreachable => None
    case Page(status, text) =>
      if status != 200 then None
      else if LooksLikeFeed(text) then Some(target)
      else match web.feedHref(text)
        case Some(h) =>
          if h != "" then Some(web.join(target, h)) else ProbePaths(target, CommonPaths, web)
        case None => ProbePaths(target, CommonPaths, web)
  }

  /** What the bulk loop says about one URL. */
  datatype Outcome = AlreadyListed(url: string) | AddedFeed(url: string, feed: string) | AddedForAi(url: string)

  /** The two site lists, the added count and the messages so far. */
  datatype Lists = Lists(sources: seq<string>, ai: seq<string>, added: nat, outcomes: seq<Outcome>)

  /** One URL of the bulk loop: a URL already in either list is passed over; any other goes to
      exactly one list, the RSS list (as the feed it resolved to) or the AI list. */
  function RouteOne(st: Lists, url: string, web: Web): (r: Lists)
    ensures url in st.sources || url in st.ai ==>
      r == Lists(st.sources, st.ai, st.added, st.outcomes + [AlreadyListed(url)])
    ensures url !in st.sources && url !in st.ai ==>
      r.added == st.added + 1 && |r.sources| + |r.ai| == |st.sources| + |st.ai| + 1
    ensures url !in st.sources && url !in st.ai ==>
      ((r.sources == st.sources && r.ai == st.ai + [url]) <==> DetectFeed(url, web).None?)
    ensures url !in st.sources && url !in st.ai && DetectFeed(url, web).Some? ==>
      r.sources == st.sources + [DetectFeed(url, web).value] && r.ai == st.ai
  {
    if url in st.sources || url in st.ai then Lists(st.sources, st.ai, st.added, st.outcomes + [AlreadyListed(url)])
    else match DetectFeed(url, web)
      case Some(feed) => Lists(st.sources + [feed], st.ai, st.added + 1, st.outcomes + [AddedFeed(url, feed)])
      case None => Lists(st.sources, st.ai + [url], st.added + 1, st.outcomes + [AddedForAi(url)])
  }

  /** The bulk loop over `urls`, from the state `st`. */
  function Route(st: Lists, urls: seq<string>, web: Web): Lists {
    if |urls| == 0 then st else RouteOne(Route(st, urls[..|urls| - 1], web), urls[|urls| - 1], web)
  }

  /** `r` extends `st` by `n` messages: both lists only grow, and the count grows by exactly the
      number of sites added to them. */
  predicate Extends(st: Lists, r: Lists, n: nat) {
    |r.outcomes| == |st.outcomes| + n && r.outcomes[..|st.outcomes|] == st.outcomes
    && |st.sources| <= |r.sources| && r.sources[..|st.sources|] == st.sources
    && |st.ai| <= |r.ai| && r.ai[..|st.ai|] == st.ai
    && r.added - st.added == (|r.sources| - |st.sources|) + (|r.ai| - |st.ai|)
  }

  lemma {:induction false} RouteExtends(st: Lists, urls: seq<string>, web: Web)
    ensures Extends(st, Route(st, urls, web), |urls|)
  {
    if |urls| > 0 {
      RouteExtends(st, urls[..|urls| - 1], web);
      var prev := Route(st, urls[..|urls| - 1], web);
      var r := Route(st, urls, web);
      assert Extends(prev, r, 1);
      assert r.outcomes[..|st.outcomes|] == prev.outcomes[..|st.outcomes|];
      assert r.sources[..|st.sources|] == prev.sources[..|st.sources|];
      assert r.ai[..|st.ai|] == prev.ai[..|st.ai|];
    }
  }

  /** Message number `k` of the loop is about URL number `k`. */
  lemma {:induction false} RouteNamesUrls(st: Lists, urls: seq<string>, web: Web)
    requires st.outcomes == []
    ensures |Route(st, urls, web).outcomes| == |urls|
    ensures forall k :: 0 <= k < |urls| ==> Route(st, urls, web).outcomes[k].url == urls[k]
  {
    RouteExtends(st, urls, web);
    if |urls| > 0 {
      var n := |urls| - 1;
      RouteNamesUrls(st, urls[..n], web);
      var prev := Route(st, urls[..n], web);
      var r := Route(st, urls, web);
      assert r.outcomes == prev.outcomes + [r.outcomes[n]];
      forall k | 0 <= k < n ensures r.outcomes[k].url == urls[k] {
        assert urls[..n][k] == urls[k];
      }
    }
  }

  /** A URL that was in either list before the loop is always passed over. */
  lemma {:induction false} RouteSkipsListed(st: Lists, urls: seq<string>, web: Web)
    requires st.outcomes == []
    ensures forall k :: 0 <= k < |urls| && (urls[k] in st.sources || urls[k] in st.ai) ==>
      k < |Route(st, urls, web).outcomes| && Route(st, urls, web).outcomes[k] == AlreadyListed(urls[k])
  {
    RouteExtends(st, urls, web);
    if |urls| > 0 {
      var n := |urls| - 1;
      RouteSkipsListed(st, urls[..n], web);
      RouteExtends(st, urls[..n], web);
      var prev := Route(st, urls[..n], web);
      var r := Route(st, urls, web);
      assert r.outcomes == prev.outcomes + [r.outcomes[n]];
      forall k | 0 <= k < |urls| && (urls[k] in st.sources || urls[k] in st.ai)
        ensures r.outcomes[k] == AlreadyListed(urls[k])
      {
        if k == n {
          assert st.sources == prev.sources[..|st.sources|] && st.ai == prev.ai[..|st.ai|];
          assert urls[k] in prev.sources || urls[k] in prev.ai;
        } else {
          assert urls[..n][k] == urls[k];
        }
      }
    }
  }

  /** A feed or URL reported as added is in its list at the end. */
  lemma {:induction false} RouteAddsLand(st: Lists, urls: seq<string>, web: Web)
    requires st.outcomes == []
    ensures forall o :: o in Route(st, urls, web).outcomes ==>
      (o.AddedFeed? ==> o.feed in Route(st, urls, web).sources) && (o.AddedForAi? ==> o.url in Route(st, urls, web).ai)
  {
    if |urls| > 0 {
      var n := |urls| - 1;
      RouteAddsLand(st, urls[..n], web);
      var prev := Route(st, urls[..n], web);
      var r := Route(st, urls, web);
      assert Extends(prev, r, 1);
      assert r.outcomes == prev.outcomes + [r.outcomes[|prev.outcomes|]];
      forall o | o in r.outcomes
        ensures (o.AddedFeed? ==> o.feed in r.sources) && (o.AddedForAi? ==> o.url in r.ai)
      {
        if o in prev.outcomes {
          assert prev.sources == r.sources[..|prev.sources|];
          assert prev.ai == r.ai[..|prev.ai|];
        }
      }
    }
  }

  /** The `grant` section of the configuration. */
  class GrantSettings {
    var categories: map<string, seq<string>>
    var crawlers: Option<map<string, bool>>
    var sources: seq<string>
    var aiSources: seq<string>

    constructor (categories0: map<string, seq<string>>, crawlers0: Option<map<string, bool>>,
                 sources0: seq<string>, aiSources0: seq<string>)
      ensures categories == categories0 && crawlers == crawlers0
      ensures sources == sources0 && aiSources == aiSources0
    {
      categories, crawlers, sources, aiSources := categories0, crawlers0, sources0, aiSources0;
    }

    /** "Create category" with the text box holding `input`: the button is disabled while the
        stripped name is empty, an existing name is refused, and a new one starts with no keywords. */
    method CreateCategory(input: string) returns (created: bool)
      modifies this
      ensures created <==> Strip(input) != "" && Strip(input) !in old(categories)
      ensures categories == if created then old(categories)[Strip(input) := []] else old(categories)
      ensures crawlers == old(crawlers) && sources == old(sources) && aiSources == old(aiSources)
    {
      var name := Strip(input);
      if name != "" && name !in categories {
        categories := categories[name := []];
        created := true;
      } else {
        created := false;
      }
    }

    /** "Save keywords" for the category `selected`, with the edited rows. */
    method SaveKeywords(selected: string, rows: seq<string>)
      requires selected in categories
      modifies this
      ensures categories == old(categories)[selected := KeptKeywords(rows)]
      ensures crawlers == old(crawlers) && sources == old(sources) && aiSources == old(aiSources)
    {
      categories := categories[selected := KeptKeywords(rows)];
    }

    /** "Delete category" for `selected`. */
    method DeleteCategory(selected: string)
      requires selected in categories
      modifies this
      ensures categories == old(categories) - {selected}
      ensures crawlers == old(crawlers) && sources == old(sources) && aiSources == old(aiSources)
    {
      categories := categories - {selected};
    }

    /** The four switches as they stand on this page run: the entry is written, and the
        configuration saved, only when it differs from the current one. */
    method ApplyCrawlers(t: Toggles) returns (saved: bool)
      modifies this
      ensures saved <==> CrawlerMap(t) != CurrentCrawlers(old(crawlers))
      ensures crawlers == if saved then Some(CrawlerMap(t)) else old(crawlers)
      ensures categories == old(categories) && sources == old(sources) && aiSources == old(aiSources)
    {
      var newState := CrawlerMap(t);
      saved := newState != CurrentCrawlers(crawlers);
      if saved {
        crawlers := Some(newState);
      }
    }

    /** The RSS detection of one site, with the common paths tried in a loop. */
    static method Detect(target: string, web: Web) returns (feed: Option<string>)
      ensures feed == DetectFeed(target, web)
    {
      match web.fetch(target) {
        case Unreachable => feed := None;
        case Page(status, text) =>
          if status != 200 {
            feed := None;
          } else if LooksLikeFeed(text) {
            feed := Some(target);
          } else if web.feedHref(text).Some? && web.feedHref(text).value != "" {
            feed := Some(web.join(target, web.feedHref(text).value));
          } else {
            feed := None;
            var i := 0;
            while i < |CommonPaths|
              invariant 0 <= i <= |CommonPaths|
              invariant ProbePaths(target, CommonPaths, web) == ProbePaths(target, CommonPaths[i..], web)
            {
              var url := web.join(target, CommonPaths[i]);
              var page := web.fetch(url);
              if page.Unreachable? {
                break;
              }
              if page.status == 200 && Contains(page.text, "<rss") {
                feed := Some(url);
                break;
              }
              assert CommonPaths[i..][1..] == CommonPaths[i + 1..];
              i := i + 1;
            }
          }
      }
    }

    /** One pass of the bulk loop body. */
    static method RegisterOne(st: Lists, url: string, web: Web) returns (next: Lists)
      ensures next == RouteOne(st, url, web)
    {
      if url in st.sources || url in st.ai {
        next := Lists(st.sources, st.ai, st.added, st.outcomes + [AlreadyListed(url)]);
      } else {
        var feed := Detect(url, web);
        if feed.Some? {
          next := Lists(st.sources + [feed.value], st.ai, st.added + 1, st.outcomes + [AddedFeed(url, feed.value)]);
        } else {
          next := Lists(st.sources, st.ai + [url], st.added + 1, st.outcomes + [AddedForAi(url)]);
        }
      }
    }

    /** The loop over the URL lines, starting from `start`. */
    static method RouteAll(start: Lists, urls: seq<string>, web: Web) returns (st: Lists)
      ensures st == Route(start, urls, web)
    {
      st := start;
      var i := 0;
      while i < |urls|
        invariant 0 <= i <= |urls|
        invariant st == Route(start, urls[..i], web)
      {
        assert urls[..i + 1][..i] == urls[..i];
        st := RegisterOne(st, urls[i], web);
        i := i + 1;
      }
      assert urls[..i] == urls;
    }

    /** The URL lines of the text area. */
    static method ParseLines(text: string) returns (urls: seq<string>)
      ensures urls == UrlLines(text)
    {
      urls := UrlLines(text);
    }

    /** "Register (bulk)" with the text area holding `text`: every URL line is routed to one list
        or passed over; the configuration is saved when anything was added. */
    method RegisterUrls(text: string, web: Web) returns (added: nat, outcomes: seq<Outcome>, saved: bool)
      modifies this
      ensures Lists(sources, aiSources, added, outcomes) == Route(Lists(old(sources), old(aiSources), 0, []), UrlLines(text), web)
      ensures saved <==> added > 0
      ensures categories == old(categories) && crawlers == old(crawlers)
    {
      var urls := ParseLines(text);
      var start := Lists(sources, aiSources, 0, []);
      var st := RouteAll(start, urls, web);
      sources := st.sources;
      aiSources := st.ai;
      added, outcomes := st.added, st.outcomes;
      assert Lists(sources, aiSources, added, outcomes) == st;
      saved := added > 0;
    }
  }
}
