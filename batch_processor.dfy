/** The sequential batch loop over tickers: stop on request, skip tickers with a report on disk,
    analyse the others one by one, keep the file names of the saved reports, and tell the caller
    every fifth ticker that a batch is ready. The SEC pipeline of one ticker is an input. */
module Batch {
  import opened Text

  /** What the pipeline does with one normalised ticker: raise, find no filing, extract no text,
      or return an analysis (with the chunk messages it reported on the way), after which saving
      the Word file either works or raises. */
  datatype Work = Raised | NoData | NoText | Analysed(messages: seq<string>, report: string, saved: bool)

  /** One call of `progress_callback(current, total, message[, results])`. */
  datatype Event = Event(current: nat, total: nat, message: string, results: seq<string>)

  datatype State = State(results: seq<string>, events: seq<Event>, fetched: seq<string>)

  /** `ticker.strip().upper()`. */
  function Normalise(ticker: string): string {
    Upper(Strip(ticker))
  }

  function ReportPath(t: string): string {
    "reports/" + t + ".docx"
  }

  function Say(on: bool, e: Event): seq<Event> {
    if on then [e] else []
  }

  /** `os.path.exists(f"reports/{t}.docx")` at the start of a pass: the file was there before the
      run, or an earlier pass saved it, since `save_to_word` writes exactly the path it returns. */
  predicate OnDiskNow(earlier: seq<string>, t: string, onDisk: string -> bool) {
    onDisk(ReportPath(t)) || ReportPath(t) in earlier
  }

  /** What one iteration of the loop adds for ticker number `i` (counting from 0) of `total`, when
      `earlier` are the results so far: new results, new callback calls and new fetched tickers. */
  function Visit(earlier: seq<string>, i: nat, total: nat, t: string, onDisk: string -> bool, work: string -> Work,
                 callback: bool): State
  {
    if OnDiskNow(earlier, t, onDisk) then
      State([], Say(callback, Event(i + 1, total, "Skipping " + t + " (Report already exists)", [])), [])
    else
      var start := Say(callback, Event(i + 1, total, "Processing " + t + "...", []));
      match work(t)
      case Analysed(messages, report, saved) =>
        var chunkEvents := if callback then ChunkEvents(i + 1, total, t, messages) else [];
        if report == "" || !saved then State([], start + chunkEvents, [t])
        else
          var ready := if (i + 1) % 5 == 0 then Say(callback, Event(i + 1, total, "BATCH_READY", earlier + [ReportPath(t)])) else [];
          State([ReportPath(t)], start + chunkEvents + ready, [t])
      case _ => State([], start, [t])
  }

  /** The chunk messages of the analysis forwarded to the callback, each marked with the ticker. */
  function ChunkEvents(current: nat, total: nat, t: string, messages: seq<string>): (r: seq<Event>)
    ensures |r| == |messages|
    ensures forall k :: 0 <= k < |messages| ==> r[k] == Event(current, total, "[" + t + "] " + messages[k], [])
  {
    if |messages| == 0 then []
    else ChunkEvents(current, total, t, messages[..|messages| - 1]) + [Event(current, total, "[" + t + "] " + messages[|messages| - 1], [])]
  }

  /** One iteration of the loop: the state grows by what `Visit` adds. */
  function Step(st: State, i: nat, total: nat, t: string, onDisk: string -> bool, work: string -> Work,
                callback: bool): State
  {
    var d := Visit(st.results, i, total, t, onDisk, work, callback);
    State(st.results + d.results, st.events + d.events, st.fetched + d.fetched)
  }

  /** Every ticker normalised. */
  function NormaliseAll(tickers: seq<string>): (r: seq<string>)
    ensures |r| == |tickers|
    ensures forall i :: 0 <= i < |tickers| ==> r[i] == Normalise(tickers[i])
  {
    if |tickers| == 0 then [] else NormaliseAll(tickers[..|tickers| - 1]) + [Normalise(tickers[|tickers| - 1])]
  }

  /** The state after the first `k` (normalised) tickers, none of them stopped. */
  function Run(tickers: seq<string>, k: nat, onDisk: string -> bool, work: string -> Work, callback: bool): State
    requires k <= |tickers|
  {
    if k == 0 then State([], [], [])
    else Step(Run(tickers, k - 1, onDisk, work, callback), k - 1, |tickers|, tickers[k - 1], onDisk, work, callback)
  }

  /** The index at which the stop signal first answers true, or the number of tickers. */
  function StopIndex(n: nat, stop: nat -> bool, from: nat): (r: nat)
    requires from <= n
    ensures from <= r <= n
    ensures forall i :: from <= i < r ==> !stop(i)
    ensures r < n ==> stop(r)
    decreases n - from
  {
    if from == n then n else if stop(from) then from else StopIndex(n, stop, from + 1)
  }

  /** What `process_batch` leaves behind when the stop signal first answers at `s` (or `s` is the
      number of tickers): the state after the tickers before `s`, and the stop call if there was one. */
  function Finished(tickers: seq<string>, s: nat, onDisk: string -> bool, work: string -> Work, callback: bool): State
    requires s <= |tickers|
  {
    var st := Run(tickers, s, onDisk, work, callback);
    if s < |tickers| then State(st.results, st.events + Say(callback, Event(s, |tickers|, "Stopped by user.", [])), st.fetched)
    else st
  }

  /** `process_batch(tickers, progress_callback, stop_event)`: the returned file names, the callback
      calls in order, and the tickers whose data was fetched. */
  method ProcessBatch(tickers: seq<string>, callback: bool, stop: nat -> bool, onDisk: string -> bool, work: string -> Work)
    returns (results: seq<string>, events: seq<Event>, fetched: seq<string>)
    ensures State(results, events, fetched) == Finished(NormaliseAll(tickers), StopIndex(|tickers|, stop, 0), onDisk, work, callback)
  {
    var total := |tickers|;
    var st := State([], [], []);
    ghost var normalised := NormaliseAll(tickers);
    var i := 0;
    while i < total && !stop(i)
      invariant 0 <= i <= total
      invariant StopIndex(total, stop, 0) == StopIndex(total, stop, i)
      invariant st == Run(normalised, i, onDisk, work, callback)
    {
      var t := Normalise(tickers[i]);
      st := Step(st, i, total, t, onDisk, work, callback);
      assert normalised[i] == Normalise(tickers[i]);
      i := i + 1;
    }
    assert StopIndex(total, stop, i) == i;
    results, events, fetched := st.results, st.events, st.fetched;
    if i < total {
      events := events + Say(callback, Event(i, total, "Stopped by user.", []));
    }
  }

  // ---------------------------------------------------------------------------
  // Properties of the loop

  /** Ticker `t` saves a report when its pass is reached with no report file: none was on disk
      before the run, its analysis returned a non-empty report and saving the Word file worked. */
  predicate Yields(t: string, onDisk: string -> bool, work: string -> Work) {
    !onDisk(ReportPath(t)) && work(t).Analysed? && work(t).report != "" && work(t).saved
  }

  /** The pass of `t` saves its report, with `earlier` the results so far. */
  predicate SavesNow(earlier: seq<string>, t: string, onDisk: string -> bool, work: string -> Work) {
    !OnDiskNow(earlier, t, onDisk) && work(t).Analysed? && work(t).report != "" && work(t).saved
  }

  /** The ticker at position `i` saves its report: it yields one and is the first occurrence of
      its ticker, a later one finding the file its first occurrence wrote. */
  predicate SavesAt(tickers: seq<string>, i: nat, onDisk: string -> bool, work: string -> Work)
    requires i < |tickers|
  {
    Yields(tickers[i], onDisk, work) && tickers[i] !in tickers[..i]
  }

  /** The report paths of the tickers that save a report, in ticker order. */
  function Saved(tickers: seq<string>, onDisk: string -> bool, work: string -> Work): seq<string> {
    if |tickers| == 0 then []
    else
      var init := tickers[..|tickers| - 1];
      var last := tickers[|tickers| - 1];
      Saved(init, onDisk, work) + (if Yields(last, onDisk, work) && last !in init then [ReportPath(last)] else [])
  }

  /** Different tickers have different report paths. */
  lemma ReportPathInjective(t: string, u: string)
    ensures ReportPath(t) == ReportPath(u) ==> t == u
  {
    if ReportPath(t) == ReportPath(u) {
      var p := ReportPath(t);
      assert t == p[8..|p| - 5];
      assert u == p[8..|p| - 5];
    }
  }

  /** A path is among the saved ones exactly when some ticker that yields a report has it. */
  lemma {:induction false} SavedMembers(tickers: seq<string>, onDisk: string -> bool, work: string -> Work, r: string)
    ensures r in Saved(tickers, onDisk, work) <==>
      exists i :: 0 <= i < |tickers| && Yields(tickers[i], onDisk, work) && r == ReportPath(tickers[i])
    decreases |tickers|
  {
    if |tickers| > 0 {
      var init := tickers[..|tickers| - 1];
      SavedMembers(init, onDisk, work, r);
      if exists i :: 0 <= i < |init| && Yields(init[i], onDisk, work) && r == ReportPath(init[i]) {
        var i :| 0 <= i < |init| && Yields(init[i], onDisk, work) && r == ReportPath(init[i]);
        assert tickers[i] == init[i];
      }
      if exists i :: 0 <= i < |tickers| && Yields(tickers[i], onDisk, work) && r == ReportPath(tickers[i]) {
        var i :| 0 <= i < |tickers| && Yields(tickers[i], onDisk, work) && r == ReportPath(tickers[i]);
        if i < |init| {
          assert init[i] == tickers[i];
        } else if tickers[i] in init {
          var j :| 0 <= j < |init| && init[j] == tickers[i];
          assert Yields(init[j], onDisk, work) && r == ReportPath(init[j]);
        }
      }
    }
  }

  /** The report file of `t` exists when its pass starts, after the tickers `init`, exactly when it
      was there before the run or an earlier occurrence of `t` saved it. */
  lemma OnDiskNowSaved(init: seq<string>, t: string, onDisk: string -> bool, work: string -> Work)
    ensures OnDiskNow(Saved(init, onDisk, work), t, onDisk) <==> onDisk(ReportPath(t)) || (t in init && Yields(t, onDisk, work))
  {
    SavedMembers(init, onDisk, work, ReportPath(t));
    if ReportPath(t) in Saved(init, onDisk, work) {
      var i :| 0 <= i < |init| && Yields(init[i], onDisk, work) && ReportPath(t) == ReportPath(init[i]);
      ReportPathInjective(t, init[i]);
    }
    if t in init && Yields(t, onDisk, work) {
      var i :| 0 <= i < |init| && init[i] == t;
      assert Yields(init[i], onDisk, work) && ReportPath(t) == ReportPath(init[i]);
    }
  }

  /** After the tickers `init`, the pass of `t` saves its report exactly when `t` yields one and
      has not come before. */
  lemma SavesNowSaved(init: seq<string>, t: string, onDisk: string -> bool, work: string -> Work)
    ensures SavesNow(Saved(init, onDisk, work), t, onDisk, work) <==> Yields(t, onDisk, work) && t !in init
  {
    OnDiskNowSaved(init, t, onDisk, work);
  }

  /** No name occurs twice in `s`. */
  predicate Distinct(s: seq<string>) {
    forall i, j :: 0 <= i < j < |s| ==> s[i] != s[j]
  }

  /** No file name is returned twice. */
  lemma {:induction false} SavedDistinct(tickers: seq<string>, onDisk: string -> bool, work: string -> Work)
    ensures Distinct(Saved(tickers, onDisk, work))
    decreases |tickers|
  {
    if |tickers| > 0 {
      var init := tickers[..|tickers| - 1];
      var last := tickers[|tickers| - 1];
      SavedDistinct(init, onDisk, work);
      var before := Saved(init, onDisk, work);
      var r := Saved(tickers, onDisk, work);
      if Yields(last, onDisk, work) && last !in init {
        OnDiskNowSaved(init, last, onDisk, work);
        assert r == before + [ReportPath(last)];
        forall i, j | 0 <= i < j < |r| ensures r[i] != r[j] {
          assert r[i] == before[i];
          if j < |before| {
            assert r[j] == before[j];
          } else {
            assert before[i] in before;
          }
        }
      } else {
        assert r == before;
        forall i, j | 0 <= i < j < |r| ensures r[i] != r[j] {
          assert r[i] == before[i] && r[j] == before[j];
        }
      }
    }
  }

  /** The returned file names are exactly the report paths of the processed tickers that save a
      report, in ticker order: one for each ticker, however often it is listed. */
  lemma {:induction false} ResultsAreSavedReports(tickers: seq<string>, k: nat, onDisk: string -> bool,
                                                   work: string -> Work, callback: bool)
    requires k <= |tickers|
    ensures Run(tickers, k, onDisk, work, callback).results == Saved(tickers[..k], onDisk, work)
  {
    if k > 0 {
      ResultsAreSavedReports(tickers, k - 1, onDisk, work, callback);
      SavedRunStep(tickers, k, onDisk, work, callback);
    }
  }

  lemma SavedRunStep(tickers: seq<string>, k: nat, onDisk: string -> bool, work: string -> Work, callback: bool)
    requires 0 < k <= |tickers|
    requires Run(tickers, k - 1, onDisk, work, callback).results == Saved(tickers[..k - 1], onDisk, work)
    ensures Run(tickers, k, onDisk, work, callback).results == Saved(tickers[..k], onDisk, work)
  {
    assert tickers[..k][..k - 1] == tickers[..k - 1];
    VisitSaved(Run(tickers, k - 1, onDisk, work, callback).results, k - 1, |tickers|, tickers[k - 1], onDisk, work, callback);
    SavesNowSaved(tickers[..k - 1], tickers[k - 1], onDisk, work);
  }

  /** One iteration adds its ticker's report path exactly when its pass saves the report, and
      fetches the ticker exactly when no report file exists yet. */
  lemma VisitSaved(earlier: seq<string>, i: nat, total: nat, t: string, onDisk: string -> bool, work: string -> Work,
                   callback: bool)
    ensures Visit(earlier, i, total, t, onDisk, work, callback).results == if SavesNow(earlier, t, onDisk, work) then [ReportPath(t)] else []
    ensures Visit(earlier, i, total, t, onDisk, work, callback).fetched == if OnDiskNow(earlier, t, onDisk) then [] else [t]
  {
  }

  /** The tickers whose data is fetched, in order: each one whose report file does not exist
      when its pass starts. */
  function Fetched(tickers: seq<string>, onDisk: string -> bool, work: string -> Work): seq<string> {
    if |tickers| == 0 then []
    else
      var init := tickers[..|tickers| - 1];
      var last := tickers[|tickers| - 1];
      Fetched(init, onDisk, work) + (if onDisk(ReportPath(last)) || (last in init && Yields(last, onDisk, work)) then [] else [last])
  }

  /** How often each ticker is fetched over the tickers `seen`: never when its report was on disk
      before the run, once (at its first occurrence) when it yields a report, and at every
      occurrence otherwise. */
  ghost predicate FetchCounts(seen: seq<string>, fetched: seq<string>, onDisk: string -> bool, work: string -> Work) {
    forall t :: multiset(fetched)[t] ==
      if onDisk(ReportPath(t)) then 0
      else if Yields(t, onDisk, work) then (if t in seen then 1 else 0)
      else multiset(seen)[t]
  }

  /** A ticker whose report file exists, before the run or because an earlier occurrence saved
      it, is not fetched: the fetches are counted as `FetchCounts` says. */
  lemma ExistingReportNotFetched(tickers: seq<string>, k: nat, onDisk: string -> bool, work: string -> Work, callback: bool)
    requires k <= |tickers|
    ensures FetchCounts(tickers[..k], Run(tickers, k, onDisk, work, callback).fetched, onDisk, work)
    ensures forall t :: t in Run(tickers, k, onDisk, work, callback).fetched ==> !onDisk(ReportPath(t))
  {
    RunFetched(tickers, k, onDisk, work, callback);
    FetchedCounts(tickers[..k], onDisk, work);
    var f := Run(tickers, k, onDisk, work, callback).fetched;
    forall t | t in f ensures !onDisk(ReportPath(t)) {
      assert multiset(f)[t] > 0;
    }
  }

  /** The run fetches the tickers `Fetched` names. */
  lemma {:induction false} RunFetched(tickers: seq<string>, k: nat, onDisk: string -> bool, work: string -> Work, callback: bool)
    requires k <= |tickers|
    ensures Run(tickers, k, onDisk, work, callback).fetched == Fetched(tickers[..k], onDisk, work)
  {
    if k > 0 {
      RunFetched(tickers, k - 1, onDisk, work, callback);
      ResultsAreSavedReports(tickers, k - 1, onDisk, work, callback);
      var st := Run(tickers, k - 1, onDisk, work, callback);
      VisitSaved(st.results, k - 1, |tickers|, tickers[k - 1], onDisk, work, callback);
      OnDiskNowSaved(tickers[..k - 1], tickers[k - 1], onDisk, work);
      assert tickers[..k][..k - 1] == tickers[..k - 1];
    }
  }

  /** `Fetched` counts each ticker as `FetchCounts` says. */
  lemma {:induction false} FetchedCounts(seen: seq<string>, onDisk: string -> bool, work: string -> Work)
    ensures FetchCounts(seen, Fetched(seen, onDisk, work), onDisk, work)
  {
    if |seen| > 0 {
      var init := seen[..|seen| - 1];
      var last := seen[|seen| - 1];
      FetchedCounts(init, onDisk, work);
      assert seen == init + [last];
      FetchCountsStep(init, last, Fetched(init, onDisk, work),
                      if onDisk(ReportPath(last)) || (last in init && Yields(last, onDisk, work)) then [] else [last], onDisk, work);
    }
  }

  /** The counts stay right when the next ticker is fetched exactly when no report file exists yet. */
  lemma FetchCountsStep(init: seq<string>, t: string, fetched: seq<string>, added: seq<string>,
                        onDisk: string -> bool, work: string -> Work)
    requires FetchCounts(init, fetched, onDisk, work)
    requires added == if onDisk(ReportPath(t)) || (t in init && Yields(t, onDisk, work)) then [] else [t]
    ensures FetchCounts(init + [t], fetched + added, onDisk, work)
  {
    forall u ensures multiset(fetched + added)[u] ==
      if onDisk(ReportPath(u)) then 0
      else if Yields(u, onDisk, work) then (if u in init + [t] then 1 else 0)
      else multiset(init + [t])[u]
    {
      assert multiset(fetched + added) == multiset(fetched) + multiset(added);
      assert multiset(init + [t]) == multiset(init) + multiset{t};
      assert u in init + [t] <==> u in init || u == t;
      assert u in init <==> multiset(init)[u] > 0;
    }
  }

  /** The batch-ready call every fifth ticker: each such call comes on a ticker whose position
      (counting from 1) is a multiple of 5 and that ended with a saved report, and carries exactly
      the saved reports up to and including its own. */
  predicate ReadySound(tickers: seq<string>, events: seq<Event>, onDisk: string -> bool, work: string -> Work) {
    forall e :: e in events && e.message == "BATCH_READY" ==> ReadyFor(tickers, e, onDisk, work)
  }

  /** A batch-ready call made right: on a saved ticker at a position that is a multiple of 5,
      with the saved reports up to it. */
  predicate ReadyFor(tickers: seq<string>, e: Event, onDisk: string -> bool, work: string -> Work) {
    1 <= e.current <= |tickers| && e.current % 5 == 0 && e.total == |tickers| &&
    SavesAt(tickers, e.current - 1, onDisk, work) && e.results == Saved(tickers[..e.current], onDisk, work)
  }

  /** With a callback, every ticker among the first `k` whose position is a multiple of 5 and that
      ended with a saved report draws its batch-ready call. */
  predicate ReadyComplete(tickers: seq<string>, k: nat, events: seq<Event>, onDisk: string -> bool, work: string -> Work)
    requires k <= |tickers|
  {
    forall i :: 0 <= i < k && (i + 1) % 5 == 0 && SavesAt(tickers, i, onDisk, work) ==>
      Event(i + 1, |tickers|, "BATCH_READY", Saved(tickers[..i + 1], onDisk, work)) in events
  }

  /** "BATCH_READY" reaches the callback after the save of exactly those tickers whose position
      (counting from 1) is a multiple of 5, and carries the saved reports so far, its own included. */
  lemma {:induction false} BatchReadyEveryFifth(tickers: seq<string>, k: nat, onDisk: string -> bool,
                                                work: string -> Work, callback: bool)
    requires k <= |tickers|
    ensures ReadySound(tickers, Run(tickers, k, onDisk, work, callback).events, onDisk, work)
    ensures callback ==> ReadyComplete(tickers, k, Run(tickers, k, onDisk, work, callback).events, onDisk, work)
  {
    if k > 0 {
      BatchReadyEveryFifth(tickers, k - 1, onDisk, work, callback);
      ResultsAreSavedReports(tickers, k - 1, onDisk, work, callback);
      ReadyRunStep(tickers, k, onDisk, work, callback);
      if callback {
        ReadyCompleteStep(tickers, k, onDisk, work);
      }
    }
  }

  lemma ReadyRunStep(tickers: seq<string>, k: nat, onDisk: string -> bool, work: string -> Work, callback: bool)
    requires 0 < k <= |tickers|
    requires ReadySound(tickers, Run(tickers, k - 1, onDisk, work, callback).events, onDisk, work)
    requires Run(tickers, k - 1, onDisk, work, callback).results == Saved(tickers[..k - 1], onDisk, work)
    ensures ReadySound(tickers, Run(tickers, k, onDisk, work, callback).events, onDisk, work)
  {
    var st := Run(tickers, k - 1, onDisk, work, callback);
    var d := Visit(st.results, k - 1, |tickers|, tickers[k - 1], onDisk, work, callback);
    assert Run(tickers, k, onDisk, work, callback).events == st.events + d.events;
    forall e | e in st.events + d.events && e.message == "BATCH_READY" ensures ReadyFor(tickers, e, onDisk, work) {
      if e !in st.events {
        ReadyFromVisit(tickers, k, st.results, onDisk, work, callback, e);
      }
    }
  }

  /** The batch-ready call of ticker `k` (counting from 1) is made right, `earlier` being the
      reports saved before it. */
  lemma ReadyFromVisit(tickers: seq<string>, k: nat, earlier: seq<string>, onDisk: string -> bool, work: string -> Work,
                       callback: bool, e: Event)
    requires 0 < k <= |tickers| && earlier == Saved(tickers[..k - 1], onDisk, work)
    requires e in Visit(earlier, k - 1, |tickers|, tickers[k - 1], onDisk, work, callback).events
    requires e.message == "BATCH_READY"
    ensures ReadyFor(tickers, e, onDisk, work)
  {
    VisitReady(earlier, k - 1, |tickers|, tickers[k - 1], onDisk, work, callback);
    SavesNowSaved(tickers[..k - 1], tickers[k - 1], onDisk, work);
    SavedSnoc(tickers, k, onDisk, work);
  }

  /** The saved reports grow by the report of ticker `k` (counting from 1) exactly when it saves. */
  lemma SavedSnoc(tickers: seq<string>, k: nat, onDisk: string -> bool, work: string -> Work)
    requires 0 < k <= |tickers|
    ensures Saved(tickers[..k], onDisk, work)
            == Saved(tickers[..k - 1], onDisk, work) + if SavesAt(tickers, k - 1, onDisk, work) then [ReportPath(tickers[k - 1])] else []
  {
    assert tickers[..k][..k - 1] == tickers[..k - 1];
  }

  lemma ReadyCompleteStep(tickers: seq<string>, k: nat, onDisk: string -> bool, work: string -> Work)
    requires 0 < k <= |tickers|
    requires ReadyComplete(tickers, k - 1, Run(tickers, k - 1, onDisk, work, true).events, onDisk, work)
    requires Run(tickers, k - 1, onDisk, work, true).results == Saved(tickers[..k - 1], onDisk, work)
    ensures ReadyComplete(tickers, k, Run(tickers, k, onDisk, work, true).events, onDisk, work)
  {
    var st := Run(tickers, k - 1, onDisk, work, true);
    var d := Visit(st.results, k - 1, |tickers|, tickers[k - 1], onDisk, work, true);
    assert Run(tickers, k, onDisk, work, true).events == st.events + d.events;
    forall i | 0 <= i < k && (i + 1) % 5 == 0 && SavesAt(tickers, i, onDisk, work)
      ensures Event(i + 1, |tickers|, "BATCH_READY", Saved(tickers[..i + 1], onDisk, work)) in st.events + d.events
    {
      if i == k - 1 {
        VisitMakesReady(tickers, k, onDisk, work);
      }
    }
  }

  /** With a callback, ticker `k` (counting from 1) draws its batch-ready call when `k` is a
      multiple of 5 and it saved its report. */
  lemma VisitMakesReady(tickers: seq<string>, k: nat, onDisk: string -> bool, work: string -> Work)
    requires 0 < k <= |tickers| && k % 5 == 0 && SavesAt(tickers, k - 1, onDisk, work)
    requires Run(tickers, k - 1, onDisk, work, true).results == Saved(tickers[..k - 1], onDisk, work)
    ensures Event(k, |tickers|, "BATCH_READY", Saved(tickers[..k], onDisk, work))
            in Visit(Run(tickers, k - 1, onDisk, work, true).results, k - 1, |tickers|, tickers[k - 1], onDisk, work, true).events
  {
    var st := Run(tickers, k - 1, onDisk, work, true);
    VisitReady(st.results, k - 1, |tickers|, tickers[k - 1], onDisk, work, true);
    SavesNowSaved(tickers[..k - 1], tickers[k - 1], onDisk, work);
    SavedSnoc(tickers, k, onDisk, work);
  }

  /** Within one iteration, a batch-ready call comes exactly when the callback is on, the position
      is a multiple of 5 and the pass saves its report; it then carries the earlier results and
      this ticker's report. */
  lemma VisitReady(earlier: seq<string>, i: nat, total: nat, t: string, onDisk: string -> bool,
                   work: string -> Work, callback: bool)
    ensures var d := Visit(earlier, i, total, t, onDisk, work, callback);
      forall e :: e in d.events && e.message == "BATCH_READY" ==>
        e == Event(i + 1, total, "BATCH_READY", earlier + [ReportPath(t)]) && (i + 1) % 5 == 0 && SavesNow(earlier, t, onDisk, work)
    ensures callback && (i + 1) % 5 == 0 && SavesNow(earlier, t, onDisk, work) ==>
      Event(i + 1, total, "BATCH_READY", earlier + [ReportPath(t)]) in Visit(earlier, i, total, t, onDisk, work, callback).events
  {
    var d := Visit(earlier, i, total, t, onDisk, work, callback);
    forall e | e in d.events && e.message == "BATCH_READY"
      ensures e == Event(i + 1, total, "BATCH_READY", earlier + [ReportPath(t)]) && (i + 1) % 5 == 0 && SavesNow(earlier, t, onDisk, work)
    {
      assert "BATCH_READY"[0] == 'B';
    }
  }

  /** Every call in `events` is about one of the first `k` tickers of `total`. */
  predicate Numbered(events: seq<Event>, k: nat, total: nat) {
    forall j :: 0 <= j < |events| ==> 1 <= events[j].current <= k && events[j].total == total
  }

  /** Every callback call made for the first `k` tickers is numbered between 1 and `k` and
      carries the full ticker count as its total. */
  lemma {:induction false} EventsBeforeStop(tickers: seq<string>, k: nat, onDisk: string -> bool,
                                            work: string -> Work, callback: bool)
    requires k <= |tickers|
    ensures Numbered(Run(tickers, k, onDisk, work, callback).events, k, |tickers|)
  {
    if k > 0 {
      EventsBeforeStop(tickers, k - 1, onDisk, work, callback);
      EventsRunStep(tickers, k, onDisk, work, callback);
    }
  }

  lemma EventsRunStep(tickers: seq<string>, k: nat, onDisk: string -> bool, work: string -> Work, callback: bool)
    requires 0 < k <= |tickers|
    requires Numbered(Run(tickers, k - 1, onDisk, work, callback).events, k - 1, |tickers|)
    ensures Numbered(Run(tickers, k, onDisk, work, callback).events, k, |tickers|)
  {
    var st := Run(tickers, k - 1, onDisk, work, callback);
    var d := Visit(st.results, k - 1, |tickers|, tickers[k - 1], onDisk, work, callback);
    assert Run(tickers, k, onDisk, work, callback).events == st.events + d.events;
    VisitEvents(st.results, k - 1, |tickers|, tickers[k - 1], onDisk, work, callback);
    NumberedJoin(st.events, d.events, k, |tickers|);
  }

  /** The calls of ticker `k` follow those numbered up to `k - 1`. */
  lemma NumberedJoin(a: seq<Event>, b: seq<Event>, k: nat, total: nat)
    requires 0 < k && Numbered(a, k - 1, total)
    requires forall j :: 0 <= j < |b| ==> b[j].current == k && b[j].total == total
    ensures Numbered(a + b, k, total)
  {
  }

  /** Every callback call of one iteration carries its ticker's number and the total. */
  lemma VisitEvents(earlier: seq<string>, i: nat, total: nat, t: string, onDisk: string -> bool, work: string -> Work,
                    callback: bool)
    ensures var es := Visit(earlier, i, total, t, onDisk, work, callback).events;
      forall j :: 0 <= j < |es| ==> es[j].current == i + 1 && es[j].total == total
  {
  }
}
