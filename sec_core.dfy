/** The SEC helpers of the report generator: chunking of the filing text, the ticker-to-CIK lookup,
    the search for the latest filing of a form type, whitespace clean-up of the extracted text, the
    per-chunk retry machine of the model calls, the selection of key rows of a financial statement,
    and the classification of report lines for the Word document. Every network and model call is
    an input. */
module SecCore {
  import opened Wrappers
  import opened Calls
  import opened Text

  // ---------------------------------------------------------------------------
  // `chunk_text(text, chunk_size=30000)`

  const ChunkSize: nat := 30000

  /** `[text[i:i+size] for i in range(0, len(text), size)]`; `range` refuses a step of 0. */
  function Chunks(text: string, size: nat): (r: seq<string>)
    requires size > 0
    ensures |text| == 0 <==> |r| == 0
    ensures forall k :: 0 <= k < |r| - 1 ==> |r[k]| == size
    ensures |r| > 0 ==> 0 < |r[|r| - 1]| <= size
    decreases |text|
  {
    if |text| == 0 then []
    else if |text| <= size then [text]
    else [text[..size]] + Chunks(text[size..], size)
  }

  /** The pieces written one after the other. */
  function Concat(pieces: seq<string>): string {
    if |pieces| == 0 then "" else pieces[0] + Concat(pieces[1..])
  }

  /** Putting the chunks back together gives the text. */
  lemma {:induction false} ConcatChunks(text: string, size: nat)
    requires size > 0
    ensures Concat(Chunks(text, size)) == text
    decreases |text|
  {
    if |text| > size {
      ConcatChunks(text[size..], size);
      var r := Chunks(text, size);
      assert r[1..] == Chunks(text[size..], size);
      assert text == text[..size] + text[size..];
    } else if |text| > 0 {
      assert Concat([text]) == text + Concat([]);
    }
  }

  /** There are `ceil(len / size)` chunks: the fewest whose sizes add up to the text's length. */
  lemma {:induction false} ChunkCount(text: string, size: nat)
    requires size > 0
    ensures var n := |Chunks(text, size)|; |text| <= n * size && (n == 0 || (n - 1) * size < |text|)
    decreases |text|
  {
    if |text| > size {
      var tail := text[size..];
      ChunkCount(tail, size);
      var m := |Chunks(tail, size)|;
      assert |Chunks(text, size)| == m + 1;
      assert (m + 1) * size == m * size + size;
    }
  }

  lemma ChunksOfShort(text: string, size: nat)
    requires size > 0
    ensures |text| <= size ==> |Chunks(text, size)| <= 1
  {
  }

  lemma SliceOfDrop(s: string, d: nat, a: nat, b: nat)
    requires d <= |s| && a <= b <= |s| - d
    ensures s[d..][a..b] == s[d + a..d + b]
  {
  }

  lemma MulSucc(j: nat, size: nat)
    ensures (j + 1) * size == j * size + size
  {
  }

  /** The comprehension read literally: chunk `k` is the slice starting at `k * size`. */
  lemma {:induction false} ChunkIsSlice(text: string, size: nat, k: nat)
    requires size > 0 && k < |Chunks(text, size)|
    ensures k * size < |text| && Chunks(text, size)[k] == text[k * size..Min(k * size + size, |text|)]
    decreases k
  {
    if k > 0 {
      ChunksOfShort(text, size);
      ChunksTail(text, size, k);
      ChunkIsSlice(text[size..], size, k - 1);
      ShiftSlice(text, size, k);
    }
  }

  /** Past the first chunk, the chunks are those of the rest of the text. */
  lemma ChunksTail(text: string, size: nat, k: nat)
    requires size > 0 && |text| > size && 0 < k < |Chunks(text, size)|
    ensures k - 1 < |Chunks(text[size..], size)| && Chunks(text, size)[k] == Chunks(text[size..], size)[k - 1]
  {
    assert Chunks(text, size) == [text[..size]] + Chunks(text[size..], size);
  }

  /** Slice `k - 1` of the text after its first `size` characters is slice `k` of the text. */
  lemma ShiftSlice(text: string, size: nat, k: nat)
    requires size > 0 && |text| > size && k > 0 && (k - 1) * size < |text| - size
    ensures k * size < |text|
    ensures text[size..][(k - 1) * size..Min((k - 1) * size + size, |text| - size)] == text[k * size..Min(k * size + size, |text|)]
  {
    var j := (k - 1) * size;
    MulSucc(k - 1, size);
    var e: int := Min(j + size, |text| - size);
    SliceOfDrop(text, size, j, e);
    assert size + e == Min(k * size + size, |text|);
  }

  // ---------------------------------------------------------------------------
  // `get_cik_from_ticker`: the first entry of `company_tickers.json` with the ticker

  /** One value of `company_tickers.json`; a missing key is `None` (reading it raises `KeyError`). */
  datatype TickerEntry = TickerEntry(ticker: Option<string>, cik: Option<nat>)

  /** `str(cik).zfill(10)`. */
  function PaddedCik(cik: nat): string {
    ZFill(NatToString(cik), 10)
  }

  /** The padded CIK: at least 10 decimal digits, zeros on the left, and the number itself. */
  lemma PaddedCikDigits(cik: nat)
    ensures var r := PaddedCik(cik); var s := NatToString(cik);
      |r| >= 10 && AllDigits(r) && EndsWith(r, s) &&
      (forall i :: 0 <= i < |r| - |s| ==> r[i] == '0') && ParseInt(r) == Some(cik)
  {
    var s := NatToString(cik);
    var r := PaddedCik(cik);
    DigitNotSign(s[0]);
    var k := |r| - |s|;
    assert r == Zeros(k) + s;
    DigitsValueLeadingZeros(k, s);
    DigitsValueOfNatToString(cik);
    ParseDigits(r);
  }

  /** The loop from entry `i` on: a missing key ends the search with the exception path (`None`). */
  function CikFrom(entries: seq<TickerEntry>, wanted: string, i: nat): Option<string>
    decreases |entries| - i
  {
    if i >= |entries| then None
    else match entries[i].ticker
      case None => None
      case Some(t) =>
        if t == wanted then
          match entries[i].cik
          case None => None
          case Some(c) => Some(PaddedCik(c))
        else CikFrom(entries, wanted, i + 1)
  }

  /** Entry `i` is the first whose ticker is `wanted`, and every entry before it has a ticker. */
  predicate FirstTickerAt(entries: seq<TickerEntry>, wanted: string, i: nat) {
    i < |entries| && entries[i].ticker == Some(wanted) &&
    forall j :: 0 <= j < i ==> entries[j].ticker.Some? && entries[j].ticker.value != wanted
  }

  /** The lookup finds a CIK exactly when there is a first matching entry with a CIK, and then it is
      that entry's CIK, padded. */
  lemma {:induction false} CikFromIsFirst(entries: seq<TickerEntry>, wanted: string, i: nat)
    requires i <= |entries|
    requires forall j :: 0 <= j < i ==> entries[j].ticker.Some? && entries[j].ticker.value != wanted
    ensures CikFrom(entries, wanted, i).Some? <==> exists k: nat :: FirstTickerAt(entries, wanted, k) && entries[k].cik.Some?
    ensures forall k: nat :: FirstTickerAt(entries, wanted, k) && entries[k].cik.Some? ==>
      CikFrom(entries, wanted, i) == Some(PaddedCik(entries[k].cik.value))
    decreases |entries| - i
  {
    if i < |entries| && entries[i].ticker.Some? && entries[i].ticker.value != wanted {
      CikFromIsFirst(entries, wanted, i + 1);
    } else if i < |entries| && entries[i].ticker.Some? {
      assert FirstTickerAt(entries, wanted, i);
    }
  }

  /** `get_cik_from_ticker(ticker)`, given what fetching and decoding `company_tickers.json` gave:
      `None` for a failed request, a bad status or a body that is not the expected JSON. */
  method GetCik(ticker: string, fetched: Option<seq<TickerEntry>>) returns (cik: Option<string>)
    ensures fetched.None? ==> cik.None?
    ensures fetched.Some? ==> cik == CikFrom(fetched.value, Upper(ticker), 0)
  {
    if fetched.None? {
      return None;
    }
    var entries := fetched.value;
    var wanted := Upper(ticker);
    var i := 0;
    while i < |entries|
      invariant 0 <= i <= |entries|
      invariant CikFrom(entries, wanted, i) == CikFrom(entries, wanted, 0)
    {
      var entry := entries[i];
      if entry.ticker.None? {
        return None;
      }
      if entry.ticker.value == wanted {
        if entry.cik.None? {
          return None;
        }
        return Some(PaddedCik(entry.cik.value));
      }
      i := i + 1;
    }
    return None;
  }

  // ---------------------------------------------------------------------------
  // `get_latest_filing_url`: the first recent filing of the form type

  /** The parallel lists of `filings.recent` in the submissions JSON. */
  datatype Recent = Recent(form: seq<string>, accession: seq<string>, primaryDocument: seq<string>,
                           filingDate: seq<string>)

  datatype Filing = Filing(url: string, date: string)

  /** `str(n)` for any integer. */
  function IntToString(n: int): string {
    if n < 0 then "-" + NatToString(-n) else NatToString(n)
  }

  /** The archive URL of a filing. */
  function ArchiveUrl(cikValue: int, accession: string, document: string): string {
    "https://www.sec.gov/Archives/edgar/data/" + IntToString(cikValue) + "/" + Replace(accession, "-", "") + "/" + document
  }

  /** The loop from index `i` on; an index past the end of a list (`IndexError`) or a CIK `int`
      refuses (`ValueError`) ends in the exception path, `(None, None)`. */
  function FilingFrom(cik: string, f: Recent, formType: string, i: nat): Option<Filing>
    decreases |f.accession| - i
  {
    if i >= |f.accession| then None
    else if i >= |f.form| then None
    else if f.form[i] != formType then FilingFrom(cik, f, formType, i + 1)
    else FilingAt(cik, f, i)
  }

  /** The answer for the matching index `i`. */
  function FilingAt(cik: string, f: Recent, i: nat): Option<Filing>
    requires i < |f.accession|
  {
    if i >= |f.primaryDocument| || i >= |f.filingDate| then None
    else match ParseInt(cik)
      case None => None
      case Some(v) => Some(Filing(ArchiveUrl(v, f.accession[i], f.primaryDocument[i]), f.filingDate[i]))
  }

  /** The lists all have one entry per filing. */
  predicate Aligned(f: Recent) {
    |f.form| == |f.accession| == |f.primaryDocument| == |f.filingDate|
  }

  predicate FirstFormAt(f: Recent, formType: string, i: nat) {
    i < |f.accession| && i < |f.form| && f.form[i] == formType &&
    forall j :: 0 <= j < i ==> f.form[j] != formType
  }

  /** With aligned lists and a numeric CIK, a filing is found exactly when some filing has the form
      type, and it is the first one: its date and the URL built from its accession number and
      document. */
  lemma FilingFromIsFirst(cik: string, f: Recent, formType: string, i: nat)
    requires Aligned(f) && ParseInt(cik).Some?
    requires i <= |f.accession|
    requires forall j :: 0 <= j < i ==> f.form[j] != formType
    ensures FilingFrom(cik, f, formType, i).Some? <==> exists k: nat :: FirstFormAt(f, formType, k)
    ensures forall k: nat :: FirstFormAt(f, formType, k) ==> FilingFrom(cik, f, formType, i) == FilingAt(cik, f, k)
  {
    var j := ScanTo(cik, f, formType, i);
    if j < |f.accession| {
      FilingFound(cik, f, formType, j);
    } else {
      NoFirstForm(f, formType);
    }
  }

  /** The scan from `i` goes on to the first filing of the form type, or to the end, with the
      same answer. */
  lemma ScanTo(cik: string, f: Recent, formType: string, i: nat) returns (j: nat)
    requires Aligned(f)
    requires i <= |f.accession|
    requires forall j :: 0 <= j < i ==> f.form[j] != formType
    ensures i <= j <= |f.accession| && (j < |f.accession| ==> f.form[j] == formType)
    ensures forall j' :: 0 <= j' < j ==> f.form[j'] != formType
    ensures FilingFrom(cik, f, formType, j) == FilingFrom(cik, f, formType, i)
  {
    j := i;
    while j < |f.accession| && f.form[j] != formType
      invariant i <= j <= |f.accession|
      invariant forall j' :: 0 <= j' < j ==> f.form[j'] != formType
      invariant FilingFrom(cik, f, formType, j) == FilingFrom(cik, f, formType, i)
    {
      FilingFromSkip(cik, f, formType, j);
      j := j + 1;
    }
  }

  /** The scan passes over a filing of another form type. */
  lemma FilingFromSkip(cik: string, f: Recent, formType: string, j: nat)
    requires j < |f.accession| && j < |f.form| && f.form[j] != formType
    ensures FilingFrom(cik, f, formType, j) == FilingFrom(cik, f, formType, j + 1)
  {
  }

  /** The scan stops at the first filing of the form type, whose answer is the filing found. */
  lemma FilingFound(cik: string, f: Recent, formType: string, i: nat)
    requires Aligned(f) && ParseInt(cik).Some?
    requires FirstFormAt(f, formType, i)
    ensures FilingFrom(cik, f, formType, i).Some? && exists k: nat :: FirstFormAt(f, formType, k)
    ensures forall k: nat :: FirstFormAt(f, formType, k) ==> FilingFrom(cik, f, formType, i) == FilingAt(cik, f, k)
  {
    assert FilingFrom(cik, f, formType, i) == FilingAt(cik, f, i);
    forall k: nat | FirstFormAt(f, formType, k) ensures k == i {
      FirstFormUnique(f, formType, i, k);
    }
  }

  /** When no filing has the form type, there is no first one. */
  lemma NoFirstForm(f: Recent, formType: string)
    requires forall j :: 0 <= j < |f.accession| && j < |f.form| ==> f.form[j] != formType
    ensures forall k: nat :: !FirstFormAt(f, formType, k)
  {
  }

  lemma FirstFormUnique(f: Recent, formType: string, a: nat, b: nat)
    requires FirstFormAt(f, formType, a) && FirstFormAt(f, formType, b)
    ensures a == b
  {
  }

  /** With aligned lists and a numeric CIK, the filing at a matching index is its URL and date. */
  lemma FilingAtShape(cik: string, f: Recent, k: nat)
    requires Aligned(f) && ParseInt(cik).Some? && k < |f.accession|
    ensures FilingAt(cik, f, k) == Some(Filing(ArchiveUrl(ParseInt(cik).value, f.accession[k], f.primaryDocument[k]), f.filingDate[k]))
  {
  }

  /** `get_latest_filing_url(cik, ticker, form_type)`, given what fetching the submissions JSON gave
      (`None` for a failed request, a bad status or missing keys). */
  method LatestFiling(cik: string, submissions: Option<Recent>, formType: string) returns (r: Option<Filing>)
    ensures submissions.None? ==> r.None?
    ensures submissions.Some? ==> r == FilingFrom(cik, submissions.value, formType, 0)
  {
    if submissions.None? {
      return None;
    }
    var f := submissions.value;
    var i := 0;
    while i < |f.accession|
      invariant 0 <= i <= |f.accession|
      invariant FilingFrom(cik, f, formType, i) == FilingFrom(cik, f, formType, 0)
    {
      if i >= |f.form| {
        return None;
      }
      if f.form[i] == formType {
        if i >= |f.primaryDocument| || i >= |f.filingDate| {
          return None;
        }
        var cikValue := ParseInt(cik);
        if cikValue.None? {
          return None;
        }
        return Some(Filing(ArchiveUrl(cikValue.value, f.accession[i], f.primaryDocument[i]), f.filingDate[i]));
      }
      i := i + 1;
    }
    return None;
  }

  /** Removing every `-` leaves none. */
  lemma {:induction false} ReplaceDropsChar(s: string, c: char)
    ensures c !in Replace(s, [c], "")
    decreases |s|
  {
    if |s| > 0 {
      ReplaceDropsChar(s[1..], c);
      if s[..1] == [c] {
        assert s[1..] == s[|[c]|..];
      } else {
        assert s[0] != c;
      }
    }
  }

  /** The archive URL of a filing found with a padded CIK names the CIK without its leading zeros,
      and its accession part has no dashes. */
  lemma ArchiveUrlOfPaddedCik(cik: nat, accession: string, document: string)
    ensures ParseInt(PaddedCik(cik)) == Some(cik)
    ensures ArchiveUrl(cik, accession, document) ==
      "https://www.sec.gov/Archives/edgar/data/" + NatToString(cik) + "/" + Replace(accession, "-", "") + "/" + document
    ensures '-' !in Replace(accession, "-", "")
  {
    PaddedCikDigits(cik);
    ReplaceDropsChar(accession, '-');
  }

  // ---------------------------------------------------------------------------
  // `extract_sections`: `re.sub(r'\s+', ' ', text).strip()`

  /** Every run of whitespace replaced by one space. */
  function CollapseRuns(s: string): (r: string)
    ensures |s| == 0 <==> |r| == 0
    ensures |s| > 0 && IsSpace(s[0]) ==> r[0] == ' '
    ensures |s| > 0 && !IsSpace(s[0]) ==> r[0] == s[0]
    ensures Collapsed(r)
    decreases |s|
  {
    if |s| == 0 then ""
    else if IsSpace(s[0]) then
      var t := LStrip(s);
      assert |t| < |s|;
      var rest := CollapseRuns(t);
      assert Collapsed([' '] + rest) by {
        assert |rest| > 0 ==> !IsSpace(rest[0]);
      }
      [' '] + rest
    else
      var rest := CollapseRuns(s[1..]);
      assert Collapsed([s[0]] + rest) by {
        assert forall i :: 1 <= i < |[s[0]] + rest| ==> ([s[0]] + rest)[i] == rest[i - 1];
      }
      [s[0]] + rest
  }

  /** Whitespace only as single spaces. */
  predicate Collapsed(s: string) {
    (forall i :: 0 <= i < |s| && IsSpace(s[i]) ==> s[i] == ' ') &&
    (forall i :: 0 <= i < |s| - 1 ==> !(IsSpace(s[i]) && IsSpace(s[i + 1])))
  }

  /** The whitespace step of `extract_sections`. */
  function CleanText(s: string): string {
    Strip(CollapseRuns(s))
  }

  /** The characters that are not whitespace, in order. */
  function NonSpace(s: string): string {
    if |s| == 0 then "" else (if IsSpace(s[0]) then "" else [s[0]]) + NonSpace(s[1..])
  }

  lemma {:induction false} NonSpaceOfSpaces(s: string)
    requires AllSpace(s)
    ensures NonSpace(s) == ""
  {
    if |s| > 0 {
      NonSpaceOfSpaces(s[1..]);
    }
  }

  lemma {:induction false} NonSpaceAppend(a: string, b: string)
    ensures NonSpace(a + b) == NonSpace(a) + NonSpace(b)
  {
    if |a| > 0 {
      assert (a + b)[1..] == a[1..] + b;
      NonSpaceAppend(a[1..], b);
    } else {
      assert a + b == b;
    }
  }

  /** The collapse keeps every character that is not whitespace, in order. */
  lemma {:induction false} CollapseRunsKeepsText(s: string)
    ensures NonSpace(CollapseRuns(s)) == NonSpace(s)
    decreases |s|
  {
    if |s| > 0 {
      if IsSpace(s[0]) {
        CollapseRunsKeepsText(LStrip(s));
        KeepsTextAfterRun(s);
      } else {
        CollapseRunsKeepsText(s[1..]);
        KeepsTextAfterChar(s);
      }
    }
  }

  /** The step of `CollapseRunsKeepsText` at a run of whitespace. */
  lemma KeepsTextAfterRun(s: string)
    requires |s| > 0 && IsSpace(s[0])
    requires NonSpace(CollapseRuns(LStrip(s))) == NonSpace(LStrip(s))
    ensures NonSpace(CollapseRuns(s)) == NonSpace(s)
  {
    CollapseRunsStep(s);
    NonSpaceCons(' ', CollapseRuns(LStrip(s)));
    NonSpaceLStrip(s);
  }

  /** Leading whitespace holds no text. */
  lemma NonSpaceLStrip(s: string)
    ensures NonSpace(LStrip(s)) == NonSpace(s)
  {
    var t := LStrip(s);
    var k := |s| - |t|;
    var a := s[..k];
    assert t == s[k..];
    SplitAt(s, k);
    NonSpaceAppend(a, t);
    NonSpaceOfSpaces(a);
  }

  /** The step of `CollapseRunsKeepsText` at a character that is not whitespace. */
  lemma KeepsTextAfterChar(s: string)
    requires |s| > 0 && !IsSpace(s[0])
    requires NonSpace(CollapseRuns(s[1..])) == NonSpace(s[1..])
    ensures NonSpace(CollapseRuns(s)) == NonSpace(s)
  {
    CollapseRunsStep(s);
    NonSpaceCons(s[0], CollapseRuns(s[1..]));
  }

  /** One step of the collapse: a run of whitespace becomes one space, another character stays. */
  lemma CollapseRunsStep(s: string)
    requires |s| > 0
    ensures IsSpace(s[0]) ==> CollapseRuns(s) == [' '] + CollapseRuns(LStrip(s))
    ensures !IsSpace(s[0]) ==> CollapseRuns(s) == [s[0]] + CollapseRuns(s[1..])
  {
  }

  lemma NonSpaceCons(c: char, s: string)
    ensures NonSpace([c] + s) == (if IsSpace(c) then "" else [c]) + NonSpace(s)
  {
    assert ([c] + s)[1..] == s;
  }

  /** Stripping keeps a collapsed string collapsed. */
  lemma InfixCollapsed(s: string, a: nat, b: nat)
    requires Collapsed(s) && a <= b <= |s|
    ensures Collapsed(s[a..b])
  {
    var t := s[a..b];
    assert forall i :: 0 <= i < |t| ==> t[i] == s[a + i];
  }

  /** The cleaned text has no whitespace at its ends and only single spaces inside. */
  lemma CleanTextCollapsed(s: string)
    ensures var r := CleanText(s); Collapsed(r) && (|r| == 0 || (!IsSpace(r[0]) && !IsSpace(r[|r| - 1])))
  {
    var c := CollapseRuns(s);
    var r := Strip(c);
    var a, b :| 0 <= a <= b <= |c| && r == c[a..b];
    InfixCollapsed(c, a, b);
  }

  /** Cleaning keeps the characters that are not whitespace, in order. */
  lemma CleanTextKeepsText(s: string)
    ensures NonSpace(CleanText(s)) == NonSpace(s)
  {
    var c := CollapseRuns(s);
    var a, b :| 0 <= a <= b <= |c| && Strip(c) == c[a..b] && AllSpace(c[..a]) && AllSpace(c[b..]);
    NonSpaceOfInfix(c, a, b);
    CollapseRunsKeepsText(s);
  }

  /** Cutting whitespace off both ends keeps the other characters. */
  lemma NonSpaceOfInfix(c: string, a: nat, b: nat)
    requires a <= b <= |c| && AllSpace(c[..a]) && AllSpace(c[b..])
    ensures NonSpace(c[a..b]) == NonSpace(c)
  {
    var pre, mid, post := c[..a], c[a..b], c[b..];
    assert c == pre + mid + post;
    NonSpaceAppend(pre + mid, post);
    NonSpaceAppend(pre, mid);
    NonSpaceOfSpaces(pre);
    NonSpaceOfSpaces(post);
  }

  /** A collapsed string is left as it is by the collapse. */
  lemma {:induction false} CollapseRunsOfCollapsed(s: string)
    requires Collapsed(s)
    ensures CollapseRuns(s) == s
    decreases |s|
  {
    if |s| > 0 {
      InfixCollapsed(s, 1, |s|);
      CollapseRunsOfCollapsed(s[1..]);
      CollapseRunsStep(s);
      if IsSpace(s[0]) {
        assert |s| > 1 ==> !IsSpace(s[1..][0]);
        assert LStrip(s) == LStrip(s[1..]);
        assert LStrip(s[1..]) == s[1..];
        assert s == [' '] + s[1..];
      } else {
        assert s == [s[0]] + s[1..];
      }
    }
  }

  /** Cleaning twice is cleaning once. */
  lemma CleanTextIdempotent(s: string)
    ensures CleanText(CleanText(s)) == CleanText(s)
  {
    var r := CleanText(s);
    CleanTextCollapsed(s);
    CollapseRunsOfCollapsed(r);
    StripNoEdgeSpace(r);
  }

  // ---------------------------------------------------------------------------
  // `analyze_with_gemini`: one model call per attempt, up to five attempts per chunk

  const MaxRetries: nat := 5

  /** The seconds slept after every translated chunk, before the next one. */
  const BaseWait: nat := 5

  function Pow2(n: nat): (r: nat)
    ensures r >= 1
  {
    if n == 0 then 1 else 2 * Pow2(n - 1)
  }

  /** One `progress_callback(current, total, message)` call. */
  datatype Event = Event(current: nat, total: nat, message: string)

  /** What the loop adds to the report and tells the caller: report text, callback calls, the
      seconds slept (back-off waits and the base wait after a translation), in order, and the
      number of model calls. */
  datatype Log = Log(text: string, events: seq<Event>, waits: seq<nat>, calls: nat)

  function Append(a: Log, b: Log): Log {
    Log(a.text + b.text, a.events + b.events, a.waits + b.waits, a.calls + b.calls)
  }

  /** How the retry loop of one chunk ended: a translation, an error that is not a rate limit (the
      `break` out of the loop), or five rate limits (the `else` of the `while`). */
  datatype Outcome = Translated | Errored | Exhausted

  datatype Tried = Tried(log: Log, outcome: Outcome)

  /** The error text names a rate limit: `"429" in str(e) or "Quota exceeded" in str(e)`. */
  predicate IsRateLimit(message: string) {
    ContainsFromLeft(message, "429") || ContainsFromLeft(message, "Quota exceeded")
  }

  function ErrorNote(k: nat, message: string): string {
    "\n\n[Error translating Chunk " + NatToString(k) + ": " + message + "]\n\n"
  }

  function FailedNote(k: nat): string {
    "\n\n[Failed to translate Chunk " + NatToString(k) + " after retries]\n\n"
  }

  function WaitNote(w: nat): string {
    "Rate Limit Hit. Waiting " + NatToString(w) + "s..."
  }

  function ProcessingNote(k: nat, n: nat, size: nat): string {
    "Processing Chunk " + NatToString(k) + "/" + NatToString(n) + " (" + NatToString(size) + " chars)..."
  }

  function Say(on: bool, e: Event): seq<Event> {
    if on then [e] else []
  }

  /** The retry loop of chunk `i` (of `n`) from attempt `retries` on; `respond(i, a)` is what the
      model call of attempt `a` on chunk `i` returns or raises. */
  function Retry(i: nat, n: nat, retries: nat, respond: (nat, nat) -> Call<string>, callback: bool): Tried
    decreases MaxRetries - retries
  {
    if retries >= MaxRetries then Tried(Log(FailedNote(i + 1), [], [], 0), Exhausted)
    else match respond(i, retries)
      case Returns(t) => Tried(Log(t + "\n\n", [], [BaseWait], 1), Translated)
      case Raises(m) =>
        if IsRateLimit(m) then
          var w := 10 * Pow2(retries);
          var rest := Retry(i, n, retries + 1, respond, callback);
          Tried(Log(rest.log.text, Say(callback, Event(i + 1, n, WaitNote(w))) + rest.log.events,
                    [w] + rest.log.waits, rest.log.calls + 1), rest.outcome)
        else Tried(Log(ErrorNote(i + 1, m), [], [], 1), Errored)
  }

  /** Attempts `from` up to `to` (excluded) of chunk `i` all raised a rate-limit error. */
  predicate RateLimitedBetween(i: nat, from: nat, to: nat, respond: (nat, nat) -> Call<string>) {
    forall a :: from <= a < to ==> respond(i, a).Raises? && IsRateLimit(respond(i, a).message)
  }

  /** There are at most five calls per chunk from attempt `retries` on, at least one unless the
      attempts are used up; the waits are first the back-off waits of 10, 20, 40, ... seconds
      (counted from `retries`), one per rate-limited attempt, and then the base wait exactly when
      the chunk was translated. */
  predicate CallsShaped(r: Tried, retries: nat) {
    var backoffs := if r.outcome == Exhausted then r.log.calls else r.log.calls - 1;
    r.log.calls <= MaxRetries - retries &&
    (retries < MaxRetries ==> r.log.calls >= 1) &&
    0 <= backoffs && |r.log.waits| == backoffs + (if r.outcome == Translated then 1 else 0) &&
    (forall j :: 0 <= j < backoffs ==> r.log.waits[j] == 10 * Pow2(retries + j)) &&
    (r.outcome == Translated ==> r.log.waits[backoffs] == BaseWait)
  }

  /** The retry loop keeps to that shape. */
  lemma {:induction false} RetryCalls(i: nat, n: nat, retries: nat, respond: (nat, nat) -> Call<string>, callback: bool)
    requires retries <= MaxRetries
    ensures CallsShaped(Retry(i, n, retries, respond, callback), retries)
    decreases MaxRetries - retries
  {
    if retries < MaxRetries {
      var answer := respond(i, retries);
      if answer.Raises? && IsRateLimit(answer.message) {
        RetryCalls(i, n, retries + 1, respond, callback);
        RetryWaited(i, n, retries, respond, callback);
        CallsStep(Retry(i, n, retries, respond, callback), Retry(i, n, retries + 1, respond, callback), retries);
      } else {
        RetryAnswered(i, n, retries, respond, callback);
      }
    }
  }

  /** A rate-limited attempt in front of a well-shaped rest keeps the shape. */
  lemma CallsStep(r: Tried, rest: Tried, retries: nat)
    requires retries < MaxRetries && CallsShaped(rest, retries + 1)
    requires r.outcome == rest.outcome && r.log.calls == rest.log.calls + 1
    requires r.log.waits == [10 * Pow2(retries)] + rest.log.waits
    ensures CallsShaped(r, retries)
  {
    var backoffs := if r.outcome == Exhausted then r.log.calls else r.log.calls - 1;
    forall j | 0 <= j < backoffs ensures r.log.waits[j] == 10 * Pow2(retries + j) {
      if j > 0 {
        assert r.log.waits[j] == rest.log.waits[j - 1];
      }
    }
    if r.outcome == Translated {
      assert r.log.waits[backoffs] == rest.log.waits[backoffs - 1];
    }
  }

  /** The marker for used-up attempts comes exactly when every remaining attempt hits the rate
      limit, and then all of them are made. */
  lemma {:induction false} RetryExhausted(i: nat, n: nat, retries: nat, respond: (nat, nat) -> Call<string>, callback: bool)
    requires retries <= MaxRetries
    ensures var r := Retry(i, n, retries, respond, callback);
      (r.outcome == Exhausted <==> RateLimitedBetween(i, retries, MaxRetries, respond)) &&
      (r.outcome == Exhausted ==> r.log.calls == MaxRetries - retries && r.log.text == FailedNote(i + 1))
    decreases MaxRetries - retries
  {
    if retries < MaxRetries {
      RetryExhausted(i, n, retries + 1, respond, callback);
      var answer := respond(i, retries);
      if answer.Raises? && IsRateLimit(answer.message) {
        assert RateLimitedBetween(i, retries, MaxRetries, respond) <==> RateLimitedBetween(i, retries + 1, MaxRetries, respond) by {
          if RateLimitedBetween(i, retries + 1, MaxRetries, respond) {
            forall a | retries <= a < MaxRetries ensures respond(i, a).Raises? && IsRateLimit(respond(i, a).message) {
              if a > retries {
                assert retries + 1 <= a < MaxRetries;
              }
            }
          }
        }
      } else {
        assert !RateLimitedBetween(i, retries, MaxRetries, respond) by {
          assert retries <= retries < MaxRetries;
        }
      }
    }
  }

  /** When the attempts are not used up, those before the last one hit the rate limit and the
      last one decides: its text plus a blank line, or the error note with its message. */
  predicate Decided(r: Tried, i: nat, retries: nat, respond: (nat, nat) -> Call<string>) {
    var last := retries + r.log.calls - 1;
    r.outcome != Exhausted ==>
      r.log.calls >= 1 && RateLimitedBetween(i, retries, last, respond) &&
      (r.outcome == Translated ==> respond(i, last).Returns? && r.log.text == respond(i, last).value + "\n\n") &&
      (r.outcome == Errored ==>
        respond(i, last).Raises? && !IsRateLimit(respond(i, last).message) &&
        r.log.text == ErrorNote(i + 1, respond(i, last).message))
  }

  /** The retry loop ends as `Decided` says. */
  lemma {:induction false} RetryDecided(i: nat, n: nat, retries: nat, respond: (nat, nat) -> Call<string>, callback: bool)
    requires retries <= MaxRetries
    ensures Decided(Retry(i, n, retries, respond, callback), i, retries, respond)
    decreases MaxRetries - retries
  {
    if retries < MaxRetries {
      var answer := respond(i, retries);
      if answer.Raises? && IsRateLimit(answer.message) {
        RetryDecided(i, n, retries + 1, respond, callback);
        RetryWaited(i, n, retries, respond, callback);
        DecidedStep(Retry(i, n, retries, respond, callback), Retry(i, n, retries + 1, respond, callback), i, retries, respond);
      } else {
        DecidedAnswered(i, n, retries, respond, callback);
      }
    }
  }

  /** A rate-limited attempt in front of a decided rest is decided too. */
  lemma DecidedStep(r: Tried, rest: Tried, i: nat, retries: nat, respond: (nat, nat) -> Call<string>)
    requires respond(i, retries).Raises? && IsRateLimit(respond(i, retries).message)
    requires Decided(rest, i, retries + 1, respond)
    requires r.outcome == rest.outcome && r.log.calls == rest.log.calls + 1 && r.log.text == rest.log.text
    ensures Decided(r, i, retries, respond)
  {
    if r.outcome != Exhausted {
      var last := retries + r.log.calls - 1;
      assert last == (retries + 1) + rest.log.calls - 1;
      forall a | retries <= a < last ensures respond(i, a).Raises? && IsRateLimit(respond(i, a).message) {
        if a > retries {
          assert retries + 1 <= a < last;
        }
      }
    }
  }

  /** An attempt that does not hit the rate limit decides the loop. */
  lemma DecidedAnswered(i: nat, n: nat, retries: nat, respond: (nat, nat) -> Call<string>, callback: bool)
    requires retries < MaxRetries
    requires !(respond(i, retries).Raises? && IsRateLimit(respond(i, retries).message))
    ensures Decided(Retry(i, n, retries, respond, callback), i, retries, respond)
  {
    RetryAnswered(i, n, retries, respond, callback);
  }

  /** An attempt that does not hit the rate limit is the last one; after a translation the loop
      sleeps the base wait, after another error it does not sleep. */
  lemma RetryAnswered(i: nat, n: nat, retries: nat, respond: (nat, nat) -> Call<string>, callback: bool)
    requires retries < MaxRetries
    requires !(respond(i, retries).Raises? && IsRateLimit(respond(i, retries).message))
    ensures var r := Retry(i, n, retries, respond, callback);
      r.log.calls == 1 && r.outcome != Exhausted &&
      (r.outcome == Translated ==> r.log.waits == [BaseWait]) && (r.outcome == Errored ==> r.log.waits == []) &&
      (r.outcome == Translated <==> respond(i, retries).Returns?) &&
      (r.outcome == Translated ==> r.log.text == respond(i, retries).value + "\n\n") &&
      (r.outcome == Errored ==> r.log.text == ErrorNote(i + 1, respond(i, retries).message))
  {
  }

  /** A rate-limited attempt passes the text, the outcome and the calls after it through. */
  lemma RetryWaited(i: nat, n: nat, retries: nat, respond: (nat, nat) -> Call<string>, callback: bool)
    requires retries < MaxRetries
    requires respond(i, retries).Raises? && IsRateLimit(respond(i, retries).message)
    ensures var r := Retry(i, n, retries, respond, callback); var rest := Retry(i, n, retries + 1, respond, callback);
      r.log.text == rest.log.text && r.outcome == rest.outcome && r.log.calls == rest.log.calls + 1 &&
      r.log.waits == [10 * Pow2(retries)] + rest.log.waits
  {
  }

  /** The report title of a mode. */
  function ReportTitle(mode: string): string {
    if mode == "full" then "Full Translation" else "Executive Summary"
  }

  /** The report header: the title line, the filing date line and a rule. */
  function Header(ticker: string, filingDate: string, mode: string): string {
    ("# " + ticker + " 10-K Report Analysis (" + ReportTitle(mode) + ")\n") + ("**Filing Date:** " + filingDate + "\n") +
    "\n---\n\n"
  }

  /** Chunk `i` of `n`, `size` characters long: the progress call, then the retry loop. */
  function ChunkLog(i: nat, n: nat, size: nat, respond: (nat, nat) -> Call<string>, callback: bool): Log {
    var r := Retry(i, n, 0, respond, callback).log;
    Log(r.text, Say(callback, Event(i + 1, n, ProcessingNote(i + 1, n, size))) + r.events, r.waits, r.calls)
  }

  /** The first `m` chunks, in order. */
  function Analysis(chunks: seq<string>, m: nat, respond: (nat, nat) -> Call<string>, callback: bool): Log
    requires m <= |chunks|
  {
    if m == 0 then Log("", [], [], 0)
    else Append(Analysis(chunks, m - 1, respond, callback), ChunkLog(m - 1, |chunks|, |chunks[m - 1]|, respond, callback))
  }

  /** The retry loop of chunk `i`. */
  method TranslateChunk(i: nat, n: nat, respond: (nat, nat) -> Call<string>, callback: bool) returns (r: Tried)
    ensures r == Retry(i, n, 0, respond, callback)
  {
    var events: seq<Event> := [];
    var waits: seq<nat> := [];
    var retries := 0;
    var finished: Option<Tried> := None;
    ExtendNothing(Retry(i, n, 0, respond, callback));
    while retries < MaxRetries && finished.None?
      invariant Pending(i, n, respond, callback, events, waits, retries, finished)
      decreases MaxRetries - retries, if finished.None? then 1 else 0
    {
      var retries';
      finished, events, waits, retries' := Pass(i, n, respond, callback, events, waits, retries);
      retries := retries';
    }
    if finished.Some? {
      r := finished.value;
    } else {
      r := GiveUp(i, n, events, waits, retries, respond, callback);
    }
  }

  lemma ExtendNothing(t: Tried)
    ensures Extend([], [], 0, t) == t
  {
    assert [] + t.log.events == t.log.events && [] + t.log.waits == t.log.waits;
  }

  /** The state of the retry loop of chunk `i`: while it goes on, what the attempts so far did,
      put in front of what the loop does from attempt `retries` on, is the whole retry; once it has
      finished, its result is. */
  predicate Pending(i: nat, n: nat, respond: (nat, nat) -> Call<string>, callback: bool, events: seq<Event>,
                    waits: seq<nat>, retries: nat, finished: Option<Tried>)
  {
    retries <= MaxRetries &&
    (finished.None? ==> Extend(events, waits, retries, Retry(i, n, retries, respond, callback)) == Retry(i, n, 0, respond, callback)) &&
    (finished.Some? ==> finished.value == Retry(i, n, 0, respond, callback))
  }

  /** One pass of the retry loop, which either finishes or moves on to the next attempt. */
  method Pass(i: nat, n: nat, respond: (nat, nat) -> Call<string>, callback: bool, events: seq<Event>,
              waits: seq<nat>, retries: nat)
    returns (finished: Option<Tried>, events': seq<Event>, waits': seq<nat>, retries': nat)
    requires retries < MaxRetries && Pending(i, n, respond, callback, events, waits, retries, None)
    ensures Pending(i, n, respond, callback, events', waits', retries', finished)
    ensures finished.None? ==> retries' == retries + 1
    ensures finished.Some? ==> retries' == retries
  {
    finished, events', waits' := Attempt(i, n, retries, events, waits, respond, callback);
    retries' := if finished.None? then retries + 1 else retries;
  }

  /** The attempts are used up: the failure note, after every rate-limit call and wait so far. */
  method GiveUp(i: nat, n: nat, events: seq<Event>, waits: seq<nat>, retries: nat,
                respond: (nat, nat) -> Call<string>, callback: bool) returns (r: Tried)
    requires retries >= MaxRetries
    ensures r == Extend(events, waits, retries, Retry(i, n, retries, respond, callback))
  {
    assert events + [] == events && waits + [] == waits;
    r := Tried(Log(FailedNote(i + 1), events, waits, retries), Exhausted);
  }

  /** One pass of the `try`: a translation or another error ends the loop (`finished`); a rate
      limit adds its callback call and its wait. */
  method Attempt(i: nat, n: nat, retries: nat, events: seq<Event>, waits: seq<nat>,
                 respond: (nat, nat) -> Call<string>, callback: bool)
    returns (finished: Option<Tried>, events': seq<Event>, waits': seq<nat>)
    requires retries < MaxRetries
    ensures finished.Some? ==> finished.value == Extend(events, waits, retries, Retry(i, n, retries, respond, callback))
    ensures finished.None? ==> Extend(events', waits', retries + 1, Retry(i, n, retries + 1, respond, callback)) ==
                                 Extend(events, waits, retries, Retry(i, n, retries, respond, callback))
  {
    events', waits' := events, waits;
    assert events + [] == events && waits + [] == waits;
    match respond(i, retries) {
      case Returns(t) =>
        finished := Some(Tried(Log(t + "\n\n", events, waits + [BaseWait], retries + 1), Translated));
      case Raises(m) =>
        if IsRateLimit(m) {
          var w := 10 * Pow2(retries);
          var said := Say(callback, Event(i + 1, n, WaitNote(w)));
          ExtendRateLimited(events, waits, retries, said, w, Retry(i, n, retries + 1, respond, callback));
          finished, events', waits' := None, events + said, waits + [w];
        } else {
          finished := Some(Tried(Log(ErrorNote(i + 1, m), events, waits, retries + 1), Errored));
        }
    }
  }

  /** The first attempts' calls and waits, put in front of what the loop does from there on. */
  function Extend(events: seq<Event>, waits: seq<nat>, calls: nat, t: Tried): Tried {
    Tried(Log(t.log.text, events + t.log.events, waits + t.log.waits, calls + t.log.calls), t.outcome)
  }

  lemma ExtendRateLimited(events: seq<Event>, waits: seq<nat>, calls: nat, said: seq<Event>, w: nat, rest: Tried)
    ensures Extend(events + said, waits + [w], calls + 1, rest) ==
      Extend(events, waits, calls, Tried(Log(rest.log.text, said + rest.log.events, [w] + rest.log.waits, rest.log.calls + 1), rest.outcome))
  {
    assert events + said + rest.log.events == events + (said + rest.log.events);
    assert waits + [w] + rest.log.waits == waits + ([w] + rest.log.waits);
  }

  /** One chunk: the progress call, then the retry loop. */
  method ProcessChunk(i: nat, n: nat, size: nat, respond: (nat, nat) -> Call<string>, callback: bool) returns (lg: Log)
    ensures lg == ChunkLog(i, n, size, respond, callback)
  {
    var msg := ProcessingNote(i + 1, n, size);
    var r := TranslateChunk(i, n, respond, callback);
    lg := Log(r.log.text, Say(callback, Event(i + 1, n, msg)) + r.log.events, r.log.waits, r.log.calls);
  }

  /** `analyze_with_gemini(text, ticker, filing_date, progress_callback, mode)`: the report, the
      callback calls, the seconds slept and the number of model calls. */
  method Analyze(text: string, ticker: string, filingDate: string, callback: bool, mode: string,
                 respond: (nat, nat) -> Call<string>)
    returns (report: string, events: seq<Event>, waits: seq<nat>, calls: nat)
    ensures var chunks := Chunks(text, ChunkSize); var a := Analysis(chunks, |chunks|, respond, callback);
      report == Header(ticker, filingDate, mode) + a.text && events == a.events && waits == a.waits && calls == a.calls
    ensures StartsWith(report, "# " + ticker + " 10-K Report Analysis (" + ReportTitle(mode) + ")\n")
    ensures Contains(report, "**Filing Date:** " + filingDate + "\n")
  {
    var chunks := CutChunks(text);
    var header := MakeHeader(ticker, filingDate, mode);
    var acc;
    acc, report := AnalyzeChunks(chunks, header, respond, callback);
    events, waits, calls := acc.events, acc.waits, acc.calls;
    ReportHeader(ticker, filingDate, mode, acc.text);
  }

  /** The chunk loop, after `header`. */
  method AnalyzeChunks(chunks: seq<string>, header: string, respond: (nat, nat) -> Call<string>, callback: bool)
    returns (acc: Log, report: string)
    ensures acc == Analysis(chunks, |chunks|, respond, callback) && report == header + acc.text
  {
    report := header;
    acc := Log("", [], [], 0);
    var i := 0;
    while i < |chunks|
      invariant 0 <= i <= |chunks|
      invariant acc == Analysis(chunks, i, respond, callback) && report == header + acc.text
    {
      acc, report := AnalyzeChunk(chunks, i, header, acc, report, respond, callback);
      i := i + 1;
    }
  }

  /** The report header, built once. */
  method MakeHeader(ticker: string, filingDate: string, mode: string) returns (header: string)
    ensures header == Header(ticker, filingDate, mode)
  {
    header := Header(ticker, filingDate, mode);
  }

  /** One pass of the chunk loop: chunk `i`'s log joins the analysis and its text the report. */
  method AnalyzeChunk(chunks: seq<string>, i: nat, header: string, acc: Log, report: string,
                      respond: (nat, nat) -> Call<string>, callback: bool)
    returns (acc': Log, report': string)
    requires i < |chunks|
    requires acc == Analysis(chunks, i, respond, callback) && report == header + acc.text
    ensures acc' == Analysis(chunks, i + 1, respond, callback) && report' == header + acc'.text
  {
    var lg := ProcessChunk(i, |chunks|, |chunks[i]|, respond, callback);
    Concat3(header, acc.text, lg.text);
    report' := report + lg.text;
    acc' := Append(acc, lg);
  }

  /** The chunks `analyze_with_gemini` cuts the text into. */
  method CutChunks(text: string) returns (chunks: seq<string>)
    ensures chunks == Chunks(text, ChunkSize)
  {
    chunks := Chunks(text, ChunkSize);
  }

  /** Every chunk costs between one and five model calls. */
  lemma {:induction false} AnalysisCalls(chunks: seq<string>, m: nat, respond: (nat, nat) -> Call<string>, callback: bool)
    requires m <= |chunks|
    ensures m <= Analysis(chunks, m, respond, callback).calls <= MaxRetries * m
  {
    if m > 0 {
      AnalysisCalls(chunks, m - 1, respond, callback);
      ChunkCalls(m - 1, |chunks|, |chunks[m - 1]|, respond, callback);
      assert Analysis(chunks, m, respond, callback).calls ==
        Analysis(chunks, m - 1, respond, callback).calls + ChunkLog(m - 1, |chunks|, |chunks[m - 1]|, respond, callback).calls;
    }
  }

  /** One chunk costs between one and five model calls. */
  lemma ChunkCalls(i: nat, n: nat, size: nat, respond: (nat, nat) -> Call<string>, callback: bool)
    ensures 1 <= ChunkLog(i, n, size, respond, callback).calls <= MaxRetries
  {
    RetryCalls(i, n, 0, respond, callback);
  }

  /** With a callback, chunk `i`'s progress call comes before anything else of that chunk, right
      after everything of the chunks before it. */
  lemma AnalysisProgressFirst(chunks: seq<string>, i: nat, respond: (nat, nat) -> Call<string>)
    requires i < |chunks|
    ensures var before := Analysis(chunks, i, respond, true).events;
      var after := Analysis(chunks, i + 1, respond, true).events;
      |before| < |after| && after[..|before|] == before &&
      after[|before|] == Event(i + 1, |chunks|, ProcessingNote(i + 1, |chunks|, |chunks[i]|))
  {
  }

  /** Each chunk adds what its retry loop produced to the end of the report so far. */
  lemma AnalysisAppends(chunks: seq<string>, i: nat, respond: (nat, nat) -> Call<string>, callback: bool)
    requires i < |chunks|
    ensures Analysis(chunks, i + 1, respond, callback).text ==
      Analysis(chunks, i, respond, callback).text + Retry(i, |chunks|, 0, respond, callback).log.text
  {
  }

  /** A report built on the header opens with the title line naming the ticker and the report
      title of the mode, and carries the filing date line. */
  lemma ReportHeader(ticker: string, filingDate: string, mode: string, body: string)
    ensures StartsWith(Header(ticker, filingDate, mode) + body, "# " + ticker + " 10-K Report Analysis (" + ReportTitle(mode) + ")\n")
    ensures Contains(Header(ticker, filingDate, mode) + body, "**Filing Date:** " + filingDate + "\n")
  {
    var title := "# " + ticker + " 10-K Report Analysis (" + ReportTitle(mode) + ")\n";
    var date := "**Filing Date:** " + filingDate + "\n";
    var rest := "\n---\n\n" + body;
    HeaderPieces(title, date, "\n---\n\n", body);
    ContainsInfix(title, date, rest);
  }

  lemma HeaderPieces(title: string, date: string, rule: string, body: string)
    ensures title + date + rule + body == title + date + (rule + body)
    ensures StartsWith(title + date + rule + body, title)
  {
    assert (title + date + rule + body)[..|title|] == title;
  }

  /** A chunk is marked as failed after retries only when all five attempts hit the rate limit, and
      never after a translation. */
  lemma ExhaustedOnlyAfterFiveRateLimits(i: nat, n: nat, respond: (nat, nat) -> Call<string>, callback: bool)
    ensures Retry(i, n, 0, respond, callback).outcome == Exhausted <==> RateLimitedBetween(i, 0, MaxRetries, respond)
    ensures respond(i, 0).Returns? ==> Retry(i, n, 0, respond, callback) == Tried(Log(respond(i, 0).value + "\n\n", [], [BaseWait], 1), Translated)
  {
    RetryExhausted(i, n, 0, respond, callback);
  }

  // ---------------------------------------------------------------------------
  // `filter_financial_rows(df, statement_type)`

  /** A statement row: its name (the index entry, as text) and its values. */
  datatype Row<V> = Row(name: string, cells: seq<V>)

  /** A statement table: its rows in order and its number of columns. */
  datatype Frame<V> = Frame(rows: seq<Row<V>>, width: nat)

  /** `df.empty`: no rows or no columns. */
  predicate IsEmpty<V(!new)>(df: Frame<V>) {
    |df.rows| == 0 || df.width == 0
  }

  /** The key rows of each statement type; any other type has none. */
  function KeyRows(statementType: string): seq<string> {
    if statementType == "income" then
      ["Total Revenue", "Operating Income", "Net Income", "Basic EPS", "Diluted EPS"]
    else if statementType == "balance" then
      ["Total Assets", "Total Liabilities Net Minority Interest", "Stockholders Equity", "Total Debt",
       "Cash And Cash Equivalents"]
    else if statementType == "cashflow" then
      ["Operating Cash Flow", "Investing Cash Flow", "Financing Cash Flow", "Free Cash Flow"]
    else []
  }

  /** `name in df.index`. */
  predicate HasLabel<V(!new)>(rows: seq<Row<V>>, name: string) {
    exists j :: 0 <= j < |rows| && rows[j].name == name
  }

  /** `[row for row in keys if row in df.index]`. */
  function Existing<V(!new)>(keys: seq<string>, rows: seq<Row<V>>): (r: seq<string>)
    ensures forall x :: x in r <==> x in keys && HasLabel(rows, x)
  {
    if |keys| == 0 then []
    else
      var front := Existing(keys[..|keys| - 1], rows);
      assert forall x :: x in keys <==> x in keys[..|keys| - 1] || x == keys[|keys| - 1];
      front + (if HasLabel(rows, keys[|keys| - 1]) then [keys[|keys| - 1]] else [])
  }

  /** The rows labelled `key`, in order. */
  function Labelled<V(!new)>(rows: seq<Row<V>>, key: string): (r: seq<Row<V>>)
    ensures forall x :: x in r <==> x in rows && x.name == key
  {
    if |rows| == 0 then []
    else
      var front := Labelled(rows[..|rows| - 1], key);
      assert forall x :: x in rows <==> x in rows[..|rows| - 1] || x == rows[|rows| - 1];
      front + (if rows[|rows| - 1].name == key then [rows[|rows| - 1]] else [])
  }

  /** `df.loc[keys]`: for each key in turn, the rows carrying it. */
  function Loc<V(!new)>(rows: seq<Row<V>>, keys: seq<string>): (r: seq<Row<V>>)
    ensures forall x :: x in r <==> x in rows && x.name in keys
  {
    if |keys| == 0 then []
    else
      var front := Loc(rows, keys[..|keys| - 1]);
      assert forall k :: k in keys <==> k in keys[..|keys| - 1] || k == keys[|keys| - 1];
      front + Labelled(rows, keys[|keys| - 1])
  }

  /** `df.head(n)`. */
  function Head<V(!new)>(rows: seq<Row<V>>, n: nat): seq<Row<V>> {
    rows[..Min(n, |rows|)]
  }

  /** `filter_financial_rows(df, statement_type)`; `None` is a missing frame. */
  function FilterFinancialRows<V(!new)>(df: Option<Frame<V>>, statementType: string): Option<Frame<V>> {
    if df.None? || IsEmpty(df.value) then df
    else
      var existing := Existing(KeyRows(statementType), df.value.rows);
      if |existing| > 0 then Some(Frame(Loc(df.value.rows, existing), df.value.width))
      else Some(Frame(Head(df.value.rows, 10), df.value.width))
  }

  lemma KeyRowsDistinct(statementType: string)
    ensures Distinct(KeyRows(statementType))
  {
  }

  /** The position of the first `x` among the keys, or the number of keys when it is absent. */
  function Pos(keys: seq<string>, x: string): (r: nat)
    ensures r <= |keys| && (r < |keys| <==> x in keys)
    ensures r < |keys| ==> keys[r] == x
  {
    if |keys| == 0 then 0 else if keys[0] == x then 0 else 1 + Pos(keys[1..], x)
  }

  /** The rows come grouped by label, in the order of the keys. */
  predicate InKeyOrder<V>(keys: seq<string>, r: seq<Row<V>>) {
    forall p, q :: 0 <= p < q < |r| ==> Pos(keys, r[p].name) <= Pos(keys, r[q].name)
  }

  /** With distinct keys, the selected rows come grouped by key, in key order. */
  lemma {:induction false} LocInKeyOrder<V(!new)>(rows: seq<Row<V>>, keys: seq<string>)
    requires Distinct(keys)
    ensures InKeyOrder(keys, Loc(rows, keys))
  {
    if |keys| > 0 {
      var front := keys[..|keys| - 1];
      assert Distinct(front) by {
        assert forall a :: 0 <= a < |front| ==> front[a] == keys[a];
      }
      LocInKeyOrder(rows, front);
      OrderedAppend(keys, Loc(rows, front), Labelled(rows, keys[|keys| - 1]));
    }
  }

  /** Rows in the order of all keys but the last, followed by rows of the last key. */
  lemma OrderedAppend<V(!new)>(keys: seq<string>, f: seq<Row<V>>, g: seq<Row<V>>)
    requires |keys| > 0 && Distinct(keys)
    requires InKeyOrder(keys[..|keys| - 1], f)
    requires forall x :: x in f ==> x.name in keys[..|keys| - 1]
    requires forall x :: x in g ==> x.name == keys[|keys| - 1]
    ensures InKeyOrder(keys, f + g)
  {
    var front := keys[..|keys| - 1];
    var r := f + g;
    forall p, q | 0 <= p < q < |r| ensures Pos(keys, r[p].name) <= Pos(keys, r[q].name) {
      if q < |f| {
        assert r[p] == f[p] && r[q] == f[q];
        assert f[p] in f && f[q] in f;
        PosOfPrefix(keys, f[p].name);
        PosOfPrefix(keys, f[q].name);
      } else if p < |f| {
        assert r[p] == f[p] && r[q] == g[q - |f|];
        assert f[p] in f && g[q - |f|] in g;
        PosOfPrefix(keys, f[p].name);
      } else {
        assert r[p] == g[p - |f|] && r[q] == g[q - |f|];
        assert g[p - |f|] in g && g[q - |f|] in g;
      }
    }
  }

  lemma {:induction false} PosOfPrefix(keys: seq<string>, x: string)
    requires |keys| > 0 && x in keys[..|keys| - 1]
    ensures Pos(keys, x) == Pos(keys[..|keys| - 1], x) && Pos(keys, x) < |keys| - 1
  {
    if keys[0] != x {
      assert keys[1..][..|keys| - 2] == keys[..|keys| - 1][1..];
      PosOfPrefix(keys[1..], x);
    }
  }

  /** Leaving out the keys no row carries changes nothing. */
  lemma {:induction false} LocOfExisting<V(!new)>(rows: seq<Row<V>>, keys: seq<string>)
    ensures Loc(rows, Existing(keys, rows)) == Loc(rows, keys)
  {
    if |keys| > 0 {
      var front := keys[..|keys| - 1];
      var last := keys[|keys| - 1];
      LocOfExisting(rows, front);
      var e := Existing(front, rows);
      if HasLabel(rows, last) {
        assert Existing(keys, rows) == e + [last];
        assert (e + [last])[..|e|] == e;
      } else {
        assert Existing(keys, rows) == e;
        LabelledNone(rows, last);
        assert Loc(rows, keys) == Loc(rows, front) + [];
      }
    }
  }

  lemma {:induction false} LabelledNone<V(!new)>(rows: seq<Row<V>>, key: string)
    requires !HasLabel(rows, key)
    ensures Labelled(rows, key) == []
  {
    if |rows| > 0 {
      assert forall j :: 0 <= j < |rows| - 1 ==> rows[..|rows| - 1][j] == rows[j];
      LabelledNone(rows[..|rows| - 1], key);
    }
  }

  lemma {:induction false} ExistingNone<V(!new)>(keys: seq<string>, rows: seq<Row<V>>)
    requires forall x :: x in keys ==> !HasLabel(rows, x)
    ensures Existing(keys, rows) == []
  {
    if |keys| > 0 {
      ExistingNone(keys[..|keys| - 1], rows);
    }
  }

  /** A missing or empty frame comes back as it was. */
  lemma FilterKeepsMissingOrEmpty<V(!new)>(df: Option<Frame<V>>, statementType: string)
    requires df.None? || IsEmpty(df.value)
    ensures FilterFinancialRows(df, statementType) == df
  {
  }

  /** When some key row exists, the result holds exactly the frame's rows with key labels, grouped in
      key-list order, with the same columns. */
  lemma FilterSelectsKeyRows<V(!new)>(df: Frame<V>, statementType: string)
    requires !IsEmpty(df)
    requires exists x :: x in KeyRows(statementType) && HasLabel(df.rows, x)
    ensures var r := FilterFinancialRows(Some(df), statementType);
      var keys := KeyRows(statementType);
      r.Some? && r.value.width == df.width &&
      (forall x :: x in r.value.rows <==> x in df.rows && x.name in keys) &&
      InKeyOrder(keys, r.value.rows)
  {
    var keys := KeyRows(statementType);
    var x :| x in keys && HasLabel(df.rows, x);
    assert x in Existing(keys, df.rows);
    LocOfExisting(df.rows, keys);
    KeyRowsDistinct(statementType);
    LocInKeyOrder(df.rows, keys);
  }

  /** When no key row exists, the result is the first ten rows. */
  lemma FilterFallsBackToHead<V(!new)>(df: Frame<V>, statementType: string)
    requires !IsEmpty(df)
    requires forall x :: x in KeyRows(statementType) ==> !HasLabel(df.rows, x)
    ensures var r := FilterFinancialRows(Some(df), statementType);
      r.Some? && r.value.width == df.width && |r.value.rows| == Min(10, |df.rows|) &&
      r.value.rows == df.rows[..|r.value.rows|]
  {
    ExistingNone(KeyRows(statementType), df.rows);
  }

  // ---------------------------------------------------------------------------
  // `save_to_word`: the report text as Word blocks

  /** A level-2 heading, a list bullet or a plain paragraph. */
  datatype Block = Heading(text: string) | Bullet(text: string) | Paragraph(text: string)

  /** The bold markers and the heading marks removed, in that order. */
  function CleanMarkdown(markdown: string): string {
    Replace(Replace(Replace(markdown, "**", ""), "## ", ""), "# ", "")
  }

  predicate IsHeadingLine(l: string) {
    StartsWith(l, "Item") || StartsWith(l, "Conclusion") || StartsWith(l, "Risk") || StartsWith(l, "Business")
  }

  /** The block of one line, or none for a blank line. */
  function Classify(line: string): Option<Block> {
    var l := Strip(line);
    if l == "" then None
    else if IsHeadingLine(l) then Some(Heading(l))
    else if StartsWith(l, "- ") then Some(Bullet(l[2..]))
    else Some(Paragraph(l))
  }

  /** The blocks of the lines, in order. */
  function Blocks(lines: seq<string>): (r: seq<Block>)
    ensures |r| <= |lines|
  {
    if |lines| == 0 then []
    else Blocks(lines[..|lines| - 1]) + (match Classify(lines[|lines| - 1]) case None => [] case Some(b) => [b])
  }

  /** The line loop of `save_to_word`. */
  method WordBlocks(markdown: string) returns (blocks: seq<Block>)
    ensures blocks == Blocks(Split(CleanMarkdown(markdown), '\n'))
  {
    var lines := Split(CleanMarkdown(markdown), '\n');
    blocks := [];
    for k := 0 to |lines|
      invariant blocks == Blocks(lines[..k])
    {
      assert lines[..k + 1][..k] == lines[..k];
      var line := Strip(lines[k]);
      if line == "" {
        continue;
      }
      if IsHeadingLine(line) {
        blocks := blocks + [Heading(line)];
      } else if StartsWith(line, "- ") {
        blocks := blocks + [Bullet(line[2..])];
      } else {
        blocks := blocks + [Paragraph(line)];
      }
    }
    assert lines[..|lines|] == lines;
  }

  /** What each line becomes: nothing when blank; otherwise a heading for the four heading words, a
      bullet without its `- ` for a dash item, else a paragraph; the text is never empty. */
  lemma ClassifyLine(line: string)
    ensures var l := Strip(line); var b := Classify(line);
      (b.None? <==> l == "") &&
      (b.Some? ==> |b.value.text| > 0) &&
      (b.Some? && b.value.Heading? <==> l != "" && IsHeadingLine(l)) &&
      (b.Some? && b.value.Bullet? <==> l != "" && !IsHeadingLine(l) && StartsWith(l, "- ")) &&
      (b.Some? && b.value.Bullet? ==> l == "- " + b.value.text) &&
      (b.Some? && !b.value.Bullet? ==> b.value.text == l)
  {
    var l := Strip(line);
    if l != "" && !IsHeadingLine(l) && StartsWith(l, "- ") {
      assert l == "- " + l[2..];
      assert |l| > 2 by {
        assert !IsSpace(l[|l| - 1]);
        assert IsSpace(l[1]);
      }
    }
  }

  /** Stripping a line keeps it free of line breaks. */
  lemma StripOneLine(line: string)
    requires '\n' !in line
    ensures '\n' !in Strip(line)
  {
    StripKeepsOut(line, '\n');
  }

  lemma StripKeepsOut(s: string, c: char)
    requires c !in s
    ensures c !in Strip(s)
  {
    var l := Strip(s);
    var a, b :| 0 <= a <= b <= |s| && l == s[a..b];
    SliceKeepsOut(s, c, a, b);
  }

  lemma SliceKeepsOut(s: string, c: char, a: nat, b: nat)
    requires c !in s && a <= b <= |s|
    ensures c !in s[a..b]
  {
    assert forall i :: 0 <= i < b - a ==> s[a..b][i] == s[a + i];
  }

  /** No block in `blocks` spans two lines. */
  predicate OneLine(blocks: seq<Block>) {
    forall b :: b in blocks ==> '\n' !in b.text
  }

  /** No block text spans two lines. */
  lemma BlocksOneLine(lines: seq<string>)
    requires forall k :: 0 <= k < |lines| ==> '\n' !in lines[k]
    ensures OneLine(Blocks(lines))
  {
    var k := 0;
    while k < |lines|
      invariant k <= |lines| && OneLine(Blocks(lines[..k]))
    {
      BlocksStep(lines, k);
      k := k + 1;
    }
    assert lines[..k] == lines;
  }

  /** The block of one more line keeps the blocks on one line each. */
  lemma BlocksStep(lines: seq<string>, k: nat)
    requires k < |lines| && '\n' !in lines[k]
    requires OneLine(Blocks(lines[..k]))
    ensures OneLine(Blocks(lines[..k + 1]))
  {
    assert lines[..k + 1][..k] == lines[..k];
    ClassifyOneLine(lines[k]);
  }

  /** The block of a line without a line break has none. */
  lemma ClassifyOneLine(line: string)
    requires '\n' !in line
    ensures Classify(line).Some? ==> '\n' !in Classify(line).value.text
  {
    StripOneLine(line);
    var l := Strip(line);
    if |l| >= 2 {
      SliceKeepsOut(l, '\n', 2, |l|);
      assert l[2..] == l[2..|l|];
    }
  }

  /** The blocks of a report never contain a line break. */
  lemma WordBlocksOneLine(markdown: string)
    ensures OneLine(Blocks(Split(CleanMarkdown(markdown), '\n')))
  {
    BlocksOneLine(Split(CleanMarkdown(markdown), '\n'));
  }
}
