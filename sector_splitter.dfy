/** The sector splitter: writes one JSON ticker list per sector of a fixed sector map, then,
    when the full S&P 500 list is on disk, one list of the tickers no sector names. The files
    written are the observable result; reading `sp500.json` is an input. */
module SectorSplitter {
  import opened Wrappers
  import opened Text

  /** One entry of the sector map: the sector's name and its tickers, in the map's order. */
  datatype Sector = Sector(name: string, tickers: seq<string>)

  /** A written file: its name under `stock_data` and the ticker list dumped into it. */
  datatype File = File(name: string, tickers: seq<string>)

  /** The sector map, in dictionary order. */
  const SectorMap: seq<Sector> := [
    Sector("Communication Services", [
      "GOOG", "GOOGL", "META", "NFLX", "DIS", "CMCSA", "T", "VZ", "TMUS", "CHTR", "WBD", "PARA",
      "FOX", "FOXA", "NWS", "NWSA", "OMC", "IPG", "EA", "TTWO", "LYV", "MTCH"
    ]),
    Sector("Consumer Discretionary", [
      "AMZN", "TSLA", "HD", "MCD", "NKE", "SBUX", "LOW", "BKNG", "TJX", "TGT", "F", "GM", "MAR",
      "HLT", "CMG", "YUM", "LULU", "ORLY", "AZO", "ROST", "EXPE", "RCL", "CCL", "NCLH", "MGM",
      "CZR", "WYNN", "LVS", "DPZ", "DRI", "LEN", "DHI", "PHM", "BBY", "ULTA", "TSCO", "GPC", "LKQ",
      "KMX", "Pool", "VFC", "UAA", "UA", "TPR", "RL", "PVH", "HOG", "HAS", "MAT", "WHR", "MHK"
    ]),
    Sector("Consumer Staples", [
      "WMT", "PG", "COST", "KO", "PEP", "PM", "MO", "MDLZ", "EL", "CL", "KMB", "GIS", "SYY", "ADM",
      "STZ", "DG", "DLTR", "KR", "K", "HSY", "MKC", "CAG", "KHC", "J", "SJM", "TSN", "HRL", "CPB",
      "TAP", "BF.B", "MNST", "CHD", "CLX", "LW"
    ]),
    Sector("Energy", [
      "XOM", "CVX", "COP", "SLB", "EOG", "PXD", "MPC", "PSX", "VLO", "OXY", "HES", "DVN", "HAL",
      "BKR", "KMI", "WMB", "OKE", "TRGP", "CTRA", "FANG", "MRO", "APA", "EQT"
    ]),
    Sector("Financials", [
      "BRK.B", "JPM", "V", "MA", "BAC", "WFC", "SPGI", "GS", "MS", "BLK", "C", "AXP", "CB", "MMC",
      "PGR", "SCHW", "CME", "AON", "ICE", "USB", "PNC", "TFC", "COF", "TRV", "AFL", "AIG", "MET",
      "PRU", "BK", "ALL", "STT", "AMP", "DFS", "HIG", "FITB", "MTB", "RF", "KEY", "CFG", "HBAN",
      "NTRS", "CINF", "RJF", "PFG", "L", "GL", "WRB", "AJG", "BRO", "WTW", "AIZ", "ACGL", "EG",
      "RE", "JKHY", "FIS", "GPN", "FLT", "CPT", "MKTX", "MSCI", "NDAQ", "CBOE", "FDS", "MCO"
    ]),
    Sector("Health Care", [
      "LLY", "UNH", "JNJ", "MRK", "ABBV", "TMO", "ABT", "PFE", "AMGN", "DHR", "ISRG", "ELV", "SYK",
      "GILD", "CVS", "VRTX", "REGN", "CI", "ZTS", "BDX", "BSX", "HCA", "BMY", "HUM", "MCK", "MDT",
      "EW", "COR", "CNC", "IQV", "A", "IDXX", "DXCM", "MTD", "RMD", "GEHC", "STE", "TFX", "BIO",
      "WST", "TECH", "ALGN", "COO", "HOLX", "LH", "DGX", "RVTY", "WAT", "CRL", "UHS", "VTR",
      "WELL", "PEAK", "MRNA", "BAX", "PODD", "ALB"
    ]),
    Sector("Industrials", [
      "GE", "CAT", "UNP", "HON", "UPS", "BA", "DE", "LMT", "ADP", "RTX", "ETN", "WM", "MMM", "CSX",
      "NSC", "GD", "ITW", "EMR", "FDX", "NOC", "PH", "PCAR", "CARR", "OTIS", "JCI", "TT", "GWW",
      "FAST", "PAYX", "CTAS", "TDG", "LHX", "VRSK", "EFX", "URI", "AME", "RSG", "DOV", "SWK",
      "TXT", "HII", "LDOS", "WAB", "GATX", "XYL", "ROK", "CMI", "PCAR", "ODFL", "JBHT", "EXPD",
      "CHRW", "DAL", "UAL", "AAL", "LUV", "ALK"
    ]),
    Sector("Information Technology", [
      "AAPL", "MSFT", "NVDA", "AVGO", "CSCO", "ACN", "ADBE", "CRM", "AMD", "ORCL", "INTC", "QCOM",
      "TXN", "IBM", "INTU", "AMAT", "NOW", "ADI", "LRCX", "MU", "KLAC", "SNPS", "CDNS", "PANW",
      "ROP", "NXPI", "APH", "FTNT", "ADSK", "MSI", "MCHP", "ON", "TEL", "IT", "ANSS", "CDW",
      "KEYS", "GLW", "HPE", "HPQ", "STX", "WDC", "NTAP", "TDY", "ZBRA", "SWKS", "QRVO", "TER",
      "TRMB", "PTC", "TYL", "EPAM", "AKAM", "FICO", "VRSN", "FFIV", "JNPR", "ANET", "ENPH", "FSLR",
      "SEDG", "PAYC"
    ]),
    Sector("Materials", [
      "LIN", "SHW", "APD", "FCX", "ECL", "NUE", "DOW", "DD", "PPG", "CTVA", "MLM", "VMC", "STLD",
      "ALB", "FMC", "MOS", "CF", "EMN", "CE", "LYB", "IFF", "BALL", "AMCR", "WRK", "PKG", "IP",
      "SEE", "AVY"
    ]),
    Sector("Real Estate", [
      "PLD", "AMT", "CCI", "EQIX", "PSA", "O", "SPG", "VICI", "DLR", "AVB", "EQR", "CSGP", "SBAC",
      "CBRE", "EXR", "MAA", "INVH", "IRM", "UDR", "ESS", "KIM", "REG", "HST", "BXP", "VTR", "WELL",
      "PEAK", "ARE", "FRT"
    ]),
    Sector("Utilities", [
      "NEE", "DUK", "SO", "D", "SRE", "AEP", "PEG", "EXC", "XEL", "ED", "WEC", "ES", "EIX", "DTE",
      "ETR", "FE", "PPL", "AEE", "CMS", "CNP", "LNT", "EVRG", "ATO", "NI", "PNW", "NRG", "AES"
    ])
  ]

  // ---------------------------------------------------------------------------
  // File names

  const FilePrefix: string := "sp500_"
  const FileSuffix: string := ".json"

  /** The file a sector is written to. */
  function FileName(sector: string): string {
    FilePrefix + Replace(Lower(sector), " ", "_") + FileSuffix
  }

  /** The file name spelled out: the prefix, then the sector name with each letter lower-cased
      and each space turned into an underscore, then the suffix. */
  lemma FileNameSpelled(sector: string)
    ensures |FileName(sector)| == |FilePrefix| + |sector| + |FileSuffix|
    ensures StartsWith(FileName(sector), FilePrefix) && EndsWith(FileName(sector), FileSuffix)
    ensures forall i :: 0 <= i < |sector| ==>
      FileName(sector)[|FilePrefix| + i] == (if sector[i] == ' ' then '_' else LowerChar(sector[i]))
  {
    var low := Lower(sector);
    ReplaceChar(low, ' ', '_');
    var mid := Replace(low, " ", "_");
    assert FileName(sector) == FilePrefix + mid + FileSuffix;
    forall i | 0 <= i < |sector|
      ensures FileName(sector)[|FilePrefix| + i] == (if sector[i] == ' ' then '_' else LowerChar(sector[i]))
    {
      assert FileName(sector)[|FilePrefix| + i] == mid[i];
      assert low[i] == LowerChar(sector[i]);
      assert sector[i] == ' ' <==> low[i] == ' ';
    }
  }

  /** A file name holds neither a space nor an upper-case letter. */
  lemma FileNameClean(sector: string)
    ensures forall i :: 0 <= i < |FileName(sector)| ==> FileName(sector)[i] != ' ' && !('A' <= FileName(sector)[i] <= 'Z')
  {
    FileNameSpelled(sector);
    var f := FileName(sector);
    forall i | 0 <= i < |f| ensures f[i] != ' ' && !('A' <= f[i] <= 'Z') {
      if i < |FilePrefix| {
        assert f[i] == FilePrefix[i];
      } else if i >= |FilePrefix| + |sector| {
        assert f[i] == FileSuffix[i - |FilePrefix| - |sector|];
      } else {
        assert f[i] == (if sector[i - |FilePrefix|] == ' ' then '_' else LowerChar(sector[i - |FilePrefix|]));
      }
    }
  }

  // ---------------------------------------------------------------------------
  // The union of the sector lists and the tickers left over

  function Members(xs: seq<string>): set<string> {
    set x | x in xs
  }

  /** `all_mapped` after the first sectors: the union of their ticker lists. */
  function Mapped(sectors: seq<Sector>): set<string> {
    if |sectors| == 0 then {} else Mapped(sectors[..|sectors| - 1]) + Members(sectors[|sectors| - 1].tickers)
  }

  /** A ticker is mapped exactly when some sector lists it. */
  lemma {:induction false} MappedMembers(sectors: seq<Sector>, t: string)
    ensures t in Mapped(sectors) <==> exists k :: 0 <= k < |sectors| && t in sectors[k].tickers
  {
    if |sectors| > 0 {
      var front := sectors[..|sectors| - 1];
      MappedMembers(front, t);
      if t in Mapped(front) {
        var k :| 0 <= k < |front| && t in front[k].tickers;
        assert sectors[k] == front[k];
      }
      if exists k :: 0 <= k < |sectors| && t in sectors[k].tickers {
        var k :| 0 <= k < |sectors| && t in sectors[k].tickers;
        if k < |front| {
          assert front[k] == sectors[k];
        }
      }
    }
  }

  /** `list(full_list - all_mapped)`, as a set: the order of the list is the set's. */
  function Others(full: seq<string>, sectors: seq<Sector>): set<string> {
    Members(full) - Mapped(sectors)
  }

  /** The leftover tickers are on the full list and on no sector's list, and every such ticker
      is left over. */
  lemma OthersExact(full: seq<string>, sectors: seq<Sector>, t: string)
    ensures t in Others(full, sectors) <==> t in full && forall k :: 0 <= k < |sectors| ==> t !in sectors[k].tickers
  {
    MappedMembers(sectors, t);
  }

  /** The leftover list, written only when the full list was read and leaves something over. */
  function OthersFile(full: Option<seq<string>>, sectors: seq<Sector>): Option<set<string>> {
    if full.Some? && Others(full.value, sectors) != {} then Some(Others(full.value, sectors)) else None
  }

  /** The leftover file is written exactly when the full list was read and names a ticker that
      no sector lists. */
  lemma OthersFileWritten(full: Option<seq<string>>, sectors: seq<Sector>)
    ensures OthersFile(full, sectors).Some? <==>
      full.Some? && exists j :: 0 <= j < |full.value| && forall k :: 0 <= k < |sectors| ==> full.value[j] !in sectors[k].tickers
  {
    if full.Some? {
      if Others(full.value, sectors) != {} {
        var t :| t in Others(full.value, sectors);
        OthersExact(full.value, sectors, t);
        var j :| 0 <= j < |full.value| && full.value[j] == t;
      }
      if exists j :: 0 <= j < |full.value| && forall k :: 0 <= k < |sectors| ==> full.value[j] !in sectors[k].tickers {
        var j :| 0 <= j < |full.value| && forall k :: 0 <= k < |sectors| ==> full.value[j] !in sectors[k].tickers;
        OthersExact(full.value, sectors, full.value[j]);
      }
    }
  }

  // ---------------------------------------------------------------------------
  // `generate_files`

  /** `generate_files` over a sector map, with `full` the list read from `sp500.json` (`None`
      when the file does not exist): the sector files in order, each holding its sector's list
      unchanged, and the leftover set when one is written. */
  method GenerateFiles(sectors: seq<Sector>, full: Option<seq<string>>) returns (files: seq<File>, others: Option<set<string>>)
    ensures |files| == |sectors|
    ensures forall k :: 0 <= k < |sectors| ==> files[k] == File(FileName(sectors[k].name), sectors[k].tickers)
    ensures others == OthersFile(full, sectors)
  {
    var mapped: set<string> := {};
    files := [];
    for k := 0 to |sectors|
      invariant |files| == k
      invariant forall j :: 0 <= j < k ==> files[j] == File(FileName(sectors[j].name), sectors[j].tickers)
      invariant mapped == Mapped(sectors[..k])
    {
      var sector := sectors[k];
      files := files + [File(FileName(sector.name), sector.tickers)];
      mapped := mapped + Members(sector.tickers);
      assert sectors[..k + 1][..k] == sectors[..k];
    }
    assert sectors[..|sectors|] == sectors;
    others := None;
    if full.Some? {
      var left := Members(full.value) - mapped;
      if left != {} {
        others := Some(left);
      }
    }
  }

  // ---------------------------------------------------------------------------
  // Facts about the fixed sector map

  /** The Industrials list names PCAR twice, and its file keeps both. */
  lemma IndustrialsKeepsDuplicate()
    ensures SectorMap[6].name == "Industrials"
    ensures SectorMap[6].tickers[21] == "PCAR" && SectorMap[6].tickers[47] == "PCAR"
  {
  }

  /** VTR is listed under Health Care and Real Estate, and ALB under Health Care and Materials:
      both files of each pair name it. */
  lemma TickersInTwoSectors()
    ensures SectorMap[5].name == "Health Care" && SectorMap[9].name == "Real Estate" && SectorMap[8].name == "Materials"
    ensures "VTR" in SectorMap[5].tickers && "VTR" in SectorMap[9].tickers
    ensures "ALB" in SectorMap[5].tickers && "ALB" in SectorMap[8].tickers
  {
    assert SectorMap[5].tickers[50] == "VTR" && SectorMap[9].tickers[24] == "VTR";
    assert SectorMap[5].tickers[56] == "ALB" && SectorMap[8].tickers[13] == "ALB";
  }
}
