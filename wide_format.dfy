/**
 * `get_output_as_excel` and `get_time_periods`: the wide CSV layout. The
 * first successful fetch of the run emits a header (two empty fields, then
 * the period starts); every pair with at least one valid value emits
 * "region,a-account" followed by its valid values only; every account ends
 * with the separator ",,,,".
 *
 * The specification is a `Progress` (the lines so far and the ITR flag)
 * advanced pair by pair; `Render` gives each line's text as the CSV record
 * of its fields, and the methods prove that the source's concatenations
 * build exactly that text.
 */
module WideFormat {
  import opened CsvText
  import opened Filters
  import opened Forecasts
  import opened SeqFacts

  datatype Line =
    | Header(periods: seq<string>)
    | Data(region: string, account: string, values: seq<int>)
    | Separator

  /** `str()` of each value, in order. */
  function Texts(vs: seq<int>): (r: seq<string>)
    ensures |r| == |vs|
  {
    if vs == [] then [] else Texts(vs[..|vs| - 1]) + [IntToString(vs[|vs| - 1])]
  }

  /** The comma-separated fields of each kind of line. */
  function Fields(l: Line): seq<string> {
    match l
    case Header(ps) => ["", ""] + ps
    case Data(r, a, vs) => [r, "a-" + a] + Texts(vs)
    case Separator => ["", "", "", "", ""]
  }

  function Render(l: Line): string {
    CsvRecord(Fields(l))
  }

  function RenderAll(lines: seq<Line>): string {
    if lines == [] then "" else RenderAll(lines[..|lines| - 1]) + Render(lines[|lines| - 1])
  }

  lemma RenderAllSnoc(lines: seq<Line>, l: Line)
    ensures RenderAll(lines + [l]) == RenderAll(lines) + Render(l)
  {
    assert (lines + [l])[..|lines|] == lines;
  }

  lemma JoinSnoc(fs: seq<string>, f: string)
    requires |fs| >= 1
    ensures Join(fs + [f]) == Join(fs) + "," + f
  {
    assert (fs + [f])[..|fs|] == fs;
  }

  /** The mean values of a pair's valid points, in point order. */
  function Means(pts: seq<Point>): (r: seq<int>)
    ensures |r| == |pts|
  {
    if pts == [] then [] else Means(pts[..|pts| - 1]) + [pts[|pts| - 1].meanValue]
  }

  function RowValues(pts: seq<Point>): seq<int> {
    Means(ValidPoints(pts))
  }

  lemma {:induction false} MeansAt(pts: seq<Point>, k: int)
    requires 0 <= k < |pts|
    ensures Means(pts)[k] == pts[k].meanValue
    decreases |pts|
  {
    if k < |pts| - 1 {
      MeansAt(pts[..|pts| - 1], k);
    }
  }

  /**
   * A value is in a pair's row exactly when some valid point has it: an
   * invalid point contributes no column (its random stand-in is discarded).
   */
  lemma RowValuesMembers(pts: seq<Point>)
    ensures forall v :: v in RowValues(pts) <==> exists p :: p in pts && IsValid(p) && p.meanValue == v
    ensures forall v :: v in RowValues(pts) ==> v > 1
  {
    var vps := ValidPoints(pts);
    ValidPointsMembers(pts);
    forall v ensures v in RowValues(pts) <==> exists p :: p in pts && IsValid(p) && p.meanValue == v {
      if v in RowValues(pts) {
        var k :| 0 <= k < |vps| && Means(vps)[k] == v;
        MeansAt(vps, k);
        assert vps[k] in vps;
      }
      if p :| p in pts && IsValid(p) && p.meanValue == v {
        var k :| 0 <= k < |vps| && vps[k] == p;
        MeansAt(vps, k);
      }
    }
  }

  /**
   * A data row has as many fields as the header of the same forecast if and
   * only if every point is valid; otherwise its columns shift left.
   */
  lemma RowAlignsWithHeader(region: string, account: string, pts: seq<Point>)
    ensures |Fields(Data(region, account, RowValues(pts)))| == |Fields(Header(Starts(pts)))|
      <==> forall k :: 0 <= k < |pts| ==> IsValid(pts[k])
  {
    ValidPointsMembers(pts);
  }

  /** What the pass has emitted so far, and whether the header is out (ITR = "1"). */
  datatype Progress = Progress(lines: seq<Line>, headerDone: bool)

  /** One pair: lines 133-154 when the fetch succeeds, nothing when it fails. */
  function PairStep(st: Progress, account: string, region: string, outcome: Option<seq<Point>>): Progress {
    if outcome.None? then st
    else
      var pts := outcome.value;
      var withHeader := if st.headerDone then st.lines else st.lines + [Header(Starts(pts))];
      var vs := RowValues(pts);
      Progress(if vs != [] then withHeader + [Data(region, account, vs)] else withHeader, true)
  }

  /** The region loop of one account. */
  function AccountProgress(st: Progress, account: string, regions: seq<string>, fetch: Fetch, days: int): Progress {
    if regions == [] then st
    else
      var region := regions[|regions| - 1];
      PairStep(AccountProgress(st, account, regions[..|regions| - 1], fetch, days),
               account, region, Outcome(fetch, days, account, region))
  }

  /** The whole pass: each account's regions, then the separator. */
  function WideProgress(accounts: seq<string>, regions: seq<string>, fetch: Fetch, days: int): Progress {
    if accounts == [] then Progress([], false)
    else
      var st := AccountProgress(WideProgress(accounts[..|accounts| - 1], regions, fetch, days),
                                accounts[|accounts| - 1], regions, fetch, days);
      Progress(st.lines + [Separator], st.headerDone)
  }

  function WideLines(accounts: seq<string>, regions: seq<string>, fetch: Fetch, days: int): seq<Line> {
    WideProgress(accounts, regions, fetch, days).lines
  }

  function WideText(accounts: seq<string>, regions: seq<string>, fetch: Fetch, days: int): string {
    RenderAll(WideLines(accounts, regions, fetch, days))
  }

  // ---------------------------------------------------------------------
  // Header: exactly once, from the first successful fetch

  /** The first successful fetch among an account's regions, in region order. */
  function AccountFirst(account: string, regions: seq<string>, fetch: Fetch, days: int): Option<seq<Point>> {
    if regions == [] then None
    else
      var before := AccountFirst(account, regions[..|regions| - 1], fetch, days);
      if before.Some? then before else Outcome(fetch, days, account, regions[|regions| - 1])
  }

  /** The first successful fetch of the run, accounts outer and regions inner. */
  function FirstSuccess(accounts: seq<string>, regions: seq<string>, fetch: Fetch, days: int): Option<seq<Point>> {
    if accounts == [] then None
    else
      var before := FirstSuccess(accounts[..|accounts| - 1], regions, fetch, days);
      if before.Some? then before else AccountFirst(accounts[|accounts| - 1], regions, fetch, days)
  }

  /** There is a first successful fetch exactly when some listed pair's fetch succeeds. */
  lemma {:induction false} FirstSuccessExists(accounts: seq<string>, regions: seq<string>, fetch: Fetch, days: int)
    ensures FirstSuccess(accounts, regions, fetch, days).Some? <==>
      exists a, r :: a in accounts && r in regions && Outcome(fetch, days, a, r).Some?
    decreases |accounts|
  {
    if accounts != [] {
      var init, last := accounts[..|accounts| - 1], accounts[|accounts| - 1];
      FirstSuccessExists(init, regions, fetch, days);
      AccountFirstExists(last, regions, fetch, days);
      assert accounts == init + [last];
      if exists a, r :: a in accounts && r in regions && Outcome(fetch, days, a, r).Some? {
        var a, r :| a in accounts && r in regions && Outcome(fetch, days, a, r).Some?;
        if a in init {
        } else {
          assert a == last;
        }
      }
    }
  }

  lemma {:induction false} AccountFirstExists(account: string, regions: seq<string>, fetch: Fetch, days: int)
    ensures AccountFirst(account, regions, fetch, days).Some? <==>
      exists r :: r in regions && Outcome(fetch, days, account, r).Some?
    decreases |regions|
  {
    if regions != [] {
      var init, last := regions[..|regions| - 1], regions[|regions| - 1];
      AccountFirstExists(account, init, fetch, days);
      assert regions == init + [last];
      if exists r :: r in regions && Outcome(fetch, days, account, r).Some? {
        var r :| r in regions && Outcome(fetch, days, account, r).Some?;
        if r in init {
        } else {
          assert r == last;
        }
      }
    }
  }

  /** The header lines among `lines`, in order. */
  function Headers(lines: seq<Line>): seq<Line> {
    if lines == [] then []
    else Headers(lines[..|lines| - 1]) + (if lines[|lines| - 1].Header? then [lines[|lines| - 1]] else [])
  }

  lemma HeadersSnoc(lines: seq<Line>, l: Line)
    ensures Headers(lines + [l]) == Headers(lines) + (if l.Header? then [l] else [])
  {
    assert (lines + [l])[..|lines|] == lines;
  }

  /** The header lines are one header for `first` if there is one, and none otherwise. */
  function HeaderOf(first: Option<seq<Point>>): seq<Line> {
    if first.Some? then [Header(Starts(first.value))] else []
  }

  /** The ITR flag is "1" exactly when the header is out, and the header came from `first`. */
  ghost predicate HeaderState(st: Progress, first: Option<seq<Point>>) {
    (st.headerDone <==> first.Some?) && Headers(st.lines) == HeaderOf(first)
  }

  lemma PairStepHeader(st: Progress, first: Option<seq<Point>>, account: string, region: string,
                       outcome: Option<seq<Point>>)
    requires HeaderState(st, first)
    ensures HeaderState(PairStep(st, account, region, outcome), if first.Some? then first else outcome)
  {
    if outcome.Some? {
      var pts := outcome.value;
      var withHeader := if st.headerDone then st.lines else st.lines + [Header(Starts(pts))];
      if !st.headerDone {
        HeadersSnoc(st.lines, Header(Starts(pts)));
      }
      HeadersSnoc(withHeader, Data(region, account, RowValues(pts)));
    }
  }

  lemma {:induction false} AccountProgressHeader(st: Progress, first: Option<seq<Point>>, account: string,
                                                regions: seq<string>, fetch: Fetch, days: int)
    requires HeaderState(st, first)
    ensures HeaderState(AccountProgress(st, account, regions, fetch, days),
                        if first.Some? then first else AccountFirst(account, regions, fetch, days))
    decreases |regions|
  {
    if regions != [] {
      var init, last := regions[..|regions| - 1], regions[|regions| - 1];
      AccountProgressHeader(st, first, account, init, fetch, days);
      var mid := if first.Some? then first else AccountFirst(account, init, fetch, days);
      PairStepHeader(AccountProgress(st, account, init, fetch, days), mid, account, last,
                     Outcome(fetch, days, account, last));
    }
  }

  /**
   * The header appears exactly once when some fetch succeeds, and not at
   * all otherwise; it lists the period starts of the first successful fetch,
   * even when none of that fetch's values is valid.
   */
  lemma {:induction false} HeaderOnce(accounts: seq<string>, regions: seq<string>, fetch: Fetch, days: int)
    ensures Headers(WideLines(accounts, regions, fetch, days)) == HeaderOf(FirstSuccess(accounts, regions, fetch, days))
    ensures WideProgress(accounts, regions, fetch, days).headerDone <==> FirstSuccess(accounts, regions, fetch, days).Some?
    decreases |accounts|
  {
    if accounts != [] {
      var init, last := accounts[..|accounts| - 1], accounts[|accounts| - 1];
      HeaderOnce(init, regions, fetch, days);
      var st0 := WideProgress(init, regions, fetch, days);
      var first := FirstSuccess(init, regions, fetch, days);
      AccountProgressHeader(st0, first, last, regions, fetch, days);
      var st := AccountProgress(st0, last, regions, fetch, days);
      HeadersSnoc(st.lines, Separator);
    }
  }

  /** No data line comes before a header line. */
  ghost predicate HeaderFirst(lines: seq<Line>) {
    forall i, j :: 0 <= i < j < |lines| && lines[j].Header? ==> !lines[i].Data?
  }

  /** Before the header is out, no data line has been written either. */
  ghost predicate OrderState(st: Progress) {
    HeaderFirst(st.lines) && (!st.headerDone ==> forall i :: 0 <= i < |st.lines| ==> !st.lines[i].Data?)
  }

  lemma PairStepOrder(st: Progress, account: string, region: string, outcome: Option<seq<Point>>)
    requires OrderState(st)
    ensures OrderState(PairStep(st, account, region, outcome))
  {
    if outcome.Some? {
      var pts := outcome.value;
      var withHeader := if st.headerDone then st.lines else st.lines + [Header(Starts(pts))];
      assert HeaderFirst(withHeader);
      var l := Data(region, account, RowValues(pts));
      assert HeaderFirst(withHeader + [l]) by {
        forall i, j | 0 <= i < j < |withHeader + [l]| && (withHeader + [l])[j].Header?
          ensures !(withHeader + [l])[i].Data?
        {
          assert j < |withHeader|;
          assert (withHeader + [l])[i] == withHeader[i] && (withHeader + [l])[j] == withHeader[j];
        }
      }
    }
  }

  lemma {:induction false} AccountProgressOrder(st: Progress, account: string, regions: seq<string>,
                                               fetch: Fetch, days: int)
    requires OrderState(st)
    ensures OrderState(AccountProgress(st, account, regions, fetch, days))
    decreases |regions|
  {
    if regions != [] {
      var init, last := regions[..|regions| - 1], regions[|regions| - 1];
      AccountProgressOrder(st, account, init, fetch, days);
      PairStepOrder(AccountProgress(st, account, init, fetch, days), account, last,
                    Outcome(fetch, days, account, last));
    }
  }

  /** In the whole output the header (if any) precedes every data row. */
  lemma {:induction false} HeaderBeforeData(accounts: seq<string>, regions: seq<string>, fetch: Fetch, days: int)
    ensures OrderState(WideProgress(accounts, regions, fetch, days))
    ensures HeaderFirst(WideLines(accounts, regions, fetch, days))
    decreases |accounts|
  {
    if accounts != [] {
      var init := accounts[..|accounts| - 1];
      HeaderBeforeData(init, regions, fetch, days);
      var st := AccountProgress(WideProgress(init, regions, fetch, days), accounts[|accounts| - 1], regions, fetch, days);
      AccountProgressOrder(WideProgress(init, regions, fetch, days), accounts[|accounts| - 1], regions, fetch, days);
      var lines := st.lines + [Separator];
      forall i, j | 0 <= i < j < |lines| && lines[j].Header? ensures !lines[i].Data? {
        assert lines[i] == st.lines[i] && lines[j] == st.lines[j];
      }
    }
  }

  // ---------------------------------------------------------------------
  // Separators: one per account

  /** The number of separator lines. */
  function Separators(lines: seq<Line>): nat {
    if lines == [] then 0
    else Separators(lines[..|lines| - 1]) + (if lines[|lines| - 1].Separator? then 1 else 0)
  }

  lemma SeparatorsSnoc(lines: seq<Line>, l: Line)
    ensures Separators(lines + [l]) == Separators(lines) + (if l.Separator? then 1 else 0)
  {
    assert (lines + [l])[..|lines|] == lines;
  }

  lemma {:induction false} AccountProgressSeparators(st: Progress, account: string, regions: seq<string>,
                                                    fetch: Fetch, days: int)
    ensures Separators(AccountProgress(st, account, regions, fetch, days).lines) == Separators(st.lines)
    decreases |regions|
  {
    if regions != [] {
      var init, last := regions[..|regions| - 1], regions[|regions| - 1];
      AccountProgressSeparators(st, account, init, fetch, days);
      var mid := AccountProgress(st, account, init, fetch, days);
      var outcome := Outcome(fetch, days, account, last);
      if outcome.Some? {
        var pts := outcome.value;
        var withHeader := if mid.headerDone then mid.lines else mid.lines + [Header(Starts(pts))];
        if !mid.headerDone {
          SeparatorsSnoc(mid.lines, Header(Starts(pts)));
        }
        SeparatorsSnoc(withHeader, Data(last, account, RowValues(pts)));
      }
    }
  }

  /**
   * Exactly one separator per account, whether or not the account produced
   * rows, and the output ends with one when there is any account.
   */
  lemma {:induction false} OneSeparatorPerAccount(accounts: seq<string>, regions: seq<string>, fetch: Fetch, days: int)
    ensures Separators(WideLines(accounts, regions, fetch, days)) == |accounts|
    ensures accounts != [] ==> WideLines(accounts, regions, fetch, days)[|WideLines(accounts, regions, fetch, days)| - 1] == Separator
    decreases |accounts|
  {
    if accounts != [] {
      var init := accounts[..|accounts| - 1];
      OneSeparatorPerAccount(init, regions, fetch, days);
      var st0 := WideProgress(init, regions, fetch, days);
      AccountProgressSeparators(st0, accounts[|accounts| - 1], regions, fetch, days);
      SeparatorsSnoc(AccountProgress(st0, accounts[|accounts| - 1], regions, fetch, days).lines, Separator);
    }
  }

  // ---------------------------------------------------------------------
  // Data rows: one per pair with a valid value

  /** The pair's fetch succeeded and at least one of its points is valid. */
  ghost predicate HasRow(fetch: Fetch, days: int, account: string, region: string, vs: seq<int>) {
    Outcome(fetch, days, account, region).Some? &&
    vs == RowValues(Outcome(fetch, days, account, region).value) && vs != []
  }

  lemma {:induction false} AccountProgressData(st: Progress, account: string, regions: seq<string>,
                                              fetch: Fetch, days: int)
    ensures forall r, a, vs :: Data(r, a, vs) in AccountProgress(st, account, regions, fetch, days).lines <==>
      Data(r, a, vs) in st.lines || (a == account && r in regions && HasRow(fetch, days, a, r, vs))
    decreases |regions|
  {
    if regions != [] {
      var init, last := regions[..|regions| - 1], regions[|regions| - 1];
      AccountProgressData(st, account, init, fetch, days);
      assert regions == init + [last];
    }
  }

  /**
   * The output has the row (region, account, values) exactly when the pair
   * is listed, its fetch succeeded and `values` are its valid values, at
   * least one of them.
   */
  lemma {:induction false} DataRows(accounts: seq<string>, regions: seq<string>, fetch: Fetch, days: int)
    ensures forall r, a, vs :: Data(r, a, vs) in WideLines(accounts, regions, fetch, days) <==>
      a in accounts && r in regions && HasRow(fetch, days, a, r, vs)
    decreases |accounts|
  {
    if accounts != [] {
      var init, last := accounts[..|accounts| - 1], accounts[|accounts| - 1];
      DataRows(init, regions, fetch, days);
      AccountProgressData(WideProgress(init, regions, fetch, days), last, regions, fetch, days);
      assert accounts == init + [last];
    }
  }

  // ---------------------------------------------------------------------
  // Layout: each account's block sits between the earlier output and its separator

  /** A pair's data row: present when the fetch succeeded with at least one valid value. */
  function PairRow(account: string, region: string, outcome: Option<seq<Point>>): seq<Line> {
    if outcome.Some? && RowValues(outcome.value) != [] then [Data(region, account, RowValues(outcome.value))] else []
  }

  /** An account's data rows, in region order. */
  function AccountRows(account: string, regions: seq<string>, fetch: Fetch, days: int): seq<Line> {
    if regions == [] then []
    else
      var region := regions[|regions| - 1];
      AccountRows(account, regions[..|regions| - 1], fetch, days) + PairRow(account, region, Outcome(fetch, days, account, region))
  }

  /** An account's rows are grouped by region, in region order: one row at most per region. */
  lemma {:induction false} AccountRowsAppend(account: string, r1: seq<string>, r2: seq<string>, fetch: Fetch, days: int)
    ensures AccountRows(account, r1 + r2, fetch, days) ==
      AccountRows(account, r1, fetch, days) + AccountRows(account, r2, fetch, days)
    ensures |AccountRows(account, r2, fetch, days)| <= |r2|
    decreases |r2|
  {
    if r2 == [] {
      AppendNil(r1);
      AppendNil(AccountRows(account, r1, fetch, days));
    } else {
      var init, last := r2[..|r2| - 1], r2[|r2| - 1];
      var tail := PairRow(account, last, Outcome(fetch, days, account, last));
      InitOfAppend(r1, r2);
      AccountRowsAppend(account, r1, init, fetch, days);
      calc {
        AccountRows(account, r1 + r2, fetch, days);
        AccountRows(account, r1 + init, fetch, days) + tail;
        (AccountRows(account, r1, fetch, days) + AccountRows(account, init, fetch, days)) + tail;
        { AppendAssoc(AccountRows(account, r1, fetch, days), AccountRows(account, init, fetch, days), tail); }
        AccountRows(account, r1, fetch, days) + (AccountRows(account, init, fetch, days) + tail);
        AccountRows(account, r1, fetch, days) + AccountRows(account, r2, fetch, days);
      }
    }
  }

  /** Before any fetch of the account succeeds, it has no rows. */
  lemma {:induction false} AccountRowsNone(account: string, regions: seq<string>, fetch: Fetch, days: int)
    requires AccountFirst(account, regions, fetch, days).None?
    ensures AccountRows(account, regions, fetch, days) == []
    decreases |regions|
  {
    if regions != [] {
      AccountRowsNone(account, regions[..|regions| - 1], fetch, days);
    }
  }

  /** The header an account's loop writes: its first success's, unless ITR is already "1". */
  function AccountHeader(headerDone: bool, account: string, regions: seq<string>, fetch: Fetch, days: int): seq<Line> {
    if headerDone then [] else HeaderOf(AccountFirst(account, regions, fetch, days))
  }

  /**
   * One account's region loop appends the header (when it is still due and
   * some fetch of the account succeeds) and then the account's rows in
   * region order; ITR is "1" afterwards exactly when it was or some fetch
   * of the account succeeded.
   */
  lemma {:induction false} AccountProgressLines(st: Progress, account: string, regions: seq<string>,
                                               fetch: Fetch, days: int)
    ensures AccountProgress(st, account, regions, fetch, days).lines ==
      st.lines + AccountHeader(st.headerDone, account, regions, fetch, days) + AccountRows(account, regions, fetch, days)
    ensures AccountProgress(st, account, regions, fetch, days).headerDone ==
      (st.headerDone || AccountFirst(account, regions, fetch, days).Some?)
    decreases |regions|
  {
    if regions == [] {
      AppendNil(st.lines);
      AppendNil(st.lines + []);
    } else {
      var init, last := regions[..|regions| - 1], regions[|regions| - 1];
      AccountProgressLines(st, account, init, fetch, days);
      var mid := AccountProgress(st, account, init, fetch, days);
      var o := Outcome(fetch, days, account, last);
      var h0, rows0 := AccountHeader(st.headerDone, account, init, fetch, days), AccountRows(account, init, fetch, days);
      var row := PairRow(account, last, o);
      assert AccountRows(account, regions, fetch, days) == rows0 + row;
      if o.None? {
        assert row == [];
        AppendNil(rows0);
        assert AccountHeader(st.headerDone, account, regions, fetch, days) == h0;
      } else if mid.headerDone {
        assert AccountHeader(st.headerDone, account, regions, fetch, days) == h0;
        assert AccountProgress(st, account, regions, fetch, days).lines == mid.lines + row;
        AppendAssoc(st.lines + h0, rows0, row);
      } else {
        var pts := o.value;
        AccountRowsNone(account, init, fetch, days);
        assert h0 == [] && rows0 == [];
        assert AccountHeader(st.headerDone, account, regions, fetch, days) == [Header(Starts(pts))];
        AppendNil(st.lines);
        AppendNil(st.lines + []);
        assert mid.lines == st.lines;
        assert AccountProgress(st, account, regions, fetch, days).lines == (st.lines + [Header(Starts(pts))]) + row;
        assert AccountRows(account, regions, fetch, days) == [] + row;
      }
    }
  }

  /**
   * Account-major layout: adding an account appends, after everything the
   * earlier accounts wrote, the header if no earlier fetch succeeded and
   * this account has a success, then this account's rows in region order,
   * then one separator.
   */
  lemma WideLinesSnoc(accounts: seq<string>, account: string, regions: seq<string>, fetch: Fetch, days: int)
    ensures WideLines(accounts + [account], regions, fetch, days) ==
      WideLines(accounts, regions, fetch, days) +
      AccountHeader(FirstSuccess(accounts, regions, fetch, days).Some?, account, regions, fetch, days) +
      AccountRows(account, regions, fetch, days) + [Separator]
  {
    SnocInit(accounts, account);
    HeaderOnce(accounts, regions, fetch, days);
    AccountProgressLines(WideProgress(accounts, regions, fetch, days), account, regions, fetch, days);
  }

  /**
   * The first success of an account is the outcome of one of its regions,
   * and every earlier region's fetch failed; when there is none, every
   * fetch of the account failed.
   */
  lemma {:induction false} AccountFirstIsFirst(account: string, regions: seq<string>, fetch: Fetch, days: int)
    ensures AccountFirst(account, regions, fetch, days).Some? ==>
      exists j :: 0 <= j < |regions| && AccountFirst(account, regions, fetch, days) == Outcome(fetch, days, account, regions[j]) &&
        forall j' :: 0 <= j' < j ==> Outcome(fetch, days, account, regions[j']).None?
    ensures AccountFirst(account, regions, fetch, days).None? ==>
      forall j :: 0 <= j < |regions| ==> Outcome(fetch, days, account, regions[j]).None?
    decreases |regions|
  {
    if regions != [] {
      var init := regions[..|regions| - 1];
      AccountFirstIsFirst(account, init, fetch, days);
      if AccountFirst(account, init, fetch, days).Some? {
        var j :| 0 <= j < |init| && AccountFirst(account, init, fetch, days) == Outcome(fetch, days, account, init[j]) &&
          forall j' :: 0 <= j' < j ==> Outcome(fetch, days, account, init[j']).None?;
        assert regions[j] == init[j];
        forall j' | 0 <= j' < j ensures Outcome(fetch, days, account, regions[j']).None? {
          assert regions[j'] == init[j'];
        }
      } else {
        forall j' | 0 <= j' < |init| ensures Outcome(fetch, days, account, regions[j']).None? {
          assert regions[j'] == init[j'];
        }
      }
    }
  }

  /** Every fetch of accounts[..n] failed. */
  ghost predicate AllFailBefore(accounts: seq<string>, regions: seq<string>, fetch: Fetch, days: int, n: int) {
    forall i, j :: 0 <= i < n && i < |accounts| && 0 <= j < |regions| ==> Outcome(fetch, days, accounts[i], regions[j]).None?
  }

  /**
   * o is the outcome of pair (accounts[i], regions[j]), and every pair
   * before it in account-major, region-minor order failed.
   */
  ghost predicate FirstAt(accounts: seq<string>, regions: seq<string>, fetch: Fetch, days: int,
                          i: int, j: int, o: Option<seq<Point>>) {
    0 <= i < |accounts| && 0 <= j < |regions| && o == Outcome(fetch, days, accounts[i], regions[j]) &&
    AllFailBefore(accounts, regions, fetch, days, i) &&
    forall j' :: 0 <= j' < j ==> Outcome(fetch, days, accounts[i], regions[j']).None?
  }

  /**
   * The header's forecast is the outcome of a listed pair, and every pair
   * before it in account-major, region-minor order failed; when there is
   * none, every fetch failed.
   */
  lemma {:induction false} FirstSuccessIsFirst(accounts: seq<string>, regions: seq<string>, fetch: Fetch, days: int)
    ensures FirstSuccess(accounts, regions, fetch, days).Some? ==>
      exists i, j :: FirstAt(accounts, regions, fetch, days, i, j, FirstSuccess(accounts, regions, fetch, days))
    ensures FirstSuccess(accounts, regions, fetch, days).None? ==> AllFailBefore(accounts, regions, fetch, days, |accounts|)
    decreases |accounts|
  {
    if accounts != [] {
      var init := accounts[..|accounts| - 1];
      FirstSuccessIsFirst(init, regions, fetch, days);
      if FirstSuccess(init, regions, fetch, days).Some? {
        var i, j :| FirstAt(init, regions, fetch, days, i, j, FirstSuccess(init, regions, fetch, days));
        FirstAtExtend(init, accounts, regions, fetch, days, i, j, FirstSuccess(init, regions, fetch, days));
      } else {
        FirstInLast(accounts, regions, fetch, days);
      }
    }
  }

  /** A first success among a prefix stays the first success of the whole listing. */
  lemma FirstAtExtend(init: seq<string>, accounts: seq<string>, regions: seq<string>, fetch: Fetch, days: int,
                      i: int, j: int, o: Option<seq<Point>>)
    requires |init| <= |accounts| && init == accounts[..|init|]
    requires FirstAt(init, regions, fetch, days, i, j, o)
    ensures FirstAt(accounts, regions, fetch, days, i, j, o)
  {
    assert accounts[i] == init[i];
    forall i', j' | 0 <= i' < i && 0 <= j' < |regions| ensures Outcome(fetch, days, accounts[i'], regions[j']).None? {
      assert accounts[i'] == init[i'];
    }
  }

  /** When every earlier account failed, the first success (if any) is in the last account. */
  lemma FirstInLast(accounts: seq<string>, regions: seq<string>, fetch: Fetch, days: int)
    requires accounts != []
    requires FirstSuccess(accounts[..|accounts| - 1], regions, fetch, days).None?
    requires AllFailBefore(accounts[..|accounts| - 1], regions, fetch, days, |accounts| - 1)
    ensures FirstSuccess(accounts, regions, fetch, days).Some? ==>
      exists i, j :: FirstAt(accounts, regions, fetch, days, i, j, FirstSuccess(accounts, regions, fetch, days))
    ensures FirstSuccess(accounts, regions, fetch, days).None? ==> AllFailBefore(accounts, regions, fetch, days, |accounts|)
  {
    var init, last, n := accounts[..|accounts| - 1], accounts[|accounts| - 1], |accounts| - 1;
    AccountFirstIsFirst(last, regions, fetch, days);
    assert AllFailBefore(accounts, regions, fetch, days, n) by {
      forall i', j' | 0 <= i' < n && 0 <= j' < |regions| ensures Outcome(fetch, days, accounts[i'], regions[j']).None? {
        assert accounts[i'] == init[i'];
      }
    }
    if AccountFirst(last, regions, fetch, days).Some? {
      var j :| 0 <= j < |regions| && AccountFirst(last, regions, fetch, days) == Outcome(fetch, days, last, regions[j]) &&
        forall j' :: 0 <= j' < j ==> Outcome(fetch, days, last, regions[j']).None?;
      assert FirstAt(accounts, regions, fetch, days, n, j, FirstSuccess(accounts, regions, fetch, days));
    }
  }

  // ---------------------------------------------------------------------
  // The methods

  lemma CellsSnoc(xs: seq<string>, x: string)
    ensures Cells(xs + [x]) == Cells(xs) + "," + x
  {
    assert (xs + [x])[..|xs|] == xs;
  }

  lemma RowValuesStep(pts: seq<Point>, i: nat)
    requires i < |pts|
    ensures Cells(Texts(RowValues(pts[..i + 1]))) ==
      if IsValid(pts[i]) then Cells(Texts(RowValues(pts[..i]))) + "," + IntToString(pts[i].meanValue)
      else Cells(Texts(RowValues(pts[..i])))
  {
    var vps := ValidPoints(pts[..i]);
    assert pts[..i + 1][..i] == pts[..i];
    if IsValid(pts[i]) {
      assert ValidPoints(pts[..i + 1]) == vps + [pts[i]];
      assert (vps + [pts[i]])[..|vps|] == vps;
      var vs := Means(vps);
      assert RowValues(pts[..i + 1]) == vs + [pts[i].meanValue];
      assert (vs + [pts[i].meanValue])[..|vs|] == vs;
      assert Texts(vs + [pts[i].meanValue]) == Texts(vs) + [IntToString(pts[i].meanValue)];
      CellsSnoc(Texts(vs), IntToString(pts[i].meanValue));
    } else {
      assert ValidPoints(pts[..i + 1]) == vps;
    }
  }

  /** Lines 141-151: ",MV" for each valid point; the stand-in for an invalid one is dropped. */
  method MeanValueCells(pts: seq<Point>) returns (meanValues: string)
    ensures meanValues == Cells(Texts(RowValues(pts)))
    ensures meanValues == "" <==> RowValues(pts) == []
  {
    meanValues := "";
    var i := 0;
    while i < |pts|
      invariant 0 <= i <= |pts|
      invariant meanValues == Cells(Texts(RowValues(pts[..i])))
    {
      RowValuesStep(pts, i);
      var mv := pts[i].meanValue;
      if mv > 1 {
        meanValues := meanValues + "," + IntToString(mv);
      }
      // otherwise the source draws random.randint(500, 5000) and discards it
      i := i + 1;
    }
    assert pts[..i] == pts;
  }

  lemma StartsStep(pts: seq<Point>, i: nat)
    requires i < |pts|
    ensures ["", ""] + Starts(pts[..i + 1]) == (["", ""] + Starts(pts[..i])) + [pts[i].start]
  {
    assert pts[..i + 1][..i] == pts[..i];
  }

  /** `get_time_periods`: the header line for a forecast. */
  method TimePeriods(pts: seq<Point>) returns (output: string)
    ensures output == Render(Header(Starts(pts)))
  {
    output := ",";
    assert Join(["", ""]) == "," by {
      assert ["", ""][..1] == [""];
    }
    var i := 0;
    while i < |pts|
      invariant 0 <= i <= |pts|
      invariant output == Join(["", ""] + Starts(pts[..i]))
    {
      StartsStep(pts, i);
      JoinSnoc(["", ""] + Starts(pts[..i]), pts[i].start);
      output := output + ",";
      output := output + pts[i].start;
      i := i + 1;
    }
    output := output + "\n";
    assert pts[..i] == pts;
  }

  /** The text of a data row is "region,a-account" followed by the value cells. */
  lemma DataText(region: string, account: string, vs: seq<int>)
    ensures Render(Data(region, account, vs)) == region + "," + "a-" + account + Cells(Texts(vs)) + "\n"
  {
    var c := Cells(Texts(vs));
    JoinCells([region, "a-" + account], Texts(vs));
    assert [region, "a-" + account][..1] == [region];
    assert Join([region, "a-" + account]) == (region + ",") + ("a-" + account);
    AppendAssoc(region + ",", "a-", account);
    calc {
      Render(Data(region, account, vs));
      Join([region, "a-" + account] + Texts(vs)) + "\n";
      (Join([region, "a-" + account]) + c) + "\n";
      region + "," + "a-" + account + c + "\n";
    }
  }

  lemma SeparatorText()
    ensures Render(Separator) == ",,,,\n"
  {
    var e := ["", "", "", "", ""];
    assert [""][..0] == [] && ["", ""][..1] == [""];
    assert Join(["", ""]) == ",";
    assert ["", "", ""][..2] == ["", ""];
    assert Join(["", "", ""]) == ",,";
    assert ["", "", "", ""][..3] == ["", "", ""];
    assert Join(["", "", "", ""]) == ",,,";
    assert e[..4] == ["", "", "", ""];
    assert Join(e) == ",,,,";
  }

  function Flag(headerDone: bool): string {
    if headerDone then "1" else "0"
  }

  /** Lines 128-157 for one pair, given the text and ITR flag so far. */
  method PairPass(account: string, region: string, fetch: Fetch, days: int,
                  text0: string, itr0: string, ghost st: Progress)
    returns (text: string, itr: string)
    requires text0 == RenderAll(st.lines) && itr0 == Flag(st.headerDone)
    ensures var st' := PairStep(st, account, region, Outcome(fetch, days, account, region));
      text == RenderAll(st'.lines) && itr == Flag(st'.headerDone)
  {
    text, itr := text0, itr0;
    var filter := FormatFilter(account, region);
    var outcome := fetch(filter, days);
    if outcome.Some? {
      var pts := outcome.value;
      ghost var withHeader := if st.headerDone then st.lines else st.lines + [Header(Starts(pts))];
      if itr == "0" {
        var periods := TimePeriods(pts);
        RenderAllSnoc(st.lines, Header(Starts(pts)));
        text := text + periods;
        itr := "1";
      }
      var meanValues := MeanValueCells(pts);
      if meanValues != "" {
        var regnAcct := region + "," + "a-" + account;
        DataText(region, account, RowValues(pts));
        RenderAllSnoc(withHeader, Data(region, account, RowValues(pts)));
        text := text + (regnAcct + meanValues + "\n");
      }
    }
  }

  /** The region loop for one account, lines 127-157. */
  method AccountPass(account: string, regions: seq<string>, fetch: Fetch, days: int,
                     text0: string, itr0: string, ghost st: Progress)
    returns (text: string, itr: string)
    requires text0 == RenderAll(st.lines) && itr0 == Flag(st.headerDone)
    ensures var st' := AccountProgress(st, account, regions, fetch, days);
      text == RenderAll(st'.lines) && itr == Flag(st'.headerDone)
  {
    text, itr := text0, itr0;
    var j := 0;
    while j < |regions|
      invariant 0 <= j <= |regions|
      invariant text == RenderAll(AccountProgress(st, account, regions[..j], fetch, days).lines)
      invariant itr == Flag(AccountProgress(st, account, regions[..j], fetch, days).headerDone)
    {
      assert regions[..j + 1][..j] == regions[..j];
      text, itr := PairPass(account, regions[j], fetch, days, text, itr,
                            AccountProgress(st, account, regions[..j], fetch, days));
      j := j + 1;
    }
    assert regions[..j] == regions;
  }

  lemma WideStep(accounts: seq<string>, i: nat, regions: seq<string>, fetch: Fetch, days: int)
    requires i < |accounts|
    ensures var st := AccountProgress(WideProgress(accounts[..i], regions, fetch, days), accounts[i], regions, fetch, days);
      WideProgress(accounts[..i + 1], regions, fetch, days) == Progress(st.lines + [Separator], st.headerDone)
  {
    assert accounts[..i + 1][..i] == accounts[..i];
  }

  /**
   * `get_output_as_excel`: the listings and the forecast query are
   * parameters; the text is the rendering of `WideLines` over the active
   * account ids and the region names.
   */
  method ExcelOutput(days: int, regionList: seq<RegionRecord>, accountList: seq<AccountRecord>, fetch: Fetch)
    returns (text: string)
    ensures text == WideText(ActiveIds(accountList), RegionNames(regionList), fetch, days)
  {
    text := "";
    var itr := "0";
    var regions := ActiveRegions(regionList);
    var accounts := ActiveAccounts(accountList);
    assert regions == RegionNames(regionList);
    var i := 0;
    while i < |accounts|
      invariant 0 <= i <= |accounts|
      invariant text == RenderAll(WideLines(accounts[..i], regions, fetch, days))
      invariant itr == Flag(WideProgress(accounts[..i], regions, fetch, days).headerDone)
    {
      ghost var st := AccountProgress(WideProgress(accounts[..i], regions, fetch, days), accounts[i], regions, fetch, days);
      text, itr := AccountPass(accounts[i], regions, fetch, days, text, itr, WideProgress(accounts[..i], regions, fetch, days));
      SeparatorText();
      RenderAllSnoc(st.lines, Separator);
      WideStep(accounts, i, regions, fetch, days);
      text := text + ",,,,\n";
      i := i + 1;
    }
    assert accounts[..i] == accounts;
  }
  // ---------------------------------------------------------------------
  // The one-account, one-region scenarios

  lemma OnePairProgress(account: string, region: string, fetch: Fetch, days: int)
    ensures var st := PairStep(Progress([], false), account, region, Outcome(fetch, days, account, region));
      WideLines([account], [region], fetch, days) == st.lines + [Separator]
  {
    var empty := Progress([], false);
    assert [account][..0] == [] && [region][..0] == [];
    assert WideProgress([], [region], fetch, days) == empty;
    assert AccountProgress(empty, account, [], fetch, days) == empty;
    assert AccountProgress(empty, account, [region], fetch, days) ==
      PairStep(empty, account, region, Outcome(fetch, days, account, region));
    assert WideProgress([account], [region], fetch, days).lines ==
      AccountProgress(empty, account, [region], fetch, days).lines + [Separator];
  }

  /**
   * One ACTIVE account, one region, one point whose mean value rounds to
   * 2500: the header, the row "us-east-1,a-111111111111,2500", the separator.
   */
  lemma SingleValidPointWide(fetch: Fetch, days: int)
    requires Outcome(fetch, days, "111111111111", "us-east-1") == Some([Point("2024-07-01", 2500)])
    ensures WideLines(ActiveIds([AccountRecord("111111111111", "ACTIVE")]),
                      RegionNames([RegionRecord("us-east-1")]), fetch, days)
            == [Header(["2024-07-01"]), Data("us-east-1", "111111111111", [2500]), Separator]
  {
    assert ActiveIds([AccountRecord("111111111111", "ACTIVE")]) == ["111111111111"] by {
      assert [AccountRecord("111111111111", "ACTIVE")][..0] == [];
    }
    assert RegionNames([RegionRecord("us-east-1")]) == ["us-east-1"];
    OnePairProgress("111111111111", "us-east-1", fetch, days);
    var p := Point("2024-07-01", 2500);
    assert [p][..0] == [];
    assert Starts([p]) == ["2024-07-01"];
    assert ValidPoints([p]) == [p];
    assert RowValues([p]) == [2500];
  }

  /**
   * The same pair with a mean value that rounds to 0: the header is still
   * written (the fetch succeeded) but the pair has no row.
   */
  lemma SingleInvalidPointWide(fetch: Fetch, days: int)
    requires Outcome(fetch, days, "111111111111", "us-east-1") == Some([Point("2024-07-01", 0)])
    ensures WideLines(ActiveIds([AccountRecord("111111111111", "ACTIVE")]),
                      RegionNames([RegionRecord("us-east-1")]), fetch, days)
            == [Header(["2024-07-01"]), Separator]
  {
    assert ActiveIds([AccountRecord("111111111111", "ACTIVE")]) == ["111111111111"] by {
      assert [AccountRecord("111111111111", "ACTIVE")][..0] == [];
    }
    assert RegionNames([RegionRecord("us-east-1")]) == ["us-east-1"];
    OnePairProgress("111111111111", "us-east-1", fetch, days);
    var p := Point("2024-07-01", 0);
    assert [p][..0] == [];
    assert Starts([p]) == ["2024-07-01"];
    assert ValidPoints([p]) == [];
  }

  /** The text of that run: the header line and the separator line only. */
  lemma SingleInvalidPointWideText(fetch: Fetch, days: int)
    requires Outcome(fetch, days, "111111111111", "us-east-1") == Some([Point("2024-07-01", 0)])
    ensures WideText(ActiveIds([AccountRecord("111111111111", "ACTIVE")]),
                     RegionNames([RegionRecord("us-east-1")]), fetch, days)
            == ",,2024-07-01\n,,,,\n"
  {
    SingleInvalidPointWide(fetch, days);
    HeaderThenSeparatorText();
  }

  lemma HeaderThenSeparatorText()
    ensures RenderAll([Header(["2024-07-01"]), Separator]) == ",,2024-07-01\n,,,,\n"
  {
    var lines := [Header(["2024-07-01"]), Separator];
    assert lines[..1] == [Header(["2024-07-01"])] && lines[..1][..0] == [];
    HeaderText();
    SeparatorText();
    assert RenderAll(lines[..1]) == ",,2024-07-01\n";
  }

  lemma HeaderText()
    ensures Render(Header(["2024-07-01"])) == ",,2024-07-01\n"
  {
    var fs := ["", "", "2024-07-01"];
    assert fs[..2] == ["", ""] && ["", ""][..1] == [""];
  }
}
