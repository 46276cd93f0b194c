/**
 * `get_output_as_quicksight`: the long CSV layout, one line
 * "account,periodStart,region,value" per forecast point whose rounded mean
 * value is above 1, accounts outer and regions inner, no header line.
 *
 * The specification functions build the rows as `Record`s, each defined on
 * a prefix plus its last element, which is how the loops grow the text;
 * `Render` turns rows into the text the method returns.
 */
module LongFormat {
  import opened CsvText
  import opened Filters
  import opened Forecasts
  import opened SeqFacts

  /** One row of the long layout. */
  datatype Record = Record(account: string, periodStart: string, region: string, value: int)

  function Fields(r: Record): seq<string> {
    [r.account, r.periodStart, r.region, IntToString(r.value)]
  }

  /** The line the source appends for one row, piece by piece. */
  function Line(r: Record): string {
    r.account + "," + r.periodStart + "," + r.region + "," + IntToString(r.value) + "\n"
  }

  /**
   * The hand-built line is the CSV record of the row's four fields, and a
   * reader splitting at commas gets those fields back when account, start
   * and region hold no comma.
   */
  lemma LineIsCsvRecord(r: Record)
    ensures Line(r) == CsvRecord(Fields(r))
    ensures CommaFree(Fields(r)) ==> Split(Join(Fields(r))) == Fields(r)
  {
    var fs := Fields(r);
    var a, b, c, d := fs[0], fs[1], fs[2], fs[3];
    assert fs[..3] == [a, b, c] && [a, b, c][..2] == [a, b] && [a, b][..1] == [a];
    assert Join([a, b]) == a + "," + b;
    assert Join([a, b, c]) == a + "," + b + "," + c;
    assert Join(fs) == a + "," + b + "," + c + "," + d;
    if CommaFree(fs) {
      SplitJoin(fs);
    }
  }

  function Render(rows: seq<Record>): string {
    if rows == [] then "" else Render(rows[..|rows| - 1]) + Line(rows[|rows| - 1])
  }

  lemma {:induction false} RenderAppend(xs: seq<Record>, ys: seq<Record>)
    ensures Render(xs + ys) == Render(xs) + Render(ys)
    decreases |ys|
  {
    if ys == [] {
      assert xs + ys == xs;
    } else {
      var init, y := ys[..|ys| - 1], ys[|ys| - 1];
      RenderAppend(xs, init);
      calc {
        Render(xs + ys);
        { SnocSplit(ys); AppendSnoc(xs, init, y); }
        Render((xs + init) + [y]);
        { RenderSnoc(xs + init, y); }
        Render(xs + init) + Line(y);
        Render(xs) + Render(init) + Line(y);
        { AppendAssoc(Render(xs), Render(init), Line(y)); }
        Render(xs) + (Render(init) + Line(y));
        { RenderSnoc(init, y); SnocSplit(ys); }
        Render(xs) + Render(ys);
      }
    }
  }

  /** The rows of one pair's forecast: one per valid point, in point order. */
  function PairRecords(account: string, region: string, pts: seq<Point>): seq<Record> {
    if pts == [] then []
    else
      var p := pts[|pts| - 1];
      PairRecords(account, region, pts[..|pts| - 1]) +
        (if IsValid(p) then [Record(account, p.start, region, p.meanValue)] else [])
  }

  /** The rows of one account: its regions in order; a failed fetch gives none. */
  function AccountRecords(account: string, regions: seq<string>, fetch: Fetch, days: int): seq<Record> {
    if regions == [] then []
    else
      var region := regions[|regions| - 1];
      AccountRecords(account, regions[..|regions| - 1], fetch, days) +
        PairRecords(account, region, PointsOf(Outcome(fetch, days, account, region)))
  }

  /** All rows: the accounts in order, each with all of its regions. */
  function LongRecords(accounts: seq<string>, regions: seq<string>, fetch: Fetch, days: int): seq<Record> {
    if accounts == [] then []
    else
      LongRecords(accounts[..|accounts| - 1], regions, fetch, days) +
        AccountRecords(accounts[|accounts| - 1], regions, fetch, days)
  }

  function LongText(accounts: seq<string>, regions: seq<string>, fetch: Fetch, days: int): string {
    Render(LongRecords(accounts, regions, fetch, days))
  }

  /**
   * A pair's rows are its valid points, in order, each tagged with the
   * account and region: an invalid point adds nothing.
   */
  lemma {:induction false} PairRecordsAreValidPoints(account: string, region: string, pts: seq<Point>)
    ensures var rows, vps := PairRecords(account, region, pts), ValidPoints(pts);
      |rows| == |vps| &&
      forall k :: 0 <= k < |rows| ==> rows[k] == Record(account, vps[k].start, region, vps[k].meanValue)
    decreases |pts|
  {
    if pts != [] {
      PairRecordsAreValidPoints(account, region, pts[..|pts| - 1]);
    }
  }

  /** A point yields the row (account, start, region, MV) if and only if MV > 1. */
  lemma {:induction false} PairRecordsMembers(account: string, region: string, pts: seq<Point>)
    ensures forall rec :: rec in PairRecords(account, region, pts) <==>
      exists p :: p in pts && IsValid(p) && rec == Record(account, p.start, region, p.meanValue)
    decreases |pts|
  {
    if pts != [] {
      var init, last := pts[..|pts| - 1], pts[|pts| - 1];
      PairRecordsMembers(account, region, init);
      assert pts == init + [last];
      forall rec | rec in PairRecords(account, region, pts)
        ensures exists p :: p in pts && IsValid(p) && rec == Record(account, p.start, region, p.meanValue)
      {
        if rec in PairRecords(account, region, init) {
          var p :| p in init && IsValid(p) && rec == Record(account, p.start, region, p.meanValue);
          assert p in pts;
        } else {
          assert last in pts;
        }
      }
    }
  }

  /** Rows are grouped by region in region order within one account. */
  lemma {:induction false} AccountRecordsAppend(account: string, r1: seq<string>, r2: seq<string>, fetch: Fetch, days: int)
    ensures AccountRecords(account, r1 + r2, fetch, days) ==
      AccountRecords(account, r1, fetch, days) + AccountRecords(account, r2, fetch, days)
    decreases |r2|
  {
    if r2 == [] {
      AppendNil(r1);
      AppendNil(AccountRecords(account, r1, fetch, days));
    } else {
      var init, last := r2[..|r2| - 1], r2[|r2| - 1];
      var tail := PairRecords(account, last, PointsOf(Outcome(fetch, days, account, last)));
      InitOfAppend(r1, r2);
      AccountRecordsAppend(account, r1, init, fetch, days);
      calc {
        AccountRecords(account, r1 + r2, fetch, days);
        AccountRecords(account, r1 + init, fetch, days) + tail;
        (AccountRecords(account, r1, fetch, days) + AccountRecords(account, init, fetch, days)) + tail;
        { AppendAssoc(AccountRecords(account, r1, fetch, days), AccountRecords(account, init, fetch, days), tail); }
        AccountRecords(account, r1, fetch, days) + (AccountRecords(account, init, fetch, days) + tail);
        AccountRecords(account, r1, fetch, days) + AccountRecords(account, r2, fetch, days);
      }
    }
  }

  /** Rows are grouped by account in account order (account-major output). */
  lemma {:induction false} LongRecordsAppend(a1: seq<string>, a2: seq<string>, regions: seq<string>, fetch: Fetch, days: int)
    ensures LongRecords(a1 + a2, regions, fetch, days) ==
      LongRecords(a1, regions, fetch, days) + LongRecords(a2, regions, fetch, days)
    decreases |a2|
  {
    if a2 == [] {
      AppendNil(a1);
      AppendNil(LongRecords(a1, regions, fetch, days));
    } else {
      var init, last := a2[..|a2| - 1], a2[|a2| - 1];
      var tail := AccountRecords(last, regions, fetch, days);
      InitOfAppend(a1, a2);
      LongRecordsAppend(a1, init, regions, fetch, days);
      calc {
        LongRecords(a1 + a2, regions, fetch, days);
        LongRecords(a1 + init, regions, fetch, days) + tail;
        (LongRecords(a1, regions, fetch, days) + LongRecords(init, regions, fetch, days)) + tail;
        { AppendAssoc(LongRecords(a1, regions, fetch, days), LongRecords(init, regions, fetch, days), tail); }
        LongRecords(a1, regions, fetch, days) + (LongRecords(init, regions, fetch, days) + tail);
        LongRecords(a1, regions, fetch, days) + LongRecords(a2, regions, fetch, days);
      }
    }
  }

  /** The row (a, start, r, v) comes from a successful fetch of a listed pair with a valid point. */
  ghost predicate Produced(rec: Record, accounts: seq<string>, regions: seq<string>, fetch: Fetch, days: int) {
    rec.account in accounts && rec.region in regions &&
    exists p :: p in PointsOf(Outcome(fetch, days, rec.account, rec.region)) && IsValid(p) &&
      p.start == rec.periodStart && p.meanValue == rec.value
  }

  lemma {:induction false} AccountRecordsMembers(account: string, regions: seq<string>, fetch: Fetch, days: int)
    ensures forall rec :: rec in AccountRecords(account, regions, fetch, days) <==>
      rec.account == account && Produced(rec, [account], regions, fetch, days)
    decreases |regions|
  {
    if regions != [] {
      var init, last := regions[..|regions| - 1], regions[|regions| - 1];
      AccountRecordsMembers(account, init, fetch, days);
      PairRecordsMembers(account, last, PointsOf(Outcome(fetch, days, account, last)));
      assert regions == init + [last];
      forall rec ensures rec in AccountRecords(account, regions, fetch, days) <==>
        rec.account == account && Produced(rec, [account], regions, fetch, days)
      {
        if rec.region in init {
          assert rec.region in regions;
        }
      }
    }
  }

  /**
   * The long output holds exactly the rows of valid points of pairs whose
   * fetch succeeded: no header, nothing from a failed pair, nothing invented.
   */
  lemma {:induction false} LongRecordsMembers(accounts: seq<string>, regions: seq<string>, fetch: Fetch, days: int)
    ensures forall rec :: rec in LongRecords(accounts, regions, fetch, days) <==>
      Produced(rec, accounts, regions, fetch, days)
    decreases |accounts|
  {
    if accounts != [] {
      var init, last := accounts[..|accounts| - 1], accounts[|accounts| - 1];
      LongRecordsMembers(init, regions, fetch, days);
      AccountRecordsMembers(last, regions, fetch, days);
      assert accounts == init + [last];
      forall rec ensures rec in LongRecords(accounts, regions, fetch, days) <==>
        Produced(rec, accounts, regions, fetch, days)
      {
        if rec.account in init {
          assert rec.account in accounts;
        }
      }
    }
  }

  /** Every fetched pair returned exactly k points, all of them valid. */
  ghost predicate FullPair(o: Option<seq<Point>>, k: nat) {
    o.Some? && |o.value| == k && forall q :: 0 <= q < k ==> IsValid(o.value[q])
  }

  /** Two parts each at most their bound, summing to the sum of the bounds, meet both bounds. */
  lemma SumAtMost(b: int, h: int, m: int, k: int)
    requires b <= m && h <= k && b + h == m + k
    ensures b == m && h == k
  {
  }

  lemma MulStep(n: int, m: int)
    ensures (n - 1) * m + m == n * m
  {
  }

  /** A pair with at most k points yields k rows (k >= 1) only when it succeeded with k valid points. */
  lemma PairFull(account: string, region: string, o: Option<seq<Point>>, k: nat)
    requires |PointsOf(o)| <= k && k >= 1
    requires |PairRecords(account, region, PointsOf(o))| == k
    ensures FullPair(o, k)
  {
    var pts := PointsOf(o);
    PairRecordsAreValidPoints(account, region, pts);
    ValidPointsMembers(pts);
  }

  lemma AllRegionsFull(account: string, regions: seq<string>, fetch: Fetch, days: int, k: nat)
    requires regions != []
    requires forall r :: r in regions[..|regions| - 1] ==> FullPair(Outcome(fetch, days, account, r), k)
    requires FullPair(Outcome(fetch, days, account, regions[|regions| - 1]), k)
    ensures forall r :: r in regions ==> FullPair(Outcome(fetch, days, account, r), k)
  {
    SnocSplit(regions);
    forall r | r in regions ensures FullPair(Outcome(fetch, days, account, r), k) {
      if r != regions[|regions| - 1] {
        assert r in regions[..|regions| - 1];
      }
    }
  }

  lemma {:induction false} AccountRecordsBound(account: string, regions: seq<string>, fetch: Fetch, days: int, k: nat)
    requires forall r :: r in regions ==> |PointsOf(Outcome(fetch, days, account, r))| <= k
    ensures |AccountRecords(account, regions, fetch, days)| <= |regions| * k
    ensures (forall r :: r in regions ==> FullPair(Outcome(fetch, days, account, r), k)) ==>
      |AccountRecords(account, regions, fetch, days)| == |regions| * k
    ensures k >= 1 && |AccountRecords(account, regions, fetch, days)| == |regions| * k ==>
      forall r :: r in regions ==> FullPair(Outcome(fetch, days, account, r), k)
    decreases |regions|
  {
    if regions != [] {
      var init, last := regions[..|regions| - 1], regions[|regions| - 1];
      assert forall r :: r in init ==> r in regions;
      AccountRecordsBound(account, init, fetch, days, k);
      var o := Outcome(fetch, days, account, last);
      var pts := PointsOf(o);
      PairRecordsAreValidPoints(account, last, pts);
      ValidPointsMembers(pts);
      var before, here := |AccountRecords(account, init, fetch, days)|, |PairRecords(account, last, pts)|;
      assert |AccountRecords(account, regions, fetch, days)| == before + here;
      assert here <= k;
      MulStep(|regions|, k);
      if forall r :: r in regions ==> FullPair(Outcome(fetch, days, account, r), k) {
        assert FullPair(o, k);
        assert here == k;
      }
      if k >= 1 && before + here == |regions| * k {
        SumAtMost(before, here, |init| * k, k);
        PairFull(account, last, o, k);
        AllRegionsFull(account, regions, fetch, days, k);
      }
    }
  }

  lemma MulStep3(n: int, r: int, k: int)
    ensures (n - 1) * r * k + r * k == n * r * k
  {
    calc {
      (n - 1) * r * k + r * k;
      ((n - 1) * r + r) * k;
      { MulStep(n, r); }
      n * r * k;
    }
  }

  /**
   * With at most k points per pair the output has at most
   * accounts x regions x k rows, and (for k >= 1) exactly that many if and
   * only if every pair succeeds with k valid points.
   */
  lemma {:induction false} LongRecordsBound(accounts: seq<string>, regions: seq<string>, fetch: Fetch, days: int, k: nat)
    requires forall a, r :: a in accounts && r in regions ==> |PointsOf(Outcome(fetch, days, a, r))| <= k
    ensures |LongRecords(accounts, regions, fetch, days)| <= |accounts| * |regions| * k
    ensures (forall a, r :: a in accounts && r in regions ==> FullPair(Outcome(fetch, days, a, r), k)) ==>
      |LongRecords(accounts, regions, fetch, days)| == |accounts| * |regions| * k
    ensures k >= 1 && |LongRecords(accounts, regions, fetch, days)| == |accounts| * |regions| * k ==>
      forall a, r :: a in accounts && r in regions ==> FullPair(Outcome(fetch, days, a, r), k)
    decreases |accounts|
  {
    if accounts != [] {
      var init, last := accounts[..|accounts| - 1], accounts[|accounts| - 1];
      assert forall a :: a in init ==> a in accounts;
      LongRecordsBound(init, regions, fetch, days, k);
      AccountRecordsBound(last, regions, fetch, days, k);
      var n, before, here := |accounts|, |LongRecords(init, regions, fetch, days)|,
        |AccountRecords(last, regions, fetch, days)|;
      assert |LongRecords(accounts, regions, fetch, days)| == before + here;
      MulStep3(n, |regions|, k);
      if k >= 1 && before + here == n * |regions| * k {
        SumAtMost(before, here, (n - 1) * |regions| * k, |regions| * k);
        SnocSplit(accounts);
        forall a, r | a in accounts && r in regions ensures FullPair(Outcome(fetch, days, a, r), k) {
          if a != last {
            assert a in init;
          }
        }
      }
    }
  }

  lemma RenderSnoc(rows: seq<Record>, r: Record)
    ensures Render(rows + [r]) == Render(rows) + Line(r)
  {
    assert (rows + [r])[..|rows|] == rows;
  }

  /** Lines 86-94 for one pair: append a line for each point with MV > 1. */
  method PairLines(account: string, region: string, pts: seq<Point>) returns (lines: string)
    ensures lines == Render(PairRecords(account, region, pts))
  {
    lines := "";
    var i := 0;
    while i < |pts|
      invariant 0 <= i <= |pts|
      invariant lines == Render(PairRecords(account, region, pts[..i]))
    {
      PairLineStep(account, region, pts, i);
      var mv := pts[i].meanValue;
      if mv > 1 {
        // the four pieces the source appends one after the other
        var line := account + "," + pts[i].start + "," + region + "," + IntToString(mv) + "\n";
        lines := lines + line;
      }
      i := i + 1;
    }
    TakeAll(pts);
  }

  /** One turn of the point loop: a valid point adds its line, an invalid one nothing. */
  lemma PairLineStep(account: string, region: string, pts: seq<Point>, i: nat)
    requires i < |pts|
    ensures Render(PairRecords(account, region, pts[..i + 1])) ==
      Render(PairRecords(account, region, pts[..i])) +
      (if IsValid(pts[i]) then Line(Record(account, pts[i].start, region, pts[i].meanValue)) else "")
  {
    PrefixStep(pts, i);
    var before := PairRecords(account, region, pts[..i]);
    if IsValid(pts[i]) {
      var rec := Record(account, pts[i].start, region, pts[i].meanValue);
      assert PairRecords(account, region, pts[..i + 1]) == before + [rec];
      RenderSnoc(before, rec);
    } else {
      AppendNil(before);
      assert PairRecords(account, region, pts[..i + 1]) == before;
      AppendNil(Render(before));
    }
  }

  /** Lines 78-96 for one account: the region loop, skipping pairs whose fetch fails. */
  method AccountLines(account: string, regions: seq<string>, fetch: Fetch, days: int) returns (text: string)
    ensures text == Render(AccountRecords(account, regions, fetch, days))
  {
    text := "";
    var j := 0;
    while j < |regions|
      invariant 0 <= j <= |regions|
      invariant text == Render(AccountRecords(account, regions[..j], fetch, days))
    {
      var region := regions[j];
      var filter := FormatFilter(account, region);
      var outcome := fetch(filter, days);
      AccountLineStep(account, regions, j, fetch, days);
      if outcome.Some? {
        var lines := PairLines(account, region, outcome.value);
        text := text + lines;
      }
      j := j + 1;
    }
    TakeAll(regions);
  }

  /**
   * `get_output_as_quicksight`: the listings and the forecast query are
   * parameters; the text is the rendering of `LongRecords` over the active
   * account ids and the region names.
   */
  method QuicksightOutput(days: int, regionList: seq<RegionRecord>, accountList: seq<AccountRecord>, fetch: Fetch)
    returns (text: string)
    ensures text == LongText(ActiveIds(accountList), RegionNames(regionList), fetch, days)
  {
    text := "";
    var regions := ActiveRegions(regionList);
    var accounts := ActiveAccounts(accountList);
    assert regions == RegionNames(regionList);
    var i := 0;
    while i < |accounts|
      invariant 0 <= i <= |accounts|
      invariant text == Render(LongRecords(accounts[..i], regions, fetch, days))
    {
      var lines := AccountLines(accounts[i], regions, fetch, days);
      LongLineStep(accounts, i, regions, fetch, days);
      text := text + lines;
      i := i + 1;
    }
    TakeAll(accounts);
  }

  /** One turn of the region loop: the pair's lines follow the account's earlier regions. */
  lemma AccountLineStep(account: string, regions: seq<string>, j: nat, fetch: Fetch, days: int)
    requires j < |regions|
    ensures Render(AccountRecords(account, regions[..j + 1], fetch, days)) ==
      Render(AccountRecords(account, regions[..j], fetch, days)) +
      Render(PairRecords(account, regions[j], PointsOf(Outcome(fetch, days, account, regions[j]))))
  {
    PrefixStep(regions, j);
    var added := PairRecords(account, regions[j], PointsOf(Outcome(fetch, days, account, regions[j])));
    assert AccountRecords(account, regions[..j + 1], fetch, days) ==
      AccountRecords(account, regions[..j], fetch, days) + added;
    RenderAppend(AccountRecords(account, regions[..j], fetch, days), added);
  }

  /** One turn of the account loop: the account's lines follow the earlier accounts'. */
  lemma LongLineStep(accounts: seq<string>, i: nat, regions: seq<string>, fetch: Fetch, days: int)
    requires i < |accounts|
    ensures Render(LongRecords(accounts[..i + 1], regions, fetch, days)) ==
      Render(LongRecords(accounts[..i], regions, fetch, days)) + Render(AccountRecords(accounts[i], regions, fetch, days))
  {
    PrefixStep(accounts, i);
    assert LongRecords(accounts[..i + 1], regions, fetch, days) ==
      LongRecords(accounts[..i], regions, fetch, days) + AccountRecords(accounts[i], regions, fetch, days);
    RenderAppend(LongRecords(accounts[..i], regions, fetch, days), AccountRecords(accounts[i], regions, fetch, days));
  }

  /** Python's str(2500). */
  lemma Str2500()
    ensures IntToString(2500) == "2500"
  {
    assert NatToString(2500) == NatToString(250) + [DigitChar(0)];
    assert NatToString(250) == NatToString(25) + [DigitChar(0)];
    assert NatToString(25) == NatToString(2) + [DigitChar(5)];
  }

  lemma OnePairRecords(account: string, region: string, fetch: Fetch, days: int)
    ensures LongRecords([account], [region], fetch, days) ==
      PairRecords(account, region, PointsOf(Outcome(fetch, days, account, region)))
  {
    assert [account][..0] == [] && [region][..0] == [];
    assert AccountRecords(account, [region], fetch, days) ==
      AccountRecords(account, [], fetch, days) +
      PairRecords(account, region, PointsOf(Outcome(fetch, days, account, region)));
    assert LongRecords([account], [region], fetch, days) ==
      LongRecords([], [region], fetch, days) + AccountRecords(account, [region], fetch, days);
  }

  lemma OneActiveAccount(id: string)
    ensures ActiveIds([AccountRecord(id, "ACTIVE")]) == [id]
  {
    assert [AccountRecord(id, "ACTIVE")][..0] == [];
  }

  /**
   * One ACTIVE account "111111111111", one region "us-east-1", one point
   * starting 2024-07-01 whose mean value rounds to 2500: the output is that
   * single line.
   */
  lemma SingleValidPoint(fetch: Fetch, days: int)
    requires Outcome(fetch, days, "111111111111", "us-east-1") == Some([Point("2024-07-01", 2500)])
    ensures LongText(ActiveIds([AccountRecord("111111111111", "ACTIVE")]),
                     RegionNames([RegionRecord("us-east-1")]), fetch, days)
            == "111111111111,2024-07-01,us-east-1,2500\n"
  {
    OneActiveAccount("111111111111");
    assert RegionNames([RegionRecord("us-east-1")]) == ["us-east-1"];
    OnePairRecords("111111111111", "us-east-1", fetch, days);
    var p := Point("2024-07-01", 2500);
    var rec := Record("111111111111", "2024-07-01", "us-east-1", 2500);
    assert [p][..0] == [];
    assert PairRecords("111111111111", "us-east-1", [p]) == [rec];
    RenderSnoc([], rec);
    ScenarioLine();
  }

  lemma ScenarioLine()
    ensures Line(Record("111111111111", "2024-07-01", "us-east-1", 2500)) ==
      "111111111111,2024-07-01,us-east-1,2500\n"
  {
    Str2500();
  }

  /** The same pair with a mean value that rounds to 0: the output is empty. */
  lemma SingleInvalidPoint(fetch: Fetch, days: int)
    requires Outcome(fetch, days, "111111111111", "us-east-1") == Some([Point("2024-07-01", 0)])
    ensures LongText(ActiveIds([AccountRecord("111111111111", "ACTIVE")]),
                     RegionNames([RegionRecord("us-east-1")]), fetch, days) == ""
  {
    OneActiveAccount("111111111111");
    assert RegionNames([RegionRecord("us-east-1")]) == ["us-east-1"];
    OnePairRecords("111111111111", "us-east-1", fetch, days);
    var p := Point("2024-07-01", 0);
    assert [p][..0] == [];
    assert PairRecords("111111111111", "us-east-1", [p]) == [];
  }
}
