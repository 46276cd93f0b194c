/**
 * The data the job reads from the cloud APIs, taken here as parameters:
 * the organization's account list, the opted-in region list, and the
 * forecast query, which for a filter and a horizon either fails or yields
 * the monthly points in time order. Also the two enumerators that reduce
 * the listings to account ids and region names.
 */
module Forecasts {
  import opened Filters

  datatype Option<+T> = None | Some(value: T)

  /**
   * One month of a forecast: the period's start date as the API gives it and
   * the mean value already rounded to an integer (`int(round(float(MeanValue)))`).
   */
  datatype Point = Point(start: string, meanValue: int)

  /** Zero, null and tiny forecasts are treated as absent. */
  predicate IsValid(p: Point) {
    p.meanValue > 1
  }

  /** One entry of the organization's account listing. */
  datatype AccountRecord = AccountRecord(id: string, status: string)

  /** One entry of the region listing. */
  datatype RegionRecord = RegionRecord(regionName: string)

  /**
   * The forecast query for a filter and a horizon in days: None when the
   * call (or reading its response) fails, otherwise the points in order.
   */
  type Fetch = (Expression, int) -> Option<seq<Point>>

  /** The outcome of the query for one (account, region) pair. */
  function Outcome(fetch: Fetch, days: int, account: string, region: string): Option<seq<Point>> {
    fetch(FormatFilter(account, region), days)
  }

  function PointsOf(o: Option<seq<Point>>): seq<Point> {
    if o.Some? then o.value else []
  }

  /** The period start of every point, in order. */
  function Starts(pts: seq<Point>): (r: seq<string>)
    ensures |r| == |pts|
  {
    if pts == [] then [] else Starts(pts[..|pts| - 1]) + [pts[|pts| - 1].start]
  }

  lemma {:induction false} StartsAt(pts: seq<Point>, i: int)
    requires 0 <= i < |pts|
    ensures Starts(pts)[i] == pts[i].start
    decreases |pts|
  {
    if i < |pts| - 1 {
      StartsAt(pts[..|pts| - 1], i);
    }
  }

  /** The valid points, in their original order. */
  function ValidPoints(pts: seq<Point>): seq<Point> {
    if pts == [] then []
    else ValidPoints(pts[..|pts| - 1]) + (if IsValid(pts[|pts| - 1]) then [pts[|pts| - 1]] else [])
  }

  /** A point survives the filter exactly when it is valid; at most all of them survive. */
  lemma {:induction false} ValidPointsMembers(pts: seq<Point>)
    ensures forall p :: p in ValidPoints(pts) <==> p in pts && IsValid(p)
    ensures |ValidPoints(pts)| <= |pts|
    ensures |ValidPoints(pts)| == |pts| <==> forall i :: 0 <= i < |pts| ==> IsValid(pts[i])
    decreases |pts|
  {
    if pts != [] {
      var init := pts[..|pts| - 1];
      ValidPointsMembers(init);
      assert pts == init + [pts[|pts| - 1]];
      if |ValidPoints(pts)| == |pts| {
        assert |ValidPoints(init)| == |init|;
        forall i | 0 <= i < |pts| ensures IsValid(pts[i]) {
          if i < |init| {
            assert init[i] == pts[i];
          }
        }
      }
      if forall i :: 0 <= i < |pts| ==> IsValid(pts[i]) {
        forall i | 0 <= i < |init| ensures IsValid(init[i]) {
          assert init[i] == pts[i];
        }
      }
    }
  }

  /** The ids of the accounts whose status is "ACTIVE", in listing order. */
  function ActiveIds(records: seq<AccountRecord>): seq<string> {
    if records == [] then []
    else
      var last := records[|records| - 1];
      ActiveIds(records[..|records| - 1]) + (if last.status == "ACTIVE" then [last.id] else [])
  }

  /** An id is listed exactly when some ACTIVE record carries it. */
  lemma {:induction false} ActiveIdsMembers(records: seq<AccountRecord>)
    ensures forall id :: id in ActiveIds(records) <==>
      exists i :: 0 <= i < |records| && records[i].status == "ACTIVE" && records[i].id == id
    ensures |ActiveIds(records)| <= |records|
    decreases |records|
  {
    if records != [] {
      var init := records[..|records| - 1];
      ActiveIdsMembers(init);
      forall id | id in ActiveIds(records)
        ensures exists i :: 0 <= i < |records| && records[i].status == "ACTIVE" && records[i].id == id
      {
        if id in ActiveIds(init) {
          var i :| 0 <= i < |init| && init[i].status == "ACTIVE" && init[i].id == id;
          assert records[i] == init[i];
        } else {
          assert records[|records| - 1].id == id;
        }
      }
      forall id | exists i :: 0 <= i < |records| && records[i].status == "ACTIVE" && records[i].id == id
        ensures id in ActiveIds(records)
      {
        var i :| 0 <= i < |records| && records[i].status == "ACTIVE" && records[i].id == id;
        if i < |init| {
          assert init[i] == records[i];
        }
      }
    }
  }

  /** Filtering keeps listing order: the ids of a longer listing extend those of its prefix. */
  lemma {:induction false} ActiveIdsAppend(r1: seq<AccountRecord>, r2: seq<AccountRecord>)
    ensures ActiveIds(r1 + r2) == ActiveIds(r1) + ActiveIds(r2)
    decreases |r2|
  {
    if r2 == [] {
      assert r1 + r2 == r1;
    } else {
      var init := r2[..|r2| - 1];
      assert (r1 + r2)[..|r1 + r2| - 1] == r1 + init;
      ActiveIdsAppend(r1, init);
    }
  }

  /** `get_active_accounts`: keep the ids of the ACTIVE accounts. */
  method ActiveAccounts(records: seq<AccountRecord>) returns (ids: seq<string>)
    ensures ids == ActiveIds(records)
  {
    ids := [];
    var i := 0;
    while i < |records|
      invariant 0 <= i <= |records|
      invariant ids == ActiveIds(records[..i])
    {
      assert records[..i + 1][..i] == records[..i];
      if records[i].status == "ACTIVE" {
        ids := ids + [records[i].id];
      }
      i := i + 1;
    }
    assert records[..i] == records;
  }

  function RegionNames(records: seq<RegionRecord>): seq<string> {
    seq(|records|, i requires 0 <= i < |records| => records[i].regionName)
  }

  /** `get_active_regions`: the region names, in the order the listing gives them. */
  method ActiveRegions(records: seq<RegionRecord>) returns (names: seq<string>)
    ensures |names| == |records|
    ensures forall i :: 0 <= i < |records| ==> names[i] == records[i].regionName
  {
    names := [];
    var i := 0;
    while i < |records|
      invariant 0 <= i <= |records|
      invariant |names| == i
      invariant forall k :: 0 <= k < i ==> names[k] == records[k].regionName
    {
      names := names + [records[i].regionName];
      i := i + 1;
    }
  }
}
