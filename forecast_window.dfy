/**
 * The date strings `get_forecasts` sends as the forecast's time period.
 * Both ends are "<year>-<month + 1, zero-padded to two digits>-01": the
 * month is incremented without wrapping, so a December "now" gives month 13.
 * The calendar arithmetic of `datetime.now() + timedelta(days)` is not
 * modelled: the caller supplies the (year, month) of both instants.
 */
module ForecastWindow {
  import opened CsvText
  import opened SeqFacts

  datatype TimePeriod = TimePeriod(start: string, end: string)

  /** The first day of the month after (year, month), as the source spells it. */
  function FirstOfNextMonth(year: nat, month: nat): string {
    NatToString(year) + "-" + ZFill2(NatToString(month + 1)) + "-01"
  }

  lemma MonthDigits(k: nat)
    requires 2 <= k <= 13
    ensures |NatToString(k)| <= 2
  {
    if k >= 10 {
      assert k / 10 == 1;
      assert NatToString(k) == NatToString(1) + [DigitChar(k % 10)];
    }
  }

  /**
   * The date is the year's digits, a dash, two digits that read back as
   * month + 1, and "-01"; so the month field is a calendar month
   * (at most 12) exactly when month is at most 11.
   */
  lemma MonthStartFields(year: nat, month: nat)
    requires 1 <= month <= 12
    ensures var s, y := FirstOfNextMonth(year, month), NatToString(year);
      && |s| == |y| + 6
      && s[..|y|] == y && ParseNat(y) == year
      && s[|y|] == '-' && s[|y| + 3..] == "-01"
      && IsDigits(s[|y| + 1..|y| + 3])
      && ParseNat(s[|y| + 1..|y| + 3]) == month + 1
      && (ParseNat(s[|y| + 1..|y| + 3]) <= 12 <==> month <= 11)
  {
    var y, m := NatToString(year), NatToString(month + 1);
    ParseNatToString(year);
    ParseNatToString(month + 1);
    MonthDigits(month + 1);
    var z := ZFill2(m);
    assert |z| == 2;
    ZFill2Digits(m);
    var s := y + "-" + z + "-01";
    assert s == FirstOfNextMonth(year, month);
    assert s[..|y|] == y;
    assert s[|y| + 1..|y| + 3] == z;
    assert s[|y| + 3..] == "-01";
  }

  /** In December the month is not wrapped: the "next month" is month 13 of the same year. */
  lemma NoYearRollover(year: nat)
    ensures FirstOfNextMonth(year, 12) == NatToString(year) + "-13-01"
  {
    var y := NatToString(year);
    assert NatToString(13) == "13" by {
      assert 13 / 10 == 1 && 13 % 10 == 3;
      assert NatToString(13) == NatToString(1) + [DigitChar(3)];
    }
    assert ZFill2("13") == "13";
    calc {
      FirstOfNextMonth(year, 12);
      ((y + "-") + "13") + "-01";
      { AppendAssoc(y, "-", "13"); }
      (y + ("-" + "13")) + "-01";
      { AppendAssoc(y, "-" + "13", "-01"); }
      y + (("-" + "13") + "-01");
      { assert ("-" + "13") + "-01" == "-13-01"; }
      y + "-13-01";
    }
  }

  /**
   * `get_forecasts`, lines 38-48: the time period from the month after "now"
   * to the month after "now + horizon".
   */
  function Window(nowYear: nat, nowMonth: nat, endYear: nat, endMonth: nat): TimePeriod {
    TimePeriod(FirstOfNextMonth(nowYear, nowMonth), FirstOfNextMonth(endYear, endMonth))
  }
}
