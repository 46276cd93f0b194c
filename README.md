# Cost Explorer multi-account forecasts — a Dafny model

The Lambda job `GetCostExplorerForecasts.py` builds a cost-forecast report for an AWS Organization. It lists the organization's accounts and keeps the ACTIVE ones. It lists the opted-in regions. Then it asks Cost Explorer for a monthly `UNBLENDED_COST` forecast of every (account, region) pair, with a filter on `LINKED_ACCOUNT` and `REGION`. The results go out as CSV text in two layouts:

- **Long layout** (`get_output_as_quicksight`). One line `account,periodStart,region,value` per forecast month whose rounded mean value is above 1. Accounts are the outer loop and regions the inner one. There is no header line. A pair whose query fails adds nothing.
- **Wide layout** (`get_output_as_excel` with `get_time_periods`). A header `,,start1,start2,…` comes from the first pair whose query succeeds; the `ITR` flag keeps it to one. Each pair with at least one valid value adds a row `region,a-account,v1,v2,…` holding its valid values only. Each account ends with the separator `,,,,`.

The handler (`lambda_handler`) uploads the long text to `S3Bucket` under `S3FolderPath + "ce_forcasts.csv"`. The file name is spelled as in the source. The forecast horizon is `ForecastMonths * 30` days. The wide text is computed too, but its upload is commented out in the source, so only the long text is stored.

The AWS calls are inputs to the model:
- the account listing is a `seq<AccountRecord>`;
- the region listing is a `seq<RegionRecord>`;
- the forecast query is a function `Fetch` from (filter expression, horizon in days) to `Option<seq<Point>>`.

`None` stands for a failed query, which the source swallows in its `try`/`except`. A `Point` carries the period start and the mean value already rounded to an integer.

Modules, in dependency order:

- `SeqFacts`: generic facts about sequence concatenation and prefixes.
- `CsvText`: `str()` of integers, `zfill(2)`, comma-joined records, and a comma split that inverts the join.
- `Filters`: the filter built by `format_filter`, as an expression datatype with its matching meaning.
- `Forecasts`: the API data, the validity threshold `MV > 1`, and the account and region enumerators.
- `ForecastWindow`: the date strings `get_forecasts` sends as the forecast period.
- `LongFormat`: the long layout. The rows are `Record`s, and `QuicksightOutput` is the source's nested loop, proved to build their rendering.
- `WideFormat`: the wide layout. `Line`s are accumulated in a `Progress` that also holds the `ITR` flag, and `ExcelOutput` is the source's loop, proved to build their rendering.
- `Handler`: the key, the horizon and the single upload.

The formatters are methods with `while` loops, like the source. Each one is proved equal to a specification function. The properties the layouts promise (which lines appear, in what order, and how many) are lemmas about those functions.

## Model

| member | source | states |
|---|---|---|
| CsvText.NatToString | GetCostExplorerForecasts.py:94 | `str()` of a natural is a non-empty run of decimal digits with no leading zero unless it is 0 |
| CsvText.ParseNatToString | GetCostExplorerForecasts.py:94 | reading the decimal digits written by `str()` gives back the number |
| CsvText.IntToString | GetCostExplorerForecasts.py:94 | `str()` of an integer is non-empty and holds no comma and no newline, so a value stays one CSV field |
| CsvText.ZFill2 | GetCostExplorerForecasts.py:38 | `zfill(2)` pads with zeros on the left to length 2, keeps the original as the suffix, and leaves longer strings alone |
| CsvText.ZFill2Digits | GetCostExplorerForecasts.py:38 | zero-padding digits keeps them digits and keeps their numeric value |
| CsvText.SplitJoin | GetCostExplorerForecasts.py:91-94 | splitting a comma-joined record of comma-free fields on commas gives back exactly the fields |
| Filters.FormatFilter | GetCostExplorerForecasts.py:13-15 | the filter `And[Dimensions LINKED_ACCOUNT=[account], Dimensions REGION=[region]]` matches a cost item exactly when its linked account is `account` and its region is `region` |
| Filters.FormatFilterInjective | GetCostExplorerForecasts.py:13-15 | different (account, region) pairs give different filters |
| Forecasts.ActiveAccounts | GetCostExplorerForecasts.py:26-33 | the loop returns `ActiveIds` of the listing: the ids of ACTIVE accounts in listing order |
| Forecasts.ActiveIdsMembers | GetCostExplorerForecasts.py:30-32 | an id is kept exactly when some account record with status "ACTIVE" carries it; no more ids than records |
| Forecasts.ActiveIdsAppend | GetCostExplorerForecasts.py:30-32 | the filter keeps listing order: the ids of a concatenated listing are the concatenation of the ids |
| Forecasts.ActiveRegions | GetCostExplorerForecasts.py:17-24 | the region names, one per listed region, in listing order |
| Forecasts.ValidPointsMembers | GetCostExplorerForecasts.py:89-90 | a point survives exactly when its rounded mean value is above 1; all survive exactly when all are valid |
| Forecasts.StartsAt | GetCostExplorerForecasts.py:106-109 | the i-th period start listed is the i-th point's start |
| ForecastWindow.MonthStartFields | GetCostExplorerForecasts.py:38-48 | a period date is the year's digits, "-", two digits reading back as month + 1, then "-01"; the month field is at most 12 exactly when the month is at most 11 |
| ForecastWindow.NoYearRollover | GetCostExplorerForecasts.py:38-41 | in December the date is "<year>-13-01": the month is not wrapped and the year is not advanced |
| LongFormat.LineIsCsvRecord | GetCostExplorerForecasts.py:91-94 | the four appended pieces form the CSV record of (account, start, region, value), and splitting it gives those four fields back when they hold no comma |
| LongFormat.PairLines | GetCostExplorerForecasts.py:86-94 | the point loop builds the rendering of `PairRecords`, one line per valid point |
| LongFormat.PairRecordsMembers | GetCostExplorerForecasts.py:86-94 | a pair emits the row (account, start, region, MV) if and only if some point with that start has MV above 1 |
| LongFormat.PairRecordsAreValidPoints | GetCostExplorerForecasts.py:86-94 | a pair's rows are its valid points in point order, tagged with account and region: one row per valid point, none for an invalid one |
| LongFormat.AccountLines | GetCostExplorerForecasts.py:78-96 | the region loop builds one account's rows, region by region; a failed query adds nothing |
| LongFormat.QuicksightOutput | GetCostExplorerForecasts.py:67-101 | the whole pass starts from "" with no header line, and returns the rendering of `LongRecords` over the ACTIVE account ids and the region names |
| LongFormat.AccountRecordsAppend | GetCostExplorerForecasts.py:78 | within an account the rows are grouped by region, in region order |
| LongFormat.LongRecordsAppend | GetCostExplorerForecasts.py:77 | the rows are grouped by account, in account order (account-major output) |
| LongFormat.RenderAppend | GetCostExplorerForecasts.py:91-94 | the text of concatenated rows is the concatenation of their texts |
| LongFormat.LongRecordsMembers | GetCostExplorerForecasts.py:77-96 | a row is in the output exactly when its account and region are listed, that pair's query succeeded, and it has a point with that start and a value above 1 |
| LongFormat.AccountRecordsMembers | GetCostExplorerForecasts.py:78-96 | the same, for one account's region loop |
| LongFormat.LongRecordsBound | GetCostExplorerForecasts.py:77-96 | with at most k points per pair there are at most accounts × regions × k rows; for k ≥ 1 there are exactly that many if and only if every listed pair's query succeeds with k points, all valid |
| LongFormat.AccountRecordsBound | GetCostExplorerForecasts.py:78-96 | the same for one account: at most regions × k rows, and for k ≥ 1 exactly that many if and only if every region's query succeeds with k valid points |
| LongFormat.PairFull | GetCostExplorerForecasts.py:84-94 | a pair with at most k points yields k rows (k ≥ 1) only when its query succeeded and all k points are valid |
| LongFormat.SingleValidPoint | GetCostExplorerForecasts.py:67-101 | one ACTIVE account, one region and one point worth 2500 give exactly "111111111111,2024-07-01,us-east-1,2500\n" |
| LongFormat.SingleInvalidPoint | GetCostExplorerForecasts.py:89-90 | the same pair with a value of 0 gives the empty text |
| WideFormat.TimePeriods | GetCostExplorerForecasts.py:103-113 | the header text is the CSV record of two empty fields followed by the period starts in order |
| WideFormat.MeanValueCells | GetCostExplorerForecasts.py:141-151 | the cells are "," + str(MV) for each valid value in order, and they are empty exactly when the pair has no valid value |
| WideFormat.PairPass | GetCostExplorerForecasts.py:128-157 | one pair advances the text and the `ITR` flag as `PairStep` does: nothing on failure; otherwise the header if `ITR` is "0", then the row if some value is valid |
| WideFormat.AccountPass | GetCostExplorerForecasts.py:127-157 | the region loop of one account advances the text and the flag as `AccountProgress` does |
| WideFormat.ExcelOutput | GetCostExplorerForecasts.py:116-164 | the whole pass returns the rendering of `WideLines` over the ACTIVE account ids and the region names, with `ITR` starting at "0" |
| WideFormat.RowValuesMembers | GetCostExplorerForecasts.py:143-151 | a value is in a pair's row exactly when some valid point carries it; every value in a row is above 1 |
| WideFormat.RowAlignsWithHeader | GetCostExplorerForecasts.py:146-151 | a row has as many fields as the header of the same forecast if and only if every point is valid |
| WideFormat.FirstSuccessExists | GetCostExplorerForecasts.py:131-137 | there is a first successful query exactly when some listed pair's query succeeds |
| WideFormat.AccountFirstExists | GetCostExplorerForecasts.py:127-137 | the same, within one account's regions |
| WideFormat.HeaderOnce | GetCostExplorerForecasts.py:120-137 | the output holds one header, for the first successful query, even when none of its values is valid, and none when no query succeeds; the final flag is "1" exactly then |
| WideFormat.HeaderBeforeData | GetCostExplorerForecasts.py:134-154 | no data row comes before the header, and no data row is written while `ITR` is still "0" |
| WideFormat.OneSeparatorPerAccount | GetCostExplorerForecasts.py:126-159 | the output holds exactly one separator per ACTIVE account, whatever that account produced, and ends with one |
| WideFormat.AccountProgressSeparators | GetCostExplorerForecasts.py:127-157 | the region loop itself adds no separator |
| WideFormat.DataRows | GetCostExplorerForecasts.py:141-154 | the row (region, account, values) is present exactly when the pair is listed, its query succeeded, and the values are its valid values, at least one |
| WideFormat.AccountProgressData | GetCostExplorerForecasts.py:127-157 | the same, for one account's region loop on top of earlier lines |
| WideFormat.AccountRowsAppend | GetCostExplorerForecasts.py:127-154 | an account's data rows are grouped by region in region order, at most one per region |
| WideFormat.AccountRowsNone | GetCostExplorerForecasts.py:131-154 | until one of an account's queries succeeds, the account has no data rows |
| WideFormat.AccountProgressLines | GetCostExplorerForecasts.py:127-157 | one account's region loop appends the header (if still due and one of its queries succeeds), then the account's rows in region order; afterwards `ITR` is "1" exactly when it was already or one of its queries succeeded |
| WideFormat.WideLinesSnoc | GetCostExplorerForecasts.py:126-159 | adding an account appends, after all earlier output, the header if no earlier query succeeded, then that account's rows in region order, then exactly one separator |
| WideFormat.AccountFirstIsFirst | GetCostExplorerForecasts.py:127-137 | an account's first success is the outcome of one of its regions, and every earlier region's query failed; with none, every query of the account failed |
| WideFormat.FirstSuccessIsFirst | GetCostExplorerForecasts.py:126-137 | the header's forecast is the outcome of a listed pair, and every pair before it in account-major, region-minor order failed; with none, every query failed |
| WideFormat.DataText | GetCostExplorerForecasts.py:152-154 | a row's text is region + "," + "a-" + account + the value cells + "\n" |
| WideFormat.SingleValidPointWide | GetCostExplorerForecasts.py:116-164 | one ACTIVE account, one region and one point worth 2500 give the header, the row `us-east-1,a-111111111111,2500` and a separator |
| WideFormat.SingleInvalidPointWide | GetCostExplorerForecasts.py:134-159 | with a value of 0 the header is still written, no row follows, and the separator closes the account |
| WideFormat.SingleInvalidPointWideText | GetCostExplorerForecasts.py:134-159 | that run's text is exactly ",,2024-07-01\n,,,,\n" |
| Handler.S3Key | GetCostExplorerForecasts.py:170 | the object key is the folder path followed by "ce_forcasts.csv" |
| Handler.IntervalDays | GetCostExplorerForecasts.py:171 | the horizon is a whole number of 30-day months, exactly `ForecastMonths` of them |
| Handler.LambdaHandler | GetCostExplorerForecasts.py:166-189 | exactly one upload: the long text over the horizon, under the bucket and key above; the wide text is not uploaded; status 200 |

## Left out

- The boto3 calls (`put_object`, `describe_regions`, `list_accounts`, `get_cost_forecast`) are foreign calls. Their results are parameters. The upload is returned as a `PutObject` value.
- Pagination of `list_accounts` is not modelled. The source reads only the first page, and the model takes the listing it reads.
- Parsing `MeanValue` with `float` and rounding it with Python's `round` is floating point. The model takes the already-rounded integer.
- The `datetime.now()` and `timedelta` calendar arithmetic is not modelled. The caller supplies the (year, month) of "now" and of "now + horizon".
- OneSeparatorPerAccount: states the separator count and that the output ends with one. Where each separator sits, right after its own account's rows, is stated by WideLinesSnoc.
- DataRows: states which rows are present. Their order, and that each pair has at most one row, are stated by WideLinesSnoc and AccountRowsAppend.
- ForecastWindow.Window: carries no contract of its own. Both of its ends are `FirstOfNextMonth`, which `MonthStartFields` and `NoYearRollover` describe.
- The time period is not passed into `Fetch`. The query function stands for the whole call, and the request's other constant fields (`UNBLENDED_COST`, `MONTHLY`) are not modelled.
- `random.randint` in the wide pass is not modelled, because its value is discarded and never reaches the output.
- `print` logging is not modelled.
- The JSON templating and `json.loads` inside `format_filter` are not modelled. The filter is built directly as a datatype, so quoting of unusual account strings is out of scope.
- A failure part-way through a pair's points (a malformed `MeanValue`) is not modelled. Failure is whole-query only: `None` means the pair adds nothing.
- Handler.LambdaHandler: a failure of the region or account listing (lines 74-75, 123-124) or of the upload (line 178) happens outside any `try` and would end the handler without status 200. The model treats these calls as always succeeding, so it promises 200 unconditionally.
- Handler.LambdaHandler: both passes see the same listings and the same query results. The real job queries the APIs again in the second pass.
- Concurrency and Lambda runtime concerns (timeouts, retries) are not modelled.
