/**
 * `lambda_handler`: read the job parameters, run the long-layout pass and
 * upload its text, then run the wide-layout pass, whose upload is commented
 * out in the source, and report status 200. The object-storage put is a
 * foreign call; the model returns the puts it would make.
 */
module Handler {
  import opened Forecasts
  import LongFormat
  import WideFormat

  const FILE_NAME := "ce_forcasts.csv"
  const DAYS_PER_MONTH := 30
  const STATUS_OK := 200

  /** The invocation event's three parameters. */
  datatype Event = Event(s3Bucket: string, s3FolderPath: string, forecastMonths: int)

  /** One `put_object` call: bucket, key and body. */
  datatype PutObject = PutObject(bucket: string, key: string, body: string)

  datatype Response = Response(statusCode: int)

  /** The object key: the folder path with the file name appended. */
  function S3Key(folderPath: string): (key: string)
    ensures |key| == |folderPath| + |FILE_NAME|
    ensures key[..|folderPath|] == folderPath && key[|folderPath|..] == FILE_NAME
  {
    folderPath + FILE_NAME
  }

  /** The forecast horizon in days: 30 days per requested month, exactly. */
  function IntervalDays(months: int): (days: int)
    ensures days % DAYS_PER_MONTH == 0 && days / DAYS_PER_MONTH == months
  {
    months * DAYS_PER_MONTH
  }

  /**
   * The handler makes exactly one upload, of the long-layout text, under
   * "<folder path>ce_forcasts.csv" in the event's bucket, and returns 200.
   */
  method LambdaHandler(event: Event, regionList: seq<RegionRecord>, accountList: seq<AccountRecord>, fetch: Fetch)
    returns (uploads: seq<PutObject>, response: Response)
    ensures |uploads| == 1
    ensures uploads[0].bucket == event.s3Bucket && uploads[0].key == S3Key(event.s3FolderPath)
    ensures uploads[0].body ==
      LongFormat.LongText(ActiveIds(accountList), RegionNames(regionList), fetch, IntervalDays(event.forecastMonths))
    ensures response.statusCode == STATUS_OK
  {
    var s3Bucket := event.s3Bucket;
    var s3Key := event.s3FolderPath + FILE_NAME;
    var forecastIntervalDays := event.forecastMonths * DAYS_PER_MONTH;

    var forecastResults := LongFormat.QuicksightOutput(forecastIntervalDays, regionList, accountList, fetch);
    uploads := [PutObject(s3Bucket, s3Key, forecastResults)];

    forecastResults := WideFormat.ExcelOutput(forecastIntervalDays, regionList, accountList, fetch);
    // the wide-layout upload is commented out in the source: nothing is added to uploads

    response := Response(STATUS_OK);
  }
}
