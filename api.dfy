/**
 * The request handlers of backend/app/main.py, over the store, with HTTP
 * abstracted away: a handler's result is the body it returns, the
 * HTTPException it raises, or an exception it lets escape.
 *
 * main.py imports the store from app.utils.data_store, which is not part of
 * this model; the store of backend/app/services/data_store.py stands in for it.
 */
module Api {
  import opened Wrappers
  import opened Table
  import opened Sales
  import opened Loader
  import opened DataStore

  datatype HttpException = HttpException(statusCode: int, detail: string)

  /** The body of a successful upload. */
  datatype UploadReply = UploadReply(message: string, rows: nat, columns: seq<string>)

  /** What a GET handler produces: a metrics body, the `{"error": ...}` body, or an exception
      that escapes the handler (the framework turns it into a server error). */
  datatype Reply<T> = Body(body: T) | ErrorBody(error: string) | Raised(exception: string)

  const UploadedMessage := "File uploaded successfully"
  const NoDataUploaded := "No data uploaded yet"
  const DefaultTopN := 10
  const ZeroSummary := Summary(0.0, 0, 0.0, 0, 0.0)

  /** `upload_sales_file`: the file is loaded first and stored only when loading succeeded;
      a failed load becomes a 400 with the exception's text and leaves the store alone. */
  method UploadSalesFile(store: Store, file: UploadFile, readCsv: Reader, readExcel: Reader)
    returns (r: Result<UploadReply, HttpException>)
    modifies store
    ensures match LoadSalesFile(file, readCsv, readExcel)
            case Failure(e) =>
              r == Failure(HttpException(400, e)) && store.salesDf == old(store.salesDf)
            case Success(df) =>
              && store.salesDf == Some(df)
              && r == Success(UploadReply(UploadedMessage, |df.rows|, df.columns))
  {
    var loaded := LoadSalesFile(file, readCsv, readExcel);
    match loaded {
      case Failure(e) =>
        r := Failure(HttpException(400, e));
      case Success(df) =>
        store.SetSalesData(df);
        r := Success(UploadReply(UploadedMessage, |df.rows|, df.columns));
    }
  }

  /** `get_summary_metrics`: the ValueError of an empty store is caught and answered with
      five zeros; otherwise the summary of the stored table. */
  method GetSummaryMetrics(store: Store) returns (s: Summary)
    ensures store.salesDf.None? ==> s == ZeroSummary
    ensures store.salesDf.Some? ==> s == SummaryMetrics(store.salesDf.value.rows)
  {
    var got := store.GetSalesData();
    match got {
      case Failure(_) =>
        s := ZeroSummary;
      case Success(df) =>
        s := SummaryMetrics(df.rows);
    }
  }

  /** The value a successful get hands to a handler; the getter never returns None. */
  function Fetched(got: Result<Table, string>): Option<Table>
  {
    match got
    case Success(df) => Some(df)
    case Failure(_) => None
  }

  /** `get_platform_metrics`: the getter's ValueError is not caught, so an empty store makes the
      handler raise; its `{"error": ...}` branch can never be taken. */
  method GetPlatformMetrics(store: Store) returns (r: Reply<PlatformReport>)
    ensures store.salesDf.None? ==> r == Raised(NoSalesData)
    ensures store.salesDf.Some? ==> r == Body(PlatformMetrics(store.salesDf.value.rows))
    ensures !r.ErrorBody?
  {
    var got := store.GetSalesData();
    if got.Failure? {
      return Raised(got.error);
    }
    var df := Fetched(got);
    if df.None? {
      r := ErrorBody(NoDataUploaded);
    } else {
      r := Body(PlatformMetrics(df.value.rows));
    }
  }

  /** `get_product_metrics`: the top ten products, or the getter's exception. */
  method GetProductMetrics(store: Store) returns (r: Reply<ProductReport>)
    ensures store.salesDf.None? ==> r == Raised(NoSalesData)
    ensures store.salesDf.Some? ==> r == Body(ProductMetrics(store.salesDf.value.rows, DefaultTopN))
    ensures !r.ErrorBody?
  {
    var got := store.GetSalesData();
    if got.Failure? {
      return Raised(got.error);
    }
    var df := Fetched(got);
    if df.None? {
      r := ErrorBody(NoDataUploaded);
    } else {
      r := Body(ProductMetrics(df.value.rows, DefaultTopN));
    }
  }

  /** `get_brand_metrics`: the brand metrics, or the getter's exception. */
  method GetBrandMetrics(store: Store) returns (r: Reply<BrandReport>)
    ensures store.salesDf.None? ==> r == Raised(NoSalesData)
    ensures store.salesDf.Some? ==> r == Body(BrandMetrics(store.salesDf.value.rows))
    ensures !r.ErrorBody?
  {
    var got := store.GetSalesData();
    if got.Failure? {
      return Raised(got.error);
    }
    var df := Fetched(got);
    if df.None? {
      r := ErrorBody(NoDataUploaded);
    } else {
      r := Body(BrandMetrics(df.value.rows));
    }
  }

  /** `get_time_metrics`: the time metrics, or the getter's exception. */
  method GetTimeMetrics(store: Store) returns (r: Reply<TimeReport>)
    ensures store.salesDf.None? ==> r == Raised(NoSalesData)
    ensures store.salesDf.Some? ==> r == Body(TimeMetrics(store.salesDf.value.rows))
    ensures !r.ErrorBody?
  {
    var got := store.GetSalesData();
    if got.Failure? {
      return Raised(got.error);
    }
    var df := Fetched(got);
    if df.None? {
      r := ErrorBody(NoDataUploaded);
    } else {
      r := Body(TimeMetrics(df.value.rows));
    }
  }

  /** Before any upload the summary endpoint answers with zeros and raises nothing. */
  method SummaryBeforeUpload() returns (s: Summary)
    ensures s == ZeroSummary
    ensures s.totalRevenue == 0.0 && s.totalOrders == 0 && s.aov == 0.0
    ensures s.totalUnits == 0 && s.avgItemsPerOrder == 0.0
  {
    var store := new Store();
    s := GetSummaryMetrics(store);
  }

  /** A rejected upload, such as a ".txt" file, leaves the previously stored table in place:
      the summary still describes it. */
  method RejectedUploadKeepsData(previous: Table, stem: string, content: Bytes, readCsv: Reader, readExcel: Reader)
    returns (r: Result<UploadReply, HttpException>, s: Summary)
    ensures r == Failure(HttpException(400, UnsupportedFileType))
    ensures s == SummaryMetrics(previous.rows)
  {
    var store := new Store();
    store.SetSalesData(previous);
    TxtSuffix(stem);
    r := UploadSalesFile(store, UploadFile(stem + ".txt", content), readCsv, readExcel);
    s := GetSummaryMetrics(store);
  }

  /** After a successful upload every metrics endpoint answers from the uploaded table. */
  method UploadThenQuery(file: UploadFile, readCsv: Reader, readExcel: Reader)
    returns (s: Summary, p: Reply<PlatformReport>, t: Reply<TimeReport>)
    requires LoadSalesFile(file, readCsv, readExcel).Success?
    ensures var df := LoadSalesFile(file, readCsv, readExcel).value;
            && s == SummaryMetrics(df.rows)
            && p == Body(PlatformMetrics(df.rows))
            && t == Body(TimeMetrics(df.rows))
  {
    var store := new Store();
    var r := UploadSalesFile(store, file, readCsv, readExcel);
    s := GetSummaryMetrics(store);
    p := GetPlatformMetrics(store);
    t := GetTimeMetrics(store);
  }
}
