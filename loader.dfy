/**
 * `load_sales_file` of backend/app/utils/loader.py: the file is dispatched on
 * the suffix of its lower-cased name. The CSV and Excel readers are pandas
 * functions doing file I/O; they are parameters here, each returning either a
 * table or the text of the exception it raised.
 */
module Loader {
  import opened Wrappers
  import opened Table

  type Bytes = seq<bv8>

  /** An uploaded file: its client-side name and its contents. */
  datatype UploadFile = UploadFile(filename: string, content: Bytes)

  /** A reader: the table parsed from the bytes, or the text of its exception. */
  type Reader = Bytes -> Result<Table, string>

  datatype FileKind = Csv | Excel

  const UnsupportedFileType := "Unsupported file type"

  /** `str.lower()` on one character, for the ASCII letters. */
  function LowerChar(c: char): char
  {
    if 'A' <= c <= 'Z' then (c as int + 32) as char else c
  }

  function Lower(s: string): string
  {
    seq(|s|, i requires 0 <= i < |s| => LowerChar(s[i]))
  }

  predicate EndsWith(s: string, suffix: string)
  {
    |suffix| <= |s| && s[|s| - |suffix|..] == suffix
  }

  /** The if / elif / else of `load_sales_file` on the lower-cased name. */
  function Classify(filename: string): Result<FileKind, string>
  {
    var name := Lower(filename);
    if EndsWith(name, ".csv") then Success(Csv)
    else if EndsWith(name, ".xlsx") || EndsWith(name, ".xls") then Success(Excel)
    else Failure(UnsupportedFileType)
  }

  function LoadSalesFile(file: UploadFile, readCsv: Reader, readExcel: Reader): Result<Table, string>
  {
    match Classify(file.filename)
    case Failure(e) => Failure(e)
    case Success(Csv) => readCsv(file.content)
    case Success(Excel) => readExcel(file.content)
  }

  lemma LowerAppend(a: string, b: string)
    ensures Lower(a + b) == Lower(a) + Lower(b)
  {
  }

  lemma LowerIdempotent(s: string)
    ensures Lower(Lower(s)) == Lower(s)
  {
  }

  /** Classification ignores case: the name is lower-cased before any suffix test. */
  lemma ClassifyIgnoresCase(a: string, b: string)
    requires Lower(a) == Lower(b)
    ensures Classify(a) == Classify(b)
    ensures Classify(Lower(a)) == Classify(a)
  {
    LowerIdempotent(a);
  }

  /** A ".xls" or ".xlsx" name never also ends in ".csv". */
  lemma ExcelIsNotCsv(name: string)
    requires EndsWith(name, ".xlsx") || EndsWith(name, ".xls")
    ensures !EndsWith(name, ".csv")
  {
    if EndsWith(name, ".xlsx") {
      assert name[|name| - 1] == 'x';
    } else {
      assert name[|name| - 1] == 's';
    }
  }

  /** The three outcomes of the dispatch, each exactly characterised by the lower-cased suffix. */
  lemma ClassifyCases(filename: string)
    ensures Classify(filename) == Success(Csv) <==> EndsWith(Lower(filename), ".csv")
    ensures Classify(filename) == Success(Excel) <==>
              EndsWith(Lower(filename), ".xlsx") || EndsWith(Lower(filename), ".xls")
    ensures Classify(filename).Failure? <==>
              !EndsWith(Lower(filename), ".csv") && !EndsWith(Lower(filename), ".xlsx")
              && !EndsWith(Lower(filename), ".xls")
    ensures Classify(filename).Failure? ==> Classify(filename).error == UnsupportedFileType
  {
    var name := Lower(filename);
    if EndsWith(name, ".xlsx") || EndsWith(name, ".xls") {
      ExcelIsNotCsv(name);
    }
  }

  /** Only the final suffix counts: whatever comes before it, ".csv" in any case is CSV. */
  lemma CsvSuffix(stem: string)
    ensures Classify(stem + ".csv") == Success(Csv)
    ensures Classify(stem + ".CSV") == Success(Csv)
  {
    LowerAppend(stem, ".csv");
    LowerAppend(stem, ".CSV");
    assert Lower(".csv") == ".csv";
    assert Lower(".CSV") == ".csv";
  }

  /** Whatever comes before it, a ".txt" suffix is refused. */
  lemma TxtSuffix(stem: string)
    ensures Classify(stem + ".txt") == Failure(UnsupportedFileType)
  {
    var l := Lower(stem + ".txt");
    LowerAppend(stem, ".txt");
    assert Lower(".txt") == ".txt";
    assert l[|l| - 1] == 't';
  }

  /** Names the loader reads as CSV and as Excel. */
  lemma AcceptedExamples()
    ensures Classify("a.txt.csv") == Success(Csv)
    ensures Classify("Sales.XLSX") == Success(Excel)
    ensures Classify("report.xls") == Success(Excel)
  {
    CsvSuffix("a.txt");
    assert "a.txt" + ".csv" == "a.txt.csv";
    assert Lower("Sales.XLSX") == "sales.xlsx";
    assert "sales.xlsx"[5..] == ".xlsx";
    assert Lower("report.xls") == "report.xls";
    assert "report.xls"[6..] == ".xls";
  }

  /** Names the loader refuses: another extension, no extension, or ".csv" not at the end. */
  lemma RefusedExamples()
    ensures Classify("x.txt") == Failure(UnsupportedFileType)
    ensures Classify("x") == Failure(UnsupportedFileType)
    ensures Classify("x.csv.txt") == Failure(UnsupportedFileType)
  {
    TxtSuffix("x");
    TxtSuffix("x.csv");
    assert "x" + ".txt" == "x.txt";
    assert "x.csv" + ".txt" == "x.csv.txt";
    assert Lower("x") == "x";
  }

  /** The loaded table comes from the reader the suffix selects; any other name is refused
      whatever the readers would do. */
  lemma LoadSalesFileDispatch(file: UploadFile, readCsv: Reader, readExcel: Reader)
    ensures var name := Lower(file.filename);
            && (EndsWith(name, ".csv") ==> LoadSalesFile(file, readCsv, readExcel) == readCsv(file.content))
            && ((EndsWith(name, ".xlsx") || EndsWith(name, ".xls")) ==>
                  LoadSalesFile(file, readCsv, readExcel) == readExcel(file.content))
            && (!EndsWith(name, ".csv") && !EndsWith(name, ".xlsx") && !EndsWith(name, ".xls") ==>
                  LoadSalesFile(file, readCsv, readExcel) == Failure(UnsupportedFileType))
  {
    ClassifyCases(file.filename);
  }
}
