/**
 * The mapping-upload page: a file chosen or dropped by the user starts a
 * simulated processing delay, after which the page shows a fixed set of
 * field mappings with their status; the counts of valid, warning and error
 * rows gate the Continue button, and removing the file clears the table.
 *
 * The 2-second timer becomes the method `ProcessingDone`, which may run
 * once for every upload that armed it. Removing the file does not disarm
 * a pending timer, so the table can come back after a removal.
 */
module UploadMapping {
  import opened Js

  datatype MappingStatus = Valid | Warning | Error

  datatype MappingRow = MappingRow(
    id: string,
    sourceField: string,
    targetField: string,
    dataType: string,
    status: MappingStatus)

  /** The rows processing always produces. */
  function SampleMappings(): (r: seq<MappingRow>)
    ensures |r| == 5 && r[4].status == Error
  {
    [ MappingRow("1", "customer_id", "cust_id", "INTEGER", Valid),
      MappingRow("2", "customer_name", "cust_name", "VARCHAR(255)", Valid),
      MappingRow("3", "email_address", "email", "VARCHAR(255)", Warning),
      MappingRow("4", "created_date", "date_created", "TIMESTAMP", Valid),
      MappingRow("5", "order_total", "total_amount", "DECIMAL(10,2)", Error) ]
  }

  /** A dropped file is taken only when its type mentions csv or excel. */
  predicate DropAccepted(file: Option<FileInfo>)
  {
    file.Some? && (Contains(file.value.fileType, "csv") || Contains(file.value.fileType, "excel"))
  }

  /** A CSV file dropped with the MIME type "text/csv" is taken. */
  lemma CsvDropAccepted(name: string, size: nat)
    ensures DropAccepted(Some(FileInfo(name, "text/csv", size)))
  {
    var t := "text/csv";
    assert t[5..8] == "csv";
    ContainsAt(t, "csv", 5);
  }

  /** The upload page's state. */
  class MappingUpload {
    var uploadedFile: Option<FileInfo>
    var mappingData: seq<MappingRow>
    var isProcessing: bool
    /** Processing timers armed and not yet fired. */
    var pendingTimers: nat

    /** The table is empty or the sample, and processing always has a timer to end it. */
    ghost predicate Valid()
      reads this
    {
      && (mappingData == [] || mappingData == SampleMappings())
      && (isProcessing ==> pendingTimers > 0)
    }

    constructor ()
      ensures Valid()
      ensures uploadedFile.None? && mappingData == [] && !isProcessing && pendingTimers == 0
    {
      uploadedFile := None;
      mappingData := [];
      isProcessing := false;
      pendingTimers := 0;
    }

    /** `handleFileUpload`: a chosen file is kept and processing starts; no file, no change. */
    method HandleFileUpload(file: Option<FileInfo>)
      requires Valid()
      modifies this
      ensures Valid()
      ensures file.Some? ==> uploadedFile == file && isProcessing && pendingTimers == old(pendingTimers) + 1
      ensures file.None? ==> uploadedFile == old(uploadedFile) && isProcessing == old(isProcessing)
                             && pendingTimers == old(pendingTimers)
      ensures mappingData == old(mappingData)
    {
      if file.Some? {
        uploadedFile := file;
        isProcessing := true;
        pendingTimers := pendingTimers + 1;
      }
    }

    /** `handleDrop`: as an upload, but only for a csv or excel file. */
    method HandleDrop(file: Option<FileInfo>)
      requires Valid()
      modifies this
      ensures Valid()
      ensures DropAccepted(file) ==> uploadedFile == file && isProcessing && pendingTimers == old(pendingTimers) + 1
      ensures !DropAccepted(file) ==> uploadedFile == old(uploadedFile) && isProcessing == old(isProcessing)
                                      && pendingTimers == old(pendingTimers)
      ensures mappingData == old(mappingData)
    {
      if DropAccepted(file) {
        uploadedFile := file;
        isProcessing := true;
        pendingTimers := pendingTimers + 1;
      }
    }

    /** One armed processing timer fires: the sample mappings appear and processing ends. */
    method ProcessingDone()
      requires Valid() && pendingTimers > 0
      modifies this
      ensures Valid()
      ensures mappingData == SampleMappings() && !isProcessing
      ensures pendingTimers == old(pendingTimers) - 1 && uploadedFile == old(uploadedFile)
    {
      mappingData := SampleMappings();
      isProcessing := false;
      pendingTimers := pendingTimers - 1;
    }

    /** `removeFile`: forgets the file and the table; a pending timer stays armed. */
    method RemoveFile()
      requires Valid()
      modifies this
      ensures Valid()
      ensures uploadedFile.None? && mappingData == []
      ensures isProcessing == old(isProcessing) && pendingTimers == old(pendingTimers)
    {
      uploadedFile := None;
      mappingData := [];
    }
  }

  // ---------------------------------------------------------------------
  // Counts and the Continue gate
  // ---------------------------------------------------------------------

  function WithStatus(s: MappingStatus): MappingRow -> bool
  {
    (m: MappingRow) => m.status == s
  }

  /** `mappingData.filter((m) => m.status === s).length`. */
  function CountMapping(rows: seq<MappingRow>, s: MappingStatus): (n: nat)
    ensures n <= |rows|
    ensures n == 0 <==> forall i :: 0 <= i < |rows| ==> rows[i].status != s
  {
    FilterEmptyIff(rows, WithStatus(s));
    |Filter(rows, WithStatus(s))|
  }

  /** validCount + warningCount + errorCount is the number of rows. */
  lemma {:induction false} CountsPartition(rows: seq<MappingRow>)
    ensures CountMapping(rows, Valid) + CountMapping(rows, Warning) + CountMapping(rows, Error) == |rows|
  {
    if rows != [] {
      var x, rest := rows[0], rows[1..];
      assert rows == [x] + rest;
      CountsPartition(rest);
      FilterCons(x, rest, WithStatus(Valid));
      FilterCons(x, rest, WithStatus(Warning));
      FilterCons(x, rest, WithStatus(Error));
    }
  }

  /** The Continue section is rendered only once the table has rows. */
  predicate ContinueShown(rows: seq<MappingRow>)
    ensures ContinueShown(rows) <==> exists row :: row in rows
  {
    assert |rows| > 0 ==> rows[0] in rows;
    |rows| > 0
  }

  /** The Continue button is disabled exactly when some row is in error. */
  function ContinueDisabled(rows: seq<MappingRow>): (r: bool)
    ensures r <==> exists i :: 0 <= i < |rows| && rows[i].status == Error
  {
    CountMapping(rows, Error) > 0
  }

  /** The processed sample always holds an error, so Continue stays disabled. */
  lemma SampleBlocksContinue()
    ensures ContinueShown(SampleMappings()) && ContinueDisabled(SampleMappings())
  {
    assert SampleMappings()[4].status == Error;
  }

  /**
   * Upload, remove, then the timer fires: the mapping table is back while
   * no file is shown.
   */
  method RemoveBeforeProcessingEnds(file: FileInfo) returns (page: MappingUpload)
    ensures page.uploadedFile.None? && page.mappingData == SampleMappings()
  {
    page := new MappingUpload();
    page.HandleFileUpload(Some(file));
    page.RemoveFile();
    page.ProcessingDone();
  }
}
