/**
 * `scripts/clean_csv.py`: rewrites the companies registry so that every data
 * row has exactly 29 fields, cutting longer rows and padding shorter ones
 * with empty fields; the header is only cut. Rows arrive already split into
 * fields (the CSV reader and writer are outside the model).
 */
module CsvCleaner {
  import opened Seqs

  /** The column count of the registry table. */
  const Columns: nat := 29

  function Padding(n: nat): (r: seq<string>)
    ensures |r| == n && forall k :: 0 <= k < n ==> r[k] == ""
  {
    if n == 0 then [] else [""] + Padding(n - 1)
  }

  /** One data row as written: its first 29 fields, then empty fields up to 29. */
  function NormalizeRow(row: seq<string>): (r: seq<string>)
    ensures |r| == Columns
    ensures |row| >= Columns ==> r == row[..Columns]
    ensures |row| <= Columns ==> r[..|row|] == row && forall k :: |row| <= k < Columns ==> r[k] == ""
  {
    if |row| == Columns then row
    else if |row| > Columns then row[..Columns]
    else row + Padding(Columns - |row|)
  }

  /** A row that is already 29 fields wide is written unchanged; so normalising twice is normalising once. */
  lemma NormalizeIdempotent(row: seq<string>)
    ensures NormalizeRow(NormalizeRow(row)) == NormalizeRow(row)
    ensures |row| == Columns ==> NormalizeRow(row) == row
  {
  }

  /** The fields a row keeps are exactly its first ones, in order. */
  lemma NormalizeKeepsFields(row: seq<string>, k: nat)
    requires k < |row| && k < Columns
    ensures NormalizeRow(row)[k] == row[k]
  {
    if |row| < Columns {
      assert NormalizeRow(row)[..|row|][k] == row[k];
    }
  }

  /** Outcome of a run: the rows written and the three counters, or the error exit. */
  datatype Run =
    | Cleaned(header: seq<string>, rows: seq<seq<string>>, processed: nat, written: nat, skipped: nat)
    | EmptyInput

  /**
   * `clean_csv` followed by the error handling of the script's entry point:
   * an input without even a header line makes `next(reader)` raise, which
   * ends the script with an error.
   */
  method CleanCsv(input: seq<seq<string>>) returns (run: Run)
    ensures input == [] <==> run == EmptyInput
    ensures run.Cleaned? ==> run.header == Take(input[0], Columns)
    ensures run.Cleaned? ==> |run.rows| == |input| - 1
    ensures run.Cleaned? ==> forall i :: 0 <= i < |run.rows| ==> run.rows[i] == NormalizeRow(input[i + 1])
    ensures run.Cleaned? ==> run.processed == run.written == |input| - 1 && run.skipped == 0
  {
    if input == [] {
      return EmptyInput;
    }
    var header := input[0];
    var rowsProcessed, rowsWritten, rowsSkipped := 0, 0, 0;
    var out: seq<seq<string>> := [];
    for i := 1 to |input|
      invariant rowsProcessed == rowsWritten == i - 1 && rowsSkipped == 0
      invariant |out| == i - 1
      invariant forall k :: 0 <= k < |out| ==> out[k] == NormalizeRow(input[k + 1])
    {
      var row := input[i];
      rowsProcessed := rowsProcessed + 1;
      var colCount := |row|;
      if colCount == Columns {
        out := out + [row];
        rowsWritten := rowsWritten + 1;
      } else if colCount > Columns {
        out := out + [row[..Columns]];
        rowsWritten := rowsWritten + 1;
      } else {
        var padded := row + Padding(Columns - colCount);
        out := out + [padded];
        rowsWritten := rowsWritten + 1;
      }
    }
    run := Cleaned(Take(header, Columns), out, rowsProcessed, rowsWritten, rowsSkipped);
  }

  /** A 31-field row loses its last two fields. */
  lemma LongRowExample(row: seq<string>)
    requires |row| == 31
    ensures NormalizeRow(row) == row[..29] && |NormalizeRow(row)| == 29
  {
  }

  /** A 20-field row gains nine empty fields. */
  lemma ShortRowExample(row: seq<string>)
    requires |row| == 20
    ensures NormalizeRow(row) == row + ["", "", "", "", "", "", "", "", ""]
  {
    var r := NormalizeRow(row);
    assert r[..20] == row;
    assert r == r[..20] + r[20..];
  }
}
