/**
 * clean_hostnames.py: every row of the VM inventory CSV with at least two fields has its second
 * field, the VM name, cut to its last eight characters; the header row is no exception. The rows
 * are then written back in place.
 */
module Hostnames {
  import opened Text
  import opened Seqs

  /** A CSV row as `csv.reader` yields it. */
  type Row = seq<string>

  /** How many trailing characters of a VM name are kept. */
  const NameLength: nat := 8

  /** `row[1] = row[1][-8:]` for a row of two fields or more; a shorter row is left alone. */
  function CleanRow(row: Row): (r: Row)
    ensures |r| == |row|
    ensures forall i :: 0 <= i < |row| && i != 1 ==> r[i] == row[i]
    ensures |row| >= 2 ==> |r[1]| == (if |row[1]| < NameLength then |row[1]| else NameLength)
                           && r[1] == row[1][|row[1]| - |r[1]|..]
  {
    if |row| >= 2 then row[1 := TakeLast(row[1], NameLength)] else row
  }

  /** The whole file: one cleaned row per row read, in order. */
  function CleanRows(rows: seq<Row>): (out: seq<Row>)
    ensures |out| == |rows|
    ensures forall i :: 0 <= i < |rows| ==> out[i] == CleanRow(rows[i])
  {
    Map(CleanRow, rows)
  }

  /** A row whose VM name is already eight characters or fewer, or that has no VM name, is unchanged. */
  lemma ShortRowUnchanged(row: Row)
    requires |row| < 2 || |row[1]| <= NameLength
    ensures CleanRow(row) == row
  {
    if |row| >= 2 {
      assert row[1][|row[1]| - |row[1]|..] == row[1];
      assert CleanRow(row)[1] == row[1];
    }
  }

  /** Cleaning a cleaned row changes nothing. */
  lemma CleanRowIdempotent(row: Row)
    ensures CleanRow(CleanRow(row)) == CleanRow(row)
  {
    ShortRowUnchanged(CleanRow(row));
  }

  /** Running the script a second time on its own output leaves the file as it is. */
  lemma CleanRowsIdempotent(rows: seq<Row>)
    ensures CleanRows(CleanRows(rows)) == CleanRows(rows)
  {
    var once := CleanRows(rows);
    forall i | 0 <= i < |rows|
      ensures CleanRows(once)[i] == once[i]
    {
      CleanRowIdempotent(rows[i]);
    }
  }

  /** Two VM names with the same last eight characters become the same name. */
  lemma SharedSuffixCollides(a: Row, b: Row)
    requires |a| >= 2 && |b| >= 2
    requires |a[1]| >= NameLength && |b[1]| >= NameLength
    requires a[1][|a[1]| - NameLength..] == b[1][|b[1]| - NameLength..]
    ensures CleanRow(a)[1] == CleanRow(b)[1]
  {
  }
}
