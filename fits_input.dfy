/**
 * The part of a multi-extension FITS file that the fN loader looks at, as
 * plain values. Opening the file is outside the model: an input is already
 * the list of its HDUs, each a binary table given by its column names and
 * its rows.
 */
module FitsInput {

  /** One cell of a table row. The loader never inspects a cell; it only copies it. */
  datatype Value = Text(s: string) | Number(x: real) | Vector(items: seq<Value>)

  /** No column name occurs twice (the field names of a record array are distinct). */
  predicate Distinct(names: seq<string>) {
    forall i, j :: 0 <= i < j < |names| ==> names[i] != names[j]
  }

  datatype RowData = RowData(names: seq<string>, values: seq<Value>)

  /** One row of a table: the table's column names and this row's values, aligned. */
  type Row = r: RowData | Distinct(r.names) && |r.names| == |r.values|
    witness RowData([], [])

  datatype TableData = TableData(names: seq<string>, rows: seq<seq<Value>>)

  /** One HDU: its column names and its rows, every row as wide as the header. */
  type Table = t: TableData | Distinct(t.names) && forall j :: 0 <= j < |t.rows| ==> |t.rows[j]| == |t.names|
    witness TableData([], [])

  /**
   * What the loader is handed: one opened file (its path and its HDUs, HDU 0
   * first) or a list of inputs, which may itself hold lists.
   */
  datatype Input = File(path: string, hdus: seq<Table>) | Files(items: seq<Input>)

  /** The j-th row of a table, as iterating over the table yields it. */
  function RowAt(t: Table, j: nat): Row
    requires j < |t.rows|
  {
    RowData(t.names, t.rows[j])
  }

  /** Index of column `k`: the position of its name in the header. */
  function IndexOf(names: seq<string>, k: string): (i: nat)
    requires k in names
    ensures i < |names| && names[i] == k
    ensures forall j :: 0 <= j < i ==> names[j] != k
  {
    if names[0] == k then 0 else 1 + IndexOf(names[1..], k)
  }

  /** `row[k]`: the row's value in the column named `k`. */
  function Field(row: Row, k: string): (v: Value)
    requires k in row.names
    ensures forall i :: 0 <= i < |row.names| && row.names[i] == k ==> v == row.values[i]
  {
    row.values[IndexOf(row.names, k)]
  }

  /** `dict(zip(names, values))`: later pairs overwrite earlier ones with the same key. */
  function ZipDict(names: seq<string>, values: seq<Value>): (d: map<string, Value>)
    requires |names| == |values|
    ensures forall k {:trigger k in d} :: k in d ==> k in names
  {
    if names == [] then map[]
    else
      var n := |names| - 1;
      ZipDict(names[..n], values[..n])[names[n] := values[n]]
  }

  /** Every column of the header becomes a key of the zipped dictionary. */
  lemma {:induction false} ZipDictHasKey(names: seq<string>, values: seq<Value>, k: string)
    requires |names| == |values| && k in names
    ensures k in ZipDict(names, values)
  {
    var n := |names| - 1;
    if names[n] != k {
      assert k in names[..n] by {
        var i := IndexOf(names, k);
        assert names[..n][i] == k;
      }
      ZipDictHasKey(names[..n], values[..n], k);
    }
  }

  /** With distinct names, each column's key maps to that column's value. */
  lemma {:induction false} ZipDictAt(names: seq<string>, values: seq<Value>, i: nat)
    requires |names| == |values| && Distinct(names) && i < |names|
    ensures names[i] in ZipDict(names, values) && ZipDict(names, values)[names[i]] == values[i]
  {
    var n := |names| - 1;
    if i < n {
      var prefix := names[..n];
      assert Distinct(prefix) by {
        forall a, b | 0 <= a < b < n
          ensures prefix[a] != prefix[b]
        {
          assert prefix[a] == names[a] && prefix[b] == names[b];
        }
      }
      ZipDictAt(prefix, values[..n], i);
      assert prefix[i] == names[i] && values[..n][i] == values[i];
      assert names[i] != names[n];
    }
  }

  /**
   * `cands[i]` is the first of the candidate names that occurs in `names`:
   * the branch an if/elif chain of `in` tests over `cands` takes.
   */
  predicate FirstPresent(cands: seq<string>, names: seq<string>, i: int) {
    0 <= i < |cands| && cands[i] in names && forall j :: 0 <= j < i ==> cands[j] !in names
  }

  /** When some candidate occurs in `names`, one of them is the first present one. */
  lemma {:induction false} FirstPresentExists(cands: seq<string>, names: seq<string>, k: int)
    requires 0 <= k < |cands| && cands[k] in names
    ensures exists i :: 0 <= i <= k && FirstPresent(cands, names, i)
  {
    if forall j :: 0 <= j < k ==> cands[j] !in names {
      assert FirstPresent(cands, names, k);
    } else {
      var j :| 0 <= j < k && cands[j] in names;
      FirstPresentExists(cands, names, j);
    }
  }
}
