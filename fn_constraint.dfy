/**
 * One f(N) constraint: the record built from one row of a constraint table
 * (class fN_Constraint of xastropy/igm/fN/data.py).
 */
module FnConstraint {
  import opened FitsInput

  datatype Option<+T> = None | Some(value: T)
  datatype Result<+T, +E> = Success(value: T) | Failure(error: E)
  datatype Outcome<+E> = Pass | Fail(error: E)

  /** The exceptions the loader raises. */
  datatype Error =
    | MissingColumn(column: string)     // KeyError from looking up an absent column
    | NoRedshift                        // "No redshift info!"
    | UnknownFType                      // "Cannot figure out ftype"
    | NotMultiExtension(path: string)   // "Expecting a multi-extension fits file"

  /** The metadata columns copied into attributes and dropped from the payload. */
  const Common: seq<string> := ["REF", "COSM", "TYPE", "COMMENT"]

  /** The columns that may hold the evaluation redshift, highest priority first. */
  const RedshiftColumns: seq<string> := ["ZEVAL", "Z_LLS", "Z_MFP", "Z_TEFF"]

  /** No metadata column is listed twice. */
  lemma CommonDistinct()
    ensures Distinct(Common)
  {
  }

  /** No redshift column is a metadata column, so the payload keeps it. */
  lemma RedshiftColumnsNotCommon(i: int)
    requires 0 <= i < |RedshiftColumns|
    ensures RedshiftColumns[i] !in Common
  {
  }

  /** The first `n` metadata columns all occur in the row. */
  predicate HasCommon(row: Row, n: nat)
    requires n <= |Common|
  {
    forall i :: 0 <= i < n ==> Common[i] in row.names
  }

  /** The attribute values of a fully loaded constraint. */
  datatype Record = Record(
    dtype: string,
    zeval: Value,
    ref: Value,
    cosm: Value,
    flavor: Value,
    comment: Value,
    data: map<string, Value>)

  /** The evaluation redshift of a row: the value of the first redshift column it has. */
  function Redshift(row: Row): Result<Value, Error>
  {
    if "ZEVAL" in row.names then Success(Field(row, "ZEVAL"))
    else if "Z_LLS" in row.names then Success(Field(row, "Z_LLS"))
    else if "Z_MFP" in row.names then Success(Field(row, "Z_MFP"))
    else if "Z_TEFF" in row.names then Success(Field(row, "Z_TEFF"))
    else Failure(NoRedshift)
  }

  /** The redshift comes from the first redshift column present, in priority order. */
  lemma RedshiftFirstPresent(row: Row, i: int)
    requires FirstPresent(RedshiftColumns, row.names, i)
    ensures Redshift(row) == Success(Field(row, RedshiftColumns[i]))
  {
    assert RedshiftColumns[0] == "ZEVAL" && RedshiftColumns[1] == "Z_LLS";
    assert RedshiftColumns[2] == "Z_MFP" && RedshiftColumns[3] == "Z_TEFF";
  }

  /** A row without any redshift column has no redshift. */
  lemma RedshiftMissing(row: Row)
    ensures Redshift(row).Failure? <==> forall c :: c in RedshiftColumns ==> c !in row.names
    ensures Redshift(row).Failure? ==> Redshift(row).error == NoRedshift
  {
  }

  /** The payload of a row: every column except the metadata ones, with its value. */
  function Payload(row: Row): map<string, Value> {
    map k | k in row.names && k !in Common :: Field(row, k)
  }

  /** `d` after `d.pop(k)` for each `k` of `keys` in turn (no key is missing when this is used). */
  function PopAll(d: map<string, Value>, keys: seq<string>): map<string, Value>
    decreases |keys|
  {
    if keys == [] then d else PopAll(d - {keys[0]}, keys[1..])
  }

  /** Popping a list of keys removes exactly those keys and leaves every other entry as it was. */
  lemma {:induction false} PopAllRemoves(d: map<string, Value>, keys: seq<string>)
    ensures forall k :: k in PopAll(d, keys) <==> k in d && k !in keys
    ensures forall k :: k in PopAll(d, keys) ==> PopAll(d, keys)[k] == d[k]
    decreases |keys|
  {
    if keys != [] {
      PopAllRemoves(d - {keys[0]}, keys[1..]);
      assert forall k :: k in keys <==> k == keys[0] || k in keys[1..];
    }
  }

  /**
   * The constraint that `fN_Constraint(dtype)` followed by `from_fits_table(row)`
   * leaves behind, or the exception that stops it.
   */
  function Build(dtype: string, row: Row): Result<Record, Error>
  {
    if "REF" !in row.names then Failure(MissingColumn("REF"))
    else if "COSM" !in row.names then Failure(MissingColumn("COSM"))
    else if "TYPE" !in row.names then Failure(MissingColumn("TYPE"))
    else if "COMMENT" !in row.names then Failure(MissingColumn("COMMENT"))
    else match Redshift(row)
      case Failure(e) => Failure(e)
      case Success(z) =>
        Success(Record(dtype, z, Field(row, "REF"), Field(row, "COSM"), Field(row, "TYPE"),
                       Field(row, "COMMENT"), Payload(row)))
  }

  /** The first metadata column the row lacks is the one reported missing. */
  lemma BuildMissingColumn(dtype: string, row: Row, i: int)
    requires 0 <= i < |Common| && HasCommon(row, i) && Common[i] !in row.names
    ensures Build(dtype, row) == Failure(MissingColumn(Common[i]))
  {
    assert Common[0] == "REF" && Common[1] == "COSM" && Common[2] == "TYPE" && Common[3] == "COMMENT";
  }

  /**
   * Loading succeeds exactly when every metadata column and some redshift
   * column are present; with the metadata present, a missing redshift is the error.
   */
  lemma BuildSucceeds(dtype: string, row: Row)
    ensures Build(dtype, row).Success? <==>
      (forall c :: c in Common ==> c in row.names) && Redshift(row).Success?
    ensures (forall c :: c in Common ==> c in row.names) && Redshift(row).Failure? ==>
      Build(dtype, row) == Failure(NoRedshift)
  {
  }

  /** The tag is the one given; the metadata attributes are the row's cells, verbatim. */
  lemma BuildAttributes(dtype: string, row: Row)
    requires Build(dtype, row).Success?
    ensures Build(dtype, row).value.dtype == dtype
    ensures Build(dtype, row).value.zeval == Redshift(row).value
    ensures "REF" in row.names && Build(dtype, row).value.ref == Field(row, "REF")
    ensures "COSM" in row.names && Build(dtype, row).value.cosm == Field(row, "COSM")
    ensures "TYPE" in row.names && Build(dtype, row).value.flavor == Field(row, "TYPE")
    ensures "COMMENT" in row.names && Build(dtype, row).value.comment == Field(row, "COMMENT")
  {
  }

  /** The payload holds every non-metadata column of the row, with its value, and nothing else. */
  lemma BuildPayload(dtype: string, row: Row)
    requires Build(dtype, row).Success?
    ensures forall k :: k in Build(dtype, row).value.data <==> k in row.names && k !in Common
    ensures forall k :: k in Build(dtype, row).value.data ==> Build(dtype, row).value.data[k] == Field(row, k)
  {
  }

  /**
   * Zipping the header with the row and popping the metadata columns one by
   * one leaves exactly the payload.
   */
  lemma PoppedIsPayload(row: Row)
    ensures PopAll(ZipDict(row.names, row.values), Common) == Payload(row)
  {
    var popped := PopAll(ZipDict(row.names, row.values), Common);
    var payload := Payload(row);
    PopAllRemoves(ZipDict(row.names, row.values), Common);
    forall k | k in payload
      ensures k in popped && popped[k] == payload[k]
    {
      var i := IndexOf(row.names, k);
      ZipDictAt(row.names, row.values, i);
    }
    assert popped.Keys == payload.Keys;
  }

  /**
   * The record of a row that has every metadata column and a redshift, as
   * `from_fits_table` assembles it: the looked-up cells, the resolved redshift
   * and the zipped row with the metadata columns popped.
   */
  lemma BuildLoaded(dtype: string, row: Row)
    requires "REF" in row.names && "COSM" in row.names && "TYPE" in row.names && "COMMENT" in row.names
    requires Redshift(row).Success?
    ensures Build(dtype, row) == Success(Record(dtype, Redshift(row).value,
      Field(row, "REF"), Field(row, "COSM"), Field(row, "TYPE"), Field(row, "COMMENT"),
      PopAll(ZipDict(row.names, row.values), Common)))
  {
    PoppedIsPayload(row);
  }

  /** A row with every metadata column zips into a dictionary where each `pop` finds its key. */
  lemma ZipDictHasCommon(row: Row)
    requires forall k :: k in Common ==> k in row.names
    ensures forall k :: k in Common ==> k in ZipDict(row.names, row.values)
  {
    forall k | k in Common
      ensures k in ZipDict(row.names, row.values)
    {
      ZipDictHasKey(row.names, row.values, k);
    }
  }

  /**
   * The column that supplied the redshift stays in the payload, so the
   * redshift is stored twice: once as `zeval` and once under its column name.
   */
  lemma {:induction false} RedshiftColumnKept(dtype: string, row: Row)
    requires Build(dtype, row).Success?
    ensures exists i :: (FirstPresent(RedshiftColumns, row.names, i)
      && RedshiftColumns[i] in Build(dtype, row).value.data
      && Build(dtype, row).value.data[RedshiftColumns[i]] == Build(dtype, row).value.zeval)
  {
    var rec := Build(dtype, row).value;
    BuildSucceeds(dtype, row);
    RedshiftMissing(row);
    var k :| 0 <= k < |RedshiftColumns| && RedshiftColumns[k] in row.names;
    FirstPresentExists(RedshiftColumns, row.names, k);
    var i :| 0 <= i <= k && FirstPresent(RedshiftColumns, row.names, i);
    RedshiftColumnsNotCommon(i);
    RedshiftFirstPresent(row, i);
    BuildPayload(dtype, row);
    BuildAttributes(dtype, row);
  }

  /**
   * `d.pop(k)` for each metadata column `k` in turn. `pop` raises KeyError
   * on a missing key, so every metadata column must be a key of `d`; the
   * four names differ, so popping one never removes another.
   */
  method PopCommon(d: map<string, Value>) returns (r: map<string, Value>)
    requires forall k :: k in Common ==> k in d
    ensures r == PopAll(d, Common)
    ensures forall k :: k in r <==> k in d && k !in Common
    ensures forall k :: k in r ==> r[k] == d[k]
  {
    CommonDistinct();
    r := d;
    for i := 0 to |Common|
      invariant PopAll(r, Common[i..]) == PopAll(d, Common)
      invariant forall k :: k in Common[i..] ==> k in r
    {
      assert Common[i] in r;
      r := r - {Common[i]};
    }
    PopAllRemoves(d, Common);
  }

  /**
   * A constraint object. `cosm`, `comment` and `data` are None until
   * `FromFitsTable` sets them: the constructor does not create those attributes.
   */
  class Constraint {
    var dtype: string
    var zeval: Value
    var ref: Value
    var flavor: Value
    var cosm: Option<Value>
    var comment: Option<Value>
    var data: Option<map<string, Value>>

    constructor (dtype: string, zeval: Value := Number(0.0), ref: Value := Text(""), flavor: Value := Text(""))
      ensures this.dtype == dtype && this.zeval == zeval && this.ref == ref && this.flavor == flavor
      ensures cosm == None && comment == None && data == None
    {
      this.dtype := dtype;
      this.zeval := zeval;
      this.ref := ref;
      this.flavor := flavor;
      cosm := None;
      comment := None;
      data := None;
    }

    /** Every attribute has been set. */
    predicate Loaded()
      reads this
    {
      cosm.Some? && comment.Some? && data.Some?
    }

    /** The attribute values, once loaded. */
    function Snapshot(): Record
      reads this
      requires Loaded()
    {
      Record(dtype, zeval, ref, cosm.value, flavor, comment.value, data.value)
    }

    /**
     * Fills the attributes from one table row. The type tag is left alone.
     * When a column is missing, the attributes assigned before the failing
     * lookup keep their new values.
     */
    method FromFitsTable(row: Row) returns (o: Outcome<Error>)
      modifies this`ref, this`cosm, this`flavor, this`comment, this`zeval, this`data
      ensures dtype == old(dtype)
      ensures o == (if Build(dtype, row).Success? then Pass else Fail(Build(dtype, row).error))
      ensures o.Pass? ==> Loaded() && Snapshot() == Build(dtype, row).value
      ensures ref == (if "REF" in row.names then Field(row, "REF") else old(ref))
      ensures cosm == (if "REF" in row.names && "COSM" in row.names then Some(Field(row, "COSM")) else old(cosm))
      ensures flavor == (if "REF" in row.names && "COSM" in row.names && "TYPE" in row.names
                         then Field(row, "TYPE") else old(flavor))
      ensures comment == (if "REF" in row.names && "COSM" in row.names && "TYPE" in row.names && "COMMENT" in row.names
                          then Some(Field(row, "COMMENT")) else old(comment))
      ensures o.Fail? ==> zeval == old(zeval) && data == old(data)
    {
      if "REF" !in row.names { return Fail(MissingColumn("REF")); }
      ref := Field(row, "REF");
      if "COSM" !in row.names { return Fail(MissingColumn("COSM")); }
      cosm := Some(Field(row, "COSM"));
      if "TYPE" !in row.names { return Fail(MissingColumn("TYPE")); }
      flavor := Field(row, "TYPE");
      if "COMMENT" !in row.names { return Fail(MissingColumn("COMMENT")); }
      comment := Some(Field(row, "COMMENT"));

      o := LoadRedshiftAndData(row);
      if o.Pass? {
        BuildLoaded(dtype, row);
      }
    }

    /**
     * The rest of `from_fits_table`, once the metadata cells are copied:
     * `zeval` from the first redshift column present, then `data` as the
     * zipped row with the metadata columns popped.
     */
    method LoadRedshiftAndData(row: Row) returns (o: Outcome<Error>)
      requires forall k :: k in Common ==> k in row.names
      modifies this`zeval, this`data
      ensures o == (if Redshift(row).Success? then Pass else Fail(Redshift(row).error))
      ensures o.Pass? ==> zeval == Redshift(row).value && data == Some(PopAll(ZipDict(row.names, row.values), Common))
      ensures o.Fail? ==> zeval == old(zeval) && data == old(data)
    {
      var z := Redshift(row);
      if z.Failure? { return Fail(z.error); }
      zeval := z.value;
      ZipDictHasCommon(row);
      var popped := PopCommon(ZipDict(row.names, row.values));
      data := Some(popped);
      return Pass;
    }
  }

  /** Each constraint object, in order, is loaded and holds the matching record. */
  ghost predicate Models(cs: seq<Constraint>, recs: seq<Record>)
    reads cs
  {
    |cs| == |recs| && forall i :: 0 <= i < |cs| ==> cs[i].Loaded() && cs[i].Snapshot() == recs[i]
  }
}
