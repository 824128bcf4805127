/**
 * Loading every f(N) constraint of one FITS file or of a list of them
 * (function fn_data_from_fits of xastropy/igm/fN/data.py).
 */
module FnData {
  import opened FitsInput
  import opened FnConstraint

  /** The kind of constraint a table holds. */
  datatype FType = FN | LLS | MFP | TEff {
    /** The tag stored in `fN_dtype`. */
    function Name(): string {
      match this
      case FN => "fN"
      case LLS => "LLS"
      case MFP => "MFP"
      case TEff => "teff"
    }
  }

  /** The marker columns that identify a table's kind, highest priority first. */
  const Markers: seq<string> := ["FN", "TAU_LIM", "MFP", "TEFF"]

  /** The kind each marker column stands for, position by position. */
  const Tags: seq<FType> := [FN, LLS, MFP, TEff]

  /** The kind of a table, from its column names. */
  function Classify(names: seq<string>): Result<FType, Error> {
    if "FN" in names then Success(FN)
    else if "TAU_LIM" in names then Success(LLS)
    else if "MFP" in names then Success(MFP)
    else if "TEFF" in names then Success(TEff)
    else Failure(UnknownFType)
  }

  /** The first marker column present decides the kind. */
  lemma ClassifyFirstPresent(names: seq<string>, i: int)
    requires FirstPresent(Markers, names, i)
    ensures Classify(names) == Success(Tags[i])
  {
    assert Markers[0] == "FN" && Markers[1] == "TAU_LIM" && Markers[2] == "MFP" && Markers[3] == "TEFF";
  }

  /** Classification fails, with the unknown-kind error, exactly when no marker column is present. */
  lemma ClassifyUnknown(names: seq<string>)
    ensures Classify(names).Failure? <==> forall m :: m in Markers ==> m !in names
    ensures Classify(names).Failure? ==> Classify(names).error == UnknownFType
  {
  }

  /**
   * What turns one row into one record: `fN_Constraint(dtype)` followed by
   * `from_fits_table(row)`, which is `Build`. The loading order is stated for
   * any such function, so the lemmas about it never look inside `Build`.
   */
  type Loader = (string, Row) -> Result<Record, Error>

  /** Appending the records of two steps, in order; the first error met wins. */
  function Join(a: Result<seq<Record>, Error>, b: Result<seq<Record>, Error>): Result<seq<Record>, Error> {
    if a.Failure? then a
    else if b.Failure? then b
    else Success(a.value + b.value)
  }

  /** Joining is associative, so the records may be accumulated from the left. */
  lemma JoinAssoc(a: Result<seq<Record>, Error>, b: Result<seq<Record>, Error>, c: Result<seq<Record>, Error>)
    ensures Join(Join(a, b), c) == Join(a, Join(b, c))
  {
    if a.Success? && b.Success? && c.Success? {
      assert (a.value + b.value) + c.value == a.value + (b.value + c.value);
    }
  }

  /** Nothing accumulated yet: joining onto the empty list changes nothing. */
  lemma JoinEmpty(b: Result<seq<Record>, Error>)
    ensures Join(Success([]), b) == b
  {
    if b.Success? {
      assert [] + b.value == b.value;
    }
  }

  /** Modelling is preserved by appending a modelled list. */
  lemma ModelsAppend(cs: seq<Constraint>, recs: seq<Record>, more: seq<Constraint>, moreRecs: seq<Record>)
    requires Models(cs, recs) && Models(more, moreRecs)
    ensures Models(cs + more, recs + moreRecs)
  {
  }

  /** Appending one loaded constraint appends its record. */
  lemma ModelsSnoc(cs: seq<Constraint>, recs: seq<Record>, c: Constraint)
    requires Models(cs, recs) && c.Loaded()
    ensures Models(cs + [c], recs + [c.Snapshot()])
  {
  }

  /** The records of one row: one, or the row's error. */
  function Single(r: Result<Record, Error>): Result<seq<Record>, Error> {
    match r
    case Success(rec) => Success([rec])
    case Failure(e) => Failure(e)
  }

  /** The records of rows `j..` of a table, all tagged `dtype`. */
  function RowsFrom(load: Loader, dtype: string, t: Table, j: nat): Result<seq<Record>, Error>
    decreases |t.rows| - j
  {
    if j >= |t.rows| then Success([])
    else Join(Single(load(dtype, RowAt(t, j))), RowsFrom(load, dtype, t, j + 1))
  }

  /** The records of one extension: classify it, then load each of its rows. */
  function ExtRecords(load: Loader, t: Table): Result<seq<Record>, Error> {
    match Classify(t.names)
    case Failure(e) => Failure(e)
    case Success(kind) => RowsFrom(load, kind.Name(), t, 0)
  }

  /** The records of extensions `e..` of a file, extension by extension. */
  function ExtsFrom(load: Loader, hdus: seq<Table>, e: nat): Result<seq<Record>, Error>
    decreases |hdus| - e
  {
    if e >= |hdus| then Success([])
    else Join(ExtRecords(load, hdus[e]), ExtsFrom(load, hdus, e + 1))
  }

  /** What loading an input yields: its constraint records in order, or the first error. */
  function Aggregate(load: Loader, input: Input): Result<seq<Record>, Error>
    decreases input
  {
    match input
    case File(path, hdus) =>
      if |hdus| == 1 then Failure(NotMultiExtension(path)) else ExtsFrom(load, hdus, 1)
    case Files(items) => ListFrom(load, items, 0)
  }

  /** The records of list entries `i..`, entry by entry. */
  function ListFrom(load: Loader, items: seq<Input>, i: nat): Result<seq<Record>, Error>
    decreases items, |items| - i
  {
    if i >= |items| then Success([])
    else Join(Aggregate(load, items[i]), ListFrom(load, items, i + 1))
  }

  /** Joining onto nothing changes nothing, on the right as on the left. */
  lemma JoinEmptyRight(a: Result<seq<Record>, Error>)
    ensures Join(a, Success([])) == a
  {
    if a.Success? {
      assert a.value + [] == a.value;
    }
  }

  /** A file with only its primary HDU is rejected with its path. */
  lemma SingleHduRejected(load: Loader, path: string, hdus: seq<Table>)
    requires |hdus| == 1
    ensures Aggregate(load, File(path, hdus)) == Failure(NotMultiExtension(path))
  {
  }

  /** An empty list of inputs loads no constraint. */
  lemma EmptyListLoadsNothing(load: Loader)
    ensures Aggregate(load, Files([])) == Success([])
  {
  }

  /** A one-entry list loads exactly what its entry loads. */
  lemma {:induction false} SingletonList(load: Loader, x: Input)
    ensures Aggregate(load, Files([x])) == Aggregate(load, x)
  {
    assert ListFrom(load, [x], 1) == Success([]);
    JoinEmptyRight(Aggregate(load, x));
  }

  /** The entries after the first `|xs|` of `xs + ys` are those of `ys`. */
  lemma {:induction false} ListFromShift(load: Loader, xs: seq<Input>, ys: seq<Input>, j: nat)
    requires j <= |ys|
    ensures ListFrom(load, xs + ys, |xs| + j) == ListFrom(load, ys, j)
    decreases |ys| - j
  {
    if j < |ys| {
      assert (xs + ys)[|xs| + j] == ys[j];
      ListFromShift(load, xs, ys, j + 1);
    }
  }

  /** Loading the entries `i..` of `xs + ys`: those of `xs`, then all of `ys`. */
  lemma {:induction false} ListFromConcat(load: Loader, xs: seq<Input>, ys: seq<Input>, i: nat)
    requires i <= |xs|
    ensures ListFrom(load, xs + ys, i) == Join(ListFrom(load, xs, i), ListFrom(load, ys, 0))
    decreases |xs| - i
  {
    if i == |xs| {
      ListFromShift(load, xs, ys, 0);
      JoinEmpty(ListFrom(load, ys, 0));
    } else {
      assert (xs + ys)[i] == xs[i];
      ListFromConcat(load, xs, ys, i + 1);
      JoinAssoc(Aggregate(load, xs[i]), ListFrom(load, xs, i + 1), ListFrom(load, ys, 0));
    }
  }

  /** A concatenated list loads the constraints of the first part, then those of the second. */
  lemma ListConcat(load: Loader, xs: seq<Input>, ys: seq<Input>)
    ensures Aggregate(load, Files(xs + ys)) == Join(Aggregate(load, Files(xs)), Aggregate(load, Files(ys)))
  {
    ListFromConcat(load, xs, ys, 0);
  }

  /** Rows `j..` of a table load exactly when each of them builds. */
  lemma {:induction false} RowsFromSucceeds(load: Loader, dtype: string, t: Table, j: nat)
    requires j <= |t.rows|
    ensures RowsFrom(load, dtype, t, j).Success? <==>
      forall k :: j <= k < |t.rows| ==> load(dtype, RowAt(t, k)).Success?
    decreases |t.rows| - j
  {
    if j < |t.rows| {
      RowsFromSucceeds(load, dtype, t, j + 1);
    }
  }

  /** Rows `j..` of a table, once loaded, give one record per row, in row order. */
  lemma {:induction false} RowsFromValues(load: Loader, dtype: string, t: Table, j: nat)
    requires j <= |t.rows| && RowsFrom(load, dtype, t, j).Success?
    ensures |RowsFrom(load, dtype, t, j).value| == |t.rows| - j
    ensures forall k :: j <= k < |t.rows| ==> load(dtype, RowAt(t, k)) == Success(RowsFrom(load, dtype, t, j).value[k - j])
    decreases |t.rows| - j
  {
    if j < |t.rows| {
      RowsFromValues(load, dtype, t, j + 1);
    }
  }

  /** The first row that fails to build decides the error of its table. */
  lemma {:induction false} RowsFromFirstError(load: Loader, dtype: string, t: Table, j: nat, k: nat)
    requires j <= k < |t.rows| && load(dtype, RowAt(t, k)).Failure?
    requires forall m :: j <= m < k ==> load(dtype, RowAt(t, m)).Success?
    ensures RowsFrom(load, dtype, t, j) == Failure(load(dtype, RowAt(t, k)).error)
    decreases k - j
  {
    if j < k {
      RowsFromFirstError(load, dtype, t, j + 1, k);
    }
  }

  /** Where a record comes from: an extension of the file and a row of it. */
  datatype Origin = Origin(ext: int, row: int)

  /** Extension-then-row order. */
  predicate Before(a: Origin, b: Origin) {
    a.ext < b.ext || (a.ext == b.ext && a.row < b.row)
  }

  /** The rows of extensions `e..`, extension by extension, each in row order. */
  function Origins(hdus: seq<Table>, e: nat): seq<Origin>
    decreases |hdus| - e
  {
    if e >= |hdus| then []
    else seq(|hdus[e].rows|, j => Origin(e, j)) + Origins(hdus, e + 1)
  }

  /** The number of rows in extensions `e..`. */
  function RowCount(hdus: seq<Table>, e: nat): nat
    decreases |hdus| - e
  {
    if e >= |hdus| then 0 else |hdus[e].rows| + RowCount(hdus, e + 1)
  }

  /**
   * The origins list every row of extensions `e..` exactly once, in
   * extension-then-row order.
   */
  lemma {:induction false} OriginsEnumerate(hdus: seq<Table>, e: nat)
    ensures |Origins(hdus, e)| == RowCount(hdus, e)
    ensures forall k :: 0 <= k < |Origins(hdus, e)| ==>
      e <= Origins(hdus, e)[k].ext < |hdus| && 0 <= Origins(hdus, e)[k].row < |hdus[Origins(hdus, e)[k].ext].rows|
    ensures forall x, j :: e <= x < |hdus| && 0 <= j < |hdus[x].rows| ==> Origin(x, j) in Origins(hdus, e)
    ensures forall a, b :: 0 <= a < b < |Origins(hdus, e)| ==> Before(Origins(hdus, e)[a], Origins(hdus, e)[b])
    decreases |hdus| - e
  {
    if e < |hdus| {
      OriginsEnumerate(hdus, e + 1);
      var here := seq(|hdus[e].rows|, j => Origin(e, j));
      var rest := Origins(hdus, e + 1);
      assert Origins(hdus, e) == here + rest;
      forall x, j | e <= x < |hdus| && 0 <= j < |hdus[x].rows|
        ensures Origin(x, j) in Origins(hdus, e)
      {
        if x == e {
          assert here[j] == Origin(x, j);
        } else {
          assert Origin(x, j) in rest;
        }
      }
    }
  }

  /** A successful extension is classified and gives one record per row, in row order. */
  lemma ExtRecordsShape(load: Loader, t: Table)
    requires ExtRecords(load, t).Success?
    ensures Classify(t.names).Success?
    ensures |ExtRecords(load, t).value| == |t.rows|
    ensures forall k :: 0 <= k < |t.rows| ==>
      load(Classify(t.names).value.Name(), RowAt(t, k)) == Success(ExtRecords(load, t).value[k])
  {
    var tag := Classify(t.names).value.Name();
    assert ExtRecords(load, t) == RowsFrom(load, tag, t, 0);
    RowsFromValues(load, tag, t, 0);
  }

  /**
   * A successful load of extensions `e..` gives one record per origin: the
   * record built from that row, tagged with its extension's kind.
   */
  lemma {:induction false} ExtsFromShape(load: Loader, hdus: seq<Table>, e: nat)
    requires ExtsFrom(load, hdus, e).Success?
    ensures |ExtsFrom(load, hdus, e).value| == |Origins(hdus, e)|
    ensures forall k :: 0 <= k < |Origins(hdus, e)| ==>
      var o := Origins(hdus, e)[k];
      && 0 <= o.ext < |hdus| && 0 <= o.row < |hdus[o.ext].rows|
      && Classify(hdus[o.ext].names).Success?
      && load(Classify(hdus[o.ext].names).value.Name(), RowAt(hdus[o.ext], o.row)) == Success(ExtsFrom(load, hdus, e).value[k])
    decreases |hdus| - e
  {
    if e < |hdus| {
      var t := hdus[e];
      var here := ExtRecords(load, t).value;
      var rest := ExtsFrom(load, hdus, e + 1).value;
      var recs := ExtsFrom(load, hdus, e).value;
      var os := Origins(hdus, e);
      var later := Origins(hdus, e + 1);
      ExtRecordsShape(load, t);
      ExtsFromShape(load, hdus, e + 1);
      assert recs == here + rest;
      assert os == seq(|t.rows|, j => Origin(e, j)) + later;
      forall k | 0 <= k < |os|
        ensures 0 <= os[k].ext < |hdus| && 0 <= os[k].row < |hdus[os[k].ext].rows|
        ensures Classify(hdus[os[k].ext].names).Success?
        ensures load(Classify(hdus[os[k].ext].names).value.Name(), RowAt(hdus[os[k].ext], os[k].row)) == Success(recs[k])
      {
        if k < |t.rows| {
          assert os[k] == Origin(e, k);
          assert recs[k] == here[k];
        } else {
          assert os[k] == later[k - |t.rows|];
          assert recs[k] == rest[k - |t.rows|];
        }
      }
    }
  }

  /**
   * An extension that no marker identifies stops the load with the
   * unknown-kind error, provided every extension before it loaded.
   */
  lemma {:induction false} FirstUnknownExtension(load: Loader, hdus: seq<Table>, e: nat, x: nat)
    requires e <= x < |hdus| && Classify(hdus[x].names).Failure?
    requires forall y :: e <= y < x ==> ExtRecords(load, hdus[y]).Success?
    ensures ExtsFrom(load, hdus, e) == Failure(UnknownFType)
    decreases x - e
  {
    ClassifyUnknown(hdus[x].names);
    if e < x {
      FirstUnknownExtension(load, hdus, e + 1, x);
    }
  }

  /**
   * Extensions `e..` load exactly when each of them is classified and every
   * row of each builds with its extension's tag.
   */
  lemma {:induction false} ExtsFromSucceeds(load: Loader, hdus: seq<Table>, e: nat)
    ensures ExtsFrom(load, hdus, e).Success? <==>
      forall x :: e <= x < |hdus| ==>
        && Classify(hdus[x].names).Success?
        && forall j :: 0 <= j < |hdus[x].rows| ==>
             load(Classify(hdus[x].names).value.Name(), RowAt(hdus[x], j)).Success?
    decreases |hdus| - e
  {
    if e < |hdus| {
      ExtsFromSucceeds(load, hdus, e + 1);
      if Classify(hdus[e].names).Success? {
        RowsFromSucceeds(load, Classify(hdus[e].names).value.Name(), hdus[e], 0);
      }
    }
  }

  /**
   * The first row that fails to build stops the load with its error,
   * provided every extension before its own loaded and its extension is
   * classified.
   */
  lemma {:induction false} ExtsFromFirstError(load: Loader, hdus: seq<Table>, e: nat, x: nat, k: nat)
    requires e <= x < |hdus| && Classify(hdus[x].names).Success?
    requires forall y :: e <= y < x ==> ExtRecords(load, hdus[y]).Success?
    requires k < |hdus[x].rows| && load(Classify(hdus[x].names).value.Name(), RowAt(hdus[x], k)).Failure?
    requires forall m :: 0 <= m < k ==> load(Classify(hdus[x].names).value.Name(), RowAt(hdus[x], m)).Success?
    ensures ExtsFrom(load, hdus, e) == Failure(load(Classify(hdus[x].names).value.Name(), RowAt(hdus[x], k)).error)
    decreases x - e
  {
    if e < x {
      ExtsFromFirstError(load, hdus, e + 1, x, k);
    } else {
      RowsFromFirstError(load, Classify(hdus[x].names).value.Name(), hdus[x], 0, k);
    }
  }

  /**
   * Loads every constraint of `input`: for a list, the constraints of each
   * entry in turn; for a file, one constraint per row of every extension
   * after the primary HDU, tagged with the kind of its extension.
   */
  method FnDataFromFits(input: Input) returns (r: Result<seq<Constraint>, Error>)
    decreases input
    ensures r.Failure? <==> Aggregate(Build, input).Failure?
    ensures r.Failure? ==> r.error == Aggregate(Build, input).error
    ensures r.Success? ==> Models(r.value, Aggregate(Build, input).value)
  {
    match input
    case Files(items) =>
      r := LoadList(items);
    case File(path, hdus) =>
      r := LoadFile(path, hdus);
  }

  /** `for x in more: acc.append(x)`. */
  method AppendAll(acc: seq<Constraint>, more: seq<Constraint>) returns (r: seq<Constraint>)
    ensures r == acc + more
  {
    r := acc;
    for k := 0 to |more|
      invariant r == acc + more[..k]
    {
      r := r + [more[k]];
    }
    assert more[..|more|] == more;
  }

  /** The list branch: load each entry in turn and append its constraints. */
  method LoadList(items: seq<Input>) returns (r: Result<seq<Constraint>, Error>)
    decreases items
    ensures r.Failure? <==> ListFrom(Build, items, 0).Failure?
    ensures r.Failure? ==> r.error == ListFrom(Build, items, 0).error
    ensures r.Success? ==> Models(r.value, ListFrom(Build, items, 0).value)
  {
    var cs: seq<Constraint> := [];
    ghost var done: seq<Record> := [];
    JoinEmpty(ListFrom(Build, items, 0));
    for i := 0 to |items|
      invariant ListFrom(Build, items, 0) == Join(Success(done), ListFrom(Build, items, i))
      invariant Models(cs, done)
    {
      var part := FnDataFromFits(items[i]);
      if part.Failure? {
        return Failure(part.error);
      }
      JoinAssoc(Success(done), Aggregate(Build, items[i]), ListFrom(Build, items, i + 1));
      ModelsAppend(cs, done, part.value, Aggregate(Build, items[i]).value);
      cs := AppendAll(cs, part.value);
      done := done + Aggregate(Build, items[i]).value;
    }
    return Success(cs);
  }

  /**
   * The file branch: reject a file without extensions, then load every row
   * of every extension after the primary HDU.
   */
  method LoadFile(path: string, hdus: seq<Table>) returns (r: Result<seq<Constraint>, Error>)
    ensures r.Failure? <==> Aggregate(Build, File(path, hdus)).Failure?
    ensures r.Failure? ==> r.error == Aggregate(Build, File(path, hdus)).error
    ensures r.Success? ==> Models(r.value, Aggregate(Build, File(path, hdus)).value)
  {
    if |hdus| == 1 {
      return Failure(NotMultiExtension(path));
    }
    var cs: seq<Constraint> := [];
    ghost var done: seq<Record> := [];
    var e := 1;
    JoinEmpty(ExtsFrom(Build, hdus, 1));
    while e < |hdus|
      invariant 1 <= e
      invariant ExtsFrom(Build, hdus, 1) == Join(Success(done), ExtsFrom(Build, hdus, e))
      invariant Models(cs, done)
      decreases |hdus| - e
    {
      var part := LoadExtension(hdus[e]);
      if part.Failure? {
        return Failure(part.error);
      }
      JoinAssoc(Success(done), ExtRecords(Build, hdus[e]), ExtsFrom(Build, hdus, e + 1));
      ModelsAppend(cs, done, part.value, ExtRecords(Build, hdus[e]).value);
      cs := cs + part.value;
      done := done + ExtRecords(Build, hdus[e]).value;
      e := e + 1;
    }
    return Success(cs);
  }

  /** `fN_Constraint(dtype)` followed by `from_fits_table(row)` on the new object. */
  method NewConstraint(dtype: string, row: Row) returns (c: Constraint, o: Outcome<Error>)
    ensures fresh(c)
    ensures o == (if Build(dtype, row).Success? then Pass else Fail(Build(dtype, row).error))
    ensures o.Pass? ==> c.Loaded() && c.Snapshot() == Build(dtype, row).value
  {
    c := new Constraint(dtype);
    o := c.FromFitsTable(row);
  }

  /** One extension: classify it, then make and fill one constraint per row. */
  method LoadExtension(t: Table) returns (r: Result<seq<Constraint>, Error>)
    ensures r.Failure? <==> ExtRecords(Build, t).Failure?
    ensures r.Failure? ==> r.error == ExtRecords(Build, t).error
    ensures r.Success? ==> Models(r.value, ExtRecords(Build, t).value)
  {
    var kind := Classify(t.names);
    if kind.Failure? {
      return Failure(kind.error);
    }
    var dtype := kind.value.Name();
    var cs: seq<Constraint> := [];
    ghost var done: seq<Record> := [];
    JoinEmpty(RowsFrom(Build, dtype, t, 0));
    for j := 0 to |t.rows|
      invariant RowsFrom(Build, dtype, t, 0) == Join(Success(done), RowsFrom(Build, dtype, t, j))
      invariant Models(cs, done)
    {
      var c, o := NewConstraint(dtype, RowAt(t, j));
      if o.Fail? {
        return Failure(o.error);
      }
      ModelsSnoc(cs, done, c);
      JoinAssoc(Success(done), Success([c.Snapshot()]), RowsFrom(Build, dtype, t, j + 1));
      cs := cs + [c];
      done := done + [c.Snapshot()];
    }
    return Success(cs);
  }
}
