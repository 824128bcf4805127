# f(N) constraint loader — a Dafny model

This project models the loader for f(N) constraints in `xastropy/igm/fN/data.py`. It reads the
constraints on the H I column-density distribution f(N) from multi-extension FITS files. Each data
extension holds one kind of constraint, and the kind is recognised by a marker column:

- `FN` gives the tag `fN`;
- otherwise `TAU_LIM` gives `LLS`;
- otherwise `MFP` gives `MFP`;
- otherwise `TEFF` gives `teff`.

Every row of such an extension becomes one `fN_Constraint` object, in the following way:

- `REF`, `COSM`, `TYPE` and `COMMENT` are copied into `ref`, `cosm`, `flavor` and `comment`.
- The evaluation redshift `zeval` comes from the first of `ZEVAL`, `Z_LLS`, `Z_MFP` and `Z_TEFF`
  that the row has.
- `data` is the row zipped into a dictionary, with the four metadata columns popped out of it.

`fn_data_from_fits` does the following:

- It rejects a file that has only its primary HDU.
- It loads the extensions of a file in order, and the rows of each extension in order.
- Given a list, it loads each entry in turn and concatenates the results.
- The first error stops everything.

The model has three modules:

- `FitsInput` (`fits_input.dfy`) covers what the loader sees of an opened FITS file:
  - column names, rows and cells;
  - a file as its list of HDUs, or a list of inputs;
  - `row[k]` lookups and `dict(zip(names, row))`.
- `FnConstraint` (`fn_constraint.dfy`) covers the `fN_Constraint` class:
  - `Constraint` is a Dafny class with the same attributes;
  - its `FromFitsTable` method updates them in place, in the source's order;
  - `FromFitsTable` is specified by the pure function `Build`, which gives the record a
    successful load leaves behind or the exception it raises;
  - `Redshift` is the `zeval` chain.
- `FnData` (`fn_data.dfy`) covers `fn_data_from_fits`:
  - `Classify` is the kind chain;
  - `Aggregate` specifies the result, as right folds over list entries (`ListFrom`), extensions
    (`ExtsFrom`) and rows (`RowsFrom`);
  - the method `FnDataFromFits` and its three branches `LoadList`, `LoadFile` and
    `LoadExtension` are the loops of the source.

  The spec functions take the per-row loader as a parameter of type `Loader`, and the methods pass
  `Build`. This keeps the ordering lemmas independent of how a single row is built.

Python exceptions become `Failure` values with these errors:

- `KeyError` for an absent column becomes `MissingColumn`;
- "No redshift info" becomes `NoRedshift`;
- "Cannot figure out ftype" becomes `UnknownFType`;
- "Expecting a multi-extension fits file" becomes `NotMultiExtension`.

Behaviours of the code worth noting:

- **The redshift column stays in `data`.** The pop loop at `xastropy/igm/fN/data.py:74` carries the
  comment "No need to duplicate", but it pops only the four metadata columns. The column that
  supplied `zeval` is kept, so the redshift is stored twice. The marker column (`FN`, `TEFF`, ...)
  is kept as well.
  `RedshiftColumnKept` proves this.
- **The multi-extension check is `len(hdus) == 1`.** The message at `xastropy/igm/fN/data.py:112`
  asks for a multi-extension file, but a file with no HDU at all passes the check. `hdus[1:]` is then
  empty, and the file contributes no constraint.
- **Objects are filled in place.** A `from_fits_table` that stops at a missing column has already
  assigned the attributes before it. `FromFitsTable` states exactly which ones.
- **The file is never closed.** Nothing after `fits.open` at `xastropy/igm/fN/data.py:110` releases it.

## Model

| member | source | states |
|---|---|---|
| FitsInput.Field | xastropy/igm/fN/data.py:59-62 | `row[k]` is the cell of the row in the column named `k`. Partner: the positional reading of a column in its own ensures, which `ZipDictAt` relates to `ZipDict`. |
| FitsInput.ZipDict | xastropy/igm/fN/data.py:73 | `dict(zip(names, row))` has no key outside the column names. Partner: `ZipDictHasKey` and `ZipDictAt`. |
| FitsInput.ZipDictHasKey | xastropy/igm/fN/data.py:73 | every column name is a key of the zipped dictionary. Partner of `ZipDict`, with `ZipDictAt`. |
| FitsInput.ZipDictAt | xastropy/igm/fN/data.py:73 | with distinct column names, each column's key maps to that column's cell. Partner of `ZipDict`, against the reference lookup `Field`. |
| FitsInput.FirstPresentExists | xastropy/igm/fN/data.py:65-68 | if any candidate of an if/elif chain of `in` tests is present, a first present one exists and its branch is taken. Partner of both if/elif chains, together with `RedshiftFirstPresent` and `ClassifyFirstPresent`. |
| FnConstraint.CommonDistinct | xastropy/igm/fN/data.py:58 | the four metadata columns are distinct. Used by `PopCommon`'s loop invariant. |
| FnConstraint.RedshiftColumnsNotCommon | xastropy/igm/fN/data.py:58-68 | no redshift column is a metadata column, so popping the metadata never removes it. Used by `RedshiftColumnKept`. |
| FnConstraint.RedshiftFirstPresent | xastropy/igm/fN/data.py:65-68 | `zeval` is the value of the first present of ZEVAL, Z_LLS, Z_MFP, Z_TEFF, whatever the later ones hold. Partner of `Redshift`: the first-match reference `FirstPresent` over `RedshiftColumns`. With `RedshiftMissing`, it covers every row. |
| FnConstraint.RedshiftMissing | xastropy/igm/fN/data.py:65-70 | the redshift fails exactly when none of the four columns is present, and the error is "No redshift info". Partner of `Redshift`, with `RedshiftFirstPresent`. |
| FnConstraint.PopAllRemoves | xastropy/igm/fN/data.py:74 | popping a list of keys removes exactly those keys and leaves every other entry unchanged. Partner of `PopAll`: its set-difference meaning. Used by `PopCommon` and `PoppedIsPayload`. |
| FnConstraint.BuildMissingColumn | xastropy/igm/fN/data.py:59-62 | the first metadata column, in REF, COSM, TYPE, COMMENT order, that the row lacks is the one reported missing. Partner of `Build`'s lookup chain, with `HasCommon` as the reference. With `BuildSucceeds`, it covers every error. |
| FnConstraint.BuildSucceeds | xastropy/igm/fN/data.py:56-74 | loading a row succeeds iff all four metadata columns and some redshift column are present; with the metadata present, the only error is the missing redshift. Partner of `Build`: its success condition, stated over `Common` and `Redshift`. |
| FnConstraint.BuildAttributes | xastropy/igm/fN/data.py:49-68 | a loaded record keeps the given tag, its zeval is the resolved redshift, and ref/cosm/flavor/comment are the REF/COSM/TYPE/COMMENT cells verbatim. Partner of `Build`: the metadata copy, stated against `Field`. |
| FnConstraint.BuildPayload | xastropy/igm/fN/data.py:73-74 | the payload's keys are exactly the row's non-metadata columns, each with its cell. Partner of `Build`: the payload, stated against `Field` and `Common`. |
| FnConstraint.PoppedIsPayload | xastropy/igm/fN/data.py:73-74 | zipping the row and popping REF, COSM, TYPE, COMMENT in turn yields exactly the payload. Ties the zip-and-pop to the independent `Payload` map. |
| FnConstraint.BuildLoaded | xastropy/igm/fN/data.py:59-74 | a row with all four metadata columns and a redshift loads into the looked-up cells, the resolved redshift and the zipped row with REF, COSM, TYPE, COMMENT popped. Ties the steps of `from_fits_table` to `Build`. Used by `FromFitsTable`. |
| FnConstraint.ZipDictHasCommon | xastropy/igm/fN/data.py:73-74 | a row with all four metadata columns zips into a dictionary that has each of them as a key, so every `pop` finds its key. Discharges `PopCommon`'s precondition, from `ZipDictHasKey`. |
| FnConstraint.PopCommon | xastropy/igm/fN/data.py:74 | given a dictionary holding every metadata column, popping them one at a time (each pop finds its key, as the four names differ) gives `PopAll` of them: exactly the other keys remain, each with its value unchanged. Proved against `PopAll`, whose meaning is `PopAllRemoves`. |
| FnConstraint.RedshiftColumnKept | xastropy/igm/fN/data.py:65-74 | the column that supplied `zeval` remains in `data` with the same value. Relates `Build`'s `zeval` to its `data`, via `RedshiftFirstPresent` and `BuildPayload`. |
| FnConstraint.Constraint.constructor | xastropy/igm/fN/data.py:49-53 | the tag, zeval, ref and flavor are the arguments (defaults 0.0, '', ''); cosm, comment and data are not yet set. Partner: the state `NewConstraint` passes to `FromFitsTable`. |
| FnConstraint.Constraint.LoadRedshiftAndData | xastropy/igm/fN/data.py:64-74 | with the metadata copied, the `zeval` chain either fails with its error and leaves `zeval` and `data` unchanged, or sets `zeval` to the resolved redshift and `data` to the zipped row with the metadata popped. Proved against `Redshift`, `ZipDict` and `PopAll`. `BuildLoaded` combines these into `Build`. |
| FnConstraint.Constraint.FromFitsTable | xastropy/igm/fN/data.py:56-74 | the tag is unchanged; the outcome and, on success, the whole new state are those of `Build`; on failure the attributes assigned before the failing lookup hold their new values and the rest are unchanged. Proved against `Build`, via `BuildLoaded`. `Build`'s own properties are `BuildSucceeds`, `BuildMissingColumn`, `BuildAttributes` and `BuildPayload`. |
| FnData.ClassifyFirstPresent | xastropy/igm/fN/data.py:119-122 | the first present marker of FN, TAU_LIM, MFP, TEFF decides the kind fN, LLS, MFP, teff. Partner of `Classify`: the first-match reference `FirstPresent` over `Markers`. With `ClassifyUnknown`, it covers every header. |
| FnData.ClassifyUnknown | xastropy/igm/fN/data.py:119-124 | classification fails, with "Cannot figure out ftype", exactly when no marker column is present. Partner of `Classify`, with `ClassifyFirstPresent`. |
| FnData.SingleHduRejected | xastropy/igm/fN/data.py:110-112 | a file with exactly one HDU is rejected with its path. Partner of `Aggregate`'s file branch. |
| FnData.EmptyListLoadsNothing | xastropy/igm/fN/data.py:101-107 | an empty list of inputs loads an empty list. Partner of `Aggregate`'s list branch: the unit of `ListConcat`. |
| FnData.SingletonList | xastropy/igm/fN/data.py:104-107 | a one-entry list loads exactly what its entry loads. Partner of `Aggregate`'s list branch, with `ListConcat`. |
| FnData.ListFromConcat | xastropy/igm/fN/data.py:104-107 | loading entries `i..` of `xs + ys` joins those of `xs` with all of `ys`. Partner of `ListFrom`. Used by `ListConcat`. |
| FnData.ListConcat | xastropy/igm/fN/data.py:104-107 | a list `xs + ys` loads the constraints of `xs` followed by those of `ys`, and fails with the first error met. Partner of `Aggregate`: the list branch turns concatenation of inputs into `Join` of results. |
| FnData.RowsFromSucceeds | xastropy/igm/fN/data.py:127-130 | the rows of an extension load iff every row loads. Partner of `RowsFrom`. |
| FnData.RowsFromValues | xastropy/igm/fN/data.py:127-130 | a loaded extension gives one record per row, in row order, each the record of its row. Partner of `RowsFrom`. |
| FnData.RowsFromFirstError | xastropy/igm/fN/data.py:127-130 | the first row that fails decides the error of its extension. Partner of `RowsFrom`. |
| FnData.OriginsEnumerate | xastropy/igm/fN/data.py:116-127 | the (extension, row) positions from extension `e` on are listed once each, in strictly increasing extension-then-row order, and there are as many as rows. The reference enumeration that `ExtsFromShape` is stated against. |
| FnData.ExtRecordsShape | xastropy/igm/fN/data.py:117-130 | a loaded extension is classified and gives one record per row, tagged with its kind. Partner of `ExtRecords`, from `RowsFromValues`. |
| FnData.ExtsFromShape | xastropy/igm/fN/data.py:115-130 | a loaded file gives one record per (extension, row) position, in that order, each built from its row with its extension's tag. Partner of `ExtsFrom`, stated against the reference enumeration `Origins` (see `OriginsEnumerate`). |
| FnData.ExtsFromSucceeds | xastropy/igm/fN/data.py:115-130 | extensions `e..` load iff every one of them is classified and every row of each builds with its extension's tag. Partner of `ExtsFrom`, from `RowsFromSucceeds`. |
| FnData.ExtsFromFirstError | xastropy/igm/fN/data.py:115-130 | the first failing row, in extension-then-row order, stops the load with its own error. Partner of `ExtsFrom`, from `RowsFromFirstError`. |
| FnData.FirstUnknownExtension | xastropy/igm/fN/data.py:116-124 | an unclassifiable extension after extensions that all loaded stops the load with "Cannot figure out ftype". Partner of `ExtsFrom`, with `ClassifyUnknown`. |
| FnData.FnDataFromFits | xastropy/igm/fN/data.py:86-133 | fails iff `Aggregate` fails, with the same error; on success the returned objects, in order, hold exactly `Aggregate`'s records. Proved against `Aggregate`, whose properties are `ListConcat`, `SingleHduRejected`, `ExtsFromShape`, `ExtsFromSucceeds` and `ExtsFromFirstError`. |
| FnData.LoadList | xastropy/igm/fN/data.py:104-107 | the list branch: results and errors of `ListFrom` over the entries, objects holding its records. Proved against `ListFrom`, which `ListFromConcat` relates to concatenation. |
| FnData.AppendAll | xastropy/igm/fN/data.py:107 | appending each element in turn gives the concatenation. Proved against sequence concatenation `acc + more`. |
| FnData.LoadFile | xastropy/igm/fN/data.py:109-130 | the file branch: the single-HDU error, then the records of every extension after the primary HDU. Proved against `Aggregate` for a file. See `ExtsFromShape` and `ExtsFromSucceeds`. |
| FnData.LoadExtension | xastropy/igm/fN/data.py:117-130 | one extension: its classification error, or one loaded object per row holding that row's record. Proved against `ExtRecords`. See `ExtRecordsShape`. |
| FnData.NewConstraint | xastropy/igm/fN/data.py:128-129 | a new object loaded from one row has the outcome of `Build` and, on success, holds its record. Proved against `Build`, through `FromFitsTable`. |

## Left out

- Opening the file (`fits.open`) is outside the model. An input is given directly as its list of
  HDUs, each a table of column names and rows. Every HDU is taken to be a table, so the
  `AttributeError` of an extension without table data is not modelled.
- The file is never closed, so no resource release is modelled.
- Cells are opaque values. Numeric formats, array columns and the float default of `zeval` appear
  only as `Value`s.
- Column names are matched exactly. Astropy's case-insensitive field lookup for `row[k]` is not
  modelled.
- Only a Python list counts as a list of inputs. A tuple or another iterable would be taken as a
  path by the source; the model's `Input` type separates the two cases itself.
- `__repr__` is left out: it is output formatting with `%g`.
- The `__main__` block is left out: it covers plotting, environment variables and printing.
- The imports of `xdebug`, `abs_line` and `voigt` are unused. `numpy` and `os` serve only the `__main__`
  block, so they are left out with it.
- The `beta` tag named in the class documentation is never produced by the code, so it has no
  constructor in `FType`.
- FnData.FnDataFromFits: does not state that the returned objects are newly allocated. It does
  state what each one holds.
- FnData.LoadFile: collects the objects of one extension and then appends them, where the source
  appends each one as it is made. No difference can be observed, because an error abandons the
  whole list.
- FnConstraint.PopCommon: requires every metadata column to be a key, so the `KeyError` of `pop` on
  a missing key is excluded, not modelled. Given exact column matching, it cannot occur in
  `from_fits_table`, because the lookups at lines 59-62 have already found all four columns.
