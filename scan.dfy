/**
  The two result-scanning loops of the database layer
  (`mysql/mysql_helper.go`): `scanQueryOne` binds the first row of a result
  into one struct, and `scanQuery` appends one struct per row to a slice.

  A result set is a value: its column names (or the error asking for them
  gives), its rows in order, each scanned or failing to scan, and the error
  the iteration ended with, if any. The destination's shape, which the Go
  code inspects by reflection, is a datatype; a panic is a result.
 */
module Scan {
  import opened Values
  import opened Convert
  import opened Binding

  datatype Columns = ColumnsOk(names: seq<string>) | ColumnsErr(err: string)

  /** One row as `rows.Scan` sees it: the column values, or the error scanning gives. */
  datatype Row = Scanned(values: seq<Any>) | ScanFailed(err: string)

  /** A result set: `rows.ColumnTypes()`, the rows `rows.Next()` yields, and `rows.Err()` once they run out. */
  datatype Rows = Rows(columns: Columns, rows: seq<Row>, iterErr: Option<string>)

  /** Every scanned row has one value per column, as `database/sql` guarantees. */
  predicate WellFormed(rs: Rows)
  {
    rs.columns.ColumnsOk? ==>
      forall k :: 0 <= k < |rs.rows| ==> rs.rows[k].Scanned? ==> |rs.rows[k].values| == |rs.columns.names|
  }

  /** What a scan returns: nil, an error, or the panic it raised. */
  datatype ScanResult = Done | Failed(err: string) | Panicked(msg: string)

  const NoDataToBind := "mysql: no data to bind"
  const DestCanNotSet := "kelp.db.mysql: dest can not set"
  /** The panic `reflect.Value.Set` raises inside `bindData`; its exact text is not modelled. */
  const SetPanic := "reflect.Value.Set"

  /** The destination of `scanQueryOne`, as reflection classifies it. */
  datatype OneDest =
    | NilOne               // dest == nil
    | NotPointerOne        // not a pointer
    | PointerToNonStruct   // a pointer to something other than a struct
    | NilStructPointer     // a nil *Struct: its element cannot be set
    | StructTarget         // a non-nil *Struct

  /** The destination of `scanQuery`, as reflection classifies it. */
  datatype ListDest =
    | NilList              // dest == nil
    | NotPointerList       // not a pointer
    | PointerToNonSlice    // a pointer to something other than a slice
    | SliceOfNonStruct     // a slice of neither structs nor struct pointers
    | NilSlicePointer      // a nil *[]Struct: its element cannot be set
    | SliceTarget          // a non-nil *[]Struct or *[]*Struct

  // ----- scanQueryOne -----

  /** What `scanQueryOne` returns, and the struct's values after it. */
  function ScanOneSpec(dest: OneDest, fields: seq<FieldDesc>, rs: Rows, vals: seq<FieldValue>): (r: (ScanResult, seq<FieldValue>))
    requires |vals| == |fields| && WellFormed(rs)
    ensures |r.1| == |fields|
  {
    if dest == NilOne then (Done, vals)
    else if rs.rows == [] then (Failed(NoDataToBind), vals)
    else if dest == NotPointerOne then (Panicked("ptr"), vals)
    else if dest == PointerToNonStruct then (Panicked("struct"), vals)
    else if dest == NilStructPointer then (Panicked("can set"), vals)
    else match rs.columns
      case ColumnsErr(e) => (Failed(e), vals)
      case ColumnsOk(names) =>
        match rs.rows[0]
        case ScanFailed(e) => (Failed(e), vals)
        case Scanned(values) =>
          var b := BindAll(fields, names, values, vals);
          (if b.panicked then Panicked(SetPanic) else Done, b.vals)
  }

  /** `scanQueryOne(dest, rows)`, binding into the struct whose fields are `fields` and values `elem`. */
  method ScanQueryOne(dest: OneDest, fields: seq<FieldDesc>, elem: array<FieldValue>, rs: Rows) returns (r: ScanResult)
    requires elem.Length == |fields| && WellFormed(rs)
    modifies elem
    ensures (r, elem[..]) == ScanOneSpec(dest, fields, rs, old(elem[..]))
  {
    if dest == NilOne {
      return Done;
    }
    if rs.rows == [] {
      return Failed(NoDataToBind);
    }
    if dest == NotPointerOne {
      return Panicked("ptr");
    }
    if dest == PointerToNonStruct {
      return Panicked("struct");
    }
    if dest == NilStructPointer {
      return Panicked("can set");
    }
    if rs.columns.ColumnsErr? {
      return Failed(rs.columns.err);
    }
    var row := rs.rows[0];
    if row.ScanFailed? {
      return Failed(row.err);
    }
    var panicked := BindData(fields, elem, row.values, rs.columns.names);
    if panicked {
      return Panicked(SetPanic);
    }
    return Done;
  }

  // ----- scanQuery -----

  /** The loop over the rows: the elements it appends, and what it returns. */
  function ScanRows(fields: seq<FieldDesc>, names: seq<string>, rows: seq<Row>, iterErr: Option<string>): (r: (ScanResult, seq<seq<FieldValue>>))
    requires forall k :: 0 <= k < |rows| ==> rows[k].Scanned? ==> |rows[k].values| == |names|
    ensures |r.1| <= |rows|
  {
    if rows == [] then (if iterErr.Some? then Failed(iterErr.value) else Done, [])
    else match rows[0]
      case ScanFailed(e) => (Failed(e), [])
      case Scanned(values) =>
        var b := BindAll(fields, names, values, ZeroValues(fields));
        if b.panicked then (Panicked(SetPanic), [])
        else
          var rest := ScanRows(fields, names, rows[1..], iterErr);
          (rest.0, [b.vals] + rest.1)
  }

  /** The loop over the rows from row `i` on, where row `i` scans: its bound struct is appended unless binding panics. */
  lemma ScanRowsAt(fields: seq<FieldDesc>, names: seq<string>, rows: seq<Row>, iterErr: Option<string>, i: nat)
    requires forall k :: 0 <= k < |rows| ==> rows[k].Scanned? ==> |rows[k].values| == |names|
    requires i < |rows| && rows[i].Scanned?
    ensures var b := BindAll(fields, names, rows[i].values, ZeroValues(fields));
      var rest := ScanRows(fields, names, rows[i + 1..], iterErr);
      ScanRows(fields, names, rows[i..], iterErr) == if b.panicked then (Panicked(SetPanic), []) else (rest.0, [b.vals] + rest.1)
  {
    assert rows[i..][0] == rows[i] && rows[i..][1..] == rows[i + 1..];
  }

  /** What `scanQuery` returns, and the elements it appends to the slice. */
  function ScanListSpec(dest: ListDest, fields: seq<FieldDesc>, rs: Rows): (ScanResult, seq<seq<FieldValue>>)
    requires WellFormed(rs)
  {
    match dest
    case NilList => (Done, [])
    case NotPointerList => (Panicked("ptr"), [])
    case PointerToNonSlice => (Panicked("slice"), [])
    case SliceOfNonStruct => (Panicked("struct"), [])
    case NilSlicePointer => (Failed(DestCanNotSet), [])
    case SliceTarget =>
      match rs.columns
      case ColumnsErr(e) => (Failed(e), [])
      case ColumnsOk(names) => ScanRows(fields, names, rs.rows, rs.iterErr)
  }

  /** The slice a `*[]T` destination points at, which `scanQuery` grows in place. */
  class Slice {
    var elems: seq<seq<FieldValue>>

    constructor (init: seq<seq<FieldValue>>)
      ensures elems == init
    {
      elems := init;
    }
  }

  /** `scanQuery(dest, rows)`, appending structs with fields `fields` to `target`. */
  method ScanQuery(dest: ListDest, fields: seq<FieldDesc>, target: Slice, rs: Rows) returns (r: ScanResult)
    requires WellFormed(rs)
    modifies target
    ensures r == ScanListSpec(dest, fields, rs).0
    ensures target.elems == old(target.elems) + ScanListSpec(dest, fields, rs).1
  {
    if dest == NilList {
      return Done;
    }
    if dest == NotPointerList {
      return Panicked("ptr");
    }
    if dest == PointerToNonSlice {
      return Panicked("slice");
    }
    if dest == SliceOfNonStruct {
      return Panicked("struct");
    }
    if dest == NilSlicePointer {
      return Failed(DestCanNotSet);
    }
    if rs.columns.ColumnsErr? {
      return Failed(rs.columns.err);
    }
    r := AppendRows(fields, rs.columns.names, rs.rows, rs.iterErr, target);
  }

  /** `elem := reflect.New(elemType).Elem()` followed by `bindData(elem, values, columnTypes)`. */
  method BindNew(fields: seq<FieldDesc>, values: seq<Any>, names: seq<string>) returns (vals: seq<FieldValue>, panicked: bool)
    requires |names| == |values|
    ensures Bound(vals, panicked) == BindAll(fields, names, values, ZeroValues(fields))
  {
    var elem := new FieldValue[|fields|](j requires 0 <= j < |fields| => Zero(fields[j].kind));
    assert elem[..] == ZeroValues(fields);
    panicked := BindData(fields, elem, values, names);
    vals := elem[..];
  }

  /** The `for rows.Next()` loop of `scanQuery` and the `rows.Err()` check after it. */
  method AppendRows(fields: seq<FieldDesc>, names: seq<string>, rows: seq<Row>, iterErr: Option<string>, target: Slice)
    returns (r: ScanResult)
    requires forall k :: 0 <= k < |rows| ==> rows[k].Scanned? ==> |rows[k].values| == |names|
    modifies target
    ensures r == ScanRows(fields, names, rows, iterErr).0
    ensures target.elems == old(target.elems) + ScanRows(fields, names, rows, iterErr).1
  {
    ghost var full := ScanRows(fields, names, rows, iterErr);
    ghost var added: seq<seq<FieldValue>> := [];
    var i := 0;
    while i < |rows|
      invariant 0 <= i <= |rows|
      invariant target.elems == old(target.elems) + added
      invariant full.0 == ScanRows(fields, names, rows[i..], iterErr).0
      invariant full.1 == added + ScanRows(fields, names, rows[i..], iterErr).1
    {
      var row := rows[i];
      if row.ScanFailed? {
        assert rows[i..][0] == row;
        return Failed(row.err);
      }
      var vals, panicked := BindNew(fields, row.values, names);
      ScanRowsAt(fields, names, rows, iterErr, i);
      if panicked {
        return Panicked(SetPanic);
      }
      target.elems := target.elems + [vals];
      added := added + [vals];
      i := i + 1;
    }
    if iterErr.Some? {
      return Failed(iterErr.value);
    }
    return Done;
  }

  // ----- what scanning promises -----

  /** A nil destination is accepted at once, whatever the rows; with no rows any other one gets `NO_DATA_TO_BIND`, before its shape is checked. */
  lemma ScanOneOrder(dest: OneDest, fields: seq<FieldDesc>, rs: Rows, vals: seq<FieldValue>)
    requires |vals| == |fields| && WellFormed(rs)
    ensures dest == NilOne ==> ScanOneSpec(dest, fields, rs, vals) == (Done, vals)
    ensures dest != NilOne && rs.rows == [] ==> ScanOneSpec(dest, fields, rs, vals) == (Failed(NoDataToBind), vals)
    ensures dest == StructTarget && rs.rows != [] && rs.columns.ColumnsOk? && rs.rows[0].Scanned? ==>
      var b := BindAll(fields, rs.columns.names, rs.rows[0].values, vals);
      ScanOneSpec(dest, fields, rs, vals) == (if b.panicked then Panicked(SetPanic) else Done, b.vals)
  {
  }

  /**
    The slice gains one element per row, in row order, each the row bound
    into a zero struct, up to the first row that fails to scan or whose
    binding panics; that row's error or the panic is returned, and with
    neither, the iteration's error or nil.
   */
  lemma {:induction false} ScanRowsSpec(fields: seq<FieldDesc>, names: seq<string>, rows: seq<Row>, iterErr: Option<string>)
    requires forall k :: 0 <= k < |rows| ==> rows[k].Scanned? ==> |rows[k].values| == |names|
    ensures var (r, added) := ScanRows(fields, names, rows, iterErr);
      && (forall k :: 0 <= k < |added| ==>
            && rows[k].Scanned?
            && !BindAll(fields, names, rows[k].values, ZeroValues(fields)).panicked
            && added[k] == BindAll(fields, names, rows[k].values, ZeroValues(fields)).vals)
      && (|added| < |rows| ==>
            || (rows[|added|].ScanFailed? && r == Failed(rows[|added|].err))
            || (rows[|added|].Scanned? && BindAll(fields, names, rows[|added|].values, ZeroValues(fields)).panicked
                && r == Panicked(SetPanic)))
      && (|added| == |rows| ==> r == if iterErr.Some? then Failed(iterErr.value) else Done)
  {
    if rows != [] && rows[0].Scanned? && !BindAll(fields, names, rows[0].values, ZeroValues(fields)).panicked {
      ScanRowsSpec(fields, names, rows[1..], iterErr);
    }
  }

  /** When every row scans, the slice gains exactly one element per row exactly when no row's binding panics. */
  lemma OnePerRow(fields: seq<FieldDesc>, names: seq<string>, rows: seq<Row>, iterErr: Option<string>)
    requires forall k :: 0 <= k < |rows| ==> rows[k].Scanned? && |rows[k].values| == |names|
    ensures |ScanRows(fields, names, rows, iterErr).1| == |rows| <==>
      forall k :: 0 <= k < |rows| ==> !BindAll(fields, names, rows[k].values, ZeroValues(fields)).panicked
  {
    ScanRowsSpec(fields, names, rows, iterErr);
  }

  /** A destination that cannot be set is reported as an error, not a panic, and nothing is appended. */
  lemma UnsettableListIsError(fields: seq<FieldDesc>, rs: Rows)
    requires WellFormed(rs)
    ensures ScanListSpec(NilSlicePointer, fields, rs) == (Failed(DestCanNotSet), [])
    ensures ScanListSpec(NilList, fields, rs) == (Done, [])
  {
  }
}
