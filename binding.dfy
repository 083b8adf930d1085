/**
  `bindData` of the database layer (`mysql/mysql_helper.go`): copies the
  values of one scanned row into the fields of a struct, matching each
  column's name against each field's resolved name and converting the value
  by the field's kind. `reflect.Value.Set` panics when the converted value
  cannot be stored in the field; binding then stops where it is.

  A struct is its list of field descriptors, as `reflect` describes them,
  beside an array holding the field values, which `BindData` updates in
  place. `BindAll` is what binding a whole row does to the values.
 */
module Binding {
  import opened Values
  import opened Strings
  import opened Strconv
  import opened Convert

  /** The kinds `bindData` tells apart; `KStruct` carries the struct type's name. */
  datatype FieldKind = KInt | KInt64 | KFloat64 | KString | KBool | KStruct(typeName: string) | KOther

  /**
    A struct field: its Go name, its tags by key, its kind, whether `reflect`
    may set it (exported), and whether its type is a named type of that kind
    (`time.Duration`, `type Status int`) rather than the predeclared one.
   */
  datatype FieldDesc = FieldDesc(name: string, tags: map<string, string>, kind: FieldKind, settable: bool, named: bool)

  /**
    A field's value. Float and time conversions are not computed: such a
    field records the column value it was converted from.
   */
  datatype FieldValue =
    | VInt(i: int)
    | VInt64(i64: int)
    | VString(s: string)
    | VBool(b: bool)
    | VFloatOf(floatSource: Any)   // ToFloat(col)
    | VTimeOf(timeSource: Any)     // ToTime(col)
    | VAny(raw: Any)               // col itself, for every other kind
    | VZero                        // the zero value of a float, struct or other field

  /** The zero value of a field of each kind, as `reflect.New` leaves it. */
  function Zero(kind: FieldKind): FieldValue
  {
    match kind
    case KInt => VInt(0)
    case KInt64 => VInt64(0)
    case KString => VString("")
    case KBool => VBool(false)
    case _ => VZero
  }

  function ZeroValues(fields: seq<FieldDesc>): (vals: seq<FieldValue>)
    ensures |vals| == |fields|
    ensures forall j :: 0 <= j < |fields| ==> vals[j] == Zero(fields[j].kind)
  {
    seq(|fields|, j requires 0 <= j < |fields| => Zero(fields[j].kind))
  }

  /**
    The column name a field answers to: its `column` tag if present, else
    the part of its `json` tag before the first comma if present, else its
    Go name in lower case.
   */
  function ResolveName(f: FieldDesc): string
  {
    if "column" in f.tags then f.tags["column"]
    else if "json" in f.tags then FirstField(f.tags["json"], ',')
    else LowerAscii(f.name)
  }

  /** A column named `key` is assigned to field `f` when the names match and the field can be set. */
  predicate Matches(f: FieldDesc, key: string)
  {
    key == ResolveName(f) && f.settable
  }

  /** The value a matching field takes from the column value `col`; `cur` is what it held before. */
  function Assign(f: FieldDesc, col: Any, cur: FieldValue): FieldValue
  {
    match f.kind
    case KInt => VInt(ToInt(col))
    case KInt64 => VInt64(ToInt64(col))
    case KFloat64 => VFloatOf(col)
    case KString => VString(ToString(col))
    case KBool => VBool(ToBool(col))
    case KStruct(t) => if t == "Time" then VTimeOf(col) else cur
    case KOther => VAny(col)
  }

  /**
    Whether `eleField.Set(...)` panics for field `f` and column value `col`:
    a value of a predeclared type is not assignable to a field of a named
    type, and a NULL column reaches the default case as the untyped nil,
    whose `reflect.ValueOf` is the zero `Value` that `Set` refuses. A struct
    field other than `time.Time` is never set.
   */
  predicate SetPanics(f: FieldDesc, col: Any)
  {
    match f.kind
    case KStruct(_) => false
    case KOther => col == GoNil
    case _ => f.named
  }

  /** The first field from `from` on whose `Set` panics for the column `key` with value `col`, or `|fields|`. */
  function PanicAt(fields: seq<FieldDesc>, key: string, col: Any, from: nat): (p: nat)
    requires from <= |fields|
    ensures from <= p <= |fields|
    ensures p < |fields| ==> Matches(fields[p], key) && SetPanics(fields[p], col)
    ensures forall j :: from <= j < p ==> !(Matches(fields[j], key) && SetPanics(fields[j], col))
    decreases |fields| - from
  {
    if from == |fields| then from
    else if Matches(fields[from], key) && SetPanics(fields[from], col) then from
    else PanicAt(fields, key, col, from + 1)
  }

  /** Field values after binding, and whether binding panicked on the way. */
  datatype Bound = Bound(vals: seq<FieldValue>, panicked: bool)

  /**
    One column of the row applied to every field in order; a panicking
    `Set` stops it, with the fields before that one already assigned.
   */
  function BindColumn(fields: seq<FieldDesc>, key: string, col: Any, vals: seq<FieldValue>): (r: Bound)
    requires |vals| == |fields|
    ensures |r.vals| == |fields|
    ensures r.panicked <==> exists j :: 0 <= j < |fields| && Matches(fields[j], key) && SetPanics(fields[j], col)
    ensures !r.panicked ==>
      forall j :: 0 <= j < |fields| ==> r.vals[j] == if Matches(fields[j], key) then Assign(fields[j], col, vals[j]) else vals[j]
  {
    var p := PanicAt(fields, key, col, 0);
    Bound(seq(|fields|, j requires 0 <= j < |fields| =>
            if j < p && Matches(fields[j], key) then Assign(fields[j], col, vals[j]) else vals[j]),
          p < |fields|)
  }

  /** The columns of the row applied in order, starting from the values `vals`, up to a panic. */
  function BindAll(fields: seq<FieldDesc>, names: seq<string>, values: seq<Any>, vals: seq<FieldValue>): (r: Bound)
    requires |names| == |values| && |vals| == |fields|
    ensures |r.vals| == |fields|
  {
    if values == [] then Bound(vals, false)
    else
      var n := |values| - 1;
      var prev := BindAll(fields, names[..n], values[..n], vals);
      if prev.panicked then prev else BindColumn(fields, names[n], values[n], prev.vals)
  }

  /** `bindData(elem, values, columnTypes)`, the column names given as `names`; `panicked` when a `Set` panics. */
  method BindData(fields: seq<FieldDesc>, elem: array<FieldValue>, values: seq<Any>, names: seq<string>) returns (panicked: bool)
    requires elem.Length == |fields| && |names| == |values|
    modifies elem
    ensures Bound(elem[..], panicked) == BindAll(fields, names, values, old(elem[..]))
  {
    for i := 0 to |values|
      invariant Bound(elem[..], false) == BindAll(fields, names[..i], values[..i], old(elem[..]))
    {
      var key := names[i];
      var col := values[i];
      ghost var before := elem[..];
      ghost var p := PanicAt(fields, key, col, 0);
      assert names[..i + 1][..i] == names[..i] && values[..i + 1][..i] == values[..i];
      for j := 0 to elem.Length
        invariant j <= p
        invariant forall k :: 0 <= k < j ==> elem[k] == BindColumn(fields, key, col, before).vals[k]
        invariant forall k :: j <= k < elem.Length ==> elem[k] == before[k]
      {
        var field := fields[j];
        var fieldName: string;
        if "column" in field.tags {
          fieldName := field.tags["column"];
        } else if "json" in field.tags {
          fieldName := FirstField(field.tags["json"], ',');
        } else {
          fieldName := LowerAscii(field.name);
        }
        if key == fieldName && field.settable {
          if SetPanics(field, col) {
            assert elem[..] == BindColumn(fields, key, col, before).vals;
            PanicSticks(fields, names, values, old(elem[..]), i + 1);
            return true;
          }
          elem[j] := Assign(field, col, elem[j]);
        }
      }
      assert elem[..] == BindColumn(fields, key, col, before).vals;
    }
    assert names[..|values|] == names && values[..|values|] == values;
    return false;
  }

  // ----- what binding promises -----

  /**
    The column tag wins over the json tag, which wins over the lowered Go
    name; a json name never holds a comma (`,omitempty` alone names the
    field ""), and a lowered name holds no upper-case ASCII letter.
   */
  lemma ResolveNameSpec(f: FieldDesc)
    ensures "column" in f.tags ==> ResolveName(f) == f.tags["column"]
    ensures "column" !in f.tags && "json" in f.tags ==>
      ResolveName(f) <= f.tags["json"] && ',' !in ResolveName(f)
    ensures "column" !in f.tags && "json" in f.tags && |f.tags["json"]| > 0 && f.tags["json"][0] == ',' ==>
      ResolveName(f) == ""
    ensures "column" !in f.tags && "json" !in f.tags ==>
      |ResolveName(f)| == |f.name| && forall i :: 0 <= i < |f.name| ==> !IsUpperAscii(ResolveName(f)[i])
  {
    LowerAsciiSpec(f.name);
  }

  /** Assigning twice to a field leaves what the second assignment gives. */
  lemma AssignOverwrites(f: FieldDesc, c1: Any, c2: Any, cur: FieldValue)
    ensures Assign(f, c2, Assign(f, c1, cur)) == Assign(f, c2, cur)
  {
  }

  /** The last column of `names` called `key`, or -1 when none is. */
  function LastIndexOf(names: seq<string>, key: string): (r: int)
    ensures -1 <= r < |names|
    ensures r >= 0 ==> names[r] == key
    ensures forall k :: r < k < |names| ==> names[k] != key
  {
    if names == [] then -1
    else if names[|names| - 1] == key then |names| - 1
    else LastIndexOf(names[..|names| - 1], key)
  }

  /**
    When no `Set` panics, each field ends up with the value of the LAST
    column whose name matches it, converted by its kind; a field no column
    matches, or one that cannot be set, keeps its value.
   */
  lemma {:induction false} BindAllField(fields: seq<FieldDesc>, names: seq<string>, values: seq<Any>, vals: seq<FieldValue>, j: nat)
    requires |names| == |values| && |vals| == |fields| && j < |fields|
    ensures var last := LastIndexOf(names, ResolveName(fields[j]));
      var r := BindAll(fields, names, values, vals);
      !r.panicked ==>
        r.vals[j] == if last < 0 || !fields[j].settable then vals[j] else Assign(fields[j], values[last], vals[j])
  {
    if values != [] {
      var n := |values| - 1;
      BindAllField(fields, names[..n], values[..n], vals, j);
      var prev := BindAll(fields, names[..n], values[..n], vals).vals;
      var last := LastIndexOf(names[..n], ResolveName(fields[j]));
      if last >= 0 && fields[j].settable {
        AssignOverwrites(fields[j], values[..n][last], values[n], vals[j]);
      }
    }
  }

  /** A panic ends binding: the columns after it change nothing. */
  lemma {:induction false} PanicSticks(fields: seq<FieldDesc>, names: seq<string>, values: seq<Any>, vals: seq<FieldValue>, m: nat)
    requires |names| == |values| && |vals| == |fields| && m <= |values|
    requires BindAll(fields, names[..m], values[..m], vals).panicked
    ensures BindAll(fields, names, values, vals) == BindAll(fields, names[..m], values[..m], vals)
    decreases |values|
  {
    if m < |values| {
      var n := |values| - 1;
      assert names[..n][..m] == names[..m] && values[..n][..m] == values[..m];
      PanicSticks(fields, names[..n], values[..n], vals, m);
    } else {
      assert names[..m] == names && values[..m] == values;
    }
  }

  /** The column `key` with value `col` matches a settable field whose `Set` panics for it. */
  ghost predicate ColumnSetPanics(fields: seq<FieldDesc>, key: string, col: Any)
  {
    exists j :: 0 <= j < |fields| && Matches(fields[j], key) && SetPanics(fields[j], col)
  }

  /** Some column of the row matches a settable field whose `Set` panics for that column's value. */
  ghost predicate SomeSetPanics(fields: seq<FieldDesc>, names: seq<string>, values: seq<Any>)
    requires |names| == |values|
  {
    exists i :: 0 <= i < |values| && ColumnSetPanics(fields, names[i], values[i])
  }

  /** Binding panics exactly when some column matches a settable field whose `Set` panics for that column's value. */
  lemma {:induction false} BindPanics(fields: seq<FieldDesc>, names: seq<string>, values: seq<Any>, vals: seq<FieldValue>)
    requires |names| == |values| && |vals| == |fields|
    ensures BindAll(fields, names, values, vals).panicked <==> SomeSetPanics(fields, names, values)
  {
    if values != [] {
      var n := |values| - 1;
      BindPanics(fields, names[..n], values[..n], vals);
      SomeSetPanicsSplit(fields, names, values);
    }
  }

  /** A panicking column lies before the last one, or is the last one. */
  lemma SomeSetPanicsSplit(fields: seq<FieldDesc>, names: seq<string>, values: seq<Any>)
    requires |names| == |values| && |values| > 0
    ensures var n := |values| - 1;
      SomeSetPanics(fields, names, values) <==>
        SomeSetPanics(fields, names[..n], values[..n]) || ColumnSetPanics(fields, names[n], values[n])
  {
    var n := |values| - 1;
    if SomeSetPanics(fields, names[..n], values[..n]) {
      var i :| 0 <= i < n && ColumnSetPanics(fields, names[..n][i], values[..n][i]);
      assert names[i] == names[..n][i] && values[i] == values[..n][i];
    }
    if SomeSetPanics(fields, names, values) {
      var i :| 0 <= i < |values| && ColumnSetPanics(fields, names[i], values[i]);
      if i < n {
        assert names[..n][i] == names[i] && values[..n][i] == values[i];
      }
    }
  }

  /**
    A field of a named type whose kind has a conversion panics on every
    column value, and a field of any other kind panics on a NULL column;
    a field of a predeclared type with a conversion never panics.
   */
  lemma SetPanicsCases(f: FieldDesc, col: Any)
    ensures f.kind in {KInt, KInt64, KFloat64, KString, KBool} ==> (SetPanics(f, col) <==> f.named)
    ensures f.kind == KOther ==> (SetPanics(f, col) <==> col == GoNil)
    ensures f.kind.KStruct? ==> !SetPanics(f, col)
  {
  }

  /**
    A decimal column value, as the driver returns it in bytes, binds to its
    number in an int or int64 field and to its text in a string field.
   */
  lemma BindsDecimalColumn(f: FieldDesc, b: seq<Byte>, n: Int64, cur: FieldValue)
    requires BytesToString(b) == FormatInt(n)
    ensures f.kind == KInt ==> Assign(f, GoBytes(b), cur) == VInt(n)
    ensures f.kind == KInt64 ==> Assign(f, GoBytes(b), cur) == VInt64(n)
    ensures f.kind == KString ==> Assign(f, GoBytes(b), cur) == VString(FormatInt(n))
    ensures f.kind in {KInt, KInt64, KString} && !f.named ==> !SetPanics(f, GoBytes(b))
  {
    IntTextRoundTrip(n, b);
  }

  /** A struct field of a type other than `time.Time` is never changed by a column. */
  lemma NonTimeStructUnchanged(f: FieldDesc, col: Any, cur: FieldValue)
    requires f.kind.KStruct? && f.kind.typeName != "Time"
    ensures Assign(f, col, cur) == cur
    ensures !SetPanics(f, col)
  {
  }
}
