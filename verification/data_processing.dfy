/**
 * The user-file helpers. A user file holds its table column by column
 * (`file_content[column][rowKey]`); `convertFilesToReadableFormat` turns every
 * file into a list of row objects, and `getUserFileId` finds a file by name.
 * The list of user files is a parameter here rather than a module-level read.
 */
module DataProcessing {
  import opened Js

  // ---------------------------------------------------------------------------
  // The specification of the conversion

  /** `file[col][row]`: reading a row of a column that is undefined or null throws. */
  function Cell(file: Value, col: string, row: string): Result<Value>
  {
    var column :- Get(file, col);
    Get(column, row)
  }

  /** The row object for `row` after the inner loop has written the columns `cols`, in order. */
  function RowOf(file: Value, cols: seq<string>, row: string): Result<Props>
    decreases |cols|
  {
    if cols == [] then Ok([])
    else
      var init :- RowOf(file, cols[..|cols| - 1], row);
      var x :- Cell(file, cols[|cols| - 1], row);
      Ok(Put(init, cols[|cols| - 1], x))
  }

  /**
   * The row objects for the row keys `rows`, in order. The loops stop at the
   * first cell that throws, and every throw is a TypeError, so the outcome is
   * an error exactly when some row cannot be built.
   */
  function RowsOf(file: Value, cols: seq<string>, rows: seq<string>): Result<seq<Value>>
  {
    if forall i :: 0 <= i < |rows| ==> RowOf(file, cols, rows[i]).Ok? then
      Ok(seq(|rows|, i requires 0 <= i < |rows| && RowOf(file, cols, rows[i]).Ok? =>
        Obj(RowOf(file, cols, rows[i]).value)))
    else Err(TypeError)
  }

  /** The column names of a file's content. */
  function Columns(file: Value): Result<seq<string>>
  {
    ObjectKeys(file)
  }

  /**
   * The row keys: the keys of the first column. With no column at all the
   * first column name is `undefined`, read as the property "undefined".
   */
  function RowKeys(file: Value, cols: seq<string>): Result<seq<string>>
  {
    var first :- Get(file, if |cols| > 0 then cols[0] else "undefined");
    ObjectKeys(first)
  }

  /** The row table of one file's content. */
  function FileTable(file: Value): Result<seq<Value>>
  {
    var cols :- Columns(file);
    var rows :- RowKeys(file, cols);
    RowsOf(file, cols, rows)
  }

  /** A file whose content can be read and converted. */
  predicate Convertible(file: Value)
  {
    Get(file, "file_content").Ok? && FileTable(Get(file, "file_content").value).Ok?
  }

  /** What `convertFilesToReadableFormat(userFiles)` returns or throws: only an array has `forEach`. */
  function ReadableFormat(userFiles: Value): (r: Result<seq<Value>>)
    ensures r.Ok? <==> userFiles.Arr? && forall k :: 0 <= k < |userFiles.elems| ==> Convertible(userFiles.elems[k])
    ensures r.Ok? ==> |r.value| == |userFiles.elems|
    ensures r.Ok? ==> forall k :: 0 <= k < |userFiles.elems| ==>
      r.value[k] == Arr(FileTable(Get(userFiles.elems[k], "file_content").value).value)
  {
    if userFiles.Arr? && forall k :: 0 <= k < |userFiles.elems| ==> Convertible(userFiles.elems[k]) then
      var files := userFiles.elems;
      Ok(seq(|files|, k requires 0 <= k < |files| && Convertible(files[k]) =>
        Arr(FileTable(Get(files[k], "file_content").value).value)))
    else Err(TypeError)
  }

  // ---------------------------------------------------------------------------
  // What the specification promises

  /** A row object exists exactly when every cell of its row can be read. */
  lemma {:induction false} RowOfOk(file: Value, cols: seq<string>, row: string)
    ensures RowOf(file, cols, row).Ok? <==> forall c :: c in cols ==> Cell(file, c, row).Ok?
    decreases |cols|
  {
    if cols != [] {
      var n := |cols| - 1;
      var front := cols[..n];
      RowOfOk(file, front, row);
      assert cols == front + [cols[n]];
      assert forall c :: c in cols <==> c in front || c == cols[n];
    }
  }

  /**
   * A row object has exactly the columns as keys, in column order when the
   * columns are distinct, and each column holds that column's cell.
   */
  lemma RowOfShape(file: Value, cols: seq<string>, row: string)
    requires RowOf(file, cols, row).Ok?
    ensures forall c :: c in cols ==> Cell(file, c, row).Ok?
    ensures forall c :: Has(RowOf(file, cols, row).value, c) <==> c in cols
    ensures forall c :: c in cols ==> Lookup(RowOf(file, cols, row).value, c) == Cell(file, c, row).value
    ensures Distinct(cols) ==> Keys(RowOf(file, cols, row).value) == cols
  {
    RowOfHas(file, cols, row);
    if Distinct(cols) {
      RowOfKeys(file, cols, row);
    }
    RowOfCells(file, cols, row);
  }

  /** A built row has exactly the columns as keys. */
  lemma {:induction false} RowOfHas(file: Value, cols: seq<string>, row: string)
    requires RowOf(file, cols, row).Ok?
    ensures forall c :: Has(RowOf(file, cols, row).value, c) <==> c in cols
    decreases |cols|
  {
    if cols != [] {
      var n := |cols| - 1;
      var front := cols[..n];
      assert cols == front + [cols[n]];
      RowOfHas(file, front, row);
      var init := RowOf(file, front, row).value;
      var x := Cell(file, cols[n], row).value;
      assert RowOf(file, cols, row).value == Put(init, cols[n], x);
      PutKeys(init, cols[n], x);
    }
  }

  /** With distinct columns, a built row lists its keys in column order. */
  lemma {:induction false} RowOfKeys(file: Value, cols: seq<string>, row: string)
    requires RowOf(file, cols, row).Ok? && Distinct(cols)
    ensures Keys(RowOf(file, cols, row).value) == cols
    decreases |cols|
  {
    if cols != [] {
      var n := |cols| - 1;
      var front := cols[..n];
      assert cols == front + [cols[n]];
      assert Distinct(front) by {
        forall i, j | 0 <= i < j < |front|
          ensures front[i] != front[j]
        {
          assert front[i] == cols[i] && front[j] == cols[j];
        }
      }
      assert cols[n] !in front by {
        forall i | 0 <= i < n
          ensures front[i] != cols[n]
        {
          assert front[i] == cols[i];
        }
      }
      RowOfKeys(file, front, row);
      var init := RowOf(file, front, row).value;
      var x := Cell(file, cols[n], row).value;
      assert RowOf(file, cols, row).value == Put(init, cols[n], x);
      assert !Has(init, cols[n]);
      PutKeyOrder(init, cols[n], x);
    }
  }

  /** Every column of a built row holds its cell, and every such cell can be read. */
  lemma {:induction false} RowOfCells(file: Value, cols: seq<string>, row: string)
    requires RowOf(file, cols, row).Ok?
    ensures forall c :: c in cols ==> Cell(file, c, row).Ok? && Lookup(RowOf(file, cols, row).value, c) == Cell(file, c, row).value
    decreases |cols|
  {
    if cols != [] {
      var n := |cols| - 1;
      var front := cols[..n];
      assert cols == front + [cols[n]];
      RowOfCells(file, front, row);
      var init := RowOf(file, front, row).value;
      var x := Cell(file, cols[n], row).value;
      assert RowOf(file, cols, row).value == Put(init, cols[n], x);
      forall c | c in cols
        ensures Cell(file, c, row).Ok? && Lookup(Put(init, cols[n], x), c) == Cell(file, c, row).value
      {
        if c != cols[n] {
          assert c in front;
        }
      }
    }
  }

  /**
   * A converted table has one row per row key, and the row at position `i`
   * is an object whose keys are exactly the columns, holding under each
   * column `c` the cell `file[c][rowKey_i]`.
   */
  lemma TableRows(file: Value)
    requires FileTable(file).Ok?
    ensures Columns(file).Ok? && RowKeys(file, Columns(file).value).Ok?
    ensures var cols := Columns(file).value;
      var rows := RowKeys(file, cols).value;
      var t := FileTable(file).value;
      |t| == |rows| &&
      forall i :: 0 <= i < |rows| ==>
        t[i].Obj? &&
        (forall c :: Has(t[i].props, c) <==> c in cols) &&
        (forall c :: c in cols ==> Cell(file, c, rows[i]).Ok? && Lookup(t[i].props, c) == Cell(file, c, rows[i]).value)
  {
    var cols := Columns(file).value;
    var rows := RowKeys(file, cols).value;
    forall i | 0 <= i < |rows|
      ensures RowOf(file, cols, rows[i]).Ok?
    {
    }
    forall i | 0 <= i < |rows|
      ensures var row := RowOf(file, cols, rows[i]).value;
        (forall c :: Has(row, c) <==> c in cols) &&
        (forall c :: c in cols ==> Cell(file, c, rows[i]).Ok? && Lookup(row, c) == Cell(file, c, rows[i]).value)
    {
      RowOfShape(file, cols, rows[i]);
    }
  }

  /**
   * For an object content, the number of rows is the number of keys of its
   * first column, and with distinct column names each row lists the columns
   * in their order.
   */
  lemma RowCount(file: Value)
    requires file.Obj? && |file.props| > 0 && FileTable(file).Ok?
    ensures |FileTable(file).value| == |Spread(Lookup(file.props, file.props[0].key))|
    ensures Distinct(Keys(file.props)) ==>
      forall i :: 0 <= i < |FileTable(file).value| ==>
        FileTable(file).value[i].Obj? && Keys(FileTable(file).value[i].props) == Keys(file.props)
  {
    var cols := Keys(file.props);
    var rows := RowKeys(file, cols).value;
    var first := Lookup(file.props, file.props[0].key);
    assert Get(file, cols[0]) == Ok(first);
    assert |rows| == |Spread(first)|;
    if Distinct(cols) {
      forall i | 0 <= i < |rows|
        ensures Keys(RowOf(file, cols, rows[i]).value) == cols
      {
        RowOfShape(file, cols, rows[i]);
      }
    }
  }

  /**
   * When every column is an object with the first column's row keys (the
   * assumption the conversion is written under), reading column `c` across
   * the rows gives back the column itself.
   */
  lemma ColumnRoundTrip(file: Value, c: string)
    requires file.Obj? && |file.props| > 0
    requires var first := Lookup(file.props, file.props[0].key);
      first.Obj? && Distinct(Keys(first.props)) &&
      forall d :: d in Keys(file.props) ==> (Lookup(file.props, d).Obj? &&
        Keys(Lookup(file.props, d).props) == Keys(first.props))
    requires c in Keys(file.props)
    ensures FileTable(file).Ok?
    ensures var t := FileTable(file).value;
      forall i :: 0 <= i < |t| ==> t[i].Obj?
    ensures var t := FileTable(file).value;
      var rows := Keys(Lookup(file.props, file.props[0].key).props);
      |t| == |rows| &&
      seq(|t|, i requires 0 <= i < |t| && t[i].Obj? => Prop(rows[i], Lookup(t[i].props, c)))
        == Lookup(file.props, c).props
  {
    var cols := Keys(file.props);
    var rows := Keys(Lookup(file.props, file.props[0].key).props);
    assert RowKeys(file, cols) == Ok(rows);
    forall i | 0 <= i < |rows|
      ensures RowOf(file, cols, rows[i]).Ok?
    {
      forall d | d in cols
        ensures Cell(file, d, rows[i]).Ok?
      {
        assert Get(file, d) == Ok(Lookup(file.props, d));
      }
      RowOfOk(file, cols, rows[i]);
    }
    TableRows(file);
    var t := FileTable(file).value;
    var q := Lookup(file.props, c).props;
    assert Keys(q) == rows;
    var back := seq(|t|, i requires 0 <= i < |t| && t[i].Obj? => Prop(rows[i], Lookup(t[i].props, c)));
    assert |back| == |q|;
    forall i | 0 <= i < |q|
      ensures back[i] == q[i]
    {
      assert Cell(file, c, rows[i]) == Ok(Lookup(q, rows[i]));
      LookupAt(q, i);
    }
  }

  /**
   * A table held as arrays: when every column is an array of the same length
   * `n`, as in `{age: [20, 30, 40], score: [1, 2, 3]}`, the conversion gives
   * `n` rows and reading column `c` across them gives back that array.
   */
  lemma ArrayColumnRoundTrip(file: Value, c: string)
    requires file.Obj? && |file.props| > 0 && Lookup(file.props, file.props[0].key).Arr?
    requires forall d :: d in Keys(file.props) ==>
      (Lookup(file.props, d).Arr? && |Lookup(file.props, d).elems| == |Lookup(file.props, file.props[0].key).elems|)
    requires c in Keys(file.props)
    ensures FileTable(file).Ok?
    ensures var t := FileTable(file).value;
      |t| == |Lookup(file.props, file.props[0].key).elems| && forall i :: 0 <= i < |t| ==> t[i].Obj?
    ensures var t := FileTable(file).value;
      seq(|t|, i requires 0 <= i < |t| && t[i].Obj? => Lookup(t[i].props, c)) == Lookup(file.props, c).elems
  {
    var cols := Keys(file.props);
    var n := |Lookup(file.props, file.props[0].key).elems|;
    var rows := IndexKeys(n);
    assert RowKeys(file, cols) == Ok(rows);
    assert ParseIndex("length") == None;
    forall i, d | 0 <= i < n && d in cols
      ensures Cell(file, d, rows[i]) == Ok(Lookup(file.props, d).elems[i])
    {
      ParseIndexKey(i);
      assert Get(file, d) == Ok(Lookup(file.props, d));
    }
    forall i | 0 <= i < n
      ensures RowOf(file, cols, rows[i]).Ok?
    {
      RowOfOk(file, cols, rows[i]);
    }
    TableRows(file);
    var t := FileTable(file).value;
    var back := seq(|t|, i requires 0 <= i < |t| && t[i].Obj? => Lookup(t[i].props, c));
    assert |back| == |Lookup(file.props, c).elems|;
    forall i | 0 <= i < |back|
      ensures back[i] == Lookup(file.props, c).elems[i]
    {
    }
  }

  /** A file content with no columns throws: its first column is undefined. */
  lemma NoColumnsFails(file: Value)
    requires Columns(file) == Ok([])
    ensures FileTable(file) == Err(TypeError)
  {
    assert ParseIndex("undefined") == None;
    if file.Obj? {
      assert Keys(file.props) == [] && file.props == [];
    }
  }

  // ---------------------------------------------------------------------------
  // The conversion as written

  /**
   * The inner loop for one row key: `cleanerData[i][col] = file[col][row]` for
   * every column, into the empty row object at position `i`.
   */
  method FillRow(file: Value, cols: seq<string>, row: string, cleanerData: seq<Props>, i: nat)
    returns (r: Result<seq<Props>>)
    requires i < |cleanerData| && cleanerData[i] == []
    ensures r.Ok? <==> RowOf(file, cols, row).Ok?
    ensures r.Err? ==> r.error == TypeError
    ensures r.Ok? ==> r.value == cleanerData[i := RowOf(file, cols, row).value]
  {
    var data := cleanerData;
    var j := 0;
    while j < |cols|
      invariant 0 <= j <= |cols| && |data| == |cleanerData|
      invariant data == cleanerData[i := data[i]]
      invariant RowOf(file, cols[..j], row) == Ok(data[i])
    {
      var x := Cell(file, cols[j], row);
      if x.Err? {
        RowOfOk(file, cols, row);
        return Err(x.error);
      }
      assert cols[..j + 1][..j] == cols[..j];
      data := data[i := Put(data[i], cols[j], x.value)];
      j := j + 1;
    }
    assert cols[..j] == cols;
    r := Ok(data);
  }

  /** The body run by `forEach` for one file content: fill one empty row object per row key. */
  method ConvertFile(file: Value) returns (r: Result<seq<Value>>)
    ensures r == FileTable(file)
  {
    var colsR := ObjectKeys(file);
    if colsR.Err? {
      return Err(colsR.error);
    }
    var cols := colsR.value;
    var rowsR := RowKeys(file, cols);
    if rowsR.Err? {
      return Err(rowsR.error);
    }
    var rows := rowsR.value;
    var cleanerData: seq<Props> := [];
    while |cleanerData| < |rows|
      invariant |cleanerData| <= |rows|
      invariant forall m :: 0 <= m < |cleanerData| ==> cleanerData[m] == []
    {
      cleanerData := cleanerData + [[]];
    }
    // `fileRows.indexOf(row)` is the position of `row`: object keys are distinct
    var i := 0;
    while i < |rows|
      invariant 0 <= i <= |rows| && |cleanerData| == |rows|
      invariant forall m :: i <= m < |rows| ==> cleanerData[m] == []
      invariant forall m :: 0 <= m < i ==> RowOf(file, cols, rows[m]) == Ok(cleanerData[m])
    {
      var filled := FillRow(file, cols, rows[i], cleanerData, i);
      if filled.Err? {
        return Err(filled.error);
      }
      cleanerData := filled.value;
      i := i + 1;
    }
    var table := seq(|rows|, m requires 0 <= m < |rows| => Obj(cleanerData[m]));
    assert RowsOf(file, cols, rows).Ok?;
    assert RowsOf(file, cols, rows).value == table;
    assert FileTable(file) == RowsOf(file, cols, rows);
    r := Ok(table);
  }

  /** `convertFilesToReadableFormat(userFiles)`: one row table per file, pushed in file order. */
  method ConvertFilesToReadableFormat(userFiles: Value) returns (r: Result<seq<Value>>)
    ensures r == ReadableFormat(userFiles)
  {
    if !userFiles.Arr? {
      return Err(TypeError);
    }
    var files := userFiles.elems;
    var readableUserFiles: seq<Value> := [];
    var k := 0;
    while k < |files|
      invariant 0 <= k <= |files| && |readableUserFiles| == k
      invariant forall m :: 0 <= m < k ==> (Convertible(files[m]) &&
        readableUserFiles[m] == Arr(FileTable(Get(files[m], "file_content").value).value))
    {
      var content := Get(files[k], "file_content");
      if content.Err? {
        return Err(content.error);
      }
      var cleanerData := ConvertFile(content.value);
      if cleanerData.Err? {
        return Err(cleanerData.error);
      }
      readableUserFiles := readableUserFiles + [Arr(cleanerData.value)];
      k := k + 1;
    }
    r := Ok(readableUserFiles);
    assert ReadableFormat(userFiles).value == readableUserFiles;
  }

  // ---------------------------------------------------------------------------
  // Finding a file by name

  /** `file.filename === name`; reading a name of undefined or null throws. */
  function Named(file: Value, name: Value): Result<bool>
  {
    var f :- Get(file, "filename");
    Ok(StrictEq(f, name))
  }

  /** `filter` visits every file, then the position of the first match, or -1. */
  function FirstNamed(files: seq<Value>, name: Value): (r: Result<int>)
    ensures r.Ok? <==> forall i :: 0 <= i < |files| ==> Named(files[i], name).Ok?
    ensures r.Err? ==> r.error == TypeError
    ensures r.Ok? ==> -1 <= r.value < |files|
    ensures r.Ok? && r.value >= 0 ==>
      Named(files[r.value], name) == Ok(true) &&
      forall j :: 0 <= j < r.value ==> Named(files[j], name) == Ok(false)
    ensures r.Ok? && r.value == -1 ==> forall j :: 0 <= j < |files| ==> Named(files[j], name) == Ok(false)
  {
    if files == [] then Ok(-1)
    else
      var m :- Named(files[0], name);
      var rest :- FirstNamed(files[1..], name);
      Ok(if m then 0 else if rest == -1 then -1 else rest + 1)
  }

  /**
   * `getUserFileId(name)`: `userFiles.indexOf(userFiles.filter(f => f.filename === name)[0])`.
   * The first match is the earliest position holding that very element (an
   * earlier copy would have matched first), and with no match `indexOf(undefined)`
   * finds nothing, since an undefined file would already have thrown.
   */
  function GetUserFileId(userFiles: Value, name: Value): (r: Result<int>)
    ensures r.Ok? <==> (userFiles.Arr? &&
      forall i :: 0 <= i < |userFiles.elems| ==> userFiles.elems[i] != Undef && userFiles.elems[i] != Null)
    ensures r.Err? ==> r.error == TypeError
    ensures r.Ok? ==> -1 <= r.value < |userFiles.elems|
    ensures r.Ok? && r.value >= 0 ==>
      Named(userFiles.elems[r.value], name) == Ok(true) &&
      forall j :: 0 <= j < r.value ==> Named(userFiles.elems[j], name) == Ok(false)
    ensures r.Ok? && r.value == -1 ==>
      forall j :: 0 <= j < |userFiles.elems| ==> Named(userFiles.elems[j], name) == Ok(false)
  {
    if userFiles.Arr? then FirstNamed(userFiles.elems, name) else Err(TypeError)
  }
}
