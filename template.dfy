/**
 * The template columns of the sheet (the `variable_columns` dictionary) and the site
 * variables a row binds through them (the `site_variables` dictionary).
 */
module Template {
  import opened PyText
  import opened Sheet

  /** First column that may hold a template variable header (column K of the sheet). */
  const FirstVariableColumn: nat := 10

  /** Index of the header row in the sheet (sheet row 5). */
  const HeaderRow: nat := 4

  /**
   * One entry of `variable_columns`. The dictionary is filled in ascending column order and
   * iterated in insertion order, so it is modelled as a sequence sorted by `col`.
   */
  datatype VarColumn = VarColumn(col: nat, name: string)

  /** A header that marks a template column: a string starting with "{{" and ending with "}}". */
  predicate IsMarked(c: Cell)
  {
    c.Text? && |c.s| >= 2 && c.s[..2] == "{{" && c.s[|c.s| - 2..] == "}}"
  }

  /** `header.strip("{}")`: every leading and trailing brace removed. */
  function VarName(header: string): (r: string)
    ensures r == [] || (r[0] !in Braces && r[|r| - 1] !in Braces)
  {
    StripTrims(header, Braces);
    Strip(header, Braces)
  }

  /** The columns the header scan keeps, scanning from `col` until the first blank header. */
  function ScanHeader(header: Row, col: nat): seq<VarColumn>
    decreases |header| - col
  {
    if col >= |header| || IsNa(header[col]) then []
    else (if IsMarked(header[col]) then [VarColumn(col, VarName(header[col].s))] else [])
         + ScanHeader(header, col + 1)
  }

  /** The column indices of a scan result. */
  function Columns(cols: seq<VarColumn>): set<nat>
  {
    set k | 0 <= k < |cols| :: cols[k].col
  }

  /** Columns are strictly increasing, so each column occurs at most once. */
  predicate Ascending(cols: seq<VarColumn>)
  {
    forall i, j :: 0 <= i < j < |cols| ==> cols[i].col < cols[j].col
  }

  /**
   * Column `v` is a legitimate scan result from `start`: at or after `start`, inside the
   * row, with no blank header from `start` up to and including it, a marked header, and
   * the header with its braces stripped as its name.
   */
  predicate KeptAt(header: Row, start: nat, v: VarColumn)
  {
    && start <= v.col < |header|
    && IsMarked(header[v.col])
    && v.name == VarName(header[v.col].s)
    && forall j :: start <= j <= v.col ==> !IsNa(header[j])
  }

  /**
   * What the scan keeps, stated entry by entry: every kept column lies at or after `start`,
   * inside the row, with no blank header from `start` up to and including it; its header
   * is marked and its name is that header with the braces stripped; and the columns ascend.
   */
  lemma ScanHeaderEntries(header: Row, start: nat)
    ensures Ascending(ScanHeader(header, start))
    ensures forall k :: 0 <= k < |ScanHeader(header, start)| ==> KeptAt(header, start, ScanHeader(header, start)[k])
  {
    var r := ScanHeader(header, start);
    forall k | 0 <= k < |r| ensures KeptAt(header, start, r[k]) {
      ScanHeaderKept(header, start, k);
    }
    forall i, j | 0 <= i < j < |r| ensures r[i].col < r[j].col {
      ScanHeaderOrdered(header, start, i, j);
    }
  }

  lemma {:induction false} ScanHeaderKept(header: Row, start: nat, k: nat)
    requires k < |ScanHeader(header, start)|
    ensures KeptAt(header, start, ScanHeader(header, start)[k])
    decreases |header| - start
  {
    var r := ScanHeader(header, start);
    var tail := ScanHeader(header, start + 1);
    assert start < |header| && !IsNa(header[start]);
    if IsMarked(header[start]) && k == 0 {
      assert r[0] == VarColumn(start, VarName(header[start].s));
    } else {
      var k' := if IsMarked(header[start]) then k - 1 else k;
      assert r[k] == tail[k'];
      ScanHeaderKept(header, start + 1, k');
      KeptAtExtend(header, start, tail[k']);
    }
  }

  /** A column kept from `start + 1` is kept from `start` when the header at `start` is present. */
  lemma KeptAtExtend(header: Row, start: nat, v: VarColumn)
    requires start < |header| && !IsNa(header[start])
    requires KeptAt(header, start + 1, v)
    ensures KeptAt(header, start, v)
  {
    forall j | start <= j <= v.col ensures !IsNa(header[j]) {
      if j > start {
        assert start + 1 <= j <= v.col;
      }
    }
  }

  lemma {:induction false} ScanHeaderOrdered(header: Row, start: nat, i: nat, j: nat)
    requires i < j < |ScanHeader(header, start)|
    ensures ScanHeader(header, start)[i].col < ScanHeader(header, start)[j].col
    decreases |header| - start
  {
    var r := ScanHeader(header, start);
    var tail := ScanHeader(header, start + 1);
    if IsMarked(header[start]) {
      assert r[j] == tail[j - 1];
      if i == 0 {
        ScanHeaderKept(header, start + 1, j - 1);
      } else {
        assert r[i] == tail[i - 1];
        ScanHeaderOrdered(header, start + 1, i - 1, j - 1);
      }
    } else {
      assert r == tail;
      ScanHeaderOrdered(header, start + 1, i, j);
    }
  }

  /**
   * Every marked header before the first blank is kept: for a column `j` whose headers from
   * `start` through `j` are all present, `j` is kept exactly when its header is marked.
   */
  lemma {:induction false} ScanHeaderComplete(header: Row, start: nat, j: nat)
    requires start <= j < |header|
    requires forall i :: start <= i <= j ==> !IsNa(header[i])
    ensures j in Columns(ScanHeader(header, start)) <==> IsMarked(header[j])
    decreases j - start
  {
    var r := ScanHeader(header, start);
    ScanHeaderEntries(header, start);
    if j == start {
      if IsMarked(header[j]) {
        assert r[0].col == j;
      }
    } else {
      ScanHeaderComplete(header, start + 1, j);
      var tail := ScanHeader(header, start + 1);
      if IsMarked(header[start]) {
        assert r == [VarColumn(start, VarName(header[start].s))] + tail;
        if j in Columns(tail) {
          var k :| 0 <= k < |tail| && tail[k].col == j;
          assert r[k + 1].col == j;
        }
        if j in Columns(r) {
          var k :| 0 <= k < |r| && r[k].col == j;
          assert k > 0 && tail[k - 1].col == j;
        }
      } else {
        assert r == tail;
      }
    }
  }

  /**
   * Nothing at or after a blank header is kept: the scan stops at the first blank.
   */
  lemma StopsAtBlank(header: Row, start: nat, b: nat)
    requires start <= b < |header| && IsNa(header[b])
    ensures forall v :: v in ScanHeader(header, start) ==> v.col < b
  {
    ScanHeaderEntries(header, start);
  }

  /**
   * The header scan as the script runs it: a loop over the columns from index 10 that
   * stops at the first blank header and records every marked one.
   */
  method DetectVariableColumns(header: Row) returns (cols: seq<VarColumn>)
    ensures cols == ScanHeader(header, FirstVariableColumn)
    ensures Ascending(cols)
    ensures forall k :: 0 <= k < |cols| ==> FirstVariableColumn <= cols[k].col < |header|
  {
    cols := [];
    var col := FirstVariableColumn;
    while col < |header|
      invariant FirstVariableColumn <= col
      invariant cols + ScanHeader(header, col) == ScanHeader(header, FirstVariableColumn)
      decreases |header| - col
    {
      if IsNa(header[col]) {
        assert ScanHeader(header, col) == [];
        break;
      }
      if IsMarked(header[col]) {
        var v := VarColumn(col, VarName(header[col].s));
        assert ScanHeader(header, col) == [v] + ScanHeader(header, col + 1);
        assert cols + [v] + ScanHeader(header, col + 1) == cols + ScanHeader(header, col);
        cols := cols + [v];
      } else {
        assert ScanHeader(header, col) == ScanHeader(header, col + 1);
      }
      col := col + 1;
    }
    ScanHeaderEntries(header, FirstVariableColumn);
  }

  /** Every template column names a cell of `row`. */
  predicate Fits(cols: seq<VarColumn>, row: Row)
  {
    forall k :: 0 <= k < |cols| ==> cols[k].col < |row|
  }

  /** The value bound for one cell: the cell itself, or `None` when it is missing. */
  function BoundValue(c: Cell): Value
  {
    if IsNa(c) then Null else Of(c)
  }

  /** `site_variables` after the template columns have been visited in order. */
  function Bindings(cols: seq<VarColumn>, row: Row): map<string, Value>
    requires Fits(cols, row)
  {
    if cols == [] then map[]
    else
      var last := cols[|cols| - 1];
      Bindings(cols[..|cols| - 1], row)[last.name := BoundValue(row[last.col])]
  }

  /** The variable names of the template columns. */
  function Names(cols: seq<VarColumn>): set<string>
  {
    set k | 0 <= k < |cols| :: cols[k].name
  }

  /** No later column carries the name of column `k`. */
  predicate LastWithName(cols: seq<VarColumn>, k: nat)
    requires k < |cols|
  {
    forall k' :: k < k' < |cols| ==> cols[k'].name != cols[k].name
  }

  /**
   * The bindings hold exactly one key per variable name, and the value of a name is the
   * (missing-as-None) cell of the LAST column carrying that name.
   */
  lemma BindingsLastWins(cols: seq<VarColumn>, row: Row)
    requires Fits(cols, row)
    ensures Bindings(cols, row).Keys == Names(cols)
    ensures forall k :: 0 <= k < |cols| && LastWithName(cols, k) ==>
              Bindings(cols, row)[cols[k].name] == BoundValue(row[cols[k].col])
  {
    BindingsKeys(cols, row);
    forall k | 0 <= k < |cols| && LastWithName(cols, k)
      ensures Bindings(cols, row)[cols[k].name] == BoundValue(row[cols[k].col])
    {
      BindingAt(cols, row, k);
    }
  }

  lemma {:induction false} BindingsKeys(cols: seq<VarColumn>, row: Row)
    requires Fits(cols, row)
    ensures Bindings(cols, row).Keys == Names(cols)
    decreases |cols|
  {
    if cols != [] {
      var n := |cols| - 1;
      var init := cols[..n];
      BindingsKeys(init, row);
      assert Names(cols) == Names(init) + {cols[n].name} by {
        forall x | x in Names(cols) ensures x in Names(init) + {cols[n].name} {
          var k :| 0 <= k < |cols| && cols[k].name == x;
          if k < n { assert init[k].name == x; }
        }
        forall x | x in Names(init) ensures x in Names(cols) {
          var k :| 0 <= k < |init| && init[k].name == x;
          assert cols[k].name == x;
        }
      }
    }
  }

  lemma {:induction false} BindingAt(cols: seq<VarColumn>, row: Row, k: nat)
    requires Fits(cols, row) && k < |cols| && LastWithName(cols, k)
    ensures cols[k].name in Bindings(cols, row)
    ensures Bindings(cols, row)[cols[k].name] == BoundValue(row[cols[k].col])
    decreases |cols|
  {
    var n := |cols| - 1;
    if k < n {
      var init := cols[..n];
      assert init[k] == cols[k];
      assert LastWithName(init, k);
      BindingAt(init, row, k);
      assert cols[n].name != cols[k].name;
    }
  }

  /** Among the columns from `k` on that carry the name of column `k`, one is the last with that name. */
  lemma LastOfName(cols: seq<VarColumn>, k: nat) returns (m: nat)
    requires k < |cols|
    ensures k <= m < |cols| && cols[m].name == cols[k].name && LastWithName(cols, m)
    decreases |cols| - k
  {
    if LastWithName(cols, k) {
      m := k;
    } else {
      var k' :| k < k' < |cols| && cols[k'].name == cols[k].name;
      m := LastOfName(cols, k');
    }
  }

  /**
   * The bindings of a row encode exactly when, for every variable name, the cell of the
   * last column carrying it is empty (bound to `None`), text or a finite number: an
   * infinite float passes the `pd.notna` test and is bound as it is, and a date or time
   * is bound as it is too.
   */
  lemma BindingsEncodable(cols: seq<VarColumn>, row: Row)
    requires Fits(cols, row)
    ensures Encodable(Bindings(cols, row)) <==>
              forall k :: 0 <= k < |cols| && LastWithName(cols, k) ==> EncodableValue(BoundValue(row[cols[k].col]))
  {
    var vars := Bindings(cols, row);
    BindingsLastWins(cols, row);
    if forall k :: 0 <= k < |cols| && LastWithName(cols, k) ==> EncodableValue(BoundValue(row[cols[k].col])) {
      forall name | name in vars ensures EncodableValue(vars[name]) {
        assert name in Names(cols);
        var k :| 0 <= k < |cols| && cols[k].name == name;
        var m := LastOfName(cols, k);
      }
    }
  }

  /**
   * The loop that fills `site_variables` from the template columns of one row.
   */
  method BuildBindings(cols: seq<VarColumn>, row: Row) returns (vars: map<string, Value>)
    requires Fits(cols, row)
    ensures vars == Bindings(cols, row)
  {
    vars := map[];
    for i := 0 to |cols|
      invariant vars == Bindings(cols[..i], row)
    {
      assert cols[..i + 1][..i] == cols[..i];
      vars := vars[cols[i].name := BoundValue(row[cols[i].col])];
    }
    assert cols[..|cols|] == cols;
  }
}
