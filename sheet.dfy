/**
 * The "Org Details" sheet of the deployment workbook as the provisioning script sees it
 * after pandas has read it without a header row: a rectangular grid of cells, addressed
 * by zero-based row and column index.
 */
module Sheet {

  /**
   * One cell. `Blank` is an empty cell, which pandas reads as a NaN float; `Text` a
   * string; `Infinite` a float that is plus or minus infinity; `DateTime` a date, time or
   * timestamp; `Finite` any other value (an integer, a finite float, a boolean). `Finite`
   * and `DateTime` carry the text Python's `str()` gives for them.
   */
  datatype Cell = Blank | Text(s: string) | Finite(repr: string) | Infinite(negative: bool) | DateTime(repr: string)

  type Row = seq<Cell>

  /**
   * A value as it is placed into a JSON request body: `None`, a cell, or the `latlng`
   * object with its two members.
   */
  datatype Value = Null | Of(c: Cell) | LatLng(lat: Value, lng: Value)

  /**
   * A cell the JSON encoding of a request body accepts. The requests library encodes a
   * `json=` body with `allow_nan=False`, so a NaN or infinite float makes it raise
   * `InvalidJSONError`; `json.dumps` raises `TypeError` on a date or time.
   */
  predicate EncodableCell(c: Cell)
  {
    c.Text? || c.Finite?
  }

  /** A value whose JSON encoding succeeds: `None`, an encodable cell, or `latlng` with encodable members. */
  predicate EncodableValue(v: Value)
  {
    match v
    case Null => true
    case Of(c) => EncodableCell(c)
    case LatLng(lat, lng) => EncodableValue(lat) && EncodableValue(lng)
  }

  /** A request body whose JSON encoding succeeds: every value in it encodes. */
  predicate Encodable<K>(body: map<K, Value>)
  {
    forall k :: k in body ==> EncodableValue(body[k])
  }

  /** `pd.isna(c)`. */
  predicate IsNa(c: Cell)
  {
    c.Blank?
  }

  /** `isinstance(c, float) and (np.isnan(c) or not np.isfinite(c))`. */
  predicate IsNonFiniteFloat(c: Cell)
  {
    c.Blank? || c.Infinite?
  }

  /** `str(c)`. */
  function Str(c: Cell): string
  {
    match c
    case Blank => "nan"
    case Text(s) => s
    case Finite(repr) => repr
    case Infinite(negative) => if negative then "-inf" else "inf"
    case DateTime(repr) => repr
  }

  /** Every row of `grid` has `width` cells. */
  predicate Rectangular(grid: seq<Row>, width: nat)
  {
    forall i :: 0 <= i < |grid| ==> |grid[i]| == width
  }

  /** A row every cell of which is missing: what `dropna(how="all")` removes. */
  predicate AllBlank(row: Row)
  {
    forall k :: 0 <= k < |row| ==> IsNa(row[k])
  }

  /** `dropna(how="all")` over a sequence of rows, keeping the order of the rest. */
  function DropBlankRows(rows: seq<Row>): (r: seq<Row>)
    ensures |r| <= |rows|
    ensures forall i :: 0 <= i < |r| ==> !AllBlank(r[i])
    ensures forall i :: 0 <= i < |r| ==> r[i] in rows
  {
    if rows == [] then []
    else (if AllBlank(rows[0]) then [] else [rows[0]]) + DropBlankRows(rows[1..])
  }

  /**
   * Dropping blank rows distributes over concatenation: the rows that survive keep the
   * sheet's order, and whether a row survives depends on that row alone.
   */
  lemma {:induction false} DropBlankRowsAppend(a: seq<Row>, b: seq<Row>)
    ensures DropBlankRows(a + b) == DropBlankRows(a) + DropBlankRows(b)
    decreases |a|
  {
    if a == [] {
      assert a + b == b;
    } else {
      assert (a + b)[1..] == a[1..] + b;
      DropBlankRowsAppend(a[1..], b);
    }
  }

  /** Every row that is not entirely blank survives, and so does every row of the input that does. */
  lemma {:induction false} DropBlankRowsKeeps(rows: seq<Row>, row: Row)
    ensures row in DropBlankRows(rows) <==> row in rows && !AllBlank(row)
    decreases |rows|
  {
    if rows != [] {
      DropBlankRowsKeeps(rows[1..], row);
      assert rows == [rows[0]] + rows[1..];
    }
  }

  /** The site rows of the sheet: every row from index 5 on that is not entirely blank. */
  function SiteRows(grid: seq<Row>): (rows: seq<Row>)
    ensures |grid| <= 5 ==> rows == []
    ensures forall i :: 0 <= i < |rows| ==> |grid| > 5 && rows[i] in grid[5..] && !AllBlank(rows[i])
  {
    if |grid| <= 5 then [] else DropBlankRows(grid[5..])
  }

  /** Site rows have the width of the sheet. */
  lemma SiteRowsWidth(grid: seq<Row>, width: nat)
    requires Rectangular(grid, width)
    ensures Rectangular(SiteRows(grid), width)
  {
    var r := SiteRows(grid);
    forall i | 0 <= i < |r| ensures |r[i]| == width {
      assert r[i] in grid[5..];
    }
  }

  /**
   * Site rows come from row index 5 onward with all-blank rows dropped: a row is a site
   * row exactly when it stands at index 5 or later and is not entirely blank.
   */
  lemma SiteRowsSelection(grid: seq<Row>, row: Row)
    ensures row in SiteRows(grid) <==> (exists i :: 5 <= i < |grid| && grid[i] == row) && !AllBlank(row)
  {
    if |grid| > 5 {
      DropBlankRowsKeeps(grid[5..], row);
      if row in grid[5..] {
        var k :| 0 <= k < |grid[5..]| && grid[5..][k] == row;
        assert grid[5 + k] == row;
      }
      if exists i :: 5 <= i < |grid| && grid[i] == row {
        var i :| 5 <= i < |grid| && grid[i] == row;
        assert grid[5..][i - 5] == row;
      }
    }
  }
}
