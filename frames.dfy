/**
 * The table model shared by every stage: a pandas DataFrame is a list of
 * column names and a list of rows, a row maps column names to cells.
 */
module Frames {
  import opened Text

  datatype Option<T> = None | Some(value: T)

  /** A parsed timestamp: its day number, its calendar year and its text form. */
  datatype Stamp = Stamp(day: int, year: int, text: string)

  /** One value of a column: missing, text, an integral number or a timestamp. */
  datatype Cell = Null | Str(s: string) | Num(n: int) | Date(t: Stamp)

  type Row = map<string, Cell>

  datatype Frame = Frame(columns: seq<string>, rows: seq<Row>)

  predicate Distinct<T(==)>(xs: seq<T>) {
    forall i, j :: 0 <= i < j < |xs| ==> xs[i] != xs[j]
  }

  /** Column names are unique and every row holds exactly the frame's columns. */
  predicate WellFormed(f: Frame) {
    && Distinct(f.columns)
    && forall i :: 0 <= i < |f.rows| ==> f.rows[i].Keys == set c | c in f.columns
  }

  /** The names of `names` that are columns, in the order of `names`. */
  function Present(names: seq<string>, cols: seq<string>): (r: seq<string>)
    ensures |r| <= |names|
    ensures forall x :: x in r <==> x in names && x in cols
  {
    if names == [] then []
    else (if names[0] in cols then [names[0]] else []) + Present(names[1..], cols)
  }

  /** The cell of column c; a column the row does not hold reads as missing. */
  function Get(r: Row, c: string): Cell {
    if c in r then r[c] else Null
  }

  /** pandas' isna. */
  predicate IsNa(c: Cell) {
    c.Null?
  }

  /** str() of a cell as astype(str) renders it, with a missing value rendered as in a numeric column. */
  function CellText(c: Cell): string {
    match c
    case Null => "nan"
    case Str(s) => s
    case Num(n) => IntToDecimal(n)
    case Date(t) => t.text
  }

  /** row.get(c, d) of a pandas row: the default only when the column is absent. */
  function GetOr(r: Row, c: string, d: Cell): Cell {
    if c in r then r[c] else d
  }

  // ---------------------------------------------------------------------
  // Selecting rows

  /** a is b with some elements left out, the rest in their order. */
  predicate IsSubsequence(a: seq<Row>, b: seq<Row>) {
    if a == [] then true
    else if b == [] then false
    else (a[0] == b[0] && IsSubsequence(a[1..], b[1..])) || IsSubsequence(a, b[1..])
  }

  lemma IsSubsequenceRefl(a: seq<Row>)
    ensures IsSubsequence(a, a)
  {
  }

  /** pandas' data[mask]: the rows satisfying p, in their original order. */
  function KeepWhere(rows: seq<Row>, p: Row -> bool): (kept: seq<Row>)
    ensures |kept| <= |rows|
    ensures forall r :: r in kept <==> r in rows && p(r)
    ensures IsSubsequence(kept, rows)
  {
    if rows == [] then []
    else if p(rows[0]) then [rows[0]] + KeepWhere(rows[1..], p)
    else KeepWhere(rows[1..], p)
  }

  lemma {:induction false} KeepWhereAll(rows: seq<Row>, p: Row -> bool)
    requires forall r :: r in rows ==> p(r)
    ensures KeepWhere(rows, p) == rows
  {
    if rows != [] {
      KeepWhereAll(rows[1..], p);
    }
  }

  lemma {:induction false} KeepWhereBoth(rows: seq<Row>, p: Row -> bool, q: Row -> bool)
    ensures KeepWhere(KeepWhere(rows, p), q) == KeepWhere(rows, r => p(r) && q(r))
  {
    if rows != [] {
      KeepWhereBoth(rows[1..], p, q);
    }
  }

  lemma {:induction false} IsSubsequenceTrans(a: seq<Row>, b: seq<Row>, c: seq<Row>)
    requires IsSubsequence(a, b) && IsSubsequence(b, c)
    ensures IsSubsequence(a, c)
    decreases |c|
  {
    if a != [] && c != [] {
      if b[0] == c[0] && IsSubsequence(b[1..], c[1..]) {
        if a[0] == b[0] && IsSubsequence(a[1..], b[1..]) {
          IsSubsequenceTrans(a[1..], b[1..], c[1..]);
        } else {
          IsSubsequenceTrans(a, b[1..], c[1..]);
        }
      } else {
        IsSubsequenceTrans(a, b, c[1..]);
      }
    }
  }

  /** pandas' rows[mask] for a boolean mask of the same length. */
  function Select(rows: seq<Row>, mask: seq<bool>): (kept: seq<Row>)
    requires |mask| == |rows|
    ensures |kept| <= |rows|
  {
    if rows == [] then []
    else (if mask[0] then [rows[0]] else []) + Select(rows[1..], mask[1..])
  }

  /** Selecting by the mask of a predicate keeps the rows satisfying it. */
  lemma {:induction false} SelectWhere(rows: seq<Row>, mask: seq<bool>, p: Row -> bool)
    requires |mask| == |rows|
    requires forall i :: 0 <= i < |rows| ==> mask[i] == p(rows[i])
    ensures Select(rows, mask) == KeepWhere(rows, p)
  {
    if rows != [] {
      SelectWhere(rows[1..], mask[1..], p);
    }
  }

  function Filter(f: Frame, p: Row -> bool): (g: Frame)
    ensures g.columns == f.columns && g.rows == KeepWhere(f.rows, p)
  {
    Frame(f.columns, KeepWhere(f.rows, p))
  }

  lemma FilterWellFormed(f: Frame, p: Row -> bool)
    requires WellFormed(f)
    ensures WellFormed(Filter(f, p))
  {
    var g := Filter(f, p);
    forall i | 0 <= i < |g.rows|
      ensures g.rows[i].Keys == set c | c in g.columns
    {
      assert g.rows[i] in g.rows;
      var j :| 0 <= j < |f.rows| && f.rows[j] == g.rows[i];
    }
  }

  // ---------------------------------------------------------------------
  // Assigning columns

  function AddName(cols: seq<string>, c: string): (r: seq<string>)
    ensures c in r && (forall x :: x in r <==> x in cols || x == c)
  {
    if c in cols then cols else cols + [c]
  }

  /** data[c] = fn(row) for every row: the column is created or overwritten. */
  function MapColumn(f: Frame, c: string, fn: Row -> Cell): (g: Frame)
    ensures g.columns == AddName(f.columns, c)
    ensures |g.rows| == |f.rows|
    ensures forall i :: 0 <= i < |f.rows| ==> g.rows[i] == f.rows[i][c := fn(f.rows[i])]
  {
    Frame(AddName(f.columns, c), seq(|f.rows|, i requires 0 <= i < |f.rows| => f.rows[i][c := fn(f.rows[i])]))
  }

  /** df[c] = df.apply(fn, axis=1): fn evaluated row by row. */
  method ApplyRows(data: Frame, c: string, fn: Row -> Cell) returns (result: Frame)
    ensures result == MapColumn(data, c, fn)
  {
    var rows: seq<Row> := [];
    for i := 0 to |data.rows|
      invariant |rows| == i
      invariant forall j :: 0 <= j < i ==> rows[j] == data.rows[j][c := fn(data.rows[j])]
    {
      rows := rows + [data.rows[i][c := fn(data.rows[i])]];
    }
    result := Frame(AddName(data.columns, c), rows);
  }

  /** data[c] = v: the same value in every row. */
  function FillColumn(f: Frame, c: string, v: Cell): (g: Frame)
    ensures g.columns == AddName(f.columns, c)
    ensures |g.rows| == |f.rows|
    ensures forall i :: 0 <= i < |f.rows| ==> g.rows[i] == f.rows[i][c := v]
  {
    MapColumn(f, c, _ => v)
  }

  lemma MapColumnWellFormed(f: Frame, c: string, fn: Row -> Cell)
    requires WellFormed(f)
    ensures WellFormed(MapColumn(f, c, fn))
  {
    var g := MapColumn(f, c, fn);
    forall i | 0 <= i < |g.rows|
      ensures g.rows[i].Keys == set x | x in g.columns
    {
      assert g.rows[i].Keys == f.rows[i].Keys + {c};
    }
    if c !in f.columns {
      forall i, j | 0 <= i < j < |g.columns|
        ensures g.columns[i] != g.columns[j]
      {
        if j == |f.columns| {
          assert f.columns[i] in f.columns;
        }
      }
    }
  }

  // ---------------------------------------------------------------------
  // What a sequence of column assignments leaves alone

  /** Two rows hold the same cell under c, or both lack c. */
  predicate SameAt(r1: Row, r2: Row, c: string) {
    (c in r1 <==> c in r2) && (c in r1 ==> r1[c] == r2[c])
  }

  /**
   * g is f after assignments to the columns of written only: the same rows,
   * f's columns kept, no other new column, every other cell unchanged, and
   * well-formedness preserved.
   */
  ghost predicate Derives(f: Frame, g: Frame, written: set<string>) {
    && |g.rows| == |f.rows|
    && (forall x :: x in f.columns ==> x in g.columns)
    && (forall x :: x in g.columns ==> x in f.columns || x in written)
    && (forall c, i :: c !in written && 0 <= i < |f.rows| ==> SameAt(f.rows[i], g.rows[i], c))
    && (WellFormed(f) ==> WellFormed(g))
  }

  /** A cell outside the written columns is the same before and after. */
  lemma SameAtOfDerives(f: Frame, g: Frame, written: set<string>, c: string, i: nat)
    requires Derives(f, g, written) && c !in written && i < |f.rows|
    ensures i < |g.rows| && SameAt(f.rows[i], g.rows[i], c)
    ensures Get(g.rows[i], c) == Get(f.rows[i], c)
  {
  }

  lemma DerivesRefl(f: Frame, written: set<string>)
    ensures Derives(f, f, written)
  {
  }

  lemma DerivesTrans(f: Frame, g: Frame, h: Frame, w1: set<string>, w2: set<string>)
    requires Derives(f, g, w1) && Derives(g, h, w2)
    ensures Derives(f, h, w1 + w2)
  {
  }

  lemma DerivesChain(f: Frame, f1: Frame, f2: Frame, f3: Frame, f4: Frame,
                     w1: set<string>, w2: set<string>, w3: set<string>, w4: set<string>)
    requires Derives(f, f1, w1) && Derives(f1, f2, w2) && Derives(f2, f3, w3) && Derives(f3, f4, w4)
    ensures Derives(f, f4, w1 + w2 + w3 + w4)
  {
    DerivesTrans(f, f1, f2, w1, w2);
    DerivesTrans(f, f2, f3, w1 + w2, w3);
    DerivesTrans(f, f3, f4, w1 + w2 + w3, w4);
  }

  lemma DerivesWider(f: Frame, g: Frame, w1: set<string>, w2: set<string>)
    requires Derives(f, g, w1) && w1 <= w2
    ensures Derives(f, g, w2)
  {
  }

  lemma MapColumnDerives(f: Frame, c: string, fn: Row -> Cell)
    ensures Derives(f, MapColumn(f, c, fn), {c})
  {
    if WellFormed(f) {
      MapColumnWellFormed(f, c, fn);
    }
  }

  /** Text of a label list: Python's ', '.join(labels), or the default when there are none. */
  function JoinOr(labels: seq<string>, default: string): string {
    if labels == [] then default else Join(", ", labels)
  }

  lemma JoinOrNonEmpty(labels: seq<string>, default: string)
    requires default != "" && forall l :: l in labels ==> l != ""
    ensures JoinOr(labels, default) != ""
  {
    if labels != [] {
      assert labels[0] in labels;
    }
  }
}
