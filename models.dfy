/** Model of src/core/models.py: `DataLoader` (column validation and the
    mapping of read failures to exceptions) and `StatsService` (a private
    working copy of the sales table with the derived `receita` column, the
    aggregate getters and the delegation to `analisar`).

    Prices and revenues are exact `real`s instead of floating point numbers;
    quantities are `int`s. Reading the CSV file is not modelled: the loader
    is handed the outcome of that read. */
module Models {
  import opened Metrics

  datatype Option<T> = None | Some(value: T)

  datatype Result<T, E> = Success(value: T) | Failure(error: E)

  const Preco: string := "preco"
  const Qtd: string := "qtd"
  const Receita: string := "receita"

  /** The columns a sales table must have, in the order they are checked. */
  const RequiredColumns: seq<string> := [Preco, Qtd]

  /** The exceptions the core raises. */
  datatype Error =
    | FileNotFound(path: string)             // FileNotFoundError naming the path
    | MissingColumns(columns: seq<string>)   // ValueError of the column validation
    | UnreadableTable                        // whatever the CSV parser raises
    | Unexpected(cause: Error)               // generic Exception wrapping another error
    | PrepareMissingColumns                  // ValueError of the revenue preparation
    | ColumnNotFound(name: string)           // ValueError of the functional challenge

  // ---------------------------------------------------------------------
  // Tables

  /** One row: the two required cells, and the cells of every other column
      by name (a derived `receita` lives there too). */
  datatype Row = Row(preco: real, qtd: int, extra: map<string, real>)

  datatype Frame = Frame(columns: seq<string>, rows: seq<Row>)

  /** Names of the header other than the two required columns. */
  function ExtraColumns(columns: seq<string>): set<string> {
    set c | c in columns && c != Preco && c != Qtd
  }

  /** Every row has a cell for every column of the header. */
  predicate WellFormed(f: Frame) {
    forall r :: r in f.rows ==> r.extra.Keys == ExtraColumns(f.columns)
  }

  /** A table as the CSV parser produces it: rectangular. */
  type Table = f: Frame | WellFormed(f) witness Frame([], [])

  /** The value of column `name` in `row`. */
  function Cell(row: Row, name: string): real
    requires name == Preco || name == Qtd || name in row.extra
  {
    if name == Preco then row.preco
    else if name == Qtd then row.qtd as real
    else row.extra[name]
  }

  /** A mutable table object; two variables may share one. */
  class DataFrame {
    var table: Table

    constructor (table: Table)
      ensures this.table == table
    {
      this.table := table;
    }

    /** `DataFrame.copy()`: a new object with the same contents. */
    method Copy() returns (c: DataFrame)
      ensures fresh(c) && c.table == table
    {
      c := new DataFrame(table);
    }
  }

  // ---------------------------------------------------------------------
  // DataLoader

  /** `[col for col in required if col not in header]`. */
  function Absent(required: seq<string>, header: seq<string>): (r: seq<string>)
    ensures |r| <= |required|
    ensures forall c :: c in r <==> c in required && c !in header
  {
    if required == [] then []
    else
      assert required == [required[0]] + required[1..];
      (if required[0] in header then [] else [required[0]]) + Absent(required[1..], header)
  }

  /** The required columns absent from `header`: exactly those, `preco`
      before `qtd`. */
  function MissingRequired(header: seq<string>): (r: seq<string>)
    ensures r == (if Preco in header then [] else [Preco]) + (if Qtd in header then [] else [Qtd])
  {
    assert RequiredColumns[1..] == [Qtd] && [Qtd][1..] == [];
    assert Absent([Qtd], header) == (if Qtd in header then [] else [Qtd]) + Absent([], header);
    Absent(RequiredColumns, header)
  }

  /** `_validate_columns`: raises, naming every missing column, iff one is
      missing. */
  function ValidateColumns(header: seq<string>): (r: Option<Error>)
    ensures r.None? <==> Preco in header && Qtd in header
    ensures r.Some? ==> r.value.MissingColumns? && r.value.columns != []
    ensures r.Some? ==> forall c :: c in r.value.columns <==> c in RequiredColumns && c !in header
    ensures r.Some? ==> r.value == MissingColumns(MissingRequired(header))
  {
    var missing := MissingRequired(header);
    if missing != [] then Some(MissingColumns(missing)) else None
  }

  /** What `pd.read_csv` does with the path: no file, a file that is not a
      table, or a table. */
  datatype ReadOutcome = NotFound | Unparseable | Parsed(table: Table)

  /** The exception `load` raises for a read outcome, or None when it
      returns the table. A missing file is reported as FileNotFoundError;
      everything else, including the validation's ValueError, leaves as a
      generic Exception wrapping the original error. */
  function LoadError(path: string, outcome: ReadOutcome): (r: Option<Error>)
    ensures outcome.NotFound? ==> r == Some(FileNotFound(path))
    ensures outcome.Unparseable? ==> r == Some(Unexpected(UnreadableTable))
    ensures outcome.Parsed? ==>
              (r.None? <==> Preco in outcome.table.columns && Qtd in outcome.table.columns)
    ensures outcome.Parsed? && r.Some? ==>
              r.value == Unexpected(MissingColumns(MissingRequired(outcome.table.columns)))
    ensures r.Some? ==> r.value.FileNotFound? || r.value.Unexpected?
  {
    match outcome
    case NotFound => Some(FileNotFound(path))
    case Unparseable => Some(Unexpected(UnreadableTable))
    case Parsed(t) =>
      match ValidateColumns(t.columns)
      case None => None
      case Some(e) => Some(Unexpected(e))
  }

  class DataLoader {
    const filePath: string
    var dataframe: DataFrame?

    constructor (filePath: string)
      ensures this.filePath == filePath && dataframe == null
    {
      this.filePath := filePath;
      dataframe := null;
    }

    /** `load`: keeps the parsed table in `dataframe` (before validating it,
        so a table that fails validation stays there) and returns it when
        both required columns are present. */
    method Load(outcome: ReadOutcome) returns (r: Result<DataFrame, Error>)
      modifies this
      ensures !outcome.Parsed? ==> dataframe == old(dataframe)
      ensures outcome.Parsed? ==>
                dataframe != null && fresh(dataframe) && dataframe.table == outcome.table
      ensures r.Failure? <==> LoadError(filePath, outcome).Some?
      ensures r.Failure? ==> r.error == LoadError(filePath, outcome).value
      ensures r.Success? ==> r.value == dataframe
    {
      match outcome {
        case NotFound =>
          r := Failure(FileNotFound(filePath));
        case Unparseable =>
          r := Failure(Unexpected(UnreadableTable));
        case Parsed(t) =>
          dataframe := new DataFrame(t);
          var invalid := ValidateColumns(t.columns);
          if invalid.Some? {
            r := Failure(Unexpected(invalid.value));
          } else {
            r := Success(dataframe);
          }
      }
    }
  }

  // ---------------------------------------------------------------------
  // Aggregates over rows

  /** Sum of `qtd` over the rows. */
  function TotalQuantity(rows: seq<Row>): int {
    if rows == [] then 0 else rows[0].qtd + TotalQuantity(rows[1..])
  }

  /** Sum of `preco * qtd` over the rows. */
  function TotalRevenue(rows: seq<Row>): real {
    if rows == [] then 0.0 else rows[0].preco * rows[0].qtd as real + TotalRevenue(rows[1..])
  }

  /** The average price weighted by quantity, 0 when the total quantity is
      not positive. */
  function AveragePrice(rows: seq<Row>): (r: real)
    ensures TotalQuantity(rows) > 0 ==> r * TotalQuantity(rows) as real == TotalRevenue(rows)
    ensures TotalQuantity(rows) <= 0 ==> r == 0.0
  {
    var q := TotalQuantity(rows);
    if q > 0 then TotalRevenue(rows) / q as real else 0.0
  }

  /** Rows in which the `receita` cell holds `preco * qtd`. */
  predicate RevenueDerived(rows: seq<Row>) {
    forall r :: r in rows ==> Receita in r.extra && r.extra[Receita] == r.preco * r.qtd as real
  }

  /** Sum of the stored `receita` cells. */
  function StoredRevenue(rows: seq<Row>): real
    requires forall r :: r in rows ==> Receita in r.extra
  {
    if rows == [] then 0.0 else rows[0].extra[Receita] + StoredRevenue(rows[1..])
  }

  /** Summing the derived column is summing `preco * qtd`. */
  lemma {:induction false} StoredRevenueIsTotal(rows: seq<Row>)
    requires RevenueDerived(rows)
    ensures StoredRevenue(rows) == TotalRevenue(rows)
  {
    if rows != [] {
      assert rows[0] in rows;
      assert forall r :: r in rows[1..] ==> r in rows;
      StoredRevenueIsTotal(rows[1..]);
    }
  }

  /** One row with `receita := preco * qtd`; nothing else changes. */
  function DeriveRevenue(row: Row): Row {
    row.(extra := row.extra[Receita := row.preco * row.qtd as real])
  }

  /** `self.df['preco'] * self.df['qtd']` stored as column `receita`, row by
      row, in the same order. */
  function AddRevenue(rows: seq<Row>): (r: seq<Row>)
    ensures |r| == |rows|
    ensures forall i :: 0 <= i < |rows| ==> r[i] == DeriveRevenue(rows[i])
  {
    seq(|rows|, i requires 0 <= i < |rows| => DeriveRevenue(rows[i]))
  }

  /** The header after `self.df['receita'] = ...`: a column that exists is
      overwritten in place, a new one goes last. */
  function RevenueColumns(columns: seq<string>): seq<string> {
    if Receita in columns then columns else columns + [Receita]
  }

  /** The working copy after preparation: same rows in the same order, each
      with its `receita`; both totals are those of the original rows. */
  function WithRevenue(t: Table): (r: Table)
    ensures r.columns == RevenueColumns(t.columns)
    ensures |r.rows| == |t.rows|
    ensures forall i :: 0 <= i < |t.rows| ==>
              r.rows[i].preco == t.rows[i].preco && r.rows[i].qtd == t.rows[i].qtd
    ensures forall i :: 0 <= i < |t.rows| ==>
              r.rows[i].extra.Keys == t.rows[i].extra.Keys + {Receita}
    ensures forall i, c :: 0 <= i < |t.rows| && c in t.rows[i].extra && c != Receita ==>
              r.rows[i].extra[c] == t.rows[i].extra[c]
    ensures RevenueDerived(r.rows)
    ensures TotalQuantity(r.rows) == TotalQuantity(t.rows)
    ensures TotalRevenue(r.rows) == TotalRevenue(t.rows)
  {
    AddRevenueWellFormed(t);
    AddRevenueKeepsTotals(t.rows);
    Frame(RevenueColumns(t.columns), AddRevenue(t.rows))
  }

  lemma AddRevenueWellFormed(t: Table)
    ensures WellFormed(Frame(RevenueColumns(t.columns), AddRevenue(t.rows)))
    ensures RevenueDerived(AddRevenue(t.rows))
  {
  }

  lemma {:induction false} AddRevenueKeepsTotals(rows: seq<Row>)
    ensures TotalQuantity(AddRevenue(rows)) == TotalQuantity(rows)
    ensures TotalRevenue(AddRevenue(rows)) == TotalRevenue(rows)
  {
    if rows != [] {
      assert AddRevenue(rows)[1..] == AddRevenue(rows[1..]);
      AddRevenueKeepsTotals(rows[1..]);
    }
  }

  /** The values of a column as `astype(int)` gives them. */
  function ColumnAsInts(t: Table, name: string): (r: seq<int>)
    requires name in t.columns
    ensures |r| == |t.rows|
    ensures name == Qtd ==> forall i :: 0 <= i < |t.rows| ==> r[i] == t.rows[i].qtd
    ensures forall i :: 0 <= i < |t.rows| && (name == Preco || name == Qtd || name in t.rows[i].extra) ==>
              r[i] == Trunc(Cell(t.rows[i], name))
  {
    seq(|t.rows|, i requires 0 <= i < |t.rows| =>
      assert t.rows[i] in t.rows;
      Trunc(Cell(t.rows[i], name)))
  }

  /** Conversion of a real to an integer, rounding toward zero. */
  function Trunc(x: real): (r: int)
    ensures x >= 0.0 ==> 0 <= r && r as real <= x < r as real + 1.0
    ensures x < 0.0 ==> r <= 0 && r as real - 1.0 < x <= r as real
  {
    if x >= 0.0 then x.Floor else -((-x).Floor)
  }

  // ---------------------------------------------------------------------
  // StatsService

  class StatsService {
    /** The service's own working copy of the sales table. */
    var df: DataFrame

    /** After preparation: both required columns and the derived one. */
    ghost predicate Valid()
      reads this, df
    {
      && Preco in df.table.columns && Qtd in df.table.columns && Receita in df.table.columns
      && RevenueDerived(df.table.rows)
    }

    /** The copy made at the start of `__init__`. */
    constructor (dataframe: DataFrame)
      ensures fresh(df) && df.table == dataframe.table
    {
      var copy := dataframe.Copy();
      df := copy;
    }

    /** `_prepare_data`: adds `receita` to the working copy, or fails when
        a required column is missing. */
    method PrepareData() returns (err: Option<Error>)
      modifies df
      ensures err.None? <==> Preco in old(df.table.columns) && Qtd in old(df.table.columns)
      ensures err.Some? ==> err.value == PrepareMissingColumns && df.table == old(df.table)
      ensures err.None? ==> Valid() && df.table == WithRevenue(old(df.table))
    {
      if Preco in df.table.columns && Qtd in df.table.columns {
        df.table := WithRevenue(df.table);
        err := None;
      } else {
        err := Some(PrepareMissingColumns);
      }
    }

    /** `StatsService(dataframe)`: copy, then prepare. The caller's table is
        left as it was and never shares an object with the service. */
    static method Create(dataframe: DataFrame) returns (r: Result<StatsService, Error>)
      ensures dataframe.table == old(dataframe.table)
      ensures r.Success? <==> Preco in dataframe.table.columns && Qtd in dataframe.table.columns
      ensures r.Failure? ==> r.error == PrepareMissingColumns
      ensures r.Success? ==>
                && fresh(r.value) && fresh(r.value.df) && r.value.Valid()
                && r.value.df.table == WithRevenue(dataframe.table)
    {
      var s := new StatsService(dataframe);
      var err := s.PrepareData();
      if err.Some? {
        r := Failure(err.value);
      } else {
        r := Success(s);
      }
    }

    /** `get_total_quantity`: the sum of `qtd`. */
    method GetTotalQuantity() returns (q: int)
      requires Valid()
      ensures q == TotalQuantity(df.table.rows)
    {
      q := TotalQuantity(df.table.rows);
    }

    /** `get_total_revenue`: the sum of the `receita` column, which is the sum
        of `preco * qtd`. */
    method GetTotalRevenue() returns (total: real)
      requires Valid()
      ensures total == TotalRevenue(df.table.rows)
    {
      StoredRevenueIsTotal(df.table.rows);
      total := StoredRevenue(df.table.rows);
    }

    /** `get_average_price`: revenue over quantity, or 0 when the quantity is
        not positive. */
    method GetAveragePrice() returns (avg: real)
      requires Valid()
      ensures TotalQuantity(df.table.rows) > 0 ==>
                avg * TotalQuantity(df.table.rows) as real == TotalRevenue(df.table.rows)
      ensures TotalQuantity(df.table.rows) <= 0 ==> avg == 0.0
      ensures avg == AveragePrice(df.table.rows)
    {
      var q := TotalQuantity(df.table.rows);
      if q > 0 {
        StoredRevenueIsTotal(df.table.rows);
        avg := StoredRevenue(df.table.rows) / q as real;
      } else {
        avg := 0.0;
      }
    }

    /** `run_fp_challenge`: `analisar` over one column of the working copy
        converted to integers; a column that is not there is an error. */
    method RunFpChallenge(columnName: string, limit: int) returns (r: Result<Analysis, Error>)
      requires Valid()
      ensures columnName !in df.table.columns ==> r == Failure(ColumnNotFound(columnName))
      ensures columnName in df.table.columns ==>
                r == Success(Analisar(ColumnAsInts(df.table, columnName), limit))
    {
      if columnName !in df.table.columns {
        r := Failure(ColumnNotFound(columnName));
      } else {
        r := Success(Analisar(ColumnAsInts(df.table, columnName), limit));
      }
    }
  }

  // ---------------------------------------------------------------------
  // Properties

  /** With non-negative quantities, the revenue lies between the lowest
      and the highest price times the total quantity. */
  lemma {:induction false} RevenueBetween(rows: seq<Row>, lo: real, hi: real)
    requires forall i :: 0 <= i < |rows| ==> rows[i].qtd >= 0 && lo <= rows[i].preco <= hi
    ensures lo * (TotalQuantity(rows) as real) <= TotalRevenue(rows) <= hi * (TotalQuantity(rows) as real)
  {
    if rows != [] {
      var h := rows[0];
      RevenueBetween(rows[1..], lo, hi);
      var q, rest := h.qtd as real, TotalQuantity(rows[1..]) as real;
      StepBounds(lo, hi, h.preco, q, rest, TotalRevenue(rows[1..]));
      assert TotalQuantity(rows) as real == q + rest;
    }
  }

  /** One more row keeps the revenue between the bounds. */
  lemma StepBounds(lo: real, hi: real, p: real, q: real, rest: real, revenue: real)
    requires lo <= p <= hi && q >= 0.0
    requires lo * rest <= revenue <= hi * rest
    ensures lo * (q + rest) <= p * q + revenue <= hi * (q + rest)
  {
    ProductMonotone(lo, p, q);
    ProductMonotone(p, hi, q);
    Distribute(lo, q, rest);
    Distribute(hi, q, rest);
  }

  lemma ProductMonotone(a: real, b: real, q: real)
    requires a <= b && q >= 0.0
    ensures a * q <= b * q
  {
    assert b * q - a * q == (b - a) * q;
  }

  lemma Distribute(a: real, x: real, y: real)
    ensures a * (x + y) == a * x + a * y
  {
  }

  /** If the revenue lies between `lo * q` and `hi * q` with `q > 0`, the
      quotient lies between `lo` and `hi`. */
  lemma QuotientBetween(q: real, revenue: real, lo: real, hi: real)
    requires q > 0.0
    requires lo * q <= revenue <= hi * q
    ensures lo <= revenue / q <= hi
  {
    var avg := revenue / q;
    assert avg * q == revenue;
    if avg < lo {
      ProductStrictlyMonotone(avg, lo, q);
    }
    if avg > hi {
      ProductStrictlyMonotone(hi, avg, q);
    }
  }


  lemma ProductStrictlyMonotone(a: real, b: real, q: real)
    requires a < b && q > 0.0
    ensures a * q < b * q
  {
    assert b * q - a * q == (b - a) * q;
  }

  /** The average is weighted by quantity: with non-negative quantities it
      lies between the lowest and the highest price sold. */
  lemma WeightedAverageBounds(rows: seq<Row>, lo: real, hi: real)
    requires forall i :: 0 <= i < |rows| ==> rows[i].qtd >= 0 && lo <= rows[i].preco <= hi
    requires TotalQuantity(rows) > 0
    ensures lo <= AveragePrice(rows) <= hi
  {
    var q, revenue := TotalQuantity(rows) as real, TotalRevenue(rows);
    assert lo * q <= revenue <= hi * q by {
      RevenueBetween(rows, lo, hi);
    }
    QuotientBetween(q, revenue, lo, hi);
  }


  /** Worked example: 10.0 x 2 and 5.0 x 4 sell 6 items for 40.0, at 20/3
      on average. */
  lemma ExampleTwoRows(rows: seq<Row>)
    requires rows == [Row(10.0, 2, map[]), Row(5.0, 4, map[])]
    ensures TotalQuantity(rows) == 6
    ensures TotalRevenue(rows) == 40.0
    ensures AveragePrice(rows) == 40.0 / 6.0
  {
    assert rows[1..] == [Row(5.0, 4, map[])];
    assert rows[1..][1..] == [];
    assert TotalQuantity(rows[1..]) == 4;
    assert TotalRevenue(rows[1..]) == 20.0;
  }

  /** The getters only read: asked twice, they answer the same. */
  method ReadTwice(s: StatsService) returns (same: bool)
    requires s.Valid()
    ensures same
  {
    var q1 := s.GetTotalQuantity();
    var t1 := s.GetTotalRevenue();
    var a1 := s.GetAveragePrice();
    var q2 := s.GetTotalQuantity();
    var t2 := s.GetTotalRevenue();
    var a2 := s.GetAveragePrice();
    same := q1 == q2 && t1 == t2 && a1 == a2;
  }
}
