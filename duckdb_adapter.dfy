/**
 * src/processors/sinan_duckdb_adapter.py: the adapter the dashboard reads
 * through, over either the prepared snapshot table or the raw view. The
 * connection is not modelled: the columns DESCRIBE reports for the table
 * and the answer DuckDB gives a query are inputs, a missing answer standing
 * for a raised error.
 */
module DuckdbAdapter {
  import opened Text
  import opened Frames
  import opened ComprehensiveDicts
  import ComprehensiveFilter
  import ComprehensiveDerived
  import DuckdbProcessor

  // ---------------------------------------------------------------------
  // get_available_years and get_available_ufs

  /** The first candidate column the table has, in the order of the candidates. */
  function FirstPresent(candidates: seq<string>, columns: seq<string>): (r: Option<string>)
    ensures r.None? <==> forall c :: c in candidates ==> c !in columns
    ensures r.Some? ==> r.value in candidates && r.value in columns
    ensures r.Some? ==> exists j :: 0 <= j < |candidates| && candidates[j] == r.value &&
                          forall i :: 0 <= i < j ==> candidates[i] !in columns
  {
    if candidates == [] then None
    else if candidates[0] in columns then Some(candidates[0])
    else
      var r := FirstPresent(candidates[1..], columns);
      if r.Some? then
        var j :| 0 <= j < |candidates| - 1 && candidates[1..][j] == r.value &&
                 forall i :: 0 <= i < j ==> candidates[1..][i] !in columns;
        assert candidates[j + 1] == r.value;
        r
      else r
  }

  /** The year columns, NU_ANO first. */
  const YEAR_COLUMNS: seq<string> := ["NU_ANO", "DT_NOTIFIC"]

  /** The column the years are read from: NU_ANO if present, else DT_NOTIFIC. */
  function YearColumn(columns: seq<string>): Option<string> {
    FirstPresent(YEAR_COLUMNS, columns)
  }

  /** The DISTINCT query over the chosen year column, without nulls and ordered. */
  function YearsSql(col: string, table: string): string {
    if col == "NU_ANO" then
      "SELECT DISTINCT TRY_CAST(NU_ANO AS INT) as ano FROM " + table + " WHERE TRY_CAST(NU_ANO AS INT) IS NOT NULL ORDER BY 1"
    else
      "SELECT DISTINCT CAST(SUBSTR(CAST(DT_NOTIFIC AS VARCHAR), 1, 4) AS INT) as ano FROM " + table + " WHERE DT_NOTIFIC IS NOT NULL ORDER BY 1"
  }

  /** The query for the years of the table, if it has a year column. */
  function YearsQuery(table: string, columns: seq<string>): Option<string> {
    var col := YearColumn(columns);
    if col.Some? then Some(YearsSql(col.value, table)) else None
  }

  /** NU_ANO is used whenever present, DT_NOTIFIC only without it, and there is no query without both. */
  lemma YearColumnPriority(columns: seq<string>)
    ensures YearColumn(columns).None? <==> "NU_ANO" !in columns && "DT_NOTIFIC" !in columns
    ensures "NU_ANO" in columns ==> YearColumn(columns) == Some("NU_ANO")
    ensures "NU_ANO" !in columns && "DT_NOTIFIC" in columns ==> YearColumn(columns) == Some("DT_NOTIFIC")
  {
  }

  /** Insertion of one year into an ascending list. */
  function InsertYear(x: int, xs: seq<int>): (r: seq<int>)
    ensures multiset(r) == multiset(xs) + multiset{x}
    ensures |r| == |xs| + 1
  {
    if xs == [] || x <= xs[0] then [x] + xs
    else
      assert xs == [xs[0]] + xs[1..];
      [xs[0]] + InsertYear(x, xs[1..])
  }

  predicate Ascending(xs: seq<int>) {
    forall i, j :: 0 <= i < j < |xs| ==> xs[i] <= xs[j]
  }

  /** Python's sorted() on a list of years. */
  function SortYears(xs: seq<int>): seq<int> {
    if xs == [] then [] else InsertYear(xs[0], SortYears(xs[1..]))
  }

  lemma {:induction false} InsertYearAscending(x: int, xs: seq<int>)
    requires Ascending(xs)
    ensures Ascending(InsertYear(x, xs))
  {
    if xs != [] && x > xs[0] {
      InsertYearAscending(x, xs[1..]);
      InsertYearBounded(x, xs[1..], xs[0]);
      ConsAscending(xs[0], InsertYear(x, xs[1..]));
    }
  }

  /** Inserting a year no smaller than lo into years no smaller than lo keeps them all no smaller than lo. */
  lemma InsertYearBounded(x: int, xs: seq<int>, lo: int)
    requires lo <= x && forall k :: 0 <= k < |xs| ==> lo <= xs[k]
    ensures forall k :: 0 <= k < |InsertYear(x, xs)| ==> lo <= InsertYear(x, xs)[k]
  {
    var r := InsertYear(x, xs);
    forall k | 0 <= k < |r|
      ensures lo <= r[k]
    {
      assert r[k] in multiset(r);
      assert r[k] in multiset(xs) + multiset{x};
      if r[k] != x {
        assert r[k] in xs;
      }
    }
  }

  lemma ConsAscending(y: int, r: seq<int>)
    requires Ascending(r) && forall k :: 0 <= k < |r| ==> y <= r[k]
    ensures Ascending([y] + r)
  {
  }

  /** sorted() gives an ascending permutation of its input. */
  lemma {:induction false} SortYearsSpec(xs: seq<int>)
    ensures Ascending(SortYears(xs))
    ensures multiset(SortYears(xs)) == multiset(xs)
  {
    SortYearsAscending(xs);
    SortYearsPermutes(xs);
  }

  lemma {:induction false} SortYearsAscending(xs: seq<int>)
    ensures Ascending(SortYears(xs))
  {
    if xs != [] {
      SortYearsAscending(xs[1..]);
      InsertYearAscending(xs[0], SortYears(xs[1..]));
    }
  }

  lemma {:induction false} SortYearsPermutes(xs: seq<int>)
    ensures multiset(SortYears(xs)) == multiset(xs)
  {
    if xs != [] {
      SortYearsPermutes(xs[1..]);
      assert xs == [xs[0]] + xs[1..];
    }
  }

  /**
   * get_available_years: the sorted years DuckDB returns for the chosen
   * query; the empty list when the table has neither column or when DESCRIBE
   * or the query fails.
   */
  method GetAvailableYears(table: string, columns: Option<seq<string>>, run: string -> Option<seq<int>>)
    returns (years: seq<int>)
    ensures columns.None? || YearsQuery(table, columns.value).None? ==> years == []
    ensures columns.Some? && YearsQuery(table, columns.value).Some? ==>
              var fetched := run(YearsQuery(table, columns.value).value);
              (fetched.None? ==> years == []) &&
              (fetched.Some? ==> Ascending(years) && multiset(years) == multiset(fetched.value))
  {
    if columns.None? {
      return [];
    }
    var query := YearsQuery(table, columns.value);
    if query.None? {
      return [];
    }
    var df := run(query.value);
    if df.None? {
      return [];
    }
    years := SortYears(df.value);
    SortYearsSpec(df.value);
  }

  /** The state columns, the decoded name first. */
  const UF_COLUMNS: seq<string> := ["UF_NOTIFIC", "SG_UF_NOT", "SG_UF"]

  /** The column the states are read from. */
  function UfColumn(columns: seq<string>): Option<string> {
    FirstPresent(UF_COLUMNS, columns)
  }

  /** The DISTINCT query over the chosen state column; the decoded names leave out 'N/A' and 'Não informado'. */
  function UfsSql(col: string, table: string): string {
    if col == "UF_NOTIFIC" then
      "SELECT DISTINCT UF_NOTIFIC FROM " + table
      + " WHERE UF_NOTIFIC IS NOT NULL AND UF_NOTIFIC != 'N/A' AND UF_NOTIFIC != 'Não informado' ORDER BY 1"
    else "SELECT DISTINCT " + col + " FROM " + table + " WHERE " + col + " IS NOT NULL ORDER BY 1"
  }

  /** The query for the states of the table, if it has a state column. */
  function UfsQuery(table: string, columns: seq<string>): Option<string> {
    var col := UfColumn(columns);
    if col.Some? then Some(UfsSql(col.value, table)) else None
  }

  /** UF_NOTIFIC when present, else SG_UF_NOT, else SG_UF, and no query without any of them. */
  lemma UfColumnPriority(columns: seq<string>)
    ensures UfColumn(columns).None? <==> "UF_NOTIFIC" !in columns && "SG_UF_NOT" !in columns && "SG_UF" !in columns
    ensures "UF_NOTIFIC" in columns ==> UfColumn(columns) == Some("UF_NOTIFIC")
    ensures "UF_NOTIFIC" !in columns && "SG_UF_NOT" in columns ==> UfColumn(columns) == Some("SG_UF_NOT")
    ensures "UF_NOTIFIC" !in columns && "SG_UF_NOT" !in columns && "SG_UF" in columns ==> UfColumn(columns) == Some("SG_UF")
  {
    assert UF_COLUMNS[1..] == ["SG_UF_NOT", "SG_UF"] && UF_COLUMNS[1..][1..] == ["SG_UF"];
    if "UF_NOTIFIC" !in columns {
      assert UfColumn(columns) == FirstPresent(["SG_UF_NOT", "SG_UF"], columns);
    }
  }

  /**
   * get_available_ufs: the values DuckDB returns for the chosen query, in
   * its order; the empty list without a state column or on an error.
   */
  method GetAvailableUfs(table: string, columns: Option<seq<string>>, run: string -> Option<seq<string>>)
    returns (ufs: seq<string>)
    ensures columns.None? || UfsQuery(table, columns.value).None? ==> ufs == []
    ensures columns.Some? && UfsQuery(table, columns.value).Some? ==>
              var fetched := run(UfsQuery(table, columns.value).value);
              (fetched.None? ==> ufs == []) && (fetched.Some? ==> ufs == fetched.value)
  {
    if columns.None? {
      return [];
    }
    var query := UfsQuery(table, columns.value);
    if query.None? {
      return [];
    }
    var df := run(query.value);
    ufs := if df.Some? then df.value else [];
  }

  // ---------------------------------------------------------------------
  // get_filtered_data: the query

  /** The columns read from the snapshot. */
  const SNAPSHOT_COLUMNS: seq<string> := [
    "DT_NOTIFIC", "DT_OCOR", "NU_ANO", "ANO_NOTIFIC", "UF_NOTIFIC", "MUNICIPIO_NOTIFIC",
    "TIPO_VIOLENCIA", "FAIXA_ETARIA", "SEXO", "AUTOR_SEXO_CORRIGIDO", "GRAU_PARENTESCO",
    "TEMPO_OCOR_DENUNCIA", "ENCAMINHAMENTOS_JUSTICA"]

  /** The state names the filter accepts and their IBGE codes. */
  const UF_MAP: map<string, string> := map[
    "Rondônia" := "11", "Acre" := "12", "Amazonas" := "13", "Roraima" := "14",
    "Pará" := "15", "Amapá" := "16", "Tocantins" := "17", "Maranhão" := "21",
    "Piauí" := "22", "Ceará" := "23", "Rio Grande do Norte" := "24", "Paraíba" := "25",
    "Pernambuco" := "26", "Alagoas" := "27", "Sergipe" := "28", "Bahia" := "29",
    "Minas Gerais" := "31", "Espírito Santo" := "32", "Rio de Janeiro" := "33",
    "São Paulo" := "35", "Paraná" := "41", "Santa Catarina" := "42",
    "Rio Grande do Sul" := "43", "Mato Grosso do Sul" := "50",
    "Mato Grosso" := "51", "Goiás" := "52", "Distrito Federal" := "53"]

  /** An inclusive range of years. */
  datatype YearRange = YearRange(start: int, end: int)

  /** The clauses query_parts receives, each standing for the text Render gives it. */
  datatype Clause =
    | Head(table: string, snapshot: bool)
    | AgeIn
    | YearFromDate(range: YearRange)
    | YearFromNuAno(range: YearRange)
    | UfEquals(column: string, code: string)

  /** " BETWEEN {start_year} AND {end_year}". */
  function Between(range: YearRange): string {
    " BETWEEN " + IntToDecimal(range.start) + " AND " + IntToDecimal(range.end)
  }

  /** The projection of each mode. */
  function Projection(snapshot: bool): string {
    if snapshot then Join(", ", SNAPSHOT_COLUMNS) else "*"
  }

  /** The text of a clause. */
  function Render(c: Clause): string {
    match c
    case Head(table, snapshot) => "SELECT " + Projection(snapshot) + " FROM " + table + " WHERE 1=1"
    case AgeIn => "AND NU_IDADE_N " + DuckdbProcessor.AgeCondition(DuckdbProcessor.AgeCodeList())
    case YearFromDate(range) => "AND CAST(SUBSTR(CAST(DT_NOTIFIC AS VARCHAR), 1, 4) AS INT)" + Between(range)
    case YearFromNuAno(range) => "AND TRY_CAST(NU_ANO AS INT)" + Between(range)
    case UfEquals(column, code) => "AND CAST(" + column + " AS VARCHAR) = '" + code + "'"
  }

  /** The year clause: by the first four characters of DT_NOTIFIC if present, else by NU_ANO, else none. */
  function YearClause(columns: seq<string>, yearRange: Option<YearRange>): Option<Clause> {
    if yearRange.None? then None
    else if "DT_NOTIFIC" in columns then Some(YearFromDate(yearRange.value))
    else if "NU_ANO" in columns then Some(YearFromNuAno(yearRange.value))
    else None
  }

  /** The state clause: a known state other than 'Todos', compared on SG_UF_NOT if present, else SG_UF. */
  function UfClause(columns: seq<string>, uf: Option<string>): Option<Clause> {
    if uf.None? || uf.value == "" || uf.value == "Todos" || uf.value !in UF_MAP then None
    else if "SG_UF_NOT" in columns then Some(UfEquals("SG_UF_NOT", UF_MAP[uf.value]))
    else if "SG_UF" in columns then Some(UfEquals("SG_UF", UF_MAP[uf.value]))
    else None
  }

  function OptionList(c: Option<Clause>): seq<Clause> {
    if c.Some? then [c.value] else []
  }

  /** The clauses in the order they are appended. */
  function Clauses(table: string, snapshot: bool, columns: seq<string>,
                   yearRange: Option<YearRange>, uf: Option<string>): seq<Clause> {
    [Head(table, snapshot)] + (if snapshot then [] else [AgeIn])
    + OptionList(YearClause(columns, yearRange)) + OptionList(UfClause(columns, uf))
  }

  function RenderAll(cs: seq<Clause>): (texts: seq<string>)
    ensures |texts| == |cs| && forall i :: 0 <= i < |cs| ==> texts[i] == Render(cs[i])
  {
    seq(|cs|, i requires 0 <= i < |cs| => Render(cs[i]))
  }

  /** " ".join(query_parts). */
  function FilteredQuery(table: string, snapshot: bool, columns: seq<string>,
                         yearRange: Option<YearRange>, uf: Option<string>): string {
    Join(" ", RenderAll(Clauses(table, snapshot, columns, yearRange, uf)))
  }

  /**
   * The query assembly of get_filtered_data: each step appends its clause,
   * and the clauses are joined by spaces as they are rendered. The
   * municipality and the violence type are accepted and play no part in the
   * query.
   */
  method BuildFilteredQuery(table: string, snapshot: bool, columns: seq<string>, yearRange: Option<YearRange>,
                            uf: Option<string>, municipio: Option<string>, violenceType: Option<string>)
    returns (fullQuery: string)
    ensures fullQuery == FilteredQuery(table, snapshot, columns, yearRange, uf)
  {
    var queryParts := CollectClauses(table, snapshot, columns, yearRange, uf);
    fullQuery := Join(" ", RenderAll(queryParts));
  }

  /** The clauses of the query, appended step by step. */
  method CollectClauses(table: string, snapshot: bool, columns: seq<string>, yearRange: Option<YearRange>,
                        uf: Option<string>)
    returns (queryParts: seq<Clause>)
    ensures queryParts == Clauses(table, snapshot, columns, yearRange, uf)
  {
    queryParts := [Head(table, snapshot)];
    if !snapshot {
      queryParts := queryParts + [AgeIn];
    }
    if yearRange.Some? {
      if "DT_NOTIFIC" in columns {
        queryParts := queryParts + [YearFromDate(yearRange.value)];
      } else if "NU_ANO" in columns {
        queryParts := queryParts + [YearFromNuAno(yearRange.value)];
      }
    }
    queryParts := AppendUfClause(queryParts, columns, uf);
  }

  /** The state step of get_filtered_data. */
  method AppendUfClause(queryParts: seq<Clause>, columns: seq<string>, uf: Option<string>)
    returns (parts: seq<Clause>)
    ensures parts == queryParts + OptionList(UfClause(columns, uf))
  {
    parts := queryParts;
    if uf.Some? && uf.value != "" && uf.value != "Todos" {
      if uf.value in UF_MAP {
        var ufCode := UF_MAP[uf.value];
        if "SG_UF_NOT" in columns {
          parts := parts + [UfEquals("SG_UF_NOT", ufCode)];
        } else if "SG_UF" in columns {
          parts := parts + [UfEquals("SG_UF", ufCode)];
        }
      }
    }
  }

  /** The snapshot projection names 13 distinct columns. */
  lemma SnapshotColumnsShape()
    ensures |SNAPSHOT_COLUMNS| == 13 && Distinct(SNAPSHOT_COLUMNS)
  {
  }

  /** Every query opens with the projection of its mode and WHERE 1=1. */
  lemma FilteredQueryOpens(table: string, snapshot: bool, columns: seq<string>,
                           yearRange: Option<YearRange>, uf: Option<string>)
    ensures StartsWith(FilteredQuery(table, snapshot, columns, yearRange, uf),
                       "SELECT " + Projection(snapshot) + " FROM " + table + " WHERE 1=1")
  {
    var texts := RenderAll(Clauses(table, snapshot, columns, yearRange, uf));
    DuckdbProcessor.JoinPrefix(" ", texts);
  }

  /** The age clause is among the clauses exactly when the raw view is read. */
  lemma AgeClauseOnlyRaw(table: string, snapshot: bool, columns: seq<string>,
                         yearRange: Option<YearRange>, uf: Option<string>)
    ensures AgeIn in Clauses(table, snapshot, columns, yearRange, uf) <==> !snapshot
  {
  }

  /** " ... BETWEEN a AND b" closes a text. */
  lemma EndsWithBetween(front: string, range: YearRange)
    ensures var s := front + Between(range);
            |s| >= |Between(range)| && s[|s| - |Between(range)|..] == Between(range)
  {
    var s := front + Between(range);
    assert s[|front|..] == Between(range);
  }

  /**
   * A year clause is added exactly for a year range and a table with
   * DT_NOTIFIC or NU_ANO, preferring DT_NOTIFIC; its text bounds the year by
   * both ends of the range.
   */
  lemma YearClauseSpec(columns: seq<string>, yearRange: Option<YearRange>)
    ensures YearClause(columns, yearRange).Some? <==>
              yearRange.Some? && ("DT_NOTIFIC" in columns || "NU_ANO" in columns)
    ensures yearRange.Some? && "DT_NOTIFIC" in columns ==> YearClause(columns, yearRange) == Some(YearFromDate(yearRange.value))
    ensures yearRange.Some? && "DT_NOTIFIC" !in columns && "NU_ANO" in columns ==>
              YearClause(columns, yearRange) == Some(YearFromNuAno(yearRange.value))
    ensures YearClause(columns, yearRange).Some? ==>
              var p := Render(YearClause(columns, yearRange).value);
              var b := Between(yearRange.value);
              |p| >= |b| && p[|p| - |b|..] == b
  {
    if yearRange.Some? {
      if "DT_NOTIFIC" in columns {
        EndsWithBetween("AND CAST(SUBSTR(CAST(DT_NOTIFIC AS VARCHAR), 1, 4) AS INT)", yearRange.value);
      } else if "NU_ANO" in columns {
        EndsWithBetween("AND TRY_CAST(NU_ANO AS INT)", yearRange.value);
      }
    }
  }

  /**
   * A state clause is added exactly for a state name of the map other than
   * the empty text and 'Todos', on a table with SG_UF_NOT or SG_UF; it
   * compares SG_UF_NOT when the table has it, with the state's code.
   */
  lemma UfClauseSpec(columns: seq<string>, uf: Option<string>)
    ensures UfClause(columns, uf).Some? <==>
              && uf.Some? && uf.value != "" && uf.value != "Todos" && uf.value in UF_MAP
              && ("SG_UF_NOT" in columns || "SG_UF" in columns)
    ensures UfClause(columns, uf).Some? ==>
              UfClause(columns, uf).value == UfEquals(if "SG_UF_NOT" in columns then "SG_UF_NOT" else "SG_UF", UF_MAP[uf.value])
  {
  }

  /** Each state code's name maps back to the code. */
  lemma UfMapInvertsCodes()
    ensures forall code :: code in ComprehensiveDerived.UF_NAMES ==> ComprehensiveDerived.UF_NAMES[code] in UF_MAP && UF_MAP[ComprehensiveDerived.UF_NAMES[code]] == code
  {
    forall code | code in ComprehensiveDerived.UF_NAMES
      ensures ComprehensiveDerived.UF_NAMES[code] in UF_MAP && UF_MAP[ComprehensiveDerived.UF_NAMES[code]] == code
    {
      if code == "11" {
        CodeNames11();
        MapsBack11();
      } else if code == "12" {
        CodeNames12();
        MapsBack12();
      } else if code == "13" {
        CodeNames13();
        MapsBack13();
      } else if code == "14" {
        CodeNames14();
        MapsBack14();
      } else if code == "15" {
        CodeNames15();
        MapsBack15();
      } else if code == "16" {
        CodeNames16();
        MapsBack16();
      } else if code == "17" {
        CodeNames17();
        MapsBack17();
      } else if code == "21" {
        CodeNames21();
        MapsBack21();
      } else if code == "22" {
        CodeNames22();
        MapsBack22();
      } else if code == "23" {
        CodeNames23();
        MapsBack23();
      } else if code == "24" {
        CodeNames24();
        MapsBack24();
      } else if code == "25" {
        CodeNames25();
        MapsBack25();
      } else if code == "26" {
        CodeNames26();
        MapsBack26();
      } else if code == "27" {
        CodeNames27();
        MapsBack27();
      } else if code == "28" {
        CodeNames28();
        MapsBack28();
      } else if code == "29" {
        CodeNames29();
        MapsBack29();
      } else if code == "31" {
        CodeNames31();
        MapsBack31();
      } else if code == "32" {
        CodeNames32();
        MapsBack32();
      } else if code == "33" {
        CodeNames33();
        MapsBack33();
      } else if code == "35" {
        CodeNames35();
        MapsBack35();
      } else if code == "41" {
        CodeNames41();
        MapsBack41();
      } else if code == "42" {
        CodeNames42();
        MapsBack42();
      } else if code == "43" {
        CodeNames43();
        MapsBack43();
      } else if code == "50" {
        CodeNames50();
        MapsBack50();
      } else if code == "51" {
        CodeNames51();
        MapsBack51();
      } else if code == "52" {
        CodeNames52();
        MapsBack52();
      } else if code == "53" {
        CodeNames53();
        MapsBack53();
      }
    }
  }

  /** Every name of uf_map is the name of some state code. */
  lemma UfMapNamesAreStateNames()
    ensures forall name :: name in UF_MAP ==> exists code :: code in ComprehensiveDerived.UF_NAMES && ComprehensiveDerived.UF_NAMES[code] == name
  {
    forall name | name in UF_MAP
      ensures exists code :: code in ComprehensiveDerived.UF_NAMES && ComprehensiveDerived.UF_NAMES[code] == name
    {
      if name == "Rondônia" {
        CodeNames11();
      } else if name == "Acre" {
        CodeNames12();
      } else if name == "Amazonas" {
        CodeNames13();
      } else if name == "Roraima" {
        CodeNames14();
      } else if name == "Pará" {
        CodeNames15();
      } else if name == "Amapá" {
        CodeNames16();
      } else if name == "Tocantins" {
        CodeNames17();
      } else if name == "Maranhão" {
        CodeNames21();
      } else if name == "Piauí" {
        CodeNames22();
      } else if name == "Ceará" {
        CodeNames23();
      } else if name == "Rio Grande do Norte" {
        CodeNames24();
      } else if name == "Paraíba" {
        CodeNames25();
      } else if name == "Pernambuco" {
        CodeNames26();
      } else if name == "Alagoas" {
        CodeNames27();
      } else if name == "Sergipe" {
        CodeNames28();
      } else if name == "Bahia" {
        CodeNames29();
      } else if name == "Minas Gerais" {
        CodeNames31();
      } else if name == "Espírito Santo" {
        CodeNames32();
      } else if name == "Rio de Janeiro" {
        CodeNames33();
      } else if name == "São Paulo" {
        CodeNames35();
      } else if name == "Paraná" {
        CodeNames41();
      } else if name == "Santa Catarina" {
        CodeNames42();
      } else if name == "Rio Grande do Sul" {
        CodeNames43();
      } else if name == "Mato Grosso do Sul" {
        CodeNames50();
      } else if name == "Mato Grosso" {
        CodeNames51();
      } else if name == "Goiás" {
        CodeNames52();
      } else if name == "Distrito Federal" {
        CodeNames53();
      }
    }
  }

  /** uf_map is the inverse of the state dictionary, in both directions. */
  lemma UfMapInvertsStateNames()
    ensures forall code :: code in ComprehensiveDerived.UF_NAMES ==> ComprehensiveDerived.UF_NAMES[code] in UF_MAP && UF_MAP[ComprehensiveDerived.UF_NAMES[code]] == code
    ensures forall name :: name in UF_MAP ==> UF_MAP[name] in ComprehensiveDerived.UF_NAMES && ComprehensiveDerived.UF_NAMES[UF_MAP[name]] == name
  {
    UfMapInvertsCodes();
    UfMapNamesAreStateNames();
  }

  /** The state dictionary names each code; one lemma per code keeps each lookup small. */
  lemma CodeNames11()
    ensures "11" in ComprehensiveDerived.UF_NAMES && ComprehensiveDerived.UF_NAMES["11"] == "Rondônia"
  {
  }

  lemma CodeNames12()
    ensures "12" in ComprehensiveDerived.UF_NAMES && ComprehensiveDerived.UF_NAMES["12"] == "Acre"
  {
  }

  lemma CodeNames13()
    ensures "13" in ComprehensiveDerived.UF_NAMES && ComprehensiveDerived.UF_NAMES["13"] == "Amazonas"
  {
  }

  lemma CodeNames14()
    ensures "14" in ComprehensiveDerived.UF_NAMES && ComprehensiveDerived.UF_NAMES["14"] == "Roraima"
  {
  }

  lemma CodeNames15()
    ensures "15" in ComprehensiveDerived.UF_NAMES && ComprehensiveDerived.UF_NAMES["15"] == "Pará"
  {
  }

  lemma CodeNames16()
    ensures "16" in ComprehensiveDerived.UF_NAMES && ComprehensiveDerived.UF_NAMES["16"] == "Amapá"
  {
  }

  lemma CodeNames17()
    ensures "17" in ComprehensiveDerived.UF_NAMES && ComprehensiveDerived.UF_NAMES["17"] == "Tocantins"
  {
  }

  lemma CodeNames21()
    ensures "21" in ComprehensiveDerived.UF_NAMES && ComprehensiveDerived.UF_NAMES["21"] == "Maranhão"
  {
  }

  lemma CodeNames22()
    ensures "22" in ComprehensiveDerived.UF_NAMES && ComprehensiveDerived.UF_NAMES["22"] == "Piauí"
  {
  }

  lemma CodeNames23()
    ensures "23" in ComprehensiveDerived.UF_NAMES && ComprehensiveDerived.UF_NAMES["23"] == "Ceará"
  {
  }

  lemma CodeNames24()
    ensures "24" in ComprehensiveDerived.UF_NAMES && ComprehensiveDerived.UF_NAMES["24"] == "Rio Grande do Norte"
  {
  }

  lemma CodeNames25()
    ensures "25" in ComprehensiveDerived.UF_NAMES && ComprehensiveDerived.UF_NAMES["25"] == "Paraíba"
  {
  }

  lemma CodeNames26()
    ensures "26" in ComprehensiveDerived.UF_NAMES && ComprehensiveDerived.UF_NAMES["26"] == "Pernambuco"
  {
  }

  lemma CodeNames27()
    ensures "27" in ComprehensiveDerived.UF_NAMES && ComprehensiveDerived.UF_NAMES["27"] == "Alagoas"
  {
  }

  lemma CodeNames28()
    ensures "28" in ComprehensiveDerived.UF_NAMES && ComprehensiveDerived.UF_NAMES["28"] == "Sergipe"
  {
  }

  lemma CodeNames29()
    ensures "29" in ComprehensiveDerived.UF_NAMES && ComprehensiveDerived.UF_NAMES["29"] == "Bahia"
  {
  }

  lemma CodeNames31()
    ensures "31" in ComprehensiveDerived.UF_NAMES && ComprehensiveDerived.UF_NAMES["31"] == "Minas Gerais"
  {
  }

  lemma CodeNames32()
    ensures "32" in ComprehensiveDerived.UF_NAMES && ComprehensiveDerived.UF_NAMES["32"] == "Espírito Santo"
  {
  }

  lemma CodeNames33()
    ensures "33" in ComprehensiveDerived.UF_NAMES && ComprehensiveDerived.UF_NAMES["33"] == "Rio de Janeiro"
  {
  }

  lemma CodeNames35()
    ensures "35" in ComprehensiveDerived.UF_NAMES && ComprehensiveDerived.UF_NAMES["35"] == "São Paulo"
  {
  }

  lemma CodeNames41()
    ensures "41" in ComprehensiveDerived.UF_NAMES && ComprehensiveDerived.UF_NAMES["41"] == "Paraná"
  {
  }

  lemma CodeNames42()
    ensures "42" in ComprehensiveDerived.UF_NAMES && ComprehensiveDerived.UF_NAMES["42"] == "Santa Catarina"
  {
  }

  lemma CodeNames43()
    ensures "43" in ComprehensiveDerived.UF_NAMES && ComprehensiveDerived.UF_NAMES["43"] == "Rio Grande do Sul"
  {
  }

  lemma CodeNames50()
    ensures "50" in ComprehensiveDerived.UF_NAMES && ComprehensiveDerived.UF_NAMES["50"] == "Mato Grosso do Sul"
  {
  }

  lemma CodeNames51()
    ensures "51" in ComprehensiveDerived.UF_NAMES && ComprehensiveDerived.UF_NAMES["51"] == "Mato Grosso"
  {
  }

  lemma CodeNames52()
    ensures "52" in ComprehensiveDerived.UF_NAMES && ComprehensiveDerived.UF_NAMES["52"] == "Goiás"
  {
  }

  lemma CodeNames53()
    ensures "53" in ComprehensiveDerived.UF_NAMES && ComprehensiveDerived.UF_NAMES["53"] == "Distrito Federal"
  {
  }

  /** uf_map gives each name its code. */
  lemma MapsBack11()
    ensures "Rondônia" in UF_MAP && UF_MAP["Rondônia"] == "11"
  {
  }

  lemma MapsBack12()
    ensures "Acre" in UF_MAP && UF_MAP["Acre"] == "12"
  {
  }

  lemma MapsBack13()
    ensures "Amazonas" in UF_MAP && UF_MAP["Amazonas"] == "13"
  {
  }

  lemma MapsBack14()
    ensures "Roraima" in UF_MAP && UF_MAP["Roraima"] == "14"
  {
  }

  lemma MapsBack15()
    ensures "Pará" in UF_MAP && UF_MAP["Pará"] == "15"
  {
  }

  lemma MapsBack16()
    ensures "Amapá" in UF_MAP && UF_MAP["Amapá"] == "16"
  {
  }

  lemma MapsBack17()
    ensures "Tocantins" in UF_MAP && UF_MAP["Tocantins"] == "17"
  {
  }

  lemma MapsBack21()
    ensures "Maranhão" in UF_MAP && UF_MAP["Maranhão"] == "21"
  {
  }

  lemma MapsBack22()
    ensures "Piauí" in UF_MAP && UF_MAP["Piauí"] == "22"
  {
  }

  lemma MapsBack23()
    ensures "Ceará" in UF_MAP && UF_MAP["Ceará"] == "23"
  {
  }

  lemma MapsBack24()
    ensures "Rio Grande do Norte" in UF_MAP && UF_MAP["Rio Grande do Norte"] == "24"
  {
  }

  lemma MapsBack25()
    ensures "Paraíba" in UF_MAP && UF_MAP["Paraíba"] == "25"
  {
  }

  lemma MapsBack26()
    ensures "Pernambuco" in UF_MAP && UF_MAP["Pernambuco"] == "26"
  {
  }

  lemma MapsBack27()
    ensures "Alagoas" in UF_MAP && UF_MAP["Alagoas"] == "27"
  {
  }

  lemma MapsBack28()
    ensures "Sergipe" in UF_MAP && UF_MAP["Sergipe"] == "28"
  {
  }

  lemma MapsBack29()
    ensures "Bahia" in UF_MAP && UF_MAP["Bahia"] == "29"
  {
  }

  lemma MapsBack31()
    ensures "Minas Gerais" in UF_MAP && UF_MAP["Minas Gerais"] == "31"
  {
  }

  lemma MapsBack32()
    ensures "Espírito Santo" in UF_MAP && UF_MAP["Espírito Santo"] == "32"
  {
  }

  lemma MapsBack33()
    ensures "Rio de Janeiro" in UF_MAP && UF_MAP["Rio de Janeiro"] == "33"
  {
  }

  lemma MapsBack35()
    ensures "São Paulo" in UF_MAP && UF_MAP["São Paulo"] == "35"
  {
  }

  lemma MapsBack41()
    ensures "Paraná" in UF_MAP && UF_MAP["Paraná"] == "41"
  {
  }

  lemma MapsBack42()
    ensures "Santa Catarina" in UF_MAP && UF_MAP["Santa Catarina"] == "42"
  {
  }

  lemma MapsBack43()
    ensures "Rio Grande do Sul" in UF_MAP && UF_MAP["Rio Grande do Sul"] == "43"
  {
  }

  lemma MapsBack50()
    ensures "Mato Grosso do Sul" in UF_MAP && UF_MAP["Mato Grosso do Sul"] == "50"
  {
  }

  lemma MapsBack51()
    ensures "Mato Grosso" in UF_MAP && UF_MAP["Mato Grosso"] == "51"
  {
  }

  lemma MapsBack52()
    ensures "Goiás" in UF_MAP && UF_MAP["Goiás"] == "52"
  {
  }

  lemma MapsBack53()
    ensures "Distrito Federal" in UF_MAP && UF_MAP["Distrito Federal"] == "53"
  {
  }

  // ---------------------------------------------------------------------
  // get_filtered_data: running the query

  /** The empty DataFrame returned when the query fails. */
  function EmptyFrame(): Frame {
    Frame([], [])
  }

  /**
   * get_filtered_data: the table DuckDB returns for the query; in the raw
   * view it is decoded and filtered for violence, its age already filtered
   * by the query. A failing query gives the empty table.
   */
  method GetFilteredData(table: string, snapshot: bool, columns: seq<string>, yearRange: Option<YearRange>,
                         uf: Option<string>, municipio: Option<string>, violenceType: Option<string>,
                         run: string -> Option<Frame>)
    returns (query: string, df: Frame)
    ensures query == FilteredQuery(table, snapshot, columns, yearRange, uf)
    ensures run(query).None? ==> df == EmptyFrame()
    ensures run(query).Some? && snapshot ==> df == run(query).value
    ensures run(query).Some? && !snapshot ==>
              df == ComprehensiveFilter.ComprehensiveFilter(DecodeFrame(LoadedDictionaries(), run(query).value), true)
  {
    query := BuildFilteredQuery(table, snapshot, columns, yearRange, uf, municipio, violenceType);
    var result := run(query);
    if result.None? {
      return query, EmptyFrame();
    }
    df := result.value;
    if !snapshot {
      df := DecodeFrame(LoadedDictionaries(), df);
      var percentage;
      df, percentage := ComprehensiveFilter.FilterComprehensiveViolence(df, true);
    }
  }
}
