/**
 * src/processors/sinan_data_processor_duckdb.py: the SQL text the DuckDB
 * processor sends over the parquet files, the columns and filters it asks
 * for, and the violence filter it applies to what comes back. DuckDB itself
 * is not modelled: the list of parquet files, the columns of the first file
 * and the table a query returns are inputs.
 */
module DuckdbProcessor {
  import opened Text
  import opened Frames
  import opened ComprehensiveDicts

  /** One entry of the filters dict: a column and its SQL condition; a dict keeps insertion order. */
  datatype SqlFilter = SqlFilter(col: string, condition: string)

  // ---------------------------------------------------------------------
  // query_with_filters

  /** The projection: '*' without columns, else the columns joined by ', '. */
  function Projection(columns: seq<string>): string {
    if columns == [] then "*" else Join(", ", columns)
  }

  /** f"{col} {condition}". */
  function FilterTerm(f: SqlFilter): string {
    f.col + " " + f.condition
  }

  /** The where_clauses list: one term per filter, in dict order. */
  function FilterTerms(filters: seq<SqlFilter>): (terms: seq<string>)
    ensures |terms| == |filters| && forall i :: 0 <= i < |filters| ==> terms[i] == FilterTerm(filters[i])
  {
    seq(|filters|, i requires 0 <= i < |filters| => FilterTerm(filters[i]))
  }

  /** The loop over filters.items(). */
  method WhereClauses(filters: seq<SqlFilter>) returns (clauses: seq<string>)
    ensures clauses == FilterTerms(filters)
  {
    clauses := [];
    for k := 0 to |filters|
      invariant clauses == FilterTerms(filters[..k])
    {
      clauses := clauses + [FilterTerm(filters[k])];
    }
    assert filters[..|filters|] == filters;
  }

  /** The WHERE part of a query: absent without filters, else the terms joined by ' AND '. */
  function WherePart(filters: seq<SqlFilter>): string {
    if filters == [] then "" else " WHERE " + Join(" AND ", FilterTerms(filters))
  }

  /** SELECT {cols_str} FROM read_parquet('{file_path}'), and the WHERE part. */
  function FileQuery(colsStr: string, file: string, filters: seq<SqlFilter>): string {
    "SELECT " + colsStr + " FROM read_parquet('" + file + "')" + WherePart(filters)
  }

  /** One query per file, in file order. */
  function FileQueries(colsStr: string, files: seq<string>, filters: seq<SqlFilter>): (qs: seq<string>)
    ensures |qs| == |files| && forall i :: 0 <= i < |files| ==> qs[i] == FileQuery(colsStr, files[i], filters)
  {
    seq(|files|, i requires 0 <= i < |files| => FileQuery(colsStr, files[i], filters))
  }

  /** The query query_with_filters runs; None stands for the empty DataFrame returned without files. */
  function QueryText(files: seq<string>, filters: seq<SqlFilter>, columns: seq<string>): Option<string> {
    if files == [] then None
    else Some(Join(" UNION ALL ", FileQueries(Projection(columns), files, filters)))
  }

  /** query_with_filters: one SELECT per file, each with the filters, joined by UNION ALL. */
  method QueryWithFilters(files: seq<string>, filters: seq<SqlFilter>, columns: seq<string>)
    returns (query: Option<string>)
    ensures query == QueryText(files, filters, columns)
  {
    if files == [] {
      return None;
    }
    var colsStr := if columns != [] then Join(", ", columns) else "*";
    var queries: seq<string> := [];
    for k := 0 to |files|
      invariant |queries| == k
      invariant forall j :: 0 <= j < k ==> queries[j] == FileQuery(colsStr, files[j], filters)
    {
      var q := "SELECT " + colsStr + " FROM read_parquet('" + files[k] + "')";
      if filters != [] {
        var whereClauses := WhereClauses(filters);
        if whereClauses != [] {
          q := q + " WHERE " + Join(" AND ", whereClauses);
        }
      }
      assert q == FileQuery(colsStr, files[k], filters);
      queries := queries + [q];
    }
    assert queries == FileQueries(colsStr, files, filters);
    return Some(Join(" UNION ALL ", queries));
  }

  /** Without files there is no query, with files there is one. */
  lemma QueryOnlyWithFiles(files: seq<string>, filters: seq<SqlFilter>, columns: seq<string>)
    ensures QueryText(files, filters, columns).None? <==> files == []
  {
  }

  /** A WHERE part appears exactly when there are filters, and then opens with ' WHERE '. */
  lemma WhereIffFilters(filters: seq<SqlFilter>)
    ensures WherePart(filters) == "" <==> filters == []
    ensures filters != [] ==> StartsWith(WherePart(filters), " WHERE ")
  {
    if filters != [] {
      assert WherePart(filters)[..7] == " WHERE ";
    }
  }

  /** The query opens with the SELECT of the first file, with the projection of the columns. */
  lemma QueryOpensWithFirstFile(files: seq<string>, filters: seq<SqlFilter>, columns: seq<string>)
    requires files != []
    ensures var head := "SELECT " + Projection(columns) + " FROM read_parquet('" + files[0] + "')";
            StartsWith(QueryText(files, filters, columns).value, head)
  {
    var qs := FileQueries(Projection(columns), files, filters);
    var head := "SELECT " + Projection(columns) + " FROM read_parquet('" + files[0] + "')";
    JoinPrefix(" UNION ALL ", qs);
    assert qs[0][..|head|] == head;
  }

  /** A single file is queried without any UNION ALL. */
  lemma SingleFileQuery(file: string, filters: seq<SqlFilter>, columns: seq<string>)
    ensures QueryText([file], filters, columns) == Some(FileQuery(Projection(columns), file, filters))
  {
    JoinSingleton(" UNION ALL ", FileQueries(Projection(columns), [file], filters)[0]);
    assert FileQueries(Projection(columns), [file], filters) == [FileQuery(Projection(columns), file, filters)];
  }

  /** A joined list opens with its first element. */
  lemma JoinPrefix(sep: string, xs: seq<string>)
    requires xs != []
    ensures StartsWith(Join(sep, xs), xs[0])
  {
    if |xs| > 1 {
      assert Join(sep, xs)[..|xs[0]|] == xs[0];
    }
  }

  // ---------------------------------------------------------------------
  // load_filtered_violence_data: columns and filters

  const ESSENTIAL_COLUMNS: seq<string> := [
    "DT_NOTIFIC", "NU_ANO", "SG_UF_NOT", "SG_UF", "ID_MUNICIP", "ID_MN_RESI",
    "NU_IDADE_N", "CS_SEXO", "VIOL_FISIC", "VIOL_PSICO", "VIOL_SEXU", "VIOL_INFAN",
    "LOCAL_OCOR", "AUTOR_SEXO", "AUTOR_ALCO", "CS_ESCOL_N", "CS_RACA",
    "SIT_CONJUG", "ID_OCUPA_N", "REDE_SAU", "REDE_EDUCA"]

  const ADDITIONAL_COLUMNS: seq<string> := [
    "DT_OCOR", "DT_ENCERRA", "DT_DIGITA", "DT_INVEST", "EVOLUCAO",
    "ENC_DELEG", "ENC_DPCA", "ENC_MPU", "ENC_VARA",
    "DELEG", "DELEG_CRIA", "DELEG_IDOS", "DELEG_MULH", "HORA_OCOR", "CLASSI_FIN"]

  /** The REL_* columns of the sample, in its order. */
  function RelColumns(sample: seq<string>): (r: seq<string>)
    ensures forall c :: c in r <==> c in sample && StartsWith(c, "REL_")
  {
    if sample == [] then []
    else (if StartsWith(sample[0], "REL_") then [sample[0]] else []) + RelColumns(sample[1..])
  }

  /** The columns asked for: the listed ones and the sample's REL_* columns, kept when the sample has them. */
  function AvailableColumns(sample: seq<string>): seq<string> {
    Present(ESSENTIAL_COLUMNS + ADDITIONAL_COLUMNS + RelColumns(sample), sample)
  }

  /** A column is asked for exactly when the first file has it and it is listed or a REL_* column. */
  lemma AvailableColumnsSpec(sample: seq<string>)
    ensures forall c :: c in AvailableColumns(sample) <==>
              c in sample && (c in ESSENTIAL_COLUMNS + ADDITIONAL_COLUMNS || StartsWith(c, "REL_"))
  {
  }

  /** The age codes as the source writes them: '4000', then '400' + str(i) for i = 1..17. */
  function DuckAgeCodes(): seq<string> {
    ["4000"] + seq(17, j requires 0 <= j < 17 => "400" + NatToDecimal(j + 1))
  }

  /**
   * The codes of ages 10 to 17 are not in that list: it holds the five
   * characters '40010'..'40017' instead of the codes '4010'..'4017' that
   * NU_IDADE_N and the age dictionary use, so those ages never match.
   */
  lemma DuckAgeCodesMissTeens(i: nat)
    requires 10 <= i < 18
    ensures AgeCode(i) !in DuckAgeCodes()
    ensures DuckAgeCodes()[i] == "400" + NatToDecimal(i) && |DuckAgeCodes()[i]| == 5
  {
    assert NatToDecimal(i) == NatToDecimal(i / 10) + [DigitChar(i % 10)];
    var codes := DuckAgeCodes();
    PadTwo(i);
    ZeroPadValue(i, 2);
    assert AgeCode(i)[2..] == ZeroPad(i, 2);
    forall k | 0 <= k < |codes|
      ensures codes[k] != AgeCode(i)
    {
      DuckAgeCodeShape(k);
    }
  }

  /** Entry k of that list: four characters encoding k below ten, five from ten on. */
  lemma DuckAgeCodeShape(k: nat)
    requires k < 18
    ensures k < 10 ==> |DuckAgeCodes()[k]| == 4 && DigitsValue(DuckAgeCodes()[k][2..]) == k
    ensures k >= 10 ==> |DuckAgeCodes()[k]| == 5
  {
    var c := DuckAgeCodes()[k];
    if k == 0 {
      assert c[2..] == "00";
      ZerosValue(2, "");
      assert seq(2, _ => '0') + "" == "00";
    } else if k < 10 {
      var d := NatToDecimal(k);
      assert c == "400" + d;
      assert c[2..] == "0" + d;
      ZerosValue(1, d);
      NatToDecimalValue(k);
      assert seq(1, _ => '0') + d == "0" + d;
    } else {
      assert NatToDecimal(k) == NatToDecimal(k / 10) + [DigitChar(k % 10)];
    }
  }

  /** The intended age codes, as the adapter writes them: '40' + the two-digit age, for 0..17. */
  function AgeCodeList(): seq<string> {
    seq(18, i requires 0 <= i < 18 => AgeCode(i))
  }

  /** The intended list holds exactly the 18 codes the age dictionary decodes. */
  lemma AgeCodeListMatchesDictionary()
    ensures forall k :: k in AgeCodeList() <==> k in AgeDictionary()
  {
    AgeDictionaryShape();
    forall k | k in AgeDictionary()
      ensures k in AgeCodeList()
    {
      var i :| 0 <= i < 18 && k == AgeCode(i);
      assert AgeCodeList()[i] == k;
    }
  }

  /** f"IN ('{age_list}')" with the codes joined by "', '". */
  function AgeCondition(codes: seq<string>): string {
    "IN ('" + Join("', '", codes) + "')"
  }

  /** The filters dict: the age condition when asked for, with the code list as written. */
  function LoadFilters(ageFilter: bool): seq<SqlFilter> {
    if ageFilter then [SqlFilter("NU_IDADE_N", AgeCondition(DuckAgeCodes()))] else []
  }

  // ---------------------------------------------------------------------
  // load_filtered_violence_data: the violence filter

  const VIOLENCE_COLUMNS: seq<string> := ["VIOL_SEXU", "VIOL_FISIC", "VIOL_PSICO", "VIOL_INFAN"]

  /** The texts this copy reads as "yes"; 'Sim' and 'sim' are not among them. */
  const VIOLENCE_VALUES: seq<string> := ["1", "SIM", "S", "1.0"]

  /** str(v) is one of the texts, or v is the number 1. */
  predicate IsViolent(v: Cell) {
    CellText(v) in VIOLENCE_VALUES || v == Num(1)
  }

  predicate AnyViolent(r: Row, cols: seq<string>) {
    exists c :: c in cols && IsViolent(Get(r, c))
  }

  function ViolentIn(available: seq<string>): (p: Row -> bool)
    ensures forall r :: p(r) == AnyViolent(r, available)
  {
    r => AnyViolent(r, available)
  }

  /** The violence step: only when asked and the table is not empty, and only with some VIOL_* column. */
  function ViolenceStage(df: Frame, violenceFilter: bool): Frame {
    var available := Present(VIOLENCE_COLUMNS, df.columns);
    if violenceFilter && |df.rows| > 0 && available != [] then Filter(df, ViolentIn(available)) else df
  }

  function ViolenceMask(rows: seq<Row>, col: string): (mask: seq<bool>)
    ensures |mask| == |rows| && forall i :: 0 <= i < |rows| ==> mask[i] == IsViolent(Get(rows[i], col))
  {
    seq(|rows|, i requires 0 <= i < |rows| => IsViolent(Get(rows[i], col)))
  }

  lemma AnyViolentSnoc(r: Row, cols: seq<string>, k: nat)
    requires k < |cols|
    ensures AnyViolent(r, cols[..k + 1]) == (AnyViolent(r, cols[..k]) || IsViolent(Get(r, cols[k])))
  {
    assert cols[..k + 1] == cols[..k] + [cols[k]];
  }

  /** The loop building violence_conditions, one mask per available column. */
  method ViolenceConditions(rows: seq<Row>, available: seq<string>) returns (conditions: seq<seq<bool>>)
    ensures |conditions| == |available|
    ensures forall j :: 0 <= j < |available| ==> conditions[j] == ViolenceMask(rows, available[j])
  {
    conditions := [];
    for k := 0 to |available|
      invariant |conditions| == k
      invariant forall j :: 0 <= j < k ==> conditions[j] == ViolenceMask(rows, available[j])
    {
      conditions := conditions + [ViolenceMask(rows, available[k])];
    }
  }

  /** The loop or-ing the masks. */
  method CombineConditions(rows: seq<Row>, available: seq<string>, conditions: seq<seq<bool>>)
    returns (combined: seq<bool>)
    requires available != [] && |conditions| == |available|
    requires forall j :: 0 <= j < |available| ==> conditions[j] == ViolenceMask(rows, available[j])
    ensures |combined| == |rows|
    ensures forall i :: 0 <= i < |rows| ==> combined[i] == AnyViolent(rows[i], available)
  {
    combined := conditions[0];
    assert available[..1] == [available[0]];
    for k := 1 to |conditions|
      invariant |combined| == |rows|
      invariant forall i :: 0 <= i < |rows| ==> combined[i] == AnyViolent(rows[i], available[..k])
    {
      var condition := conditions[k];
      forall i | 0 <= i < |rows| {
        AnyViolentSnoc(rows[i], available, k);
      }
      combined := seq(|combined|, i requires 0 <= i < |combined| => combined[i] || condition[i]);
    }
    assert available[..|available|] == available;
  }

  /** The violence step as the source runs it. */
  method FilterViolence(df: Frame, violenceFilter: bool) returns (result: Frame)
    ensures result == ViolenceStage(df, violenceFilter)
  {
    result := df;
    if violenceFilter && |df.rows| > 0 {
      var available := Present(VIOLENCE_COLUMNS, df.columns);
      if available != [] {
        var conditions := ViolenceConditions(df.rows, available);
        var combined := CombineConditions(df.rows, available, conditions);
        SelectWhere(df.rows, combined, ViolentIn(available));
        result := Frame(df.columns, Select(df.rows, combined));
      }
    }
  }

  /** The violence step only removes rows, keeping the rest in order. */
  lemma ViolenceStageSubsequence(df: Frame, violenceFilter: bool)
    ensures ViolenceStage(df, violenceFilter).columns == df.columns
    ensures IsSubsequence(ViolenceStage(df, violenceFilter).rows, df.rows)
  {
    IsSubsequenceRefl(df.rows);
  }

  /**
   * When the step runs, a row is kept exactly when one of the VIOL_* columns
   * present holds '1', 'SIM', 'S', '1.0' or the number 1.
   */
  lemma ViolenceStageKeeps(df: Frame, violenceFilter: bool, r: Row)
    requires violenceFilter && |df.rows| > 0 && Present(VIOLENCE_COLUMNS, df.columns) != []
    ensures r in ViolenceStage(df, violenceFilter).rows <==>
              r in df.rows && exists c :: c in VIOLENCE_COLUMNS && c in df.columns && IsViolent(Get(r, c))
  {
  }

  /** Not asked, an empty table or no VIOL_* column: the table comes back as it was loaded. */
  lemma ViolenceStageSkipped(df: Frame, violenceFilter: bool)
    requires !violenceFilter || |df.rows| == 0 || forall c :: c in VIOLENCE_COLUMNS ==> c !in df.columns
    ensures ViolenceStage(df, violenceFilter) == df
  {
    if Present(VIOLENCE_COLUMNS, df.columns) != [] {
      var c := Present(VIOLENCE_COLUMNS, df.columns)[0];
      assert c in Present(VIOLENCE_COLUMNS, df.columns);
    }
  }

  // ---------------------------------------------------------------------
  // load_filtered_violence_data as a whole

  /**
   * The outcome: the sample query indexes the first parquet file, so
   * without files the method fails before any query is built.
   */
  datatype LoadOutcome = NoParquetFile | Loaded(query: string, data: Frame)

  /**
   * load_filtered_violence_data: the columns of the first file (sample)
   * decide the projection, the age filter adds the age condition, and the
   * table DuckDB returns for the query (queried) goes through the violence
   * step.
   */
  method LoadFilteredViolenceData(files: seq<string>, sample: seq<string>, ageFilter: bool,
                                  violenceFilter: bool, queried: Frame)
    returns (outcome: LoadOutcome)
    ensures files == [] <==> outcome == NoParquetFile
    ensures outcome.Loaded? ==>
              && outcome.query == QueryText(files, LoadFilters(ageFilter), AvailableColumns(sample)).value
              && outcome.data == ViolenceStage(queried, violenceFilter)
  {
    if files == [] {
      return NoParquetFile;
    }
    var relColumns := RelColumns(sample);
    var allColumns := ESSENTIAL_COLUMNS + ADDITIONAL_COLUMNS + relColumns;
    var availableColumns := Present(allColumns, sample);
    var filters: seq<SqlFilter> := [];
    if ageFilter {
      filters := [SqlFilter("NU_IDADE_N", AgeCondition(DuckAgeCodes()))];
    }
    var query := QueryWithFilters(files, filters, availableColumns);
    var df := FilterViolence(queried, violenceFilter);
    return Loaded(query.value, df);
  }

  // ---------------------------------------------------------------------
  // aggregate_by_filters

  /** The per-file query of the aggregation, with the layout of its triple-quoted text. */
  function AggregateFileQuery(groupBy: string, file: string, filters: seq<SqlFilter>): string {
    CountSelect(groupBy, file) + WherePart(filters) + GroupByPart(groupBy)
  }

  function GroupByPart(groupBy: string): string {
    " GROUP BY " + groupBy
  }

  /** The SELECT ... COUNT(*) ... FROM read_parquet part of a per-file aggregate. */
  function CountSelect(groupBy: string, file: string): string {
    "\n                SELECT " + groupBy + ", COUNT(*) as contagem\n                FROM read_parquet('" + file + "')\n            "
  }

  /** The outer query around the union of the per-file aggregates. */
  function SumSelect(groupBy: string, union: string): string {
    SumHead(groupBy) + ("\n            FROM (\n                "
    + union + "\n            )\n            GROUP BY " + groupBy + "\n        ")
  }

  /** The outer SELECT line, which sums the per-file counts of each group. */
  function SumHead(groupBy: string): string {
    "\n            SELECT " + groupBy + ", SUM(contagem) as contagem"
  }

  function AggregateFileQueries(groupBy: string, files: seq<string>, filters: seq<SqlFilter>): (qs: seq<string>)
    ensures |qs| == |files| && forall i :: 0 <= i < |files| ==> qs[i] == AggregateFileQuery(groupBy, files[i], filters)
  {
    seq(|files|, i requires 0 <= i < |files| => AggregateFileQuery(groupBy, files[i], filters))
  }

  /** The outer query that sums the per-file counts; None without files. */
  function AggregateText(files: seq<string>, groupByColumns: seq<string>, filters: seq<SqlFilter>): Option<string> {
    if files == [] then None
    else
      var g := Join(", ", groupByColumns);
      Some(SumSelect(g, Join(" UNION ALL ", AggregateFileQueries(g, files, filters))))
  }

  /** aggregate_by_filters: count per group in each file, then sum the counts over the union. */
  method AggregateByFilters(files: seq<string>, groupByColumns: seq<string>, filters: seq<SqlFilter>)
    returns (query: Option<string>)
    ensures query == AggregateText(files, groupByColumns, filters)
  {
    if files == [] {
      return None;
    }
    var groupByStr := Join(", ", groupByColumns);
    var queries := AggregateQueries(groupByStr, files, filters);
    return Some(SumSelect(groupByStr, Join(" UNION ALL ", queries)));
  }

  /** The loop building one aggregate per file. */
  method AggregateQueries(groupByStr: string, files: seq<string>, filters: seq<SqlFilter>)
    returns (queries: seq<string>)
    ensures queries == AggregateFileQueries(groupByStr, files, filters)
  {
    queries := [];
    for k := 0 to |files|
      invariant |queries| == k
      invariant forall j :: 0 <= j < k ==> queries[j] == AggregateFileQuery(groupByStr, files[j], filters)
    {
      var q := CountSelect(groupByStr, files[k]);
      var where := "";
      if filters != [] {
        var whereClauses := WhereClauses(filters);
        if whereClauses != [] {
          where := " WHERE " + Join(" AND ", whereClauses);
        }
      }
      q := q + where + " GROUP BY " + groupByStr;
      assert where == WherePart(filters);
      queries := queries + [q];
    }
  }

  /** Every per-file aggregate ends by grouping on the same columns as the outer query. */
  lemma AggregateGroupsEachFile(groupBy: string, files: seq<string>, filters: seq<SqlFilter>, i: nat)
    requires i < |files|
    ensures var q := AggregateFileQueries(groupBy, files, filters)[i];
            |q| >= |" GROUP BY " + groupBy| && q[|q| - |" GROUP BY " + groupBy|..] == " GROUP BY " + groupBy
  {
    var q := AggregateFileQueries(groupBy, files, filters)[i];
    var tail := " GROUP BY " + groupBy;
    var front := CountSelect(groupBy, files[i]) + WherePart(filters);
    assert q == front + tail;
    assert q[|front|..] == tail;
  }

  /**
   * Each per-file aggregate opens with its COUNT select over that file and
   * carries the WHERE part of the plain query: it follows the select,
   * starting with ' WHERE ' exactly when there are filters.
   */
  lemma AggregateFiltersEachFile(groupBy: string, files: seq<string>, filters: seq<SqlFilter>, i: nat)
    requires i < |files|
    ensures var q := AggregateFileQueries(groupBy, files, filters)[i];
            var head := CountSelect(groupBy, files[i]);
            && StartsWith(q, head)
            && |q| >= |head| + |WherePart(filters)|
            && q[|head|..|head| + |WherePart(filters)|] == WherePart(filters)
            && (filters != [] <==> StartsWith(q[|head|..], " WHERE "))
  {
    assert GroupByPart(groupBy)[1] == 'G';
    WhereAfterHead(CountSelect(groupBy, files[i]), filters, GroupByPart(groupBy));
  }

  /** Between a head and a tail that opens with ' G', the WHERE part stands where the filters put it. */
  lemma WhereAfterHead(head: string, filters: seq<SqlFilter>, tail: string)
    requires |tail| >= 2 && tail[1] == 'G'
    ensures var q := head + WherePart(filters) + tail;
            && StartsWith(q, head)
            && |q| >= |head| + |WherePart(filters)|
            && q[|head|..|head| + |WherePart(filters)|] == WherePart(filters)
            && (filters != [] <==> StartsWith(q[|head|..], " WHERE "))
  {
    var w := WherePart(filters);
    ConcatSlices(head, w, tail);
    WhereIffFilters(filters);
    if filters != [] {
      assert (w + tail)[..7] == w[..7];
    } else {
      assert (w + tail)[1] == 'G';
    }
  }

  lemma ConcatSlices(a: string, b: string, c: string)
    ensures (a + b + c)[..|a|] == a && (a + b + c)[|a|..] == b + c && (a + b + c)[|a|..|a| + |b|] == b
  {
  }

  /** There is an aggregate exactly when there are files, and it opens by summing the counts per group. */
  lemma AggregateOnlyWithFiles(files: seq<string>, groupByColumns: seq<string>, filters: seq<SqlFilter>)
    ensures AggregateText(files, groupByColumns, filters).None? <==> files == []
    ensures files != [] ==>
              StartsWith(AggregateText(files, groupByColumns, filters).value, SumHead(Join(", ", groupByColumns)))
  {
    if files != [] {
      var g := Join(", ", groupByColumns);
      var union := Join(" UNION ALL ", AggregateFileQueries(g, files, filters));
      PrefixOfConcat(SumHead(g), "\n            FROM (\n                "
        + union + "\n            )\n            GROUP BY " + g + "\n        ");
    }
  }

  lemma PrefixOfConcat(a: string, b: string)
    ensures StartsWith(a + b, a)
  {
    assert (a + b)[..|a|] == a;
  }
}
